/** The progress tracker for analyses (src/scheduler/analysis_status.py): a worker that owns the
    status of every running firmware and changes it message by message. */
module AnalysisStatus {

  /** Progress of one firmware: three sets of files and four counters kept beside them. */
  datatype FwStatus = FwStatus(
    toUnpack: set<string>,
    toAnalyze: set<string>,
    completed: set<string>,
    totalCount: int,
    totalWithDuplicates: int,
    unpackedCount: int,
    analyzedCount: int,
    plugins: map<string, nat>,
    startTime: real)

  datatype Finished = Finished(totalCount: int, duration: real, timeFinished: real)
  datatype Canceled = Canceled(unpackedCount: int, analyzedCount: int, totalCount: int, timeFinished: real)

  datatype Message =
    | AddUpdate(fw: string, included: set<string>)
    | AddFirmware(uid: string, files: set<string>, scheduled: set<string>)
    | AddFile(uid: string, root: string, files: set<string>)
    | AddAnalysis(root: string, plugin: string)
    | RemoveFile(uid: string, root: string)
    | Cancel(root: string)

  /** What the worker holds; `analyzed` is the dictionary shared with the other processes. */
  datatype Tracker = Tracker(
    running: map<string, FwStatus>,
    analyzed: set<string>,
    finished: map<string, Finished>,
    canceled: map<string, Canceled>)

  const EMPTY := Tracker(map[], {}, map[], map[])

  // ---- what one message does ----

  function NewStatus(uid: string, files: set<string>, scheduled: set<string>, now: real): FwStatus {
    FwStatus(files, {uid}, {}, 1 + |files|, 1, 1, 0, map p | p in scheduled :: 0, now)
  }

  function WithUpdate(st: FwStatus, fw: string, included: set<string>): FwStatus {
    var n := |included| + 1;
    st.(toUnpack := {}, toAnalyze := {fw} + included,
        totalCount := n, totalWithDuplicates := n, unpackedCount := n)
  }

  function WithFile(st: FwStatus, uid: string, files: set<string>): FwStatus {
    var newFiles := files - (st.toUnpack + st.toAnalyze) - st.completed;
    var toUnpack := st.toUnpack + newFiles;
    var st' := st.(toUnpack := toUnpack,
                   totalCount := st.totalCount + |newFiles|,
                   totalWithDuplicates := st.totalWithDuplicates + 1);
    if uid in toUnpack then
      st'.(toUnpack := toUnpack - {uid}, toAnalyze := st.toAnalyze + {uid}, unpackedCount := st.unpackedCount + 1)
    else st'
  }

  function WithAnalysis(st: FwStatus, plugin: string): FwStatus {
    st.(plugins := st.plugins[plugin := (if plugin in st.plugins then st.plugins[plugin] else 0) + 1])
  }

  function WithCompleted(st: FwStatus, uid: string): FwStatus {
    st.(toAnalyze := st.toAnalyze - {uid}, completed := st.completed + {uid}, analyzedCount := st.analyzedCount + 1)
  }

  predicate IsDone(st: FwStatus) {
    |st.toUnpack| == |st.toAnalyze| == 0
  }

  /** The effect of a message. An update for a firmware that is not running raises KeyError and
      changes nothing. */
  function Handle(t: Tracker, m: Message, now: real): Tracker {
    match m
    case AddUpdate(fw, included) =>
      if fw !in t.running then t
      else t.(running := t.running[fw := WithUpdate(t.running[fw], fw, included)])
    case AddFirmware(uid, files, scheduled) =>
      t.(running := t.running[uid := NewStatus(uid, files, scheduled, now)], analyzed := t.analyzed + {uid})
    case AddFile(uid, root, files) =>
      if root !in t.running then t
      else t.(running := t.running[root := WithFile(t.running[root], uid, files)])
    case AddAnalysis(root, plugin) =>
      if root !in t.running then t
      else t.(running := t.running[root := WithAnalysis(t.running[root], plugin)])
    case RemoveFile(uid, root) =>
      if root !in t.running || uid !in t.running[root].toAnalyze then t
      else
        var st := WithCompleted(t.running[root], uid);
        if IsDone(st) then
          t.(running := t.running - {root}, analyzed := t.analyzed - {root},
             finished := t.finished[root := Finished(st.totalCount, now - st.startTime, now)])
        else t.(running := t.running[root := st])
    case Cancel(root) =>
      if root !in t.running then t
      else
        var st := t.running[root];
        t.(running := t.running - {root}, analyzed := t.analyzed - {root},
           canceled := t.canceled[root := Canceled(st.unpackedCount, st.analyzedCount, st.totalCount, now)])
  }

  /** The worker. `Update` is the body of `_update_status` for one queue entry. */
  class Worker {
    var currentlyRunning: map<string, FwStatus>
    var currentlyAnalyzed: map<string, bool>
    var recentlyFinished: map<string, Finished>
    var recentlyCanceled: map<string, Canceled>

    constructor ()
      ensures State() == EMPTY
    {
      currentlyRunning, currentlyAnalyzed := map[], map[];
      recentlyFinished, recentlyCanceled := map[], map[];
    }

    ghost function State(): Tracker
      reads this
    {
      Tracker(currentlyRunning, currentlyAnalyzed.Keys, recentlyFinished, recentlyCanceled)
    }

    /** `ok` is false when the message raised KeyError. */
    method Update(m: Message, now: real) returns (ok: bool)
      modifies this
      ensures State() == Handle(old(State()), m, now)
      ensures ok <==> (m.AddUpdate? ==> m.fw in old(currentlyRunning))
    {
      ok := true;
      match m {
        case AddUpdate(fw, included) => ok := HandleUpdate(fw, included);
        case AddFirmware(uid, files, scheduled) => HandleFirmware(uid, files, scheduled, now);
        case AddFile(uid, root, files) => AddIncludedFile(uid, root, files);
        case AddAnalysis(root, plugin) => HandleAnalysis(root, plugin);
        case RemoveFile(uid, root) => RemoveObject(uid, root, now);
        case Cancel(root) => CancelAnalysis(root, now);
      }
    }

    method HandleUpdate(fw: string, included: set<string>) returns (ok: bool)
      modifies this
      ensures State() == Handle(old(State()), AddUpdate(fw, included), 0.0)
      ensures ok <==> fw in old(currentlyRunning)
    {
      if fw !in currentlyRunning {
        return false;
      }
      var status := currentlyRunning[fw].(toUnpack := {});
      var fileCount := |included| + 1;
      status := status.(unpackedCount := fileCount);
      status := status.(totalCount := fileCount);
      status := status.(totalWithDuplicates := fileCount);
      status := status.(toAnalyze := {fw} + included);
      currentlyRunning := currentlyRunning[fw := status];
      return true;
    }

    method HandleFirmware(uid: string, files: set<string>, scheduled: set<string>, now: real)
      modifies this
      ensures State() == Handle(old(State()), AddFirmware(uid, files, scheduled), now)
    {
      currentlyRunning := currentlyRunning[uid := NewStatus(uid, files, scheduled, now)];
      currentlyAnalyzed := currentlyAnalyzed[uid := true];
    }

    method AddIncludedFile(uid: string, root: string, files: set<string>)
      modifies this
      ensures State() == Handle(old(State()), AddFile(uid, root, files), 0.0)
    {
      if root !in currentlyRunning {
        return;
      }
      var status := currentlyRunning[root];
      var allFiles := status.toUnpack + status.toAnalyze;
      var newFiles := files - allFiles - status.completed;
      status := status.(totalCount := status.totalCount + |newFiles|);
      status := status.(totalWithDuplicates := status.totalWithDuplicates + 1);
      status := status.(toUnpack := status.toUnpack + newFiles);
      if uid in status.toUnpack {
        status := status.(toUnpack := status.toUnpack - {uid});
        status := status.(toAnalyze := status.toAnalyze + {uid});
        status := status.(unpackedCount := status.unpackedCount + 1);
      }
      currentlyRunning := currentlyRunning[root := status];
    }

    method HandleAnalysis(root: string, plugin: string)
      modifies this
      ensures State() == Handle(old(State()), AddAnalysis(root, plugin), 0.0)
    {
      if root !in currentlyRunning {
        return;
      }
      var counts := currentlyRunning[root].plugins;
      if plugin !in counts {
        counts := counts[plugin := 0];
      }
      counts := counts[plugin := counts[plugin] + 1];
      assert counts == WithAnalysis(currentlyRunning[root], plugin).plugins;
      currentlyRunning := currentlyRunning[root := currentlyRunning[root].(plugins := counts)];
    }

    method RemoveObject(uid: string, root: string, now: real)
      modifies this
      ensures State() == Handle(old(State()), RemoveFile(uid, root), now)
    {
      if root !in currentlyRunning {
        return;
      }
      var status := currentlyRunning[root];
      if uid !in status.toAnalyze {
        return;
      }
      status := status.(toAnalyze := status.toAnalyze - {uid});
      status := status.(completed := status.completed + {uid});
      status := status.(analyzedCount := status.analyzedCount + 1);
      if |status.toUnpack| == |status.toAnalyze| == 0 {
        recentlyFinished := recentlyFinished[root := Finished(status.totalCount, now - status.startTime, now)];
        currentlyRunning := currentlyRunning - {root};
        currentlyAnalyzed := currentlyAnalyzed - {root};
      } else {
        currentlyRunning := currentlyRunning[root := status];
      }
    }

    method CancelAnalysis(root: string, now: real)
      modifies this
      ensures State() == Handle(old(State()), Cancel(root), now)
    {
      if root in currentlyRunning {
        var status := currentlyRunning[root];
        currentlyRunning := currentlyRunning - {root};
        recentlyCanceled := recentlyCanceled[
          root := Canceled(status.unpackedCount, status.analyzedCount, status.totalCount, now)];
        currentlyAnalyzed := currentlyAnalyzed - {root};
      }
    }
  }

  // ---- whole message sequences ----

  /** The tracker after the messages, starting from nothing; message `i` is handled at `times[i]`. */
  ghost function After(msgs: seq<Message>, times: seq<real>): Tracker
    requires |msgs| == |times|
  {
    if msgs == [] then EMPTY
    else
      var n := |msgs| - 1;
      Handle(After(msgs[..n], times[..n]), msgs[n], times[n])
  }

  /** No firmware includes itself, and an update directly follows the message that added its
      firmware. */
  ghost predicate WellFormed(msgs: seq<Message>) {
    forall i :: 0 <= i < |msgs| ==> MessageInPlace(msgs, i)
  }

  ghost predicate MessageInPlace(msgs: seq<Message>, i: nat)
    requires i < |msgs|
  {
    && (msgs[i].AddFirmware? ==> msgs[i].uid !in msgs[i].files)
    && (msgs[i].AddUpdate? ==>
      && msgs[i].fw !in msgs[i].included
      && i > 0 && msgs[i - 1].AddFirmware? && msgs[i - 1].uid == msgs[i].fw)
  }

  /** Sets and counters of one firmware agree. */
  ghost predicate Consistent(root: string, st: FwStatus) {
    && st.toUnpack !! st.toAnalyze && st.toUnpack !! st.completed && st.toAnalyze !! st.completed
    && root in st.toAnalyze + st.completed
    && st.totalCount == |st.toUnpack| + |st.toAnalyze| + |st.completed|
    && st.unpackedCount == |st.toAnalyze| + |st.completed|
    && st.analyzedCount == |st.completed|
    && st.unpackedCount <= st.totalWithDuplicates
  }

  ghost predicate TrackerConsistent(t: Tracker) {
    && t.analyzed == t.running.Keys
    && forall root :: root in t.running ==> Consistent(root, t.running[root])
  }

  /** The invariant of the tracker, over every well-formed message sequence. */
  lemma {:induction false} TrackerInvariant(msgs: seq<Message>, times: seq<real>)
    requires |msgs| == |times| && WellFormed(msgs)
    ensures TrackerConsistent(After(msgs, times))
  {
    if msgs != [] {
      var n := |msgs| - 1;
      assert forall i :: 0 <= i < n ==> MessageInPlace(msgs, i) ==> MessageInPlace(msgs[..n], i);
      assert MessageInPlace(msgs, n);
      TrackerInvariant(msgs[..n], times[..n]);
      var t := After(msgs[..n], times[..n]);
      if msgs[n].AddUpdate? {
        FirmwareJustAdded(msgs[..n], times[..n]);
      }
      HandleConsistent(t, msgs[n], times[n]);
    }
  }

  /** The tracker when the first `k` messages have been handled. */
  ghost function AfterFirst(msgs: seq<Message>, times: seq<real>, k: nat): Tracker
    requires |msgs| == |times| && k <= |msgs|
  {
    After(msgs[..k], times[..k])
  }

  /** Over any message sequence at all, the tracker stays consistent throughout exactly when every
      message is harmless where it arrives. */
  lemma ConsistentThroughout(msgs: seq<Message>, times: seq<real>)
    requires |msgs| == |times|
    ensures (forall k :: 0 <= k <= |msgs| ==> TrackerConsistent(AfterFirst(msgs, times, k)))
       <==> (forall k :: 0 <= k < |msgs| ==> Harmless(AfterFirst(msgs, times, k), msgs[k]))
  {
    hide TrackerConsistent, Harmless, Handle, AfterFirst;
    if forall k :: 0 <= k <= |msgs| ==> TrackerConsistent(AfterFirst(msgs, times, k)) {
      forall k | 0 <= k < |msgs| ensures Harmless(AfterFirst(msgs, times, k), msgs[k]) {
        NextMessage(msgs, times, k);
        assert TrackerConsistent(AfterFirst(msgs, times, k + 1));
        HandleConsistent(AfterFirst(msgs, times, k), msgs[k], times[k]);
      }
    }
    if forall k :: 0 <= k < |msgs| ==> Harmless(AfterFirst(msgs, times, k), msgs[k]) {
      forall k | 0 <= k <= |msgs| ensures TrackerConsistent(AfterFirst(msgs, times, k)) {
        HarmlessSoFar(msgs, times, k);
      }
    }
  }

  lemma NextMessage(msgs: seq<Message>, times: seq<real>, k: nat)
    requires |msgs| == |times| && k < |msgs|
    ensures AfterFirst(msgs, times, k + 1) == Handle(AfterFirst(msgs, times, k), msgs[k], times[k])
  {
    hide Handle;
    assert msgs[..k + 1][..k] == msgs[..k] && times[..k + 1][..k] == times[..k];
  }

  lemma {:induction false} HarmlessSoFar(msgs: seq<Message>, times: seq<real>, k: nat)
    requires |msgs| == |times| && k <= |msgs|
    requires forall i :: 0 <= i < |msgs| ==> Harmless(AfterFirst(msgs, times, i), msgs[i])
    ensures TrackerConsistent(AfterFirst(msgs, times, k))
  {
    hide TrackerConsistent, Harmless, Handle;
    if k == 0 {
      StartsConsistent();
    } else {
      HarmlessSoFar(msgs, times, k - 1);
      NextMessage(msgs, times, k - 1);
      HandleConsistent(AfterFirst(msgs, times, k - 1), msgs[k - 1], times[k - 1]);
    }
  }

  lemma StartsConsistent()
    ensures TrackerConsistent(EMPTY)
  {
  }

  /** Sequences that break the counters: a firmware that lists itself, and an update after a file
      of the run was completed. */
  lemma CountersBreak(now: real)
    ensures !TrackerConsistent(After([AddFirmware("fw", {"fw"}, {})], [now]))
    ensures !TrackerConsistent(After([AddFirmware("fw", {"x"}, {}), RemoveFile("fw", "fw"), AddUpdate("fw", {"x"})], [now, now, now]))
  {
    var start := AddFirmware("fw", {"fw"}, {});
    assert [start][..0] == [] && [now][..0] == [];
    StartsConsistent();
    HandleConsistent(EMPTY, start, now);
    assert After([start], [now]) == Handle(EMPTY, start, now);
    var added, removed, updated := AddFirmware("fw", {"x"}, {}), RemoveFile("fw", "fw"), AddUpdate("fw", {"x"});
    var t1 := Handle(EMPTY, added, now);
    var t2 := Handle(t1, removed, now);
    HandleConsistent(EMPTY, added, now);
    HandleConsistent(t1, removed, now);
    assert t2.running["fw"].completed == {"fw"};
    HandleConsistent(t2, updated, now);
    assert [added][..0] == [] && After([added], [now]) == t1;
    assert [added, removed][..1] == [added] && [now, now][..1] == [now];
    assert After([added, removed], [now, now]) == t2;
    assert [added, removed, updated][..2] == [added, removed] && [now, now, now][..2] == [now, now];
  }

  lemma FirmwareJustAdded(msgs: seq<Message>, times: seq<real>)
    requires |msgs| == |times| && msgs != [] && msgs[|msgs| - 1].AddFirmware?
    ensures var uid := msgs[|msgs| - 1].uid;
      var t := After(msgs, times);
      uid in t.running && t.running[uid].completed == {} && t.running[uid].analyzedCount == 0
  {
  }

  /** The message leaves sets and counters in step: a new firmware does not include itself, and an
      update of a running firmware meets as many completed files as it counts too many (one if it
      lists the firmware itself) and lists none of them again. */
  ghost predicate Harmless(t: Tracker, m: Message) {
    && (m.AddFirmware? ==> m.uid !in m.files)
    && (m.AddUpdate? && m.fw in t.running ==> UpdateFits(t.running[m.fw].completed, m.fw, m.included))
  }

  ghost predicate UpdateFits(completed: set<string>, fw: string, included: set<string>) {
    |completed| == (if fw in included then 1 else 0) && completed !! {fw} + included
  }

  /** Exactly the harmless messages keep a consistent tracker consistent. */
  lemma HandleConsistent(t: Tracker, m: Message, now: real)
    requires TrackerConsistent(t)
    ensures TrackerConsistent(Handle(t, m, now)) <==> Harmless(t, m)
  {
    hide Consistent, UpdateFits;
    SharedKeysStep(t, m, now);
    var t' := Handle(t, m, now);
    forall root | root in t'.running
      ensures Consistent(root, t'.running[root]) <==> (Restarts(m, root) ==> Harmless(t, m))
    {
      StatusStep(t, m, now, root);
    }
    assert m.AddFirmware? ==> Restarts(m, m.uid) && m.uid in t'.running;
    assert m.AddUpdate? && m.fw in t.running ==> Restarts(m, m.fw) && m.fw in t'.running;
  }

  lemma SharedKeysStep(t: Tracker, m: Message, now: real)
    requires t.analyzed == t.running.Keys
    ensures Handle(t, m, now).analyzed == Handle(t, m, now).running.Keys
  {
  }

  lemma StatusStep(t: Tracker, m: Message, now: real, root: string)
    requires root in t.running ==> Consistent(root, t.running[root])
    requires root in Handle(t, m, now).running
    ensures Consistent(root, Handle(t, m, now).running[root]) <==> (Restarts(m, root) ==> Harmless(t, m))
  {
    hide Consistent, UpdateFits;
    match m
    case AddUpdate(fw, included) =>
      if fw == root {
        UpdateConsistent(t.running[fw], fw, included);
      }
    case AddFirmware(uid, files, scheduled) =>
      NewStatusConsistent(uid, files, scheduled, now);
    case AddFile(uid, r, files) =>
      if r == root {
        FileConsistent(root, t.running[root], uid, files);
      }
    case AddAnalysis(r, plugin) =>
      if r == root {
        AnalysisConsistent(root, t.running[root], plugin);
      }
    case RemoveFile(uid, r) =>
      if r == root && uid in t.running[root].toAnalyze {
        CompletedConsistent(root, t.running[root], uid);
      }
    case Cancel(r) =>
  }

  lemma CompletedConsistent(root: string, st: FwStatus, uid: string)
    requires Consistent(root, st) && uid in st.toAnalyze
    ensures Consistent(root, WithCompleted(st, uid))
  {
    assert |st.completed + {uid}| == |st.completed| + 1;
  }

  /** A new firmware starts consistent exactly when it does not include itself. */
  lemma NewStatusConsistent(uid: string, files: set<string>, scheduled: set<string>, now: real)
    ensures Consistent(uid, NewStatus(uid, files, scheduled, now)) <==> uid !in files
  {
  }

  /** Whatever is in progress or listed, an update keeps a consistent status consistent exactly
      under this condition on the completed files. */
  lemma UpdateConsistent(st: FwStatus, fw: string, included: set<string>)
    requires Consistent(fw, st)
    ensures Consistent(fw, WithUpdate(st, fw, included)) <==> UpdateFits(st.completed, fw, included)
  {
    if fw in included {
      assert {fw} + included == included;
    } else {
      assert |{fw} + included| == |included| + 1;
    }
  }

  lemma AnalysisConsistent(root: string, st: FwStatus, plugin: string)
    ensures Consistent(root, WithAnalysis(st, plugin)) <==> Consistent(root, st)
  {
  }

  lemma FileConsistent(root: string, st: FwStatus, uid: string, files: set<string>)
    requires Consistent(root, st)
    ensures Consistent(root, WithFile(st, uid, files))
  {
    var newFiles := files - (st.toUnpack + st.toAnalyze) - st.completed;
    assert |st.toUnpack + newFiles| == |st.toUnpack| + |newFiles|;
    if uid in st.toUnpack + newFiles {
      assert |st.toAnalyze + {uid}| == |st.toAnalyze| + 1;
    }
  }

  // ---- never finished early ----

  ghost predicate Restarts(m: Message, root: string) {
    (m.AddFirmware? && m.uid == root) || (m.AddUpdate? && m.fw == root)
  }

  /** The current run of `root` began with message `start`, which added it. */
  ghost predicate RunStart(msgs: seq<Message>, root: string, start: int) {
    && 0 <= start < |msgs| && msgs[start].AddFirmware? && msgs[start].uid == root
    && forall j :: start < j < |msgs| ==> !Restarts(msgs[j], root)
  }

  /** All files that the messages of the current run mentioned as included. */
  ghost predicate Mentioned(msgs: seq<Message>, root: string, start: int, x: string)
    requires 0 <= start < |msgs| && msgs[start].AddFirmware?
  {
    || x == root || x in msgs[start].files
    || exists j :: start < j < |msgs| && msgs[j].AddFile? && msgs[j].root == root && x in msgs[j].files
  }

  ghost function Known(st: FwStatus): set<string> {
    st.toUnpack + st.toAnalyze + st.completed
  }

  /** The three sets together are exactly the files the run has heard of. */
  lemma {:induction false} KnownIsMentioned(msgs: seq<Message>, times: seq<real>, root: string, start: int)
    requires |msgs| == |times| && RunStart(msgs, root, start)
    requires root in After(msgs, times).running
    ensures forall x :: x in Known(After(msgs, times).running[root]) <==> Mentioned(msgs, root, start, x)
  {
    var n := |msgs| - 1;
    var t := After(msgs[..n], times[..n]);
    if start < n {
      assert RunStart(msgs[..n], root, start);
      assert !Restarts(msgs[n], root);
      assert root in t.running;
      KnownIsMentioned(msgs[..n], times[..n], root, start);
      KnownStep(t, msgs[n], times[n], root);
      forall x ensures x in Known(After(msgs, times).running[root]) <==> Mentioned(msgs, root, start, x) {
        MentionedStep(msgs, root, start, x);
      }
    }
  }

  lemma KnownStep(t: Tracker, m: Message, now: real, root: string)
    requires root in t.running && root in Handle(t, m, now).running && !Restarts(m, root)
    ensures Known(Handle(t, m, now).running[root])
         == Known(t.running[root]) + (if m.AddFile? && m.root == root then m.files else {})
  {
    hide Known, WithFile, WithCompleted, WithAnalysis, IsDone, NewStatus, WithUpdate;
    var st := t.running[root];
    if m.AddFile? {
      KnownFile(st, m.uid, m.files);
    } else if m.RemoveFile? && m.uid in st.toAnalyze {
      KnownCompleted(st, m.uid);
    } else if m.AddAnalysis? {
      KnownAnalysis(st, m.plugin);
    }
  }

  lemma KnownFile(st: FwStatus, uid: string, files: set<string>)
    ensures Known(WithFile(st, uid, files)) == Known(st) + files
  {
  }

  lemma KnownCompleted(st: FwStatus, uid: string)
    requires uid in st.toAnalyze
    ensures Known(WithCompleted(st, uid)) == Known(st)
  {
  }

  lemma KnownAnalysis(st: FwStatus, plugin: string)
    ensures Known(WithAnalysis(st, plugin)) == Known(st)
  {
  }

  lemma MentionedStep(msgs: seq<Message>, root: string, start: int, x: string)
    requires RunStart(msgs, root, start) && start < |msgs| - 1
    ensures var n := |msgs| - 1;
      Mentioned(msgs, root, start, x) <==>
        Mentioned(msgs[..n], root, start, x) || (msgs[n].AddFile? && msgs[n].root == root && x in msgs[n].files)
  {
    var n := |msgs| - 1;
    if Mentioned(msgs[..n], root, start, x) && x != root && x !in msgs[start].files {
      var j :| start < j < n && msgs[..n][j].AddFile? && msgs[..n][j].root == root && x in msgs[..n][j].files;
      assert msgs[j].AddFile?;
    }
    if Mentioned(msgs, root, start, x) && x != root && x !in msgs[start].files {
      var j :| start < j < |msgs| && msgs[j].AddFile? && msgs[j].root == root && x in msgs[j].files;
      assert j < n ==> msgs[..n][j] == msgs[j];
    }
  }

  /** When a run started by unpacking ends with the removal of `uid`, what it completed is the
      firmware and everything that was reported as included, so nothing reported is left. */
  lemma NeverFinishesEarly(msgs: seq<Message>, times: seq<real>, root: string, start: int, uid: string, now: real)
    requires |msgs| == |times| && RunStart(msgs, root, start)
    requires root in After(msgs, times).running
    requires root !in Handle(After(msgs, times), RemoveFile(uid, root), now).running
    ensures var completed := After(msgs, times).running[root].completed + {uid};
      && root in completed
      && msgs[start].files <= completed
      && (forall j :: start < j < |msgs| && msgs[j].AddFile? && msgs[j].root == root ==> msgs[j].files <= completed)
      && (forall x :: x in completed ==> Mentioned(msgs, root, start, x))
    ensures root in Handle(After(msgs, times), RemoveFile(uid, root), now).finished
  {
    var st := After(msgs, times).running[root];
    KnownIsMentioned(msgs, times, root, start);
    assert st.toUnpack == {} && st.toAnalyze - {uid} == {};
    var completed := st.completed + {uid};
    assert forall x :: Mentioned(msgs, root, start, x) ==> x in completed;
    forall j | start < j < |msgs| && msgs[j].AddFile? && msgs[j].root == root
      ensures msgs[j].files <= completed
    {
      assert forall x :: x in msgs[j].files ==> Mentioned(msgs, root, start, x);
    }
    assert forall x :: x in msgs[start].files ==> Mentioned(msgs, root, start, x);
    assert Mentioned(msgs, root, start, root);
  }

  // ---- what a message does, file by file ----

  /** A file that reports back from unpacking is from then on to be analysed, or is completed
      already; no other file changes its place, except that new ones are to be unpacked. */
  lemma UnpackedMovesOn(t: Tracker, uid: string, root: string, files: set<string>, now: real)
    requires root in t.running
    ensures root in Handle(t, AddFile(uid, root, files), now).running
    ensures var st, st' := t.running[root], Handle(t, AddFile(uid, root, files), now).running[root];
      && (uid in Known(st) + files ==> uid in st'.toAnalyze + st'.completed && uid !in st'.toUnpack)
      && st'.completed == st.completed
      && (forall x :: x != uid ==> (x in st'.toAnalyze <==> x in st.toAnalyze))
      && (forall x :: x != uid ==> (x in st'.toUnpack <==> x in st.toUnpack || (x in files && x !in Known(st))))
  {
  }

  /** The firmware a message is about. */
  function Subject(m: Message): string {
    match m
    case AddUpdate(fw, _) => fw
    case AddFirmware(uid, _, _) => uid
    case AddFile(_, root, _) => root
    case AddAnalysis(root, _) => root
    case RemoveFile(_, root) => root
    case Cancel(root) => root
  }

  /** No message changes anything for another firmware. */
  lemma OthersUntouched(t: Tracker, m: Message, now: real, r: string)
    requires r != Subject(m)
    ensures var t' := Handle(t, m, now);
      && (r in t'.running <==> r in t.running) && (r in t.running ==> t'.running[r] == t.running[r])
      && (r in t'.analyzed <==> r in t.analyzed)
      && (r in t'.finished <==> r in t.finished) && (r in t.finished ==> t'.finished[r] == t.finished[r])
      && (r in t'.canceled <==> r in t.canceled) && (r in t.canceled ==> t'.canceled[r] == t.canceled[r])
  {
  }

  /** Cancelling a run ends it and records how far it came. */
  lemma CancelledRecord(t: Tracker, root: string, now: real)
    requires TrackerConsistent(t) && root in t.running
    ensures var t', st := Handle(t, Cancel(root), now), t.running[root];
      && root !in t'.running && root !in t'.analyzed && root in t'.canceled && t'.finished == t.finished
      && t'.canceled[root].unpackedCount == |st.toAnalyze + st.completed|
      && t'.canceled[root].analyzedCount == |st.completed|
      && t'.canceled[root].totalCount == |Known(st)|
      && t'.canceled[root].timeFinished == now
  {
    var st := t.running[root];
    assert Consistent(root, st);
    assert |st.toAnalyze + st.completed| == |st.toAnalyze| + |st.completed|;
    assert Known(st) == st.toUnpack + (st.toAnalyze + st.completed);
    assert |Known(st)| == |st.toUnpack| + |st.toAnalyze + st.completed|;
  }

  // ---- counters over a run ----

  function CountAnalyses(msgs: seq<Message>, root: string, plugin: string): nat {
    if msgs == [] then 0
    else CountAnalyses(msgs[..|msgs| - 1], root, plugin) + (if msgs[|msgs| - 1] == AddAnalysis(root, plugin) then 1 else 0)
  }

  function CountFiles(msgs: seq<Message>, root: string): nat {
    if msgs == [] then 0
    else
      var last := msgs[|msgs| - 1];
      CountFiles(msgs[..|msgs| - 1], root) + (if last.AddFile? && last.root == root then 1 else 0)
  }

  ghost predicate CountersOf(st: FwStatus, since: seq<Message>, root: string, scheduled: set<string>, started: real) {
    && st.startTime == started
    && st.totalWithDuplicates == 1 + CountFiles(since, root)
    && (forall p :: p in st.plugins <==> p in scheduled || CountAnalyses(since, root, p) > 0)
    && forall p :: p in st.plugins ==> st.plugins[p] == CountAnalyses(since, root, p)
  }

  lemma CountStep(since: seq<Message>, m: Message, root: string, p: string)
    ensures CountFiles(since + [m], root) == CountFiles(since, root) + (if m.AddFile? && m.root == root then 1 else 0)
    ensures CountAnalyses(since + [m], root, p) == CountAnalyses(since, root, p) + (if m == AddAnalysis(root, p) then 1 else 0)
  {
    assert (since + [m])[..|since|] == since;
  }

  /** What a message that does not restart the run does to the counters that are not tied to the
      sets of files. */
  lemma CounterFields(t: Tracker, m: Message, now: real, root: string)
    requires root in t.running && root in Handle(t, m, now).running && !Restarts(m, root)
    ensures var st, st' := t.running[root], Handle(t, m, now).running[root];
      && st'.startTime == st.startTime
      && st'.totalWithDuplicates == st.totalWithDuplicates + (if m.AddFile? && m.root == root then 1 else 0)
      && (!(m.AddAnalysis? && m.root == root) ==> st'.plugins == st.plugins)
      && (m.AddAnalysis? && m.root == root ==>
          st'.plugins == st.plugins[m.plugin := (if m.plugin in st.plugins then st.plugins[m.plugin] else 0) + 1])
  {
    hide WithFile, WithCompleted, IsDone, NewStatus, WithUpdate;
    if m.AddFile? {
      FileFields(t.running[root], m.uid, m.files);
    } else if m.RemoveFile? {
      CompletedFields(t.running[root], m.uid);
    }
  }

  lemma FileFields(st: FwStatus, uid: string, files: set<string>)
    ensures var st' := WithFile(st, uid, files);
      st'.startTime == st.startTime && st'.plugins == st.plugins && st'.totalWithDuplicates == st.totalWithDuplicates + 1
  {
  }

  lemma CompletedFields(st: FwStatus, uid: string)
    ensures var st' := WithCompleted(st, uid);
      st'.startTime == st.startTime && st'.plugins == st.plugins && st'.totalWithDuplicates == st.totalWithDuplicates
  {
  }

  lemma CountersStep(t: Tracker, m: Message, now: real, root: string, since: seq<Message>, scheduled: set<string>, started: real)
    requires root in t.running && root in Handle(t, m, now).running && !Restarts(m, root)
    requires CountersOf(t.running[root], since, root, scheduled, started)
    ensures CountersOf(Handle(t, m, now).running[root], since + [m], root, scheduled, started)
  {
    hide Handle, CountFiles, CountAnalyses;
    CounterFields(t, m, now, root);
    CountStep(since, m, root, "");
    var st, st' := t.running[root], Handle(t, m, now).running[root];
    forall p
      ensures p in st'.plugins <==> p in scheduled || CountAnalyses(since + [m], root, p) > 0
      ensures p in st'.plugins ==> st'.plugins[p] == CountAnalyses(since + [m], root, p)
    {
      CountStep(since, m, root, p);
    }
  }

  /** Throughout a run, each plugin's counter is the number of its results reported since the run
      began, the total with duplicates is one more than the number of files reported, and the
      starting time is that of the first message. */
  lemma {:induction false} RunCounters(msgs: seq<Message>, times: seq<real>, root: string, start: int)
    requires |msgs| == |times| && RunStart(msgs, root, start) && root in After(msgs, times).running
    ensures CountersOf(After(msgs, times).running[root], msgs[start + 1..], root, msgs[start].scheduled, times[start])
  {
    hide CountersOf, Handle;
    var n := |msgs| - 1;
    var t := After(msgs[..n], times[..n]);
    if start < n {
      assert RunStart(msgs[..n], root, start);
      assert !Restarts(msgs[n], root);
      StillRunning(t, msgs[n], times[n], root);
      RunCounters(msgs[..n], times[..n], root, start);
      CountersStep(t, msgs[n], times[n], root, msgs[..n][start + 1..], msgs[start].scheduled, times[start]);
      assert msgs[..n][start + 1..] + [msgs[n]] == msgs[start + 1..];
    } else {
      assert msgs[start + 1..] == [];
      CountersStart(t, msgs[n], times[n]);
    }
  }

  lemma StillRunning(t: Tracker, m: Message, now: real, root: string)
    requires root in Handle(t, m, now).running && !Restarts(m, root)
    ensures root in t.running
  {
  }

  lemma CountersStart(t: Tracker, m: Message, now: real)
    requires m.AddFirmware?
    ensures m.uid in Handle(t, m, now).running
    ensures CountersOf(Handle(t, m, now).running[m.uid], [], m.uid, m.scheduled, now)
  {
  }

  /** The record of a finished run: the number of files it completed, which are all that were
      mentioned, and the time since its first message. */
  lemma FinishedRecord(msgs: seq<Message>, times: seq<real>, root: string, start: int, uid: string, now: real)
    requires |msgs| == |times| && RunStart(msgs, root, start) && root !in msgs[start].files
    requires root in After(msgs, times).running
    requires root !in Handle(After(msgs, times), RemoveFile(uid, root), now).running
    ensures var t' := Handle(After(msgs, times), RemoveFile(uid, root), now);
      && root in t'.finished && root !in t'.analyzed
      && t'.finished[root].totalCount == |After(msgs, times).running[root].completed + {uid}|
      && t'.finished[root].duration == now - times[start]
      && t'.finished[root].timeFinished == now
  {
    hide CountersOf, Consistent;
    RunCounters(msgs, times, root, start);
    RunStatus(msgs, times, root, start, |msgs|);
    assert msgs[..|msgs|] == msgs && times[..|times|] == times;
    var t := After(msgs, times);
    StartTimeOf(t.running[root], msgs[start + 1..], root, msgs[start].scheduled, times[start]);
    LastRemoved(t, root, uid, now);
  }

  lemma StartTimeOf(st: FwStatus, since: seq<Message>, root: string, scheduled: set<string>, started: real)
    requires CountersOf(st, since, root, scheduled, started)
    ensures st.startTime == started
  {
  }

  lemma LastRemoved(t: Tracker, root: string, uid: string, now: real)
    requires root in t.running && Consistent(root, t.running[root])
    requires root !in Handle(t, RemoveFile(uid, root), now).running
    ensures var t', st := Handle(t, RemoveFile(uid, root), now), t.running[root];
      && root in t'.finished && root !in t'.analyzed
      && t'.finished[root] == Finished(|st.completed + {uid}|, now - st.startTime, now)
  {
    CompletedConsistent(root, t.running[root], uid);
  }

  // ---- a run ends when everything is done ----

  /** The run is in order and not at its end, or it has finished. */
  ghost predicate UnderWay(t: Tracker, root: string) {
    if root in t.running then Consistent(root, t.running[root]) && t.running[root].toUnpack + t.running[root].toAnalyze != {}
    else root in t.finished
  }

  lemma UnderWayStep(t: Tracker, m: Message, now: real, root: string)
    requires UnderWay(t, root) && !Restarts(m, root) && m != Cancel(root)
    ensures UnderWay(Handle(t, m, now), root)
  {
    hide Consistent;
    if root in t.running && root in Handle(t, m, now).running {
      StatusStep(t, m, now, root);
      SomethingLeft(t, m, now, root);
    } else if root in Handle(t, m, now).running {
      StillRunning(t, m, now, root);
    } else {
      EndsFinished(t, m, now, root);
    }
  }

  lemma SomethingLeft(t: Tracker, m: Message, now: real, root: string)
    requires root in t.running && root in Handle(t, m, now).running && !Restarts(m, root)
    requires t.running[root].toUnpack + t.running[root].toAnalyze != {}
    ensures var st' := Handle(t, m, now).running[root]; st'.toUnpack + st'.toAnalyze != {}
  {
    var st, st' := t.running[root], Handle(t, m, now).running[root];
    var x :| x in st.toUnpack + st.toAnalyze;
    if m.RemoveFile? && m.root == root && m.uid in st.toAnalyze {
      assert st' == WithCompleted(st, m.uid) && !IsDone(st');
      assert st'.toUnpack != {} || st'.toAnalyze != {};
    } else {
      assert x in st'.toUnpack + st'.toAnalyze;
    }
  }

  lemma EndsFinished(t: Tracker, m: Message, now: real, root: string)
    requires root !in Handle(t, m, now).running && m != Cancel(root) && (root in t.running || root in t.finished)
    ensures root in Handle(t, m, now).finished
  {
  }

  lemma {:induction false} RunStatus(msgs: seq<Message>, times: seq<real>, root: string, start: int, k: nat)
    requires |msgs| == |times| && RunStart(msgs, root, start) && root !in msgs[start].files && start < k <= |msgs|
    ensures root in AfterFirst(msgs, times, k).running ==> UnderWay(AfterFirst(msgs, times, k), root)
    ensures (forall j :: start < j < k ==> msgs[j] != Cancel(root)) ==> UnderWay(AfterFirst(msgs, times, k), root)
    decreases k
  {
    hide UnderWay, Handle, AfterFirst;
    NextMessage(msgs, times, k - 1);
    var t, m := AfterFirst(msgs, times, k - 1), msgs[k - 1];
    if k == start + 1 {
      UnderWayAtFirst(t, m, times[k - 1]);
    } else {
      RunStatus(msgs, times, root, start, k - 1);
      assert !Restarts(m, root);
      if root in AfterFirst(msgs, times, k).running {
        StillRunning(t, m, times[k - 1], root);
        NotCancelled(t, m, times[k - 1], root);
        UnderWayStep(t, m, times[k - 1], root);
      } else if forall j :: start < j < k ==> msgs[j] != Cancel(root) {
        UnderWayStep(t, m, times[k - 1], root);
      }
    }
  }

  lemma NotCancelled(t: Tracker, m: Message, now: real, root: string)
    requires root in Handle(t, m, now).running
    ensures m != Cancel(root)
  {
  }

  lemma UnderWayAtFirst(t: Tracker, m: Message, now: real)
    requires m.AddFirmware? && m.uid !in m.files
    ensures UnderWay(Handle(t, m, now), m.uid)
  {
    NewStatusConsistent(m.uid, m.files, m.scheduled, now);
  }

  /** The file has been unpacked, as far as the run knows. */
  ghost predicate IsUnpacked(t: Tracker, root: string, x: string) {
    root in t.running ==> x in t.running[root].toAnalyze + t.running[root].completed
  }

  ghost predicate IsCompleted(t: Tracker, root: string, x: string) {
    root in t.running ==> x in t.running[root].completed
  }

  lemma FileStep(t: Tracker, m: Message, now: real, root: string, x: string)
    requires !Restarts(m, root)
    ensures IsUnpacked(t, root, x) ==> IsUnpacked(Handle(t, m, now), root, x)
    ensures IsCompleted(t, root, x) ==> IsCompleted(Handle(t, m, now), root, x)
    ensures IsUnpacked(t, root, x) && m == RemoveFile(x, root) ==> IsCompleted(Handle(t, m, now), root, x)
  {
  }

  lemma {:induction false} FileStays(msgs: seq<Message>, times: seq<real>, root: string, start: int, x: string, i: nat, k: nat)
    requires |msgs| == |times| && RunStart(msgs, root, start) && start < i <= k <= |msgs|
    ensures IsUnpacked(AfterFirst(msgs, times, i), root, x) ==> IsUnpacked(AfterFirst(msgs, times, k), root, x)
    ensures IsCompleted(AfterFirst(msgs, times, i), root, x) ==> IsCompleted(AfterFirst(msgs, times, k), root, x)
    decreases k
  {
    hide IsUnpacked, IsCompleted, Handle, AfterFirst;
    if i < k {
      FileStays(msgs, times, root, start, x, i, k - 1);
      NextMessage(msgs, times, k - 1);
      assert !Restarts(msgs[k - 1], root);
      FileStep(AfterFirst(msgs, times, k - 1), msgs[k - 1], times[k - 1], root, x);
    }
  }

  /** Message `j` reports the file back from unpacking, and the run has heard of it by then. */
  ghost predicate Announced(msgs: seq<Message>, root: string, start: int, x: string, j: int)
    requires 0 <= start < |msgs| && msgs[start].AddFirmware?
  {
    && start < j < |msgs| && msgs[j].AddFile? && msgs[j].uid == x && msgs[j].root == root
    && Mentioned(msgs[..j + 1], root, start, x)
  }

  /** The file was announced (the firmware itself need not be) and its analysis completed later. */
  ghost predicate Processed(msgs: seq<Message>, root: string, start: int, x: string)
    requires 0 <= start < |msgs| && msgs[start].AddFirmware?
  {
    exists k :: start < k < |msgs| && msgs[k] == RemoveFile(x, root) && AnnouncedBefore(msgs, root, start, x, k)
  }

  ghost predicate AnnouncedBefore(msgs: seq<Message>, root: string, start: int, x: string, k: int)
    requires 0 <= start < |msgs| && msgs[start].AddFirmware?
  {
    x == root || exists j :: j < k && Announced(msgs, root, start, x, j)
  }

  lemma AnnouncedIsUnpacked(msgs: seq<Message>, times: seq<real>, root: string, start: int, x: string, j: int)
    requires |msgs| == |times| && RunStart(msgs, root, start) && Announced(msgs, root, start, x, j)
    ensures IsUnpacked(AfterFirst(msgs, times, j + 1), root, x)
  {
    hide Handle, Known, Mentioned;
    NextMessage(msgs, times, j);
    var t, t' := AfterFirst(msgs, times, j), AfterFirst(msgs, times, j + 1);
    if root in t'.running {
      StillRunning(t, msgs[j], times[j], root);
      assert RunStart(msgs[..j + 1], root, start);
      KnownIsMentioned(msgs[..j + 1], times[..j + 1], root, start);
      KnownStep(t, msgs[j], times[j], root);
      UnpackedMovesOn(t, x, root, msgs[j].files, times[j]);
    }
  }

  lemma ProcessedIsCompleted(msgs: seq<Message>, times: seq<real>, root: string, start: int, x: string)
    requires |msgs| == |times| && RunStart(msgs, root, start) && Processed(msgs, root, start, x)
    ensures IsCompleted(AfterFirst(msgs, times, |msgs|), root, x)
  {
    hide IsUnpacked, IsCompleted, Handle, AfterFirst, Announced;
    var k :| start < k < |msgs| && msgs[k] == RemoveFile(x, root) && AnnouncedBefore(msgs, root, start, x, k);
    if x == root {
      RootIsUnpacked(msgs, times, root, start);
      FileStays(msgs, times, root, start, x, start + 1, k);
    } else {
      var j :| j < k && Announced(msgs, root, start, x, j);
      AnnouncedAfterStart(msgs, root, start, x, j);
      AnnouncedIsUnpacked(msgs, times, root, start, x, j);
      FileStays(msgs, times, root, start, x, j + 1, k);
    }
    NextMessage(msgs, times, k);
    FileStep(AfterFirst(msgs, times, k), msgs[k], times[k], root, x);
    FileStays(msgs, times, root, start, x, k + 1, |msgs|);
  }

  lemma AnnouncedAfterStart(msgs: seq<Message>, root: string, start: int, x: string, j: int)
    requires 0 <= start < |msgs| && msgs[start].AddFirmware? && Announced(msgs, root, start, x, j)
    ensures start < j
  {
  }

  lemma RootIsUnpacked(msgs: seq<Message>, times: seq<real>, root: string, start: int)
    requires |msgs| == |times| && RunStart(msgs, root, start)
    ensures IsUnpacked(AfterFirst(msgs, times, start + 1), root, root)
  {
    hide AfterFirst;
    NextMessage(msgs, times, start);
  }

  /** The run does end: when every file the messages mention was announced and then completed, and
      the run was not cancelled, it has moved to the finished ones. */
  lemma EndsWhenAllProcessed(msgs: seq<Message>, times: seq<real>, root: string, start: int)
    requires |msgs| == |times| && RunStart(msgs, root, start) && root !in msgs[start].files
    requires forall j :: start < j < |msgs| ==> msgs[j] != Cancel(root)
    requires forall x :: Mentioned(msgs, root, start, x) ==> Processed(msgs, root, start, x)
    ensures root !in After(msgs, times).running && root in After(msgs, times).finished
  {
    hide Mentioned, Processed, Handle, Consistent;
    var t := AfterFirst(msgs, times, |msgs|);
    assert msgs[..|msgs|] == msgs && times[..|times|] == times;
    RunStatus(msgs, times, root, start, |msgs|);
    if root in t.running {
      var st := t.running[root];
      KnownIsMentioned(msgs, times, root, start);
      forall x | x in st.toUnpack + st.toAnalyze ensures x in st.completed {
        assert x in Known(st);
        ProcessedIsCompleted(msgs, times, root, start, x);
      }
      DisjointSets(root, st);
      assert false;
    }
  }

  lemma DisjointSets(root: string, st: FwStatus)
    requires Consistent(root, st)
    ensures st.toUnpack !! st.completed && st.toAnalyze !! st.completed
  {
  }

  /** What a run has heard of it never forgets: also after an update, the files it is to cover are
      all completed when it ends. */
  lemma {:induction false} KnownForever(msgs: seq<Message>, times: seq<real>, root: string, i: nat, k: nat)
    requires |msgs| == |times| && i <= k <= |msgs| && root in AfterFirst(msgs, times, k).running
    requires forall j :: i <= j < k ==> !Restarts(msgs[j], root)
    ensures root in AfterFirst(msgs, times, i).running
    ensures Known(AfterFirst(msgs, times, i).running[root]) <= Known(AfterFirst(msgs, times, k).running[root])
    decreases k
  {
    hide Known, Handle, AfterFirst;
    if i < k {
      NextMessage(msgs, times, k - 1);
      var t := AfterFirst(msgs, times, k - 1);
      StillRunning(t, msgs[k - 1], times[k - 1], root);
      KnownForever(msgs, times, root, i, k - 1);
      KnownStep(t, msgs[k - 1], times[k - 1], root);
    }
  }

  lemma UpdateCoversAll(msgs: seq<Message>, times: seq<real>, root: string, i: nat, uid: string, now: real)
    requires |msgs| == |times| && i < |msgs| && msgs[i].AddUpdate? && msgs[i].fw == root
    requires root in After(msgs, times).running
    requires forall j :: i < j < |msgs| ==> !Restarts(msgs[j], root)
    requires root !in Handle(After(msgs, times), RemoveFile(uid, root), now).running
    ensures {root} + msgs[i].included <= After(msgs, times).running[root].completed + {uid}
  {
    hide Handle, Known;
    assert msgs[..|msgs|] == msgs && times[..|times|] == times;
    KnownForever(msgs, times, root, i + 1, |msgs|);
    NextMessage(msgs, times, i);
    UpdateKnows(AfterFirst(msgs, times, i), msgs[i], times[i]);
    LastIsKnown(After(msgs, times), root, uid, now);
  }

  lemma UpdateKnows(t: Tracker, m: Message, now: real)
    requires m.AddUpdate? && m.fw in Handle(t, m, now).running
    ensures {m.fw} + m.included <= Known(Handle(t, m, now).running[m.fw])
  {
  }

  lemma LastIsKnown(t: Tracker, root: string, uid: string, now: real)
    requires root in t.running && root !in Handle(t, RemoveFile(uid, root), now).running
    ensures Known(t.running[root]) <= t.running[root].completed + {uid}
  {
    var st := t.running[root];
    assert st.toUnpack == {} && st.toAnalyze - {uid} == {};
  }
}
