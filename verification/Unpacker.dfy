/** What unpacking one file yields (src/unpacker/unpack.py). */
module Unpacker {
  import opened Graphs

  /** The part of a file object that unpacking and storing look at. */
  datatype FileObject = FileObject(
    uid: string,
    root: string,
    isFirmware: bool,
    parents: seq<string>,
    vfp: map<string, seq<string>>,
    depth: nat)

  /** A file the extractor left on disk: the UID of its content and its path in the container. */
  datatype DiskFile = DiskFile(uid: string, path: string, isEmpty: bool)

  /** The paths under which content `uid` was extracted, in order. */
  function PathsOf(files: seq<DiskFile>, uid: string): seq<string> {
    if files == [] then []
    else
      var last := files[|files| - 1];
      var before := PathsOf(files[..|files| - 1], uid);
      if !last.isEmpty && last.uid == uid then before + [last.path] else before
  }

  /** The paths of a content are those of its non-empty files, in the order of extraction, repeats
      included. */
  lemma {:induction false} PathsInOrder(a: seq<DiskFile>, b: seq<DiskFile>, uid: string)
    ensures PathsOf(a + b, uid) == PathsOf(a, uid) + PathsOf(b, uid)
  {
    hide PathsOf;
    if b == [] {
      NoPaths(uid);
      assert a + b == a;
    } else {
      var n := |b| - 1;
      PathsInOrder(a, b[..n], uid);
      OneMorePath(b[..n], b[n], uid);
      OneMorePath(a + b[..n], b[n], uid);
      assert b[..n] + [b[n]] == b && a + b[..n] + [b[n]] == a + b;
    }
  }

  lemma NoPaths(uid: string)
    ensures PathsOf([], uid) == []
  {
  }

  lemma OneMorePath(files: seq<DiskFile>, f: DiskFile, uid: string)
    ensures PathsOf(files + [f], uid) == PathsOf(files, uid) + if f.uid == uid && !f.isEmpty then [f.path] else []
  {
    assert (files + [f])[..|files|] == files;
  }

  lemma {:induction false} PathsComplete(files: seq<DiskFile>, uid: string, path: string)
    ensures path in PathsOf(files, uid) <==> exists f :: f in files && f.uid == uid && !f.isEmpty && f.path == path
  {
    if files != [] {
      var n := |files| - 1;
      PathsComplete(files[..n], uid, path);
      assert files == files[..n] + [files[n]];
    }
  }

  ghost function Uids(fos: seq<FileObject>): set<string> {
    set fo | fo in fos :: fo.uid
  }

  ghost predicate DistinctUids(fos: seq<FileObject>) {
    forall i, j :: 0 <= i < j < |fos| ==> fos[i].uid != fos[j].uid
  }

  /** What the scheduler may rely on for files extracted from `parent`. */
  ghost predicate ExtractedFrom(parent: FileObject, children: seq<FileObject>) {
    && DistinctUids(children)
    && forall c :: c in children ==> ChildOf(parent, c)
  }

  ghost predicate ChildOf(parent: FileObject, c: FileObject) {
    && c.uid != parent.uid
    && c.root == parent.root
    && !c.isFirmware
    && c.parents == [parent.uid]
    && c.vfp.Keys == {parent.uid} && c.vfp[parent.uid] != []
  }

  /** One object per extracted content, carrying all its paths, and none for the parent itself. */
  ghost predicate RepresentsFiles(files: seq<DiskFile>, parent: FileObject, children: seq<FileObject>) {
    && (forall c :: c in children ==> c.vfp == map[parent.uid := PathsOf(files, c.uid)])
    && forall u :: u in Uids(children) <==> u != parent.uid && PathsOf(files, u) != []
  }

  /** The dictionary of extracted files: its keys in insertion order, and their paths. */
  method CollectPaths(files: seq<DiskFile>) returns (order: seq<string>, vfps: map<string, seq<string>>)
    ensures Distinct(order)
    ensures forall u :: u in order <==> PathsOf(files, u) != []
    ensures forall u :: u in order ==> u in vfps && vfps[u] == PathsOf(files, u)
  {
    order, vfps := [], map[];
    for i := 0 to |files|
      invariant Distinct(order) && forall u :: u in order <==> u in vfps
      invariant forall u :: u in order <==> PathsOf(files[..i], u) != []
      invariant forall u :: u in vfps ==> vfps[u] == PathsOf(files[..i], u)
    {
      var f := files[i];
      assert files[..i + 1][..i] == files[..i];
      if !f.isEmpty {
        if f.uid !in vfps {
          order := order + [f.uid];
          vfps := vfps[f.uid := []];
        }
        vfps := vfps[f.uid := vfps[f.uid] + [f.path]];
      }
    }
    assert files[..|files|] == files;
  }

  /** `dict.pop(key, None)` on the keys of a dictionary. */
  function Without(order: seq<string>, key: string): (r: seq<string>)
    requires Distinct(order)
    ensures Distinct(r) && forall u :: u in r <==> u in order && u != key
  {
    if order == [] then []
    else if order[0] == key then
      assert forall u :: u in order[1..] ==> u != key;
      order[1..]
    else
      var r := Without(order[1..], key);
      assert order[0] !in order[1..];
      assert order == [order[0]] + order[1..];
      [order[0]] + r
  }

  function NewObject(uid: string, parent: FileObject, paths: seq<string>): FileObject {
    FileObject(uid, parent.root, false, [parent.uid], map[parent.uid := paths], parent.depth + 1)
  }

  function NewObjects(uids: seq<string>, parent: FileObject, vfps: map<string, seq<string>>): (r: seq<FileObject>)
    requires forall u :: u in uids ==> u in vfps
    ensures |r| == |uids|
    ensures forall i :: 0 <= i < |uids| ==> r[i] == NewObject(uids[i], parent, vfps[uids[i]])
  {
    seq(|uids|, i requires 0 <= i < |uids| => NewObject(uids[i], parent, vfps[uids[i]]))
  }

  lemma NewObjectsUids(uids: seq<string>, parent: FileObject, vfps: map<string, seq<string>>)
    requires forall u :: u in uids ==> u in vfps
    ensures forall u :: u in Uids(NewObjects(uids, parent, vfps)) <==> u in uids
    ensures Distinct(uids) ==> DistinctUids(NewObjects(uids, parent, vfps))
  {
    var r := NewObjects(uids, parent, vfps);
    forall u | u in uids ensures u in Uids(r) {
      var j :| 0 <= j < |uids| && uids[j] == u;
      assert r[j] in r && r[j].uid == u;
    }
  }

  lemma NewObjectsAreChildren(uids: seq<string>, parent: FileObject, vfps: map<string, seq<string>>)
    requires forall u :: u in uids ==> u in vfps && u != parent.uid && vfps[u] != []
    ensures forall c :: c in NewObjects(uids, parent, vfps) ==>
      && ChildOf(parent, c) && c.depth == parent.depth + 1
      && c.uid in uids && c.vfp == map[parent.uid := vfps[c.uid]]
  {
    hide Uids;
  }

  /** Seen from the files on disk: a content other than the parent's is among the children exactly
      if a non-empty file with it was extracted, and it lies at exactly the paths of these files. */
  lemma ChildrenTellFiles(files: seq<DiskFile>, parent: FileObject, children: seq<FileObject>)
    requires RepresentsFiles(files, parent, children)
    ensures forall f :: f in files && !f.isEmpty && f.uid != parent.uid ==>
      exists c :: c in children && c.uid == f.uid && parent.uid in c.vfp && f.path in c.vfp[parent.uid]
    ensures forall c, path :: c in children && path in c.vfp[parent.uid] ==>
      exists f :: f in files && !f.isEmpty && f.uid == c.uid && f.path == path
  {
    forall f | f in files && !f.isEmpty && f.uid != parent.uid
      ensures exists c :: c in children && c.uid == f.uid && parent.uid in c.vfp && f.path in c.vfp[parent.uid]
    {
      PathsComplete(files, f.uid, f.path);
      assert f.uid in Uids(children);
    }
    forall c, path | c in children && path in c.vfp[parent.uid]
      ensures exists f :: f in files && !f.isEmpty && f.uid == c.uid && f.path == path
    {
      PathsComplete(files, c.uid, path);
    }
  }

  datatype Outcome = Extracted(children: seq<FileObject>) | ExtractionError

  /** Unpacks one file; the extractor leaves `files` on disk or fails. At the depth limit it is
      not called. Each child is registered with its parent (FileObject.add_included_file). */
  method Unpack(parent: FileObject, maxDepth: nat, files: seq<DiskFile>, extractorFails: bool)
    returns (r: Outcome, included: set<string>)
    ensures r.ExtractionError? <==> parent.depth < maxDepth && extractorFails
    ensures r.Extracted? ==> ExtractedFrom(parent, r.children) && included == Uids(r.children)
    ensures r.Extracted? ==> forall c :: c in r.children ==> c.depth == parent.depth + 1 <= maxDepth
    ensures r.Extracted? && parent.depth < maxDepth ==> RepresentsFiles(files, parent, r.children)
    ensures parent.depth >= maxDepth ==> r == Extracted([])
  {
    included := {};
    if parent.depth >= maxDepth {
      return Extracted([]), included;
    }
    if extractorFails {
      return ExtractionError, included;
    }
    var order, vfps := CollectPaths(files);
    var kept := Without(order, parent.uid);
    var children := NewObjects(kept, parent, vfps);
    NewObjectsUids(kept, parent, vfps);
    NewObjectsAreChildren(kept, parent, vfps);
    hide ChildOf, DistinctUids, NewObjects, Uids, PathsOf;
    included := set u | u in kept;
    return Extracted(children), included;
  }
}
