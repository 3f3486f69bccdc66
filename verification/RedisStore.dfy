/** Values and queues in Redis, split into chunks where they are too large
    (src/storage/redis_interface.py). Bytes are written as characters. */
module RedisStore {
  import opened Graphs
  import opened Text

  type Bytes = string

  const MAGIC: Bytes := "$CHUNKED$"
  const SEPARATOR := '#'
  const KEY_RANGE := 10000

  function Decimal(n: nat): (s: string)
    ensures s != [] && forall c :: c in s ==> '0' <= c <= '9'
  {
    var digit := ['0' + (n % 10) as char];
    if n < 10 then digit else Decimal(n / 10) + digit
  }

  function ChunkKey(n: nat): (key: string)
    ensures SEPARATOR !in key
  {
    "chunk_" + Decimal(n)
  }

  ghost function NumberOf(digits: string): int {
    if digits == [] then 0
    else 10 * NumberOf(digits[..|digits| - 1]) + (digits[|digits| - 1] as int - '0' as int)
  }

  /** The digits of a number read back as the number. */
  lemma {:induction false} DecimalReads(n: nat)
    ensures NumberOf(Decimal(n)) == n
  {
    var s := Decimal(n);
    if n >= 10 {
      DecimalReads(n / 10);
      assert s[..|s| - 1] == Decimal(n / 10);
    }
  }

  ghost function FirstKeys(n: nat): set<string> {
    set i: nat | i < n :: ChunkKey(i)
  }

  /** The keys are all different: there are as many as the random numbers allow. */
  lemma {:induction false} ManyKeys(n: nat)
    ensures |FirstKeys(n)| == n
  {
    if n == 0 {
      assert FirstKeys(0) == {};
    } else {
      ManyKeys(n - 1);
      forall i: nat | i < n - 1 ensures ChunkKey(i) != ChunkKey(n - 1) {
        KeysDiffer(i, n - 1);
      }
      assert FirstKeys(n) == FirstKeys(n - 1) + {ChunkKey(n - 1)};
    }
  }

  lemma KeysDiffer(i: nat, j: nat)
    requires i != j
    ensures ChunkKey(i) != ChunkKey(j)
  {
    DecimalReads(i);
    DecimalReads(j);
    assert ChunkKey(i)[6..] == Decimal(i) && ChunkKey(j)[6..] == Decimal(j);
  }

  /** There are ten thousand chunk keys. */
  lemma ChunkKeyCount()
    ensures |ChunkKeys()| == 10000
  {
    ManyKeys(KEY_RANGE);
    assert ChunkKeys() == FirstKeys(KEY_RANGE);
  }

  ghost function ChunkKeys(): set<string> {
    set n: nat | n < KEY_RANGE :: ChunkKey(n)
  }

  /** The database: plain values (user values and chunks) and lists. */
  datatype Store = Store(values: map<string, Bytes>, lists: map<string, seq<Bytes>>)

  // ---- reading ----

  predicate IsChunked(raw: Bytes) {
    MAGIC <= raw
  }

  /** The chunk keys named in a meta key. */
  function KeysOf(raw: Bytes): seq<string> {
    if IsChunked(raw) then Split(raw, SEPARATOR)[1..] else []
  }

  ghost function ChunksOf(raw: Bytes): set<string> {
    set k | k in KeysOf(raw)
  }

  function Concat(values: map<string, Bytes>, keys: seq<string>): Bytes
    requires forall i :: 0 <= i < |keys| ==> keys[i] in values
  {
    if keys == [] then [] else values[keys[0]] + Concat(values, keys[1..])
  }

  /** What a raw entry stands for. */
  ghost function Content(values: map<string, Bytes>, raw: Bytes): Bytes
    requires Readable(values, raw)
  {
    if IsChunked(raw) then Concat(values, KeysOf(raw)) else raw
  }

  /** The chunks of the entry are there, once each, under chunk keys. */
  ghost predicate Readable(values: map<string, Bytes>, raw: Bytes) {
    && (forall i :: 0 <= i < |KeysOf(raw)| ==> KeysOf(raw)[i] in values && KeysOf(raw)[i] in ChunkKeys())
    && Distinct(KeysOf(raw))
  }

  // ---- what the store represents ----

  ghost function UserKeys(s: Store): set<string> {
    s.values.Keys - ChunkKeys()
  }

  /** Where a live raw entry is kept. */
  datatype Slot = Value(key: string) | Item(key: string, index: nat)

  ghost predicate IsSlot(s: Store, slot: Slot) {
    match slot
    case Value(key) => key in UserKeys(s)
    case Item(key, i) => key in s.lists && i < |s.lists[key]|
  }

  ghost function Raw(s: Store, slot: Slot): Bytes
    requires IsSlot(s, slot)
  {
    match slot
    case Value(key) => s.values[key]
    case Item(key, i) => s.lists[key][i]
  }

  /** Live entries are readable and share no chunk. */
  ghost predicate Valid(s: Store) {
    && (forall slot :: IsSlot(s, slot) ==> Readable(s.values, Raw(s, slot)))
    && (forall a, b :: IsSlot(s, a) && IsSlot(s, b) && a != b ==> ChunksOf(Raw(s, a)) !! ChunksOf(Raw(s, b)))
    && s.lists.Keys !! s.values.Keys && s.lists.Keys !! ChunkKeys()
    && forall key :: key in s.lists ==> s.lists[key] != []
  }

  /** The plain map of unbounded values. */
  ghost function Values(s: Store): map<string, Bytes>
    requires Valid(s)
  {
    map key | key in UserKeys(s) :: Content(s.values, Raw(s, Value(key)))
  }

  /** The plain queues of unbounded values. */
  ghost function Queues(s: Store): map<string, seq<Bytes>>
    requires Valid(s)
  {
    map key | key in s.lists :: seq(|s.lists[key]|, i requires 0 <= i < |s.lists[key]| => Content(s.values, Raw(s, Item(key, i))))
  }

  /** Chunks that no live entry refers to any more. */
  ghost predicate IsLeaked(s: Store, key: string) {
    key in s.values && key in ChunkKeys() && forall slot :: IsSlot(s, slot) ==> key !in ChunksOf(Raw(s, slot))
  }

  ghost function FreeKeys(s: Store): set<string> {
    ChunkKeys() - s.values.Keys - s.lists.Keys
  }

  // ---- framing ----

  /** An entry reads the same in any store that keeps its chunks. */
  lemma {:induction false} ConcatSame(values: map<string, Bytes>, values': map<string, Bytes>, keys: seq<string>)
    requires forall i :: 0 <= i < |keys| ==> keys[i] in values && keys[i] in values' && values'[keys[i]] == values[keys[i]]
    ensures Concat(values', keys) == Concat(values, keys)
  {
    if keys != [] {
      ConcatSame(values, values', keys[1..]);
    }
  }

  lemma ContentSame(values: map<string, Bytes>, values': map<string, Bytes>, raw: Bytes)
    requires Readable(values, raw)
    requires forall k :: k in ChunksOf(raw) ==> k in values' && values'[k] == values[k]
    ensures Readable(values', raw) && Content(values', raw) == Content(values, raw)
  {
    forall i | 0 <= i < |KeysOf(raw)|
      ensures KeysOf(raw)[i] in values' && values'[KeysOf(raw)[i]] == values[KeysOf(raw)[i]]
    {
      assert KeysOf(raw)[i] in ChunksOf(raw);
    }
    ConcatSame(values, values', KeysOf(raw));
  }

  // ---- writing ----

  function NumChunks(length: nat, size: nat): nat
    requires size > 0
  {
    (length + size - 1) / size
  }

  /** `value[size * i : size * (i + 1)]` */
  function Chunk(data: Bytes, size: nat, i: nat): Bytes
    requires size > 0 && i < NumChunks(|data|, size)
  {
    ChunkBounds(|data|, size, i);
    data[size * i..if size * (i + 1) < |data| then size * (i + 1) else |data|]
  }

  lemma ChunkBounds(length: nat, size: nat, i: nat)
    requires size > 0 && i < NumChunks(length, size)
    ensures size * i < length && size * i < size * (i + 1) == size * i + size
    ensures i + 1 == NumChunks(length, size) <==> size * (i + 1) >= length
  {
    var n := NumChunks(length, size);
    assert n * size <= length + size - 1 < n * size + size;
    assert size * (i + 1) == size * i + size;
    if i + 1 < n {
      assert size * (i + 1) <= size * (n - 1);
      assert size * (n - 1) == n * size - size;
    } else {
      assert size * i == size * (n - 1) == n * size - size;
    }
  }

  lemma {:induction false} JoinAppend(parts: seq<string>, x: string, sep: char)
    requires parts != []
    ensures Join(parts + [x], sep) == Join(parts, sep) + [sep] + x
  {
    if |parts| > 1 {
      JoinAppend(parts[1..], x, sep);
      assert (parts + [x])[1..] == parts[1..] + [x];
    } else {
      assert (parts + [x])[1..] == [x];
    }
  }

  lemma {:induction false} ConcatAppend(values: map<string, Bytes>, keys: seq<string>, k: string)
    requires (forall i :: 0 <= i < |keys| ==> keys[i] in values) && k in values
    ensures Concat(values, keys + [k]) == Concat(values, keys) + values[k]
  {
    if keys != [] {
      ConcatAppend(values, keys[1..], k);
      assert (keys + [k])[1..] == keys[1..] + [k];
    }
  }

  /** The meta key that names `keys`. */
  function MetaKey(keys: seq<string>): Bytes {
    Join([MAGIC] + keys, SEPARATOR)
  }

  /** What a meta key looks like. */
  lemma MetaKeyFormat(key: string, keys: seq<string>)
    ensures MetaKey([]) == "$CHUNKED$" && MetaKey(keys + [key]) == MetaKey(keys) + "#" + key
  {
    JoinAppend([MAGIC] + keys, key, SEPARATOR);
    assert [MAGIC] + (keys + [key]) == [MAGIC] + keys + [key];
  }

  lemma MetaKeyNames(keys: seq<string>)
    requires forall i :: 0 <= i < |keys| ==> SEPARATOR !in keys[i]
    ensures IsChunked(MetaKey(keys)) && KeysOf(MetaKey(keys)) == keys
  {
    var parts := [MAGIC] + keys;
    SplitJoin(parts, SEPARATOR);
    assert parts[1..] == keys;
  }

  /** From `s` to `s1` only the chunks of the new entry `raw` were added; it stands for `data`. */
  ghost predicate Written(s: Store, s1: Store, raw: Bytes, data: Bytes) {
    && s1.lists == s.lists
    && (forall k :: k in s.values ==> k in s1.values && s1.values[k] == s.values[k])
    && s1.values.Keys == s.values.Keys + ChunksOf(raw) && ChunksOf(raw) <= FreeKeys(s)
    && Readable(s1.values, raw) && Content(s1.values, raw) == data
  }

  /** All live entries of `s` read the same in `s1`, and the new one shares no chunk with them. */
  lemma WrittenKeeps(s: Store, s1: Store, raw: Bytes, data: Bytes, slot: Slot)
    requires Valid(s) && Written(s, s1, raw, data) && IsSlot(s, slot)
    ensures Readable(s1.values, Raw(s, slot)) && Content(s1.values, Raw(s, slot)) == Content(s.values, Raw(s, slot))
    ensures ChunksOf(Raw(s, slot)) !! ChunksOf(raw)
    ensures ChunksOf(Raw(s, slot)) <= s.values.Keys * ChunkKeys()
  {
    hide ChunkKeys, KeysOf, Content;
    LiveChunks(s, slot);
    ContentSame(s.values, s1.values, Raw(s, slot));
  }

  lemma LiveChunks(s: Store, slot: Slot)
    requires Valid(s) && IsSlot(s, slot)
    ensures ChunksOf(Raw(s, slot)) <= s.values.Keys * ChunkKeys()
  {
    hide ChunkKeys, KeysOf;
    assert Readable(s.values, Raw(s, slot));
  }

  /** `SET` replaces whatever was stored under the key, also a list. */
  ghost function PutValue(s: Store, key: string, raw: Bytes): Store {
    Store(s.values[key := raw], s.lists - {key})
  }

  /** The chunk belongs to what is stored under the key. */
  ghost predicate ChunkUnder(s: Store, key: string, k: string) {
    exists slot :: IsSlot(s, slot) && slot.key == key && k in ChunksOf(Raw(s, slot))
  }

  /** Setting a key after writing the chunks of its value. */
  lemma SetValid(s: Store, s1: Store, key: string, raw: Bytes, data: Bytes)
    requires Valid(s) && Written(s, s1, raw, data) && key !in ChunkKeys()
    ensures Valid(PutValue(s1, key, raw))
    ensures forall slot :: IsSlot(PutValue(s1, key, raw), slot) <==> slot == Value(key) || (IsSlot(s, slot) && slot.key != key)
    ensures forall slot :: IsSlot(s, slot) && slot.key != key ==> Raw(PutValue(s1, key, raw), slot) == Raw(s, slot)
    ensures IsSlot(PutValue(s1, key, raw), Value(key)) && Raw(PutValue(s1, key, raw), Value(key)) == raw
  {
    hide ChunkKeys, KeysOf, Content, Readable;
    var s2 := PutValue(s1, key, raw);
    forall slot ensures IsSlot(s2, slot) <==> slot == Value(key) || (IsSlot(s, slot) && slot.key != key) {
    }
    forall slot | IsSlot(s2, slot) ensures Readable(s2.values, Raw(s2, slot)) {
      if slot == Value(key) {
        KeepsReading(s1.values, key, raw, raw);
      } else {
        WrittenKeeps(s, s1, raw, data, slot);
        KeepsReading(s1.values, key, raw, Raw(s, slot));
      }
    }
    forall a, b | IsSlot(s2, a) && IsSlot(s2, b) && a != b ensures ChunksOf(Raw(s2, a)) !! ChunksOf(Raw(s2, b)) {
      if a != Value(key) {
        WrittenKeeps(s, s1, raw, data, a);
      }
      if b != Value(key) {
        WrittenKeeps(s, s1, raw, data, b);
      }
    }
  }

  /** Writing a user key does not disturb an entry. */
  lemma KeepsReading(values: map<string, Bytes>, key: string, written: Bytes, raw: Bytes)
    requires Readable(values, raw) && key !in ChunkKeys()
    ensures Readable(values[key := written], raw) && Content(values[key := written], raw) == Content(values, raw)
  {
    hide ChunkKeys;
    ContentSame(values, values[key := written], raw);
  }

  /** A slot kept its entry, and the entry reads the same. */
  ghost predicate KeptSlot(s: Store, s': Store, slot: Slot, slot': Slot) {
    && IsSlot(s, slot) && IsSlot(s', slot') && Raw(s', slot') == Raw(s, slot)
    && Readable(s.values, Raw(s, slot)) && Readable(s'.values, Raw(s, slot))
    && Content(s'.values, Raw(s, slot)) == Content(s.values, Raw(s, slot))
  }

  lemma ValuesAt(s: Store, key: string)
    requires Valid(s)
    ensures key in Values(s) <==> IsSlot(s, Value(key))
    ensures key in Values(s) ==> Values(s)[key] == Content(s.values, Raw(s, Value(key)))
  {
  }

  lemma QueuesAt(s: Store, key: string)
    requires Valid(s)
    ensures key in Queues(s) <==> key in s.lists
    ensures key in Queues(s) ==> |Queues(s)[key]| == |s.lists[key]|
    ensures forall i :: key in Queues(s) && 0 <= i < |Queues(s)[key]| ==> Queues(s)[key][i] == Content(s.values, Raw(s, Item(key, i)))
  {
  }

  lemma SameValues(s: Store, s': Store)
    requires Valid(s) && Valid(s')
    requires forall key :: IsSlot(s', Value(key)) <==> IsSlot(s, Value(key))
    requires forall key :: IsSlot(s, Value(key)) ==> KeptSlot(s, s', Value(key), Value(key))
    ensures Values(s') == Values(s)
  {
    hide Valid, Content, Readable, Values;
    forall key ensures (key in Values(s') <==> key in Values(s)) && (key in Values(s) ==> Values(s')[key] == Values(s)[key]) {
      ValuesAt(s, key);
      ValuesAt(s', key);
    }
  }

  lemma SameQueues(s: Store, s': Store)
    requires Valid(s) && Valid(s') && s'.lists == s.lists
    requires forall key, i: nat :: IsSlot(s, Item(key, i)) ==> KeptSlot(s, s', Item(key, i), Item(key, i))
    ensures Queues(s') == Queues(s)
  {
    hide Valid, Content, Readable, Queues;
    forall key ensures (key in Queues(s') <==> key in Queues(s)) && (key in Queues(s) ==> Queues(s')[key] == Queues(s)[key]) {
      QueuesAt(s, key);
      QueuesAt(s', key);
      if key in Queues(s) {
        forall i: nat | i < |s.lists[key]| ensures Queues(s')[key][i] == Queues(s)[key][i] {
          assert IsSlot(s, Item(key, i));
        }
      }
    }
  }

  lemma SetKeeps(s: Store, s1: Store, key: string, raw: Bytes, data: Bytes, slot: Slot)
    requires Valid(s) && Written(s, s1, raw, data) && key !in ChunkKeys()
    requires IsSlot(s, slot) && slot.key != key
    ensures KeptSlot(s, PutValue(s1, key, raw), slot, slot)
  {
    hide ChunkKeys, Content, Readable, ChunksOf;
    SetValid(s, s1, key, raw, data);
    WrittenKeeps(s, s1, raw, data, slot);
    KeepsReading(s1.values, key, raw, Raw(s, slot));
    assert Readable(s.values, Raw(s, slot));
  }

  /** `set` on the plain map and queues; exactly the chunks of what was stored under the key are
      left behind. */
  lemma SetMeans(s: Store, s1: Store, key: string, raw: Bytes, data: Bytes)
    requires Valid(s) && Written(s, s1, raw, data) && key !in ChunkKeys()
    ensures var s2 := PutValue(s1, key, raw);
      && Valid(s2) && Values(s2) == Values(s)[key := data] && Queues(s2) == Queues(s) - {key}
      && forall k :: IsLeaked(s2, k) <==> IsLeaked(s, k) || ChunkUnder(s, key, k)
  {
    hide ChunkKeys, Content, Readable, ChunksOf, Valid, Values, Queues, Written;
    var s2 := PutValue(s1, key, raw);
    SetValid(s, s1, key, raw, data);
    SetQueues(s, s1, key, raw, data);
    forall k ensures (k in Values(s2) <==> k in Values(s)[key := data]) && (k in Values(s2) ==> Values(s2)[k] == Values(s)[key := data][k]) {
      ValuesAt(s, k);
      ValuesAt(s2, k);
      if k == key {
        SetReads(s, s1, key, raw, data);
      } else if IsSlot(s, Value(k)) {
        SetKeeps(s, s1, key, raw, data, Value(k));
      }
    }
    forall k ensures IsLeaked(s2, k) <==> IsLeaked(s, k) || ChunkUnder(s, key, k) {
      SetLeaks(s, s1, key, raw, data, k);
    }
  }

  lemma SetQueues(s: Store, s1: Store, key: string, raw: Bytes, data: Bytes)
    requires Valid(s) && Written(s, s1, raw, data) && key !in ChunkKeys() && Valid(PutValue(s1, key, raw))
    ensures Queues(PutValue(s1, key, raw)) == Queues(s) - {key}
  {
    hide ChunkKeys, Content, Readable, ChunksOf, Valid, Queues, Written;
    var s2 := PutValue(s1, key, raw);
    WrittenLists(s, s1, raw, data);
    forall k ensures (k in Queues(s2) <==> k in Queues(s) - {key}) && (k in Queues(s2) ==> Queues(s2)[k] == Queues(s)[k]) {
      QueuesAt(s, k);
      QueuesAt(s2, k);
      if k in Queues(s2) {
        forall i: nat | i < |s.lists[k]| ensures Queues(s2)[k][i] == Queues(s)[k][i] {
          SetKeeps(s, s1, key, raw, data, Item(k, i));
        }
      }
    }
  }

  lemma WrittenLists(s: Store, s1: Store, raw: Bytes, data: Bytes)
    requires Written(s, s1, raw, data)
    ensures s1.lists == s.lists
  {
  }

  lemma SetReads(s: Store, s1: Store, key: string, raw: Bytes, data: Bytes)
    requires Written(s, s1, raw, data) && key !in ChunkKeys()
    ensures var s2 := PutValue(s1, key, raw);
      IsSlot(s2, Value(key)) && Raw(s2, Value(key)) == raw && Readable(s2.values, raw) && Content(s2.values, raw) == data
  {
    hide ChunkKeys, ChunksOf;
    KeepsReading(s1.values, key, raw, raw);
  }

  lemma SetLeaks(s: Store, s1: Store, key: string, raw: Bytes, data: Bytes, k: string)
    requires Valid(s) && Written(s, s1, raw, data) && key !in ChunkKeys()
    ensures IsLeaked(PutValue(s1, key, raw), k) <==> IsLeaked(s, k) || ChunkUnder(s, key, k)
  {
    hide ChunkKeys, Content, Readable, KeysOf;
    var s2 := PutValue(s1, key, raw);
    SetValid(s, s1, key, raw, data);
    if IsLeaked(s2, k) && !ChunkUnder(s, key, k) {
      assert IsSlot(s2, Value(key));
      assert forall slot :: IsSlot(s, slot) && slot.key != key ==> IsSlot(s2, slot) && k !in ChunksOf(Raw(s, slot));
    }
    if IsLeaked(s, k) {
      assert k !in ChunksOf(raw);
    }
    if old_ :| IsSlot(s, old_) && old_.key == key && k in ChunksOf(Raw(s, old_)) {
      LiveChunks(s, old_);
      forall slot | IsSlot(s2, slot) ensures k !in ChunksOf(Raw(s2, slot)) {
        assert slot != Value(key) ==> ChunksOf(Raw(s, slot)) !! ChunksOf(Raw(s, old_));
      }
    }
  }

  // ---- deleting read ----

  ghost function DropValue(s: Store, key: string): Store
    requires key in s.values
  {
    s.(values := s.values - {key} - ChunksOf(s.values[key]))
  }

  /** Removing the chunks of one entry, and possibly its own key, leaves the other entries as they are. */
  lemma OthersStayReadable(s: Store, gone: Slot, key: string, slot: Slot)
    requires Valid(s) && IsSlot(s, gone) && IsSlot(s, slot) && slot != gone && key !in ChunkKeys()
    ensures var values := s.values - {key} - ChunksOf(Raw(s, gone));
      Readable(values, Raw(s, slot)) && Content(values, Raw(s, slot)) == Content(s.values, Raw(s, slot))
  {
    hide ChunkKeys, KeysOf, Content, Readable;
    assert Readable(s.values, Raw(s, slot));
    assert ChunksOf(Raw(s, slot)) !! ChunksOf(Raw(s, gone));
    LiveChunks(s, slot);
    ContentSame(s.values, s.values - {key} - ChunksOf(Raw(s, gone)), Raw(s, slot));
  }

  lemma DropSlots(s: Store, key: string, slot: Slot)
    requires Valid(s) && key in UserKeys(s)
    ensures IsSlot(DropValue(s, key), slot) <==> slot != Value(key) && IsSlot(s, slot)
    ensures IsSlot(DropValue(s, key), slot) ==> Raw(DropValue(s, key), slot) == Raw(s, slot)
  {
    hide ChunkKeys, KeysOf, Content, Readable;
    assert IsSlot(s, Value(key));
    LiveChunks(s, Value(key));
  }

  /** Reading with deletion: the map loses the key, the store loses the key and exactly the chunks
      of its value. */
  lemma DropMeans(s: Store, key: string)
    requires Valid(s) && key in UserKeys(s)
    ensures var s' := DropValue(s, key);
      && Valid(s') && Values(s') == Values(s) - {key} && Queues(s') == Queues(s)
      && forall k :: IsLeaked(s', k) <==> IsLeaked(s, k)
  {
    hide ChunkKeys, KeysOf, Content, Readable, Values, Queues;
    var s' := DropValue(s, key);
    assert IsSlot(s, Value(key)) && Raw(s, Value(key)) == s.values[key];
    forall slot
      ensures IsSlot(s', slot) <==> slot != Value(key) && IsSlot(s, slot)
      ensures IsSlot(s', slot) ==> KeptSlot(s, s', slot, slot)
    {
      DropSlots(s, key, slot);
      if IsSlot(s', slot) {
        OthersStayReadable(s, Value(key), key, slot);
      }
    }
    assert Valid(s');
    SameQueues(s, s');
    forall k ensures (k in Values(s') <==> k in Values(s) - {key}) && (k in Values(s') ==> Values(s')[k] == Values(s)[k]) {
      ValuesAt(s, k);
      ValuesAt(s', k);
    }
    LiveChunks(s, Value(key));
    forall k ensures IsLeaked(s', k) <==> IsLeaked(s, k) {
      DropLeaks(s, key, k);
    }
  }

  lemma DropLeaks(s: Store, key: string, k: string)
    requires Valid(s) && key in UserKeys(s)
    ensures IsLeaked(DropValue(s, key), k) <==> IsLeaked(s, k)
  {
    hide ChunkKeys, KeysOf, Content, Readable, Valid;
    var s' := DropValue(s, key);
    assert IsSlot(s, Value(key)) && Raw(s, Value(key)) == s.values[key];
    forall slot
      ensures IsSlot(s', slot) <==> slot != Value(key) && IsSlot(s, slot)
      ensures IsSlot(s', slot) ==> Raw(s', slot) == Raw(s, slot)
    {
      DropSlots(s, key, slot);
    }
  }

  // ---- queues ----

  ghost function PushItem(s: Store, key: string, raw: Bytes): Store {
    s.(lists := s.lists[key := (if key in s.lists then s.lists[key] else []) + [raw]])
  }

  lemma PushSlots(s: Store, s1: Store, key: string, raw: Bytes, data: Bytes, slot: Slot)
    requires Written(s, s1, raw, data)
    ensures var s2, n := PushItem(s1, key, raw), if key in s.lists then |s.lists[key]| else 0;
      && (IsSlot(s2, slot) <==> slot == Item(key, n) || IsSlot(s, slot))
      && IsSlot(s2, Item(key, n)) && Raw(s2, Item(key, n)) == raw
      && (IsSlot(s, slot) ==> slot != Item(key, n) && Raw(s2, slot) == Raw(s, slot))
  {
    hide ChunkKeys, KeysOf, Content, Readable;
  }

  /** `queue_put` on the plain queues. */
  lemma PushMeans(s: Store, s1: Store, key: string, raw: Bytes, data: Bytes)
    requires Valid(s) && Written(s, s1, raw, data) && key !in ChunkKeys() && key !in s.values
    ensures var s2 := PushItem(s1, key, raw);
      && Valid(s2) && Values(s2) == Values(s)
      && Queues(s2) == Queues(s)[key := (if key in Queues(s) then Queues(s)[key] else []) + [data]]
      && forall k :: IsLeaked(s2, k) <==> IsLeaked(s, k)
  {
    hide ChunkKeys, KeysOf, Content, Readable, Values, Queues, Valid, Written;
    var s2, n := PushItem(s1, key, raw), if key in s.lists then |s.lists[key]| else 0;
    PushValid(s, s1, key, raw, data);
    forall slot
      ensures IsSlot(s2, slot) <==> slot == Item(key, n) || IsSlot(s, slot)
      ensures IsSlot(s, slot) ==> slot != Item(key, n) && KeptSlot(s, s2, slot, slot)
    {
      PushSlots(s, s1, key, raw, data, slot);
      if IsSlot(s, slot) {
        WrittenKeeps(s, s1, raw, data, slot);
        SlotReadable(s, slot);
      }
    }
    SameValues(s, s2);
    PushQueues(s, s1, key, raw, data);
    forall k ensures IsLeaked(s2, k) <==> IsLeaked(s, k) {
      PushLeaks(s, s1, key, raw, data, k);
    }
  }

  /** The key holds a plain value, so the push is refused, but the chunks are written already. */
  lemma RefusedPushMeans(s: Store, s1: Store, raw: Bytes, data: Bytes)
    requires Valid(s) && Written(s, s1, raw, data)
    ensures Valid(s1) && Values(s1) == Values(s) && Queues(s1) == Queues(s)
    ensures forall k :: IsLeaked(s1, k) <==> IsLeaked(s, k) || k in s1.values.Keys - s.values.Keys
  {
    hide ChunkKeys, KeysOf, Content, Readable, Values, Queues;
    forall slot
      ensures IsSlot(s1, slot) <==> IsSlot(s, slot)
      ensures IsSlot(s, slot) ==> KeptSlot(s, s1, slot, slot) && ChunksOf(Raw(s, slot)) <= s.values.Keys * ChunkKeys()
    {
      assert ChunksOf(raw) <= ChunkKeys();
      if IsSlot(s, slot) {
        WrittenKeeps(s, s1, raw, data, slot);
      }
    }
    assert forall slot :: IsSlot(s, slot) ==> Raw(s1, slot) == Raw(s, slot);
    SameValues(s, s1);
    SameQueues(s, s1);
    forall k ensures IsLeaked(s1, k) <==> IsLeaked(s, k) || k in s1.values.Keys - s.values.Keys {
      assert k in s1.values.Keys - s.values.Keys ==> k in ChunkKeys();
    }
  }

  lemma SlotReadable(s: Store, slot: Slot)
    requires Valid(s) && IsSlot(s, slot)
    ensures Readable(s.values, Raw(s, slot))
  {
  }

  lemma PushValid(s: Store, s1: Store, key: string, raw: Bytes, data: Bytes)
    requires Valid(s) && Written(s, s1, raw, data) && key !in ChunkKeys() && key !in s.values
    ensures Valid(PushItem(s1, key, raw))
  {
    hide ChunkKeys, KeysOf, Content, Readable;
    var s2, n := PushItem(s1, key, raw), if key in s.lists then |s.lists[key]| else 0;
    forall slot
      ensures IsSlot(s2, slot) <==> slot == Item(key, n) || IsSlot(s, slot)
      ensures IsSlot(s, slot) ==> Raw(s2, slot) == Raw(s, slot) && Readable(s1.values, Raw(s, slot)) && ChunksOf(Raw(s, slot)) !! ChunksOf(raw)
    {
      PushSlots(s, s1, key, raw, data, slot);
      if IsSlot(s, slot) {
        WrittenKeeps(s, s1, raw, data, slot);
      }
    }
    assert Raw(s2, Item(key, n)) == raw;
  }

  lemma PushQueues(s: Store, s1: Store, key: string, raw: Bytes, data: Bytes)
    requires Valid(s) && Written(s, s1, raw, data) && Valid(PushItem(s1, key, raw))
    ensures Queues(PushItem(s1, key, raw)) == Queues(s)[key := (if key in Queues(s) then Queues(s)[key] else []) + [data]]
  {
    hide ChunkKeys, KeysOf, Content, Readable, Queues, Valid;
    var s2, n := PushItem(s1, key, raw), if key in s.lists then |s.lists[key]| else 0;
    var expected := Queues(s)[key := (if key in Queues(s) then Queues(s)[key] else []) + [data]];
    forall q ensures (q in Queues(s2) <==> q in expected) && (q in expected ==> Queues(s2)[q] == expected[q]) {
      QueuesAt(s, q);
      QueuesAt(s2, q);
      if q in expected {
        assert |Queues(s2)[q]| == |expected[q]|;
        forall i: nat | i < |expected[q]| ensures Queues(s2)[q][i] == expected[q][i] {
          PushSlots(s, s1, key, raw, data, Item(q, i));
          if IsSlot(s, Item(q, i)) {
            WrittenKeeps(s, s1, raw, data, Item(q, i));
          }
        }
      }
    }
  }

  lemma PushLeaks(s: Store, s1: Store, key: string, raw: Bytes, data: Bytes, k: string)
    requires Valid(s) && Written(s, s1, raw, data)
    ensures IsLeaked(PushItem(s1, key, raw), k) <==> IsLeaked(s, k)
  {
    hide ChunkKeys, KeysOf, Content, Readable, Valid;
    var s2, n := PushItem(s1, key, raw), if key in s.lists then |s.lists[key]| else 0;
    forall slot
      ensures IsSlot(s2, slot) <==> slot == Item(key, n) || IsSlot(s, slot)
      ensures IsSlot(s, slot) ==> Raw(s2, slot) == Raw(s, slot)
    {
      PushSlots(s, s1, key, raw, data, slot);
    }
    PushSlots(s, s1, key, raw, data, Item(key, n));
  }

  ghost function PopItem(s: Store, key: string): Store
    requires key in s.lists && s.lists[key] != []
  {
    Store(s.values - ChunksOf(s.lists[key][0]),
          if |s.lists[key]| == 1 then s.lists - {key} else s.lists[key := s.lists[key][1..]])
  }

  /** Where the entry of a slot was before the first item of `key` was taken. */
  ghost function Before(key: string, slot: Slot): Slot {
    if slot.Item? && slot.key == key then Item(key, slot.index + 1) else slot
  }

  lemma PopSlots(s: Store, key: string, slot: Slot)
    requires Valid(s) && key in s.lists
    ensures s.lists[key] != []
    ensures IsSlot(PopItem(s, key), slot) <==> IsSlot(s, Before(key, slot))
    ensures IsSlot(PopItem(s, key), slot) ==> Raw(PopItem(s, key), slot) == Raw(s, Before(key, slot))
    ensures IsSlot(s, slot) && slot != Item(key, 0) ==> exists later :: Before(key, later) == slot
  {
    hide ChunkKeys, KeysOf, Content, Readable;
    assert IsSlot(s, Item(key, 0));
    LiveChunks(s, Item(key, 0));
    if slot.Item? && slot.key == key && slot.index > 0 {
      assert Before(key, Item(key, slot.index - 1)) == slot;
    } else {
      assert slot != Item(key, 0) ==> Before(key, slot) == slot;
    }
  }

  /** `queue_get` on the plain queues: the first value comes out, its chunks and no others go. */
  lemma PopMeans(s: Store, key: string)
    requires Valid(s) && key in s.lists
    ensures s.lists[key] != [] && key in Queues(s) && Queues(s)[key] != []
    ensures var s' := PopItem(s, key);
      && Valid(s') && Values(s') == Values(s)
      && Queues(s') == (if |Queues(s)[key]| == 1 then Queues(s) - {key} else Queues(s)[key := Queues(s)[key][1..]])
      && forall k :: IsLeaked(s', k) <==> IsLeaked(s, k)
    ensures Readable(s.values, s.lists[key][0]) && Queues(s)[key][0] == Content(s.values, s.lists[key][0])
  {
    hide ChunkKeys, KeysOf, Content, Readable, Values, Queues, Valid;
    PopSlots(s, key, Item(key, 0));
    QueuesAt(s, key);
    SlotReadable(s, Item(key, 0));
    PopValid(s, key);
    var s' := PopItem(s, key);
    forall k ensures (IsSlot(s', Value(k)) <==> IsSlot(s, Value(k))) && (IsSlot(s, Value(k)) ==> KeptSlot(s, s', Value(k), Value(k))) {
      PopKeeps(s, key, Value(k));
    }
    SameValues(s, s');
    PopQueues(s, key);
    forall k ensures IsLeaked(s', k) <==> IsLeaked(s, k) {
      PopLeaks(s, key, k);
    }
  }

  lemma PopKeeps(s: Store, key: string, slot: Slot)
    requires Valid(s) && key in s.lists
    ensures s.lists[key] != []
    ensures IsSlot(PopItem(s, key), slot) <==> IsSlot(s, Before(key, slot))
    ensures IsSlot(PopItem(s, key), slot) ==> KeptSlot(s, PopItem(s, key), Before(key, slot), slot)
  {
    hide ChunkKeys, KeysOf, Content, Readable;
    PopSlots(s, key, slot);
    if IsSlot(PopItem(s, key), slot) {
      assert IsSlot(s, Item(key, 0)) && Before(key, slot) != Item(key, 0);
      SlotReadable(s, Before(key, slot));
      OthersStayReadable(s, Item(key, 0), key, Before(key, slot));
      assert s.values - {key} == s.values;
    }
  }

  lemma PopValid(s: Store, key: string)
    requires Valid(s) && key in s.lists
    ensures s.lists[key] != [] && Valid(PopItem(s, key))
  {
    hide ChunkKeys, KeysOf, Content, Readable;
    var s' := PopItem(s, key);
    forall slot ensures (IsSlot(s', slot) <==> IsSlot(s, Before(key, slot))) && (IsSlot(s', slot) ==> KeptSlot(s, s', Before(key, slot), slot)) {
      PopKeeps(s, key, slot);
    }
    forall a, b | IsSlot(s', a) && IsSlot(s', b) && a != b ensures ChunksOf(Raw(s', a)) !! ChunksOf(Raw(s', b)) {
      assert Before(key, a) != Before(key, b);
    }
  }

  lemma PopQueues(s: Store, key: string)
    requires Valid(s) && key in s.lists && s.lists[key] != [] && Valid(PopItem(s, key))
    ensures key in Queues(s) && Queues(s)[key] != []
    ensures Queues(PopItem(s, key)) == (if |Queues(s)[key]| == 1 then Queues(s) - {key} else Queues(s)[key := Queues(s)[key][1..]])
  {
    hide ChunkKeys, KeysOf, Content, Readable, Queues, Valid;
    var s' := PopItem(s, key);
    QueuesAt(s, key);
    var expected := if |Queues(s)[key]| == 1 then Queues(s) - {key} else Queues(s)[key := Queues(s)[key][1..]];
    forall q ensures (q in Queues(s') <==> q in expected) && (q in expected ==> Queues(s')[q] == expected[q]) {
      QueuesAt(s, q);
      QueuesAt(s', q);
      if q in expected {
        assert |Queues(s')[q]| == |expected[q]|;
        forall i: nat | i < |expected[q]| ensures Queues(s')[q][i] == expected[q][i] {
          assert IsSlot(s', Item(q, i));
          PopKeeps(s, key, Item(q, i));
        }
      }
    }
  }

  lemma PopLeaks(s: Store, key: string, k: string)
    requires Valid(s) && key in s.lists
    ensures s.lists[key] != []
    ensures IsLeaked(PopItem(s, key), k) <==> IsLeaked(s, k)
  {
    hide ChunkKeys, KeysOf, Content, Readable, Valid;
    PopSlots(s, key, Item(key, 0));
    var s' := PopItem(s, key);
    assert IsSlot(s, Item(key, 0)) && Raw(s, Item(key, 0)) == s.lists[key][0];
    if IsLeaked(s, k) {
      forall slot | IsSlot(s', slot) ensures k !in ChunksOf(Raw(s', slot)) {
        PopSlots(s, key, slot);
      }
    }
    if IsLeaked(s', k) {
      forall slot | IsSlot(s, slot) ensures k !in ChunksOf(Raw(s, slot)) {
        if slot != Item(key, 0) {
          PopSlots(s, key, slot);
          var later :| Before(key, later) == slot;
          PopSlots(s, key, later);
        }
      }
    }
  }
}
