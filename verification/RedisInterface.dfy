/** The interface object of src/storage/redis_interface.py. Values are given in pickled form; a
    pickled value never starts with the chunk marker. */
module RedisInterface {
  import opened Common
  import opened Graphs
  import opened RedisStore

  class Interface {
    const chunkSize: nat
    var values: map<string, Bytes>
    var lists: map<string, seq<Bytes>>

    constructor (chunkSize: nat)
      requires chunkSize > 0
      ensures this.chunkSize == chunkSize && values == map[] && lists == map[]
      ensures Valid(Now()) && Values(Now()) == map[] && Queues(Now()) == map[]
    {
      this.chunkSize := chunkSize;
      values, lists := map[], map[];
    }

    ghost function Now(): Store
      reads this
    {
      Store(values, lists)
    }

    /** Enough chunk keys are free for the value; otherwise the search for a key does not end. */
    ghost predicate Fits(data: Bytes)
      reads this
      requires chunkSize > 0
    {
      |data| > chunkSize ==> NumChunks(|data|, chunkSize) <= |FreeKeys(Now())|
    }

    /** Draws random keys until one is free. */
    method GetNewChunkKey() returns (key: string)
      requires FreeKeys(Now()) != {}
      ensures key in FreeKeys(Now()) && SEPARATOR !in key
    {
      ghost var free :| free in FreeKeys(Now());
      ghost var m: nat :| m < KEY_RANGE && ChunkKey(m) == free;
      var n: nat :| n < KEY_RANGE && ChunkKey(n) !in values && ChunkKey(n) !in lists;
      key := ChunkKey(n);
    }

    /** Stores the chunks and builds the meta key. */
    method StoreChunks(data: Bytes) returns (metaKey: Bytes, ghost keys: seq<string>)
      requires chunkSize > 0 && NumChunks(|data|, chunkSize) <= |FreeKeys(Now())|
      modifies this`values
      ensures metaKey == MetaKey(keys) && Added(old(Now()), Now(), keys, data)
    {
      hide ChunkKeys, Decimal, Added, MetaKey, FreeKeys, Chunk, Reached;
      metaKey, keys := MAGIC, [];
      NothingAdded(Now());
      for i := 0 to NumChunks(|data|, chunkSize)
        invariant |keys| == i && metaKey == MetaKey(keys)
        invariant Added(old(Now()), Now(), keys, data[..Reached(|data|, i)])
        invariant FreeKeys(Now()) <= old(FreeKeys(Now())) && |FreeKeys(Now())| + i == |old(FreeKeys(Now()))|
      {
        ghost var before := Now();
        var key := GetNewChunkKey();
        var chunk := Chunk(data, chunkSize, i);
        values := values[key := chunk];
        metaKey := metaKey + [SEPARATOR] + key;
        MetaKeyFormat(key, keys);
        OneLessFree(before, key, chunk);
        OneMoreChunk(data, i);
        AddedOneMore(old(Now()), before, keys, data[..Reached(|data|, i)], key, chunk);
        keys := keys + [key];
      }
      EndReached(|data|);
      assert data[..|data|] == data;
    }

    /** How much of the data the first `i` chunks cover. */
    ghost function Reached(length: nat, i: nat): (r: nat)
      requires chunkSize > 0
      ensures r <= length && (i == 0 ==> r == 0)
    {
      if chunkSize * i < length then chunkSize * i else length
    }

    lemma OneMoreChunk(data: Bytes, i: nat)
      requires chunkSize > 0 && i < NumChunks(|data|, chunkSize)
      ensures data[..Reached(|data|, i)] + Chunk(data, chunkSize, i) == data[..Reached(|data|, i + 1)]
    {
      ChunkBounds(|data|, chunkSize, i);
    }

    lemma EndReached(length: nat)
      requires chunkSize > 0
      ensures Reached(length, NumChunks(length, chunkSize)) == length
    {
      var n := NumChunks(length, chunkSize);
      if n > 0 {
        ChunkBounds(length, chunkSize, n - 1);
      }
    }

    method SplitIfNecessary(data: Bytes) returns (raw: Bytes)
      requires chunkSize > 0 && !IsChunked(data) && Fits(data)
      modifies this`values
      ensures Written(old(Now()), Now(), raw, data)
      ensures IsChunked(raw) <==> |data| > chunkSize
    {
      hide ChunkKeys, Written, Added, IsChunked, FreeKeys, MetaKey, Content, Readable;
      if |data| > chunkSize {
        ghost var keys;
        raw, keys := StoreChunks(data);
        AddedIsWritten(old(Now()), Now(), keys, data);
      } else {
        raw := data;
        PlainIsWritten(Now(), data);
      }
    }

    /** `CombineChunks` with deletion pops each chunk as it is read. */
    method CombineIfSplit(raw: Bytes, delete: bool) returns (data: Bytes)
      requires Readable(values, raw)
      modifies this`values
      ensures data == Content(old(values), raw)
      ensures values == if delete then old(values) - ChunksOf(raw) else old(values)
    {
      hide ChunkKeys;
      if !IsChunked(raw) {
        assert ChunksOf(raw) == {};
        return raw;
      }
      var keys := KeysOf(raw);
      data := [];
      for i := 0 to |keys|
        invariant values == if delete then old(values) - (set k | k in keys[..i]) else old(values)
        invariant data == Concat(old(values), keys[..i])
      {
        assert keys[..i + 1] == keys[..i] + [keys[i]];
        assert keys[i] !in keys[..i];
        ConcatAppend(old(values), keys[..i], keys[i]);
        data := data + values[keys[i]];
        if delete {
          values := values - {keys[i]};
        }
      }
      assert keys[..|keys|] == keys;
    }

    /** Replaces whatever is stored under the key, also a queue. What was chunked there leaks. */
    method Set(key: string, data: Bytes)
      requires chunkSize > 0 && Valid(Now()) && !IsChunked(data) && Fits(data)
      requires key !in ChunkKeys()
      modifies this
      ensures Valid(Now()) && Values(Now()) == old(Values(Now()))[key := data] && Queues(Now()) == old(Queues(Now())) - {key}
      ensures forall k :: IsLeaked(Now(), k) <==> old(IsLeaked(Now(), k) || ChunkUnder(Now(), key, k))
      ensures key in values && (IsChunked(values[key]) <==> |data| > chunkSize)
    {
      hide Valid, Values, Queues, IsLeaked, Written, ChunkKeys, IsChunked, Fits, ChunkUnder;
      var raw := SplitIfNecessary(data);
      SetMeans(old(Now()), Now(), key, raw, data);
      values := values[key := raw];
      lists := lists - {key};
    }

    /** Returns the value stored under the key, if any. With `delete` exactly the key and the chunks
        of its value are removed. */
    method Get(key: string, delete: bool) returns (r: Option<Bytes>)
      requires Valid(Now()) && key !in ChunkKeys() && key !in lists
      modifies this`values
      ensures r == if key in old(Values(Now())) then Some(old(Values(Now()))[key]) else None
      ensures Valid(Now()) && Queues(Now()) == old(Queues(Now()))
      ensures Values(Now()) == if delete then old(Values(Now())) - {key} else old(Values(Now()))
      ensures delete && key in old(values) ==> values.Keys == old(values).Keys - {key} - ChunksOf(old(values)[key])
      ensures !delete || key !in old(values) ==> values == old(values)
      ensures forall k :: IsLeaked(Now(), k) <==> old(IsLeaked(Now(), k))
    {
      hide ChunkKeys, Content, Readable, IsLeaked, Values, Queues, Concat, KeysOf;
      ghost var s := Now();
      ValuesAt(s, key);
      if key !in values {
        return None;
      }
      var raw := values[key];
      SlotReadable(s, Value(key));
      DropMeans(s, key);
      WithoutKey(values, key, raw);
      if delete {
        values := values - {key};
      }
      var data := CombineIfSplit(raw, delete);
      if delete {
        assert Now() == DropValue(s, key);
      }
      return Some(data);
    }

    /** `ok` is false when the key holds a plain value: the database refuses the push, and the chunks
        written for it leak. */
    method QueuePut(key: string, data: Bytes) returns (ok: bool)
      requires chunkSize > 0 && Valid(Now()) && !IsChunked(data) && Fits(data)
      requires key !in ChunkKeys()
      modifies this
      ensures Valid(Now()) && Values(Now()) == old(Values(Now())) && (ok <==> key !in old(values))
      ensures Queues(Now()) == if !ok then old(Queues(Now())) else
        old(Queues(Now()))[key := (if key in old(Queues(Now())) then old(Queues(Now()))[key] else []) + [data]]
      ensures forall k :: IsLeaked(Now(), k) <==> old(IsLeaked(Now(), k)) || (!ok && k in values.Keys - old(values.Keys))
    {
      hide Valid, Values, Queues, IsLeaked, Written, ChunkKeys, IsChunked, Fits;
      ok := key !in values;
      var raw := SplitIfNecessary(data);
      if ok {
        PushMeans(old(Now()), Now(), key, raw, data);
        lists := lists[key := (if key in lists then lists[key] else []) + [raw]];
      } else {
        RefusedPushMeans(old(Now()), Now(), raw, data);
      }
    }

    /** The values of a queue come out in the order in which they were put in. */
    method QueueGet(key: string) returns (r: Option<Bytes>)
      requires Valid(Now()) && key !in values
      modifies this
      ensures Valid(Now()) && Values(Now()) == old(Values(Now()))
      ensures key !in old(Queues(Now())) ==> r == None && Queues(Now()) == old(Queues(Now()))
      ensures key in old(Queues(Now())) ==>
        var queue := old(Queues(Now()))[key];
        && queue != [] && r == Some(queue[0])
        && Queues(Now()) == if |queue| == 1 then old(Queues(Now())) - {key} else old(Queues(Now()))[key := queue[1..]]
      ensures forall k :: IsLeaked(Now(), k) <==> old(IsLeaked(Now(), k))
    {
      ghost var s := Now();
      QueuesAt(s, key);
      if key !in lists {
        return None;
      }
      PopMeans(s, key);
      var raw := lists[key][0];
      lists := if |lists[key]| == 1 then lists - {key} else lists[key := lists[key][1..]];
      var data := CombineIfSplit(raw, true);
      assert Now() == PopItem(s, key);
      return Some(data);
    }
  }

  /** Between the two stores exactly the chunks `keys` of `data` were added. */
  ghost predicate Added(s: Store, s1: Store, keys: seq<string>, data: Bytes) {
    && s1.lists == s.lists
    && (forall k :: k in s.values ==> k in s1.values && s1.values[k] == s.values[k])
    && s1.values.Keys == s.values.Keys + (set k | k in keys)
    && Distinct(keys)
    && (forall i :: 0 <= i < |keys| ==> keys[i] in s1.values && keys[i] in FreeKeys(s) && SEPARATOR !in keys[i])
    && Concat(s1.values, keys) == data
  }

  lemma NothingAdded(s: Store)
    ensures Added(s, s, [], []) && MetaKey([]) == MAGIC
  {
  }

  lemma OneLessFree(s: Store, key: string, chunk: Bytes)
    requires key in FreeKeys(s)
    ensures FreeKeys(s.(values := s.values[key := chunk])) == FreeKeys(s) - {key}
  {
    hide ChunkKeys;
  }

  lemma PlainIsWritten(s: Store, data: Bytes)
    requires !IsChunked(data)
    ensures Written(s, s, data, data)
  {
    hide ChunkKeys;
  }

  lemma AddedOneMore(s: Store, s1: Store, keys: seq<string>, data: Bytes, key: string, chunk: Bytes)
    requires Added(s, s1, keys, data) && key in FreeKeys(s1) && key in FreeKeys(s) && SEPARATOR !in key
    ensures Added(s, s1.(values := s1.values[key := chunk]), keys + [key], data + chunk)
  {
    hide ChunkKeys, Concat;
    var values := s1.values[key := chunk];
    assert forall i :: 0 <= i < |keys| ==> keys[i] in s1.values && keys[i] != key;
    ConcatSame(s1.values, values, keys);
    ConcatAppend(values, keys, key);
    assert (set k | k in keys + [key]) == (set k | k in keys) + {key};
  }

  lemma AddedIsWritten(s: Store, s1: Store, keys: seq<string>, data: Bytes)
    requires Added(s, s1, keys, data)
    ensures Written(s, s1, MetaKey(keys), data) && IsChunked(MetaKey(keys))
  {
    hide ChunkKeys, KeysOf, MetaKey, IsChunked;
    MetaKeyNames(keys);
  }

  /** The key of a value is not one of its chunks. */
  lemma WithoutKey(values: map<string, Bytes>, key: string, raw: Bytes)
    requires Readable(values, raw) && key !in ChunkKeys()
    ensures Readable(values - {key}, raw) && Content(values - {key}, raw) == Content(values, raw)
  {
    hide ChunkKeys;
    ContentSame(values, values - {key}, raw);
  }

  /** Setting a key twice: the chunks of the first value stay behind. */
  method SettingTwiceLeaks() returns (redis: Interface, ghost leaked: string)
    ensures IsLeaked(redis.Now(), leaked)
  {
    hide Valid, Values, IsLeaked, ChunkKeys, Readable;
    redis := new Interface(1);
    UserKey();
    SomeKeysFree(redis.Now());
    redis.Set("k", "ab");
    leaked := ChunkThere(redis.Now(), "k");
    redis.Set("k", "c");
  }

  lemma UserKey()
    ensures "k" !in ChunkKeys()
  {
    forall n: nat | n < KEY_RANGE ensures ChunkKey(n) != "k" {
      assert "chunk_" <= ChunkKey(n);
      assert |ChunkKey(n)| > 1;
    }
  }

  lemma SomeKeysFree(s: Store)
    requires s.values == map[] && s.lists == map[]
    ensures |FreeKeys(s)| >= 2
  {
    assert ChunkKey(0) == "chunk_0" && ChunkKey(1) == "chunk_1";
    assert {"chunk_0", "chunk_1"} <= FreeKeys(s);
    SmallerSet({"chunk_0", "chunk_1"}, FreeKeys(s));
  }

  lemma ChunkThere(s: Store, key: string) returns (k: string)
    requires Valid(s) && key in s.values && key !in ChunkKeys() && IsChunked(s.values[key]) && Values(s)[key] != []
    ensures ChunkUnder(s, key, k)
  {
    hide ChunkKeys;
    var raw := s.values[key];
    assert IsSlot(s, Value(key)) && Raw(s, Value(key)) == raw;
    assert Content(s.values, raw) != [];
    k := KeysOf(raw)[0];
    assert k in ChunksOf(raw);
  }
}
