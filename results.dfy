/**
 * The factory's result buckets: an ordered PHP array from bucket key to the
 * list of entries a handler put there, modelled as a sequence of key/entries
 * pairs in insertion order.
 */
module Results {
  import opened Wrappers

  datatype Bucket = Bucket(key: string, entries: seq<string>)

  function Keys(buckets: seq<Bucket>): seq<string> {
    seq(|buckets|, i requires 0 <= i < |buckets| => buckets[i].key)
  }

  lemma KeysCons(b: Bucket, rest: seq<Bucket>)
    ensures Keys([b] + rest) == [b.key] + Keys(rest)
  {
    var lhs, rhs := Keys([b] + rest), [b.key] + Keys(rest);
    assert |lhs| == |rhs|;
    forall i | 0 <= i < |lhs| ensures lhs[i] == rhs[i] {
      if i > 0 { assert ([b] + rest)[i] == rest[i - 1]; }
    }
  }

  /** A PHP array never holds the same key twice. */
  predicate UniqueKeys(buckets: seq<Bucket>) {
    var keys := Keys(buckets);
    forall i, j :: 0 <= i < j < |keys| ==> keys[i] != keys[j]
  }

  /** `$operations_results[$key]`, or `None` when the key is not set. */
  function Lookup(buckets: seq<Bucket>, key: string): Option<seq<string>> {
    if buckets == [] then None
    else if buckets[0].key == key then Some(buckets[0].entries)
    else Lookup(buckets[1..], key)
  }

  /**
   * `$operations_results[$key] = $entries`: an existing key keeps its place
   * and gets the new entries, a new key is added at the end.
   */
  function Put(buckets: seq<Bucket>, key: string, entries: seq<string>): (r: seq<Bucket>)
    ensures Lookup(r, key) == Some(entries)
    ensures forall other :: other != key ==> Lookup(r, other) == Lookup(buckets, other)
    ensures Keys(r) == if key in Keys(buckets) then Keys(buckets) else Keys(buckets) + [key]
  {
    if buckets == [] then [Bucket(key, entries)]
    else if buckets[0].key == key then
      var r := [Bucket(key, entries)] + buckets[1..];
      assert r[1..] == buckets[1..];
      KeysCons(Bucket(key, entries), buckets[1..]);
      KeysCons(buckets[0], buckets[1..]);
      assert [buckets[0]] + buckets[1..] == buckets;
      assert Keys(buckets)[0] == key;
      r
    else
      var rest := Put(buckets[1..], key, entries);
      var r := [buckets[0]] + rest;
      assert r[1..] == rest;
      KeysCons(buckets[0], buckets[1..]);
      KeysCons(buckets[0], rest);
      assert [buckets[0]] + buckets[1..] == buckets;
      assert key in Keys(buckets) <==> key in Keys(buckets[1..]);
      r
  }

  /** Writing a bucket never makes a key appear twice. */
  lemma PutKeepsKeysUnique(buckets: seq<Bucket>, key: string, entries: seq<string>)
    requires UniqueKeys(buckets)
    ensures UniqueKeys(Put(buckets, key, entries))
  {
    var keys := Keys(buckets);
    var keys' := Keys(Put(buckets, key, entries));
    if key !in keys {
      forall i, j | 0 <= i < j < |keys'| ensures keys'[i] != keys'[j] {
        if j == |keys| { assert keys'[i] == keys[i]; }
      }
    }
  }

  /** A handler's writes, each one `prepareResults(key)` followed by appending its entries, in order. */
  function ApplyWrites(buckets: seq<Bucket>, writes: seq<Bucket>): seq<Bucket>
    decreases |writes|
  {
    if writes == [] then buckets
    else ApplyWrites(Put(buckets, writes[0].key, writes[0].entries), writes[1..])
  }

  /** `flattenOperationsResults`: every key followed by its entries, buckets in insertion order. */
  function Flatten(buckets: seq<Bucket>): seq<string>
    decreases |buckets|
  {
    if buckets == [] then [] else [buckets[0].key] + buckets[0].entries + Flatten(buckets[1..])
  }

  /** Total number of entries over all buckets. */
  function EntryCount(buckets: seq<Bucket>): nat
    decreases |buckets|
  {
    if buckets == [] then 0 else |buckets[0].entries| + EntryCount(buckets[1..])
  }

  /** A handler's writes never make a key appear twice. */
  lemma {:induction false} ApplyWritesKeepsKeysUnique(buckets: seq<Bucket>, writes: seq<Bucket>)
    requires UniqueKeys(buckets)
    ensures UniqueKeys(ApplyWrites(buckets, writes))
    decreases |writes|
  {
    if writes != [] {
      PutKeepsKeysUnique(buckets, writes[0].key, writes[0].entries);
      ApplyWritesKeepsKeysUnique(Put(buckets, writes[0].key, writes[0].entries), writes[1..]);
    }
  }

  /** Flattening distributes over concatenation of bucket lists. */
  lemma {:induction false} FlattenAppend(a: seq<Bucket>, b: seq<Bucket>)
    ensures Flatten(a + b) == Flatten(a) + Flatten(b)
    decreases |a|
  {
    if a == [] {
      assert a + b == b;
    } else {
      assert (a + b)[0] == a[0] && (a + b)[1..] == a[1..] + b;
      FlattenAppend(a[1..], b);
    }
  }

  lemma {:induction false} EntryCountAppend(a: seq<Bucket>, b: seq<Bucket>)
    ensures EntryCount(a + b) == EntryCount(a) + EntryCount(b)
    decreases |a|
  {
    if a == [] {
      assert a + b == b;
    } else {
      assert (a + b)[0] == a[0] && (a + b)[1..] == a[1..] + b;
      EntryCountAppend(a[1..], b);
    }
  }

  /** The flat list holds one slot per bucket key plus one per entry. */
  lemma {:induction false} FlattenLength(buckets: seq<Bucket>)
    ensures |Flatten(buckets)| == |buckets| + EntryCount(buckets)
    decreases |buckets|
  {
    if buckets != [] { FlattenLength(buckets[1..]); }
  }

  /**
   * Bucket `i` sits at offset `i + EntryCount(buckets[..i])` of the flat
   * list: its key there, its entries right behind it.
   */
  lemma FlattenLayout(buckets: seq<Bucket>, i: nat)
    requires i < |buckets|
    ensures i + EntryCount(buckets[..i]) + 1 + |buckets[i].entries| <= |Flatten(buckets)|
    ensures Flatten(buckets)[i + EntryCount(buckets[..i])] == buckets[i].key
    ensures Flatten(buckets)[i + EntryCount(buckets[..i]) + 1 .. i + EntryCount(buckets[..i]) + 1 + |buckets[i].entries|]
         == buckets[i].entries
  {
    var before, here, after := buckets[..i], [buckets[i]], buckets[i + 1..];
    assert buckets == before + here + after;
    FlattenAppend(before + here, after);
    FlattenAppend(before, here);
    FlattenLength(before);
    assert Flatten(here) == [buckets[i].key] + buckets[i].entries + Flatten([]);
  }
}
