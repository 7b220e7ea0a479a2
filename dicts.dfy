// Python dicts as the source uses them: insertion-ordered association
// lists, read with get(key) and written with d[key] = value.

module Dicts {
  import opened Common

  /** A value held in an attribute table, a configuration or a request; Nested is a dict value. */
  datatype Value = Str(s: string) | Int(i: int) | Real(r: real) | Bool(b: bool) | Null
                 | Nested(entries: seq<(string, Value)>)

  /** Python truthiness: empty strings and dicts, zero, False and None are false. */
  predicate Truthy(v: Value)
  {
    match v
    case Str(s) => s != ""
    case Int(i) => i != 0
    case Real(r) => r != 0.0
    case Bool(b) => b
    case Null => false
    case Nested(entries) => entries != []
  }

  /** The value as a number where Python arithmetic and comparison accept it (a bool counts as 0 or 1). */
  function NumberOf(v: Value): Option<real>
  {
    match v
    case Int(i) => Some(i as real)
    case Real(r) => Some(r)
    case Bool(b) => Some(if b then 1.0 else 0.0)
    case _ => None
  }

  /** A dict: its (key, value) pairs in insertion order. */
  type Assoc<K, V> = seq<(K, V)>

  /** The dicts the source keys by string. */
  type Dict<V> = Assoc<string, V>

  /** A dict never holds the same key twice. */
  predicate DistinctKeys<K(==), V>(d: Assoc<K, V>)
  {
    forall i, j :: 0 <= i < j < |d| ==> d[i].0 != d[j].0
  }

  function Keys<K(==), V>(d: Assoc<K, V>): seq<K>
  {
    seq(|d|, i requires 0 <= i < |d| => d[i].0)
  }

  /** d.get(k): the value stored under k, if any. */
  function Get<K(==), V>(d: Assoc<K, V>, k: K): Option<V>
  {
    if d == [] then None
    else if d[0].0 == k then Some(d[0].1)
    else Get(d[1..], k)
  }

  /** d.get(k, default). */
  function GetOr<K(==), V>(d: Assoc<K, V>, k: K, default: V): V
  {
    match Get(d, k)
    case Some(v) => v
    case None => default
  }

  /** get returns the value of the first pair carrying the key. */
  lemma {:induction false} GetFirst<K, V>(d: Assoc<K, V>, i: nat, k: K)
    requires i < |d| && d[i].0 == k
    requires forall j :: 0 <= j < i ==> d[j].0 != k
    ensures Get(d, k) == Some(d[i].1)
  {
    if i > 0 {
      GetFirst(d[1..], i - 1, k);
    }
  }

  /** A key no pair carries reads as None. */
  lemma {:induction false} GetMissing<K, V>(d: Assoc<K, V>, k: K)
    requires forall j :: 0 <= j < |d| ==> d[j].0 != k
    ensures Get(d, k) == None
  {
    if d != [] {
      GetMissing(d[1..], k);
    }
  }

  /** d[k] = v: an existing key keeps its place, a new key goes last. */
  function Put<K(==), V>(d: Assoc<K, V>, k: K, v: V): Assoc<K, V>
  {
    if d == [] then [(k, v)]
    else if d[0].0 == k then [(k, v)] + d[1..]
    else [d[0]] + Put(d[1..], k, v)
  }

  /** A key is present exactly when some pair carries it, and get returns that pair's value. */
  lemma {:induction false} GetSpec<K, V>(d: Assoc<K, V>, k: K)
    requires DistinctKeys(d)
    ensures Get(d, k).Some? <==> exists i :: 0 <= i < |d| && d[i].0 == k
    ensures forall i :: 0 <= i < |d| && d[i].0 == k ==> Get(d, k) == Some(d[i].1)
  {
    if d != [] && d[0].0 != k {
      GetSpec(d[1..], k);
      assert forall i :: 1 <= i < |d| ==> d[i] == d[1..][i - 1];
    }
  }

  /** After d[k] = v, get(k) is v and every other key reads as before. */
  lemma {:induction false} PutGet<K, V>(d: Assoc<K, V>, k: K, v: V, j: K)
    ensures Get(Put(d, k, v), j) == if j == k then Some(v) else Get(d, j)
  {
    if d != [] && d[0].0 != k {
      PutGet(d[1..], k, v, j);
    }
  }

  /** d[k] = v keeps the key order, appending k when it is new, and keeps the keys distinct. */
  lemma {:induction false} PutKeys<K, V>(d: Assoc<K, V>, k: K, v: V)
    requires DistinctKeys(d)
    ensures Keys(Put(d, k, v)) == if k in Keys(d) then Keys(d) else Keys(d) + [k]
    ensures DistinctKeys(Put(d, k, v))
  {
    if d != [] {
      var tail := d[1..];
      KeysCons(d[0], tail);
      assert d == [d[0]] + tail;
      if d[0].0 != k {
        assert DistinctKeys(tail);
        PutKeys(tail, k, v);
        var rest := Put(tail, k, v);
        assert Put(d, k, v) == [d[0]] + rest;
        KeysCons(d[0], rest);
        assert k in Keys(d) <==> k in Keys(tail);
        assert d[0].0 !in Keys(tail);
        DistinctCons(d[0], rest);
      } else {
        KeysCons((k, v), tail);
        assert Put(d, k, v) == [(k, v)] + tail;
        assert DistinctKeys(tail) && k !in Keys(tail);
        DistinctCons((k, v), tail);
      }
    }
  }

  /** The keys of a pair in front of a list: its key, then theirs. */
  lemma KeysCons<K, V>(x: (K, V), rest: Assoc<K, V>)
    ensures Keys([x] + rest) == [x.0] + Keys(rest)
  {
  }

  /** A pair in front of distinct keys that do not include its own keeps the keys distinct. */
  lemma DistinctCons<K, V>(x: (K, V), rest: Assoc<K, V>)
    requires DistinctKeys(rest) && x.0 !in Keys(rest)
    ensures DistinctKeys([x] + rest)
  {
    var p := [x] + rest;
    forall i, j | 0 <= i < j < |p|
      ensures p[i].0 != p[j].0
    {
      assert p[j] == rest[j - 1];
      if i == 0 {
        assert p[j].0 == Keys(rest)[j - 1];
      } else {
        assert p[i] == rest[i - 1];
      }
    }
  }

  /** d.update(other): other's pairs written in order, each as d[k] = v. */
  function Update<V>(d: Dict<V>, other: Dict<V>): Dict<V>
  {
    if other == [] then d
    else Put(Update(d, other[..|other| - 1]), other[|other| - 1].0, other[|other| - 1].1)
  }

  /** After an update a key reads as in `other` when `other` has it, and as before otherwise. */
  lemma {:induction false} UpdateGet<V>(d: Dict<V>, other: Dict<V>, k: string)
    requires DistinctKeys(other)
    ensures Get(Update(d, other), k) == if Get(other, k).Some? then Get(other, k) else Get(d, k)
  {
    if other != [] {
      var init := other[..|other| - 1];
      var last := other[|other| - 1];
      assert DistinctKeys(init);
      UpdateGet(d, init, k);
      PutGet(Update(d, init), last.0, last.1, k);
      assert other == init + [last];
      assert forall i :: 0 <= i < |init| ==> init[i] == other[i];
      GetSnocDistinct(init, last, k);
      GetSpec(init, k);
    }
  }

  /** Appending a pair with a new key: only that key's reading changes. */
  lemma {:induction false} GetSnocDistinct<V>(d: Dict<V>, kv: (string, V), k: string)
    requires forall i :: 0 <= i < |d| ==> d[i].0 != kv.0
    ensures Get(d + [kv], k) == if Get(d, k).Some? then Get(d, k) else if k == kv.0 then Some(kv.1) else None
  {
    if d != [] {
      assert (d + [kv])[1..] == d[1..] + [kv];
      GetSnocDistinct(d[1..], kv, k);
    }
  }

  /** Updating keeps the key order of d and appends other's new keys; keys stay distinct. */
  lemma {:induction false} UpdateDistinct<V>(d: Dict<V>, other: Dict<V>)
    requires DistinctKeys(d)
    ensures DistinctKeys(Update(d, other))
  {
    if other != [] {
      UpdateDistinct(d, other[..|other| - 1]);
      PutKeys(Update(d, other[..|other| - 1]), other[|other| - 1].0, other[|other| - 1].1);
    }
  }

  // ------------------------------------------------------------ counting

  /** counts[k] = counts.get(k, 0) + 1 for each key in turn. */
  function Histogram<K(==)>(kinds: seq<K>): Assoc<K, int>
  {
    if kinds == [] then []
    else
      var h := Histogram(kinds[..|kinds| - 1]);
      var k := kinds[|kinds| - 1];
      Put(h, k, GetOr(h, k, 0) + 1)
  }

  function Occurrences<K(==)>(kinds: seq<K>, k: K): nat
  {
    if kinds == [] then 0
    else Occurrences(kinds[..|kinds| - 1], k) + (if kinds[|kinds| - 1] == k then 1 else 0)
  }

  function TotalCount<K>(h: Assoc<K, int>): int
  {
    if h == [] then 0 else h[0].1 + TotalCount(h[1..])
  }

  /** Counting one more kind increments its entry. */
  lemma HistogramSnoc<K>(kinds: seq<K>, k: K)
    ensures Histogram(kinds + [k]) == Put(Histogram(kinds), k, GetOr(Histogram(kinds), k, 0) + 1)
  {
    assert (kinds + [k])[..|kinds|] == kinds;
  }

  /** Each key is counted once per occurrence, and only keys that occur appear. */
  lemma {:induction false} HistogramCounts<K>(kinds: seq<K>, k: K)
    ensures GetOr(Histogram(kinds), k, 0) == Occurrences(kinds, k)
    ensures Get(Histogram(kinds), k).Some? <==> k in kinds
  {
    if kinds != [] {
      var init := kinds[..|kinds| - 1];
      var last := kinds[|kinds| - 1];
      HistogramCounts(init, k);
      PutGet(Histogram(init), last, GetOr(Histogram(init), last, 0) + 1, k);
      assert kinds == init + [last];
    }
  }

  /** The counts add up to the number of keys counted. */
  lemma {:induction false} HistogramTotal<K>(kinds: seq<K>)
    ensures DistinctKeys(Histogram(kinds))
    ensures TotalCount(Histogram(kinds)) == |kinds|
  {
    if kinds != [] {
      var init := kinds[..|kinds| - 1];
      var last := kinds[|kinds| - 1];
      HistogramTotal(init);
      PutKeys(Histogram(init), last, GetOr(Histogram(init), last, 0) + 1);
      IncrementTotal(Histogram(init), last);
    }
  }

  /** Adding one to a key's count (0 when absent) adds one to the total. */
  lemma {:induction false} IncrementTotal<K>(h: Assoc<K, int>, k: K)
    ensures TotalCount(Put(h, k, GetOr(h, k, 0) + 1)) == TotalCount(h) + 1
  {
    if h != [] && h[0].0 != k {
      IncrementTotal(h[1..], k);
    }
  }

}
