/** pandas `groupby` over a table held as a sequence of rows: groups, the
    keys present, per-key sums (`groupby().sum()`) and per-key sizes
    (`groupby().size()`, `value_counts`). A row whose key is missing (NaN)
    belongs to no group, as with pandas' default `dropna=True`. */
module Grouping {
  import opened Wrappers
  import opened Orders
  import opened Seqs

  /** One group: the rows whose key is `Some(k)`, in table order. */
  function Group<T, K(==)>(s: seq<T>, key: T -> Option<K>, k: K): (r: seq<T>)
    ensures |r| <= |s|
    ensures forall x | x in r :: x in s && key(x) == Some(k)
    ensures forall x | x in s && key(x) == Some(k) :: x in r
  {
    if s == [] then []
    else (if key(s[0]) == Some(k) then [s[0]] else []) + Group(s[1..], key, k)
  }

  /** The rows that have a key, in table order. */
  function Keyed<T, K>(s: seq<T>, key: T -> Option<K>): (r: seq<T>)
    ensures |r| <= |s|
    ensures forall x | x in r :: x in s && key(x).Some?
    ensures forall x | x in s && key(x).Some? :: x in r
  {
    if s == [] then []
    else (if key(s[0]).Some? then [s[0]] else []) + Keyed(s[1..], key)
  }

  /** The key of every keyed row, in table order, repetitions kept. */
  function KeysOf<T, K>(s: seq<T>, key: T -> Option<K>): (r: seq<K>)
    ensures |r| <= |s|
    ensures forall k | k in r :: exists x :: x in s && key(x) == Some(k)
    ensures forall x | x in s && key(x).Some? :: key(x).value in r
  {
    if s == [] then []
    else (if key(s[0]).Some? then [key(s[0]).value] else []) + KeysOf(s[1..], key)
  }

  /** When every row has a key, the keyed rows are the whole table. */
  lemma {:induction false} KeyedAll<T, K>(s: seq<T>, key: T -> Option<K>)
    requires forall x | x in s :: key(x).Some?
    ensures Keyed(s, key) == s
  {
    if s != [] {
      KeyedAll(s[1..], key);
    }
  }

  /** A group's key and the sum of a column over its rows. */
  datatype Bucket<K> = Bucket(key: K, total: real)

  /** A group's key and its number of rows. */
  datatype Tally<K> = Tally(key: K, count: nat)

  /** `groupby(key)[f].sum()` for the keys `keys`, one bucket per key, in the order of `keys`. */
  function Totals<T, K(==)>(keys: seq<K>, s: seq<T>, key: T -> Option<K>, f: T -> real): (r: seq<Bucket<K>>)
    ensures |r| == |keys|
    ensures forall i :: 0 <= i < |r| ==> r[i] == Bucket(keys[i], SumBy(Group(s, key, keys[i]), f))
  {
    if keys == [] then []
    else [Bucket(keys[0], SumBy(Group(s, key, keys[0]), f))] + Totals(keys[1..], s, key, f)
  }

  /** `groupby(key).size()` for the keys `keys`, one tally per key, in the order of `keys`. */
  function Counts<T, K(==)>(keys: seq<K>, s: seq<T>, key: T -> Option<K>): (r: seq<Tally<K>>)
    ensures |r| == |keys|
    ensures forall i :: 0 <= i < |r| ==> r[i] == Tally(keys[i], |Group(s, key, keys[i])|)
  {
    if keys == [] then []
    else [Tally(keys[0], |Group(s, key, keys[0])|)] + Counts(keys[1..], s, key)
  }

  /** The keys of the buckets, in order. */
  function BucketKeys<K>(r: seq<Bucket<K>>): (ks: seq<K>)
    ensures |ks| == |r|
    ensures forall i | 0 <= i < |r| :: ks[i] == r[i].key
  {
    if r == [] then [] else [r[0].key] + BucketKeys(r[1..])
  }

  /** The keys of the tallies, in order. */
  function TallyKeys<K>(r: seq<Tally<K>>): (ks: seq<K>)
    ensures |ks| == |r|
    ensures forall i | 0 <= i < |r| :: ks[i] == r[i].key
  {
    if r == [] then [] else [r[0].key] + TallyKeys(r[1..])
  }

  function BucketSum<K>(r: seq<Bucket<K>>): real {
    if r == [] then 0.0 else r[0].total + BucketSum(r[1..])
  }

  function TallySum<K>(r: seq<Tally<K>>): nat {
    if r == [] then 0 else r[0].count + TallySum(r[1..])
  }

  lemma {:induction false} BucketSumConcat<K>(a: seq<Bucket<K>>, b: seq<Bucket<K>>)
    ensures BucketSum(a + b) == BucketSum(a) + BucketSum(b)
  {
    if a == [] {
      assert a + b == b;
    } else {
      assert (a + b)[1..] == a[1..] + b;
      BucketSumConcat(a[1..], b);
    }
  }

  /** Splitting off the first row: its value lands in the bucket of its key, if that key is listed. */
  lemma {:induction false} TotalsFirstRow<T, K>(keys: seq<K>, s: seq<T>, key: T -> Option<K>, f: T -> real)
    requires NoDup(keys)
    requires s != []
    ensures BucketSum(Totals(keys, s, key, f))
         == (if key(s[0]).Some? && key(s[0]).value in keys then f(s[0]) else 0.0)
            + BucketSum(Totals(keys, s[1..], key, f))
  {
    if keys != [] {
      var head := if key(s[0]) == Some(keys[0]) then [s[0]] else [];
      SumByConcat(head, Group(s[1..], key, keys[0]), f);
      assert NoDup(keys[1..]);
      TotalsFirstRow(keys[1..], s, key, f);
      assert key(s[0]) == Some(keys[0]) ==> keys[0] !in keys[1..];
    }
  }

  lemma {:induction false} TotalsNoRows<T, K>(keys: seq<K>, key: T -> Option<K>, f: T -> real)
    ensures BucketSum(Totals(keys, [], key, f)) == 0.0
  {
    if keys != [] {
      TotalsNoRows(keys[1..], key, f);
    }
  }

  /** The group sums add up to the sum over all keyed rows when the keys are
      distinct and cover every key present. */
  lemma {:induction false} TotalsCoverAll<T, K>(keys: seq<K>, s: seq<T>, key: T -> Option<K>, f: T -> real)
    requires NoDup(keys)
    requires forall x | x in s && key(x).Some? :: key(x).value in keys
    ensures BucketSum(Totals(keys, s, key, f)) == SumBy(Keyed(s, key), f)
  {
    if s == [] {
      TotalsNoRows(keys, key, f);
    } else {
      TotalsFirstRow(keys, s, key, f);
      TotalsCoverAll(keys, s[1..], key, f);
      var head := if key(s[0]).Some? then [s[0]] else [];
      SumByConcat(head, Keyed(s[1..], key), f);
    }
  }

  lemma {:induction false} CountsFirstRow<T, K>(keys: seq<K>, s: seq<T>, key: T -> Option<K>)
    requires NoDup(keys)
    requires s != []
    ensures TallySum(Counts(keys, s, key))
         == (if key(s[0]).Some? && key(s[0]).value in keys then 1 else 0)
            + TallySum(Counts(keys, s[1..], key))
  {
    if keys != [] {
      assert NoDup(keys[1..]);
      CountsFirstRow(keys[1..], s, key);
      assert key(s[0]) == Some(keys[0]) ==> keys[0] !in keys[1..];
    }
  }

  lemma {:induction false} CountsNoRows<T, K>(keys: seq<K>, key: T -> Option<K>)
    ensures TallySum(Counts(keys, [], key)) == 0
  {
    if keys != [] {
      CountsNoRows(keys[1..], key);
    }
  }

  /** The group sizes add up to the number of keyed rows when the keys are
      distinct and cover every key present. */
  lemma {:induction false} CountsCoverAll<T, K>(keys: seq<K>, s: seq<T>, key: T -> Option<K>)
    requires NoDup(keys)
    requires forall x | x in s && key(x).Some? :: key(x).value in keys
    ensures TallySum(Counts(keys, s, key)) == |Keyed(s, key)|
  {
    if s == [] {
      CountsNoRows(keys, key);
    } else {
      CountsFirstRow(keys, s, key);
      CountsCoverAll(keys, s[1..], key);
    }
  }

  /** The group of a key that occurs in the table is not empty. */
  lemma GroupOfPresentKey<T, K>(s: seq<T>, key: T -> Option<K>, k: K)
    requires k in KeysOf(s, key)
    ensures |Group(s, key, k)| >= 1
  {
    var x :| x in s && key(x) == Some(k);
    assert x in Group(s, key, k);
  }

  // ---------------------------------------------------------------------
  // `groupby` with its default `sort=True`: the keys present, in order
  // ---------------------------------------------------------------------

  /** Each listed key gets its group's sum; every key present is listed. */
  lemma TotalsOfKeys<T, K>(keys: seq<K>, s: seq<T>, key: T -> Option<K>, f: T -> real)
    requires NoDup(keys)
    requires forall x | x in s && key(x).Some? :: key(x).value in keys
    ensures var r := Totals(keys, s, key, f);
      && (forall x | x in s && key(x).Some? :: exists i :: 0 <= i < |r| && r[i].key == key(x).value)
      && BucketSum(r) == SumBy(Keyed(s, key), f)
  {
    var r := Totals(keys, s, key, f);
    forall x | x in s && key(x).Some?
      ensures exists i :: 0 <= i < |r| && r[i].key == key(x).value
    {
      var i :| 0 <= i < |keys| && keys[i] == key(x).value;
      assert r[i].key == keys[i];
    }
    TotalsCoverAll(keys, s, key, f);
  }

  lemma TotalsOfPresentKeys<T, K>(keys: seq<K>, s: seq<T>, key: T -> Option<K>, f: T -> real)
    requires NoDup(keys)
    requires forall k | k in keys :: k in KeysOf(s, key)
    ensures var r := Totals(keys, s, key, f);
      && (forall i | 0 <= i < |r| :: |Group(s, key, r[i].key)| >= 1)
      && (forall i, j | 0 <= i < j < |r| :: r[i].key != r[j].key)
  {
    var r := Totals(keys, s, key, f);
    forall i | 0 <= i < |r| ensures r[i].key == keys[i] && |Group(s, key, r[i].key)| >= 1 {
      GroupOfPresentKey(s, key, keys[i]);
    }
  }

  /** `groupby(key)[f].sum()` with its default sorted keys: one bucket per
      key present, each summing `f` over its group (which is not empty), all
      of them adding up to the sum over the keyed rows. */
  function SortedTotals<T, K(==)>(s: seq<T>, key: T -> Option<K>, le: (K, K) -> bool, f: T -> real): (r: seq<Bucket<K>>)
    ensures forall i | 0 <= i < |r| ::
      r[i].total == SumBy(Group(s, key, r[i].key), f) && |Group(s, key, r[i].key)| >= 1
    ensures forall x | x in s && key(x).Some? :: exists i :: 0 <= i < |r| && r[i].key == key(x).value
    ensures forall i, j | 0 <= i < j < |r| :: r[i].key != r[j].key
    ensures BucketSum(r) == SumBy(Keyed(s, key), f)
  {
    var keys := SortedUnique(KeysOf(s, key), le);
    TotalsOfKeys(keys, s, key, f);
    TotalsOfPresentKeys(keys, s, key, f);
    Totals(keys, s, key, f)
  }

  /** Under a total order on keys, the buckets come in strictly increasing key order. */
  lemma SortedTotalsOrdered<T, K(!new)>(s: seq<T>, key: T -> Option<K>, le: (K, K) -> bool, f: T -> real)
    requires TotalOrder(le)
    ensures var r := SortedTotals(s, key, le, f);
      forall i, j | 0 <= i < j < |r| :: le(r[i].key, r[j].key)
  {
    SortedUniqueStrict(KeysOf(s, key), le);
    TotalsInKeyOrder(SortedUnique(KeysOf(s, key), le), s, key, le, f);
  }

  lemma TotalsInKeyOrder<T, K>(keys: seq<K>, s: seq<T>, key: T -> Option<K>, le: (K, K) -> bool, f: T -> real)
    requires StrictlySortedBy(keys, le)
    ensures var r := Totals(keys, s, key, f);
      forall i, j | 0 <= i < j < |r| :: le(r[i].key, r[j].key)
  {
    var r := Totals(keys, s, key, f);
    assert forall i | 0 <= i < |r| :: r[i].key == keys[i];
  }

  /** Each listed key gets its group's size; every key present is listed. */
  lemma CountsOfKeys<T, K>(keys: seq<K>, s: seq<T>, key: T -> Option<K>)
    requires NoDup(keys)
    requires forall x | x in s && key(x).Some? :: key(x).value in keys
    ensures var r := Counts(keys, s, key);
      && (forall x | x in s && key(x).Some? :: exists i :: 0 <= i < |r| && r[i].key == key(x).value)
      && TallySum(r) == |Keyed(s, key)|
  {
    var r := Counts(keys, s, key);
    forall x | x in s && key(x).Some?
      ensures exists i :: 0 <= i < |r| && r[i].key == key(x).value
    {
      var i :| 0 <= i < |keys| && keys[i] == key(x).value;
      assert r[i].key == keys[i];
    }
    CountsCoverAll(keys, s, key);
  }

  lemma CountsOfPresentKeys<T, K>(keys: seq<K>, s: seq<T>, key: T -> Option<K>)
    requires NoDup(keys)
    requires forall k | k in keys :: k in KeysOf(s, key)
    ensures var r := Counts(keys, s, key);
      && (forall i | 0 <= i < |r| :: r[i].count >= 1)
      && (forall i, j | 0 <= i < j < |r| :: r[i].key != r[j].key)
  {
    var r := Counts(keys, s, key);
    forall i | 0 <= i < |r| ensures r[i].key == keys[i] && r[i].count >= 1 {
      GroupOfPresentKey(s, key, keys[i]);
    }
  }

  /** `groupby(key).size()` with its default sorted keys: one tally per key
      present, each counting its group (so at least one), all of them adding
      up to the number of keyed rows. */
  function SortedCounts<T, K(==)>(s: seq<T>, key: T -> Option<K>, le: (K, K) -> bool): (r: seq<Tally<K>>)
    ensures forall i | 0 <= i < |r| :: r[i].count == |Group(s, key, r[i].key)| && r[i].count >= 1
    ensures forall x | x in s && key(x).Some? :: exists i :: 0 <= i < |r| && r[i].key == key(x).value
    ensures forall i, j | 0 <= i < j < |r| :: r[i].key != r[j].key
    ensures TallySum(r) == |Keyed(s, key)|
  {
    var keys := SortedUnique(KeysOf(s, key), le);
    CountsOfKeys(keys, s, key);
    CountsOfPresentKeys(keys, s, key);
    Counts(keys, s, key)
  }

  /** Under a total order on keys, the tallies come in strictly increasing key order. */
  lemma SortedCountsOrdered<T, K(!new)>(s: seq<T>, key: T -> Option<K>, le: (K, K) -> bool)
    requires TotalOrder(le)
    ensures var r := SortedCounts(s, key, le);
      forall i, j | 0 <= i < j < |r| :: le(r[i].key, r[j].key)
  {
    SortedUniqueStrict(KeysOf(s, key), le);
    CountsInKeyOrder(SortedUnique(KeysOf(s, key), le), s, key, le);
  }

  lemma CountsInKeyOrder<T, K>(keys: seq<K>, s: seq<T>, key: T -> Option<K>, le: (K, K) -> bool)
    requires StrictlySortedBy(keys, le)
    ensures var r := Counts(keys, s, key);
      forall i, j | 0 <= i < j < |r| :: le(r[i].key, r[j].key)
  {
    var r := Counts(keys, s, key);
    assert forall i | 0 <= i < |r| :: r[i].key == keys[i];
  }

  /** The key of any keyed row is among the keys of the tallies. */
  lemma CountsCoverKey<T, K>(s: seq<T>, key: T -> Option<K>, le: (K, K) -> bool, x: T)
    requires x in s && key(x).Some?
    ensures key(x).value in TallyKeys(SortedCounts(s, key, le))
  {
    var r := SortedCounts(s, key, le);
    var i :| 0 <= i < |r| && r[i].key == key(x).value;
    assert TallyKeys(r)[i] == key(x).value;
  }

  /** The key of any keyed row is among the keys of the buckets. */
  lemma TotalsCoverKey<T, K>(s: seq<T>, key: T -> Option<K>, le: (K, K) -> bool, f: T -> real, x: T)
    requires x in s && key(x).Some?
    ensures key(x).value in BucketKeys(SortedTotals(s, key, le, f))
  {
    var r := SortedTotals(s, key, le, f);
    var i :| 0 <= i < |r| && r[i].key == key(x).value;
    assert BucketKeys(r)[i] == key(x).value;
  }
}
