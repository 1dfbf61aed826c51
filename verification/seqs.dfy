/** Operations on ordered tables (sequences of rows): boolean-mask selection,
    `unique`, `sort_values`, `sum` and Python's prefix slice. */
module Seqs {
  import opened Orders

  /** No value occurs twice. */
  ghost predicate NoDup<T>(s: seq<T>) {
    forall i, j :: 0 <= i < j < |s| ==> s[i] != s[j]
  }

  /** `s` is in `le` order. */
  ghost predicate SortedBy<T>(s: seq<T>, le: (T, T) -> bool) {
    forall i, j :: 0 <= i < j < |s| ==> le(s[i], s[j])
  }

  /** `s` is in `le` order and holds no value twice. */
  ghost predicate StrictlySortedBy<T>(s: seq<T>, le: (T, T) -> bool) {
    forall i, j :: 0 <= i < j < |s| ==> le(s[i], s[j]) && s[i] != s[j]
  }

  // ---------------------------------------------------------------------
  // Selection by a boolean mask: `df[p(df)]`
  // ---------------------------------------------------------------------

  /** The rows of `s` that satisfy `p`, in their original order. */
  function Filter<T>(s: seq<T>, p: T -> bool): (r: seq<T>)
    ensures |r| <= |s|
    ensures forall x | x in r :: x in s && p(x)
    ensures forall x | x in s && p(x) :: x in r
  {
    if s == [] then []
    else (if p(s[0]) then [s[0]] else []) + Filter(s[1..], p)
  }

  lemma {:induction false} FilterConcat<T>(a: seq<T>, b: seq<T>, p: T -> bool)
    ensures Filter(a + b, p) == Filter(a, p) + Filter(b, p)
  {
    if a == [] {
      assert a + b == b;
    } else {
      assert (a + b)[1..] == a[1..] + b;
      FilterConcat(a[1..], b, p);
    }
  }

  /** A mask that holds on no row selects nothing. */
  lemma {:induction false} FilterNone<T>(s: seq<T>, p: T -> bool)
    requires forall x | x in s :: !p(x)
    ensures Filter(s, p) == []
  {
    if s != [] {
      FilterNone(s[1..], p);
    }
  }

  /** Two selections in a row are one selection by the conjunction: the
      result is the rows satisfying both, in the original order. */
  lemma {:induction false} FilterOfFilter<T>(s: seq<T>, p: T -> bool, q: T -> bool, pq: T -> bool)
    requires forall x :: pq(x) == (p(x) && q(x))
    ensures Filter(Filter(s, p), q) == Filter(s, pq)
  {
    if s != [] {
      var head := if p(s[0]) then [s[0]] else [];
      FilterConcat(head, Filter(s[1..], p), q);
      FilterOfFilter(s[1..], p, q, pq);
    }
  }

  /** A mask that holds on every row selects the whole table. */
  lemma {:induction false} FilterKeepsAll<T>(s: seq<T>, p: T -> bool)
    requires forall x :: x in s ==> p(x)
    ensures Filter(s, p) == s
  {
    if s != [] {
      FilterKeepsAll(s[1..], p);
    }
  }

  // ---------------------------------------------------------------------
  // Distinct values: `unique`, `nunique`
  // ---------------------------------------------------------------------

  /** The distinct values of `s`, each at its first occurrence. */
  function Distinct<T(==)>(s: seq<T>): (r: seq<T>)
    ensures |r| <= |s|
    ensures forall x | x in r :: x in s
    ensures forall x | x in s :: x in r
    ensures NoDup(r)
  {
    if s == [] then []
    else
      var init := s[..|s| - 1];
      assert s == init + [s[|s| - 1]];
      var rest := Distinct(init);
      if s[|s| - 1] in rest then rest else rest + [s[|s| - 1]]
  }

  /** A sequence without repetitions has as many elements as its set. */
  lemma {:induction false} NoDupCardinality<T>(s: seq<T>)
    requires NoDup(s)
    ensures |set x | x in s| == |s|
  {
    if s != [] {
      NoDupCardinality(s[1..]);
      assert (set x | x in s) == (set x | x in s[1..]) + {s[0]};
      assert s[0] !in s[1..];
    }
  }

  /** The number of distinct values is the size of the set of values. */
  lemma DistinctCardinality<T>(s: seq<T>)
    ensures |Distinct(s)| == |set x | x in s|
  {
    var r := Distinct(s);
    NoDupCardinality(r);
    assert (set x | x in r) == (set x | x in s);
  }

  lemma SubsetCardinality<T>(a: set<T>, b: set<T>)
    requires a <= b
    ensures |a| <= |b|
  {
    assert b == a + (b - a);
  }

  /** A sequence without repetitions whose values all lie in `vals` is no
      longer than `vals` is large. */
  lemma NoDupWithin<T>(s: seq<T>, vals: set<T>)
    requires NoDup(s)
    requires forall x | x in s :: x in vals
    ensures |s| <= |vals|
  {
    NoDupCardinality(s);
    SubsetCardinality((set x | x in s), vals);
  }

  // ---------------------------------------------------------------------
  // Sorted distinct values: `sorted(col.unique())`, the keys of `groupby`
  // ---------------------------------------------------------------------

  /** Adds `x` to the strictly sorted `s` unless it is already there. */
  function InsertUnique<T(==)>(x: T, s: seq<T>, le: (T, T) -> bool): (r: seq<T>)
    ensures |r| <= |s| + 1
    ensures x in r && forall y | y in s :: y in r
    ensures forall y | y in r :: y == x || y in s
    ensures NoDup(s) ==> NoDup(r)
  {
    if x in s then s
    else if s == [] then [x]
    else if le(x, s[0]) then [x] + s
    else
      var t := InsertUnique(x, s[1..], le);
      assert NoDup(s) ==> NoDup(s[1..]) && s[0] !in t;
      [s[0]] + t
  }

  /** The distinct values of `s` in `le` order. */
  function SortedUnique<T(==)>(s: seq<T>, le: (T, T) -> bool): (r: seq<T>)
    ensures |r| <= |s|
    ensures forall y | y in r :: y in s
    ensures forall y | y in s :: y in r
    ensures NoDup(r)
  {
    if s == [] then [] else InsertUnique(s[0], SortedUnique(s[1..], le), le)
  }

  lemma {:induction false} InsertUniqueStrict<T(!new)>(x: T, s: seq<T>, le: (T, T) -> bool)
    requires TotalOrder(le)
    requires StrictlySortedBy(s, le)
    ensures StrictlySortedBy(InsertUnique(x, s, le), le)
  {
    if x in s || s == [] {
    } else if le(x, s[0]) {
      var r := [x] + s;
      forall i, j | 0 <= i < j < |r| ensures le(r[i], r[j]) && r[i] != r[j] {
        if i == 0 {
          assert r[j] == s[j - 1];
          if j > 1 {
            assert le(s[0], s[j - 1]);
          }
        }
      }
    } else {
      assert le(s[0], x);
      var t := InsertUnique(x, s[1..], le);
      InsertUniqueStrict(x, s[1..], le);
      var r := [s[0]] + t;
      forall i, j | 0 <= i < j < |r| ensures le(r[i], r[j]) && r[i] != r[j] {
        if i == 0 {
          assert r[j] == t[j - 1];
          assert t[j - 1] in t;
          if t[j - 1] != x {
            assert t[j - 1] in s[1..];
            var k :| 0 <= k < |s[1..]| && s[1..][k] == t[j - 1];
            assert s[k + 1] == t[j - 1];
          }
        } else {
          assert r[i] == t[i - 1] && r[j] == t[j - 1];
        }
      }
    }
  }

  /** Under a total order, the distinct values come out strictly increasing. */
  lemma {:induction false} SortedUniqueStrict<T(!new)>(s: seq<T>, le: (T, T) -> bool)
    requires TotalOrder(le)
    ensures StrictlySortedBy(SortedUnique(s, le), le)
  {
    if s != [] {
      SortedUniqueStrict(s[1..], le);
      InsertUniqueStrict(s[0], SortedUnique(s[1..], le), le);
    }
  }

  /** `sorted(set_of_strings)` is strictly increasing. */
  lemma SortedUniqueStrings(s: seq<string>)
    ensures StrictlySortedBy(SortedUnique(s, StrLe), StrLe)
  {
    StrLeIsTotalOrder();
    SortedUniqueStrict(s, StrLe);
  }

  // ---------------------------------------------------------------------
  // Sorting rows by a key: `sort_values`
  // ---------------------------------------------------------------------

  /** Inserts `x` into `s` before the first row it is `le`-before. */
  function Insert<T>(x: T, s: seq<T>, le: (T, T) -> bool): (r: seq<T>)
    ensures multiset(r) == multiset(s) + multiset{x}
  {
    if s == [] then [x]
    else if le(x, s[0]) then [x] + s
    else
      assert s == [s[0]] + s[1..];
      [s[0]] + Insert(x, s[1..], le)
  }

  /** The rows of `s` rearranged into `le` order (insertion sort). */
  function SortBy<T>(s: seq<T>, le: (T, T) -> bool): (r: seq<T>)
    ensures multiset(r) == multiset(s)
  {
    if s == [] then []
    else
      assert s == [s[0]] + s[1..];
      Insert(s[0], SortBy(s[1..], le), le)
  }

  lemma {:induction false} InsertSorted<T(!new)>(x: T, s: seq<T>, le: (T, T) -> bool)
    requires TotalPreorder(le)
    requires SortedBy(s, le)
    ensures SortedBy(Insert(x, s, le), le)
  {
    if s == [] {
    } else if le(x, s[0]) {
      var r := [x] + s;
      forall i, j | 0 <= i < j < |r| ensures le(r[i], r[j]) {
        if i == 0 && j > 1 {
          assert le(s[0], s[j - 1]);
        }
      }
    } else {
      assert le(s[0], x);
      var t := Insert(x, s[1..], le);
      InsertSorted(x, s[1..], le);
      var r := [s[0]] + t;
      forall i, j | 0 <= i < j < |r| ensures le(r[i], r[j]) {
        if i == 0 {
          assert r[j] == t[j - 1];
          assert t[j - 1] in multiset(t);
          if t[j - 1] != x {
            assert t[j - 1] in multiset(s[1..]);
            assert t[j - 1] in s[1..];
            var k :| 0 <= k < |s[1..]| && s[1..][k] == t[j - 1];
            assert s[k + 1] == t[j - 1];
          }
        } else {
          assert r[i] == t[i - 1] && r[j] == t[j - 1];
        }
      }
    }
  }

  /** The sort puts the rows in `le` order. */
  lemma {:induction false} SortBySorted<T(!new)>(s: seq<T>, le: (T, T) -> bool)
    requires TotalPreorder(le)
    ensures SortedBy(SortBy(s, le), le)
  {
    if s != [] {
      SortBySorted(s[1..], le);
      InsertSorted(s[0], SortBy(s[1..], le), le);
    }
  }

  /** Sorting keeps exactly the values of the rows. */
  lemma SortByMembers<T>(s: seq<T>, le: (T, T) -> bool)
    ensures forall x :: x in SortBy(s, le) <==> x in s
  {
    var r := SortBy(s, le);
    forall x ensures x in r <==> x in s {
      assert x in r <==> x in multiset(r);
      assert x in s <==> x in multiset(s);
    }
  }

  /** The first `k` rows of a sorted table are sorted, and no row left out
      comes before one that is kept. */
  lemma SortedPrefix<T>(s: seq<T>, le: (T, T) -> bool, k: int)
    requires 0 <= k <= |s|
    requires SortedBy(s, le)
    ensures SortedBy(s[..k], le)
    ensures forall t, q | t in s && t !in s[..k] && q in s[..k] :: le(q, t)
  {
    assert forall m | 0 <= m < k :: s[m] in s[..k] by {
      forall m | 0 <= m < k ensures s[m] in s[..k] {
        assert s[..k][m] == s[m];
      }
    }
    forall t, q | t in s && t !in s[..k] && q in s[..k] ensures le(q, t) {
      var j :| 0 <= j < |s| && s[j] == t;
      var i :| 0 <= i < k && s[..k][i] == q;
      assert s[i] == q;
    }
  }

  // ---------------------------------------------------------------------
  // Sums: `col.sum()`
  // ---------------------------------------------------------------------

  /** The sum of `f` over the rows of `s`; 0 for no rows. */
  function SumBy<T>(s: seq<T>, f: T -> real): real {
    if s == [] then 0.0 else f(s[0]) + SumBy(s[1..], f)
  }

  /** Sums are additive over concatenation. */
  lemma {:induction false} SumByConcat<T>(a: seq<T>, b: seq<T>, f: T -> real)
    ensures SumBy(a + b, f) == SumBy(a, f) + SumBy(b, f)
  {
    if a == [] {
      assert a + b == b;
    } else {
      assert (a + b)[1..] == a[1..] + b;
      SumByConcat(a[1..], b, f);
    }
  }

  /** Sums are additive over any split of the rows by a mask `p` and its
      complement `q`. */
  lemma {:induction false} SumBySplit<T>(s: seq<T>, f: T -> real, p: T -> bool, q: T -> bool)
    requires forall x :: q(x) == !p(x)
    ensures SumBy(s, f) == SumBy(Filter(s, p), f) + SumBy(Filter(s, q), f)
  {
    if s != [] {
      SumBySplit(s[1..], f, p, q);
      var kept := if p(s[0]) then [s[0]] else [];
      var dropped := if p(s[0]) then [] else [s[0]];
      SumByConcat(kept, Filter(s[1..], p), f);
      SumByConcat(dropped, Filter(s[1..], q), f);
    }
  }

  // ---------------------------------------------------------------------
  // Python prefix slices: `s[:stop]`, `iloc[:stop]`, `head(stop)`
  // ---------------------------------------------------------------------

  function Min(a: int, b: int): int { if a <= b then a else b }
  function Max(a: int, b: int): int { if a >= b then a else b }

  /** A prefix holds each element at most as often as the whole. */
  lemma PrefixMultiset<T>(s: seq<T>, k: int)
    requires 0 <= k <= |s|
    ensures multiset(s[..k]) <= multiset(s)
  {
    assert s == s[..k] + s[k..];
  }

  /** Python's `s[:stop]`: a negative `stop` counts from the end. */
  function PyPrefix<T>(s: seq<T>, stop: int): (r: seq<T>)
    ensures |r| == if stop >= 0 then Min(stop, |s|) else Max(|s| + stop, 0)
    ensures r == s[..|r|]
  {
    if stop >= 0 then s[..Min(stop, |s|)] else s[..Max(|s| + stop, 0)]
  }
}
