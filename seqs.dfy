/** The array operations the components build on: `filter`, `map`, `reduce` sums,
    `slice`, de-duplication through a `Set`, and the stable `sort` of ES2019. */
module Seqs {
  import Wrappers

  /** `s.filter(p)`: the elements of `s` that satisfy `p`, in their original order. */
  function Filter<T(!new)>(s: seq<T>, p: T -> bool): (r: seq<T>)
    ensures |r| <= |s|
    ensures forall x :: x in r <==> x in s && p(x)
  {
    if |s| == 0 then []
    else
      var init := Filter(s[..|s| - 1], p);
      assert s == s[..|s| - 1] + [s[|s| - 1]];
      if p(s[|s| - 1]) then init + [s[|s| - 1]] else init
  }

  /** Filtering distributes over concatenation: survivors keep their relative order. */
  lemma {:induction false} FilterConcat<T(!new)>(a: seq<T>, b: seq<T>, p: T -> bool)
    ensures Filter(a + b, p) == Filter(a, p) + Filter(b, p)
    decreases |b|
  {
    if |b| == 0 {
      assert a + b == a;
    } else {
      assert (a + b)[..|a + b| - 1] == a + b[..|b| - 1];
      FilterConcat(a, b[..|b| - 1], p);
    }
  }

  /** A filter that every element passes changes nothing. */
  lemma {:induction false} FilterAll<T(!new)>(s: seq<T>, p: T -> bool)
    requires forall x :: x in s ==> p(x)
    ensures Filter(s, p) == s
  {
    if |s| > 0 {
      FilterAll(s[..|s| - 1], p);
      assert s == s[..|s| - 1] + [s[|s| - 1]];
    }
  }

  /** `s.map(f)`. */
  function Map<T, U>(s: seq<T>, f: T -> U): (r: seq<U>)
    ensures |r| == |s|
    ensures forall i :: 0 <= i < |s| ==> r[i] == f(s[i])
  {
    seq(|s|, i requires 0 <= i < |s| => f(s[i]))
  }

  /** `s.reduce((sum, x) => sum + f(x), 0)`. */
  function SumBy<T>(s: seq<T>, f: T -> int): int
  {
    if |s| == 0 then 0 else SumBy(s[..|s| - 1], f) + f(s[|s| - 1])
  }

  lemma {:induction false} SumByConcat<T>(a: seq<T>, b: seq<T>, f: T -> int)
    ensures SumBy(a + b, f) == SumBy(a, f) + SumBy(b, f)
    decreases |b|
  {
    if |b| == 0 {
      assert a + b == a;
    } else {
      assert (a + b)[..|a + b| - 1] == a + b[..|b| - 1];
      SumByConcat(a, b[..|b| - 1], f);
    }
  }

  /** A sum of differences is the difference of the sums. */
  lemma {:induction false} SumByDifference<T>(s: seq<T>, f: T -> int, g: T -> int, h: T -> int)
    requires forall x :: h(x) == f(x) - g(x)
    ensures SumBy(s, h) == SumBy(s, f) - SumBy(s, g)
  {
    if |s| > 0 {
      SumByDifference(s[..|s| - 1], f, g, h);
    }
  }

  /** Summing over the survivors of a filter is summing with the filter as an indicator. */
  lemma {:induction false} SumByFilter<T(!new)>(s: seq<T>, p: T -> bool, f: T -> int, g: T -> int)
    requires forall x :: g(x) == (if p(x) then f(x) else 0)
    ensures SumBy(Filter(s, p), f) == SumBy(s, g)
  {
    if |s| > 0 {
      SumByFilter(s[..|s| - 1], p, f, g);
      var init := Filter(s[..|s| - 1], p);
      if p(s[|s| - 1]) {
        assert (init + [s[|s| - 1]])[..|init|] == init;
      }
    }
  }

  /** `s.findIndex(p)`: the index of the first element that satisfies `p`, or -1. */
  function FindIndex<T>(s: seq<T>, p: T -> bool): (r: int)
    ensures -1 <= r < |s|
    ensures r == -1 <==> forall i :: 0 <= i < |s| ==> !p(s[i])
    ensures r >= 0 ==> p(s[r]) && forall j :: 0 <= j < r ==> !p(s[j])
  {
    if |s| == 0 then -1
    else if p(s[0]) then 0
    else
      var r := FindIndex(s[1..], p);
      assert forall j :: 1 <= j < |s| ==> s[j] == s[1..][j - 1];
      if r == -1 then -1 else r + 1
  }

  /** `s.find(p)`: the first element that satisfies `p`, if any. */
  function FindFirst<T>(s: seq<T>, p: T -> bool): (r: Wrappers.Option<T>)
    ensures r.None? <==> forall i :: 0 <= i < |s| ==> !p(s[i])
    ensures r.Some? ==> r.value == s[FindIndex(s, p)] && p(r.value)
  {
    var i := FindIndex(s, p);
    if i == -1 then Wrappers.None else Wrappers.Some(s[i])
  }

  predicate NoDuplicates<T(==)>(s: seq<T>)
  {
    forall i, j :: 0 <= i < j < |s| ==> s[i] != s[j]
  }

  /** Filtering a list without repeats leaves a list without repeats. */
  lemma {:induction false} FilterNoDuplicates<T(!new)>(s: seq<T>, p: T -> bool)
    requires NoDuplicates(s)
    ensures NoDuplicates(Filter(s, p))
  {
    if |s| > 0 {
      var init, last := s[..|s| - 1], s[|s| - 1];
      assert NoDuplicates(init) by {
        forall i, j | 0 <= i < j < |init| ensures init[i] != init[j] {
          assert init[i] == s[i] && init[j] == s[j];
        }
      }
      FilterNoDuplicates(init, p);
      forall k | 0 <= k < |init| ensures init[k] != last {
        assert init[k] == s[k];
      }
    }
  }

  /** `Array.from(new Set(s))`: the distinct elements of `s`, each at its first occurrence. */
  function Distinct<T(==,!new)>(s: seq<T>): (r: seq<T>)
    ensures forall x :: x in r <==> x in s
    ensures NoDuplicates(r)
    ensures |r| <= |s|
  {
    if |s| == 0 then []
    else
      var init := Distinct(s[..|s| - 1]);
      assert s == s[..|s| - 1] + [s[|s| - 1]];
      if s[|s| - 1] in init then init else init + [s[|s| - 1]]
  }

  /** `s.indexOf(x)` for an element that occurs: the position of its first occurrence. */
  function IndexOf<T(==)>(s: seq<T>, x: T): (i: nat)
    requires x in s
    ensures i < |s| && s[i] == x
    ensures forall j :: 0 <= j < i ==> s[j] != x
  {
    if s[0] == x then 0
    else
      assert x in s[1..];
      var i := IndexOf(s[1..], x);
      assert forall j :: 1 <= j <= i ==> s[j] == s[1..][j - 1];
      i + 1
  }

  /** Appending to a list does not move the first occurrence of an element already in it. */
  lemma IndexOfAppend<T>(t: seq<T>, u: seq<T>, x: T)
    requires x in t
    ensures x in t + u && IndexOf(t + u, x) == IndexOf(t, x)
  {
    var i, j := IndexOf(t, x), IndexOf(t + u, x);
    assert (t + u)[i] == x;
    assert j <= i;
    assert t[j] == (t + u)[j];
  }

  /** The elements of `r` come in the order of their first occurrences in `s`. */
  predicate InFirstOccurrenceOrder<T(==)>(r: seq<T>, s: seq<T>)
  {
    forall i, k :: 0 <= i < k < |r| ==> r[i] in s && r[k] in s && IndexOf(s, r[i]) < IndexOf(s, r[k])
  }

  /** `new Set(s)` lists each element at its first occurrence. */
  lemma {:induction false} DistinctOrder<T(!new)>(s: seq<T>)
    ensures InFirstOccurrenceOrder(Distinct(s), s)
  {
    if |s| > 0 {
      var init, last := s[..|s| - 1], s[|s| - 1];
      assert s == init + [last];
      DistinctOrder(init);
      var d, r := Distinct(init), Distinct(s);
      forall x | x in init ensures IndexOf(s, x) == IndexOf(init, x) {
        IndexOfAppend(init, [last], x);
      }
      forall i, k | 0 <= i < k < |r|
        ensures r[i] in s && r[k] in s && IndexOf(s, r[i]) < IndexOf(s, r[k])
      {
        if k < |d| {
          assert r[i] == d[i] && r[k] == d[k];
        } else {
          assert last !in init && r[k] == last && r[i] == d[i];
          assert IndexOf(s, last) == |init| by {
            forall j | 0 <= j < |init| ensures s[j] != last {
              assert s[j] == init[j];
            }
          }
        }
      }
    }
  }

  /** Filtering keeps the order of first occurrences of the elements it keeps. */
  lemma {:induction false} FilterOrder<T(!new)>(s: seq<T>, p: T -> bool, x: T, y: T)
    requires x in Filter(s, p) && y in Filter(s, p)
    requires IndexOf(s, x) < IndexOf(s, y)
    ensures IndexOf(Filter(s, p), x) < IndexOf(Filter(s, p), y)
  {
    var init, last := s[..|s| - 1], s[|s| - 1];
    assert s == init + [last];
    var f, fi := Filter(s, p), Filter(init, p);
    if y in init {
      assert x in init by {
        assert s[IndexOf(s, x)] == x;
        IndexOfAppend(init, [last], y);
        assert IndexOf(s, x) < |init|;
        assert init[IndexOf(s, x)] == x;
      }
      IndexOfAppend(init, [last], x);
      IndexOfAppend(init, [last], y);
      FilterOrder(init, p, x, y);
      if p(last) {
        IndexOfAppend(fi, [last], x);
        IndexOfAppend(fi, [last], y);
      }
    } else {
      assert y == last && p(last) && f == fi + [last];
      assert x != y;
      assert x in fi;
      IndexOfAppend(fi, [last], x);
      assert IndexOf(f, y) == |fi| by {
        forall j | 0 <= j < |fi| ensures f[j] != y {
          assert f[j] == fi[j];
        }
      }
    }
  }

  /** The distinct elements that pass a filter come in the order of their first
      occurrences in the unfiltered list. */
  lemma DistinctFilterOrder<T(!new)>(s: seq<T>, p: T -> bool)
    ensures InFirstOccurrenceOrder(Distinct(Filter(s, p)), s)
  {
    var f := Filter(s, p);
    var r := Distinct(f);
    DistinctOrder(f);
    forall i, k | 0 <= i < k < |r|
      ensures r[i] in s && r[k] in s && IndexOf(s, r[i]) < IndexOf(s, r[k])
    {
      PairOrder(s, p, r[i], r[k]);
    }
  }

  /** One pair of the lemma above: two different kept elements keep their order. */
  lemma PairOrder<T(!new)>(s: seq<T>, p: T -> bool, x: T, y: T)
    requires x in Filter(s, p) && y in Filter(s, p) && x != y
    requires IndexOf(Filter(s, p), x) < IndexOf(Filter(s, p), y)
    ensures x in s && y in s && IndexOf(s, x) < IndexOf(s, y)
  {
    if IndexOf(s, y) < IndexOf(s, x) {
      FilterOrder(s, p, y, x);
    }
  }

  /** `s.slice(0, n)` for `n >= 0`. */
  function Take<T>(s: seq<T>, n: nat): (r: seq<T>)
    ensures |r| == if n < |s| then n else |s|
    ensures r == s[..|r|]
  {
    if n < |s| then s[..n] else s
  }

  /** A prefix keeps only elements of the whole, and the order of a descending whole. */
  lemma TakeSubset<T>(s: seq<T>, n: nat, key: T -> int)
    ensures forall i :: 0 <= i < |Take(s, n)| ==> Take(s, n)[i] in s
    ensures SortedDesc(s, key) ==> SortedDesc(Take(s, n), key)
  {
  }

  /** Cutting a descending list after `n` elements drops only elements whose keys are at
      most every key kept. */
  lemma TakeSortedDropped<T>(s: seq<T>, n: nat, key: T -> int)
    requires SortedDesc(s, key)
    ensures multiset(Take(s, n)) <= multiset(s)
    ensures forall y :: y in multiset(s) - multiset(Take(s, n)) ==> forall x :: x in Take(s, n) ==> key(y) <= key(x)
  {
    var t := Take(s, n);
    var rest := s[|t|..];
    assert s == t + rest;
    assert multiset(s) == multiset(t) + multiset(rest);
    forall y, x | y in multiset(s) - multiset(t) && x in t
      ensures key(y) <= key(x)
    {
      assert y in rest;
      var a :| 0 <= a < |rest| && rest[a] == y;
      var b :| 0 <= b < |t| && t[b] == x;
      assert s[|t| + a] == y && s[b] == x;
    }
  }

  /** How `slice` reads an index: negative counts from the end, then clamped to `0..len`. */
  function ClampIndex(i: int, len: nat): (r: nat)
    ensures r <= len
    ensures 0 <= i <= len ==> r == i
  {
    if i < 0 then (if len + i < 0 then 0 else len + i)
    else if i > len then len
    else i
  }

  /** `s.slice(start, end)`. */
  function Slice<T>(s: seq<T>, start: int, end: int): (r: seq<T>)
    ensures |r| <= |s|
    ensures 0 <= start <= end <= |s| ==> r == s[start..end]
    ensures forall x :: x in r ==> x in s
  {
    var lo := ClampIndex(start, |s|);
    var hi := ClampIndex(end, |s|);
    if lo < hi then
      assert forall k :: 0 <= k < hi - lo ==> s[lo..hi][k] == s[lo + k];
      s[lo..hi]
    else []
  }

  predicate SortedDesc<T>(s: seq<T>, key: T -> int)
  {
    forall i, j :: 0 <= i < j < |s| ==> key(s[i]) >= key(s[j])
  }

  /** Inserts `x` into a descending sequence after every element whose key is at least
      `key(x)`, so that equal keys keep their arrival order. */
  function Insert<T(!new)>(x: T, s: seq<T>, key: T -> int): (r: seq<T>)
    ensures multiset(r) == multiset(s) + multiset{x}
  {
    if |s| == 0 then [x]
    else if key(s[0]) < key(x) then [x] + s
    else
      var rest := Insert(x, s[1..], key);
      assert s == [s[0]] + s[1..];
      [s[0]] + rest
  }

  lemma ConsSorted<T>(a: T, t: seq<T>, key: T -> int)
    requires SortedDesc(t, key)
    requires forall i :: 0 <= i < |t| ==> key(t[i]) <= key(a)
    ensures SortedDesc([a] + t, key)
  {
    var r := [a] + t;
    forall i, j | 0 <= i < j < |r|
      ensures key(r[i]) >= key(r[j])
    {
      assert r[j] == t[j - 1];
      if i > 0 { assert r[i] == t[i - 1]; }
    }
  }

  lemma {:induction false} InsertSorted<T(!new)>(x: T, s: seq<T>, key: T -> int)
    requires SortedDesc(s, key)
    ensures SortedDesc(Insert(x, s, key), key)
  {
    if |s| == 0 {
    } else if key(s[0]) < key(x) {
      ConsSorted(x, s, key);
    } else {
      var rest := Insert(x, s[1..], key);
      InsertSorted(x, s[1..], key);
      forall i | 0 <= i < |rest|
        ensures key(rest[i]) <= key(s[0])
      {
        var y := rest[i];
        assert y in multiset(rest);
        if y != x {
          assert y in multiset(s[1..]);
          var k :| 0 <= k < |s[1..]| && s[1..][k] == y;
          assert s[k + 1] == y;
        }
      }
      ConsSorted(s[0], rest, key);
    }
  }

  /** `[...s].sort((a, b) => key(b) - key(a))`: a sorted copy, largest key first, that
      leaves `s` itself unchanged. */
  function SortDesc<T(!new)>(s: seq<T>, key: T -> int): (r: seq<T>)
    ensures SortedDesc(r, key)
    ensures multiset(r) == multiset(s)
    ensures |r| == |s|
  {
    if |s| == 0 then []
    else
      assert s == s[..|s| - 1] + [s[|s| - 1]];
      var init := SortDesc(s[..|s| - 1], key);
      InsertSorted(s[|s| - 1], init, key);
      var r := Insert(s[|s| - 1], init, key);
      assert |r| == |multiset(r)|;
      r
  }

  /** Sorting keeps exactly the elements it was given. */
  lemma SortDescMembers<T(!new)>(s: seq<T>, key: T -> int)
    ensures forall x :: x in SortDesc(s, key) <==> x in s
  {
    var r := SortDesc(s, key);
    forall x ensures x in r <==> x in s {
      assert x in r <==> x in multiset(r);
      assert x in s <==> x in multiset(s);
    }
  }

  /** The head of a descending sort carries the largest key of the input. */
  lemma SortDescHead<T(!new)>(s: seq<T>, key: T -> int)
    requires |s| > 0
    ensures |SortDesc(s, key)| > 0
    ensures SortDesc(s, key)[0] in s
    ensures forall x :: x in s ==> key(x) <= key(SortDesc(s, key)[0])
  {
    var r := SortDesc(s, key);
    assert r[0] in multiset(r);
    forall x | x in s
      ensures key(x) <= key(r[0])
    {
      assert x in multiset(s);
      assert x in multiset(r);
      var i :| 0 <= i < |r| && r[i] == x;
      assert i == 0 || key(r[0]) >= key(r[i]);
    }
  }

  /** A selection toggle: an element present is removed everywhere it occurs, an absent
      one is appended. */
  function Toggled<T(==,!new)>(s: seq<T>, x: T): (r: seq<T>)
    ensures x in s ==> x !in r && forall y :: y != x ==> (y in r <==> y in s)
    ensures x !in s ==> r == s + [x]
  {
    if x in s then Filter(s, (y: T) => y != x) else s + [x]
  }

  /** Toggling the same element twice restores which elements are present. */
  lemma ToggledTwice<T(!new)>(s: seq<T>, x: T)
    ensures forall y :: y in Toggled(Toggled(s, x), x) <==> y in s
  {
  }

  /** Toggling keeps a list without repeats free of repeats. */
  lemma ToggledNoDuplicates<T(!new)>(s: seq<T>, x: T)
    requires NoDuplicates(s)
    ensures NoDuplicates(Toggled(s, x))
  {
    if x in s {
      FilterNoDuplicates(s, (y: T) => y != x);
    }
  }
}
