/** `(line, length)` pairs and Python's stable, longest-first sort of them.

    `list.sort(key=..., reverse=True)` is stable: items with equal keys keep
    their input order. A stable longest-first order of a list is unique
    (`StableOrderUnique`), so modelling the sort by insertion sort loses
    nothing against Python's Timsort. */
module LengthSort {
  import opened Geometry

  /** One entry of `calculate_lines_length`: a line and its (squared) length. */
  datatype Marker = Marker(line: Segment, length: nat)

  /** Longest first: no entry is longer than an earlier one. */
  predicate Descending(ms: seq<Marker>)
  {
    forall i, j :: 0 <= i < j < |ms| ==> ms[i].length >= ms[j].length
  }

  /** The entries of length `k`, in their order in `ms`. Two orders of the
      same entries agree on every `WithLength` exactly when they keep equal
      lengths in the same relative order. */
  function WithLength(ms: seq<Marker>, k: nat): seq<Marker>
  {
    if |ms| == 0 then []
    else (if ms[0].length == k then [ms[0]] else []) + WithLength(ms[1..], k)
  }

  lemma {:induction false} WithLengthMembers(ms: seq<Marker>, k: nat)
    ensures forall x :: x in WithLength(ms, k) <==> x in ms && x.length == k
  {
    if |ms| > 0 {
      WithLengthMembers(ms[1..], k);
      assert ms == [ms[0]] + ms[1..];
    }
  }

  lemma {:induction false} WithLengthAppend(a: seq<Marker>, b: seq<Marker>, k: nat)
    ensures WithLength(a + b, k) == WithLength(a, k) + WithLength(b, k)
  {
    if |a| > 0 {
      assert (a + b)[1..] == a[1..] + b;
      WithLengthAppend(a[1..], b, k);
    } else {
      assert a + b == b;
    }
  }

  /** Places `m` before the first entry not longer than it: `m` counts as
      earlier in the input than every entry of `ms`. */
  function Insert(m: Marker, ms: seq<Marker>): (r: seq<Marker>)
    ensures |r| == |ms| + 1
    ensures multiset(r) == multiset(ms) + multiset{m}
  {
    if |ms| == 0 || ms[0].length <= m.length then [m] + ms
    else
      assert ms == [ms[0]] + ms[1..];
      [ms[0]] + Insert(m, ms[1..])
  }

  lemma ConsDescending(m: Marker, ms: seq<Marker>)
    requires Descending(ms)
    requires forall x :: x in ms ==> x.length <= m.length
    ensures Descending([m] + ms)
  {
    var c := [m] + ms;
    forall i, j | 0 <= i < j < |c|
      ensures c[i].length >= c[j].length
    {
      assert c[j] == ms[j - 1];
      if i > 0 {
        assert c[i] == ms[i - 1];
      }
    }
  }

  lemma {:induction false} InsertDescending(m: Marker, ms: seq<Marker>)
    requires Descending(ms)
    ensures Descending(Insert(m, ms))
  {
    if |ms| == 0 || ms[0].length <= m.length {
      ConsDescending(m, ms);
    } else {
      var t := Insert(m, ms[1..]);
      InsertDescending(m, ms[1..]);
      forall x | x in t
        ensures x.length <= ms[0].length
      {
        assert x in multiset(t);
        if x != m {
          assert x in multiset(ms[1..]);
          var j :| 0 <= j < |ms[1..]| && ms[1..][j] == x;
          assert x == ms[j + 1];
        }
      }
      ConsDescending(ms[0], t);
    }
  }

  lemma {:induction false} InsertStable(m: Marker, ms: seq<Marker>, k: nat)
    ensures WithLength(Insert(m, ms), k)
         == (if m.length == k then [m] else []) + WithLength(ms, k)
  {
    var mk := if m.length == k then [m] else [];
    if |ms| == 0 || ms[0].length <= m.length {
      var r := [m] + ms;
      assert r[0] == m && r[1..] == ms;
      assert WithLength(r, k) == mk + WithLength(ms, k);
    } else {
      var t := Insert(m, ms[1..]);
      var r := [ms[0]] + t;
      var hk := if ms[0].length == k then [ms[0]] else [];
      assert r[0] == ms[0] && r[1..] == t;
      assert WithLength(r, k) == hk + WithLength(t, k);
      InsertStable(m, ms[1..], k);
      assert WithLength(ms, k) == hk + WithLength(ms[1..], k);
      // `m` is shorter than `ms[0]`, so at most one of them has length `k`
      if hk == [] {
        assert hk + WithLength(t, k) == WithLength(t, k);
        assert mk + WithLength(ms, k) == mk + WithLength(ms[1..], k);
      } else {
        assert mk == [];
        assert mk + WithLength(ms, k) == WithLength(ms, k);
        assert WithLength(t, k) == WithLength(ms[1..], k);
      }
    }
  }

  /** Python's `sort(key=length, reverse=True)`: longest first, ties kept in
      input order (`SortIsStable`). */
  function SortDescending(ms: seq<Marker>): (r: seq<Marker>)
    ensures |r| == |ms|
    ensures multiset(r) == multiset(ms)
    ensures Descending(r)
  {
    if |ms| == 0 then []
    else
      var t := SortDescending(ms[1..]);
      InsertDescending(ms[0], t);
      assert ms == [ms[0]] + ms[1..];
      Insert(ms[0], t)
  }

  /** Entries of equal length leave the sort in the order they came in. */
  lemma {:induction false} SortIsStable(ms: seq<Marker>, k: nat)
    ensures WithLength(SortDescending(ms), k) == WithLength(ms, k)
  {
    if |ms| > 0 {
      var t := SortDescending(ms[1..]);
      SortIsStable(ms[1..], k);
      InsertStable(ms[0], t, k);
      assert WithLength(ms, k) == (if ms[0].length == k then [ms[0]] else []) + WithLength(ms[1..], k);
    }
  }

  /** The sort puts a longest entry first. */
  lemma SortedHeadIsLongest(ms: seq<Marker>)
    requires |ms| > 0
    ensures forall i :: 0 <= i < |ms| ==> ms[i].length <= SortDescending(ms)[0].length
  {
    var r := SortDescending(ms);
    forall i | 0 <= i < |ms|
      ensures ms[i].length <= r[0].length
    {
      assert ms[i] in multiset(r);
      var j :| 0 <= j < |r| && r[j] == ms[i];
      if j > 0 {
        assert r[0].length >= r[j].length;
      }
    }
  }

  /** The first two entries of the sort: the first longest entry, then the
      first longest of the rest. */
  lemma SortedFirstTwo(ms: seq<Marker>)
    requires |ms| >= 2
    ensures var i0 := FirstLongest(ms);
            var rest := RemoveAt(ms, i0);
            SortDescending(ms)[0] == ms[i0]
            && SortDescending(ms)[1] == rest[FirstLongest(rest)]
  {
    var i0 := FirstLongest(ms);
    var rest := RemoveAt(ms, i0);
    SortSplitsOffFirstLongest(ms);
    SortSplitsOffFirstLongest(rest);
    assert SortDescending(ms)[1] == SortDescending(rest)[0];
  }

  lemma HeadHasItsLength(ms: seq<Marker>)
    ensures |ms| > 0 ==> WithLength(ms, ms[0].length) != []
  {
  }

  /** A longest-first order that keeps equal lengths in their relative order
      is determined by that order alone. */
  lemma {:induction false} StableOrderUnique(a: seq<Marker>, b: seq<Marker>)
    requires Descending(a) && Descending(b)
    requires forall k: nat :: WithLength(a, k) == WithLength(b, k)
    ensures a == b
    decreases |a|
  {
    if |a| == 0 || |b| == 0 {
      if |a| != |b| {
        // the non-empty side has an entry of its first length, the other none
        HeadHasItsLength(a);
        HeadHasItsLength(b);
        assert false;
      }
    } else {
      var la, lb := a[0].length, b[0].length;
      WithLengthMembers(a, lb);
      WithLengthMembers(b, la);
      assert WithLength(a, la) == [a[0]] + WithLength(a[1..], la);
      assert a[0] in WithLength(b, la);
      assert la <= lb;
      assert WithLength(b, lb) == [b[0]] + WithLength(b[1..], lb);
      assert b[0] in WithLength(a, lb);
      assert lb <= la;
      forall k: nat
        ensures WithLength(a[1..], k) == WithLength(b[1..], k)
      {
        var wa, wb := WithLength(a, k), WithLength(b, k);
        assert wa == wb;
        if k == la {
          assert wa == [a[0]] + WithLength(a[1..], k);
          assert wb == [b[0]] + WithLength(b[1..], k);
          assert WithLength(a[1..], k) == wa[1..];
          assert WithLength(b[1..], k) == wb[1..];
          assert WithLength(a[1..], k) == WithLength(b[1..], k);
        } else {
          assert wa == WithLength(a[1..], k);
          assert wb == WithLength(b[1..], k);
        }
      }
      assert a[0] == WithLength(a, la)[0] == WithLength(b, la)[0] == b[0];
      StableOrderUnique(a[1..], b[1..]);
      assert a == [a[0]] + a[1..];
      assert b == [b[0]] + b[1..];
    }
  }

  /** Index of the first longest entry. */
  function FirstLongest(ms: seq<Marker>): (k: nat)
    requires |ms| > 0
    ensures k < |ms|
    ensures forall i :: 0 <= i < |ms| ==> ms[i].length <= ms[k].length
    ensures forall i :: 0 <= i < k ==> ms[i].length < ms[k].length
  {
    if |ms| == 1 then 0
    else
      var j := 1 + FirstLongest(ms[1..]);
      if ms[0].length >= ms[j].length then 0 else j
  }

  /** `ms` without its entry at index `i`. */
  function RemoveAt(ms: seq<Marker>, i: nat): (r: seq<Marker>)
    requires i < |ms|
    ensures |r| == |ms| - 1
    ensures ms == r[..i] + [ms[i]] + r[i..]
  {
    ms[..i] + ms[i + 1..]
  }

  lemma WithLengthNone(ms: seq<Marker>, k: nat)
    requires forall i :: 0 <= i < |ms| ==> ms[i].length != k
    ensures WithLength(ms, k) == []
  {
    WithLengthMembers(ms, k);
    if WithLength(ms, k) != [] {
      assert WithLength(ms, k)[0] in WithLength(ms, k);
    }
  }

  /** Splitting `ms` around its first longest entry `ms[i0]`. */
  lemma {:induction false} SplitAtFirstLongest(ms: seq<Marker>, k: nat)
    requires |ms| > 0
    ensures var i0 := FirstLongest(ms);
            WithLength(ms, k)
            == (if ms[i0].length == k then [ms[i0]] else []) + WithLength(RemoveAt(ms, i0), k)
  {
    var i0 := FirstLongest(ms);
    var top := ms[i0];
    var before, after := ms[..i0], ms[i0 + 1..];
    assert RemoveAt(ms, i0) == before + after;
    assert ms == (before + [top]) + after;
    WithLengthAppend(before + [top], after, k);
    WithLengthAppend(before, [top], k);
    WithLengthAppend(before, after, k);
    assert WithLength([top], k) == (if top.length == k then [top] else []) + WithLength([], k);
    if top.length == k {
      WithLengthNone(before, k);
    }
  }

  lemma FirstLongestBoundsRest(ms: seq<Marker>)
    requires |ms| > 0
    ensures var i0 := FirstLongest(ms);
            forall x :: x in RemoveAt(ms, i0) ==> x.length <= ms[i0].length
  {
    var i0 := FirstLongest(ms);
    forall x | x in RemoveAt(ms, i0)
      ensures x.length <= ms[i0].length
    {
      var j :| 0 <= j < |RemoveAt(ms, i0)| && RemoveAt(ms, i0)[j] == x;
      if j < i0 {
        assert x == ms[j];
      } else {
        assert x == ms[j + 1];
      }
    }
  }

  lemma FirstLongestHeadsDescending(ms: seq<Marker>)
    requires |ms| > 0
    ensures var i0 := FirstLongest(ms);
            Descending([ms[i0]] + SortDescending(RemoveAt(ms, i0)))
  {
    var i0 := FirstLongest(ms);
    var rest := RemoveAt(ms, i0);
    var sortedRest := SortDescending(rest);
    FirstLongestBoundsRest(ms);
    forall x | x in sortedRest
      ensures x.length <= ms[i0].length
    {
      assert x in multiset(sortedRest);
      assert x in rest;
    }
    ConsDescending(ms[i0], sortedRest);
  }

  /** The stable longest-first sort starts with the first longest entry and
      continues with the stable sort of everything else. */
  lemma {:induction false} SortSplitsOffFirstLongest(ms: seq<Marker>)
    requires |ms| > 0
    ensures var i0 := FirstLongest(ms);
            SortDescending(ms) == [ms[i0]] + SortDescending(RemoveAt(ms, i0))
  {
    var i0 := FirstLongest(ms);
    var top := ms[i0];
    var sortedRest := SortDescending(RemoveAt(ms, i0));
    var candidate := [top] + sortedRest;
    FirstLongestHeadsDescending(ms);
    forall k: nat
      ensures WithLength(candidate, k) == WithLength(SortDescending(ms), k)
    {
      SortIsStable(ms, k);
      SortIsStable(RemoveAt(ms, i0), k);
      SplitAtFirstLongest(ms, k);
      WithLengthAppend([top], sortedRest, k);
      assert WithLength([top], k) == (if top.length == k then [top] else []) + WithLength([], k);
    }
    StableOrderUnique(candidate, SortDescending(ms));
  }
}
