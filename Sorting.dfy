/**
 * The `sort((a, b) => key(b) - key(a))` of the dashboard's top lists: a
 * stable sort into non-increasing key order, written as an insertion sort.
 * An element is placed before the first element whose key is not larger, so
 * elements with equal keys keep their original order, as JavaScript's
 * (stable) `Array.prototype.sort` keeps them.
 */
module Sorting {

  ghost predicate SortedDesc<T>(s: seq<T>, key: T -> real) {
    forall i, j :: 0 <= i < j < |s| ==> key(s[i]) >= key(s[j])
  }

  /** Inserts `x` before the first element of `s` whose key is at most `key(x)`. */
  function InsertDesc<T(==)>(x: T, s: seq<T>, key: T -> real): (r: seq<T>)
    ensures |r| == |s| + 1
    ensures multiset(r) == multiset(s) + multiset{x}
  {
    if |s| == 0 then [x]
    else if key(x) >= key(s[0]) then [x] + s
    else
      assert s == [s[0]] + s[1..];
      [s[0]] + InsertDesc(x, s[1..], key)
  }

  function SortDesc<T(==)>(s: seq<T>, key: T -> real): (r: seq<T>)
    ensures |r| == |s|
    ensures multiset(r) == multiset(s)
  {
    if |s| == 0 then []
    else
      assert s == [s[0]] + s[1..];
      InsertDesc(s[0], SortDesc(s[1..], key), key)
  }

  lemma {:induction false} InsertDescSorted<T>(x: T, s: seq<T>, key: T -> real)
    requires SortedDesc(s, key)
    ensures SortedDesc(InsertDesc(x, s, key), key)
  {
    if |s| > 0 && key(x) < key(s[0]) {
      var rest := InsertDesc(x, s[1..], key);
      InsertDescSorted(x, s[1..], key);
      forall k | 0 <= k < |s[1..]| ensures key(s[1..][k]) <= key(s[0]) {
        assert s[1..][k] == s[k + 1];
      }
      InsertDescBelow(x, s[1..], key, key(s[0]));
      var r := [s[0]] + rest;
      forall i, j | 0 <= i < j < |r| ensures key(r[i]) >= key(r[j]) {
        if i > 0 {
          assert r[i] == rest[i - 1];
        }
        assert r[j] == rest[j - 1];
      }
    }
  }

  /** Inserting an element no larger than a bound into a list bounded by it keeps the list bounded. */
  lemma InsertDescBelow<T>(x: T, s: seq<T>, key: T -> real, b: real)
    requires key(x) <= b
    requires forall k :: 0 <= k < |s| ==> key(s[k]) <= b
    ensures forall k :: 0 <= k < |InsertDesc(x, s, key)| ==> key(InsertDesc(x, s, key)[k]) <= b
  {
    var r := InsertDesc(x, s, key);
    forall k | 0 <= k < |r| ensures key(r[k]) <= b {
      var y := r[k];
      assert y in multiset(r);
      if y != x {
        assert y in multiset(s);
        var m :| 0 <= m < |s| && s[m] == y;
      }
    }
  }

  /** The sort returns a non-increasing rearrangement of its input. */
  lemma {:induction false} SortDescCorrect<T>(s: seq<T>, key: T -> real)
    ensures SortedDesc(SortDesc(s, key), key)
    ensures multiset(SortDesc(s, key)) == multiset(s)
  {
    if |s| > 0 {
      SortDescCorrect(s[1..], key);
      InsertDescSorted(s[0], SortDesc(s[1..], key), key);
    }
  }

  /** Every element of the sorted sequence comes from the input. */
  lemma SortDescMembers<T>(s: seq<T>, key: T -> real)
    ensures forall i :: 0 <= i < |SortDesc(s, key)| ==> SortDesc(s, key)[i] in s
  {
    var r := SortDesc(s, key);
    forall i | 0 <= i < |r| ensures r[i] in s {
      assert r[i] in multiset(r);
    }
  }

  /** A list without repeats holds each value at most once. */
  lemma {:induction false} AtMostOnce<T>(s: seq<T>, x: T)
    requires forall a, b :: 0 <= a < b < |s| ==> s[a] != s[b]
    ensures multiset(s)[x] <= 1
    decreases |s|
  {
    if |s| > 0 {
      var init, last := s[..|s| - 1], s[|s| - 1];
      assert s == init + [last];
      AtMostOnce(init, x);
      if last == x {
        assert x !in init by {
          forall a | 0 <= a < |init| ensures init[a] != x {
            assert s[a] != s[|s| - 1];
          }
        }
      }
    }
  }

  /** A rearrangement of a list without repeats has none. */
  lemma PermutationDistinct<T>(s: seq<T>, r: seq<T>)
    requires forall a, b :: 0 <= a < b < |s| ==> s[a] != s[b]
    requires multiset(r) == multiset(s)
    ensures forall a, b :: 0 <= a < b < |r| ==> r[a] != r[b]
  {
    forall a, b | 0 <= a < b < |r| ensures r[a] != r[b] {
      if r[a] == r[b] {
        var x := r[a];
        assert r == r[..b] + r[b..];
        assert r[..b][a] == x && r[b..][0] == x;
        assert multiset(r[..b])[x] >= 1 && multiset(r[b..])[x] >= 1;
        AtMostOnce(s, x);
      }
    }
  }

  /** `slice(0, n)`. */
  function Take<T>(s: seq<T>, n: nat): (r: seq<T>)
    ensures |r| <= n && |r| <= |s|
    ensures |s| <= n ==> r == s
    ensures |s| > n ==> |r| == n
    ensures r == s[..|r|]
  {
    if |s| <= n then s else s[..n]
  }

  /** A prefix holds no value more often than the whole list. */
  lemma TakeSubMultiset<T>(s: seq<T>, n: nat)
    ensures multiset(Take(s, n)) <= multiset(s)
  {
    var r := Take(s, n);
    assert s == r + s[|r|..];
  }

  /** The first n of a sorted rearrangement are sorted. */
  lemma TakeSorted<T>(s: seq<T>, key: T -> real, n: nat)
    ensures SortedDesc(Take(SortDesc(s, key), n), key)
  {
    var sorted := SortDesc(s, key);
    SortDescCorrect(s, key);
    var top := Take(sorted, n);
    forall i, j | 0 <= i < j < |top| ensures key(top[i]) >= key(top[j]) {
      assert top[i] == sorted[i] && top[j] == sorted[j];
    }
  }

  /**
   * The first n of a sorted rearrangement are the top n: an element of the
   * input is among them, or they are n elements each with a key at least
   * as large as the element's.
   */
  lemma TopOfSorted<T>(s: seq<T>, key: T -> real, n: nat, e: T)
    requires e in s
    ensures var top := Take(SortDesc(s, key), n);
      e in top || (|top| == n && forall p :: p in top ==> key(p) >= key(e))
  {
    var sorted := SortDesc(s, key);
    SortDescCorrect(s, key);
    var top := Take(sorted, n);
    assert e in multiset(sorted);
    var j :| 0 <= j < |sorted| && sorted[j] == e;
    if j < |top| {
      assert top[j] == e;
    } else {
      forall p | p in top ensures key(p) >= key(e) {
        var m :| 0 <= m < |top| && top[m] == p;
        assert sorted[m] == p;
      }
    }
  }
}
