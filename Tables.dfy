/**
 * The list operations the register applies to its product, customer, user,
 * cart and held-order tables (App.tsx): `find`/`findIndex` by id, `map`
 * replacing the entry with a given id, `filter` dropping an id, and the
 * `Math.max(...ids) + 1` id allocation. Each is generic in the entry type,
 * with `key` giving an entry's id.
 */
module Tables {

  /** No two entries share an id. */
  ghost predicate UniqueIds<T>(s: seq<T>, key: T -> int) {
    forall i, j :: 0 <= i < j < |s| ==> key(s[i]) != key(s[j])
  }

  ghost predicate HasId<T>(s: seq<T>, key: T -> int, id: int) {
    exists k :: 0 <= k < |s| && key(s[k]) == id
  }

  /** `findIndex(e => e.id === id)`: the first position holding `id`, or `|s|` when there is none (JavaScript's -1). */
  function FirstIndex<T>(s: seq<T>, key: T -> int, id: int): (i: nat)
    ensures i <= |s|
    ensures i < |s| ==> key(s[i]) == id
    ensures forall k :: 0 <= k < i ==> key(s[k]) != id
  {
    if |s| == 0 then 0
    else if key(s[0]) == id then 0
    else 1 + FirstIndex(s[1..], key, id)
  }

  /** With unique ids, the entry found is the only one carrying that id. */
  /** `findIndex` finds the id exactly when some entry has it. */
  lemma FirstIndexFound<T>(s: seq<T>, key: T -> int, id: int)
    ensures HasId(s, key, id) <==> FirstIndex(s, key, id) < |s|
  {
    var i := FirstIndex(s, key, id);
    if HasId(s, key, id) {
      var k :| 0 <= k < |s| && key(s[k]) == id;
      assert i <= k;
    }
  }

  lemma FirstIndexUnique<T>(s: seq<T>, key: T -> int, id: int, k: int)
    requires UniqueIds(s, key)
    requires 0 <= k < |s|
    ensures key(s[k]) == id <==> FirstIndex(s, key, id) == k
  {
    var i := FirstIndex(s, key, id);
    if i < |s| && i != k {
      assert key(s[i]) == id;
    }
  }

  /** Appending an entry leaves an earlier match in place; otherwise the new entry is found when it has the id. */
  lemma {:induction false} FirstIndexAppend<T>(s: seq<T>, key: T -> int, id: int, x: T)
    ensures FirstIndex(s, key, id) < |s| ==> FirstIndex(s + [x], key, id) == FirstIndex(s, key, id)
    ensures FirstIndex(s, key, id) == |s| && key(x) == id ==> FirstIndex(s + [x], key, id) == |s|
    ensures FirstIndex(s, key, id) == |s| && key(x) != id ==> FirstIndex(s + [x], key, id) == |s| + 1
  {
    if |s| > 0 {
      assert (s + [x])[1..] == s[1..] + [x];
      FirstIndexAppend(s[1..], key, id, x);
    }
  }

  /** The largest id in a non-empty table. */
  function MaxId<T>(s: seq<T>, key: T -> int): (m: int)
    requires |s| > 0
    ensures forall k :: 0 <= k < |s| ==> key(s[k]) <= m
    ensures exists k :: 0 <= k < |s| && key(s[k]) == m
  {
    if |s| == 1 then key(s[0])
    else
      var rest := MaxId(s[1..], key);
      assert forall k :: 1 <= k < |s| ==> key(s[k]) == key(s[1..][k - 1]);
      if key(s[0]) >= rest then key(s[0]) else rest
  }

  /** `prev.length > 0 ? Math.max(...prev.map(e => e.id)) + 1 : 1`: a fresh id above every existing one. */
  function NextId<T>(s: seq<T>, key: T -> int): (r: int)
    ensures forall k :: 0 <= k < |s| ==> key(s[k]) < r
    ensures |s| == 0 ==> r == 1
    ensures |s| > 0 ==> exists k :: 0 <= k < |s| && key(s[k]) == r - 1
  {
    if |s| == 0 then 1 else MaxId(s, key) + 1
  }

  /** Appending an entry under `NextId` keeps the ids unique and leaves the earlier entries as they were. */
  lemma AppendWithNextId<T>(s: seq<T>, key: T -> int, x: T)
    requires UniqueIds(s, key)
    requires key(x) == NextId(s, key)
    ensures UniqueIds(s + [x], key)
    ensures !HasId(s, key, key(x))
    ensures (s + [x])[..|s|] == s && (s + [x])[|s|] == x
  {
    var t := s + [x];
    forall i, j | 0 <= i < j < |t| ensures key(t[i]) != key(t[j]) {
      if j == |s| {
        assert t[i] == s[i];
      } else {
        assert t[i] == s[i] && t[j] == s[j];
      }
    }
  }

  /** `map(e => e.id === x.id ? x : e)`: every entry with x's id is replaced by x, the others stay in place. */
  function ReplaceById<T>(s: seq<T>, key: T -> int, x: T): (r: seq<T>)
    ensures |r| == |s|
    ensures forall k :: 0 <= k < |s| ==> r[k] == (if key(s[k]) == key(x) then x else s[k])
  {
    if |s| == 0 then []
    else [if key(s[0]) == key(x) then x else s[0]] + ReplaceById(s[1..], key, x)
  }

  /** Replacing by id never changes which id sits at which position. */
  lemma ReplaceByIdKeepsIds<T>(s: seq<T>, key: T -> int, x: T)
    requires UniqueIds(s, key)
    ensures UniqueIds(ReplaceById(s, key, x), key)
    ensures forall k :: 0 <= k < |s| ==> key(ReplaceById(s, key, x)[k]) == key(s[k])
  {
    var r := ReplaceById(s, key, x);
    forall k | 0 <= k < |s| ensures key(r[k]) == key(s[k]) {
      assert r[k] == (if key(s[k]) == key(x) then x else s[k]);
    }
  }

  /** `filter(e => e.id !== id)`: every entry with that id is dropped, the rest keep their order. */
  function RemoveById<T(==)>(s: seq<T>, key: T -> int, id: int): (r: seq<T>)
    ensures |r| <= |s|
    ensures forall k :: 0 <= k < |r| ==> key(r[k]) != id && r[k] in s
    ensures forall k :: 0 <= k < |s| && key(s[k]) != id ==> s[k] in r
    ensures !HasId(s, key, id) ==> r == s
    ensures |s| > 0 && key(s[0]) != id ==> |r| > 0 && r[0] == s[0]
  {
    if |s| == 0 then []
    else if key(s[0]) == id then RemoveById(s[1..], key, id)
    else
      var rest := RemoveById(s[1..], key, id);
      assert !HasId(s, key, id) ==> !HasId(s[1..], key, id) by {
        if HasId(s[1..], key, id) {
          var k :| 0 <= k < |s[1..]| && key(s[1..][k]) == id;
          assert key(s[k + 1]) == id;
        }
      }
      [s[0]] + rest
  }

  /**
   * The filter works element by element: filtering a concatenation filters
   * each part, so the kept entries stay in their order.
   */
  lemma {:induction false} RemoveByIdAppend<T>(a: seq<T>, b: seq<T>, key: T -> int, id: int)
    ensures RemoveById(a + b, key, id) == RemoveById(a, key, id) + RemoveById(b, key, id)
  {
    if |a| == 0 {
      assert a + b == b;
    } else {
      assert (a + b)[0] == a[0] && (a + b)[1..] == a[1..] + b;
      RemoveByIdAppend(a[1..], b, key, id);
    }
  }

  /** Each entry without the id is kept as often as it occurs, and no entry with the id is kept. */
  lemma {:induction false} RemoveByIdCounts<T>(s: seq<T>, key: T -> int, id: int)
    ensures forall x | x in s :: multiset(RemoveById(s, key, id))[x] == if key(x) == id then 0 else multiset(s)[x]
  {
    if |s| > 0 {
      RemoveByIdCounts(s[1..], key, id);
      assert s == [s[0]] + s[1..];
    }
  }

  /** Dropping entries keeps the remaining ids unique. */
  lemma {:induction false} RemoveByIdKeepsUnique<T>(s: seq<T>, key: T -> int, id: int)
    requires UniqueIds(s, key)
    ensures UniqueIds(RemoveById(s, key, id), key)
  {
    if |s| > 0 {
      assert UniqueIds(s[1..], key) by {
        forall i, j | 0 <= i < j < |s[1..]| ensures key(s[1..][i]) != key(s[1..][j]) {
          assert s[1..][i] == s[i + 1] && s[1..][j] == s[j + 1];
        }
      }
      RemoveByIdKeepsUnique(s[1..], key, id);
      var rest := RemoveById(s[1..], key, id);
      if key(s[0]) != id {
        forall k | 0 <= k < |rest| ensures key(rest[k]) != key(s[0]) {
          HeadKeyNotInTail(s, key, rest[k]);
        }
        UniqueCons(s[0], rest, key);
      }
    }
  }

  /** With unique ids, no later element shares the first element's id. */
  lemma HeadKeyNotInTail<T>(s: seq<T>, key: T -> int, x: T)
    requires UniqueIds(s, key)
    requires |s| > 0 && x in s[1..]
    ensures key(x) != key(s[0])
  {
    var m :| 0 <= m < |s[1..]| && s[1..][m] == x;
    assert s[m + 1] == x;
  }

  /** An element whose id no element of a unique list has can go in front of it. */
  lemma UniqueCons<T>(x: T, rest: seq<T>, key: T -> int)
    requires UniqueIds(rest, key)
    requires forall k :: 0 <= k < |rest| ==> key(rest[k]) != key(x)
    ensures UniqueIds([x] + rest, key)
  {
    var r := [x] + rest;
    forall i, j | 0 <= i < j < |r| ensures key(r[i]) != key(r[j]) {
      assert r[j] == rest[j - 1];
      if i > 0 {
        assert r[i] == rest[i - 1];
      }
    }
  }
}
