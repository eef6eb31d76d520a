/**
 * The role-index lists of the scene (`e_model_entity_list`,
 * `e_light_entity_list`) as sequences of entity ids, and what removing an
 * entity does to them.
 */
module Roles {
  import opened StateUtil

  /** `index_of`: the first position holding `v`, or -1. */
  function FirstIndex(s: seq<int>, v: int): (i: int)
    ensures -1 <= i < |s|
    ensures i == -1 <==> v !in s
    ensures i != -1 ==> s[i] == v && v !in s[..i]
  {
    if |s| == 0 then -1
    else if s[0] == v then 0
    else
      var j := FirstIndex(s[1..], v);
      assert s[1..][..if j == -1 then 0 else j] == s[1..if j == -1 then 1 else j + 1];
      if j == -1 then -1 else j + 1
  }

  /** A position holding `v` with no earlier `v` is the first index of `v`. */
  lemma FirstIndexUnique(s: seq<int>, v: int, k: int)
    requires 0 <= k < |s| && s[k] == v && v !in s[..k]
    ensures FirstIndex(s, v) == k
  {
  }

  /** Swap-with-last removal of the first occurrence of `v`, if any. */
  function RemoveFirst(s: seq<int>, v: int): seq<int>
  {
    var i := FirstIndex(s, v);
    if i == -1 then s else RemoveAt(s, i)
  }

  /** The first occurrence of `a`, if any, becomes `b`. */
  function RewriteFirst(s: seq<int>, a: int, b: int): seq<int>
  {
    var i := FirstIndex(s, a);
    if i == -1 then s else s[i := b]
  }

  /**
   * What `remove_current_entity` does to one role list when entity `e` of
   * `n` entities is removed: drop `e`, then rename the old last id `n - 1`
   * to `e`.
   */
  function AfterRemoval(s: seq<int>, e: int, n: int): seq<int>
  {
    RewriteFirst(RemoveFirst(s, e), n - 1, e)
  }

  ghost predicate Distinct(s: seq<int>)
  {
    forall i, j :: 0 <= i < j < |s| ==> s[i] != s[j]
  }

  /** Every entry is a live entity id below `n`, and no id occurs twice. */
  ghost predicate WellFormed(s: seq<int>, n: int)
  {
    (forall i :: 0 <= i < |s| ==> 0 <= s[i] < n) && Distinct(s)
  }

  /**
   * After removing entity `e` of `n`, the entity now at slot `y` was at slot
   * `Origin(y, e, n)` before: the old last entity moved into `e`.
   */
  function Origin(y: int, e: int, n: int): int
  {
    if y == e then n - 1 else y
  }

  lemma RemoveAtKeepsDistinct(s: seq<int>, i: int)
    requires Distinct(s) && 0 <= i < |s|
    ensures Distinct(RemoveAt(s, i))
    ensures forall y :: y in RemoveAt(s, i) <==> y in s && y != s[i]
  {
    var r := RemoveAt(s, i);
    var last := |s| - 1;
    assert forall k :: 0 <= k < |r| ==> r[k] == if k == i then s[last] else s[k];
    forall y | y in s && y != s[i]
      ensures y in r
    {
      var k :| 0 <= k < |s| && s[k] == y;
      if k == last {
        assert r[i] == y;
      } else {
        assert r[k] == y;
      }
    }
  }

  lemma SetKeepsDistinct(s: seq<int>, i: int, b: int)
    requires Distinct(s) && 0 <= i < |s| && b !in s
    ensures Distinct(s[i := b])
    ensures forall y :: y in s[i := b] <==> (y in s && y != s[i]) || y == b
  {
    var r := s[i := b];
    forall y | y in s && y != s[i]
      ensures y in r
    {
      var k :| 0 <= k < |s| && s[k] == y;
      assert r[k] == y;
    }
    assert r[i] == b;
  }

  /**
   * The central bookkeeping invariant: if a role list holds distinct live ids
   * before entity `e` is removed, it still does afterwards (with one entity
   * fewer), and the entity now at each slot `y` has a role exactly when
   * the entity that was at `Origin(y, e, n)` had it.
   */
  lemma {:induction false} RemovalKeepsWellFormed(s: seq<int>, e: int, n: int)
    requires WellFormed(s, n) && 0 <= e < n
    ensures WellFormed(AfterRemoval(s, e, n), n - 1)
    ensures forall y :: 0 <= y < n - 1 ==> (y in AfterRemoval(s, e, n) <==> Origin(y, e, n) in s)
  {
    var t := RemoveFirst(s, e);
    var i := FirstIndex(s, e);
    if i != -1 {
      RemoveAtKeepsDistinct(s, i);
    }
    assert Distinct(t);
    assert forall y :: y in t <==> y in s && y != e;
    var j := FirstIndex(t, n - 1);
    var u := AfterRemoval(s, e, n);
    if j != -1 {
      SetKeepsDistinct(t, j, e);
      assert u == t[j := e];
      assert forall y :: y in u <==> (y in t && y != n - 1) || y == e;
    } else {
      assert u == t;
    }
    forall k | 0 <= k < |u|
      ensures 0 <= u[k] < n - 1
    {
      assert u[k] in u;
    }
  }

  /**
   * Without distinctness the invariant breaks: with the old last id listed
   * twice, one stale copy survives removal and names no live entity.
   */
  lemma DuplicateIdsBreakRemoval()
    ensures !WellFormed(AfterRemoval([1, 1], 0, 2), 1)
  {
    assert FirstIndex([1, 1], 0) == -1;
    assert RemoveFirst([1, 1], 0) == [1, 1];
    assert FirstIndex([1, 1], 1) == 0;
    var u := AfterRemoval([1, 1], 0, 2);
    assert u == [0, 1];
    assert u[1] == 1;
  }

  /** Appending a fresh id `n` (the next entity) keeps a list well formed for `n + 1`. */
  lemma AppendFreshKeepsWellFormed(s: seq<int>, n: int)
    requires WellFormed(s, n) && n >= 0
    ensures WellFormed(s + [n], n + 1)
  {
  }
}
