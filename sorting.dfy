/** Python's sorted(set(xs)): the distinct values of a sequence in ascending
    order, for any strict total order. */
module Sorting {

  ghost predicate StrictOrder<T(!new)>(lt: (T, T) -> bool) {
    && (forall a :: !lt(a, a))
    && (forall a, b, c :: lt(a, b) && lt(b, c) ==> lt(a, c))
    && (forall a, b :: a != b ==> lt(a, b) || lt(b, a))
  }

  /** Every element is strictly below every later one: sorted and without duplicates. */
  ghost predicate Increasing<T>(s: seq<T>, lt: (T, T) -> bool) {
    forall i, j :: 0 <= i < j < |s| ==> lt(s[i], s[j])
  }

  function Elems<T>(s: seq<T>): set<T> {
    set x | x in s
  }

  /** Puts x into its place in an increasing sequence, unless it is already there. */
  function Insert<T(==,!new)>(x: T, s: seq<T>, lt: (T, T) -> bool): (r: seq<T>)
    requires StrictOrder(lt) && Increasing(s, lt)
    ensures Increasing(r, lt)
    ensures Elems(r) == Elems(s) + {x}
  {
    if s == [] then [x]
    else if lt(x, s[0]) then [x] + s
    else if x == s[0] then s
    else
      var tail := Insert(x, s[1..], lt);
      assert forall y :: y in tail ==> lt(s[0], y) by {
        forall y | y in tail
          ensures lt(s[0], y)
        {
          assert y in Elems(tail);
          if y != x {
            assert y in Elems(s[1..]);
            var k :| 0 <= k < |s[1..]| && s[1..][k] == y;
            assert s[k + 1] == y;
          }
        }
      }
      assert Elems(s) == {s[0]} + Elems(s[1..]) by {
        assert s == [s[0]] + s[1..];
      }
      ConsIncreasing(s[0], tail, lt);
      [s[0]] + tail
  }

  lemma ConsIncreasing<T>(h: T, t: seq<T>, lt: (T, T) -> bool)
    requires Increasing(t, lt)
    requires forall y :: y in t ==> lt(h, y)
    ensures Increasing([h] + t, lt)
    ensures Elems([h] + t) == {h} + Elems(t)
  {
    var r := [h] + t;
    forall i, j | 0 <= i < j < |r|
      ensures lt(r[i], r[j])
    {
      assert r[j] == t[j - 1];
      if i > 0 {
        assert r[i] == t[i - 1];
      }
    }
  }

  /** sorted(set(xs)). */
  function SortDistinct<T(==,!new)>(xs: seq<T>, lt: (T, T) -> bool): (r: seq<T>)
    requires StrictOrder(lt)
    ensures Increasing(r, lt)
    ensures Elems(r) == Elems(xs)
  {
    if xs == [] then []
    else
      var init := xs[..|xs| - 1];
      assert xs == init + [xs[|xs| - 1]];
      assert Elems(xs) == Elems(init) + {xs[|xs| - 1]};
      Insert(xs[|xs| - 1], SortDistinct(init, lt), lt)
  }

  lemma HeadIsLeast<T>(a: seq<T>, lt: (T, T) -> bool)
    requires Increasing(a, lt) && a != []
    ensures forall y :: y in Elems(a) ==> y == a[0] || lt(a[0], y)
  {
    forall y | y in Elems(a)
      ensures y == a[0] || lt(a[0], y)
    {
      var k :| 0 <= k < |a| && a[k] == y;
      assert k == 0 || lt(a[0], a[k]);
    }
  }

  lemma HeadNotInTail<T(!new)>(a: seq<T>, lt: (T, T) -> bool)
    requires StrictOrder(lt) && Increasing(a, lt) && a != []
    ensures Increasing(a[1..], lt)
    ensures Elems(a[1..]) == Elems(a) - {a[0]}
  {
    assert a == [a[0]] + a[1..];
    assert forall k :: 1 <= k < |a| ==> lt(a[0], a[k]);
    assert a[0] !in a[1..];
  }

  /** An increasing sequence is determined by its elements: whatever order the
      values came in, sorted(set(xs)) is the same list. */
  lemma {:induction false} IncreasingUnique<T(!new)>(a: seq<T>, b: seq<T>, lt: (T, T) -> bool)
    requires StrictOrder(lt)
    requires Increasing(a, lt) && Increasing(b, lt)
    requires Elems(a) == Elems(b)
    ensures a == b
  {
    if a != [] {
      assert a[0] in Elems(b);
    }
    if b != [] {
      assert b[0] in Elems(a);
    }
    if a != [] && b != [] {
      // The head of each is the least element, so the heads agree.
      HeadIsLeast(a, lt);
      HeadIsLeast(b, lt);
      assert a[0] == b[0];
      HeadNotInTail(a, lt);
      HeadNotInTail(b, lt);
      IncreasingUnique(a[1..], b[1..], lt);
      assert a == [a[0]] + a[1..] && b == [b[0]] + b[1..];
    }
  }
}
