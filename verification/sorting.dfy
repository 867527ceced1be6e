/**
 * Ordering of channel gains. The simulator variants sort their per-user gains
 * with Python's sorted(..., reverse=True) or np.sort (ascending); both are
 * modelled here as one insertion sort parameterised by the direction.
 */
module Sorting {

  /** x may stand before y in a sequence sorted in the given direction. */
  predicate Precedes(x: real, y: real, descending: bool)
  {
    if descending then y <= x else x <= y
  }

  /** s is sorted in the given direction. */
  predicate Ordered(s: seq<real>, descending: bool)
  {
    forall i, j :: 0 <= i < j < |s| ==> Precedes(s[i], s[j], descending)
  }

  /** Inserts x into an ordered sequence, keeping it ordered. */
  function Insert(x: real, s: seq<real>, descending: bool): (r: seq<real>)
    requires Ordered(s, descending)
    ensures |r| == |s| + 1
    ensures multiset(r) == multiset(s) + multiset{x}
    ensures Ordered(r, descending)
  {
    if |s| == 0 then [x]
    else if Precedes(x, s[0], descending) then [x] + s
    else
      var rest := Insert(x, s[1..], descending);
      assert s == [s[0]] + s[1..];
      HeadPrecedesInsertion(x, s, rest, descending);
      [s[0]] + rest
  }

  /** When x does not go first, the old head still precedes everything after it. */
  lemma HeadPrecedesInsertion(x: real, s: seq<real>, rest: seq<real>, descending: bool)
    requires Ordered(s, descending) && |s| > 0
    requires !Precedes(x, s[0], descending)
    requires multiset(rest) == multiset(s[1..]) + multiset{x}
    requires Ordered(rest, descending)
    ensures Ordered([s[0]] + rest, descending)
  {
    forall k | 0 <= k < |rest|
      ensures Precedes(s[0], rest[k], descending)
    {
      assert rest[k] in multiset(rest);
      if rest[k] != x {
        assert rest[k] in multiset(s[1..]);
        assert rest[k] in s[1..];
      }
    }
  }

  /** A permutation of s ordered in the given direction. */
  function Sort(s: seq<real>, descending: bool): (r: seq<real>)
    ensures |r| == |s|
    ensures multiset(r) == multiset(s)
    ensures Ordered(r, descending)
  {
    if |s| == 0 then []
    else
      assert s == [s[0]] + s[1..];
      Insert(s[0], Sort(s[1..], descending), descending)
  }

  /** Both ends of a sorted non-empty sequence are its extremes. */
  lemma OrderedEnds(s: seq<real>, descending: bool)
    requires Ordered(s, descending) && |s| > 0
    ensures forall i :: 0 <= i < |s| ==> Precedes(s[0], s[i], descending)
    ensures forall i :: 0 <= i < |s| ==> Precedes(s[i], s[|s| - 1], descending)
  {
  }

  /** Two ordered sequences with the same elements are equal. */
  lemma {:induction false} OrderedUnique(a: seq<real>, b: seq<real>, descending: bool)
    requires Ordered(a, descending) && Ordered(b, descending)
    requires multiset(a) == multiset(b)
    ensures a == b
  {
    if |a| == 0 {
      assert |b| == |multiset(b)| == 0;
    } else {
      assert |b| == |multiset(b)| == |multiset(a)| == |a|;
      assert a[0] in multiset(b);
      assert b[0] in multiset(a);
      var i :| 0 <= i < |b| && b[i] == a[0];
      var j :| 0 <= j < |a| && a[j] == b[0];
      assert a[0] == b[0];
      assert a == [a[0]] + a[1..];
      assert b == [b[0]] + b[1..];
      assert multiset(a) == multiset{a[0]} + multiset(a[1..]);
      assert multiset(b) == multiset{b[0]} + multiset(b[1..]);
      forall v ensures multiset(a[1..])[v] == multiset(b[1..])[v] {
        assert multiset(a)[v] == multiset{a[0]}[v] + multiset(a[1..])[v];
        assert multiset(b)[v] == multiset{b[0]}[v] + multiset(b[1..])[v];
      }
      assert multiset(a[1..]) == multiset(b[1..]);
      OrderedUnique(a[1..], b[1..], descending);
    }
  }
}
