/** Shared building blocks: optional values and sums over sequences of rows. */
module Prelude {

  datatype Option<+T> = None | Some(value: T) {
    function GetOr(default: T): T {
      if Some? then value else default
    }
  }

  function Min(a: int, b: int): int {
    if a <= b then a else b
  }

  function Max(a: int, b: int): int {
    if a >= b then a else b
  }

  // ----- Sums -----

  /** The sum of f over s, peeled from the right so that a left-to-right loop unfolds one row at a time. */
  function Sum<T>(s: seq<T>, f: T -> int): int {
    if s == [] then 0 else Sum(s[..|s| - 1], f) + f(s[|s| - 1])
  }

  lemma SumSnoc<T>(s: seq<T>, x: T, f: T -> int)
    ensures Sum(s + [x], f) == Sum(s, f) + f(x)
  {
    assert (s + [x])[..|s|] == s;
  }

  lemma {:induction false} SumAppend<T>(s: seq<T>, t: seq<T>, f: T -> int)
    ensures Sum(s + t, f) == Sum(s, f) + Sum(t, f)
  {
    if t == [] {
      assert s + t == s;
    } else {
      var front := t[..|t| - 1];
      assert s + t == (s + front) + [t[|t| - 1]];
      SumSnoc(s + front, t[|t| - 1], f);
      SumAppend(s, front, f);
    }
  }

  /** Two sums whose summands are ordered row by row are ordered. */
  lemma {:induction false} SumLe<T, U>(s: seq<T>, t: seq<U>, f: T -> int, g: U -> int)
    requires |s| == |t|
    requires forall i :: 0 <= i < |s| ==> f(s[i]) <= g(t[i])
    ensures Sum(s, f) <= Sum(t, g)
  {
    if s != [] {
      SumLe(s[..|s| - 1], t[..|t| - 1], f, g);
    }
  }

  lemma SumEq<T, U>(s: seq<T>, t: seq<U>, f: T -> int, g: U -> int)
    requires |s| == |t|
    requires forall i :: 0 <= i < |s| ==> f(s[i]) == g(t[i])
    ensures Sum(s, f) == Sum(t, g)
  {
    SumLe(s, t, f, g);
    SumLe(t, s, g, f);
  }

  lemma SumZero<T>(s: seq<T>, f: T -> int)
    requires forall i :: 0 <= i < |s| ==> f(s[i]) == 0
    ensures Sum(s, f) == 0
  {
    SumEq(s, s, f, (x: T) => 0);
    SumOfZeros(s);
  }

  lemma {:induction false} SumOfZeros<T>(s: seq<T>)
    ensures Sum(s, (x: T) => 0) == 0
  {
    if s != [] {
      SumOfZeros(s[..|s| - 1]);
    }
  }

  /** Replacing one row changes a sum by that row's difference alone. */
  lemma {:induction false} SumUpdate<T>(s: seq<T>, i: nat, x: T, f: T -> int)
    requires i < |s|
    ensures Sum(s[i := x], f) == Sum(s, f) - f(s[i]) + f(x)
  {
    var last := |s| - 1;
    if i == last {
      assert s[i := x][..last] == s[..last];
    } else {
      assert s[i := x][..last] == s[..last][i := x];
      SumUpdate(s[..last], i, x, f);
    }
  }

  /** A sum of pairwise sums is the sum of the two sums. */
  lemma {:induction false} SumSplit<T>(s: seq<T>, f: T -> int, g: T -> int, h: T -> int)
    requires forall i :: 0 <= i < |s| ==> h(s[i]) == f(s[i]) + g(s[i])
    ensures Sum(s, h) == Sum(s, f) + Sum(s, g)
  {
    if s != [] {
      SumSplit(s[..|s| - 1], f, g, h);
    }
  }

  /** Taking one row out removes its summand from the sum. */
  lemma SumWithout<T>(s: seq<T>, k: nat, f: T -> int)
    requires k < |s|
    ensures Sum(s, f) == Sum(s[..k] + s[k + 1..], f) + f(s[k])
  {
    var left, right := s[..k], s[k + 1..];
    assert s == left + [s[k]] + right;
    SumAround(left, s[k], right, f);
  }

  lemma SumAround<T>(left: seq<T>, x: T, right: seq<T>, f: T -> int)
    ensures Sum(left + [x] + right, f) == Sum(left + right, f) + f(x)
  {
    SumAppend(left + [x], right, f);
    SumSnoc(left, x, f);
    SumAppend(left, right, f);
  }

  lemma MultisetWithout<T>(s: seq<T>, k: nat)
    requires k < |s|
    ensures multiset(s[..k] + s[k + 1..]) + multiset{s[k]} == multiset(s)
  {
    assert s == s[..k] + [s[k]] + s[k + 1..];
  }

  lemma RestMultiset<T>(front: seq<T>, last: T, t: seq<T>, k: nat)
    requires k < |t| && t[k] == last && multiset(front + [last]) == multiset(t)
    ensures multiset(front) == multiset(t[..k] + t[k + 1..])
  {
    MultisetWithout(t, k);
    assert multiset(front) == multiset(front + [last]) - multiset{last};
  }

  /** A sum depends only on the multiset of rows, not on their order. */
  lemma {:induction false} SumMultiset<T>(s: seq<T>, t: seq<T>, f: T -> int)
    requires multiset(s) == multiset(t)
    ensures Sum(s, f) == Sum(t, f)
    decreases |s|
  {
    assert |multiset(s)| == |s| && |multiset(t)| == |t|;
    if s != [] {
      var front, last := s[..|s| - 1], s[|s| - 1];
      assert s == front + [last];
      assert last in multiset(t);
      var k :| 0 <= k < |t| && t[k] == last;
      RestMultiset(front, last, t, k);
      SumWithout(t, k, f);
      SumMultiset(front, t[..k] + t[k + 1..], f);
    }
  }
}
