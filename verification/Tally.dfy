/** Counting and summing over the threads of a model. */
module Tally {

  function Bit(b: bool): nat { if b then 1 else 0 }

  function Count<T>(s: seq<T>, p: T -> bool): nat {
    if s == [] then 0 else Count(s[..|s| - 1], p) + Bit(p(s[|s| - 1]))
  }

  function Sum<T>(s: seq<T>, f: T -> nat): nat {
    if s == [] then 0 else Sum(s[..|s| - 1], f) + f(s[|s| - 1])
  }

  /** One thread moving changes a count by what it was and what it becomes. */
  lemma {:induction false} CountSet<T>(s: seq<T>, t: nat, x: T, p: T -> bool)
    requires t < |s|
    ensures Count(s[t := x], p) + Bit(p(s[t])) == Count(s, p) + Bit(p(x))
  {
    var n := |s| - 1;
    if t < n {
      CountSet(s[..n], t, x, p);
      assert s[t := x][..n] == s[..n][t := x];
    } else {
      assert s[t := x][..n] == s[..n];
    }
  }

  lemma {:induction false} SumSet<T>(s: seq<T>, t: nat, x: T, f: T -> nat)
    requires t < |s|
    ensures Sum(s[t := x], f) + f(s[t]) == Sum(s, f) + f(x)
  {
    var n := |s| - 1;
    if t < n {
      SumSet(s[..n], t, x, f);
      assert s[t := x][..n] == s[..n][t := x];
    } else {
      assert s[t := x][..n] == s[..n];
    }
  }

  lemma {:induction false} CountWithin<T>(s: seq<T>, p: T -> bool, q: T -> bool)
    requires forall x <- s :: p(x) ==> q(x)
    ensures Count(s, p) <= Count(s, q)
  {
    if s != [] { CountWithin(s[..|s| - 1], p, q); }
  }

  lemma {:induction false} CountNone<T>(s: seq<T>, p: T -> bool)
    requires forall x <- s :: !p(x)
    ensures Count(s, p) == 0
  {
    if s != [] { CountNone(s[..|s| - 1], p); }
  }

  lemma {:induction false} SumNone<T>(s: seq<T>, f: T -> nat)
    requires forall x <- s :: f(x) == 0
    ensures Sum(s, f) == 0
  {
    if s != [] { SumNone(s[..|s| - 1], f); }
  }

  lemma {:induction false} CountSome<T>(s: seq<T>, t: nat, p: T -> bool)
    requires t < |s| && p(s[t])
    ensures Count(s, p) > 0
  {
    if t < |s| - 1 { CountSome(s[..|s| - 1], t, p); }
  }

  lemma {:induction false} CountBound<T>(s: seq<T>, p: T -> bool)
    ensures Count(s, p) <= |s|
  {
    if s != [] { CountBound(s[..|s| - 1], p); }
  }
}
