/** Sums over the components of a system: every worker, queue, client or thread contributes
    a share, and a step that changes one component changes the sum by the change of its share. */
module Sums {
  /** The number of elements satisfying `p`. */
  function Count<A>(xs: seq<A>, p: A -> bool): nat {
    if xs == [] then 0 else Count(xs[..|xs| - 1], p) + (if p(xs[|xs| - 1]) then 1 else 0)
  }

  lemma {:induction false} CountUpdate<A>(xs: seq<A>, p: A -> bool, i: nat, x: A)
    requires i < |xs|
    ensures Count(xs[i := x], p) + (if p(xs[i]) then 1 else 0) == Count(xs, p) + (if p(x) then 1 else 0)
  {
    var n := |xs| - 1;
    if i == n {
      assert xs[i := x][..n] == xs[..n];
    } else {
      assert xs[i := x][..n] == xs[..n][i := x];
      CountUpdate(xs[..n], p, i, x);
    }
  }

  lemma {:induction false} CountHas<A>(xs: seq<A>, p: A -> bool, i: nat)
    requires i < |xs| && p(xs[i])
    ensures Count(xs, p) >= 1
  {
    var n := |xs| - 1;
    if i < n {
      CountHas(xs[..n], p, i);
    }
  }

  lemma {:induction false} CountHasTwo<A>(xs: seq<A>, p: A -> bool, i: nat, j: nat)
    requires i < j < |xs| && p(xs[i]) && p(xs[j])
    ensures Count(xs, p) >= 2
  {
    var n := |xs| - 1;
    if j < n {
      CountHasTwo(xs[..n], p, i, j);
    } else {
      CountHas(xs[..n], p, i);
    }
  }

  lemma {:induction false} CountNone<A>(xs: seq<A>, p: A -> bool)
    requires forall i :: 0 <= i < |xs| ==> !p(xs[i])
    ensures Count(xs, p) == 0
  {
    if xs != [] {
      CountNone(xs[..|xs| - 1], p);
    }
  }

  /** The sum of natural shares. */
  function NatSum<A>(xs: seq<A>, f: A -> nat): nat {
    if xs == [] then 0 else NatSum(xs[..|xs| - 1], f) + f(xs[|xs| - 1])
  }

  lemma {:induction false} NatSumUpdate<A>(xs: seq<A>, f: A -> nat, i: nat, x: A)
    requires i < |xs|
    ensures NatSum(xs[i := x], f) + f(xs[i]) == NatSum(xs, f) + f(x)
  {
    var n := |xs| - 1;
    if i == n {
      assert xs[i := x][..n] == xs[..n];
    } else {
      assert xs[i := x][..n] == xs[..n][i := x];
      NatSumUpdate(xs[..n], f, i, x);
    }
  }

  lemma {:induction false} NatSumHas<A>(xs: seq<A>, f: A -> nat, i: nat)
    requires i < |xs|
    ensures f(xs[i]) <= NatSum(xs, f)
  {
    if i < |xs| - 1 {
      NatSumHas(xs[..|xs| - 1], f, i);
    }
  }

  lemma {:induction false} NatSumHasTwo<A>(xs: seq<A>, f: A -> nat, i: nat, j: nat)
    requires i < j < |xs|
    ensures f(xs[i]) + f(xs[j]) <= NatSum(xs, f)
  {
    if j < |xs| - 1 {
      NatSumHasTwo(xs[..|xs| - 1], f, i, j);
    } else {
      NatSumHas(xs[..|xs| - 1], f, i);
    }
  }

  lemma {:induction false} NatSumZero<A>(xs: seq<A>, f: A -> nat)
    requires forall i :: 0 <= i < |xs| ==> f(xs[i]) == 0
    ensures NatSum(xs, f) == 0
  {
    if xs != [] {
      NatSumZero(xs[..|xs| - 1], f);
    }
  }

  /** How often `t` occurs in `s`. */
  function Occ<T(==)>(s: seq<T>, t: T): nat {
    if s == [] then 0 else Occ(s[..|s| - 1], t) + (if s[|s| - 1] == t then 1 else 0)
  }

  lemma {:induction false} OccConcat<T>(a: seq<T>, b: seq<T>, t: T)
    ensures Occ(a + b, t) == Occ(a, t) + Occ(b, t)
  {
    if b == [] {
      assert a + b == a;
    } else {
      assert (a + b)[..|a + b| - 1] == a + b[..|b| - 1];
      OccConcat(a, b[..|b| - 1], t);
    }
  }

  lemma {:induction false} OccMultiset<T>(s: seq<T>, t: T)
    ensures Occ(s, t) == multiset(s)[t]
  {
    if s != [] {
      assert s == s[..|s| - 1] + [s[|s| - 1]];
      OccMultiset(s[..|s| - 1], t);
    }
  }
}
