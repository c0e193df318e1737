/** Sums and multiset unions over a sequence of components, and how they move when
    one component changes. The step systems use them to count over unboundedly many
    producers, queues and sessions. */
module Folds {

  function Sum<X>(s: seq<X>, f: X -> nat): nat {
    if s == [] then 0 else f(s[0]) + Sum(s[1..], f)
  }

  function Union<X, Y>(s: seq<X>, f: X -> multiset<Y>): multiset<Y> {
    if s == [] then multiset{} else f(s[0]) + Union(s[1..], f)
  }

  lemma {:induction false} SumUpdate<X>(s: seq<X>, i: nat, x: X, f: X -> nat)
    requires i < |s|
    ensures Sum(s[i := x], f) + f(s[i]) == Sum(s, f) + f(x)
  {
    if i == 0 {
      assert s[i := x][1..] == s[1..];
    } else {
      assert s[i := x][1..] == s[1..][i - 1 := x];
      SumUpdate(s[1..], i - 1, x, f);
    }
  }

  lemma {:induction false} SumAppend<X>(s: seq<X>, x: X, f: X -> nat)
    ensures Sum(s + [x], f) == Sum(s, f) + f(x)
  {
    if s == [] {
      assert s + [x] == [x];
    } else {
      assert (s + [x])[1..] == s[1..] + [x];
      SumAppend(s[1..], x, f);
    }
  }

  lemma {:induction false} SumAtLeast<X>(s: seq<X>, i: nat, f: X -> nat)
    requires i < |s|
    ensures f(s[i]) <= Sum(s, f)
  {
    if i > 0 {
      SumAtLeast(s[1..], i - 1, f);
    }
  }

  lemma {:induction false} SumAtLeastTwo<X>(s: seq<X>, i: nat, j: nat, f: X -> nat)
    requires i < j < |s|
    ensures f(s[i]) + f(s[j]) <= Sum(s, f)
  {
    if i == 0 {
      SumAtLeast(s[1..], j - 1, f);
    } else {
      SumAtLeastTwo(s[1..], i - 1, j - 1, f);
    }
  }

  lemma {:induction false} SumZero<X>(s: seq<X>, f: X -> nat)
    requires forall i :: 0 <= i < |s| ==> f(s[i]) == 0
    ensures Sum(s, f) == 0
  {
    if s != [] {
      SumZero(s[1..], f);
    }
  }

  lemma {:induction false} SumPositive<X>(s: seq<X>, f: X -> nat) returns (i: nat)
    requires Sum(s, f) > 0
    ensures i < |s| && f(s[i]) > 0
  {
    if f(s[0]) > 0 {
      i := 0;
    } else {
      i := SumPositive(s[1..], f);
      i := i + 1;
    }
  }

  lemma {:induction false} UnionUpdate<X, Y>(s: seq<X>, i: nat, x: X, f: X -> multiset<Y>)
    requires i < |s|
    ensures Union(s[i := x], f) + f(s[i]) == Union(s, f) + f(x)
  {
    if i == 0 {
      assert s[i := x][1..] == s[1..];
    } else {
      assert s[i := x][1..] == s[1..][i - 1 := x];
      UnionUpdate(s[1..], i - 1, x, f);
      var head, was, now := f(s[0]), Union(s[1..], f), Union(s[1..][i - 1 := x], f);
      assert head + now + f(s[i]) == head + (now + f(s[i]));
      assert head + was + f(x) == head + (was + f(x));
    }
  }

  lemma {:induction false} UnionEmpty<X, Y>(s: seq<X>, f: X -> multiset<Y>)
    requires forall i :: 0 <= i < |s| ==> f(s[i]) == multiset{}
    ensures Union(s, f) == multiset{}
  {
    if s != [] {
      UnionEmpty(s[1..], f);
    }
  }
}
