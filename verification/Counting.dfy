/** Weighted sums over the threads of a protocol: how many threads are in a given
    kind of program point, and what that number tells about single threads. */
module Counting {

  function B2N(b: bool): nat { if b then 1 else 0 }

  function Sum<T>(s: seq<T>, w: T -> nat): nat {
    if s == [] then 0 else w(s[0]) + Sum(s[1..], w)
  }

  lemma {:induction false} SumUpdate<T>(s: seq<T>, i: nat, x: T, w: T -> nat)
    requires i < |s|
    ensures Sum(s[i := x], w) + w(s[i]) == Sum(s, w) + w(x)
  {
    if i == 0 {
      assert s[i := x][1..] == s[1..];
    } else {
      assert s[i := x][1..] == s[1..][i - 1 := x];
      SumUpdate(s[1..], i - 1, x, w);
    }
  }

  lemma {:induction false} SumBounds<T>(s: seq<T>, i: nat, w: T -> nat)
    requires i < |s|
    ensures w(s[i]) <= Sum(s, w)
  {
    if i > 0 { SumBounds(s[1..], i - 1, w); }
  }

  lemma {:induction false} SumPair<T>(s: seq<T>, i: nat, j: nat, w: T -> nat)
    requires i < j < |s|
    ensures w(s[i]) + w(s[j]) <= Sum(s, w)
  {
    if i == 0 { SumBounds(s[1..], j - 1, w); } else { SumPair(s[1..], i - 1, j - 1, w); }
  }

  /** A sum of at most one has at most one contributor. */
  lemma SumExclusive<T>(s: seq<T>, i: nat, w: T -> nat)
    requires i < |s| && Sum(s, w) <= w(s[i])
    ensures forall j :: 0 <= j < |s| && j != i ==> w(s[j]) == 0
  {
    forall j | 0 <= j < |s| && j != i ensures w(s[j]) == 0 {
      if i < j { SumPair(s, i, j, w); } else { SumPair(s, j, i, w); }
    }
  }

  lemma SumZero<T>(s: seq<T>, w: T -> nat)
    requires Sum(s, w) == 0
    ensures forall j :: 0 <= j < |s| ==> w(s[j]) == 0
  {
    forall j | 0 <= j < |s| ensures w(s[j]) == 0 { SumBounds(s, j, w); }
  }

  lemma {:induction false} SumAllZero<T>(s: seq<T>, w: T -> nat)
    requires forall j :: 0 <= j < |s| ==> w(s[j]) == 0
    ensures Sum(s, w) == 0
  {
    if s != [] { SumAllZero(s[1..], w); }
  }

  /** If nobody else contributes, the sum is one element's weight. */
  lemma SumSole<T>(s: seq<T>, i: nat, w: T -> nat)
    requires i < |s|
    requires forall j :: 0 <= j < |s| && j != i ==> w(s[j]) == 0
    ensures Sum(s, w) == w(s[i])
  {
    assert Sum(s[..i], w) == 0 by { SumAllZero(s[..i], w); }
    assert Sum(s[i + 1..], w) == 0 by { SumAllZero(s[i + 1..], w); }
    assert s == s[..i] + [s[i]] + s[i + 1..];
    SumConcat(s[..i] + [s[i]], s[i + 1..], w);
    SumConcat(s[..i], [s[i]], w);
  }

  lemma {:induction false} SumConcat<T>(a: seq<T>, b: seq<T>, w: T -> nat)
    ensures Sum(a + b, w) == Sum(a, w) + Sum(b, w)
  {
    if a == [] {
      assert a + b == b;
    } else {
      assert (a + b)[1..] == a[1..] + b;
      SumConcat(a[1..], b, w);
    }
  }

  lemma {:induction false} SumWitness<T>(s: seq<T>, w: T -> nat) returns (i: nat)
    requires Sum(s, w) > 0
    ensures i < |s| && w(s[i]) > 0
  {
    if w(s[0]) > 0 { i := 0; } else { i := SumWitness(s[1..], w); i := i + 1; }
  }

  lemma {:induction false} SumAtMostLength<T>(s: seq<T>, w: T -> nat)
    requires forall j :: 0 <= j < |s| ==> w(s[j]) <= 1
    ensures Sum(s, w) <= |s|
  {
    if s != [] { SumAtMostLength(s[1..], w); }
  }
}
