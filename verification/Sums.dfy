/** Sums of an integer measure over a sequence, each term taken relative to a
    base.  The base lets the protocol proofs count "messages of this round"
    without ever multiplying a round number by a number of threads. */
module Sums {

  function Sum<T>(s: seq<T>, f: T -> int, b: int): int
  {
    if s == [] then 0 else f(s[0]) - b + Sum(s[1..], f, b)
  }

  lemma {:induction false} SumUpdate<T>(s: seq<T>, i: nat, x: T, f: T -> int, b: int)
    requires i < |s|
    ensures Sum(s[i := x], f, b) == Sum(s, f, b) - f(s[i]) + f(x)
  {
    if i == 0 {
      assert s[0 := x][1..] == s[1..];
    } else {
      assert s[i := x][1..] == s[1..][i - 1 := x];
      SumUpdate(s[1..], i - 1, x, f, b);
    }
  }

  /** Raising the base by one takes one from every term. */
  lemma {:induction false} SumShift<T>(s: seq<T>, f: T -> int, b: int)
    ensures Sum(s, f, b + 1) == Sum(s, f, b) - |s|
  {
    if s != [] {
      SumShift(s[1..], f, b);
    }
  }

  /** When no term is below the base, the sum bounds each single term. */
  lemma {:induction false} SumAtLeast<T>(s: seq<T>, f: T -> int, b: int, i: nat)
    requires forall k :: 0 <= k < |s| ==> b <= f(s[k])
    ensures 0 <= Sum(s, f, b)
    ensures i < |s| ==> f(s[i]) - b <= Sum(s, f, b)
  {
    if s != [] {
      SumAtLeast(s[1..], f, b, if i == 0 then 0 else i - 1);
    }
  }

  lemma {:induction false} SumAtMost<T>(s: seq<T>, f: T -> int, b: int)
    requires forall k :: 0 <= k < |s| ==> f(s[k]) <= b
    ensures Sum(s, f, b) <= 0
    ensures Sum(s, f, b) == 0 ==> forall k :: 0 <= k < |s| ==> f(s[k]) == b
  {
    if s != [] {
      SumAtMost(s[1..], f, b);
      if Sum(s, f, b) == 0 {
        forall k | 0 <= k < |s| ensures f(s[k]) == b {
          if k > 0 { assert s[k] == s[1..][k - 1]; }
        }
      }
    }
  }

  /** Where f never exceeds g, the difference of the sums bounds the gap at any
      one index, and the gaps at two different indices together. */
  lemma {:induction false} SumGap<T>(s: seq<T>, f: T -> int, g: T -> int, b: int, i: nat, j: nat)
    requires forall k :: 0 <= k < |s| ==> f(s[k]) <= g(s[k])
    ensures Sum(s, f, b) <= Sum(s, g, b)
    ensures i < |s| ==> g(s[i]) - f(s[i]) <= Sum(s, g, b) - Sum(s, f, b)
    ensures i < j < |s| ==> g(s[i]) - f(s[i]) + g(s[j]) - f(s[j]) <= Sum(s, g, b) - Sum(s, f, b)
  {
    if s != [] {
      SumGap(s[1..], f, g, b, if i == 0 then |s| else i - 1, if j == 0 then |s| else j - 1);
      SumGap(s[1..], f, g, b, if j == 0 then |s| else j - 1, |s|);
    }
  }

  /** A positive difference of sums is witnessed at some index. */
  lemma {:induction false} SumWitness<T>(s: seq<T>, f: T -> int, g: T -> int, b: int) returns (i: nat)
    requires Sum(s, f, b) < Sum(s, g, b)
    ensures i < |s| && f(s[i]) < g(s[i])
  {
    if f(s[0]) < g(s[0]) {
      i := 0;
    } else {
      i := SumWitness(s[1..], f, g, b);
      i := i + 1;
    }
  }

  /** A sum below zero is witnessed by a term below the base. */
  lemma {:induction false} SumNegative<T>(s: seq<T>, f: T -> int, b: int) returns (i: nat)
    requires Sum(s, f, b) < 0
    ensures i < |s| && f(s[i]) < b
  {
    if f(s[0]) < b {
      i := 0;
    } else {
      i := SumNegative(s[1..], f, b);
      i := i + 1;
    }
  }
}
