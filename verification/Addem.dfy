/** The parallel sum of 1..maxValue. */
module Addem {
  import opened CollectProtocol
  import opened CollectTheorems

  const INT_MAX := 0x7FFF_FFFF

  /** Division as the program's language does it, towards zero. */
  function Quotient(a: int, n: int): int
    requires 0 < n
  {
    if 0 <= a then a / n else -(-a / n)
  }

  /** What worker i is told to add. */
  function RangeOf(maxValue: int, n: nat, i: int): (int, int)
    requires 0 < n
  {
    var range := Quotient(maxValue, n);
    ((i - 1) * range + 1, if i < n then i * range else maxValue)
  }

  function SumOf(lo: int, hi: int): int
    decreases if lo <= hi then hi - lo + 1 else 0
  {
    if hi < lo then 0 else SumOf(lo, hi - 1) + hi
  }

  function Total(answers: seq<int>): int
  {
    if answers == [] then 0 else Total(answers[..|answers| - 1]) + answers[|answers| - 1]
  }

  // ----- the loops

  /** A worker's loop; held are the values its sum takes. */
  method SumThread(value1: int, value2: int) returns (sum: int, ghost held: seq<int>)
    ensures sum == SumOf(value1, value2)
    ensures |held| == 1 + if value1 <= value2 then value2 - value1 + 1 else 0
    ensures forall k | 0 <= k < |held| :: held[k] == SumOf(value1, value1 - 1 + k)
  {
    sum := 0;
    held := [sum];
    var value := value1;
    while value <= value2
      invariant value1 <= value
      invariant value <= value2 + 1 || value == value1
      invariant sum == SumOf(value1, value - 1)
      invariant |held| == 1 + value - value1
      invariant forall k | 0 <= k < |held| :: held[k] == SumOf(value1, value1 - 1 + k)
      decreases value2 - value
    {
      sum := sum + value;
      held := held + [sum];
      value := value + 1;
    }
  }

  /** The parent's loop over the answers it receives; held are the values its
      sum takes. */
  method FullSum(answers: seq<int>) returns (fullSum: int, ghost held: seq<int>)
    ensures fullSum == Total(answers)
    ensures |held| == 1 + |answers|
    ensures forall k | 0 <= k < |held| :: held[k] == Total(answers[..k])
  {
    fullSum := 0;
    held := [fullSum];
    var i := 0;
    while i < |answers|
      invariant 0 <= i <= |answers| && fullSum == Total(answers[..i])
      invariant |held| == 1 + i
      invariant forall k | 0 <= k < |held| :: held[k] == Total(answers[..k])
    {
      assert answers[..i + 1][..i] == answers[..i];
      fullSum := fullSum + answers[i];
      held := held + [fullSum];
      i := i + 1;
    }
    assert answers[..|answers|] == answers;
  }

  // ----- any order of arrival

  function SumTo(f: int -> int, n: nat): int
  {
    if n == 0 then 0 else SumTo(f, n - 1) + f(n)
  }

  function SumAt(f: int -> int, ids: seq<int>): int
  {
    if ids == [] then 0 else SumAt(f, ids[..|ids| - 1]) + f(ids[|ids| - 1])
  }

  lemma {:induction false} SumWithout(f: int -> int, ids: seq<int>, k: nat)
    requires k < |ids|
    ensures SumAt(f, ids) == SumAt(f, ids[..k] + ids[k + 1..]) + f(ids[k])
  {
    var rest := ids[..k] + ids[k + 1..];
    if k == |ids| - 1 {
      assert rest == ids[..k];
    } else {
      var front := ids[..|ids| - 1];
      SumWithout(f, front, k);
      assert rest[..|rest| - 1] == front[..k] + front[k + 1..];
    }
  }

  lemma FirstInRange(ids: seq<int>, n: int)
    requires ids != [] && forall k | 0 <= k < |ids| :: 1 <= ids[k] <= n
    ensures 1 <= n
  {
    assert 1 <= ids[0] <= n;
  }

  lemma {:induction false} Pigeonhole(ids: seq<int>, n: nat)
    requires Distinct(ids) && forall k | 0 <= k < |ids| :: 1 <= ids[k] <= n
    ensures |ids| <= n
  {
    if n == 0 {
      if ids != [] { FirstInRange(ids, n); }
    } else if k :| 0 <= k < |ids| && ids[k] == n {
      Pigeonhole(ids[..k] + ids[k + 1..], n - 1);
    } else {
      Pigeonhole(ids, n - 1);
    }
  }

  lemma Remaining(ids: seq<int>, k: nat, n: nat)
    requires Distinct(ids) && k < |ids| && ids[k] == n && forall j | 0 <= j < |ids| :: 1 <= ids[j] <= n
    ensures var rest := ids[..k] + ids[k + 1..];
            Distinct(rest) && |rest| == |ids| - 1 && forall j | 0 <= j < |rest| :: 1 <= rest[j] <= n - 1
  {
    var rest := ids[..k] + ids[k + 1..];
    forall j | 0 <= j < |rest| ensures rest[j] == ids[if j < k then j else j + 1] {}
  }

  /** A sum over all of 1..n in any order. */
  lemma {:induction false} SumAnyOrder(f: int -> int, ids: seq<int>, n: nat)
    requires Distinct(ids) && |ids| == n && forall k | 0 <= k < n :: 1 <= ids[k] <= n
    ensures SumAt(f, ids) == SumTo(f, n)
  {
    if n > 0 {
      if forall k | 0 <= k < n :: ids[k] != n { Pigeonhole(ids, n - 1); }
      var k :| 0 <= k < n && ids[k] == n;
      SumWithout(f, ids, k);
      Remaining(ids, k, n);
      SumAnyOrder(f, ids[..k] + ids[k + 1..], n - 1);
    }
  }

  // ----- the ranges add up

  lemma {:induction false} SumSplit(lo: int, mid: int, hi: int)
    requires lo <= mid + 1 && mid <= hi
    ensures SumOf(lo, hi) == SumOf(lo, mid) + SumOf(mid + 1, hi)
    decreases hi - mid
  {
    if mid < hi {
      SumSplit(lo, mid, hi - 1);
    }
  }

  lemma {:induction false} Gauss(n: nat)
    ensures 2 * SumOf(1, n) == n * (n + 1)
  {
    if n > 0 {
      Gauss(n - 1);
    }
  }

  function PartSum(maxValue: int, n: nat): int -> int
    requires 0 < n
  {
    i => SumOf(RangeOf(maxValue, n, i).0, RangeOf(maxValue, n, i).1)
  }

  lemma DivMod(a: nat, n: nat)
    requires 0 < n
    ensures a == n * (a / n) + a % n && 0 <= a % n < n
  {
  }

  lemma OneLess(n: int, q: int)
    ensures (n - 1) * q == n * q - q
  {
  }

  lemma Negated(n: int, q: int)
    ensures n * -q == -(n * q)
  {
  }

  lemma Product(a: int, b: int)
    requires 0 <= a && 0 <= b
    ensures 0 <= a * b
  {
  }

  lemma QuotientOfNat(maxValue: nat, n: nat)
    requires 0 < n
    ensures var q := Quotient(maxValue, n);
            0 <= q && 0 <= (n - 1) * q <= n * q <= maxValue
  {
    var q := Quotient(maxValue, n);
    DivMod(maxValue, n);
    OneLess(n, q);
    Product(n - 1, q);
  }

  /** The quotient is cut towards zero. */
  lemma QuotientTruncates(a: int, n: nat)
    requires 0 < n
    ensures var q := Quotient(a, n);
            if 0 <= a then n * q <= a < n * q + n else n * q - n < a <= n * q
  {
    if 0 <= a {
      DivMod(a, n);
    } else {
      DivMod(-a, n);
      Negated(n, Quotient(-a, n));
    }
  }

  lemma QuotientBounds(maxValue: int, n: nat)
    requires 0 < n
    ensures var q := Quotient(maxValue, n);
            if 0 <= maxValue then 0 <= q && 0 <= (n - 1) * q <= maxValue
            else q <= 0 && maxValue <= n * q <= (n - 1) * q <= 0
  {
    if 0 <= maxValue {
      QuotientOfNat(maxValue, n);
    } else {
      var q := Quotient(-maxValue, n);
      QuotientOfNat(-maxValue, n);
      Negated(n, q);
      Negated(n - 1, q);
    }
  }

  lemma {:induction false} PartsAddUp(maxValue: nat, n: nat, k: nat)
    requires 0 < n && k < n
    ensures SumTo(PartSum(maxValue, n), k) == SumOf(1, k * Quotient(maxValue, n))
    ensures 0 <= k * Quotient(maxValue, n)
  {
    var q := Quotient(maxValue, n);
    QuotientBounds(maxValue, n);
    Product(k, q);
    if k > 0 {
      PartsAddUp(maxValue, n, k - 1);
      assert k * q == (k - 1) * q + q;
      SumSplit(1, (k - 1) * q, k * q);
    }
  }

  lemma {:induction false} NegativePartsEmpty(maxValue: int, n: nat, k: nat)
    requires maxValue < 0 < n && k <= n
    ensures SumTo(PartSum(maxValue, n), k) == 0
  {
    if k > 0 {
      NegativePartsEmpty(maxValue, n, k - 1);
      QuotientBounds(maxValue, n);
      var q := Quotient(maxValue, n);
      assert k * q == (k - 1) * q + q;
    }
  }

  /** The parts together hold every number once, for every maximum and number of
      threads; below 0 they are all empty. */
  lemma AllParts(maxValue: int, n: nat)
    requires 0 < n
    ensures 2 * SumTo(PartSum(maxValue, n), n) == if maxValue < 0 then 0 else maxValue * (maxValue + 1)
  {
    if maxValue < 0 {
      NegativePartsEmpty(maxValue, n, n);
    } else {
      var q := Quotient(maxValue, n);
      PartsAddUp(maxValue, n, n - 1);
      QuotientBounds(maxValue, n);
      SumSplit(1, (n - 1) * q, maxValue);
      Gauss(maxValue);
    }
  }

  // ----- the program

  function Program(maxValue: int, n: nat): Config<int>
    requires 0 < n
  {
    Config(n, true, i => RangeOf(maxValue, n, i), (lo, hi) => SumOf(lo, hi))
  }

  lemma {:induction false} TotalIsSumAt(f: int -> int, answers: seq<int>, ids: seq<int>)
    requires |answers| == |ids| && forall k | 0 <= k < |ids| :: answers[k] == f(ids[k])
    ensures Total(answers) == SumAt(f, ids)
  {
    if ids != [] {
      TotalIsSumAt(f, answers[..|answers| - 1], ids[..|ids| - 1]);
    }
  }

  /** For every interleaving, and so every order in which the answers arrive, the
      parent has collected maxValue * (maxValue + 1) / 2 when it starts joining. */
  lemma CollectsTheSum(maxValue: int, n: nat, s: State<int>)
    requires 0 < n && Reachable(Program(maxValue, n), s) && (s.pc.Join? || s.pc.Finished?)
    ensures 2 * Total(s.collected) == if maxValue < 0 then 0 else maxValue * (maxValue + 1)
  {
    var c := Program(maxValue, n);
    SharedBoxOnce(c, s);
    var f := PartSum(maxValue, n);
    forall k | 0 <= k < n ensures s.collected[k] == f(s.deposited[k]) {
      assert s.collected[k] == Answer(c, s.deposited[k]);
    }
    TotalIsSumAt(f, s.collected, s.deposited);
    SumAnyOrder(f, s.deposited, n);
    AllParts(maxValue, n);
  }

  // ----- 32-bit arithmetic

  lemma {:induction false} SumGrows(lo: int, mid: int, hi: int)
    requires 1 <= lo && mid <= hi
    ensures 0 <= SumOf(lo, mid) <= SumOf(lo, hi)
    decreases hi - mid, if lo <= mid then mid - lo + 1 else 0
  {
    if mid < hi {
      SumGrows(lo, mid, hi - 1);
    } else if lo <= mid {
      SumGrows(lo, mid - 1, mid - 1);
    }
  }

  predicate Workers(ids: seq<int>, n: nat)
  {
    Distinct(ids) && forall k | 0 <= k < |ids| :: 1 <= ids[k] <= n
  }

  /** A sum a thread or the parent holds on the way: of a front part of worker
      i's range, or of the answers of some workers in any order. */
  ghost predicate Partial(maxValue: int, n: nat, sum: int)
    requires 0 < n
  {
    (exists i, mid :: FrontOf(maxValue, n, i, mid) && sum == SumOf(RangeOf(maxValue, n, i).0, mid))
    || (exists ids :: Workers(ids, n) && sum == SumAt(PartSum(maxValue, n), ids))
  }

  predicate FrontOf(maxValue: int, n: nat, i: int, mid: int)
    requires 0 < n
  {
    1 <= i <= n && mid <= RangeOf(maxValue, n, i).1
  }

  // Every sum the program holds is one of these.

  /** A worker's, in its loop over its range. */
  lemma WorkerHolds(maxValue: int, n: nat, i: int, held: seq<int>)
    requires 0 < n && 1 <= i <= n
    requires var (value1, value2) := RangeOf(maxValue, n, i);
             |held| == (1 + if value1 <= value2 then value2 - value1 + 1 else 0)
             && forall k | 0 <= k < |held| :: held[k] == SumOf(value1, value1 - 1 + k)
    ensures forall k | 0 <= k < |held| :: Partial(maxValue, n, held[k])
  {
    var (value1, value2) := RangeOf(maxValue, n, i);
    forall k | 0 <= k < |held| ensures Partial(maxValue, n, held[k]) {
      if value1 - 1 + k <= value2 {
        assert FrontOf(maxValue, n, i, value1 - 1 + k);
      } else {
        assert Workers([], n) && SumAt(PartSum(maxValue, n), []) == 0;
      }
    }
  }

  /** The parent's, in every state of every run. */
  lemma ParentHolds(maxValue: int, n: nat, s: State<int>)
    requires 0 < n && Reachable(Program(maxValue, n), s)
    ensures Partial(maxValue, n, Total(s.collected))
  {
    var c := Program(maxValue, n);
    ReachableInv(c, s);
    var ids := s.deposited[..|s.collected|];
    var f := PartSum(maxValue, n);
    forall k | 0 <= k < |ids| ensures s.collected[k] == f(ids[k]) {
      assert s.collected[k] == Answer(c, Order(c, s, k));
    }
    TotalIsSumAt(f, s.collected, ids);
    assert Workers(ids, n);
  }

  lemma PartsNotNegative(maxValue: nat, n: nat, i: int)
    requires 0 < n && 1 <= i <= n
    ensures 1 <= RangeOf(maxValue, n, i).0 && 0 <= PartSum(maxValue, n)(i)
  {
    QuotientOfNat(maxValue, n);
    Product(i - 1, Quotient(maxValue, n));
    SumGrows(RangeOf(maxValue, n, i).0, RangeOf(maxValue, n, i).1, RangeOf(maxValue, n, i).1);
  }

  /** Some of the workers add up to at most what all do. */
  lemma {:induction false} SomeOfAll(f: int -> int, ids: seq<int>, n: nat)
    requires Workers(ids, n) && forall i | 1 <= i <= n :: 0 <= f(i)
    ensures 0 <= SumAt(f, ids) <= SumTo(f, n)
  {
    if n == 0 {
      if ids != [] { FirstInRange(ids, n); }
    } else if k :| 0 <= k < |ids| && ids[k] == n {
      SumWithout(f, ids, k);
      SomeOfAll(f, ids[..k] + ids[k + 1..], n - 1);
    } else {
      SomeOfAll(f, ids, n - 1);
    }
  }

  lemma WorkerBound(maxValue: nat, n: nat, i: int, mid: int)
    requires 0 < n && FrontOf(maxValue, n, i, mid)
    ensures 0 <= SumOf(RangeOf(maxValue, n, i).0, mid) <= SumTo(PartSum(maxValue, n), n)
  {
    var f := PartSum(maxValue, n);
    PartsNotNegative(maxValue, n, i);
    SumGrows(RangeOf(maxValue, n, i).0, mid, RangeOf(maxValue, n, i).1);
    forall j | 1 <= j <= n ensures 0 <= f(j) { PartsNotNegative(maxValue, n, j); }
    SomeOfAll(f, [i], n);
    assert [i][..0] == [] && SumAt(f, [i]) == f(i);
  }

  lemma PartialBound(maxValue: nat, n: nat, sum: int)
    requires 0 < n && Partial(maxValue, n, sum)
    ensures 0 <= sum <= SumTo(PartSum(maxValue, n), n)
  {
    var f := PartSum(maxValue, n);
    if i, mid :| FrontOf(maxValue, n, i, mid) && sum == SumOf(RangeOf(maxValue, n, i).0, mid) {
      WorkerBound(maxValue, n, i, mid);
    } else {
      var ids :| Workers(ids, n) && sum == SumAt(f, ids);
      forall j | 1 <= j <= n ensures 0 <= f(j) { PartsNotNegative(maxValue, n, j); }
      SomeOfAll(f, ids, n);
    }
  }

  /** Below 0 all ranges are empty. */
  lemma NegativeRange(maxValue: int, n: nat, i: int)
    requires maxValue < 0 < n && 1 <= i <= n
    ensures RangeOf(maxValue, n, i).1 < RangeOf(maxValue, n, i).0
  {
    QuotientBounds(maxValue, n);
    OneLess(i, Quotient(maxValue, n));
  }

  lemma {:induction false} NothingToAdd(f: int -> int, ids: seq<int>)
    requires forall k | 0 <= k < |ids| :: f(ids[k]) == 0
    ensures SumAt(f, ids) == 0
  {
    if ids != [] {
      NothingToAdd(f, ids[..|ids| - 1]);
    }
  }

  lemma NegativePartial(maxValue: int, n: nat, sum: int)
    requires maxValue < 0 < n && Partial(maxValue, n, sum)
    ensures sum == 0
  {
    var f := PartSum(maxValue, n);
    if i, mid :| FrontOf(maxValue, n, i, mid) && sum == SumOf(RangeOf(maxValue, n, i).0, mid) {
      NegativeRange(maxValue, n, i);
    } else {
      var ids :| Workers(ids, n) && sum == SumAt(f, ids);
      forall k | 0 <= k < |ids| ensures f(ids[k]) == 0 { NegativeRange(maxValue, n, ids[k]); }
      NothingToAdd(f, ids);
    }
  }

  lemma SquareBound(m: nat)
    ensures m <= 65535 <==> m * (m + 1) <= 2 * INT_MAX
  {
    if m <= 65535 {
      Product(65535 - m, m + 1);
      assert (65535 - m) * (m + 1) == 65535 * (m + 1) - m * (m + 1);
    } else {
      Product(m - 65536, m + 1);
      assert (m - 65536) * (m + 1) == m * (m + 1) - 65536 * (m + 1);
    }
  }

  /** The whole total is one of the sums held. */
  lemma TotalIsPartial(maxValue: int, n: nat)
    requires 0 < n
    ensures Partial(maxValue, n, SumTo(PartSum(maxValue, n), n))
  {
    var ids := seq(n, k => k + 1);
    SumAnyOrder(PartSum(maxValue, n), ids, n);
    assert Workers(ids, n);
  }

  /** No sum on the way leaves a 32-bit int, for any order of arrival, exactly
      when the maximum is at most 65535. */
  lemma FitsIntIff(maxValue: int, n: nat)
    requires 0 < n
    ensures (forall sum :: Partial(maxValue, n, sum) ==> 0 <= sum <= INT_MAX) <==> maxValue <= 65535
  {
    if maxValue < 0 {
      forall sum | Partial(maxValue, n, sum) ensures sum == 0 { NegativePartial(maxValue, n, sum); }
    } else {
      SquareBound(maxValue);
      AllParts(maxValue, n);
      TotalIsPartial(maxValue, n);
      forall sum | Partial(maxValue, n, sum) ensures 0 <= sum <= SumTo(PartSum(maxValue, n), n) {
        PartialBound(maxValue, n, sum);
      }
    }
  }

  /** So with a maximum of at most 65535 no value of fullSum in any run leaves it. */
  lemma FullSumFits(maxValue: int, n: nat, s: State<int>)
    requires 0 < n && maxValue <= 65535 && Reachable(Program(maxValue, n), s)
    ensures 0 <= Total(s.collected) <= INT_MAX
  {
    ParentHolds(maxValue, n, s);
    FitsIntIff(maxValue, n);
  }
}
