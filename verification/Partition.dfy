/** The quotient-range split all three threaded programs use: n - 1 parts of
    total / n items each, and a last part that takes the rest. */
module Partition {

  /** First item of part i (parts are numbered from 1, like the threads). */
  function Lo(total: nat, n: nat, i: int): int
    requires 1 <= n
  {
    (i - 1) * (total / n)
  }

  /** Last item of part i. */
  function Hi(total: nat, n: nat, i: int): int
    requires 1 <= n
  {
    if i < n then i * (total / n) - 1 else total - 1
  }

  predicate InPart(total: nat, n: nat, i: int, x: int)
    requires 1 <= n
  {
    Lo(total, n, i) <= x <= Hi(total, n, i)
  }

  lemma QuotientFits(total: nat, n: nat)
    requires 1 <= n
    ensures 0 <= total / n
    ensures (n - 1) * (total / n) <= n * (total / n) <= total < n * (total / n) + n
  {
    assert total == n * (total / n) + total % n;
    assert n * (total / n) == (n - 1) * (total / n) + total / n;
  }

  lemma Monotone(a: int, b: int, q: int)
    requires a <= b && 0 <= q
    ensures a * q <= b * q
  {
    assert b * q - a * q == (b - a) * q;
  }

  /** Ascending order: consecutive parts touch, the first starts at 0, the last
      ends at total - 1, and every part lies within the items. */
  lemma PartsTouch(total: nat, n: nat, i: int)
    requires 1 <= n && 1 <= i <= n
    ensures Lo(total, n, 1) == 0 && Hi(total, n, n) == total - 1
    ensures i < n ==> Hi(total, n, i) + 1 == Lo(total, n, i + 1)
    ensures 0 <= Lo(total, n, i) <= Hi(total, n, i) + 1 <= total
  {
    QuotientFits(total, n);
    Monotone(0, i - 1, total / n);
    Monotone(i - 1, n - 1, total / n);
    if i < n {
      Monotone(i, n, total / n);
      assert i * (total / n) == (i - 1) * (total / n) + total / n;
    }
  }

  /** All parts but the last have the quotient's size, and the last one has the
      remainder on top. */
  lemma PartSizes(total: nat, n: nat, i: int)
    requires 1 <= n && 1 <= i <= n
    ensures Hi(total, n, i) + 1 - Lo(total, n, i) == total / n + (if i < n then 0 else total % n)
  {
    QuotientFits(total, n);
    assert total == n * (total / n) + total % n;
    assert n * (total / n) == (n - 1) * (total / n) + total / n;
    assert i * (total / n) == (i - 1) * (total / n) + total / n;
  }

  /** A part is empty exactly when there are fewer items than parts and it is
      not the last part, or there are no items at all. */
  lemma PartEmptyIff(total: nat, n: nat, i: int)
    requires 1 <= n && 1 <= i <= n
    ensures Hi(total, n, i) < Lo(total, n, i) <==> (total < n && i < n) || total == 0
  {
    QuotientFits(total, n);
    if i < n {
      assert i * (total / n) == (i - 1) * (total / n) + total / n;
      if total < n { assert total / n == 0; }
      if n <= total { QuotientPositive(total, n); }
    } else if total < n {
      assert total / n == 0;
    }
  }

  lemma QuotientPositive(total: nat, n: nat)
    requires 1 <= n <= total
    ensures 1 <= total / n
  {
    QuotientFits(total, n);
    var q := total / n;
    assert q == 0 ==> n * q == 0;
  }

  /** No item is in two parts. */
  lemma PartsDisjoint(total: nat, n: nat, i: int, j: int, x: int)
    requires 1 <= n && 1 <= i <= n && 1 <= j <= n
    requires InPart(total, n, i, x) && InPart(total, n, j, x)
    ensures i == j
  {
    QuotientFits(total, n);
    if i < j {
      Monotone(i, j - 1, total / n);
    } else if j < i {
      Monotone(j, i - 1, total / n);
    }
  }

  /** Every item is in some part. */
  lemma {:induction false} PartsCover(total: nat, n: nat, x: int, upTo: int) returns (i: int)
    requires 1 <= n && 1 <= upTo <= n && 0 <= x <= Hi(total, n, upTo)
    ensures 1 <= i <= upTo && InPart(total, n, i, x)
    decreases upTo
  {
    if Lo(total, n, upTo) <= x {
      i := upTo;
    } else {
      PartsTouch(total, n, 1);
      PartsTouch(total, n, upTo - 1);
      i := PartsCover(total, n, x, upTo - 1);
    }
  }
}
