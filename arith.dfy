/** Small facts about Euclidean division that the models' index arithmetic needs. */
module Arith {

  lemma MulAtLeast(d: int, n: int)
    requires d >= 1 && n > 0
    ensures d * n >= n
  {
    var e := d - 1;
    assert d * n == e * n + n;
  }

  /** Quotient and remainder are unique. */
  lemma DivModUnique(a: int, q: int, r: int, n: int)
    requires n > 0 && a == q * n + r && 0 <= r < n
    ensures a / n == q && a % n == r
  {
    var q', r' := a / n, a % n;
    assert a == q' * n + r';
    var d := q - q';
    assert d * n == r' - r by {
      assert q * n - q' * n == (q - q') * n;
    }
    if d >= 1 { MulAtLeast(d, n); }
    else if d <= -1 { MulAtLeast(-d, n); }
  }

  /** A chunk limit rounded down to whole units, but never below one unit. */
  function UnitChunk(limit: nat, unit: nat): (c: nat)
    requires unit > 0
    ensures c > 0 && c % unit == 0
    ensures unit <= limit ==> c <= limit && c == (limit / unit) * unit
  {
    var n := if limit / unit < 1 then 1 else limit / unit;
    DivModUnique(n * unit, n, 0, unit);
    n * unit
  }

  /** The difference of two multiples of n is a multiple of n. */
  lemma SubMultiple(a: int, b: int, n: int)
    requires n > 0 && a % n == 0 && b % n == 0
    ensures (a - b) % n == 0
  {
    var qa, qb := a / n, b / n;
    assert a - b == (qa - qb) * n;
    DivModUnique(a - b, qa - qb, 0, n);
  }

  /** Rounding down to a multiple of n loses exactly the remainder. */
  lemma RoundDown(a: nat, n: nat)
    requires n > 0
    ensures 0 <= (a / n) * n <= a && a - (a / n) * n == a % n
    ensures ((a / n) * n) % n == 0
  {
    DivModUnique((a / n) * n, a / n, 0, n);
  }
}
