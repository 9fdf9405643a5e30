/** What "round half away from zero" means, independent of any formula that computes it.
    Decimal's ROUND_HALF_UP and PostgreSQL's round(numeric, n) both promise this. */
module Rounding {
  function Abs(x: int): nat { if x < 0 then -x else x }

  /** r is num/den rounded to the nearest whole number, ties away from zero. */
  predicate RoundsHalfAway(num: int, den: int, r: int)
    requires den > 0
  {
    && 2 * Abs(num - r * den) <= den
    && (2 * Abs(num - r * den) == den ==> Abs(r) * den >= Abs(num))
  }

  lemma Distribute(a: int, b: int, c: int)
    ensures (a - b) * c == a * c - b * c
  {
  }

  lemma ProductNonnegative(a: nat, b: nat)
    ensures a * b >= 0
  {
  }

  lemma MultiplesApart(den: int, r: int, q: int)
    requires den > 0 && r < q
    ensures q * den >= r * den + den
    ensures q > r + 1 ==> q * den >= r * den + 2 * den
  {
    Distribute(q, r + 1, den);
    Distribute(r + 1, r, den);
    ProductNonnegative(q - r - 1, den);
    if q > r + 1 {
      Distribute(q, r + 2, den);
      Distribute(r + 2, r, den);
      ProductNonnegative(q - r - 2, den);
    }
  }

  lemma AbsTimes(r: int, den: int)
    requires den > 0
    ensures Abs(r) * den == if r >= 0 then r * den else -(r * den)
    ensures r >= 0 ==> r * den >= 0
    ensures r < 0 ==> r * den <= -den
  {
    if r < 0 {
      Distribute(0, r, den);
      MultiplesApart(den, r, 0);
    } else {
      ProductNonnegative(r, den);
    }
  }

  lemma NotBoth(num: int, den: int, r: int, q: int)
    requires den > 0 && r < q && RoundsHalfAway(num, den, r)
    ensures !RoundsHalfAway(num, den, q)
  {
    MultiplesApart(den, r, q);
    AbsTimes(r, den);
    AbsTimes(q, den);
  }

  /** Only one number meets the relation, so any two formulas that meet it agree. */
  lemma RoundsHalfAwayUnique(num: int, den: int, r: int, q: int)
    requires den > 0 && RoundsHalfAway(num, den, r) && RoundsHalfAway(num, den, q)
    ensures r == q
  {
    if r < q {
      NotBoth(num, den, r, q);
    } else if q < r {
      NotBoth(num, den, q, r);
    }
  }

  /** Adding half the divisor and dividing rounds half away from zero on naturals. */
  lemma AddHalfThenDivide(num: nat, half: nat)
    requires half > 0
    ensures RoundsHalfAway(num, 2 * half, (num + half) / (2 * half))
  {
    var den := 2 * half;
    var r := (num + half) / den;
    assert num + half == r * den + (num + half) % den;
    assert r >= 0;
    assert Abs(r) * den == r * den;
  }
}
