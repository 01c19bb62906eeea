/** The part of IEEE 754 binary64 arithmetic that `formatPrice` goes through: a
    non-negative real rounded to the nearest double, ties to even. The largest double is
    far above any 64-bit amount, so overflow to infinity has no place here. */
module Binary64 {
  /** Significands are below 2^53. */
  const SIGNIFICAND := 9007199254740992

  const MIN_EXPONENT := -1074

  /** x times 2^e. */
  function Shift(x: real, e: int): real
    decreases if e < 0 then -e else e
  {
    if e == 0 then x
    else if e > 0 then 2.0 * Shift(x, e - 1)
    else Shift(x, e + 1) / 2.0
  }

  lemma ShiftDoubles(x: real, e: int)
    ensures Shift(x, e + 1) == 2.0 * Shift(x, e)
  {
  }

  lemma {:induction false} ShiftKeepsOrder(x: real, y: real, e: int)
    requires x <= y
    ensures Shift(x, e) <= Shift(y, e)
    ensures x < y ==> Shift(x, e) < Shift(y, e)
    decreases if e < 0 then -e else e
  {
    if e > 0 {
      ShiftKeepsOrder(x, y, e - 1);
    } else if e < 0 {
      ShiftKeepsOrder(x, y, e + 1);
    }
  }

  lemma {:induction false} ShiftZero(e: int)
    ensures Shift(0.0, e) == 0.0
    decreases if e < 0 then -e else e
  {
    if e > 0 {
      ShiftZero(e - 1);
    } else if e < 0 {
      ShiftZero(e + 1);
    }
  }

  lemma {:induction false} ShiftOut(x: real, e: int)
    ensures Shift(2.0 * x, e) == 2.0 * Shift(x, e)
    decreases if e < 0 then -e else e
  {
    if e > 0 {
      ShiftOut(x, e - 1);
    } else if e < 0 {
      ShiftOut(x, e + 1);
    }
  }

  lemma {:induction false} ShiftBack(x: real, e: int)
    ensures Shift(Shift(x, -e), e) == x
    decreases if e < 0 then -e else e
  {
    if e > 0 {
      ShiftDoubles(x, -e);
      ShiftOut(Shift(x, -e), e - 1);
      ShiftBack(x, e - 1);
    } else if e < 0 {
      ShiftDoubles(x, -e - 1);
      ShiftOut(Shift(x, -e - 1), e);
      ShiftDoubles(Shift(x, -e - 1), e);
      ShiftBack(x, e + 1);
    }
  }

  lemma {:induction false} ShiftGrows(x: real, e: int, f: int)
    requires x >= 0.0 && e <= f
    ensures Shift(x, e) <= Shift(x, f)
    decreases f - e
  {
    if e < f {
      ShiftDoubles(x, f - 1);
      ShiftGrows(x, e, f - 1);
      ShiftZero(e);
      ShiftKeepsOrder(0.0, x, e);
    }
  }

  /** A multiple of 2^f is a multiple of every smaller power. */
  lemma {:induction false} MultiplesNest(m: nat, e: int, f: int) returns (n: nat)
    requires e <= f
    ensures Shift(m as real, f) == Shift(n as real, e)
    decreases f - e
  {
    if e == f {
      n := m;
    } else {
      ShiftDoubles(m as real, f - 1);
      ShiftOut(m as real, f - 1);
      assert (2 * m) as real == 2.0 * m as real;
      n := MultiplesNest(2 * m, e, f - 1);
    }
  }

  /** A finite non-negative double. */
  predicate IsDouble(x: real, m: nat, e: int) {
    m < SIGNIFICAND && e >= MIN_EXPONENT && x == Shift(m as real, e)
  }

  ghost predicate Representable(x: real) {
    exists m: nat, e: int :: IsDouble(x, m, e)
  }

  /** The least exponent whose significands reach past q. */
  function Exponent(q: real): (e: int)
    requires q >= 0.0
    ensures e >= MIN_EXPONENT && q < Shift(SIGNIFICAND as real, e)
    ensures e == MIN_EXPONENT || Shift(SIGNIFICAND as real, e - 1) <= q
  {
    ExponentFrom(q, MIN_EXPONENT)
  }

  function ExponentFrom(q: real, e: int): (f: int)
    requires q >= 0.0 && e >= MIN_EXPONENT
    requires e == MIN_EXPONENT || Shift(SIGNIFICAND as real, e - 1) <= q
    ensures f >= MIN_EXPONENT && q < Shift(SIGNIFICAND as real, f)
    ensures f == MIN_EXPONENT || Shift(SIGNIFICAND as real, f - 1) <= q
    decreases q.Floor + 1 - e
  {
    if q < Shift(SIGNIFICAND as real, e) then e
    else
      assert e <= q.Floor by { if e >= 0 { ShiftExceedsExponent(e); } }
      ExponentFrom(q, e + 1)
  }

  lemma {:induction false} ShiftExceedsExponent(e: nat)
    ensures Shift(SIGNIFICAND as real, e) >= e as real + 1.0
  {
    if e == 0 {
    } else {
      ShiftExceedsExponent(e - 1);
    }
  }

  /** The bracket determines the exponent. */
  lemma ExponentIs(q: real, e: int)
    requires q >= 0.0 && e > MIN_EXPONENT
    requires Shift(SIGNIFICAND as real, e - 1) <= q < Shift(SIGNIFICAND as real, e)
    ensures Exponent(q) == e
  {
    var f := Exponent(q);
    if f < e {
      ShiftGrows(SIGNIFICAND as real, f, e - 1);
    } else if f > e {
      ShiftGrows(SIGNIFICAND as real, e, f - 1);
    }
  }

  /** The nearest integer; a tie goes to the even neighbour. */
  function RoundHalfEven(y: real): (n: int)
    ensures -0.5 <= n as real - y <= 0.5
    ensures n as real - y == 0.5 || y - n as real == 0.5 ==> n % 2 == 0
  {
    var below := y.Floor;
    var excess := y - below as real;
    if excess < 0.5 then below
    else if excess > 0.5 then below + 1
    else if below % 2 == 0 then below else below + 1
  }

  /** q as a double. */
  function Double(q: real): (x: real)
    requires q >= 0.0
    ensures x >= 0.0
  {
    var e := Exponent(q);
    ShiftKeepsSign(q, -e);
    ShiftKeepsSign(RoundHalfEven(Shift(q, -e)) as real, e);
    Shift(RoundHalfEven(Shift(q, -e)) as real, e)
  }

  lemma ShiftKeepsSign(x: real, e: int)
    requires x >= 0.0
    ensures Shift(x, e) >= 0.0
  {
    ShiftZero(e);
    ShiftKeepsOrder(0.0, x, e);
  }

  function Distance(x: real, y: real): real {
    if x < y then y - x else x - y
  }

  lemma {:induction false} ShiftScalesDistance(x: real, y: real, e: int)
    ensures Distance(Shift(x, e), Shift(y, e)) == Shift(Distance(x, y), e)
    decreases if e < 0 then -e else e
  {
    if e > 0 {
      ShiftScalesDistance(x, y, e - 1);
    } else if e < 0 {
      ShiftScalesDistance(x, y, e + 1);
    }
  }

  lemma NearestInteger(y: real, n: int)
    ensures Distance(RoundHalfEven(y) as real, y) <= 0.5
    ensures Distance(RoundHalfEven(y) as real, y) <= Distance(n as real, y)
  {
    var m := RoundHalfEven(y);
    if n < m {
      assert n as real <= m as real - 1.0;
    } else if n > m {
      assert n as real >= m as real + 1.0;
    }
  }

  /** Rounding moves q by at most half of 2^e, and no multiple of 2^e is nearer. */
  lemma NearestMultiple(q: real, n: int)
    requires q >= 0.0
    ensures Distance(Double(q), q) <= Shift(0.5, Exponent(q))
    ensures Distance(Double(q), q) <= Distance(Shift(n as real, Exponent(q)), q)
  {
    var e := Exponent(q);
    var y := Shift(q, -e);
    NearestInteger(y, n);
    ShiftBack(q, e);
    NearerStaysNearer(RoundHalfEven(y) as real, n as real, y, e);
  }

  lemma NearerStaysNearer(m: real, n: real, y: real, e: int)
    requires Distance(m, y) <= 0.5 && Distance(m, y) <= Distance(n, y)
    ensures Distance(Shift(m, e), Shift(y, e)) <= Shift(0.5, e)
    ensures Distance(Shift(m, e), Shift(y, e)) <= Distance(Shift(n, e), Shift(y, e))
  {
    ShiftScalesDistance(m, y, e);
    ShiftScalesDistance(n, y, e);
    ShiftKeepsOrder(Distance(m, y), Distance(n, y), e);
    ShiftKeepsOrder(Distance(m, y), 0.5, e);
  }

  /** The result is a double, even when rounding carries into the next exponent. */
  lemma DoubleIsRepresentable(q: real)
    requires q >= 0.0
    ensures Representable(Double(q))
  {
    var e := Exponent(q);
    var y := Shift(q, -e);
    ShiftBack(q, e);
    ShiftZero(e);
    if y < 0.0 {
      ShiftKeepsOrder(y, 0.0, e);
    }
    if y >= SIGNIFICAND as real {
      ShiftKeepsOrder(SIGNIFICAND as real, y, e);
    }
    var m := RoundHalfEven(y);
    if m < SIGNIFICAND {
      assert IsDouble(Double(q), m, e);
    } else {
      ShiftDoubles((SIGNIFICAND / 2) as real, e);
      ShiftOut((SIGNIFICAND / 2) as real, e);
      assert IsDouble(Double(q), SIGNIFICAND / 2, e + 1);
    }
  }

  /** No double is nearer to q than Double(q). */
  lemma DoubleIsNearest(q: real, x: real, m: nat, f: int)
    requires q >= 0.0 && IsDouble(x, m, f)
    ensures Distance(Double(q), q) <= Distance(x, q)
  {
    var e := Exponent(q);
    if f >= e {
      var n := MultiplesNest(m, e, f);
      NearestMultiple(q, n);
    } else {
      ShiftGrows(m as real, f, e - 1);
      ShiftKeepsOrder(m as real, SIGNIFICAND as real, e - 1);
      ShiftDoubles((SIGNIFICAND / 2) as real, e - 1);
      ShiftOut((SIGNIFICAND / 2) as real, e - 1);
      NearestMultiple(q, SIGNIFICAND / 2);
    }
  }

  /** Whole numbers below 2^53 are doubles already. */
  lemma SmallIntegersAreExact(n: nat)
    requires n < SIGNIFICAND
    ensures Double(n as real) == n as real
  {
    DoubleIsNearest(n as real, n as real, n, 0);
  }
}
