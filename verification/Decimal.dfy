/**
 Decimal rounding over exact reals: round(x, n) with ties to the even neighbour, for a scale of 10^n;
 and int(x), which truncates toward zero.
 */
module Decimal {
  function Abs(x: real): real { if x < 0.0 then -x else x }

  function Min(x: real, y: real): real { if x <= y then x else y }

  function Truncate(x: real): int {
    if x >= 0.0 then x.Floor else -(-x).Floor
  }

  function ToEven(x: real): int {
    var below := x.Floor;
    var rest := x - below as real;
    if rest < 0.5 || (rest == 0.5 && below % 2 == 0) then below else below + 1
  }

  function Round(x: real, scale: real): real
    requires scale > 0.0
  {
    ToEven(x * scale) as real / scale
  }

  predicate OnGrid(x: real, scale: real) {
    x * scale == (x * scale).Floor as real
  }

  lemma ToEvenMonotone(x: real, y: real)
    requires x <= y
    ensures ToEven(x) <= ToEven(y)
  {}

  lemma MulOrder(x: real, y: real, scale: real)
    requires scale > 0.0 && x <= y
    ensures x * scale <= y * scale
  {}

  lemma MulStrict(x: real, y: real, scale: real)
    requires scale > 0.0 && x < y
    ensures x * scale < y * scale
  {}

  lemma DivOrder(x: real, y: real, scale: real)
    requires scale > 0.0 && x <= y
    ensures x / scale <= y / scale
  {}

  lemma Unscale(x: real, scale: real)
    requires scale > 0.0
    ensures x * scale / scale == x && x / scale * scale == x
  {}

  lemma ScaledMonotone(x: real, y: real, scale: real)
    requires scale > 0.0 && x <= y
    ensures ToEven(x * scale) <= ToEven(y * scale)
  {
    MulOrder(x, y, scale);
    ToEvenMonotone(x * scale, y * scale);
  }

  lemma RoundMonotone(x: real, y: real, scale: real)
    requires scale > 0.0 && x <= y
    ensures Round(x, scale) <= Round(y, scale)
  {
    var a, b := ToEven(x * scale), ToEven(y * scale);
    assert a <= b by { ScaledMonotone(x, y, scale); }
    RatioOrder(a, b, scale);
  }

  lemma RatioOrder(m: int, n: int, scale: real)
    requires scale > 0.0 && m <= n
    ensures m as real / scale <= n as real / scale
  {
    DivOrder(m as real, n as real, scale);
  }

  lemma RoundOnGrid(x: real, scale: real)
    requires scale > 0.0 && OnGrid(x, scale)
    ensures Round(x, scale) == x
  {
    Unscale(x, scale);
  }

  /** Rounding moves a value by at most half a unit of the last decimal. */
  lemma RoundNear(x: real, scale: real)
    requires scale > 0.0
    ensures Abs(Round(x, scale) - x) * scale <= 0.5
  {
    Unscale(x, scale);
    Unscale(ToEven(x * scale) as real, scale);
    var r := Round(x, scale);
    assert (r - x) * scale == r * scale - x * scale;
    assert (x - r) * scale == x * scale - r * scale;
  }

  /** n is an integer within a half of y, and the even one of the two where both are as near. */
  predicate Nearest(n: real, y: real) {
    && n == n.Floor as real && Abs(n - y) <= 0.5
    && (Abs(n - y) == 0.5 ==> n.Floor % 2 == 0)
  }

  /** r is x rounded: in units of the last decimal it is the integer nearest to x. */
  predicate Rounds(r: real, x: real, scale: real) { Nearest(r * scale, x * scale) }

  lemma ToEvenNearest(y: real)
    ensures Nearest(ToEven(y) as real, y)
  {}

  lemma NearestOnce(m: int, y: real)
    requires Abs(m as real - y) <= 0.5 && (Abs(m as real - y) == 0.5 ==> m % 2 == 0)
    ensures m == ToEven(y)
  {}

  /** Rounding yields the nearest value on the grid, and no other value is nearest. */
  lemma RoundRounds(x: real, scale: real)
    requires scale > 0.0
    ensures Rounds(Round(x, scale), x, scale)
  {
    var n, r := ToEven(x * scale) as real, Round(x, scale);
    ToEvenNearest(x * scale);
    assert r * scale == n by { Unscale(n, scale); }
    assert Rounds(r, x, scale);
  }

  lemma RoundsOnce(r: real, x: real, scale: real)
    requires scale > 0.0 && Rounds(r, x, scale)
    ensures r == Round(x, scale)
  {
    var n := r * scale;
    NearestOnce(n.Floor, x * scale);
    Unscale(r, scale);
  }

  lemma RoundIsOnGrid(x: real, scale: real)
    requires scale > 0.0
    ensures OnGrid(Round(x, scale), scale)
  {
    var n, r := ToEven(x * scale) as real, Round(x, scale);
    assert r * scale == n by { Unscale(n, scale); }
    assert OnGrid(r, scale);
  }

  /** Where rounding ends above an integer. */
  lemma ToEvenAbove(x: real, n: int)
    requires x > n as real
    ensures ToEven(x) > n <==> x - n as real > 0.5 || (x - n as real == 0.5 && n % 2 != 0)
  {}

  lemma Regroup(x: real, y: real, divisor: real)
    requires divisor > 0.0
    ensures x / divisor * y == x * y / divisor
  {
    Unscale(x, divisor);
    assert x / divisor * y * divisor == x * y;
    Unscale(x / divisor * y, divisor);
  }

  lemma QuotientAbove(x: real, y: real, divisor: real)
    requires divisor > 0.0
    ensures x / divisor > y <==> x > y * divisor
  {
    Unscale(x, divisor);
    if x / divisor > y { MulStrict(y, x / divisor, divisor); } else { MulOrder(x / divisor, y, divisor); }
  }

  lemma RatioAbove(n: int, y: real, scale: real)
    requires scale > 0.0
    ensures n as real / scale > y <==> n as real > y * scale
  {
    QuotientAbove(n as real, y, scale);
  }

  /** x is numerator / divisor up to half a unit of the last decimal, with the quotient multiplied out. */
  predicate IsQuotient(x: real, numerator: real, divisor: real, scale: real) {
    Abs(x * divisor - numerator) * scale <= 0.5 * divisor
  }

  /** A value within half a unit of a quotient q is that quotient, multiplied out. */
  lemma ErrorScales(x: real, q: real, numerator: real, divisor: real, scale: real)
    requires divisor > 0.0 && q * divisor == numerator && Abs(x - q) * scale <= 0.5
    ensures IsQuotient(x, numerator, divisor, scale)
  {
    MulOrder(Abs(x - q) * scale, 0.5, divisor);
    assert x * divisor - numerator == (x - q) * divisor;
    assert Abs((x - q) * divisor) == Abs(x - q) * divisor;
    assert Abs(x - q) * divisor * scale == Abs(x - q) * scale * divisor;
  }

  lemma RoundQuotient(numerator: real, divisor: real, scale: real)
    requires scale > 0.0 && divisor > 0.0
    ensures IsQuotient(Round(numerator / divisor, scale), numerator, divisor, scale)
  {
    var q := numerator / divisor;
    var x := Round(q, scale);
    assert q * divisor == numerator by { Unscale(numerator, divisor); }
    assert Abs(x - q) * scale <= 0.5 by { RoundNear(q, scale); }
    ErrorScales(x, q, numerator, divisor, scale);
  }
}
