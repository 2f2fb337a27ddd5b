/** Amounts and quantities. The source keeps them in float64 and rounds with
    `math.Round(v*100)/100`; here they are exact reals, so only the rounding the
    source asks for is modelled. */
module Money {

  function Cents(n: int): real
  {
    n as real / 100.0
  }

  /** Nearest whole number of hundredths, halves away from zero. */
  function RoundToCents(v: real): int
  {
    if v >= 0.0 then (v * 100.0 + 0.5).Floor else -(0.5 - v * 100.0).Floor
  }

  function Round2(v: real): real
  {
    Cents(RoundToCents(v))
  }

  function Max(a: real, b: real): real
  {
    if a >= b then a else b
  }

  /** A whole number of hundredths. */
  ghost predicate IsCents(v: real)
  {
    exists n :: v == Cents(n)
  }

  lemma ZeroIsCents()
    ensures IsCents(0.0)
  {
    assert Cents(0) == 0.0;
  }

  lemma RoundNear(v: real)
    ensures -0.005 <= Round2(v) - v <= 0.005
    ensures IsCents(Round2(v))
    ensures v >= 0.0 ==> Round2(v) >= 0.0
  {
  }

  lemma FloorMonotone(a: real, b: real)
    requires a <= b
    ensures a.Floor <= b.Floor
  {
  }

  /** The nearest hundredth, halves away from zero. */
  ghost predicate RoundsTo(v: real, r: real)
  {
    IsCents(r) && if v >= 0.0 then r - 0.005 <= v < r + 0.005 else r - 0.005 < v <= r + 0.005
  }

  lemma RoundMeans(v: real, r: real)
    ensures RoundsTo(v, r) <==> r == Round2(v)
  {
    if RoundsTo(v, r) {
      CentsAdd(r, Round2(v));
      CentsGap(r - Round2(v));
    }
  }

  lemma RoundMonotone(a: real, b: real)
    requires a <= b
    ensures Round2(a) <= Round2(b)
  {
    if a >= 0.0 {
      FloorMonotone(a * 100.0 + 0.5, b * 100.0 + 0.5);
    } else if b < 0.0 {
      FloorMonotone(0.5 - b * 100.0, 0.5 - a * 100.0);
    } else {
      FloorMonotone(0.5, b * 100.0 + 0.5);
      FloorMonotone(0.5, 0.5 - a * 100.0);
    }
  }

  lemma RoundFixesCents(v: real)
    requires IsCents(v)
    ensures Round2(v) == v
  {
    var n :| v == Cents(n);
    if v >= 0.0 {
      assert (v * 100.0 + 0.5).Floor == n;
    } else {
      assert (0.5 - v * 100.0).Floor == -n;
    }
  }

  lemma CentsAdd(a: real, b: real)
    requires IsCents(a) && IsCents(b)
    ensures IsCents(a + b) && IsCents(a - b)
  {
    var m :| a == Cents(m);
    var n :| b == Cents(n);
    assert a + b == Cents(m + n) && a - b == Cents(m - n);
  }

  /** The tolerances 0.009 and 0.005 hide nothing between multiples of 0.01. */
  lemma CentsGap(v: real)
    requires IsCents(v)
    ensures v < 0.01 ==> v <= 0.0
    ensures v > -0.01 ==> v >= 0.0
  {
  }
}
