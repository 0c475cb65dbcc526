/** Small vocabulary shared by every module. */
module Options {
  datatype Option<+T> = None | Some(value: T)
}

/** Python's `round`: nearest integer, ties to the even neighbour. */
module Rounding {
  function Round(x: real): (n: int)
    ensures -0.5 <= n as real - x <= 0.5
  {
    var f := x.Floor;
    var d := x - f as real;
    if d < 0.5 then f
    else if d > 0.5 then f + 1
    else if f % 2 == 0 then f
    else f + 1
  }

  /** The nearest integer, and at a tie the even one. */
  lemma RoundExactly(x: real, n: int)
    ensures Round(x) == n <==> -0.5 < n as real - x < 0.5 || ((n as real - x == 0.5 || n as real - x == -0.5) && n % 2 == 0)
  {
  }

  lemma MulNonNegative(a: real, b: real)
    requires a >= 0.0 && b >= 0.0
    ensures a * b >= 0.0
  {
  }

  /** Rounding to cents: `round(x, 2)`. */
  function RoundCents(x: real): real {
    Round(x * 100.0) as real / 100.0
  }

  lemma RoundMonotone(x: real, y: real)
    requires x <= y
    ensures Round(x) <= Round(y)
  {
    if x.Floor < y.Floor {
      assert Round(x) <= x.Floor + 1 <= y.Floor <= Round(y);
    }
  }

  lemma RoundOfInt(n: int)
    ensures Round(n as real) == n
  {
    assert (n as real).Floor == n;
  }

  lemma RoundCentsMonotone(x: real, y: real)
    requires x <= y
    ensures RoundCents(x) <= RoundCents(y)
  {
    RoundMonotone(x * 100.0, y * 100.0);
  }

  /** Rounding to cents leaves two amounts in order exactly when they were, or
      fall on the same cent. */
  lemma RoundCentsOrder(x: real, y: real)
    ensures RoundCents(x) <= RoundCents(y) <==> x <= y || RoundCents(x) == RoundCents(y)
  {
    if x <= y { RoundCentsMonotone(x, y); } else { RoundCentsMonotone(y, x); }
  }

  lemma RoundCentsIsClose(x: real)
    ensures -0.005 <= RoundCents(x) - x <= 0.005
  {
  }
}

/** Floats of 53 bits, as far as dividing and multiplying positive numbers
    rounds to them. */
module Floats {
  import opened Rounding

  const BIT_52 := 4503599627370496.0
  const BIT_53 := 9007199254740992.0

  /** The power of two that brings `y` down to 53 bits. */
  function Fit(y: real): (f: real)
    requires y >= BIT_52
    ensures 0.0 < f && BIT_52 <= y * f < BIT_53
    decreases y.Floor
  {
    if y < BIT_53 then 1.0
    else
      var half := Fit(y / 2.0);
      assert y * (half / 2.0) == (y / 2.0) * half;
      half / 2.0
  }

  lemma Regroup(x: real, y: real, z: real)
    ensures (x * y) * z == x * (y * z)
  {
  }

  /** The power of two that leaves 53 bits of `x` before the point. */
  function Scale(x: real): (s: real)
    requires x >= 1.0
    ensures s > 0.0 && BIT_52 <= x * s < BIT_53
  {
    var f := Fit(x * BIT_52);
    Regroup(x, BIT_52, f);
    BIT_52 * f
  }

  function RoundAt(x: real, s: real): real
    requires s > 0.0
  {
    Round(x * s) as real / s
  }

  /** The nearest float to a number that is not below one. */
  function Double(x: real): (d: real)
    requires x >= 1.0
  {
    RoundAt(x, Scale(x))
  }

  const ERROR := 1.0 / BIT_53

  /** `d` is `x` up to rounding. */
  predicate Close(d: real, x: real) {
    x - x * ERROR <= d <= x + x * ERROR
  }

  lemma ScaledClose(n: real, x: real, s: real)
    requires s > 0.0 && Close(n, x * s)
    ensures Close(n / s, x)
  {
    var q := n / s;
    assert q * s == n;
    assert (x * s) * ERROR == (x * ERROR) * s;
    ByPositive(x - x * ERROR, q, s);
    ByPositive(q, x + x * ERROR, s);
  }

  lemma ByPositive(a: real, b: real, s: real)
    requires s > 0.0 && a * s <= b * s
    ensures a <= b
  {
    var d := a - b;
    assert d * s <= 0.0;
  }

  lemma RoundIsClose(z: real)
    requires z >= BIT_52
    ensures Close(Round(z) as real, z)
  {
    assert BIT_52 * ERROR == 0.5;
    MulNonNegative(z - BIT_52, ERROR);
    assert z * ERROR == (z - BIT_52) * ERROR + BIT_52 * ERROR;
  }

  lemma RoundAtIsClose(x: real, s: real)
    requires s > 0.0 && BIT_52 <= x * s
    ensures Close(RoundAt(x, s), x)
  {
    var z := x * s;
    RoundIsClose(z);
    ScaledClose(Round(z) as real, x, s);
  }

  lemma DoubleIsClose(x: real)
    requires x >= 1.0
    ensures Close(Double(x), x)
  {
    RoundAtIsClose(x, Scale(x));
  }
}
