/** The escape-time evaluator: iterate z <- z^2 + c from z = 0 until |z|^2
    exceeds 4 or the iteration budget is spent, then smooth the count of an
    orbit that escaped. */
module Escape {
  import opened Numerics

  datatype Complex = Complex(re: real, im: real)

  function Mag2(z: Complex): real { z.re * z.re + z.im * z.im }

  /** The escape test of the loop: the orbit has left the radius-2 disc. */
  predicate Escaped(z: Complex) { Mag2(z) > 4.0 }

  /** One iteration z <- z^2 + c; a point on the real axis stays on it. */
  function Step(z: Complex, c: Complex): (r: Complex)
    ensures z.im == 0.0 && c.im == 0.0 ==> r.im == 0.0
  {
    Complex(z.re * z.re - z.im * z.im + c.re, 2.0 * z.re * z.im + c.im)
  }

  /** |a + bi|^2 squared is |(a + bi)^2|^2. */
  lemma SquareModulus(a: real, b: real)
    ensures (a * a - b * b) * (a * a - b * b) + (2.0 * a * b) * (2.0 * a * b)
         == (a * a + b * b) * (a * a + b * b)
  {
  }

  /** Before c is added, a step squares the squared modulus of the point. */
  lemma StepSquaresModulus(z: Complex, c: Complex)
    ensures var r := Step(z, c);
      Mag2(Complex(r.re - c.re, r.im - c.im)) == Mag2(z) * Mag2(z)
  {
    SquareModulus(z.re, z.im);
  }

  /** The k-th point of the orbit of c, which starts at 0. The orbit of a
      real c stays on the real axis. */
  function Orbit(c: Complex, k: nat): (r: Complex)
    ensures c.im == 0.0 ==> r.im == 0.0
  {
    if k == 0 then Complex(0.0, 0.0) else Step(Orbit(c, k - 1), c)
  }

  /** The first index at or after k whose orbit point has escaped, or the
      budget when there is none before it. */
  function FirstEscapeFrom(c: Complex, total: nat, k: nat): (r: nat)
    requires k <= total
    ensures k <= r <= total
    decreases total - k
  {
    if k == total || Escaped(Orbit(c, k)) then k else FirstEscapeFrom(c, total, k + 1)
  }

  /** The integer count the loop stops at. */
  function EscapeCount(c: Complex, total: nat): (r: nat)
    ensures r <= total
  {
    FirstEscapeFrom(c, total, 0)
  }

  /** The continuous-iteration correction applied to an orbit that escaped
      with squared modulus mag2. */
  function Nu(m: Math, mag2: real): (r: real)
    requires m.log(2.0) > 0.0
    ensures Lawful(m) && mag2 == 4.0 ==> r == 0.0
  {
    var logZn := m.log(mag2) / 2.0;
    var ratio := logZn / m.log(2.0);
    assert Lawful(m) && mag2 == 4.0 ==> ratio == 1.0;
    m.log(ratio) / m.log(2.0)
  }

  /** What the evaluator returns for c: the budget itself for a point that
      never escaped, otherwise the smoothed count. */
  function EscapeValue(c: Complex, total: nat, m: Math): real
    requires m.log(2.0) > 0.0
  {
    var k := EscapeCount(c, total);
    if k < total then k as real + 1.0 - Nu(m, Mag2(Orbit(c, k))) else total as real
  }

  /** The evaluator. The loop keeps the orbit point (x, y) as one complex
      value and stops when it leaves the disc or the budget is spent; an
      orbit that escaped gets the smoothed count. */
  method Mandelbrot(cx: real, cy: real, total: nat, m: Math) returns (n: real)
    requires m.log(2.0) > 0.0
    ensures n == EscapeValue(Complex(cx, cy), total, m)
  {
    var c := Complex(cx, cy);
    var z := Complex(0.0, 0.0);
    var iteration: nat := 0;
    while Mag2(z) <= 4.0 && iteration < total
      invariant iteration <= total
      invariant z == Orbit(c, iteration)
      invariant FirstEscapeFrom(c, total, iteration) == EscapeCount(c, total)
      decreases total - iteration
    {
      z := Step(z, c);
      iteration := iteration + 1;
    }
    if iteration < total {
      n := iteration as real + 1.0 - Nu(m, Mag2(z));
    } else {
      n := total as real;
    }
  }

  /** The smoothing term is positive whenever the orbit has escaped. */
  lemma NuPositive(m: Math, mag2: real)
    requires Lawful(m) && mag2 > 4.0
    ensures Nu(m, mag2) > 0.0
  {
    LogTwoPositive(m);
    var l2 := m.log(2.0);
    assert m.log(4.0) < m.log(mag2);
    var logZn := m.log(mag2) / 2.0;
    QuotientAboveOne(logZn, l2);
    var ratio := logZn / l2;
    assert m.log(ratio) > 0.0;
    QuotientPositive(m.log(ratio), l2);
  }

  lemma QuotientAboveOne(a: real, b: real)
    requires 0.0 < b < a
    ensures a / b > 1.0
  {
  }

  lemma QuotientPositive(a: real, b: real)
    requires a > 0.0 && b > 0.0
    ensures a / b > 0.0
  {
  }

  lemma {:induction false} FirstEscapeFromIsFirst(c: Complex, total: nat, k: nat)
    requires k <= total
    requires forall j :: 0 <= j < k ==> !Escaped(Orbit(c, j))
    ensures var r := FirstEscapeFrom(c, total, k);
      && (forall j :: 0 <= j < r ==> !Escaped(Orbit(c, j)))
      && (r < total ==> Escaped(Orbit(c, r)))
    decreases total - k
  {
    if k < total && !Escaped(Orbit(c, k)) {
      FirstEscapeFromIsFirst(c, total, k + 1);
    }
  }

  /** The count is the first index whose orbit point escaped, or the budget:
      every earlier point stayed in the disc. */
  lemma EscapeCountIsFirstEscape(c: Complex, total: nat)
    ensures var r := EscapeCount(c, total);
      && r <= total
      && (forall j :: 0 <= j < r ==> !Escaped(Orbit(c, j)))
      && (r < total ==> Escaped(Orbit(c, r)))
  {
    FirstEscapeFromIsFirst(c, total, 0);
  }

  /** The result never exceeds the budget, and equals it exactly when no
      orbit point before the budget escaped; an escaped point scores below
      the budget. */
  lemma EscapeValueBounds(c: Complex, total: nat, m: Math)
    requires Lawful(m)
    ensures EscapeValue(c, total, m) <= total as real
    ensures EscapeValue(c, total, m) == total as real
        ==> forall j :: 0 <= j < total ==> !Escaped(Orbit(c, j))
    ensures (forall j :: 0 <= j < total ==> !Escaped(Orbit(c, j)))
        ==> EscapeValue(c, total, m) == total as real
  {
    EscapeCountIsFirstEscape(c, total);
    var k := EscapeCount(c, total);
    if k < total {
      NuPositive(m, Mag2(Orbit(c, k)));
    }
  }

  lemma {:induction false} CardioidCentreOrbit(k: nat)
    ensures var z := Orbit(Complex(-0.5, 0.0), k);
      z.im == 0.0 && -0.5 <= z.re <= 0.0
  {
    if k > 0 {
      CardioidCentreOrbit(k - 1);
      var z := Orbit(Complex(-0.5, 0.0), k - 1);
      assert Orbit(Complex(-0.5, 0.0), k) == Step(z, Complex(-0.5, 0.0));
      SquareOfSmallNegative(z.re);
    }
  }

  lemma SquareOfSmallNegative(r: real)
    requires -0.5 <= r <= 0.0
    ensures 0.0 <= r * r <= 0.25
  {
    assert r * r <= (-r) * 0.5;
  }

  /** A point whose orbit stays in the disc for the whole budget is
      reported with the budget itself. */
  lemma NeverEscapedIsInterior(c: Complex, total: nat, m: Math)
    requires m.log(2.0) > 0.0
    requires forall j :: 0 <= j < total ==> !Escaped(Orbit(c, j))
    ensures EscapeValue(c, total, m) == total as real
  {
    EscapeCountIsFirstEscape(c, total);
  }

  /** c = -0.5 lies in the main cardioid: whatever the budget, the evaluator
      reports it as an interior point. */
  lemma CardioidCentreIsInterior(total: nat, m: Math)
    requires m.log(2.0) > 0.0
    ensures EscapeValue(Complex(-0.5, 0.0), total, m) == total as real
  {
    forall j | 0 <= j < total
      ensures !Escaped(Orbit(Complex(-0.5, 0.0), j))
    {
      CardioidCentreOrbit(j);
      SquareOfSmallNegative(Orbit(Complex(-0.5, 0.0), j).re);
    }
    NeverEscapedIsInterior(Complex(-0.5, 0.0), total, m);
  }

  /** A point outside the radius-2 disc escapes after exactly one step and
      takes the smoothing branch when the budget allows a second. */
  lemma FarPointEscapesAtOnce(c: Complex, total: nat, m: Math)
    requires Lawful(m) && Mag2(c) > 4.0 && total >= 2
    ensures EscapeCount(c, total) == 1
    ensures EscapeValue(c, total, m) == 2.0 - Nu(m, Mag2(c))
    ensures EscapeValue(c, total, m) < total as real
  {
    OrbitStart(c);
    EscapeCountIsFirstEscape(c, total);
    assert !Escaped(Orbit(c, 0)) && Escaped(Orbit(c, 1));
    NuPositive(m, Mag2(c));
  }

  /** Every orbit starts at 0 and moves to c. */
  lemma OrbitStart(c: Complex)
    ensures Orbit(c, 0) == Complex(0.0, 0.0) && Orbit(c, 1) == c
  {
  }

  /** With a budget of one, the loop always runs out of budget before its
      escape test can fire, so every point is reported interior. */
  lemma BudgetOneLooksInterior(c: Complex, m: Math)
    requires m.log(2.0) > 0.0
    ensures EscapeValue(c, 1, m) == 1.0
  {
    assert !Escaped(Orbit(c, 0));
  }
}
