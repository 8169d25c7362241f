/** The palette registry: six named colour schemes, each mapping an escape
    value n and the iteration budget to an RGB triple. Every scheme paints an
    interior point (n equal to the budget) with its own fixed dark tone and
    otherwise shades along t = n / budget, reshaped by a square root or a
    power curve. */
module Palette {
  import opened Numerics

  datatype Option<T> = None | Some(value: T)

  datatype Scheme = Monochrome | Classical | Ember | Azure | Amethyst | Sage

  /** A triple as the scheme functions return it, before the pixel buffer
      stores it; the channels are whole numbers after flooring. */
  datatype Rgb = Rgb(r: int, g: int, b: int)

  /** The key under which the scheme is registered, as the palette buttons
      name it. */
  function Name(s: Scheme): string {
    match s
    case Monochrome => "monochrome"
    case Classical => "classical"
    case Ember => "ember"
    case Azure => "azure"
    case Amethyst => "amethyst"
    case Sage => "sage"
  }

  /** Looks a key up in the registry; a key that names no scheme finds
      nothing. */
  function Lookup(key: string): (r: Option<Scheme>)
    ensures r.Some? ==> Name(r.value) == key
    ensures r.None? ==> forall s: Scheme :: Name(s) != key
  {
    if key == "monochrome" then Some(Monochrome)
    else if key == "classical" then Some(Classical)
    else if key == "ember" then Some(Ember)
    else if key == "azure" then Some(Azure)
    else if key == "amethyst" then Some(Amethyst)
    else if key == "sage" then Some(Sage)
    else None
  }

  /** The scheme a palette button selects: its key, or the classical scheme
      when the button carries an empty one. */
  function SchemeFor(key: string): Option<Scheme> {
    Lookup(if key == "" then "classical" else key)
  }

  /** The registry's keys and its schemes correspond one to one. */
  lemma LookupFindsExactlyTheNamedScheme(key: string, s: Scheme)
    ensures Lookup(key) == Some(s) <==> Name(s) == key
  {
  }

  /** The dark tone each scheme gives an interior point. */
  function InteriorColour(s: Scheme): (c: Rgb)
    ensures 0 <= c.r < 256 && 0 <= c.g < 256 && 0 <= c.b < 256
  {
    match s
    case Monochrome => Rgb(0, 0, 0)
    case Classical => Rgb(0, 3, 10)
    case Ember => Rgb(0, 0, 0)
    case Azure => Rgb(0, 8, 15)
    case Amethyst => Rgb(10, 0, 15)
    case Sage => Rgb(5, 10, 5)
  }

  /* Each scheme: the interior tone when n equals the budget, otherwise a
     shaping curve applied to t = n / total and then the scheme's ramp. */

  function MonochromeColour(n: real, total: nat, m: Math): (c: Rgb)
    requires total > 0
    ensures n == total as real ==> c == InteriorColour(Monochrome)
    ensures c.r == c.g == c.b
  {
    if n == total as real then Rgb(0, 0, 0) else MonochromeRamp(m.sqrt(n / total as real))
  }

  function MonochromeRamp(t: real): Rgb {
    var v := (t * 255.0).Floor;
    Rgb(v, v, v)
  }

  function ClassicalColour(n: real, total: nat, m: Math): (c: Rgb)
    requires total > 0
    ensures n == total as real ==> c == InteriorColour(Classical)
  {
    if n == total as real then Rgb(0, 3, 10) else ClassicalRamp(m.sqrt(n / total as real))
  }

  function ClassicalRamp(s: real): Rgb {
    Rgb((8.0 * (1.0 - s) * s * s * s * 255.0).Floor,
        (12.0 * (1.0 - s) * (1.0 - s) * s * s * 255.0).Floor,
        (6.5 * (1.0 - s) * (1.0 - s) * (1.0 - s) * s * 255.0).Floor)
  }

  function EmberColour(n: real, total: nat, m: Math): (c: Rgb)
    requires total > 0
    ensures n == total as real ==> c == InteriorColour(Ember)
  {
    if n == total as real then Rgb(0, 0, 0) else EmberRamp(m.pow(n / total as real, 0.7))
  }

  function EmberRamp(s: real): Rgb {
    Rgb((255.0 * Min(1.0, s * 1.5)).Floor,
        (180.0 * Max(0.0, Min(1.0, (s - 0.3) * 2.0))).Floor,
        (100.0 * Max(0.0, (s - 0.7) * 3.0)).Floor)
  }

  function AzureColour(n: real, total: nat, m: Math): (c: Rgb)
    requires total > 0
    ensures n == total as real ==> c == InteriorColour(Azure)
  {
    if n == total as real then Rgb(0, 8, 15) else AzureRamp(m.pow(n / total as real, 0.8))
  }

  function AzureRamp(s: real): Rgb {
    Rgb((20.0 + s * s * 160.0).Floor,
        (80.0 + s * 120.0).Floor,
        (150.0 + s * 105.0).Floor)
  }

  function AmethystColour(n: real, total: nat, m: Math): (c: Rgb)
    requires total > 0
    ensures n == total as real ==> c == InteriorColour(Amethyst)
  {
    if n == total as real then Rgb(10, 0, 15) else AmethystRamp(m.pow(n / total as real, 0.75), m)
  }

  function AmethystRamp(s: real, m: Math): Rgb {
    Rgb((80.0 + s * 175.0).Floor,
        (20.0 + s * s * 150.0).Floor,
        (120.0 + m.sin(s * m.pi) * 135.0).Floor)
  }

  function SageColour(n: real, total: nat, m: Math): (c: Rgb)
    requires total > 0
    ensures n == total as real ==> c == InteriorColour(Sage)
  {
    if n == total as real then Rgb(5, 10, 5) else SageRamp(m.pow(n / total as real, 0.85))
  }

  function SageRamp(s: real): Rgb {
    Rgb((20.0 + s * s * 100.0).Floor,
        (40.0 + s * 180.0).Floor,
        (30.0 + s * s * 120.0).Floor)
  }

  /** The registry's dispatch: the colour the chosen scheme gives n. */
  function Paint(s: Scheme, n: real, total: nat, m: Math): (c: Rgb)
    requires total > 0
    ensures n == total as real ==> c == InteriorColour(s)
  {
    match s
    case Monochrome => MonochromeColour(n, total, m)
    case Classical => ClassicalColour(n, total, m)
    case Ember => EmberColour(n, total, m)
    case Azure => AzureColour(n, total, m)
    case Amethyst => AmethystColour(n, total, m)
    case Sage => SageColour(n, total, m)
  }

  predicate IsByte(v: int) { 0 <= v < 256 }

  predicate InByteRange(c: Rgb) { IsByte(c.r) && IsByte(c.g) && IsByte(c.b) }

  /** For an escape value between 0 and the budget every scheme yields
      channels that already fit in a byte, so the clamping pixel buffer
      stores them unchanged. */
  lemma PaintInByteRange(s: Scheme, n: real, total: nat, m: Math)
    requires Lawful(m) && total > 0 && 0.0 <= n <= total as real
    ensures InByteRange(Paint(s, n, total, m))
  {
    match s
    case Monochrome => MonochromeInByteRange(n, total, m);
    case Classical => ClassicalInByteRange(n, total, m);
    case Ember => EmberInByteRange(n, total, m);
    case Azure => AzureInByteRange(n, total, m);
    case Amethyst => AmethystInByteRange(n, total, m);
    case Sage => SageInByteRange(n, total, m);
  }

  lemma UnitRatio(n: real, total: nat)
    requires total > 0 && 0.0 <= n <= total as real
    ensures 0.0 <= n / total as real <= 1.0
  {
  }

  lemma MonochromeInByteRange(n: real, total: nat, m: Math)
    requires Lawful(m) && total > 0 && 0.0 <= n <= total as real
    ensures InByteRange(MonochromeColour(n, total, m))
  {
    UnitRatio(n, total);
    FloorInByte(m.sqrt(n / total as real) * 255.0);
  }

  lemma ClassicalInByteRange(n: real, total: nat, m: Math)
    requires Lawful(m) && total > 0 && 0.0 <= n <= total as real
    ensures InByteRange(ClassicalColour(n, total, m))
  {
    UnitRatio(n, total);
    ClassicalRampInByteRange(m.sqrt(n / total as real));
  }

  lemma EmberInByteRange(n: real, total: nat, m: Math)
    requires Lawful(m) && total > 0 && 0.0 <= n <= total as real
    ensures InByteRange(EmberColour(n, total, m))
  {
    UnitRatio(n, total);
    EmberRampInByteRange(m.pow(n / total as real, 0.7));
  }

  lemma AzureInByteRange(n: real, total: nat, m: Math)
    requires Lawful(m) && total > 0 && 0.0 <= n <= total as real
    ensures InByteRange(AzureColour(n, total, m))
  {
    UnitRatio(n, total);
    AzureRampInByteRange(m.pow(n / total as real, 0.8));
  }

  lemma AmethystInByteRange(n: real, total: nat, m: Math)
    requires Lawful(m) && total > 0 && 0.0 <= n <= total as real
    ensures InByteRange(AmethystColour(n, total, m))
  {
    UnitRatio(n, total);
    AmethystRampInByteRange(m.pow(n / total as real, 0.75), m);
  }

  lemma SageInByteRange(n: real, total: nat, m: Math)
    requires Lawful(m) && total > 0 && 0.0 <= n <= total as real
    ensures InByteRange(SageColour(n, total, m))
  {
    UnitRatio(n, total);
    SageRampInByteRange(m.pow(n / total as real, 0.85));
  }

  lemma SquareNonNegative(q: real)
    ensures q * q >= 0.0
  {
    if q < 0.0 {
      MulNonNegative(-q, -q);
    } else {
      MulNonNegative(q, q);
    }
  }

  lemma MulNonNegative(a: real, b: real)
    requires a >= 0.0 && b >= 0.0
    ensures a * b >= 0.0
  {
  }

  lemma FloorInByte(x: real)
    requires 0.0 <= x < 256.0
    ensures IsByte(x.Floor)
  {
  }

  /** 27/256 is the largest value of (1 - s) * s^3 on [0, 1], reached at
      s = 3/4. */
  lemma CubicTimesComplementBound(s: real)
    requires 0.0 <= s <= 1.0
    ensures 0.0 <= (1.0 - s) * s * s * s <= 27.0 / 256.0
  {
    var q := 4.0 * s - 3.0;
    var p := 16.0 * s * s + 8.0 * s + 3.0;
    assert 27.0 / 256.0 - (1.0 - s) * s * s * s == q * q * p / 256.0;
    SquareNonNegative(q);
    MulNonNegative(s, s);
    assert p > 0.0;
    MulNonNegative(q * q, p);
    MulNonNegative(1.0 - s, s);
    MulNonNegative((1.0 - s) * s, s);
    MulNonNegative((1.0 - s) * s * s, s);
  }

  lemma ProductOfUnitsBound(s: real)
    requires 0.0 <= s <= 1.0
    ensures 0.0 <= (1.0 - s) * s <= 0.25
  {
    assert 0.25 - (1.0 - s) * s == (s - 0.5) * (s - 0.5);
    MulNonNegative(1.0 - s, s);
  }

  lemma ClassicalRampInByteRange(s: real)
    requires 0.0 <= s <= 1.0
    ensures InByteRange(ClassicalRamp(s))
  {
    CubicTimesComplementBound(s);
    assert 8.0 * (1.0 - s) * s * s * s * 255.0 == 2040.0 * ((1.0 - s) * s * s * s);
    FloorInByte(8.0 * (1.0 - s) * s * s * s * 255.0);
    ProductOfUnitsBound(s);
    var u := (1.0 - s) * s;
    assert 0.0 <= u * u <= 0.0625 by {
      assert u * u <= 0.25 * u;
    }
    assert 12.0 * (1.0 - s) * (1.0 - s) * s * s * 255.0 == 3060.0 * (u * u);
    FloorInByte(12.0 * (1.0 - s) * (1.0 - s) * s * s * 255.0);
    CubicTimesComplementBound(1.0 - s);
    assert 6.5 * (1.0 - s) * (1.0 - s) * (1.0 - s) * s * 255.0
        == 1657.5 * ((1.0 - (1.0 - s)) * (1.0 - s) * (1.0 - s) * (1.0 - s));
    FloorInByte(6.5 * (1.0 - s) * (1.0 - s) * (1.0 - s) * s * 255.0);
  }

  lemma EmberRampInByteRange(s: real)
    requires 0.0 <= s <= 1.0
    ensures InByteRange(EmberRamp(s))
  {
  }

  lemma SquareOfUnit(s: real)
    requires 0.0 <= s <= 1.0
    ensures 0.0 <= s * s <= 1.0
  {
    assert s * s <= s;
  }

  lemma AzureRampInByteRange(s: real)
    requires 0.0 <= s <= 1.0
    ensures InByteRange(AzureRamp(s))
  {
    SquareOfUnit(s);
  }

  lemma AmethystRampInByteRange(s: real, m: Math)
    requires Lawful(m) && 0.0 <= s <= 1.0
    ensures InByteRange(AmethystRamp(s, m))
  {
    SquareOfUnit(s);
    MulNonNegative(s, m.pi);
    MulNonNegative(1.0 - s, m.pi);
    assert 0.0 <= m.sin(s * m.pi) <= 1.0;
  }

  lemma SageRampInByteRange(s: real)
    requires 0.0 <= s <= 1.0
    ensures InByteRange(SageRamp(s))
  {
    SquareOfUnit(s);
  }
}
