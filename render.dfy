/** The render pass: every pixel of a w-by-h canvas is mapped to its plane
    point, evaluated and coloured, and its colour is stored as four bytes
    (red, green, blue, opaque alpha) at offset (py * w + px) * 4 of a flat
    RGBA buffer. */
module Render {
  import opened Numerics
  import opened Escape
  import opened Palette
  import opened Viewport

  type Byte = b: int | 0 <= b < 256

  /** The pixel buffer stores a number by clamping it to a byte: a byte is
      kept as it is, and anything outside saturates at the nearer end. */
  function Clamp(v: int): (b: Byte)
    ensures 0 <= v < 256 ==> b == v
    ensures v < 0 ==> b == 0
    ensures v > 255 ==> b == 255
  {
    if v < 0 then 0 else if v > 255 then 255 else v
  }

  /** The colour the active scheme gives the plane point under pixel
      (px, py). */
  function PixelColour(v: View, w: nat, h: nat, m: Math, px: nat, py: nat): Rgb
    requires WellFormed(v) && w > 0 && h > 0 && m.log(2.0) > 0.0
  {
    var z := PlanePoint(v, w, h, px as real, py as real);
    Paint(v.scheme, EscapeValue(z, v.maxIter, m), v.maxIter, m)
  }

  /** Where pixel (px, py) starts in the buffer of a canvas w pixels wide. */
  function Offset(px: nat, py: nat, w: nat): nat {
    (py * w + px) * 4
  }

  /** Byte k of a pixel: red, green, blue, then full opacity. */
  function Channel(c: Rgb, k: nat): (b: Byte)
    requires k < 4
    ensures k == 3 ==> b == 255
    ensures InByteRange(c) && k < 3 ==> b == [c.r, c.g, c.b][k]
  {
    if k == 0 then Clamp(c.r) else if k == 1 then Clamp(c.g) else if k == 2 then Clamp(c.b) else 255
  }

  lemma MulAtLeast(k: int, d: int)
    requires k >= 1 && d > 0
    ensures k * d >= d
  {
    assert k * d == (k - 1) * d + d;
  }

  lemma MulMonotone(a: int, b: int, d: int)
    requires a >= b && d >= 0
    ensures a * d >= b * d
  {
    assert a * d - b * d == (a - b) * d;
  }

  /** Quotient and remainder are the only pair that rebuilds a. */
  lemma DivModUnique(a: int, d: int, q: int, r: int)
    requires d > 0 && 0 <= r < d && a == q * d + r
    ensures a / d == q && a % d == r
  {
    var q', r' := a / d, a % d;
    assert a == q' * d + r';
    assert (q - q') * d == r' - r;
    if q > q' {
      MulAtLeast(q - q', d);
    } else if q < q' {
      MulAtLeast(q' - q, d);
    }
  }

  /** Every byte position of a w-by-h buffer belongs to one pixel of the
      canvas: decoding it gives a pixel inside the canvas, and encoding that
      pixel gives the position back. */
  lemma DecodeInCanvas(i: nat, w: nat, h: nat)
    requires w > 0 && h > 0 && i < w * h * 4
    ensures (i / 4) % w < w && (i / 4) / w < h
    ensures Offset((i / 4) % w, (i / 4) / w, w) + i % 4 == i
  {
    var p := i / 4;
    assert p < w * h;
    assert p == (p / w) * w + p % w;
    if p / w >= h {
      MulMonotone(p / w, h, w);
    }
  }

  /** Encoding a pixel and channel gives a position inside the buffer, and
      decoding that position gives them back. */
  lemma EncodeInBuffer(px: nat, py: nat, k: nat, w: nat, h: nat)
    requires px < w && py < h && k < 4
    ensures Offset(px, py, w) + k < w * h * 4
    ensures var i := Offset(px, py, w) + k;
      (i / 4) % w == px && (i / 4) / w == py && i % 4 == k
  {
    var p := py * w + px;
    DivModUnique(Offset(px, py, w) + k, 4, p, k);
    DivModUnique(p, w, py, px);
    MulMonotone(h, py + 1, w);
  }

  /** The byte at position i of the buffer of a w-by-h canvas coloured by
      `colour`: position i belongs to pixel i / 4, which lies in column
      (i / 4) % w and row (i / 4) / w, and is that pixel's channel i % 4. */
  function ImageByte(w: nat, h: nat, colour: (nat, nat) -> Rgb, i: nat): Byte
    requires w > 0 && h > 0 && i < w * h * 4
  {
    var p := i / 4;
    Channel(colour(p % w, p / w), i % 4)
  }

  /** The RGBA buffer of a w-by-h canvas coloured by `colour`. */
  function Image(w: nat, h: nat, colour: (nat, nat) -> Rgb): (f: seq<Byte>)
    ensures |f| == w * h * 4
  {
    if w == 0 || h == 0 then [] else seq(w * h * 4, i requires 0 <= i < w * h * 4 => ImageByte(w, h, colour, i))
  }

  /** Pixel (px, py) of the buffer sits at Offset(px, py, w). */
  lemma ImageAt(w: nat, h: nat, colour: (nat, nat) -> Rgb, px: nat, py: nat, k: nat)
    requires px < w && py < h && k < 4
    ensures Offset(px, py, w) + k < |Image(w, h, colour)|
    ensures Image(w, h, colour)[Offset(px, py, w) + k] == Channel(colour(px, py), k)
  {
    EncodeInBuffer(px, py, k, w, h);
  }

  /** The colouring the explorer draws for view v. */
  function Colouring(v: View, w: nat, h: nat, m: Math): (nat, nat) -> Rgb
    requires WellFormed(v) && w > 0 && h > 0 && m.log(2.0) > 0.0
  {
    (px: nat, py: nat) => PixelColour(v, w, h, m, px, py)
  }

  /** The buffer the render pass fills for view v. */
  function Frame(v: View, w: nat, h: nat, m: Math): (f: seq<Byte>)
    requires WellFormed(v) && w > 0 && h > 0 && m.log(2.0) > 0.0
    ensures |f| == w * h * 4
  {
    Image(w, h, Colouring(v, w, h, m))
  }

  /** Pixel (px, py) of the frame holds the scheme's colour for the escape
      value of the plane point under the pixel, clamped to bytes, and is
      opaque. */
  lemma FramePixel(v: View, w: nat, h: nat, m: Math, px: nat, py: nat)
    requires WellFormed(v) && m.log(2.0) > 0.0 && px < w && py < h
    ensures var f, o := Frame(v, w, h, m), Offset(px, py, w);
      var c := PixelColour(v, w, h, m, px, py);
      && o + 3 < |f|
      && f[o] == Clamp(c.r) && f[o + 1] == Clamp(c.g) && f[o + 2] == Clamp(c.b) && f[o + 3] == 255
  {
    var colour := Colouring(v, w, h, m);
    ImageAt(w, h, colour, px, py, 0);
    ImageAt(w, h, colour, px, py, 1);
    ImageAt(w, h, colour, px, py, 2);
    ImageAt(w, h, colour, px, py, 3);
  }

  /** The view's colouring as an opaque value: what is known of each
      pixel's colour is drawn out only for the pixels where the colour has
      been computed. */
  lemma ColouringOfView(v: View, w: nat, h: nat, m: Math) returns (colour: (nat, nat) -> Rgb)
    requires WellFormed(v) && w > 0 && h > 0 && m.log(2.0) > 0.0
    ensures forall a: nat, b: nat {:trigger PixelColour(v, w, h, m, a, b)} ::
      colour(a, b) == PixelColour(v, w, h, m, a, b)
  {
    colour := Colouring(v, w, h, m);
  }

  /** The buffer depends only on the colours of the pixels inside the
      canvas. */
  lemma SameColouringSameImage(w: nat, h: nat, c1: (nat, nat) -> Rgb, c2: (nat, nat) -> Rgb)
    requires forall a: nat, b: nat :: a < w && b < h ==> c1(a, b) == c2(a, b)
    ensures Image(w, h, c1) == Image(w, h, c2)
  {
    if w > 0 && h > 0 {
      forall i | 0 <= i < w * h * 4
        ensures ImageByte(w, h, c1, i) == ImageByte(w, h, c2, i)
      {
        DecodeInCanvas(i, w, h);
      }
    }
  }

  /** The alpha byte of every pixel of an image is opaque. */
  lemma ImageIsOpaque(w: nat, h: nat, colour: (nat, nat) -> Rgb, i: nat)
    requires i < |Image(w, h, colour)| && i % 4 == 3
    ensures Image(w, h, colour)[i] == 255
  {
  }

  /** Pixel position i has been written once the loops have finished every
      column before px, and every row before py of column px. */
  ghost predicate Written(i: nat, w: nat, px: nat, py: nat)
    requires w > 0
  {
    var p := i / 4;
    p % w < px || (p % w == px && p / w < py)
  }

  /** The pixels written by one step of the inner loop are the four bytes
      of pixel (px, py). */
  lemma NextWritten(i: nat, w: nat, h: nat, px: nat, py: nat)
    requires w > 0 && h > 0 && i < w * h * 4
    requires Written(i, w, px, py + 1) && !Written(i, w, px, py)
    ensures Offset(px, py, w) <= i < Offset(px, py, w) + 4
  {
    DecodeInCanvas(i, w, h);
  }

  /** One step of the pass: map the pixel to its plane point, evaluate it
      and colour the result. */
  method ShadePixel(v: View, w: nat, h: nat, m: Math, px: nat, py: nat, ghost colour: (nat, nat) -> Rgb)
    returns (c: Rgb)
    requires WellFormed(v) && w > 0 && h > 0 && m.log(2.0) > 0.0
    requires forall a: nat, b: nat {:trigger PixelColour(v, w, h, m, a, b)} ::
      colour(a, b) == PixelColour(v, w, h, m, a, b)
    ensures c == colour(px, py)
  {
    var z := PlanePoint(v, w, h, px as real, py as real);
    var n := Mandelbrot(z.re, z.im, v.maxIter, m);
    c := Paint(v.scheme, n, v.maxIter, m);
    assert c == PixelColour(v, w, h, m, px, py);
  }

  /** The render pass over a fresh, zero-filled buffer: columns px outside,
      rows py inside. */
  method RenderPass(v: View, w: nat, h: nat, m: Math) returns (image: array<Byte>)
    requires WellFormed(v) && w > 0 && h > 0 && m.log(2.0) > 0.0
    ensures image[..] == Frame(v, w, h, m)
  {
    ghost var colour := ColouringOfView(v, w, h, m);
    image := new Byte[w * h * 4];
    var px: nat := 0;
    while px < w
      invariant px <= w && image.Length == w * h * 4
      invariant forall i :: 0 <= i < image.Length && Written(i, w, px, 0) ==> image[i] == ImageByte(w, h, colour, i)
    {
      RenderColumn(v, w, h, m, px, image, colour);
      px := px + 1;
    }
    forall i | 0 <= i < image.Length
      ensures image[i] == ImageByte(w, h, colour, i)
    {
      DecodeInCanvas(i, w, h);
    }
    SameColouringSameImage(w, h, colour, Colouring(v, w, h, m));
  }

  /** The inner loop of the pass: every row of column px, top to bottom. */
  method RenderColumn(v: View, w: nat, h: nat, m: Math, px: nat, image: array<Byte>, ghost colour: (nat, nat) -> Rgb)
    requires WellFormed(v) && w > 0 && h > 0 && m.log(2.0) > 0.0 && px < w
    requires image.Length == w * h * 4
    requires forall a: nat, b: nat {:trigger PixelColour(v, w, h, m, a, b)} ::
      colour(a, b) == PixelColour(v, w, h, m, a, b)
    requires forall i :: 0 <= i < image.Length && Written(i, w, px, 0) ==> image[i] == ImageByte(w, h, colour, i)
    modifies image
    ensures forall i :: 0 <= i < image.Length && Written(i, w, px + 1, 0) ==> image[i] == ImageByte(w, h, colour, i)
  {
    var py: nat := 0;
    while py < h
      invariant py <= h
      invariant forall i :: 0 <= i < image.Length && Written(i, w, px, py) ==> image[i] == ImageByte(w, h, colour, i)
    {
      var c := ShadePixel(v, w, h, m, px, py, colour);
      var index := Offset(px, py, w);
      EncodeInBuffer(px, py, 0, w, h);
      EncodeInBuffer(px, py, 1, w, h);
      EncodeInBuffer(px, py, 2, w, h);
      EncodeInBuffer(px, py, 3, w, h);
      image[index] := Clamp(c.r);
      image[index + 1] := Clamp(c.g);
      image[index + 2] := Clamp(c.b);
      image[index + 3] := 255;
      forall i | 0 <= i < image.Length && Written(i, w, px, py + 1) && !Written(i, w, px, py)
        ensures index <= i < index + 4
      {
        NextWritten(i, w, h, px, py);
      }
      py := py + 1;
    }
    forall i | 0 <= i < image.Length && Written(i, w, px + 1, 0)
      ensures Written(i, w, px, h)
    {
      DecodeInCanvas(i, w, h);
    }
  }

  /** When the view is centred on -0.5 (as the initial view and every
      reset view are), the middle pixel shows that point, which never
      escapes, so it gets the scheme's interior colour. */
  lemma CardioidCentreColour(v: View, w: nat, h: nat, m: Math, px: nat, py: nat)
    requires WellFormed(v) && m.log(2.0) > 0.0 && w > 0 && h > 0
    requires 2 * px == w && 2 * py == h && v.centerX == -0.5 && v.centerY == 0.0
    ensures PixelColour(v, w, h, m, px, py) == InteriorColour(v.scheme)
  {
    MiddlePixelShowsCentre(v, w, h);
    assert PlanePoint(v, w, h, px as real, py as real) == Complex(-0.5, 0.0);
    CardioidCentreIsInterior(v.maxIter, m);
  }

  /** ... and the frame stores that colour, opaque, at the middle pixel. */
  lemma CardioidCentrePixel(v: View, w: nat, h: nat, m: Math, px: nat, py: nat)
    requires WellFormed(v) && m.log(2.0) > 0.0 && w > 0 && h > 0
    requires 2 * px == w && 2 * py == h && v.centerX == -0.5 && v.centerY == 0.0
    ensures var f, o, c := Frame(v, w, h, m), Offset(px, py, w), InteriorColour(v.scheme);
      o + 3 < |f| && f[o] == c.r && f[o + 1] == c.g && f[o + 2] == c.b && f[o + 3] == 255
  {
    FramePixel(v, w, h, m, px, py);
    CardioidCentreColour(v, w, h, m, px, py);
  }

  /** The first frame the explorer draws, on its 1000-by-1000 canvas: the
      middle pixel, at byte offset (500 * 1000 + 500) * 4, holds the
      classical scheme's interior tone, opaque. */
  lemma InitialMiddlePixel(m: Math)
    requires m.log(2.0) > 0.0
    ensures var f := Frame(Initial, 1000, 1000, m);
      |f| == 4000000 && f[2002000] == 0 && f[2002001] == 3 && f[2002002] == 10 && f[2002003] == 255
  {
    CardioidCentrePixel(Initial, 1000, 1000, m, 500, 500);
  }
}
