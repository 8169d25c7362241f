/** The viewport: the plane point at the centre of the canvas, the
    magnification, the iteration budget and the active scheme, and the
    affine map between canvas pixels and plane points. At magnification 1
    the canvas spans 3 plane units across; `zoom` divides that span. */
module Viewport {
  import opened Escape
  import opened Palette

  datatype View = View(centerX: real, centerY: real, zoom: real, maxIter: nat, scheme: Scheme)

  /** The view the explorer starts with and returns to on reset. */
  const Initial: View := View(-0.5, 0.0, 1.0, 150, Classical)

  predicate WellFormed(v: View) { v.zoom > 0.0 && v.maxIter >= 1 }

  /** Plane units spanned by the whole canvas. */
  function Span(zoom: real): (r: real)
    requires zoom > 0.0
    ensures r > 0.0
  {
    3.0 / zoom
  }

  /** One axis of the map: the plane coordinate under pixel p of a canvas
      `extent` pixels long, centred on `centre`. */
  function ToPlane(centre: real, p: real, extent: nat, zoom: real): (r: real)
    requires zoom > 0.0 && extent > 0
    ensures p == extent as real / 2.0 ==> r == centre
    ensures p > extent as real / 2.0 ==> r > centre
    ensures p < extent as real / 2.0 ==> r < centre
  {
    centre + ((p - extent as real / 2.0) * Span(zoom)) / extent as real
  }

  /** One axis of the inverse map: the (fractional) pixel under which the
      plane coordinate x lies. */
  function ToPixel(centre: real, x: real, extent: nat, zoom: real): real
    requires zoom > 0.0 && extent > 0
  {
    extent as real / 2.0 + (x - centre) * extent as real / Span(zoom)
  }

  /** The plane point under pixel (px, py) of a w-by-h canvas. */
  function PlanePoint(v: View, w: nat, h: nat, px: real, py: real): (z: Complex)
    requires v.zoom > 0.0 && w > 0 && h > 0
    ensures px == w as real / 2.0 && py == h as real / 2.0 ==> z == Complex(v.centerX, v.centerY)
    ensures (z.re < v.centerX <==> px < w as real / 2.0) && (z.im < v.centerY <==> py < h as real / 2.0)
  {
    Complex(ToPlane(v.centerX, px, w, v.zoom), ToPlane(v.centerY, py, h, v.zoom))
  }

  /** The pixel a plane point lies under. */
  function PixelOf(v: View, w: nat, h: nat, z: Complex): (real, real)
    requires v.zoom > 0.0 && w > 0 && h > 0
  {
    (ToPixel(v.centerX, z.re, w, v.zoom), ToPixel(v.centerY, z.im, h, v.zoom))
  }

  lemma ScaleCancels(a: real, w: real, s: real)
    requires w > 0.0 && s > 0.0
    ensures (a * s / w) * w / s == a
    ensures (a * w / s) * s / w == a
  {
    assert (a * s / w) * w == a * s;
    assert (a * w / s) * s == a * w;
  }

  /** On one axis, pixel -> plane -> pixel and plane -> pixel -> plane are
      identities. */
  lemma AxisRoundTrip(centre: real, p: real, x: real, extent: nat, zoom: real)
    requires zoom > 0.0 && extent > 0
    ensures ToPixel(centre, ToPlane(centre, p, extent, zoom), extent, zoom) == p
    ensures ToPlane(centre, ToPixel(centre, x, extent, zoom), extent, zoom) == x
  {
    var s, e := Span(zoom), extent as real;
    ScaleCancels(p - e / 2.0, e, s);
    ScaleCancels(x - centre, e, s);
  }

  /** The map from pixels to plane points and its inverse undo each other. */
  lemma PixelPlaneRoundTrip(v: View, w: nat, h: nat, px: real, py: real, z: Complex)
    requires v.zoom > 0.0 && w > 0 && h > 0
    ensures PixelOf(v, w, h, PlanePoint(v, w, h, px, py)) == (px, py)
    ensures PlanePoint(v, w, h, PixelOf(v, w, h, z).0, PixelOf(v, w, h, z).1) == z
  {
    AxisRoundTrip(v.centerX, px, z.re, w, v.zoom);
    AxisRoundTrip(v.centerY, py, z.im, h, v.zoom);
  }

  /** The middle of the canvas shows the view's centre. */
  lemma MiddlePixelShowsCentre(v: View, w: nat, h: nat)
    requires v.zoom > 0.0 && w > 0 && h > 0
    ensures PlanePoint(v, w, h, w as real / 2.0, h as real / 2.0) == Complex(v.centerX, v.centerY)
  {
  }

  /** Click-to-zoom: the new centre coordinate for a click at `fraction` of
      the canvas extent (0 at one edge, 1 at the other). */
  function Recentre(centre: real, fraction: real, zoom: real): (r: real)
    requires zoom > 0.0
    ensures fraction == 0.5 ==> r == centre
    ensures fraction > 0.5 ==> r > centre
    ensures fraction < 0.5 ==> r < centre
  {
    centre + (fraction - 0.5) * Span(zoom)
  }

  /** The recentred coordinate is exactly the plane coordinate that was
      under the click: the canvas pixel at the same fraction of the canvas
      extent. */
  lemma RecentreLandsOnClickedPoint(centre: real, fraction: real, extent: nat, zoom: real)
    requires zoom > 0.0 && extent > 0
    ensures Recentre(centre, fraction, zoom) == ToPlane(centre, fraction * extent as real, extent, zoom)
  {
    var s, e := Span(zoom), extent as real;
    assert (fraction * e - e / 2.0) * s == ((fraction - 0.5) * s) * e;
  }

  /** Drag-to-pan: the centre coordinate after the pointer moved `delta`
      display pixels from where the drag began, on a display `extent`
      pixels long. */
  function Pan(startCentre: real, delta: real, extent: real, zoom: real): (r: real)
    requires extent > 0.0 && zoom > 0.0
    ensures delta == 0.0 ==> r == startCentre
    ensures delta > 0.0 ==> r < startCentre
    ensures delta < 0.0 ==> r > startCentre
  {
    startCentre - (delta / extent) * Span(zoom)
  }

  /** Panning follows the pointer: the plane point that was under the
      pointer (at fraction f of the display) when the drag began is under
      it again after a move of `delta` pixels. */
  lemma PanKeepsGrabbedPoint(startCentre: real, f: real, delta: real, extent: real, zoom: real)
    requires extent > 0.0 && zoom > 0.0
    ensures Recentre(Pan(startCentre, delta, extent, zoom), f + delta / extent, zoom)
         == Recentre(startCentre, f, zoom)
  {
    var s := Span(zoom);
    assert (f + delta / extent - 0.5) * s == (f - 0.5) * s + (delta / extent) * s;
  }
}
