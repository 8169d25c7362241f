/** The explorer's interaction state: the view (centre, magnification,
    iteration budget, scheme key), the drag bookkeeping, and the canvas the
    last completed render drew. Each pointer, slider, palette and reset
    handler is a method that updates the state in place and, where the
    page asks for one, performs a render. */
module Interaction {
  import opened Numerics
  import opened Palette
  import opened Viewport
  import opened Render

  /** The canvas's box on the page, in the coordinates pointer events use. */
  datatype Rect = Rect(left: real, top: real, width: real, height: real)

  function Abs(x: real): real { if x < 0.0 then -x else x }

  /** A press turns into a drag once the pointer has moved further than this
      many pixels from where it went down, on either axis. */
  const DragThreshold: real := 3.0

  /** The magnification a click multiplies the view by. */
  const ZoomFactor: real := 2.5

  class Explorer {
    /** The canvas's own pixel size and the numeric library. */
    const width: nat
    const height: nat
    const math: Math

    var centerX: real
    var centerY: real
    var zoom: real
    var maxIter: nat
    /** The key of the active scheme, as the palette button gave it. */
    var scheme: string
    var isDragging: bool
    var dragStartX: real
    var dragStartY: real
    var dragStartCenterX: real
    var dragStartCenterY: real
    var hasMoved: bool

    /** The pixels on screen. */
    var canvas: seq<Byte>
    /** How many renders the handlers have requested so far. */
    ghost var renders: nat

    predicate Valid()
      reads this
    {
      zoom > 0.0 && maxIter >= 1 && width > 0 && height > 0 && math.log(2.0) > 0.0
    }

    /** What a render leaves on screen: the frame of the current view when
        the scheme key names a scheme; otherwise the render fails before it
        draws and the previous pixels stay. */
    function Painted(previous: seq<Byte>): (r: seq<Byte>)
      reads this
      requires Valid()
      ensures Lookup(scheme).None? ==> r == previous
      ensures Lookup(scheme).Some? ==> |r| == width * height * 4
      ensures Lookup(scheme).Some? ==> forall i :: 0 <= i < |r| && i % 4 == 3 ==> r[i] == 255
    {
      match Lookup(scheme)
      case Some(s) => Frame(View(centerX, centerY, zoom, maxIter, s), width, height, math)
      case None => previous
    }

    /** The state the page sets up on mount, followed by the first render. */
    constructor (width: nat, height: nat, math: Math)
      requires width > 0 && height > 0 && math.log(2.0) > 0.0
      ensures Valid()
      ensures this.width == width && this.height == height && this.math == math
      ensures centerX == Initial.centerX && centerY == Initial.centerY
      ensures zoom == Initial.zoom && maxIter == Initial.maxIter && scheme == "classical"
      ensures !isDragging && !hasMoved
      ensures dragStartX == 0.0 && dragStartY == 0.0 && dragStartCenterX == 0.0 && dragStartCenterY == 0.0
      ensures canvas == Frame(Initial, width, height, math) && renders == 1
    {
      this.width := width;
      this.height := height;
      this.math := math;
      centerX, centerY, zoom, maxIter, scheme := -0.5, 0.0, 1.0, 150, "classical";
      isDragging, hasMoved := false, false;
      dragStartX, dragStartY, dragStartCenterX, dragStartCenterY := 0.0, 0.0, 0.0, 0.0;
      canvas := [];
      renders := 0;
      new;
      Render();
    }

    /** Draws the current view onto the canvas. */
    method Render()
      requires Valid()
      modifies this`canvas, this`renders
      ensures Valid()
      ensures canvas == Painted(old(canvas)) && renders == old(renders) + 1
    {
      match Lookup(scheme) {
        case Some(s) =>
          var image := RenderPass(View(centerX, centerY, zoom, maxIter, s), width, height, math);
          canvas := image[..];
        case None =>
      }
      renders := renders + 1;
    }

    /** A press starts a drag: it remembers where the pointer and the view
        centre were. */
    method MouseDown(clientX: real, clientY: real)
      requires Valid()
      modifies this
      ensures Valid()
      ensures isDragging && !hasMoved
      ensures dragStartX == clientX && dragStartY == clientY
      ensures dragStartCenterX == old(centerX) && dragStartCenterY == old(centerY)
      ensures unchanged(this`centerX, this`centerY, this`zoom, this`maxIter, this`scheme)
      ensures unchanged(this`canvas, this`renders)
    {
      isDragging := true;
      hasMoved := false;
      dragStartX := clientX;
      dragStartY := clientY;
      dragStartCenterX := centerX;
      dragStartCenterY := centerY;
    }

    /** While dragging, the view follows the pointer (without rendering)
        and the press is marked as moved once the pointer has travelled
        past the threshold; otherwise nothing happens. */
    method MouseMove(clientX: real, clientY: real, rect: Rect)
      requires Valid()
      requires isDragging ==> rect.width > 0.0 && rect.height > 0.0
      modifies this
      ensures Valid()
      ensures !old(isDragging) ==> unchanged(this)
      ensures old(isDragging) ==>
        var dx, dy := clientX - dragStartX, clientY - dragStartY;
        && centerX == Pan(dragStartCenterX, dx, rect.width, zoom)
        && centerY == Pan(dragStartCenterY, dy, rect.height, zoom)
        && hasMoved == (old(hasMoved) || Abs(dx) > DragThreshold || Abs(dy) > DragThreshold)
      ensures unchanged(this`zoom, this`maxIter, this`scheme, this`isDragging)
      ensures unchanged(this`dragStartX, this`dragStartY, this`dragStartCenterX, this`dragStartCenterY)
      ensures unchanged(this`canvas, this`renders)
    {
      if !isDragging {
        return;
      }
      var dx := clientX - dragStartX;
      var dy := clientY - dragStartY;
      if Abs(dx) > DragThreshold || Abs(dy) > DragThreshold {
        hasMoved := true;
      }
      centerX := Pan(dragStartCenterX, dx, rect.width, zoom);
      centerY := Pan(dragStartCenterY, dy, rect.height, zoom);
    }

    /** Releasing ends a drag. A press that never moved is a click: the
        view is recentred on the clicked point and magnified 2.5 times. A
        drag keeps the view it panned to. Either way the view is rendered,
        and the handler waits for the render: when the scheme key names no
        scheme the render fails, the handler stops there, and the drag is
        left open. */
    method MouseUp(clientX: real, clientY: real, rect: Rect)
      requires Valid()
      requires isDragging && !hasMoved ==> rect.width > 0.0 && rect.height > 0.0
      modifies this
      ensures Valid()
      ensures !old(isDragging) ==> unchanged(this)
      ensures old(isDragging) && !old(hasMoved) ==>
        && centerX == Recentre(old(centerX), (clientX - rect.left) / rect.width, old(zoom))
        && centerY == Recentre(old(centerY), (clientY - rect.top) / rect.height, old(zoom))
        && zoom == old(zoom) * ZoomFactor
      ensures old(isDragging) && old(hasMoved) ==> unchanged(this`centerX, this`centerY, this`zoom)
      ensures old(isDragging) ==> canvas == Painted(old(canvas)) && renders == old(renders) + 1
      ensures old(isDragging) && Lookup(scheme).Some? ==> !isDragging && !hasMoved
      ensures old(isDragging) && Lookup(scheme).None? ==> isDragging && hasMoved == old(hasMoved)
      ensures zoom >= old(zoom)
      ensures unchanged(this`maxIter, this`scheme)
      ensures unchanged(this`dragStartX, this`dragStartY, this`dragStartCenterX, this`dragStartCenterY)
    {
      if !isDragging {
        return;
      }
      if !hasMoved {
        var x := (clientX - rect.left) / rect.width;
        var y := (clientY - rect.top) / rect.height;
        centerX := Recentre(centerX, x, zoom);
        centerY := Recentre(centerY, y, zoom);
        zoom := zoom * ZoomFactor;
        Render();
      } else {
        Render();
      }
      if Lookup(scheme).None? {
        return;
      }
      isDragging := false;
      hasMoved := false;
    }

    /** The pointer leaving the canvas ends any press; a drag that moved
        the view is rendered where it stopped. The view itself never
        changes. */
    method MouseLeave()
      requires Valid()
      modifies this
      ensures Valid()
      ensures !isDragging && !hasMoved
      ensures old(isDragging && hasMoved) ==> canvas == Painted(old(canvas)) && renders == old(renders) + 1
      ensures !old(isDragging && hasMoved) ==> unchanged(this`canvas, this`renders)
      ensures unchanged(this`centerX, this`centerY, this`zoom, this`maxIter, this`scheme)
      ensures unchanged(this`dragStartX, this`dragStartY, this`dragStartCenterX, this`dragStartCenterY)
    {
      if isDragging && hasMoved {
        Render();
      }
      isDragging := false;
      hasMoved := false;
    }

    /** Moving the iteration slider changes the budget without rendering. */
    method IterationsInput(value: nat)
      requires Valid() && value >= 1
      modifies this`maxIter
      ensures Valid()
      ensures maxIter == value
    {
      maxIter := value;
    }

    /** Letting go of the slider renders with the new budget. */
    method IterationsChange()
      requires Valid()
      modifies this`canvas, this`renders
      ensures Valid()
      ensures canvas == Painted(old(canvas)) && renders == old(renders) + 1
    {
      Render();
    }

    /** A palette button selects its scheme key, or the classical scheme
        when it carries none, and renders. */
    method PaletteClick(key: string)
      requires Valid()
      modifies this`scheme, this`canvas, this`renders
      ensures Valid()
      ensures scheme == (if key == "" then "classical" else key)
      ensures Lookup(scheme) == SchemeFor(key)
      ensures canvas == Painted(old(canvas)) && renders == old(renders) + 1
    {
      scheme := if key == "" then "classical" else key;
      Render();
    }

    /** Reset returns the centre, magnification and budget to the initial
        view, keeps the scheme, and renders. */
    method Reset()
      requires Valid()
      modifies this`centerX, this`centerY, this`zoom, this`maxIter, this`canvas, this`renders
      ensures Valid()
      ensures centerX == Initial.centerX && centerY == Initial.centerY
      ensures zoom == Initial.zoom && maxIter == Initial.maxIter
      ensures canvas == Painted(old(canvas)) && renders == old(renders) + 1
    {
      centerX := -0.5;
      centerY := 0.0;
      zoom := 1.0;
      maxIter := 150;
      Render();
    }
  }

  /** The page's 1000-by-1000 canvas, displayed at its own size. */
  const Display: Rect := Rect(0.0, 0.0, 1000.0, 1000.0)

  /** A press and release in the middle of the display, without moving,
      magnifies the initial view 2.5 times around the same centre. */
  method ClickInTheMiddle(m: Math) returns (x: real, y: real, z: real)
    requires m.log(2.0) > 0.0
    ensures x == -0.5 && y == 0.0 && z == 2.5
  {
    var e := new Explorer(1000, 1000, m);
    e.MouseDown(500.0, 500.0);
    e.MouseUp(500.0, 500.0, Display);
    x, y, z := e.centerX, e.centerY, e.zoom;
  }

  /** A click a quarter of the way across recentres the initial view a
      quarter of its span to the left. */
  method ClickLeftOfCentre(m: Math) returns (x: real, y: real, z: real)
    requires m.log(2.0) > 0.0
    ensures x == -1.25 && y == 0.0 && z == 2.5
  {
    var e := new Explorer(1000, 1000, m);
    e.MouseDown(250.0, 500.0);
    e.MouseUp(250.0, 500.0, Display);
    x, y, z := e.centerX, e.centerY, e.zoom;
  }

  /** Dragging 100 pixels to the right at the initial view moves the real
      centre from -0.5 to -0.8; the release keeps it there, at the same
      magnification. */
  method DragRight(m: Math) returns (x: real, y: real, z: real, moved: bool)
    requires m.log(2.0) > 0.0
    ensures moved && x == -0.8 && y == 0.0 && z == 1.0
  {
    var e := new Explorer(1000, 1000, m);
    e.MouseDown(400.0, 500.0);
    e.MouseMove(500.0, 500.0, Display);
    moved := e.hasMoved;
    e.MouseUp(500.0, 500.0, Display);
    x, y, z := e.centerX, e.centerY, e.zoom;
  }

  /** A wobble of up to three pixels still counts as a click. The wobble
      panned the view a little, and the release recentres on the point
      under the release, which is the point that was under the press: the
      click zooms in on where the button went down. */
  method WobbleIsAClick(m: Math) returns (x: real, y: real, z: real, moved: bool)
    requires m.log(2.0) > 0.0
    ensures !moved && x == -0.5 && y == 0.0 && z == 2.5
  {
    var e := new Explorer(1000, 1000, m);
    e.MouseDown(500.0, 500.0);
    e.MouseMove(502.0, 497.0, Display);
    moved := e.hasMoved;
    e.MouseUp(502.0, 497.0, Display);
    x, y, z := e.centerX, e.centerY, e.zoom;
  }

  /** Leaving the canvas in the middle of a drag keeps the view where the
      drag took it and ends the drag. */
  method LeaveMidDrag(m: Math) returns (x: real, dragging: bool, moved: bool)
    requires m.log(2.0) > 0.0
    ensures x == -0.8 && !dragging && !moved
  {
    var e := new Explorer(1000, 1000, m);
    e.MouseDown(400.0, 500.0);
    e.MouseMove(500.0, 500.0, Display);
    e.MouseLeave();
    x, dragging, moved := e.centerX, e.isDragging, e.hasMoved;
  }

  /** With a key that names no scheme every render fails. A click then
      still zooms, but its release stops at the failed render, so the press
      stays a drag and a later move with no button held pans the view. */
  method UnknownSchemeKeepsDragging(m: Math) returns (x: real, z: real, dragging: bool)
    requires m.log(2.0) > 0.0
    ensures dragging && z == 2.5 && x == -0.62
  {
    var e := new Explorer(1000, 1000, m);
    e.PaletteClick("sepia");
    e.MouseDown(500.0, 500.0);
    e.MouseUp(500.0, 500.0, Display);
    e.MouseMove(600.0, 500.0, Display);
    x, z, dragging := e.centerX, e.zoom, e.isDragging;
  }

  /** Reset after zooming in with another scheme returns to the initial
      view but keeps that scheme. */
  method ResetKeepsScheme(m: Math) returns (x: real, z: real, budget: nat, key: string)
    requires m.log(2.0) > 0.0
    ensures x == -0.5 && z == 1.0 && budget == 150 && key == "ember"
  {
    var e := new Explorer(1000, 1000, m);
    e.PaletteClick("ember");
    e.IterationsInput(400);
    e.MouseDown(250.0, 500.0);
    e.MouseUp(250.0, 500.0, Display);
    e.Reset();
    x, z, budget, key := e.centerX, e.zoom, e.maxIter, e.scheme;
  }
}
