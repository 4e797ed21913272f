/** The zoom and pan controller of the full-screen X-ray viewer
    (src/components/ImageViewer.tsx). The component's state is four fields,
    `scale`, `position`, `isDragging` and `startPos`; its handlers change
    them in response to the zoom buttons, the mouse wheel and mouse drags.
    Arithmetic is over exact reals. The measurements the handlers read from
    the page (the image's natural size and the container's client size) are
    passed in as a `Geometry`, which is `Unavailable` when either element is
    not mounted. */
module Viewport {

  const MinScale: real := 0.5
  const MaxScale: real := 3.0
  /** Scale change of one zoom-button click. */
  const ButtonZoom: real := 0.25
  /** Scale change of one wheel notch. */
  const WheelZoom: real := 0.1

  datatype Point = Point(x: real, y: real)

  datatype Geometry =
    | Unavailable
    | Available(naturalWidth: real, naturalHeight: real, containerWidth: real, containerHeight: real)

  function Min(a: real, b: real): real { if a <= b then a else b }
  function Max(a: real, b: real): real { if a >= b then a else b }
  function Abs(a: real): real { if a >= 0.0 then a else -a }

  predicate InScaleRange(s: real) { MinScale <= s <= MaxScale }

  /** New scale of the zoom-in button: one step up, saturating at the maximum. */
  function ZoomInScale(s: real): (r: real)
    ensures r <= MaxScale
    ensures s + ButtonZoom <= MaxScale ==> r == s + ButtonZoom
    ensures s + ButtonZoom > MaxScale ==> r == MaxScale
    ensures InScaleRange(s) ==> InScaleRange(r)
  {
    Min(s + ButtonZoom, MaxScale)
  }

  /** New scale of the zoom-out button: one step down, saturating at the minimum. */
  function ZoomOutScale(s: real): (r: real)
    ensures r >= MinScale
    ensures s - ButtonZoom >= MinScale ==> r == s - ButtonZoom
    ensures s - ButtonZoom < MinScale ==> r == MinScale
    ensures InScaleRange(s) ==> InScaleRange(r)
  {
    Max(s - ButtonZoom, MinScale)
  }

  /** Scale change of a wheel event: scrolling down (positive `deltaY`) zooms
      out, anything else, including `deltaY == 0`, zooms in. */
  function WheelDelta(deltaY: real): (d: real)
    ensures deltaY > 0.0 <==> d < 0.0
    ensures Abs(d) == WheelZoom
  {
    if deltaY > 0.0 then -WheelZoom else WheelZoom
  }

  /** New scale of a wheel event, clamped into [MinScale, MaxScale] whatever
      the current scale. */
  function WheelScale(s: real, deltaY: real): (r: real)
    ensures InScaleRange(r)
    ensures InScaleRange(s + WheelDelta(deltaY)) ==> r == s + WheelDelta(deltaY)
    ensures s + WheelDelta(deltaY) < MinScale ==> r == MinScale
    ensures s + WheelDelta(deltaY) > MaxScale ==> r == MaxScale
  {
    Max(MinScale, Min(MaxScale, s + WheelDelta(deltaY)))
  }

  /** Largest allowed offset on one axis: half the overhang of the scaled
      image over the container, or 0 when the image fits. */
  function MaxPan(natural: real, scale: real, container: real): (m: real)
    ensures m >= 0.0 && 2.0 * m >= natural * scale - container
    ensures m == 0.0 || 2.0 * m == natural * scale - container
    ensures natural * scale <= container ==> m == 0.0
  {
    Max(0.0, (natural * scale - container) / 2.0)
  }

  /** `Math.min(Math.max(-m, v), m)` for a bound `m >= 0`. */
  function ClampPan(v: real, m: real): (r: real)
    requires m >= 0.0
    ensures -m <= r <= m
    ensures -m <= v <= m ==> r == v
    ensures v > m ==> r == m
    ensures v < -m ==> r == -m
  {
    Min(Max(-m, v), m)
  }

  /** The offsets allowed by `g` at `scale`, per axis. */
  predicate InBounds(p: Point, g: Geometry, scale: real)
    requires g.Available?
  {
    && Abs(p.x) <= MaxPan(g.naturalWidth, scale, g.containerWidth)
    && Abs(p.y) <= MaxPan(g.naturalHeight, scale, g.containerHeight)
  }

  /** `p` clamped into the pan bounds of `g` at `scale`. */
  function ClampToBounds(p: Point, g: Geometry, scale: real): (r: Point)
    requires g.Available?
    ensures InBounds(r, g, scale)
    ensures InBounds(p, g, scale) ==> r == p
    ensures g.naturalWidth * scale <= g.containerWidth ==> r.x == 0.0
    ensures g.naturalHeight * scale <= g.containerHeight ==> r.y == 0.0
  {
    Point(ClampPan(p.x, MaxPan(g.naturalWidth, scale, g.containerWidth)),
          ClampPan(p.y, MaxPan(g.naturalHeight, scale, g.containerHeight)))
  }

  /** Both coordinates of `p` multiplied by `ratio`. */
  function Rescaled(p: Point, ratio: real): Point {
    Point(p.x * ratio, p.y * ratio)
  }

  /** The viewer's whole state. */
  datatype ViewState = ViewState(scale: real, position: Point, isDragging: bool, startPos: Point)

  const Initial := ViewState(1.0, Point(0.0, 0.0), false, Point(0.0, 0.0))

  /** `updateScaleAndPosition(newScale)`: with geometry, the offset is
      multiplied by `newScale / scale` (a zoom about the container centre) and
      clamped to the bounds at the new scale; without geometry only the scale
      changes. The drag fields are never touched. */
  function RescaleStep(st: ViewState, newScale: real, g: Geometry): (r: ViewState)
    requires st.scale > 0.0
    ensures r.scale == newScale
    ensures r.isDragging == st.isDragging && r.startPos == st.startPos
    ensures g.Unavailable? ==> r.position == st.position
    ensures g.Available? ==> InBounds(r.position, g, newScale)
    ensures g.Available? ==>
      r.position == ClampToBounds(Rescaled(st.position, newScale / st.scale), g, newScale)
  {
    match g
    case Unavailable => st.(scale := newScale)
    case Available(_, _, _, _) =>
      st.(scale := newScale, position := ClampToBounds(Rescaled(st.position, newScale / st.scale), g, newScale))
  }

  /** Mouse down starts a drag anchored so that `mouse - startPos` is the
      current offset. */
  function MouseDownStep(st: ViewState, mouse: Point): (r: ViewState)
    ensures r.isDragging && r.scale == st.scale && r.position == st.position
    ensures Point(mouse.x - r.startPos.x, mouse.y - r.startPos.y) == st.position
  {
    st.(isDragging := true, startPos := Point(mouse.x - st.position.x, mouse.y - st.position.y))
  }

  /** Mouse move: while dragging and with geometry, the offset becomes
      `mouse - startPos` clamped to the bounds at the current scale;
      otherwise nothing changes. */
  function MouseMoveStep(st: ViewState, mouse: Point, g: Geometry): (r: ViewState)
    ensures !st.isDragging || g.Unavailable? ==> r == st
    ensures r.scale == st.scale && r.isDragging == st.isDragging && r.startPos == st.startPos
    ensures st.isDragging && g.Available? ==>
      r.position == ClampToBounds(Point(mouse.x - st.startPos.x, mouse.y - st.startPos.y), g, st.scale)
    ensures st.isDragging && g.Available? ==> InBounds(r.position, g, st.scale)
  {
    if !st.isDragging then st
    else match g
      case Unavailable => st
      case Available(_, _, _, _) =>
        st.(position := ClampToBounds(Point(mouse.x - st.startPos.x, mouse.y - st.startPos.y), g, st.scale))
  }

  /** Mouse up (and mouse leave, which runs the same handler) ends a drag and
      changes nothing else; when not dragging it changes nothing at all. */
  function MouseUpStep(st: ViewState): (r: ViewState)
    ensures !r.isDragging
    ensures r.scale == st.scale && r.position == st.position && r.startPos == st.startPos
  {
    if !st.isDragging then st else st.(isDragging := false)
  }

  /** The events the viewer's container and buttons react to. */
  datatype Event =
    | ZoomInClick(g: Geometry)
    | ZoomOutClick(g: Geometry)
    | Wheel(deltaY: real, g: Geometry)
    | MouseDown(mouse: Point)
    | MouseMove(mouse: Point, g: Geometry)
    | MouseUp
    | MouseLeave

  /** The state after one event; the scale stays in range. */
  function Step(st: ViewState, e: Event): (r: ViewState)
    requires InScaleRange(st.scale)
    ensures InScaleRange(r.scale)
  {
    match e
    case ZoomInClick(g) => RescaleStep(st, ZoomInScale(st.scale), g)
    case ZoomOutClick(g) => RescaleStep(st, ZoomOutScale(st.scale), g)
    case Wheel(deltaY, g) => RescaleStep(st, WheelScale(st.scale, deltaY), g)
    case MouseDown(p) => MouseDownStep(st, p)
    case MouseMove(p, g) => MouseMoveStep(st, p, g)
    case MouseUp => MouseUpStep(st)
    case MouseLeave => MouseUpStep(st)
  }

  /** The state after a sequence of events. */
  function Run(st: ViewState, events: seq<Event>): (r: ViewState)
    requires InScaleRange(st.scale)
    ensures InScaleRange(r.scale)
    decreases |events|
  {
    if events == [] then st else Run(Step(st, events[0]), events[1..])
  }

  /** From the initial state, every sequence of events keeps the scale in
      [0.5, 3]. */
  lemma {:induction false} ScaleAlwaysInRange(events: seq<Event>)
    ensures InScaleRange(Run(Initial, events).scale)
  {
  }

  /** A run's events apply one after the other. */
  lemma {:induction false} RunAppend(st: ViewState, a: seq<Event>, b: seq<Event>)
    requires InScaleRange(st.scale)
    ensures Run(st, a + b) == Run(Run(st, a), b)
    decreases |a|
  {
    if a == [] {
      assert a + b == b;
    } else {
      assert (a + b)[0] == a[0];
      assert (a + b)[1..] == a[1..] + b;
      RunAppend(Step(st, a[0]), a[1..], b);
    }
  }

  /** Mouse move and mouse up while not dragging leave the whole state as it is. */
  lemma NotDraggingMovesNothing(st: ViewState, mouse: Point, g: Geometry)
    requires InScaleRange(st.scale) && !st.isDragging
    ensures Step(st, MouseMove(mouse, g)) == st
    ensures Step(st, MouseUp) == st && Step(st, MouseLeave) == st
  {
  }

  /** Pressing and then moving to the same mouse position targets the
      offset the drag started from, so an in-bounds offset stays put. */
  lemma PressThenMoveInPlace(st: ViewState, mouse: Point, g: Geometry)
    requires g.Available? && InBounds(st.position, g, st.scale)
    ensures MouseMoveStep(MouseDownStep(st, mouse), mouse, g).position == st.position
  {
    var down := MouseDownStep(st, mouse);
    assert Point(mouse.x - down.startPos.x, mouse.y - down.startPos.y) == st.position;
  }

  /** After every event with geometry that moves the image (a zoom, or a
      move during a drag), the offset lies within the bounds at the new scale. */
  lemma EventKeepsPanBounds(st: ViewState, e: Event)
    requires InScaleRange(st.scale)
    requires e.ZoomInClick? || e.ZoomOutClick? || e.Wheel? || (e.MouseMove? && st.isDragging)
    requires e.g.Available?
    ensures InBounds(Step(st, e).position, e.g, Step(st, e).scale)
  {
  }

  /** A drag on a 300 by 300 image shown at scale 2 in a 150 by 150 container,
      pressed at (100, 100), moved to (400, 90) and released, starting from the
      centred position. The bound there is 225 per axis, so the horizontal
      offset of 300 is clamped to 225 while the vertical -10 is kept, and the
      release leaves it there. */
  lemma DragExample()
    ensures
      var g := Available(300.0, 300.0, 150.0, 150.0);
      var st := Initial.(scale := 2.0);
      var r := Run(st, [MouseDown(Point(100.0, 100.0)), MouseMove(Point(400.0, 90.0), g), MouseUp]);
      r.position == Point(225.0, -10.0) && !r.isDragging
  {
    var g := Available(300.0, 300.0, 150.0, 150.0);
    var st := Initial.(scale := 2.0);
    var down := Step(st, MouseDown(Point(100.0, 100.0)));
    assert down.startPos == Point(100.0, 100.0);
    assert MaxPan(300.0, 2.0, 150.0) == 225.0;
    var moved := Step(down, MouseMove(Point(400.0, 90.0), g));
    assert moved.position == Point(225.0, -10.0);
    var up := Step(moved, MouseUp);
    assert up.position == Point(225.0, -10.0) && !up.isDragging;
    assert Run(moved, [MouseUp]) == up;
    assert Run(down, [MouseMove(Point(400.0, 90.0), g), MouseUp]) == Run(moved, [MouseUp]);
    assert Run(st, [MouseDown(Point(100.0, 100.0)), MouseMove(Point(400.0, 90.0), g), MouseUp])
      == Run(down, [MouseMove(Point(400.0, 90.0), g), MouseUp]);
  }

  /** The viewer component: its four state fields and its handlers. */
  class ImageViewer {
    var scale: real
    var position: Point
    var isDragging: bool
    var startPos: Point

    ghost predicate Valid()
      reads this
    {
      InScaleRange(scale)
    }

    /** The fields as one value. */
    function State(): ViewState
      reads this
    {
      ViewState(scale, position, isDragging, startPos)
    }

    constructor ()
      ensures Valid() && State() == Initial
    {
      scale := 1.0;
      position := Point(0.0, 0.0);
      isDragging := false;
      startPos := Point(0.0, 0.0);
    }

    method UpdateScaleAndPosition(newScale: real, g: Geometry)
      requires scale > 0.0
      modifies this
      ensures State() == RescaleStep(old(State()), newScale, g)
    {
      if g.Available? {
        var maxX := MaxPan(g.naturalWidth, newScale, g.containerWidth);
        var maxY := MaxPan(g.naturalHeight, newScale, g.containerHeight);
        var scaleRatio := newScale / scale;
        var next := Rescaled(position, scaleRatio);
        position := Point(ClampPan(next.x, maxX), ClampPan(next.y, maxY));
      }
      scale := newScale;
    }

    method HandleZoomIn(g: Geometry)
      requires Valid()
      modifies this
      ensures Valid() && State() == RescaleStep(old(State()), ZoomInScale(old(scale)), g)
    {
      var newScale := Min(scale + ButtonZoom, MaxScale);
      UpdateScaleAndPosition(newScale, g);
    }

    method HandleZoomOut(g: Geometry)
      requires Valid()
      modifies this
      ensures Valid() && State() == RescaleStep(old(State()), ZoomOutScale(old(scale)), g)
    {
      var newScale := Max(scale - ButtonZoom, MinScale);
      UpdateScaleAndPosition(newScale, g);
    }

    method HandleWheel(deltaY: real, g: Geometry)
      requires Valid()
      modifies this
      ensures Valid() && State() == RescaleStep(old(State()), WheelScale(old(scale), deltaY), g)
    {
      var delta := if deltaY > 0.0 then -WheelZoom else WheelZoom;
      var newScale := Max(MinScale, Min(MaxScale, scale + delta));
      UpdateScaleAndPosition(newScale, g);
    }

    method HandleMouseDown(mouse: Point)
      requires Valid()
      modifies this
      ensures Valid() && State() == MouseDownStep(old(State()), mouse)
    {
      isDragging := true;
      startPos := Point(mouse.x - position.x, mouse.y - position.y);
    }

    method HandleMouseMove(mouse: Point, g: Geometry)
      requires Valid()
      modifies this
      ensures Valid() && State() == MouseMoveStep(old(State()), mouse, g)
    {
      if !isDragging {
        return;
      }
      var newX := mouse.x - startPos.x;
      var newY := mouse.y - startPos.y;
      if g.Available? {
        var maxX := MaxPan(g.naturalWidth, scale, g.containerWidth);
        var maxY := MaxPan(g.naturalHeight, scale, g.containerHeight);
        position := Point(ClampPan(newX, maxX), ClampPan(newY, maxY));
      }
    }

    /** Also the mouse-leave handler. */
    method HandleMouseUp()
      requires Valid()
      modifies this
      ensures Valid() && State() == MouseUpStep(old(State()))
    {
      if !isDragging {
        return;
      }
      isDragging := false;
    }

    /** Dispatches one event to its handler, as the component's event bindings do. */
    method Handle(e: Event)
      requires Valid()
      modifies this
      ensures Valid() && State() == Step(old(State()), e)
    {
      match e
      case ZoomInClick(g) => HandleZoomIn(g);
      case ZoomOutClick(g) => HandleZoomOut(g);
      case Wheel(deltaY, g) => HandleWheel(deltaY, g);
      case MouseDown(p) => HandleMouseDown(p);
      case MouseMove(p, g) => HandleMouseMove(p, g);
      case MouseUp => HandleMouseUp();
      case MouseLeave => HandleMouseUp();
    }
  }
}
