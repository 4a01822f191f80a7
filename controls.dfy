/**
 * OrbitControls: the controller object with its public configuration, its
 * closure state (state, spherical, sphericalDelta, scale, panOffset,
 * zoomChanged, the drag anchors, pointers, pointerPositions) and the event
 * handlers that drive it. Dispatched events are recorded in `signals`.
 *
 * The spec functions before the class say what one step of a handler does
 * to the fields it writes, gathered in a Motion record; each method of the
 * class is proved to have exactly that effect.
 */
module Controls {
  import opened Vectors
  import opened Orbit
  import opened Gesture
  import opened Pointers

  type Positive = x: real | x > 0.0 witness 1.0

  /** isPerspectiveCamera, isOrthographicCamera, or neither. */
  datatype Camera = PerspectiveCamera | OrthographicCamera | OtherCamera

  /** this.keys: the key codes that pan. */
  datatype Keys = Keys(left: string, up: string, right: string, bottom: string)

  /**
   * What the rendering library computes for one event, taken as given: the
   * dolly factor (0.95 to the power zoomSpeed, or for a pinch the distance
   * ratio to that power), the world vectors that one pixel of horizontal and
   * of vertical drag moves the target by (panLeft and panUp read them from
   * the camera matrix, scaled by the target distance or the frustum size),
   * and whether the camera moved or turned by more than EPS since the last
   * 'change'.
   */
  datatype Library = Library(dollyFactor: Positive, perPixelX: Vec3, perPixelY: Vec3, cameraMoved: bool)

  /** The world-space offset pan(dx, dy) adds: panLeft's part plus panUp's part. */
  function PanVector(lib: Library, dx: real, dy: real): Vec3 {
    Vec3(lib.perPixelX.x * dx + lib.perPixelY.x * dy,
         lib.perPixelX.y * dx + lib.perPixelY.y * dy,
         lib.perPixelX.z * dx + lib.perPixelY.z * dy)
  }

  /** Panning is linear in the pixel delta: two pans add up to one pan by their sum. */
  lemma PanVectorIsLinear(lib: Library, dx1: real, dy1: real, dx2: real, dy2: real)
    ensures PanVector(lib, dx1 + dx2, dy1 + dy2) == Add(PanVector(lib, dx1, dy1), PanVector(lib, dx2, dy2))
    ensures PanVector(lib, 0.0, 0.0) == Origin
  {
  }

  /** The configuration the gesture steps read and never write. */
  datatype Settings = Settings(
    camera: Camera,
    clientHeight: Positive,
    options: Options,
    minZoom: Bound, maxZoom: Bound,
    rotateSpeed: real, panSpeed: real)

  /**
   * The fields a gesture step writes: the orbit state, the camera zoom and
   * zoomChanged, the two capabilities a step can switch off, and the
   * positions the current drag started from.
   */
  datatype Motion = Motion(
    orbit: OrbitState,
    zoom: real, zoomChanged: bool,
    enableZoom: bool, enablePan: bool,
    rotateStart: Vec2, panStart: Vec2, dollyStart: Vec2)

  /**
   * The configuration a new controller starts with: no distance limit
   * beyond 0, polar angle in [0, PI], azimuth unlimited, damping off with
   * factor 0.05, auto-rotation off at speed 2.
   */
  const DefaultOptions := Options(
    Limits(Finite(0.0), Unbounded, Finite(0.0), Finite(PI), Unbounded, Unbounded),
    false, 0.05, false, 2.0)

  /** The angle a drag turns: a full turn per element height ("yes, height"). */
  function DragAngle(from: real, to: real, speed: real, height: Positive): real {
    2.0 * PI * ((to - from) * speed) / height
  }

  /** A drag over the element's full height turns by rotateSpeed full turns, wherever it starts. */
  lemma FullHeightDragIsFullTurn(from: real, speed: real, height: Positive)
    ensures DragAngle(from, from + height, speed, height) == speed * TwoPI
  {
    assert (from + height - from) * speed == height * speed;
    assert 2.0 * PI * (height * speed) / height == 2.0 * PI * speed;
  }

  /** A rotate drag to `end`: rotateLeft and rotateUp by the drag angles, then move the anchor. */
  function RotateTo(s: Settings, m: Motion, end: Vec2): Motion {
    var o := m.orbit;
    m.(orbit := o.(deltaTheta := o.deltaTheta - DragAngle(m.rotateStart.x, end.x, s.rotateSpeed, s.clientHeight),
                   deltaPhi := o.deltaPhi - DragAngle(m.rotateStart.y, end.y, s.rotateSpeed, s.clientHeight)),
       rotateStart := end)
  }

  /** pan(): add the world vector to panOffset; an unknown camera switches pan off instead. */
  function PanBy(s: Settings, m: Motion, v: Vec3): Motion {
    if s.camera == OtherCamera then m.(enablePan := false)
    else m.(orbit := m.orbit.(panOffset := Add(m.orbit.panOffset, v)))
  }

  /** A pan drag to `end`: pan by the scaled pixel delta, then move the anchor. */
  function PanTo(s: Settings, m: Motion, end: Vec2, lib: Library): Motion {
    var dx := (end.x - m.panStart.x) * s.panSpeed;
    var dy := (end.y - m.panStart.y) * s.panSpeed;
    PanBy(s, m, PanVector(lib, dx, dy)).(panStart := end)
  }

  /**
   * A drag through an intermediate point pans exactly as far as the direct
   * drag: the anchor moves with the pointer, so no movement is lost or
   * counted twice.
   */
  lemma DragsCompose(s: Settings, m: Motion, mid: Vec2, end: Vec2, lib: Library)
    ensures PanTo(s, PanTo(s, m, mid, lib), end, lib) == PanTo(s, m, end, lib)
  {
    var dx1 := (mid.x - m.panStart.x) * s.panSpeed;
    var dy1 := (mid.y - m.panStart.y) * s.panSpeed;
    var dx2 := (end.x - mid.x) * s.panSpeed;
    var dy2 := (end.y - mid.y) * s.panSpeed;
    assert dx1 + dx2 == (end.x - m.panStart.x) * s.panSpeed;
    assert dy1 + dy2 == (end.y - m.panStart.y) * s.panSpeed;
    PanVectorIsLinear(lib, dx1, dy1, dx2, dy2);
  }

  /**
   * dollyIn: scale times f, or zoom divided by f and clamped (kept when
   * within the zoom limits, otherwise the limit it crossed; the lower one
   * when the limits are crossed), or zoom switched off.
   */
  function DollyInStep(s: Settings, m: Motion, f: Positive): (r: Motion)
    ensures r == m.(orbit := m.orbit.(scale := r.orbit.scale), zoom := r.zoom, zoomChanged := r.zoomChanged,
                    enableZoom := r.enableZoom)
    ensures s.camera == PerspectiveCamera ==> r.orbit.scale / f == m.orbit.scale && r.zoom == m.zoom
    ensures s.camera == OrthographicCamera ==> r.orbit.scale == m.orbit.scale && r.zoomChanged
    ensures s.camera == OrthographicCamera && AtLeast(s.minZoom, m.zoom / f) && AtMost(s.maxZoom, m.zoom / f) ==> r.zoom == m.zoom / f
    ensures s.camera == OrthographicCamera && s.minZoom.Finite? && m.zoom / f < s.minZoom.value ==> r.zoom == s.minZoom.value
    ensures s.camera == OrthographicCamera && Ordered(s.minZoom, s.maxZoom) && s.maxZoom.Finite? && m.zoom / f > s.maxZoom.value
      ==> r.zoom == s.maxZoom.value
    ensures s.camera == OrthographicCamera && !Ordered(s.minZoom, s.maxZoom) ==> r.zoom == s.minZoom.value
    ensures s.camera == OtherCamera ==> !r.enableZoom && r.orbit == m.orbit && r.zoom == m.zoom
  {
    match s.camera
    case PerspectiveCamera => m.(orbit := m.orbit.(scale := m.orbit.scale * f))
    case OrthographicCamera => m.(zoom := Clamp(s.minZoom, s.maxZoom, m.zoom / f), zoomChanged := true)
    case OtherCamera => m.(enableZoom := false)
  }

  /**
   * dollyOut: scale divided by f, or zoom times f and clamped (kept when
   * within the zoom limits, otherwise the limit it crossed; the lower one
   * when the limits are crossed), or zoom switched off.
   */
  function DollyOutStep(s: Settings, m: Motion, f: Positive): (r: Motion)
    ensures r == m.(orbit := m.orbit.(scale := r.orbit.scale), zoom := r.zoom, zoomChanged := r.zoomChanged,
                    enableZoom := r.enableZoom)
    ensures s.camera == PerspectiveCamera ==> r.orbit.scale * f == m.orbit.scale && r.zoom == m.zoom
    ensures s.camera == OrthographicCamera ==> r.orbit.scale == m.orbit.scale && r.zoomChanged
    ensures s.camera == OrthographicCamera && AtLeast(s.minZoom, m.zoom * f) && AtMost(s.maxZoom, m.zoom * f) ==> r.zoom == m.zoom * f
    ensures s.camera == OrthographicCamera && s.minZoom.Finite? && m.zoom * f < s.minZoom.value ==> r.zoom == s.minZoom.value
    ensures s.camera == OrthographicCamera && Ordered(s.minZoom, s.maxZoom) && s.maxZoom.Finite? && m.zoom * f > s.maxZoom.value
      ==> r.zoom == s.maxZoom.value
    ensures s.camera == OrthographicCamera && !Ordered(s.minZoom, s.maxZoom) ==> r.zoom == s.minZoom.value
    ensures s.camera == OtherCamera ==> !r.enableZoom && r.orbit == m.orbit && r.zoom == m.zoom
  {
    match s.camera
    case PerspectiveCamera => m.(orbit := m.orbit.(scale := m.orbit.scale / f))
    case OrthographicCamera => m.(zoom := Clamp(s.minZoom, s.maxZoom, m.zoom * f), zoomChanged := true)
    case OtherCamera => m.(enableZoom := false)
  }

  /** A mouse dolly drag: down dollies out, up dollies in, then the anchor moves. */
  function MouseDollyTo(s: Settings, m: Motion, end: Vec2, f: Positive): Motion {
    var dy := end.y - m.dollyStart.y;
    var d := if dy > 0.0 then DollyOutStep(s, m, f) else if dy < 0.0 then DollyInStep(s, m, f) else m;
    d.(dollyStart := end)
  }

  /** A wheel turn: negative deltaY dollies in, positive dollies out, zero does neither. */
  function WheelDolly(s: Settings, m: Motion, deltaY: real, f: Positive): Motion {
    if deltaY < 0.0 then DollyInStep(s, m, f)
    else if deltaY > 0.0 then DollyOutStep(s, m, f)
    else m
  }

  /** update(): the orbit step, after which zoomChanged is clear. */
  function Updated(s: Settings, m: Motion, idle: bool): Motion {
    m.(orbit := UpdateOrbit(s.options, idle, m.orbit), zoomChanged := false)
  }

  /** update() dispatches 'change' when the zoom changed or the camera moved. */
  function ChangeSignals(m: Motion, moved: bool): seq<Signal> {
    if m.zoomChanged || moved then [Change] else []
  }

  /**
   * What a move handler does before its update(): Skip when it returns
   * early, Apply(m) when it reaches update() with m, Abort(m) when it throws
   * (reading a property of undefined) after producing m.
   */
  datatype Step = Skip | Apply(m: Motion) | Abort(m: Motion)

  function Finish(s: Settings, step: Step, before: Motion, idle: bool): Motion {
    match step
    case Skip => before
    case Apply(m) => Updated(s, m, idle)
    case Abort(m) => m
  }

  function FinishSignals(step: Step, moved: bool): seq<Signal> {
    if step.Apply? then ChangeSignals(step.m, moved) else []
  }

  /** onMouseMove: route the move to the active mouse gesture, if its capability is on. */
  function MouseMoveStep(s: Settings, enableRotate: bool, state: State, m: Motion, e: PointerEvent, lib: Library): Step {
    match state
    case Rotate => if !enableRotate then Skip else Apply(RotateTo(s, m, ClientPosition(e)))
    case Dolly => if !m.enableZoom then Skip else Apply(MouseDollyTo(s, m, ClientPosition(e), lib.dollyFactor))
    case Pan => if !m.enablePan then Skip else Apply(PanTo(s, m, ClientPosition(e), lib))
    case _ => Skip
  }

  /** Where a touch drag is now: the lone pointer, or the midpoint with the other pointer. */
  function MoveEnd(ps: seq<PointerEvent>, positions: map<int, Vec2>, e: PointerEvent): Lookup {
    if |ps| == 1 then Found(PagePosition(e))
    else
      match SecondPointerPosition(ps, positions, e)
      case Found(p) => Found(Midpoint(PagePosition(e), p))
      case Missing => Missing
  }

  /**
   * onTouchMove for the touch states: each half of a two-finger gesture
   * runs only if its own capability is on; any other state is left by
   * Controls.OrbitControls.OnTouchMove itself.
   */
  function TouchMoveStep(s: Settings, enableRotate: bool, state: State, m: Motion,
                         ps: seq<PointerEvent>, positions: map<int, Vec2>, e: PointerEvent, lib: Library): Step
  {
    match state
    case TouchRotate => TouchRotateStep(s, enableRotate, m, ps, positions, e)
    case TouchPan => TouchPanStep(s, m, ps, positions, e, lib)
    case TouchDollyPan => DollyPanStep(s, m, ps, positions, e, lib)
    case TouchDollyRotate => DollyRotateStep(s, enableRotate, m, ps, positions, e, lib)
    case _ => Skip
  }

  function TouchRotateStep(s: Settings, enableRotate: bool, m: Motion,
                           ps: seq<PointerEvent>, positions: map<int, Vec2>, e: PointerEvent): Step
  {
    var end := MoveEnd(ps, positions, e);
    if !enableRotate then Skip
    else if end.Missing? then Abort(m)
    else Apply(RotateTo(s, m, end.position))
  }

  function TouchPanStep(s: Settings, m: Motion,
                        ps: seq<PointerEvent>, positions: map<int, Vec2>, e: PointerEvent, lib: Library): Step
  {
    var end := MoveEnd(ps, positions, e);
    if !m.enablePan then Skip
    else if end.Missing? then Abort(m)
    else Apply(PanTo(s, m, end.position, lib))
  }

  /** Dolly-pan: the pinch if zoom is on, then the pan if pan is (still) on. */
  function DollyPanStep(s: Settings, m: Motion,
                        ps: seq<PointerEvent>, positions: map<int, Vec2>, e: PointerEvent, lib: Library): Step
  {
    var end := MoveEnd(ps, positions, e);
    if !m.enableZoom && !m.enablePan then Skip
    else if m.enableZoom && SecondPointerPosition(ps, positions, e).Missing? then Abort(m)
    else
      var m1 := if m.enableZoom then DollyOutStep(s, m, lib.dollyFactor) else m;
      if !m1.enablePan then Apply(m1)
      else if end.Missing? then Abort(m1)
      else Apply(PanTo(s, m1, end.position, lib))
  }

  /** Dolly-rotate: the pinch if zoom is on, then the rotation if rotate is on. */
  function DollyRotateStep(s: Settings, enableRotate: bool, m: Motion,
                           ps: seq<PointerEvent>, positions: map<int, Vec2>, e: PointerEvent, lib: Library): Step
  {
    var end := MoveEnd(ps, positions, e);
    if !m.enableZoom && !enableRotate then Skip
    else if m.enableZoom && SecondPointerPosition(ps, positions, e).Missing? then Abort(m)
    else
      var m1 := if m.enableZoom then DollyOutStep(s, m, lib.dollyFactor) else m;
      if !enableRotate then Apply(m1)
      else if end.Missing? then Abort(m1)
      else Apply(RotateTo(s, m1, end.position))
  }

  predicate IsTouchState(st: State) {
    st == TouchRotate || st == TouchPan || st == TouchDollyPan || st == TouchDollyRotate
  }

  /** The drag anchor a touch start records: the lone pointer or the midpoint of the first two. */
  function TouchStartAnchor(ps: seq<PointerEvent>): Vec2
    requires |ps| >= 1
  {
    if |ps| == 1 then PagePosition(ps[0]) else Midpoint(PagePosition(ps[0]), PagePosition(ps[1]))
  }

  /** The anchors a mouse-down records for the gesture it enters. */
  function MouseDownAnchors(m: Motion, d: Decision, at: Vec2): Motion {
    if d == Enter(Rotate) then m.(rotateStart := at)
    else if d == Enter(Pan) then m.(panStart := at)
    else if d == Enter(Dolly) then m.(dollyStart := at)
    else m
  }

  /**
   * The anchors a touch start records. The pinch distance a two-finger
   * start also records is not modelled (its ratio arrives as the dolly factor).
   */
  function TouchStartAnchors(m: Motion, d: Decision, enableRotate: bool, ps: seq<PointerEvent>): Motion
    requires |ps| >= 1
  {
    if d == Enter(TouchRotate) then m.(rotateStart := TouchStartAnchor(ps))
    else if d == Enter(TouchPan) then m.(panStart := TouchStartAnchor(ps))
    else if d == Enter(TouchDollyPan) && m.enablePan then m.(panStart := TouchStartAnchor(ps))
    else if d == Enter(TouchDollyRotate) && enableRotate then m.(rotateStart := TouchStartAnchor(ps))
    else m
  }

  /** reset(): the saved target, position and zoom put back, everything else as it was. */
  function Restored(m: Motion, target0: Vec3, position0: Spherical, zoom0: real): Motion {
    m.(orbit := m.orbit.(spherical := position0, target := target0), zoom := zoom0)
  }

  /** The pan, in pixels, that a key of this.keys asks for. */
  datatype KeyPan = NoPan | PanPixels(dx: real, dy: real)

  function KeyPanFor(keys: Keys, keyPanSpeed: real, code: string): KeyPan {
    if code == keys.up then PanPixels(0.0, keyPanSpeed)
    else if code == keys.bottom then PanPixels(0.0, -keyPanSpeed)
    else if code == keys.left then PanPixels(keyPanSpeed, 0.0)
    else if code == keys.right then PanPixels(-keyPanSpeed, 0.0)
    else NoPan
  }

  predicate Modifier(e: PointerEvent) {
    e.ctrlKey || e.metaKey || e.shiftKey
  }

  class OrbitControls {
    /** The camera being controlled: its kind and its zoom. */
    const camera: Camera
    var zoom: real
    /** Height in pixels of the element the pointer events come from. */
    const clientHeight: Positive

    var enabled: bool
    var minDistance: Bound
    var maxDistance: Bound
    var minZoom: Bound
    var maxZoom: Bound
    var minPolarAngle: Bound
    var maxPolarAngle: Bound
    var minAzimuthAngle: Bound
    var maxAzimuthAngle: Bound
    var enableDamping: bool
    var dampingFactor: real
    var enableZoom: bool
    var enableRotate: bool
    var rotateSpeed: real
    var enablePan: bool
    var panSpeed: real
    var keyPanSpeed: real
    var autoRotate: bool
    var autoRotateSpeed: real
    var keys: Keys
    var mouseButtons: MouseButtons
    var touches: Touches

    /** What saveState() records and reset() restores; the position as its offset from target0. */
    var target0: Vec3
    var position0: Spherical
    var zoom0: real

    var state: State
    /**
     * What update() works on: spherical, sphericalDelta, scale, panOffset
     * and the public target, held together as one record.
     */
    var orbit: OrbitState
    var zoomChanged: bool
    var rotateStart: Vec2
    var panStart: Vec2
    var dollyStart: Vec2
    var pointers: seq<PointerEvent>
    var pointerPositions: map<int, Vec2>
    /** Every 'start', 'change' and 'end' dispatched so far, in order. */
    var signals: seq<Signal>

    function Config(): Options
      reads this
    {
      Options(
        Limits(minDistance, maxDistance, minPolarAngle, maxPolarAngle, minAzimuthAngle, maxAzimuthAngle),
        enableDamping, dampingFactor, autoRotate, autoRotateSpeed)
    }

    function Setup(): Settings
      reads this
    {
      Settings(camera, clientHeight, Config(), minZoom, maxZoom, rotateSpeed, panSpeed)
    }

    function Caps(): Capabilities
      reads this
    {
      Capabilities(enableZoom, enableRotate, enablePan)
    }

    function Live(): Motion
      reads this
    {
      Motion(orbit, zoom, zoomChanged, enableZoom, enablePan, rotateStart, panStart, dollyStart)
    }

    /**
     * The controls for a camera whose position, relative to the origin, is
     * `position`; the defaults are those of the source, and the constructor
     * ends with an update().
     */
    constructor (camera: Camera, zoom: real, position: Spherical, clientHeight: Positive, moved: bool)
      ensures this.camera == camera && this.clientHeight == clientHeight
      ensures enabled && enableRotate && keyPanSpeed == 7.0
      ensures Setup() == Settings(camera, clientHeight, DefaultOptions, Finite(0.0), Unbounded, 1.0, 1.0)
      ensures keys == Keys("ArrowLeft", "ArrowUp", "ArrowRight", "ArrowDown")
      ensures mouseButtons == MouseButtons(RotateAction, DollyAction, PanAction)
      ensures touches == Touches(RotateTouch, DollyPanTouch)
      ensures target0 == Origin && position0 == position && zoom0 == zoom
      ensures state == None && pointers == [] && pointerPositions == map[]
      ensures Live() == Updated(Setup(),
        Motion(OrbitState(position, 0.0, 0.0, 1.0, Origin, Origin), zoom, false, true, true,
               Vec2(0.0, 0.0), Vec2(0.0, 0.0), Vec2(0.0, 0.0)), true)
      ensures signals == if moved then [Change] else []
    {
      this.camera := camera;
      this.zoom := zoom;
      this.clientHeight := clientHeight;
      enabled := true;
      minDistance, maxDistance := Finite(0.0), Unbounded;
      minZoom, maxZoom := Finite(0.0), Unbounded;
      minPolarAngle, maxPolarAngle := Finite(0.0), Finite(PI);
      minAzimuthAngle, maxAzimuthAngle := Unbounded, Unbounded;
      enableDamping, dampingFactor := false, 0.05;
      enableZoom := true;
      enableRotate, rotateSpeed := true, 1.0;
      enablePan, panSpeed, keyPanSpeed := true, 1.0, 7.0;
      autoRotate, autoRotateSpeed := false, 2.0;
      keys := Keys("ArrowLeft", "ArrowUp", "ArrowRight", "ArrowDown");
      mouseButtons := MouseButtons(RotateAction, DollyAction, PanAction);
      touches := Touches(RotateTouch, DollyPanTouch);
      target0, position0, zoom0 := Origin, position, zoom;
      state := None;
      orbit := OrbitState(position, 0.0, 0.0, 1.0, Origin, Origin);
      zoomChanged := false;
      rotateStart, panStart, dollyStart := Vec2(0.0, 0.0), Vec2(0.0, 0.0), Vec2(0.0, 0.0);
      pointers, pointerPositions := [], map[];
      signals := [];
      new;
      var _ := Update(moved);
    }

    method SaveState()
      modifies this`target0, this`position0, this`zoom0
      ensures target0 == orbit.target && position0 == orbit.spherical && zoom0 == zoom
    {
      target0 := orbit.target;
      position0 := orbit.spherical;
      zoom0 := zoom;
    }

    /**
     * Restore the saved target, position and zoom, dispatch 'change', run
     * update() (which still applies whatever is pending) and go back to NONE.
     */
    method Reset(moved: bool)
      modifies this`orbit, this`zoom, this`signals, this`state, this`zoomChanged
      ensures var restored := Restored(old(Live()), old(target0), old(position0), old(zoom0));
        && Live() == Updated(Setup(), restored, old(state) == None)
        && signals == old(signals) + [Change] + ChangeSignals(restored, moved)
      ensures state == None
    {
      Restore();
      signals := signals + [Change];
      var _ := Update(moved);
      state := None;
    }

    /** The first half of reset(): target, position and zoom copied back from the saved state. */
    method Restore()
      modifies this`orbit, this`zoom
      ensures Live() == Restored(old(Live()), target0, position0, zoom0)
    {
      orbit := orbit.(target := target0, spherical := position0);
      zoom := zoom0;
    }

    method RotateLeft(angle: real)
      modifies this`orbit
      ensures orbit == old(orbit).(deltaTheta := old(orbit).deltaTheta - angle)
    {
      orbit := orbit.(deltaTheta := orbit.deltaTheta - angle);
    }

    method RotateUp(angle: real)
      modifies this`orbit
      ensures orbit == old(orbit).(deltaPhi := old(orbit).deltaPhi - angle)
    {
      orbit := orbit.(deltaPhi := orbit.deltaPhi - angle);
    }

    /** pan(deltaX, deltaY), with the conversion to world units supplied. */
    method Pan(deltaX: real, deltaY: real, lib: Library)
      modifies this`orbit, this`enablePan
      ensures Live() == PanBy(Setup(), old(Live()), PanVector(lib, deltaX, deltaY))
    {
      if camera == PerspectiveCamera || camera == OrthographicCamera {
        orbit := orbit.(panOffset := Add(orbit.panOffset, PanVector(lib, deltaX, deltaY)));
      } else {
        enablePan := false;
      }
    }

    method DollyOut(dollyScale: Positive)
      modifies this`orbit, this`zoom, this`zoomChanged, this`enableZoom
      ensures Live() == DollyOutStep(Setup(), old(Live()), dollyScale)
    {
      if camera == PerspectiveCamera {
        orbit := orbit.(scale := orbit.scale / dollyScale);
      } else if camera == OrthographicCamera {
        zoom := Clamp(minZoom, maxZoom, zoom * dollyScale);
        zoomChanged := true;
      } else {
        enableZoom := false;
      }
    }

    method DollyIn(dollyScale: Positive)
      modifies this`orbit, this`zoom, this`zoomChanged, this`enableZoom
      ensures Live() == DollyInStep(Setup(), old(Live()), dollyScale)
    {
      if camera == PerspectiveCamera {
        orbit := orbit.(scale := orbit.scale * dollyScale);
      } else if camera == OrthographicCamera {
        zoom := Clamp(minZoom, maxZoom, zoom / dollyScale);
        zoomChanged := true;
      } else {
        enableZoom := false;
      }
    }

    /** update(); `moved` is the library's verdict on whether the camera moved. */
    method Update(moved: bool) returns (changed: bool)
      modifies this`orbit
      modifies this`zoomChanged, this`signals
      ensures Setup() == old(Setup())
      ensures Live() == Updated(Setup(), old(Live()), state == None)
      ensures changed == (old(zoomChanged) || moved)
      ensures signals == old(signals) + ChangeSignals(old(Live()), moved)
    {
      StepOrbit();
      changed := zoomChanged || moved;
      if changed {
        signals := signals + [Change];
        zoomChanged := false;
      }
    }

    /**
     * The orbit part of update(): auto-rotation when idle, then the pending
     * rotation, zoom scale and pan applied (all or by the damping factor)
     * and the pose clamped to the limits.
     */
    method StepOrbit()
      modifies this`orbit
      ensures orbit == UpdateOrbit(Config(), state == None, old(orbit))
    {
      if autoRotate && state == None {
        RotateLeft(AutoRotationAngle(autoRotateSpeed));
      }
      // The pending rotation and pan split into what this frame applies and what it keeps.
      var dTheta := Consume(enableDamping, dampingFactor, orbit.deltaTheta);
      var dPhi := Consume(enableDamping, dampingFactor, orbit.deltaPhi);
      var pan := ConsumeOffset(enableDamping, dampingFactor, orbit.panOffset);
      // spherical.setFromVector3 reads the azimuth back into (-PI, PI] before it turns.
      var theta := RestrictAzimuth(WrapAzimuth(orbit.spherical.theta) + dTheta.applied);
      var pose := Pose(Config().limits, orbit.spherical, orbit.scale, dPhi.applied, theta);
      orbit := OrbitState(pose, dTheta.kept, dPhi.kept, 1.0, pan.kept, Add(orbit.target, pan.applied));
    }

    /**
     * The azimuth restriction of update() as its statements run: min and max
     * are copied, each moved by one turn when outside [-PI, PI], then theta is
     * clamped. ClampAzimuth is the specification it is proved against.
     */
    method RestrictAzimuth(theta: real) returns (r: real)
      ensures r == ClampAzimuth(minAzimuthAngle, maxAzimuthAngle, theta)
    {
      r := theta;
      if minAzimuthAngle.Finite? && maxAzimuthAngle.Finite? {
        var min, max := minAzimuthAngle.value, maxAzimuthAngle.value;
        if min < -PI { min := min + TwoPI; } else if min > PI { min := min - TwoPI; }
        if max < -PI { max := max + TwoPI; } else if max > PI { max := max - TwoPI; }
        if min <= max {
          r := Max(min, Min(max, r));
        } else {
          r := if r > (min + max) / 2.0 then Max(min, r) else Min(max, r);
        }
      }
    }

    // ----- pointer registry -----

    method AddPointer(e: PointerEvent)
      modifies this`pointers
      ensures pointers == old(pointers) + [e]
    {
      pointers := pointers + [e];
    }

    method RemovePointer(e: PointerEvent)
      modifies this`pointers, this`pointerPositions
      ensures pointerPositions == old(pointerPositions) - {e.pointerId}
      ensures pointers == Without(old(pointers), e.pointerId)
    {
      pointerPositions := pointerPositions - {e.pointerId};
      var i := 0;
      while i < |pointers|
        invariant 0 <= i <= |pointers|
        invariant pointers == old(pointers)
        invariant forall j :: 0 <= j < i ==> pointers[j].pointerId != e.pointerId
      {
        if pointers[i].pointerId == e.pointerId {
          pointers := pointers[..i] + pointers[i + 1..];
          return;
        }
        i := i + 1;
      }
    }

    method TrackPointer(e: PointerEvent)
      modifies this`pointerPositions
      ensures pointerPositions == old(pointerPositions)[e.pointerId := PagePosition(e)]
    {
      pointerPositions := pointerPositions[e.pointerId := PagePosition(e)];
    }

    // ----- pointer events -----

    method OnPointerDown(e: PointerEvent)
      modifies this`pointers, this`pointerPositions, this`state, this`signals
      modifies this`rotateStart, this`panStart, this`dollyStart
      ensures !old(enabled) ==>
        && pointers == old(pointers) && pointerPositions == old(pointerPositions)
        && state == old(state) && signals == old(signals) && Live() == old(Live())
      ensures old(enabled) ==> pointers == old(pointers) + [e]
      ensures old(enabled) && e.pointerType == Touch ==>
        var d := TouchStartDecision(Caps(), touches, |pointers|);
        && pointerPositions == old(pointerPositions)[e.pointerId := PagePosition(e)]
        && state == StateAfter(old(state), d)
        && signals == old(signals) + StartSignals(d)
        && Live() == TouchStartAnchors(old(Live()), d, enableRotate, pointers)
      ensures old(enabled) && e.pointerType != Touch ==>
        var d := MouseDownDecision(Caps(), mouseButtons, e.button, Modifier(e));
        && pointerPositions == old(pointerPositions)
        && state == StateAfter(old(state), d)
        && signals == old(signals) + StartSignals(d)
        && Live() == MouseDownAnchors(old(Live()), d, ClientPosition(e))
    {
      if !enabled {
        return;
      }
      AddPointer(e);
      if e.pointerType == Touch {
        OnTouchStart(e);
      } else {
        OnMouseDown(e);
      }
    }

    method OnPointerMove(e: PointerEvent, lib: Library) returns (ok: bool)
      modifies this`pointerPositions, this`state, this`signals
      modifies this`orbit
      modifies this`zoom, this`zoomChanged, this`enableZoom, this`enablePan
      modifies this`rotateStart, this`panStart, this`dollyStart
      ensures !old(enabled) ==>
        && ok && pointerPositions == old(pointerPositions) && state == old(state)
        && signals == old(signals) && Live() == old(Live())
      ensures old(enabled) && e.pointerType == Touch ==>
        var step := TouchMoveStep(Setup(), enableRotate, old(state), old(Live()), pointers, pointerPositions, e, lib);
        && pointerPositions == old(pointerPositions)[e.pointerId := PagePosition(e)]
        && Live() == Finish(Setup(), step, old(Live()), false)
        && signals == old(signals) + FinishSignals(step, lib.cameraMoved)
        && ok == !step.Abort?
        && state == (if IsTouchState(old(state)) then old(state) else None)
      ensures old(enabled) && e.pointerType != Touch ==>
        var step := MouseMoveStep(Setup(), enableRotate, old(state), old(Live()), e, lib);
        && ok
        && pointerPositions == old(pointerPositions) && state == old(state)
        && Live() == Finish(Setup(), step, old(Live()), false)
        && signals == old(signals) + FinishSignals(step, lib.cameraMoved)
    {
      ok := true;
      if !enabled {
        return;
      }
      if e.pointerType == Touch {
        ok := OnTouchMove(e, lib);
      } else {
        OnMouseMove(e, lib);
      }
    }

    /**
     * Every release removes the pointer, dispatches 'end' and returns to
     * NONE, whether or not other pointers are still down.
     */
    method OnPointerUp(e: PointerEvent)
      modifies this`pointers, this`pointerPositions, this`signals, this`state
      ensures pointers == Without(old(pointers), e.pointerId)
      ensures pointerPositions == old(pointerPositions) - {e.pointerId}
      ensures signals == old(signals) + [End]
      ensures state == None
    {
      RemovePointer(e);
      signals := signals + [End];
      state := None;
    }

    /** A cancelled pointer is only removed: no 'end', no change of state. */
    method OnPointerCancel(e: PointerEvent)
      modifies this`pointers, this`pointerPositions
      ensures pointers == Without(old(pointers), e.pointerId)
      ensures pointerPositions == old(pointerPositions) - {e.pointerId}
    {
      RemovePointer(e);
    }

    method OnMouseDown(e: PointerEvent)
      modifies this`state, this`signals, this`rotateStart, this`panStart, this`dollyStart
      ensures var d := MouseDownDecision(Caps(), mouseButtons, e.button, Modifier(e));
        && state == StateAfter(old(state), d)
        && signals == old(signals) + StartSignals(d)
        && Live() == MouseDownAnchors(old(Live()), d, ClientPosition(e))
    {
      var mouseAction := ButtonAction(mouseButtons, e.button);
      var modifier := e.ctrlKey || e.metaKey || e.shiftKey;
      match mouseAction {
        case DollyAction =>
          if !enableZoom { return; }
          dollyStart := ClientPosition(e);
          state := Dolly;
        case RotateAction =>
          if modifier {
            if !enablePan { return; }
            panStart := ClientPosition(e);
            state := Gesture.Pan;
          } else {
            if !enableRotate { return; }
            rotateStart := ClientPosition(e);
            state := Rotate;
          }
        case PanAction =>
          if modifier {
            if !enableRotate { return; }
            rotateStart := ClientPosition(e);
            state := Rotate;
          } else {
            if !enablePan { return; }
            panStart := ClientPosition(e);
            state := Gesture.Pan;
          }
        case Unbound =>
          state := None;
      }
      if state != None {
        signals := signals + [Start];
      }
    }

    method OnMouseMove(e: PointerEvent, lib: Library)
      modifies this`signals
      modifies this`orbit
      modifies this`zoom, this`zoomChanged, this`enableZoom, this`enablePan
      modifies this`rotateStart, this`panStart, this`dollyStart
      ensures var step := if old(enabled) then MouseMoveStep(Setup(), enableRotate, state, old(Live()), e, lib) else Skip;
        && Live() == Finish(Setup(), step, old(Live()), false)
        && signals == old(signals) + FinishSignals(step, lib.cameraMoved)
    {
      if !enabled {
        return;
      }
      var moved := MouseGestureMove(e, lib);
      if moved {
        var _ := Update(lib.cameraMoved);
      }
    }

    /** The part of onMouseMove before its update(): the step of the active mouse gesture. */
    method MouseGestureMove(e: PointerEvent, lib: Library) returns (moved: bool)
      modifies this`orbit, this`zoom, this`zoomChanged, this`enableZoom, this`enablePan
      modifies this`rotateStart, this`panStart, this`dollyStart
      ensures var step := MouseMoveStep(Setup(), enableRotate, state, old(Live()), e, lib);
        && moved == step.Apply?
        && Live() == (if step.Apply? then step.m else old(Live()))
    {
      moved := false;
      match state {
        case Rotate =>
          if !enableRotate { return; }
          HandleRotateTo(ClientPosition(e));
        case Dolly =>
          if !enableZoom { return; }
          var dy := e.clientY - dollyStart.y;
          if dy > 0.0 {
            DollyOut(lib.dollyFactor);
          } else if dy < 0.0 {
            DollyIn(lib.dollyFactor);
          }
          dollyStart := ClientPosition(e);
        case Pan =>
          if !enablePan { return; }
          HandlePanTo(ClientPosition(e), lib);
        case _ =>
          return;
      }
      moved := true;
    }

    /** The wheel dollies only when enabled, zoom is on and no gesture is active. */
    method OnMouseWheel(deltaY: real, lib: Library)
      modifies this`signals
      modifies this`orbit
      modifies this`zoom, this`zoomChanged, this`enableZoom
      ensures var acts := old(enabled && enableZoom) && state == None;
        var m := WheelDolly(Setup(), old(Live()), deltaY, lib.dollyFactor);
        && (acts ==>
              && Live() == Updated(Setup(), m, true)
              && signals == old(signals) + [Start] + ChangeSignals(m, lib.cameraMoved) + [End])
        && (!acts ==> Live() == old(Live()) && signals == old(signals))
    {
      if !enabled || !enableZoom || state != None {
        return;
      }
      signals := signals + [Start];
      if deltaY < 0.0 {
        DollyIn(lib.dollyFactor);
      } else if deltaY > 0.0 {
        DollyOut(lib.dollyFactor);
      }
      var _ := Update(lib.cameraMoved);
      signals := signals + [End];
    }

    /** Arrow keys pan by keyPanSpeed pixels and update at once. */
    method OnKeyDown(code: string, lib: Library)
      modifies this`signals
      modifies this`orbit
      modifies this`zoomChanged, this`enablePan
      ensures var k := KeyPanFor(keys, keyPanSpeed, code);
        var acts := old(enabled && enablePan) && k.PanPixels?;
        && (acts ==>
              var m := PanBy(Setup(), old(Live()), PanVector(lib, k.dx, k.dy));
              Live() == Updated(Setup(), m, state == None)
              && signals == old(signals) + ChangeSignals(m, lib.cameraMoved))
        && (!acts ==> Live() == old(Live()) && signals == old(signals))
    {
      if !enabled || !enablePan {
        return;
      }
      var needsUpdate := PanForKey(code, lib);
      if needsUpdate {
        var _ := Update(lib.cameraMoved);
      }
    }

    /** The key switch of onKeyDown: pan by keyPanSpeed pixels when the key is one of this.keys. */
    method PanForKey(code: string, lib: Library) returns (needsUpdate: bool)
      modifies this`orbit, this`enablePan
      ensures var k := KeyPanFor(keys, keyPanSpeed, code);
        && needsUpdate == k.PanPixels?
        && Live() == if k.PanPixels? then PanBy(Setup(), old(Live()), PanVector(lib, k.dx, k.dy)) else old(Live())
    {
      needsUpdate := false;
      if code == keys.up {
        Pan(0.0, keyPanSpeed, lib);
        needsUpdate := true;
      } else if code == keys.bottom {
        Pan(0.0, -keyPanSpeed, lib);
        needsUpdate := true;
      } else if code == keys.left {
        Pan(keyPanSpeed, 0.0, lib);
        needsUpdate := true;
      } else if code == keys.right {
        Pan(-keyPanSpeed, 0.0, lib);
        needsUpdate := true;
      }
    }

    method OnTouchStart(e: PointerEvent)
      requires |pointers| >= 1
      modifies this`pointerPositions, this`state, this`signals, this`rotateStart, this`panStart
      ensures pointerPositions == old(pointerPositions)[e.pointerId := PagePosition(e)]
      ensures var d := TouchStartDecision(Caps(), touches, |pointers|);
        && state == StateAfter(old(state), d)
        && signals == old(signals) + StartSignals(d)
        && Live() == TouchStartAnchors(old(Live()), d, enableRotate, pointers)
    {
      TrackPointer(e);
      var started := EnterTouchGesture();
      if started {
        signals := signals + [Start];
      }
    }

    /**
     * The touch-count switch of onTouchStart: record the anchor and enter the
     * bound gesture. `started` is false when the handler returns early or
     * the state is NONE, the cases where no 'start' follows.
     */
    method EnterTouchGesture() returns (started: bool)
      requires |pointers| >= 1
      modifies this`state, this`rotateStart, this`panStart
      ensures var d := TouchStartDecision(Caps(), touches, |pointers|);
        && state == StateAfter(old(state), d)
        && started == (d.Enter? && d.state != None)
        && Live() == TouchStartAnchors(old(Live()), d, enableRotate, pointers)
    {
      started := false;
      if |pointers| == 1 {
        match touches.one {
          case RotateTouch =>
            if !enableRotate { return; }
            rotateStart := TouchStartAnchor(pointers);
            state := TouchRotate;
          case PanTouch =>
            if !enablePan { return; }
            panStart := TouchStartAnchor(pointers);
            state := TouchPan;
          case _ =>
            state := None;
        }
      } else if |pointers| == 2 {
        match touches.two {
          case DollyPanTouch =>
            if !enableZoom && !enablePan { return; }
            if enablePan {
              panStart := TouchStartAnchor(pointers);
            }
            state := TouchDollyPan;
          case DollyRotateTouch =>
            if !enableZoom && !enableRotate { return; }
            if enableRotate {
              rotateStart := TouchStartAnchor(pointers);
            }
            state := TouchDollyRotate;
          case _ =>
            state := None;
        }
      } else {
        state := None;
      }
      started := state != None;
    }

    method OnTouchMove(e: PointerEvent, lib: Library) returns (ok: bool)
      modifies this`pointerPositions, this`state, this`signals
      modifies this`orbit
      modifies this`zoom, this`zoomChanged, this`enableZoom, this`enablePan
      modifies this`rotateStart, this`panStart
      ensures pointerPositions == old(pointerPositions)[e.pointerId := PagePosition(e)]
      ensures var step := TouchMoveStep(Setup(), enableRotate, old(state), old(Live()), pointers, pointerPositions, e, lib);
        && Live() == Finish(Setup(), step, old(Live()), false)
        && signals == old(signals) + FinishSignals(step, lib.cameraMoved)
        && ok == !step.Abort?
      ensures state == if IsTouchState(old(state)) then old(state) else None
    {
      TrackPointer(e);
      ok := true;
      if IsTouchState(state) {
        var moved;
        ok, moved := TouchGestureMove(e, lib);
        if moved {
          var _ := Update(lib.cameraMoved);
        }
      } else {
        state := None;
      }
    }

    /**
     * The part of onTouchMove before its update(): the step of the active
     * touch gesture. `moved` says whether update() follows.
     */
    method TouchGestureMove(e: PointerEvent, lib: Library) returns (ok: bool, moved: bool)
      requires IsTouchState(state)
      modifies this`orbit, this`zoom, this`zoomChanged, this`enableZoom, this`enablePan
      modifies this`rotateStart, this`panStart
      ensures var step := TouchMoveStep(Setup(), enableRotate, state, old(Live()), pointers, pointerPositions, e, lib);
        && moved == step.Apply?
        && ok == !step.Abort?
        && Live() == (if step.Skip? then old(Live()) else step.m)
    {
      ok, moved := true, false;
      match state {
        case TouchRotate =>
          if enableRotate {
            ok := HandleTouchMoveRotate(e);
            moved := ok;
          }
        case TouchPan =>
          if enablePan {
            ok := HandleTouchMovePan(e, lib);
            moved := ok;
          }
        case TouchDollyPan =>
          ok, moved := DollyPanMove(e, lib);
        case TouchDollyRotate =>
          ok, moved := DollyRotateMove(e, lib);
      }
    }

    /** The two-finger dolly-pan step: the pinch, if zoom is on, then the pan, if pan is (still) on. */
    method DollyPanMove(e: PointerEvent, lib: Library) returns (ok: bool, moved: bool)
      modifies this`orbit, this`zoom, this`zoomChanged, this`enableZoom, this`enablePan, this`panStart
      ensures var step := DollyPanStep(Setup(), old(Live()), pointers, pointerPositions, e, lib);
        && moved == step.Apply?
        && ok == !step.Abort?
        && Live() == (if step.Skip? then old(Live()) else step.m)
    {
      ok, moved := true, false;
      if enableZoom || enablePan {
        if enableZoom {
          ok := HandleTouchMoveDolly(e, lib);
        }
        if ok && enablePan {
          ok := HandleTouchMovePan(e, lib);
        }
        moved := ok;
      }
    }

    /** The two-finger dolly-rotate step: the pinch, if zoom is on, then the rotation, if rotate is on. */
    method DollyRotateMove(e: PointerEvent, lib: Library) returns (ok: bool, moved: bool)
      modifies this`orbit, this`zoom, this`zoomChanged, this`enableZoom, this`rotateStart
      ensures var step := DollyRotateStep(Setup(), enableRotate, old(Live()), pointers, pointerPositions, e, lib);
        && moved == step.Apply?
        && ok == !step.Abort?
        && Live() == (if step.Skip? then old(Live()) else step.m)
    {
      ok, moved := true, false;
      if enableZoom || enableRotate {
        if enableZoom {
          ok := HandleTouchMoveDolly(e, lib);
        }
        if ok && enableRotate {
          ok := HandleTouchMoveRotate(e);
        }
        moved := ok;
      }
    }

    // ----- drag steps shared by mouse and touch -----

    method HandleRotateTo(end: Vec2)
      modifies this`orbit, this`rotateStart
      ensures Live() == RotateTo(Setup(), old(Live()), end)
    {
      var dx := (end.x - rotateStart.x) * rotateSpeed;
      var dy := (end.y - rotateStart.y) * rotateSpeed;
      RotateLeft(2.0 * PI * dx / clientHeight);
      RotateUp(2.0 * PI * dy / clientHeight);
      rotateStart := end;
    }

    method HandlePanTo(end: Vec2, lib: Library)
      modifies this`orbit, this`enablePan, this`panStart
      ensures Live() == PanTo(Setup(), old(Live()), end, lib)
    {
      var dx := (end.x - panStart.x) * panSpeed;
      var dy := (end.y - panStart.y) * panSpeed;
      Pan(dx, dy, lib);
      panStart := end;
    }

    /** The touch rotate step; false where the source throws on a missing pointer. */
    method HandleTouchMoveRotate(e: PointerEvent) returns (ok: bool)
      modifies this`orbit, this`rotateStart
      ensures var end := MoveEnd(pointers, pointerPositions, e);
        && ok == end.Found?
        && Live() == if ok then RotateTo(Setup(), old(Live()), end.position) else old(Live())
    {
      var end := MoveEnd(pointers, pointerPositions, e);
      if end.Missing? {
        return false;
      }
      HandleRotateTo(end.position);
      return true;
    }

    method HandleTouchMovePan(e: PointerEvent, lib: Library) returns (ok: bool)
      modifies this`orbit, this`enablePan, this`panStart
      ensures var end := MoveEnd(pointers, pointerPositions, e);
        && ok == end.Found?
        && Live() == if ok then PanTo(Setup(), old(Live()), end.position, lib) else old(Live())
    {
      var end := MoveEnd(pointers, pointerPositions, e);
      if end.Missing? {
        return false;
      }
      HandlePanTo(end.position, lib);
      return true;
    }

    /** The pinch step: needs the other pointer, then dollies out by the factor. */
    method HandleTouchMoveDolly(e: PointerEvent, lib: Library) returns (ok: bool)
      modifies this`orbit, this`zoom, this`zoomChanged, this`enableZoom
      ensures ok == SecondPointerPosition(pointers, pointerPositions, e).Found?
      ensures Live() == if ok then DollyOutStep(Setup(), old(Live()), lib.dollyFactor) else old(Live())
    {
      var position := SecondPointerPosition(pointers, pointerPositions, e);
      if position.Missing? {
        return false;
      }
      DollyOut(lib.dollyFactor);
      return true;
    }
  }

  /** On a perspective camera dollying in then out by the same factor restores the scale. */
  lemma DollyInThenOutRestoresScale(s: Settings, m: Motion, f: Positive)
    requires s.camera == PerspectiveCamera
    ensures DollyOutStep(s, DollyInStep(s, m, f), f) == m
  {
  }

  /**
   * On an orthographic camera the zoom always ends within ordered limits,
   * and in-then-out restores it as long as neither step hits a limit.
   */
  lemma OrthographicZoomStaysWithinLimits(s: Settings, m: Motion, f: Positive)
    requires s.camera == OrthographicCamera && Ordered(s.minZoom, s.maxZoom)
    ensures AtLeast(s.minZoom, DollyInStep(s, m, f).zoom) && AtMost(s.maxZoom, DollyInStep(s, m, f).zoom)
    ensures AtLeast(s.minZoom, DollyOutStep(s, m, f).zoom) && AtMost(s.maxZoom, DollyOutStep(s, m, f).zoom)
    ensures DollyInStep(s, m, f).zoomChanged && DollyOutStep(s, m, f).zoomChanged
  {
  }

  lemma OrthographicDollyRoundTrip(s: Settings, m: Motion, f: Positive)
    requires s.camera == OrthographicCamera
    requires AtLeast(s.minZoom, m.zoom / f) && AtMost(s.maxZoom, m.zoom / f)
    requires AtLeast(s.minZoom, m.zoom) && AtMost(s.maxZoom, m.zoom)
    ensures DollyOutStep(s, DollyInStep(s, m, f), f).zoom == m.zoom
  {
    var zoomedIn := DollyInStep(s, m, f);
    assert zoomedIn.zoom == m.zoom / f;
    assert zoomedIn.zoom * f == m.zoom;
  }

  /** On any other camera a dolly only switches zoom off, and a pan of any size only switches pan off. */
  lemma UnknownCameraDisablesZoom(s: Settings, m: Motion, f: Positive, v: Vec3)
    requires s.camera == OtherCamera
    ensures DollyInStep(s, m, f) == m.(enableZoom := false)
    ensures DollyOutStep(s, m, f) == m.(enableZoom := false)
    ensures PanBy(s, m, v) == m.(enablePan := false)
  {
  }

  /**
   * During a two-finger move, a disabled capability's half leaves its part
   * of the state alone: no zoom, no scale change without enableZoom; no pan
   * without enablePan; no rotation without enableRotate.
   */
  lemma TouchMoveHalvesRespectTheirFlags(s: Settings, enableRotate: bool, state: State, m: Motion,
                                         ps: seq<PointerEvent>, positions: map<int, Vec2>, e: PointerEvent, lib: Library)
    requires state == TouchDollyPan || state == TouchDollyRotate
    ensures var step := TouchMoveStep(s, enableRotate, state, m, ps, positions, e, lib);
      && (!m.enableZoom && !step.Skip? ==> step.m.orbit.scale == m.orbit.scale && step.m.zoom == m.zoom)
      && (!m.enablePan && !step.Skip? ==> step.m.orbit.panOffset == m.orbit.panOffset)
      && (!enableRotate && !step.Skip? ==> step.m.orbit.deltaTheta == m.orbit.deltaTheta && step.m.orbit.deltaPhi == m.orbit.deltaPhi)
      && (state == TouchDollyPan ==> (step.Skip? <==> !m.enableZoom && !m.enablePan))
      && (state == TouchDollyRotate ==> (step.Skip? <==> !m.enableZoom && !enableRotate))
  {
  }
}
