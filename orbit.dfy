/**
 * The scalar part of OrbitControls.update(): the camera's spherical
 * coordinates around the target, the pending increments a gesture leaves
 * behind, and the clamps and damping that one update applies to them.
 * The Cartesian, quaternion and look-at steps around it are not modelled;
 * the spherical triple is the state.
 */
module Orbit {
  import opened Vectors

  /** The value of Math.PI. */
  const PI: real := 3.141592653589793
  const TwoPI: real := 2.0 * PI

  /**
   * A configured limit. Unbounded stands for -Infinity in a lower limit,
   * +Infinity in an upper limit, and "not finite" for the azimuth limits.
   */
  datatype Bound = Finite(value: real) | Unbounded

  predicate AtLeast(lo: Bound, x: real) {
    lo.Unbounded? || lo.value <= x
  }

  predicate AtMost(hi: Bound, x: real) {
    hi.Unbounded? || x <= hi.value
  }

  /** The lower limit does not exceed the upper one. */
  predicate Ordered(lo: Bound, hi: Bound) {
    lo.Finite? && hi.Finite? ==> lo.value <= hi.value
  }

  /** Math.min and Math.max on finite numbers. */
  function Min(a: real, b: real): real {
    if a <= b then a else b
  }

  function Max(a: real, b: real): real {
    if a >= b then a else b
  }

  function Abs(x: real): real {
    if x < 0.0 then -x else x
  }

  /**
   * Math.max(lo, Math.min(hi, x)): the clamp used for the polar angle, the
   * radius and the orthographic zoom. When the limits are crossed the lower
   * one wins, because Math.max is applied last.
   */
  function Clamp(lo: Bound, hi: Bound, x: real): (r: real)
    ensures Ordered(lo, hi) ==> AtLeast(lo, r) && AtMost(hi, r)
    ensures AtLeast(lo, x) && AtMost(hi, x) ==> r == x
    ensures lo.Finite? && x < lo.value ==> r == lo.value
    ensures Ordered(lo, hi) && hi.Finite? && x > hi.value ==> r == hi.value
  {
    var capped := if hi.Finite? then Min(hi.value, x) else x;
    if lo.Finite? then Max(lo.value, capped) else capped
  }

  /**
   * With ordered limits the result lies between them, a value already
   * inside is kept, a value below goes to the lower limit and one above to
   * the upper limit, crossed limits give the lower one, and the result is
   * always x or one of the limits.
   */
  lemma ClampWithinBounds(lo: Bound, hi: Bound, x: real)
    ensures var r := Clamp(lo, hi, x);
      && (Ordered(lo, hi) ==> AtLeast(lo, r) && AtMost(hi, r))
      && (AtLeast(lo, x) && AtMost(hi, x) ==> r == x)
      && (lo.Finite? && x < lo.value ==> r == lo.value)
      && (Ordered(lo, hi) && hi.Finite? && x > hi.value ==> r == hi.value)
      && (!Ordered(lo, hi) ==> r == lo.value)
      && (r == x || (lo.Finite? && r == lo.value) || (hi.Finite? && r == hi.value))
  {
  }

  lemma ClampIdempotent(lo: Bound, hi: Bound, x: real)
    ensures Clamp(lo, hi, Clamp(lo, hi, x)) == Clamp(lo, hi, x)
  {
    ClampWithinBounds(lo, hi, x);
    ClampWithinBounds(lo, hi, Clamp(lo, hi, x));
  }

  /**
   * A finite azimuth limit below -PI or above PI is moved by one full turn;
   * the documented limits lie in [-2 PI, 2 PI], which this maps into [-PI, PI].
   */
  function NormalizeAzimuth(a: real): real {
    if a < -PI then a + TwoPI else if a > PI then a - TwoPI else a
  }

  /** Normalizing moves by at most one turn, keeps [-PI, PI] fixed and maps [-3 PI, 3 PI] into it. */
  lemma NormalizeAzimuthIntoHalfTurns(a: real)
    ensures var r := NormalizeAzimuth(a);
      && (r == a || r == a + TwoPI || r == a - TwoPI)
      && (-PI <= a <= PI ==> r == a)
      && (-3.0 * PI <= a <= 3.0 * PI ==> -PI <= r <= PI)
  {
  }

  /**
   * The azimuths allowed between normalized limits lo and hi: the interval
   * [lo, hi] when lo <= hi, otherwise everything outside the gap (hi, lo)
   * (the limits wrap around the back of the circle).
   */
  predicate InAzimuthRange(lo: real, hi: real, theta: real) {
    if lo <= hi then lo <= theta <= hi else theta >= lo || theta <= hi
  }

  /**
   * The azimuth clamp of update(). With a wrap-around range, theta is
   * compared with the midpoint of the limits; an azimuth that is already
   * allowed stays where it is, and one inside the gap goes to the nearer
   * limit (the upper limit on a tie).
   */
  function ClampAzimuth(min: Bound, max: Bound, theta: real): (r: real)
    ensures !(min.Finite? && max.Finite?) ==> r == theta
    ensures min.Finite? && max.Finite? ==>
      var lo, hi := NormalizeAzimuth(min.value), NormalizeAzimuth(max.value);
      && InAzimuthRange(lo, hi, r)
      && (lo <= hi && theta < lo ==> r == lo)
      && (lo <= hi && theta > hi ==> r == hi)
      && (hi < theta < lo ==> r == (if theta > (lo + hi) / 2.0 then lo else hi))
  {
    if min.Finite? && max.Finite? then
      var lo, hi := NormalizeAzimuth(min.value), NormalizeAzimuth(max.value);
      if lo <= hi then Max(lo, Min(hi, theta))
      else if theta > (lo + hi) / 2.0 then Max(lo, theta)
      else Min(hi, theta)
    else
      theta
  }

  /**
   * The clamped azimuth is allowed and an allowed azimuth is kept. With
   * ordered limits one below goes to the lower limit and one above to the
   * upper limit; one in the gap of a wrap-around range goes to the limit on
   * its side of the midpoint, which is at least as near as the other one.
   */
  lemma ClampAzimuthIsNearestAllowed(min: Bound, max: Bound, theta: real)
    ensures var r := ClampAzimuth(min, max, theta);
      && (!(min.Finite? && max.Finite?) ==> r == theta)
      && (min.Finite? && max.Finite? ==>
        var lo, hi := NormalizeAzimuth(min.value), NormalizeAzimuth(max.value);
        && InAzimuthRange(lo, hi, r)
        && (InAzimuthRange(lo, hi, theta) ==> r == theta)
        && (r == theta || r == lo || r == hi)
        && (lo <= hi && theta < lo ==> r == lo)
        && (lo <= hi && theta > hi ==> r == hi)
        && (hi < theta < lo ==> r == (if theta > (lo + hi) / 2.0 then lo else hi))
        && (hi < theta < lo ==> Abs(r - theta) <= Abs(lo - theta) && Abs(r - theta) <= Abs(hi - theta)))
  {
  }

  /** How one update divides a pending increment: applied now, kept for later. */
  datatype Split<T> = Split(applied: T, kept: T)

  /**
   * With damping, one update applies dampingFactor of a pending increment
   * and keeps the rest; without damping it applies all of it. Nothing is
   * lost either way.
   */
  function Consume(enableDamping: bool, dampingFactor: real, pending: real): Split<real> {
    if enableDamping then Split(pending * dampingFactor, pending * (1.0 - dampingFactor))
    else Split(pending, 0.0)
  }

  lemma ConsumeLosesNothing(enableDamping: bool, dampingFactor: real, pending: real)
    ensures var s := Consume(enableDamping, dampingFactor, pending);
      && s.applied + s.kept == pending
      && (!enableDamping ==> s.kept == 0.0)
      && (enableDamping ==> s.kept == (1.0 - dampingFactor) * pending)
  {
  }

  /** The same division for the pending pan offset. */
  function ConsumeOffset(enableDamping: bool, dampingFactor: real, pending: Vec3): Split<Vec3> {
    if enableDamping then Split(Scaled(pending, dampingFactor), Scaled(pending, 1.0 - dampingFactor))
    else Split(pending, Origin)
  }

  /** The pan offset is divided like a scalar increment, component by component. */
  lemma ConsumeOffsetLosesNothing(enableDamping: bool, dampingFactor: real, pending: Vec3)
    ensures var s := ConsumeOffset(enableDamping, dampingFactor, pending);
      && Add(s.applied, s.kept) == pending
      && (!enableDamping ==> s.kept == Origin)
      && (enableDamping ==> s.kept == Scaled(pending, 1.0 - dampingFactor))
  {
  }

  /**
   * Whether two azimuths differ by a whole number of turns, so that they
   * put the camera in the same direction.
   */
  predicate SameDirection(a: real, b: real) {
    ((a - b) / TwoPI).Floor as real == (a - b) / TwoPI
  }

  /**
   * The azimuth that Spherical.setFromVector3 reads back from the camera
   * offset at the start of every update(): atan2 lands in (-PI, PI], a
   * whole number of turns away from the azimuth that was written.
   */
  function WrapAzimuth(theta: real): (r: real)
    ensures -PI < r <= PI
    ensures SameDirection(r, theta)
    ensures -PI < theta <= PI ==> r == theta
  {
    theta + ((PI - theta) / TwoPI).Floor as real * TwoPI
  }

  /** Only one azimuth in (-PI, PI] points the camera in a given direction. */
  lemma WrapAzimuthIsUnique(theta: real, r: real)
    requires -PI < r <= PI && SameDirection(r, theta)
    ensures r == WrapAzimuth(theta)
  {
    var w := WrapAzimuth(theta);
    var j := ((r - theta) / TwoPI).Floor;
    var k := ((w - theta) / TwoPI).Floor;
    assert r - w == (j - k) as real * TwoPI;
  }

  /** The distance Spherical.makeSafe keeps the polar angle from either pole. */
  const EPS: real := 0.000001

  /** Spherical.makeSafe: the polar angle restricted to [EPS, PI - EPS]. */
  function MakeSafe(phi: real): (r: real)
    ensures EPS <= r <= PI - EPS
    ensures EPS <= phi <= PI - EPS ==> r == phi
    ensures phi < EPS ==> r == EPS
    ensures phi > PI - EPS ==> r == PI - EPS
  {
    Max(EPS, Min(PI - EPS, phi))
  }

  /** Camera position around the target: distance, polar angle, azimuth. */
  datatype Spherical = Spherical(radius: real, phi: real, theta: real)

  datatype Limits = Limits(
    minDistance: Bound, maxDistance: Bound,
    minPolarAngle: Bound, maxPolarAngle: Bound,
    minAzimuthAngle: Bound, maxAzimuthAngle: Bound)

  /** The configuration update() reads. */
  datatype Options = Options(
    limits: Limits,
    enableDamping: bool, dampingFactor: real,
    autoRotate: bool, autoRotateSpeed: real)

  /**
   * What update() reads and writes besides the camera: the spherical
   * position, the pending rotation (sphericalDelta), the pending dolly
   * (scale), the pending pan (panOffset) and the target.
   */
  datatype OrbitState = OrbitState(
    spherical: Spherical,
    deltaTheta: real, deltaPhi: real,
    scale: real,
    panOffset: Vec3,
    target: Vec3)

  /** Angle added per update by auto-rotation: 2 PI / 60 / 60 * speed, turning the same way as the speed. */
  function AutoRotationAngle(autoRotateSpeed: real): (angle: real)
    ensures angle > 0.0 <==> autoRotateSpeed > 0.0
    ensures angle == 0.0 <==> autoRotateSpeed == 0.0
  {
    2.0 * PI / 60.0 / 60.0 * autoRotateSpeed
  }

  /** At the default speed 2, one full turn takes 30 seconds of 60 updates each. */
  lemma DefaultAutoRotateIsThirtySecondsPerTurn()
    ensures 30.0 * 60.0 * AutoRotationAngle(2.0) == TwoPI
  {
  }

  /** The pending azimuth increment once auto-rotation (rotateLeft) has added its step. */
  function PendingTheta(opt: Options, idle: bool, s: OrbitState): real {
    if opt.autoRotate && idle then s.deltaTheta - AutoRotationAngle(opt.autoRotateSpeed)
    else s.deltaTheta
  }

  /** The azimuth satisfies the configured limits (always, when one is not finite). */
  predicate AzimuthAllowed(lim: Limits, theta: real) {
    lim.minAzimuthAngle.Finite? && lim.maxAzimuthAngle.Finite? ==>
      InAzimuthRange(NormalizeAzimuth(lim.minAzimuthAngle.value), NormalizeAzimuth(lim.maxAzimuthAngle.value), theta)
  }

  predicate PoseWithinLimits(lim: Limits, p: Spherical) {
    && AtLeast(lim.minDistance, p.radius) && AtMost(lim.maxDistance, p.radius)
    && AtLeast(lim.minPolarAngle, p.phi) && AtMost(lim.maxPolarAngle, p.phi)
    && AzimuthAllowed(lim, p.theta)
  }

  /**
   * A pose that reads back unchanged from the camera offset: the azimuth in
   * (-PI, PI] and the polar angle where makeSafe leaves it.
   */
  predicate ReadsBack(p: Spherical) {
    -PI < p.theta <= PI && EPS <= p.phi <= PI - EPS
  }

  /** The radius update() writes: scaled by the pending dolly, then clamped to the distance limits. */
  function DollyRadius(lim: Limits, radius: real, scale: real): real {
    Clamp(lim.minDistance, lim.maxDistance, radius * scale)
  }

  /** The scaled radius is kept when the limits allow it, and otherwise ends at the limit it crossed. */
  lemma DollyRadiusClamps(lim: Limits, radius: real, scale: real)
    ensures var r := DollyRadius(lim, radius, scale);
      && (AtLeast(lim.minDistance, radius * scale) && AtMost(lim.maxDistance, radius * scale) ==> r == radius * scale)
      && (lim.minDistance.Finite? && radius * scale < lim.minDistance.value ==> r == lim.minDistance.value)
      && (Ordered(lim.minDistance, lim.maxDistance) && lim.maxDistance.Finite? && radius * scale > lim.maxDistance.value ==>
            r == lim.maxDistance.value)
  {
    ClampWithinBounds(lim.minDistance, lim.maxDistance, radius * scale);
  }

  /**
   * The pose one update() writes back around an already restricted azimuth:
   * the radius scaled and clamped, and the polar angle tilted by what this
   * frame applies, clamped and made safe.
   */
  function Pose(lim: Limits, p: Spherical, scale: real, dPhi: real, theta: real): Spherical {
    Spherical(
      DollyRadius(lim, p.radius, scale),
      MakeSafe(Clamp(lim.minPolarAngle, lim.maxPolarAngle, p.phi + dPhi)),
      theta)
  }

  /**
   * The scalar steps of update(): read the azimuth back into (-PI, PI],
   * auto-rotate when idle, apply the pending rotation, clamp azimuth, polar
   * angle (then makeSafe) and radius, move the target by the pending pan,
   * decay or clear what is pending, and reset the scale. `idle` says
   * whether the gesture state is NONE.
   */
  function UpdateOrbit(opt: Options, idle: bool, s: OrbitState): (r: OrbitState)
    ensures r.scale == 1.0
    ensures AzimuthAllowed(opt.limits, r.spherical.theta)
    ensures EPS <= r.spherical.phi <= PI - EPS
  {
    var dTheta := Consume(opt.enableDamping, opt.dampingFactor, PendingTheta(opt, idle, s));
    var dPhi := Consume(opt.enableDamping, opt.dampingFactor, s.deltaPhi);
    var pan := ConsumeOffset(opt.enableDamping, opt.dampingFactor, s.panOffset);
    OrbitState(
      Pose(opt.limits, s.spherical, s.scale, dPhi.applied,
        ClampAzimuth(opt.limits.minAzimuthAngle, opt.limits.maxAzimuthAngle, WrapAzimuth(s.spherical.theta) + dTheta.applied)),
      dTheta.kept, dPhi.kept,
      1.0,
      pan.kept,
      Vec3(s.target.x + pan.applied.x, s.target.y + pan.applied.y, s.target.z + pan.applied.z))
  }

  /**
   * What one update() guarantees: the scale is reset, the pose is inside
   * the limits (the polar angle as far as makeSafe allows).
   */
  lemma UpdateOrbitRespectsLimits(opt: Options, idle: bool, s: OrbitState)
    ensures var r := UpdateOrbit(opt, idle, s);
      r.scale == 1.0
    ensures var r := UpdateOrbit(opt, idle, s);
      AzimuthAllowed(opt.limits, r.spherical.theta)
    ensures var r, lim := UpdateOrbit(opt, idle, s), opt.limits;
      Ordered(lim.minPolarAngle, lim.maxPolarAngle) && AtLeast(lim.minPolarAngle, PI - EPS) && AtMost(lim.maxPolarAngle, EPS) ==>
        AtLeast(lim.minPolarAngle, r.spherical.phi) && AtMost(lim.maxPolarAngle, r.spherical.phi)
    ensures var r := UpdateOrbit(opt, idle, s);
      EPS <= r.spherical.phi <= PI - EPS
    ensures var r := UpdateOrbit(opt, idle, s);
      Ordered(opt.limits.minDistance, opt.limits.maxDistance) ==>
        AtLeast(opt.limits.minDistance, r.spherical.radius) && AtMost(opt.limits.maxDistance, r.spherical.radius)
  {
  }

  /** Without damping, update() uses up the pending rotation and pan: the target moves by all of panOffset. */
  lemma UpdateWithoutDampingClearsPending(opt: Options, idle: bool, s: OrbitState)
    ensures var r := UpdateOrbit(opt, idle, s);
      !opt.enableDamping ==>
      && r.deltaTheta == 0.0 && r.deltaPhi == 0.0 && r.panOffset == Origin
      && r.target == Add(s.target, s.panOffset)
  {
  }

  /**
   * With damping, update() keeps (1 - dampingFactor) of the pending
   * rotation and pan for the next frames, and target plus panOffset is
   * conserved.
   */
  lemma UpdateWithDampingDecaysPending(opt: Options, idle: bool, s: OrbitState)
    ensures var r := UpdateOrbit(opt, idle, s);
      opt.enableDamping ==>
      && r.deltaTheta == (1.0 - opt.dampingFactor) * PendingTheta(opt, idle, s)
      && r.deltaPhi == (1.0 - opt.dampingFactor) * s.deltaPhi
      && r.panOffset == Scaled(s.panOffset, 1.0 - opt.dampingFactor)
      && Add(r.target, r.panOffset) == Add(s.target, s.panOffset)
  {
    ConsumeOffsetLosesNothing(opt.enableDamping, opt.dampingFactor, s.panOffset);
  }

  /**
   * Whatever the limits do not cut off, one update() conserves: the applied
   * plus the still pending azimuth and polar angle equal what was there plus
   * what was pending (all of it applied without damping).
   */
  lemma UpdateOrbitConservesMotion(opt: Options, idle: bool, s: OrbitState)
    ensures var r := UpdateOrbit(opt, idle, s);
      var theta := WrapAzimuth(s.spherical.theta) + Consume(opt.enableDamping, opt.dampingFactor, PendingTheta(opt, idle, s)).applied;
      AzimuthAllowed(opt.limits, theta) ==>
        r.spherical.theta + r.deltaTheta == WrapAzimuth(s.spherical.theta) + PendingTheta(opt, idle, s)
    ensures var r := UpdateOrbit(opt, idle, s);
      var phi := s.spherical.phi + Consume(opt.enableDamping, opt.dampingFactor, s.deltaPhi).applied;
      AtLeast(opt.limits.minPolarAngle, phi) && AtMost(opt.limits.maxPolarAngle, phi) && EPS <= phi <= PI - EPS ==>
        r.spherical.phi + r.deltaPhi == s.spherical.phi + s.deltaPhi
  {
    var dTheta := Consume(opt.enableDamping, opt.dampingFactor, PendingTheta(opt, idle, s));
    ConsumeLosesNothing(opt.enableDamping, opt.dampingFactor, PendingTheta(opt, idle, s));
    ConsumeLosesNothing(opt.enableDamping, opt.dampingFactor, s.deltaPhi);
    ClampAzimuthIsNearestAllowed(opt.limits.minAzimuthAngle, opt.limits.maxAzimuthAngle, WrapAzimuth(s.spherical.theta) + dTheta.applied);
  }

  /** The radius update() writes is DollyRadius of the old radius and scale. */
  lemma UpdateOrbitRadius(opt: Options, idle: bool, s: OrbitState)
    ensures UpdateOrbit(opt, idle, s).spherical.radius == DollyRadius(opt.limits, s.spherical.radius, s.scale)
  {
  }

  /**
   * update() multiplies the radius by the pending scale; a radius the
   * distance limits cut off ends at the limit it crossed.
   */
  lemma UpdateAppliesScale(opt: Options, idle: bool, s: OrbitState)
    ensures var r := UpdateOrbit(opt, idle, s);
      var radius, lim := s.spherical.radius * s.scale, opt.limits;
      && (AtLeast(lim.minDistance, radius) && AtMost(lim.maxDistance, radius) ==> r.spherical.radius == radius)
      && (lim.minDistance.Finite? && radius < lim.minDistance.value ==> r.spherical.radius == lim.minDistance.value)
      && (Ordered(lim.minDistance, lim.maxDistance) && lim.maxDistance.Finite? && radius > lim.maxDistance.value ==>
            r.spherical.radius == lim.maxDistance.value)
  {
    UpdateOrbitRadius(opt, idle, s);
    DollyRadiusClamps(opt.limits, s.spherical.radius, s.scale);
  }

  /**
   * With nothing pending and a pose inside the limits that reads back
   * unchanged, update() leaves the pose and the target where they are (so
   * reset() restores a saved pose exactly only at rest).
   */
  lemma UpdateAtRestKeepsPose(opt: Options, idle: bool, s: OrbitState)
    requires s.deltaTheta == 0.0 && s.deltaPhi == 0.0 && s.scale == 1.0 && s.panOffset == Origin
    requires !(opt.autoRotate && idle)
    requires PoseWithinLimits(opt.limits, s.spherical) && ReadsBack(s.spherical)
    ensures UpdateOrbit(opt, idle, s) == s
  {
    ClampAzimuthIsNearestAllowed(opt.limits.minAzimuthAngle, opt.limits.maxAzimuthAngle, s.spherical.theta);
  }

  /**
   * Without damping or auto-rotation a second update() only reads the
   * azimuth back into (-PI, PI]: the camera stays where the first one put
   * it, as long as that direction is allowed by the azimuth limits (always,
   * when they are not both finite).
   */
  lemma UpdateWithoutDampingSettles(opt: Options, idle: bool, s: OrbitState)
    requires !opt.enableDamping && !(opt.autoRotate && idle)
    ensures var r := UpdateOrbit(opt, idle, s);
      var theta := WrapAzimuth(r.spherical.theta);
      && SameDirection(theta, r.spherical.theta)
      && (AzimuthAllowed(opt.limits, theta) ==>
            UpdateOrbit(opt, idle, r) == r.(spherical := r.spherical.(theta := theta)))
  {
    var lim := opt.limits;
    var r := UpdateOrbit(opt, idle, s);
    var theta := WrapAzimuth(r.spherical.theta);
    ClampIdempotent(lim.minDistance, lim.maxDistance, s.spherical.radius * s.scale);
    ClampWithinBounds(lim.minPolarAngle, lim.maxPolarAngle, s.spherical.phi + s.deltaPhi);
    ClampWithinBounds(lim.minPolarAngle, lim.maxPolarAngle, r.spherical.phi);
    ClampAzimuthIsNearestAllowed(lim.minAzimuthAngle, lim.maxAzimuthAngle, theta);
    assert r.spherical.radius * r.scale == r.spherical.radius;
  }

  /**
   * The source lets one large step through a wrap-around range: with limits
   * 170 and -170 degrees, an azimuth of 3.0 turned by 1.0 is kept at 4.0,
   * which points into the excluded arc; the next update() reads it back as
   * 4.0 - 2 PI and only then moves it to -170 degrees.
   */
  lemma WrapAroundStepCanLandInGap()
    ensures var lim := Limits(Finite(0.0), Unbounded, Finite(0.0), Finite(PI),
                              Finite(17.0 * PI / 18.0), Finite(-17.0 * PI / 18.0));
      var opt := Options(lim, false, 0.05, false, 2.0);
      var s := OrbitState(Spherical(1.0, PI / 2.0, 3.0), 1.0, 0.0, 1.0, Origin, Origin);
      var r := UpdateOrbit(opt, true, s);
      && r.spherical.theta == 4.0
      && !AzimuthAllowed(lim, WrapAzimuth(r.spherical.theta))
      && UpdateOrbit(opt, true, r).spherical.theta == -17.0 * PI / 18.0
  {
    assert WrapAzimuth(4.0) == 4.0 - TwoPI by {
      WrapAzimuthIsUnique(4.0, 4.0 - TwoPI);
    }
  }

  /**
   * Auto-rotation: with no other pending azimuth and no finite azimuth
   * limits, an idle update() turns the camera by -AutoRotationAngle (all of
   * it now without damping, the rest left pending with it), and a
   * non-idle one does not rotate at all.
   */
  lemma AutoRotationTurnsIdleCamera(opt: Options, idle: bool, s: OrbitState)
    requires s.deltaTheta == 0.0 && opt.autoRotate
    requires !(opt.limits.minAzimuthAngle.Finite? && opt.limits.maxAzimuthAngle.Finite?)
    ensures var r := UpdateOrbit(opt, idle, s);
      && r.spherical.theta + r.deltaTheta
         == WrapAzimuth(s.spherical.theta) - (if idle then AutoRotationAngle(opt.autoRotateSpeed) else 0.0)
      && (!opt.enableDamping && idle ==>
            r.spherical.theta == WrapAzimuth(s.spherical.theta) - AutoRotationAngle(opt.autoRotateSpeed))
      && (!idle ==> r.spherical.theta == WrapAzimuth(s.spherical.theta) && r.deltaTheta == 0.0)
  {
    UpdateOrbitConservesMotion(opt, idle, s);
    UpdateWithoutDampingClearsPending(opt, idle, s);
  }

  /** b to the power n. */
  function Pow(b: real, n: nat): real {
    if n == 0 then 1.0 else b * Pow(b, n - 1)
  }

  lemma {:induction false} PowNonZero(b: real, n: nat)
    requires b != 0.0
    ensures Pow(b, n) != 0.0
  {
    if n > 0 {
      PowNonZero(b, n - 1);
    }
  }

  /** The increment still pending after n damped updates with no new input. */
  function KeptAfter(dampingFactor: real, pending: real, n: nat): real
    decreases n
  {
    if n == 0 then pending
    else KeptAfter(dampingFactor, Consume(true, dampingFactor, pending).kept, n - 1)
  }

  /** The total applied by those n damped updates. */
  function AppliedOver(dampingFactor: real, pending: real, n: nat): real
    decreases n
  {
    if n == 0 then 0.0
    else
      var s := Consume(true, dampingFactor, pending);
      s.applied + AppliedOver(dampingFactor, s.kept, n - 1)
  }

  /** Damping decays a pending increment geometrically, by (1 - dampingFactor) per update. */
  lemma {:induction false} KeptAfterIsGeometric(dampingFactor: real, pending: real, n: nat)
    ensures KeptAfter(dampingFactor, pending, n) == pending * Pow(1.0 - dampingFactor, n)
    decreases n
  {
    if n > 0 {
      var b := 1.0 - dampingFactor;
      var next := Consume(true, dampingFactor, pending).kept;
      assert next == b * pending;
      KeptAfterIsGeometric(dampingFactor, next, n - 1);
      var q := Pow(b, n - 1);
      assert Pow(b, n) == b * q;
      calc {
        KeptAfter(dampingFactor, pending, n);
        KeptAfter(dampingFactor, next, n - 1);
        (b * pending) * q;
        { assert (b * pending) * q == pending * (b * q); }
        pending * Pow(b, n);
      }
    }
  }

  /** What damping has applied plus what it still holds is the original increment. */
  lemma {:induction false} DampingConservesIncrement(dampingFactor: real, pending: real, n: nat)
    ensures AppliedOver(dampingFactor, pending, n) + KeptAfter(dampingFactor, pending, n) == pending
    decreases n
  {
    if n > 0 {
      var s := Consume(true, dampingFactor, pending);
      DampingConservesIncrement(dampingFactor, s.kept, n - 1);
    }
  }

  /** Unless dampingFactor is 1, a non-zero increment never decays to exactly zero. */
  lemma DampedIncrementNeverVanishes(dampingFactor: real, pending: real, n: nat)
    requires pending != 0.0 && dampingFactor != 1.0
    ensures KeptAfter(dampingFactor, pending, n) != 0.0
  {
    KeptAfterIsGeometric(dampingFactor, pending, n);
    PowNonZero(1.0 - dampingFactor, n);
  }

  /** The orbit state after n consecutive update() calls with nothing new in between. */
  function Updates(opt: Options, idle: bool, s: OrbitState, n: nat): OrbitState
    decreases n
  {
    if n == 0 then s else Updates(opt, idle, UpdateOrbit(opt, idle, s), n - 1)
  }

  /**
   * n damped update() calls without auto-rotation leave exactly KeptAfter of
   * each pending increment (the rotation and every component of the pan),
   * and move the target by AppliedOver of the pan: the lemmas above about
   * the damping iteration are statements about update() itself.
   */
  lemma {:induction false} RepeatedDampedUpdates(opt: Options, idle: bool, s: OrbitState, n: nat)
    requires opt.enableDamping && !(opt.autoRotate && idle)
    ensures var r, d := Updates(opt, idle, s, n), opt.dampingFactor;
      && r.deltaTheta == KeptAfter(d, s.deltaTheta, n)
      && r.deltaPhi == KeptAfter(d, s.deltaPhi, n)
      && r.panOffset == Vec3(KeptAfter(d, s.panOffset.x, n), KeptAfter(d, s.panOffset.y, n), KeptAfter(d, s.panOffset.z, n))
      && r.target == Vec3(s.target.x + AppliedOver(d, s.panOffset.x, n),
                          s.target.y + AppliedOver(d, s.panOffset.y, n),
                          s.target.z + AppliedOver(d, s.panOffset.z, n))
    decreases n
  {
    if n > 0 {
      var u := UpdateOrbit(opt, idle, s);
      var d := opt.dampingFactor;
      assert u.deltaTheta == Consume(true, d, s.deltaTheta).kept;
      assert u.deltaPhi == Consume(true, d, s.deltaPhi).kept;
      assert u.panOffset == Vec3(Consume(true, d, s.panOffset.x).kept, Consume(true, d, s.panOffset.y).kept,
                                 Consume(true, d, s.panOffset.z).kept);
      assert u.target == Vec3(s.target.x + Consume(true, d, s.panOffset.x).applied,
                              s.target.y + Consume(true, d, s.panOffset.y).applied,
                              s.target.z + Consume(true, d, s.panOffset.z).applied);
      RepeatedDampedUpdates(opt, idle, u, n - 1);
    }
  }
}
