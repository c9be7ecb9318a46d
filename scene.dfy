/**
 * The simulation view: the per-frame step of the render loop (earth and moon
 * placement, the orbit-angle accumulator, the bounded trail of recent moon
 * positions, the force arrows and the field-grid displacement clamp) and the
 * pointer drag that sets the separation while auto-orbit is off.
 *
 * Canvas drawing itself is not modelled; a frame's result is the geometry it
 * would draw. Math.sqrt, Math.cos, Math.sin, Math.atan2 and Math.log10 are
 * left uninterpreted: they are fields of a Transcendentals value that the
 * caller supplies, so nothing below depends on what they compute.
 */
module Scene {
  import opened Optional
  import opened Arith
  import opened Telemetry

  datatype Point = Point(x: real, y: real)

  datatype Transcendentals = Transcendentals(
    sqrt: real -> real,
    cos: real -> real,
    sin: real -> real,
    atan2: (real, real) -> real,
    log10: real -> real)

  /** Math.PI. */
  const Pi: real := 3.141592653589793

  /** The trail keeps at most this many moon positions. */
  const TrailCapacity: nat := 250

  /** The twinkle clock's advance per frame. */
  const TimeStep: real := 0.012

  /** The drag writes separations within [MinDrag, MaxDrag]. */
  const MinDrag: real := 120.0
  const MaxDrag: real := 580.0

  /** Force-arrow lengths lie within [MinArrow, MaxArrow]. */
  const MinArrow: real := 35.0
  const MaxArrow: real := 130.0

  /** No grid sample is pushed further than this. */
  const MaxDeform: real := 60.0

  /** `Math.max(lo, Math.min(hi, x))`. */
  function Clamp(lo: real, hi: real, x: real): (r: real)
    requires lo <= hi
    ensures lo <= r <= hi
    ensures lo <= x <= hi ==> r == x
    ensures x < lo ==> r == lo
    ensures hi < x ==> r == hi
  {
    Max(lo, Min(hi, x))
  }

  // ---------------------------------------------------------------------------
  // Placement
  // ---------------------------------------------------------------------------

  /** Earth's horizontal position: left of centre by distance/5 on wide canvases,
      by distance/8 on medium ones, centred on narrow ones. The render loop and
      the pointer-down handler both place it this way. */
  function EarthX(width: nat, distance: real): (x: real)
    ensures width > 1200 ==> x == (width as real) / 2.0 - distance / 5.0
    ensures 800 < width <= 1200 ==> x == (width as real) / 2.0 - distance / 8.0
    ensures width <= 800 ==> x == (width as real) / 2.0
    ensures distance >= 0.0 ==> (width as real) / 2.0 - distance / 5.0 <= x <= (width as real) / 2.0
  {
    (width as real) / 2.0 - (if width > 1200 then distance / 5.0 else if width > 800 then distance / 8.0 else 0.0)
  }

  /** Earth sits at EarthX, vertically centred. For every separation the slider
      and the drag can produce it stays within the left half of the canvas. */
  function EarthPosition(width: nat, height: nat, distance: real): (p: Point)
    ensures p.y == (height as real) / 2.0
    ensures 0.0 <= distance <= MaxDrag ==> 0.0 <= p.x <= (width as real) / 2.0
  {
    Point(EarthX(width, distance), (height as real) / 2.0)
  }

  /** The orbit angle's advance per auto-orbit frame: sqrt(100 / distance) * 0.05 * velocity. */
  function OrbitStep(m: Transcendentals, s: SimulationState): (step: real)
    requires s.distance != 0.0
    ensures s.velocity == 0.0 ==> step == 0.0
    ensures m.sqrt(100.0 / s.distance) > 0.0 ==> (step > 0.0 <==> s.velocity > 0.0)
  {
    var rate := m.sqrt(100.0 / s.distance) * 0.05;
    if rate > 0.0 then
      MulSign(rate, s.velocity);
      Mul(rate, s.velocity)
    else
      Mul(rate, s.velocity)
  }

  /** The moon in auto-orbit: at `angle` on the circle of radius `distance` about
      the earth, whenever cos and sin of that angle form a unit vector. */
  function OrbitPosition(m: Transcendentals, earth: Point, distance: real, angle: real): (p: Point)
    ensures Mul(m.cos(angle), m.cos(angle)) + Mul(m.sin(angle), m.sin(angle)) == 1.0 ==>
              Mul(p.x - earth.x, p.x - earth.x) + Mul(p.y - earth.y, p.y - earth.y) == Mul(distance, distance)
  {
    var c, sn := m.cos(angle), m.sin(angle);
    if Mul(c, c) + Mul(sn, sn) == 1.0 then
      ScaledUnitLength(distance, c, sn);
      Point(earth.x + Mul(distance, c), earth.y + Mul(distance, sn))
    else
      Point(earth.x + Mul(distance, c), earth.y + Mul(distance, sn))
  }

  /** The moon in manual mode: straight to the earth's right, `distance` away. */
  function ManualPosition(earth: Point, distance: real): (p: Point)
    ensures p.y == earth.y && p.x - earth.x == distance
  {
    Point(earth.x + distance, earth.y)
  }

  // ---------------------------------------------------------------------------
  // The trail
  // ---------------------------------------------------------------------------

  /** `push` the point, then `shift` once if the trail grew past capacity. */
  function Appended(path: seq<Point>, p: Point): (r: seq<Point>)
    ensures |r| > 0 && r[|r| - 1] == p
    ensures |path| <= TrailCapacity ==> |r| <= TrailCapacity
    ensures |path| < TrailCapacity ==> r == path + [p]
    ensures |path| >= TrailCapacity ==> r == path[1..] + [p]
  {
    var pushed := path + [p];
    if |pushed| > TrailCapacity then pushed[1..] else pushed
  }

  /** The last `n` elements of `s` (all of `s` when it is shorter). */
  function Latest<T>(s: seq<T>, n: nat): (r: seq<T>)
    ensures |r| == if |s| <= n then |s| else n
  {
    if |s| <= n then s else s[|s| - n..]
  }

  /** The trail after appending `ps` one frame at a time. */
  function AppendAll(path: seq<Point>, ps: seq<Point>): (r: seq<Point>)
    ensures |path| <= TrailCapacity ==> |r| <= TrailCapacity
    ensures ps != [] ==> |r| > 0 && r[|r| - 1] == ps[|ps| - 1]
    ensures ps == [] ==> r == path
    decreases |ps|
  {
    if ps == [] then path else AppendAll(Appended(path, ps[0]), ps[1..])
  }

  /** Taking the latest n, appending, and taking the latest n again is the same
      as appending and taking the latest n once. */
  lemma LatestOfLatest<T>(s: seq<T>, t: seq<T>, n: nat)
    ensures Latest(Latest(s, n) + t, n) == Latest(s + t, n)
  {
    if |s| > n {
      var a, b := Latest(Latest(s, n) + t, n), Latest(s + t, n);
      assert |a| == |b|;
      forall i | 0 <= i < |a|
        ensures a[i] == b[i]
      {
        var k := |Latest(s, n) + t| - |a| + i;
        if k < n {
          assert a[i] == s[|s| - n + k];
        } else {
          assert a[i] == t[k - n];
        }
      }
    }
  }

  /** One append keeps exactly the latest TrailCapacity positions. */
  lemma AppendedIsLatest(path: seq<Point>, p: Point)
    requires |path| <= TrailCapacity
    ensures Appended(path, p) == Latest(path + [p], TrailCapacity)
  {
  }

  /** However many frames append to it, the trail is the latest TrailCapacity
      positions in arrival order: a bounded FIFO that drops the oldest first. */
  lemma {:induction false} AppendAllIsLatest(path: seq<Point>, ps: seq<Point>)
    requires |path| <= TrailCapacity
    ensures AppendAll(path, ps) == Latest(path + ps, TrailCapacity)
    ensures |AppendAll(path, ps)| <= TrailCapacity
    decreases |ps|
  {
    if ps == [] {
      assert path + ps == path;
    } else {
      var next := Appended(path, ps[0]);
      AppendedIsLatest(path, ps[0]);
      AppendAllIsLatest(next, ps[1..]);
      LatestOfLatest(path + [ps[0]], ps[1..], TrailCapacity);
      assert path + [ps[0]] + ps[1..] == path + ps;
    }
  }

  // ---------------------------------------------------------------------------
  // Vectors and the field grid
  // ---------------------------------------------------------------------------

  /** An arrow as drawn: its tail, its direction and its shaft length. */
  datatype Arrow = Arrow(origin: Point, angle: real, length: real)

  /** The arrows of one frame: the gravity pair and, in auto-orbit, the velocity arrow. */
  datatype Vectors = Vectors(action: Arrow, reaction: Arrow, velocity: Option<Arrow>)

  /** The arrow routine's own force figure: earthMass * moonMass * 10000 / (distance * 0.7). */
  function RawForce(earthMass: real, moonMass: real, distance: real): (f: real)
    requires distance != 0.0
    ensures earthMass > 0.0 && moonMass > 0.0 && distance > 0.0 ==> f > 0.0
    ensures earthMass == 0.0 || moonMass == 0.0 ==> f == 0.0
  {
    var k := Mul(Mul(earthMass, moonMass), 10000.0);
    if earthMass > 0.0 && moonMass > 0.0 && distance > 0.0 then
      MulPositive(earthMass, moonMass);
      MulPositive(Mul(earthMass, moonMass), 10000.0);
      DivPositive(k, distance * 0.7);
      Div(k, distance * 0.7)
    else
      Div(k, distance * 0.7)
  }

  /** Unlike the headline force, the arrows' force figure falls off with the
      distance itself, not its square: tripling the distance divides it by three. */
  lemma RawForceInverseLinear(earthMass: real, moonMass: real, distance: real)
    requires distance != 0.0
    ensures RawForce(earthMass, moonMass, 3.0 * distance) * 3.0 == RawForce(earthMass, moonMass, distance)
  {
    var k := Mul(Mul(earthMass, moonMass), 10000.0);
    var c := distance * 0.7;
    assert (3.0 * distance) * 0.7 == 3.0 * c;
    assert Div(k, c) * c == k;
    assert Div(k, 3.0 * c) * (3.0 * c) == k;
  }

  /** 20 * log10(rawForce + 1), clamped to [MinArrow, MaxArrow]. */
  function ArrowLength(m: Transcendentals, rawForce: real): (len: real)
    ensures MinArrow <= len <= MaxArrow
    ensures MinArrow <= 20.0 * m.log10(rawForce + 1.0) <= MaxArrow ==> len == 20.0 * m.log10(rawForce + 1.0)
  {
    Clamp(MinArrow, MaxArrow, 20.0 * m.log10(rawForce + 1.0))
  }

  /** Newton's third law as drawn: the action arrow leaves the moon towards the
      earth, the reaction arrow leaves the earth towards the moon, both equally long. */
  function GravityPair(m: Transcendentals, s: SimulationState, earth: Point, moon: Point): (pair: (Arrow, Arrow))
    requires s.distance != 0.0
    ensures pair.0.origin == moon && pair.1.origin == earth
    ensures pair.1.angle == m.atan2(moon.y - earth.y, moon.x - earth.x)
    ensures pair.0.angle - pair.1.angle == Pi
    ensures pair.0.length == pair.1.length
    ensures MinArrow <= pair.0.length <= MaxArrow
  {
    var angle := m.atan2(moon.y - earth.y, moon.x - earth.x);
    var len := ArrowLength(m, RawForce(s.earthMass, s.moonMass, s.distance));
    (Arrow(moon, angle + Pi, len), Arrow(earth, angle, len))
  }

  /** The velocity arrow: from the moon, a quarter turn from the separation line,
      75 * velocity * (100 / sqrt(distance)) long. */
  function VelocityArrow(m: Transcendentals, s: SimulationState, earth: Point, moon: Point): (a: Arrow)
    requires m.sqrt(s.distance) != 0.0
    ensures a.origin == moon
    ensures a.angle - m.atan2(moon.y - earth.y, moon.x - earth.x) == Pi / 2.0
  {
    var angle := m.atan2(moon.y - earth.y, moon.x - earth.x);
    Arrow(moon, angle + Pi / 2.0, 75.0 * s.velocity * (100.0 / m.sqrt(s.distance)))
  }

  /** What a frame draws when vectors are on. */
  function FrameVectors(m: Transcendentals, s: SimulationState, earth: Point, moon: Point): (v: Vectors)
    requires s.distance != 0.0 && m.sqrt(s.distance) != 0.0
    ensures v.action.length == v.reaction.length
    ensures v.velocity.Some? <==> s.isAutoOrbit
  {
    var pair := GravityPair(m, s, earth, moon);
    Vectors(pair.0, pair.1, if s.isAutoOrbit then Some(VelocityArrow(m, s, earth, moon)) else None)
  }

  /** How far a grid sample at distance `dist` from the earth is pushed away from
      it: earthMass * 1600 / (dist + 40), never more than MaxDeform. */
  function Deform(earthMass: real, dist: real): (d: real)
    requires dist >= 0.0
    ensures d <= MaxDeform
    ensures earthMass >= 0.0 ==> d >= 0.0
    ensures d == MaxDeform <==> earthMass * 1600.0 / (dist + 40.0) >= MaxDeform
  {
    Min(MaxDeform, earthMass * 1600.0 / (dist + 40.0))
  }

  /** The grid bends less the further a sample lies from the earth, and strictly
      less wherever it is not already at the MaxDeform cap. */
  lemma DeformDecreasesWithDistance(earthMass: real, d1: real, d2: real)
    requires earthMass >= 0.0 && 0.0 <= d1 <= d2
    ensures Deform(earthMass, d2) <= Deform(earthMass, d1)
    ensures earthMass > 0.0 && d1 < d2 && Deform(earthMass, d2) < MaxDeform ==>
              Deform(earthMass, d2) < Deform(earthMass, d1)
  {
    var k := earthMass * 1600.0;
    if earthMass > 0.0 && d1 < d2 {
      DivByLarger(k, d1 + 40.0, d2 + 40.0);
    } else if d1 < d2 {
      assert k == 0.0;
    }
  }

  // ---------------------------------------------------------------------------
  // The render loop's state across frames
  // ---------------------------------------------------------------------------

  /** One frame's geometry. */
  datatype Frame = Frame(earth: Point, moon: Point, vectors: Option<Vectors>)

  /** The parameters a frame needs to be computable: a positive separation (the
      sliders and the drag keep it within [120, 580]) whose square root is not zero. */
  predicate Drawable(m: Transcendentals, s: SimulationState) {
    s.distance > 0.0 && m.sqrt(s.distance) != 0.0
  }

  /**
   * The mounted view. `path` is the trail reference, which lives as long as the
   * view; `orbitAngle` and `time` are locals of the render effect, which React
   * tears down and starts again (from 0) whenever the parameters change;
   * `props` are the parameters that effect run was started with.
   */
  class SimulationScene {
    const math: Transcendentals
    var path: seq<Point>
    var orbitAngle: real
    var time: real
    var props: SimulationState

    ghost predicate Valid()
      reads this
    {
      |path| <= TrailCapacity && Drawable(math, props)
    }

    /** Mounting: an empty trail and an effect run over `s` that has not drawn yet. */
    constructor (m: Transcendentals, s: SimulationState)
      requires Drawable(m, s)
      ensures Valid() && math == m && props == s
      ensures path == [] && orbitAngle == 0.0 && time == 0.0
    {
      math := m;
      path := [];
      orbitAngle := 0.0;
      time := 0.0;
      props := s;
    }

    /** One call of `render`: advance the clock, place earth and moon, keep the
        trail, and compute the arrows. */
    method RenderFrame(width: nat, height: nat) returns (f: Frame)
      requires Valid()
      modifies this
      ensures Valid() && props == old(props)
      ensures time == old(time) + TimeStep
      ensures f.earth == EarthPosition(width, height, props.distance)
      ensures props.isAutoOrbit ==> orbitAngle == old(orbitAngle) + OrbitStep(math, props)
      ensures props.isAutoOrbit ==> f.moon == OrbitPosition(math, f.earth, props.distance, orbitAngle)
      ensures !props.isAutoOrbit ==> orbitAngle == old(orbitAngle)
      ensures !props.isAutoOrbit ==> f.moon == ManualPosition(f.earth, props.distance)
      ensures !props.isAutoOrbit ==> path == []
      ensures props.isAutoOrbit && props.showPath ==> path == Appended(old(path), f.moon)
      ensures props.isAutoOrbit && !props.showPath ==> path == old(path)
      ensures f.vectors == if props.showVectors then Some(FrameVectors(math, props, f.earth, f.moon)) else None
    {
      time := time + TimeStep;
      var earth := Point(EarthX(width, props.distance), (height as real) / 2.0);
      var moon := Point(earth.x + props.distance, earth.y);
      if props.isAutoOrbit {
        var vFactor := math.sqrt(100.0 / props.distance) * 0.05;
        orbitAngle := orbitAngle + vFactor * props.velocity;
        moon := Point(earth.x + props.distance * math.cos(orbitAngle), earth.y + props.distance * math.sin(orbitAngle));
      } else {
        path := [];
      }
      if props.showPath && props.isAutoOrbit {
        path := path + [moon];
        if |path| > TrailCapacity {
          path := path[1..];
        }
      }
      var vectors := None;
      if props.showVectors {
        vectors := Some(FrameVectors(math, props, earth, moon));
      }
      f := Frame(earth, moon, vectors);
    }

    /** The render effect started again over new parameters `s`: the angle and the
        clock start from 0, the trail carries over, and the first frame is drawn at once. */
    method StartEffect(s: SimulationState, width: nat, height: nat) returns (f: Frame)
      requires Valid() && Drawable(math, s)
      modifies this
      ensures Valid() && props == s
      ensures time == TimeStep
      ensures orbitAngle == if s.isAutoOrbit then OrbitStep(math, s) else 0.0
      ensures f.earth == EarthPosition(width, height, s.distance)
      ensures s.isAutoOrbit ==> f.moon == OrbitPosition(math, f.earth, s.distance, orbitAngle)
      ensures !s.isAutoOrbit ==> f.moon == ManualPosition(f.earth, s.distance) && path == []
      ensures s.isAutoOrbit && s.showPath ==> path == Appended(old(path), f.moon)
      ensures s.isAutoOrbit && !s.showPath ==> path == old(path)
      ensures f.vectors == if s.showVectors then Some(FrameVectors(math, s, f.earth, f.moon)) else None
    {
      props := s;
      orbitAngle := 0.0;
      time := 0.0;
      f := RenderFrame(width, height);
    }
  }

  /** Switching auto-orbit off mid-flight: the trail that two orbiting frames
      built is emptied by the first frame of the restarted effect, and the angle
      starts again from 0 and stays there. */
  method AutoOrbitOffScenario(m: Transcendentals, s: SimulationState, width: nat, height: nat)
    returns (trail: seq<Point>, angle: real)
    requires Drawable(m, s) && s.isAutoOrbit && s.showPath
    ensures trail == [] && angle == 0.0
  {
    var scene := new SimulationScene(m, s);
    var f := scene.RenderFrame(width, height);
    f := scene.RenderFrame(width, height);
    assert |scene.path| == 2;
    f := scene.StartEffect(s.(isAutoOrbit := false), width, height);
    f := scene.RenderFrame(width, height);
    trail, angle := scene.path, scene.orbitAngle;
  }

  // ---------------------------------------------------------------------------
  // Dragging the separation
  // ---------------------------------------------------------------------------

  /** The canvas as the pointer handler sees it: its pixel width and its left edge on screen. */
  datatype Canvas = Canvas(width: nat, left: real)

  /** What a `pointermove` listener closed over at pointer-down: the earth's x at
      that moment and the canvas's left edge. */
  datatype DragSession = DragSession(earthX: real, left: real)

  /** `handlePointerDown`: ignored in auto-orbit or without a canvas; otherwise a
      drag starts, anchored at the earth's x as the render loop places it. */
  function DragStart(s: SimulationState, canvas: Option<Canvas>): (r: Option<DragSession>)
    ensures r.None? <==> s.isAutoOrbit || canvas.None?
    ensures r.Some? ==> r.value == DragSession(EarthX(canvas.value.width, s.distance), canvas.value.left)
  {
    if s.isAutoOrbit then None
    else match canvas
      case None => None
      case Some(c) => Some(DragSession(EarthX(c.width, s.distance), c.left))
  }

  /** `onMove`: the horizontal gap between the pointer and the earth, clamped to [MinDrag, MaxDrag]. */
  function DragDistance(d: DragSession, clientX: real): (distance: real)
    ensures MinDrag <= distance <= MaxDrag
    ensures MinDrag <= Abs(clientX - d.left - d.earthX) <= MaxDrag ==> distance == Abs(clientX - d.left - d.earthX)
    ensures Abs(clientX - d.left - d.earthX) < MinDrag ==> distance == MinDrag
    ensures Abs(clientX - d.left - d.earthX) > MaxDrag ==> distance == MaxDrag
  {
    Clamp(MinDrag, MaxDrag, Abs(clientX - d.left - d.earthX))
  }

  /** A drag's write-back changes the separation, to a value within [MinDrag, MaxDrag], and nothing else. */
  lemma DragWritesOnlyDistance(s: SimulationState, d: DragSession, clientX: real)
    ensures var next := Merge(s, DistanceUpdate(DragDistance(d, clientX)));
            next == s.(distance := next.distance) && MinDrag <= next.distance <= MaxDrag
  {
  }

  /** In manual mode, pressing on the canvas and moving to where the moon is drawn
      writes back the separation the moon was drawn at. */
  lemma DragAtMoonKeepsDistance(s: SimulationState, c: Canvas, height: nat)
    requires !s.isAutoOrbit && MinDrag <= s.distance <= MaxDrag
    ensures var session := DragStart(s, Some(c));
            var moon := ManualPosition(EarthPosition(c.width, height, s.distance), s.distance);
            session.Some? && DragDistance(session.value, c.left + moon.x) == s.distance
  {
  }

  /** The drag listeners: IDLE when `session` is None, DRAGGING otherwise. */
  class DragHandler {
    var session: Option<DragSession>

    constructor ()
      ensures session.None?
    {
      session := None;
    }

    /** A press starts a drag unless the handler ignores it, in which case nothing changes. */
    method PointerDown(s: SimulationState, canvas: Option<Canvas>)
      modifies this
      ensures DragStart(s, canvas).Some? ==> session == DragStart(s, canvas)
      ensures DragStart(s, canvas).None? ==> session == old(session)
    {
      var started := DragStart(s, canvas);
      if started.Some? {
        session := started;
      }
    }

    /** A move emits a separation only while dragging, and always one within [MinDrag, MaxDrag]. */
    method PointerMove(clientX: real) returns (emitted: Option<real>)
      ensures emitted.None? <==> session.None?
      ensures emitted.Some? ==> MinDrag <= emitted.value <= MaxDrag
      ensures emitted.Some? ==> emitted.value == DragDistance(session.value, clientX)
    {
      emitted := None;
      if session.Some? {
        emitted := Some(DragDistance(session.value, clientX));
      }
    }

    /** Releasing the pointer anywhere ends the drag. */
    method PointerUp()
      modifies this
      ensures session.None?
    {
      session := None;
    }
  }
}
