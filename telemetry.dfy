/**
 * The application root: the shared simulation parameters, the partial-record
 * merge through which every control writes them, the reset button, and the
 * telemetry readout (force, stability index, orbit status) derived from them.
 * JavaScript numbers are modelled as exact reals.
 */
module Telemetry {
  import opened Optional
  import opened Arith

  /** The shared parameter record. */
  datatype SimulationState = SimulationState(
    earthMass: real,
    moonMass: real,
    distance: real,
    velocity: real,
    showVectors: bool,
    showField: bool,
    showPath: bool,
    isAutoOrbit: bool)

  /** A `Partial<SimulationState>`: a field takes part in the merge exactly when it is `Some`. */
  datatype Update = Update(
    earthMass: Option<real>,
    moonMass: Option<real>,
    distance: Option<real>,
    velocity: Option<real>,
    showVectors: Option<bool>,
    showField: Option<bool>,
    showPath: Option<bool>,
    isAutoOrbit: Option<bool>)

  /** The empty update `{}`. */
  const NoUpdate: Update := Update(None, None, None, None, None, None, None, None)

  /** The update `{ distance: d }` sent by the scene while the moon is dragged. */
  function DistanceUpdate(d: real): (u: Update)
    ensures forall prev :: Merge(prev, u) == prev.(distance := d)
  {
    NoUpdate.(distance := Some(d))
  }

  /** The parameters the application starts with. */
  const InitialState: SimulationState :=
    SimulationState(5.97, 0.073, 350.0, 1.0, true, true, true, true)

  function Pick<T>(prev: T, u: Option<T>): T {
    match u
    case Some(v) => v
    case None => prev
  }

  /** `{ ...prev, ...updates }`: every field present in the update wins, every other field is kept. */
  function Merge(prev: SimulationState, u: Update): (next: SimulationState)
    ensures u.earthMass.Some? ==> next.earthMass == u.earthMass.value
    ensures u.earthMass.None? ==> next.earthMass == prev.earthMass
    ensures u.moonMass.Some? ==> next.moonMass == u.moonMass.value
    ensures u.moonMass.None? ==> next.moonMass == prev.moonMass
    ensures u.distance.Some? ==> next.distance == u.distance.value
    ensures u.distance.None? ==> next.distance == prev.distance
    ensures u.velocity.Some? ==> next.velocity == u.velocity.value
    ensures u.velocity.None? ==> next.velocity == prev.velocity
    ensures u.showVectors.Some? ==> next.showVectors == u.showVectors.value
    ensures u.showVectors.None? ==> next.showVectors == prev.showVectors
    ensures u.showField.Some? ==> next.showField == u.showField.value
    ensures u.showField.None? ==> next.showField == prev.showField
    ensures u.showPath.Some? ==> next.showPath == u.showPath.value
    ensures u.showPath.None? ==> next.showPath == prev.showPath
    ensures u.isAutoOrbit.Some? ==> next.isAutoOrbit == u.isAutoOrbit.value
    ensures u.isAutoOrbit.None? ==> next.isAutoOrbit == prev.isAutoOrbit
  {
    SimulationState(
      Pick(prev.earthMass, u.earthMass),
      Pick(prev.moonMass, u.moonMass),
      Pick(prev.distance, u.distance),
      Pick(prev.velocity, u.velocity),
      Pick(prev.showVectors, u.showVectors),
      Pick(prev.showField, u.showField),
      Pick(prev.showPath, u.showPath),
      Pick(prev.isAutoOrbit, u.isAutoOrbit))
  }

  /** `{ ...u1, ...u2 }`: two updates folded into one, the later one winning field by field. */
  function Combine(u1: Update, u2: Update): Update {
    Update(
      if u2.earthMass.Some? then u2.earthMass else u1.earthMass,
      if u2.moonMass.Some? then u2.moonMass else u1.moonMass,
      if u2.distance.Some? then u2.distance else u1.distance,
      if u2.velocity.Some? then u2.velocity else u1.velocity,
      if u2.showVectors.Some? then u2.showVectors else u1.showVectors,
      if u2.showField.Some? then u2.showField else u1.showField,
      if u2.showPath.Some? then u2.showPath else u1.showPath,
      if u2.isAutoOrbit.Some? then u2.isAutoOrbit else u1.isAutoOrbit)
  }

  /** Merging the empty update changes nothing. */
  lemma MergeNothing(s: SimulationState)
    ensures Merge(s, NoUpdate) == s
  {
  }

  /** Applying the same update twice is the same as applying it once. */
  lemma MergeIdempotent(s: SimulationState, u: Update)
    ensures Merge(Merge(s, u), u) == Merge(s, u)
  {
  }

  /** Two successive merges are one merge of the combined update. */
  lemma MergeTwice(s: SimulationState, u1: Update, u2: Update)
    ensures Merge(Merge(s, u1), u2) == Merge(s, Combine(u1, u2))
  {
  }

  /** The reset button: the four physical parameters go back to their start values, the toggles stay. */
  function ResetParameters(s: SimulationState): (r: SimulationState)
    ensures r.earthMass == InitialState.earthMass && r.moonMass == InitialState.moonMass
    ensures r.distance == InitialState.distance && r.velocity == InitialState.velocity
    ensures r.showVectors == s.showVectors && r.showField == s.showField
    ensures r.showPath == s.showPath && r.isAutoOrbit == s.isAutoOrbit
  {
    s.(earthMass := 5.97, moonMass := 0.073, distance := 350.0, velocity := 1.0)
  }

  /** Reset is a merge of the four physical values, so it is idempotent, and from
      the start toggles it gives back exactly the start state. */
  lemma ResetIsMerge(s: SimulationState)
    ensures ResetParameters(s) == Merge(s, Update(Some(5.97), Some(0.073), Some(350.0), Some(1.0), None, None, None, None))
    ensures ResetParameters(ResetParameters(s)) == ResetParameters(s)
    ensures s.showVectors && s.showField && s.showPath && s.isAutoOrbit ==> ResetParameters(s) == InitialState
  {
  }

  /** The application's parameter cell (`useState<SimulationState>`). */
  class ParameterStore {
    var state: SimulationState

    constructor ()
      ensures state == InitialState
    {
      state := InitialState;
    }

    /** `handleStateChange(updates)`: the one write path used by the controls and the scene. */
    method HandleStateChange(u: Update)
      modifies this
      ensures state == Merge(old(state), u)
    {
      state := Merge(state, u);
    }

    /** The reset button's click handler. */
    method ResetClicked()
      modifies this
      ensures state == ResetParameters(old(state))
    {
      state := state.(earthMass := 5.97, moonMass := 0.073, distance := 350.0, velocity := 1.0);
    }
  }

  // ---------------------------------------------------------------------------
  // Derived telemetry
  // ---------------------------------------------------------------------------

  function Abs(x: real): real { if x < 0.0 then -x else x }

  function Max(a: real, b: real): real { if a >= b then a else b }

  function Min(a: real, b: real): real { if a <= b then a else b }

  /** The visual scaling factor of the headline force. */
  const ForceScale: real := 1000.0

  /** earthMass * moonMass * 1000 / (distance / 100)^2: a display number, not a physical one. */
  function Force(earthMass: real, moonMass: real, distance: real): (f: real)
    requires distance != 0.0
    ensures earthMass > 0.0 && moonMass > 0.0 ==> f > 0.0
    ensures earthMass == 0.0 || moonMass == 0.0 ==> f == 0.0
  {
    var r := distance / 100.0;
    var k := Mul(Mul(earthMass, moonMass), ForceScale);
    SquarePositive(r);
    if earthMass > 0.0 && moonMass > 0.0 then
      MulPositive(earthMass, moonMass);
      MulPositive(Mul(earthMass, moonMass), ForceScale);
      DivPositive(k, Mul(r, r));
      Div(k, Mul(r, r))
    else
      Div(k, Mul(r, r))
  }

  /** Force as a quotient of named products, the form the proofs below work on. */
  lemma ForceAsQuotient(earthMass: real, moonMass: real, distance: real)
    requires distance != 0.0
    ensures Mul(distance / 100.0, distance / 100.0) > 0.0
    ensures Force(earthMass, moonMass, distance)
         == Div(Mul(Mul(earthMass, moonMass), ForceScale), Mul(distance / 100.0, distance / 100.0))
  {
    SquarePositive(distance / 100.0);
  }

  lemma ForceIncreasesWithEarthMass(e1: real, e2: real, moonMass: real, distance: real)
    requires e1 < e2 && moonMass > 0.0 && distance != 0.0
    ensures Force(e1, moonMass, distance) < Force(e2, moonMass, distance)
  {
    ForceAsQuotient(e1, moonMass, distance);
    ForceAsQuotient(e2, moonMass, distance);
    MulKeepsOrder(e1, e2, moonMass);
    MulKeepsOrder(Mul(e1, moonMass), Mul(e2, moonMass), ForceScale);
    DivKeepsOrder(Mul(Mul(e1, moonMass), ForceScale), Mul(Mul(e2, moonMass), ForceScale),
                  Mul(distance / 100.0, distance / 100.0));
  }

  lemma ForceIncreasesWithMoonMass(earthMass: real, m1: real, m2: real, distance: real)
    requires earthMass > 0.0 && m1 < m2 && distance != 0.0
    ensures Force(earthMass, m1, distance) < Force(earthMass, m2, distance)
  {
    ForceAsQuotient(earthMass, m1, distance);
    ForceAsQuotient(earthMass, m2, distance);
    MulKeepsOrder(m1, m2, earthMass);
    assert Mul(earthMass, m1) < Mul(earthMass, m2);
    MulKeepsOrder(Mul(earthMass, m1), Mul(earthMass, m2), ForceScale);
    DivKeepsOrder(Mul(Mul(earthMass, m1), ForceScale), Mul(Mul(earthMass, m2), ForceScale),
                  Mul(distance / 100.0, distance / 100.0));
  }

  lemma ForceDecreasesWithDistance(earthMass: real, moonMass: real, d1: real, d2: real)
    requires earthMass > 0.0 && moonMass > 0.0 && 0.0 < d1 < d2
    ensures Force(earthMass, moonMass, d2) < Force(earthMass, moonMass, d1)
  {
    var r1, r2 := d1 / 100.0, d2 / 100.0;
    ForceAsQuotient(earthMass, moonMass, d1);
    ForceAsQuotient(earthMass, moonMass, d2);
    MulPositive(earthMass, moonMass);
    MulPositive(Mul(earthMass, moonMass), ForceScale);
    MulKeepsOrder(r1, r2, r1);
    MulKeepsOrder(r1, r2, r2);
    assert Mul(r2, r1) == Mul(r1, r2);
    DivByLarger(Mul(Mul(earthMass, moonMass), ForceScale), Mul(r1, r1), Mul(r2, r2));
  }

  /** The inverse-square law: tripling the distance divides the force by nine. */
  lemma ForceInverseSquare(earthMass: real, moonMass: real, distance: real)
    requires distance != 0.0
    ensures Force(earthMass, moonMass, 3.0 * distance) * 9.0 == Force(earthMass, moonMass, distance)
  {
    ForceAsQuotient(earthMass, moonMass, distance);
    ForceAsQuotient(earthMass, moonMass, 3.0 * distance);
    var r := distance / 100.0;
    var k := Mul(Mul(earthMass, moonMass), ForceScale);
    assert (3.0 * distance) / 100.0 == 3.0 * r;
    assert Mul(3.0 * r, 3.0 * r) == 9.0 * Mul(r, r);
    assert Div(k, Mul(r, r)) * Mul(r, r) == k;
    assert Div(k, 9.0 * Mul(r, r)) * (9.0 * Mul(r, r)) == k;
  }

  /** max(0, 100 - |velocity - 1| * 100): peaks at the equilibrium factor 1.0. */
  function Stability(velocity: real): (s: real)
    ensures 0.0 <= s <= 100.0
    ensures s == 100.0 <==> velocity == 1.0
    ensures s == 0.0 <==> Abs(velocity - 1.0) >= 1.0
  {
    Max(0.0, 100.0 - Abs(velocity - 1.0) * 100.0)
  }

  /** The stability index falls off equally on both sides of velocity 1.0. */
  lemma StabilitySymmetric(d: real)
    ensures Stability(1.0 + d) == Stability(1.0 - d)
  {
  }

  /** Stability strictly decreases as velocity moves away from 1.0, until it reaches 0. */
  lemma StabilityDecreasesAwayFromEquilibrium(v1: real, v2: real)
    requires Abs(v1 - 1.0) < Abs(v2 - 1.0)
    ensures Stability(v2) <= Stability(v1)
    ensures Abs(v1 - 1.0) < 1.0 ==> Stability(v2) < Stability(v1)
  {
  }

  datatype Status = Escaping | Stable | Decaying

  /** The three-way status, tested in the source's order: escaping above 1.2, stable
      within [0.85, 1.15], decaying otherwise, which includes the gap (1.15, 1.2]. */
  function Classify(velocity: real): (st: Status)
    ensures st == Escaping <==> velocity > 1.2
    ensures st == Stable <==> 0.85 <= velocity <= 1.15
    ensures st == Decaying <==> velocity < 0.85 || (1.15 < velocity <= 1.2)
  {
    if velocity > 1.2 then Escaping
    else if velocity >= 0.85 && velocity <= 1.15 then Stable
    else Decaying
  }

  /** The status as the panel spells it; each name belongs to exactly one status. */
  function StatusName(st: Status): (name: string)
    ensures name == "ESCAPING" <==> st == Escaping
    ensures name == "STABLE" <==> st == Stable
    ensures name == "DECAYING" <==> st == Decaying
  {
    match st
    case Escaping => "ESCAPING"
    case Stable => "STABLE"
    case Decaying => "DECAYING"
  }

  /** The status colour: amber, green or red, one per status. */
  function StatusColor(st: Status): (color: string)
    ensures color == "#f59e0b" <==> st == Escaping
    ensures color == "#10b981" <==> st == Stable
    ensures color == "#ef4444" <==> st == Decaying
  {
    match st
    case Escaping => "#f59e0b"
    case Stable => "#10b981"
    case Decaying => "#ef4444"
  }

  /** The telemetry panel's readout (the `physics` memo). */
  datatype Readout = Readout(force: real, stability: real, status: string, statusColor: string)

  function Physics(s: SimulationState): (t: Readout)
    requires s.distance != 0.0
    ensures s.earthMass > 0.0 && s.moonMass > 0.0 ==> t.force > 0.0
    ensures 0.0 <= t.stability <= 100.0
    ensures t.status == "ESCAPING" <==> s.velocity > 1.2
    ensures t.status == "STABLE" <==> 0.85 <= s.velocity <= 1.15
    ensures t.status == "DECAYING" <==> s.velocity < 0.85 || (1.15 < s.velocity <= 1.2)
    ensures t.status == "ESCAPING" <==> t.statusColor == "#f59e0b"
    ensures t.status == "STABLE" <==> t.statusColor == "#10b981"
    ensures t.status == "DECAYING" <==> t.statusColor == "#ef4444"
  {
    var st := Classify(s.velocity);
    Readout(Force(s.earthMass, s.moonMass, s.distance), Stability(s.velocity), StatusName(st), StatusColor(st))
  }

  /** The readout depends on the four physical parameters only, never on the toggles. */
  lemma PhysicsIgnoresToggles(s1: SimulationState, s2: SimulationState)
    requires s1.distance != 0.0
    requires s1.earthMass == s2.earthMass && s1.moonMass == s2.moonMass
    requires s1.distance == s2.distance && s1.velocity == s2.velocity
    ensures Physics(s1) == Physics(s2)
  {
  }

  /** The start parameters read as a stable orbit at full stability with force 435.81 / 12.25 (about 35.58). */
  lemma InitialReadout()
    ensures Physics(InitialState) == Readout(435.81 / 12.25, 100.0, "STABLE", "#10b981")
  {
    assert InitialState.distance / 100.0 == 3.5;
  }

  /** Sample velocities: 1.5 escapes, 1.18 sits in the gap and decays, 0.9 is stable. */
  lemma StatusSamples()
    ensures Classify(1.5) == Escaping && Classify(1.18) == Decaying && Classify(0.9) == Stable
    ensures Classify(0.84) == Decaying && Classify(1.2) == Decaying && Classify(1.21) == Escaping
  {
  }
}
