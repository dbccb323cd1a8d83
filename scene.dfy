/** Scene evaluation: the per-planet loop of renderScene (positions, trail
    history, the position table, camera tracking and the model and normal
    matrices handed to the shaders) and the frame order of `render`. */
module Scene {
  import opened Basics
  import opened Mat4
  import opened Orbit
  import Camera

  // ---------------------------------------------------------------------
  // Trail history

  /** `maxTrailLength`: the number of trail points kept per planet. */
  const MaxTrailLength: nat := 200

  /** `trail.push(p)`, then `trail.shift()` once the length exceeds the capacity. */
  function Pushed<T>(trail: seq<T>, p: T): (r: seq<T>)
    ensures |trail| <= MaxTrailLength ==> |r| <= MaxTrailLength
  {
    var t := trail + [p];
    if |t| > MaxTrailLength then t[1..] else t
  }

  /** The newest min(|h|, k) entries of h, oldest first. */
  function Recent<T>(h: seq<T>, k: nat): (r: seq<T>)
    ensures |r| == (if |h| <= k then |h| else k)
  {
    if |h| <= k then h else h[|h| - k..]
  }

  /** The trail after pushing the positions of h, one per frame, onto an
      empty trail. */
  function Replayed<T>(h: seq<T>): seq<T> {
    if |h| == 0 then [] else Pushed(Replayed(h[..|h| - 1]), h[|h| - 1])
  }

  /** One push keeps "the newest 200 positions": pushing onto the recent
      part of h gives the recent part of h extended. */
  lemma PushedRecent<T>(h: seq<T>, x: T)
    ensures Pushed(Recent(h, MaxTrailLength), x) == Recent(h + [x], MaxTrailLength)
  {
    var hx := h + [x];
    if |h| >= MaxTrailLength {
      var r := Recent(h, MaxTrailLength);
      assert r + [x] == h[|h| - MaxTrailLength..] + [x];
      assert (r + [x])[1..] == hx[|hx| - MaxTrailLength..];
    }
  }

  /** However many frames have pushed, the trail holds exactly the newest
      min(n, 200) positions in the order they were recorded. */
  lemma {:induction false} ReplayedIsRecent<T>(h: seq<T>)
    ensures Replayed(h) == Recent(h, MaxTrailLength)
    ensures |Replayed(h)| <= MaxTrailLength
  {
    if |h| > 0 {
      var n := |h| - 1;
      ReplayedIsRecent(h[..n]);
      PushedRecent(h[..n], h[n]);
      assert h[..n] + [h[n]] == h;
    }
  }

  /** One frame's update of a planet's trail: only orbiting bodies record. */
  function TrailStep(trail: seq<Vec3>, p: Planet, position: Vec3): seq<Vec3> {
    if p.semiMajorAxis > 0.0 then Pushed(trail, position) else trail
  }

  /** The trail pass draws a planet's line strip when the body is not at
      semiMajorAxis 0 and it has more than one point. It runs before this
      frame's positions are pushed. */
  predicate DrawsTrail(p: Planet, trail: seq<Vec3>) {
    p.semiMajorAxis != 0.0 && |trail| > 1
  }

  // ---------------------------------------------------------------------
  // Positions and tracking

  predicate AllElliptic(bodies: seq<Planet>) {
    forall i :: 0 <= i < |bodies| ==> Elliptic(bodies[i])
  }

  predicate DistinctNames(bodies: seq<Planet>) {
    forall i, j :: 0 <= i < j < |bodies| ==> bodies[i].name != bodies[j].name
  }

  lemma TableFitsScene()
    ensures AllElliptic(Planets) && DistinctNames(Planets)
  {
    TableIsElliptic();
  }

  /** Trails after the first i bodies have recorded their positions. */
  function TrailsUpTo(trails: seq<seq<Vec3>>, bodies: seq<Planet>, i: nat, time: real, m: HostMath): (r: seq<seq<Vec3>>)
    requires AllElliptic(bodies) && Lawful(m) && |trails| == |bodies| && i <= |bodies|
    ensures |r| == |bodies|
    ensures forall j :: 0 <= j < |bodies| ==>
      r[j] == if j < i then TrailStep(trails[j], bodies[j], PlanetPosition(bodies[j], time, m)) else trails[j]
  {
    seq(|bodies|, j requires 0 <= j < |bodies| =>
      if j < i then TrailStep(trails[j], bodies[j], PlanetPosition(bodies[j], time, m)) else trails[j])
  }

  /** Histories after the first i bodies have recorded their positions. */
  function HistoryUpTo(history: seq<seq<Vec3>>, bodies: seq<Planet>, i: nat, time: real, m: HostMath): (r: seq<seq<Vec3>>)
    requires AllElliptic(bodies) && Lawful(m) && |history| == |bodies| && i <= |bodies|
    ensures |r| == |bodies|
    ensures forall j :: 0 <= j < |bodies| ==>
      r[j] == if j < i && bodies[j].semiMajorAxis > 0.0 then history[j] + [PlanetPosition(bodies[j], time, m)]
              else history[j]
  {
    seq(|bodies|, j requires 0 <= j < |bodies| =>
      if j < i && bodies[j].semiMajorAxis > 0.0 then history[j] + [PlanetPosition(bodies[j], time, m)] else history[j])
  }

  lemma UpToStep(trails: seq<seq<Vec3>>, history: seq<seq<Vec3>>, bodies: seq<Planet>, i: nat, time: real, m: HostMath)
    requires AllElliptic(bodies) && Lawful(m) && |trails| == |history| == |bodies| && i < |bodies|
    ensures var p := PlanetPosition(bodies[i], time, m);
      TrailsUpTo(trails, bodies, i + 1, time, m) == TrailsUpTo(trails, bodies, i, time, m)[i := TrailStep(trails[i], bodies[i], p)]
    ensures var p := PlanetPosition(bodies[i], time, m);
      HistoryUpTo(history, bodies, i + 1, time, m)
         == HistoryUpTo(history, bodies, i, time, m)[i := if bodies[i].semiMajorAxis > 0.0 then history[i] + [p] else history[i]]
  {
  }

  /** `planetPositions` after the loop has written `planetPositions[name]`
      for each of the first n bodies, in order. */
  function Recorded(positions: map<string, Vec3>, bodies: seq<Planet>, n: nat, time: real, m: HostMath): map<string, Vec3>
    requires AllElliptic(bodies) && Lawful(m) && n <= |bodies|
  {
    if n == 0 then positions
    else Recorded(positions, bodies, n - 1, time, m)[bodies[n - 1].name := PlanetPosition(bodies[n - 1], time, m)]
  }

  /** `trackedPlanetPosition` after the loop has visited the first n bodies:
      the position of the last of them whose name is `trackingPlanet`, or
      unchanged if there is none. */
  function TrackedAfter(tracked: Vec3, tracking: Option<string>, bodies: seq<Planet>, n: nat, time: real, m: HostMath): Vec3
    requires AllElliptic(bodies) && Lawful(m) && n <= |bodies|
  {
    if n == 0 then tracked
    else if tracking == Some(bodies[n - 1].name) then PlanetPosition(bodies[n - 1], time, m)
    else TrackedAfter(tracked, tracking, bodies, n - 1, time, m)
  }

  /** With distinct names every visited body's entry holds its position at
      `time`. */
  lemma {:induction false} RecordedLookup(positions: map<string, Vec3>, bodies: seq<Planet>, n: nat,
                                          time: real, m: HostMath, i: nat)
    requires AllElliptic(bodies) && Lawful(m) && DistinctNames(bodies) && i < n <= |bodies|
    ensures bodies[i].name in Recorded(positions, bodies, n, time, m)
    ensures Recorded(positions, bodies, n, time, m)[bodies[i].name] == PlanetPosition(bodies[i], time, m)
  {
    if i < n - 1 {
      assert bodies[n - 1].name != bodies[i].name;
      RecordedLookup(positions, bodies, n - 1, time, m, i);
    }
  }

  /** A name no visited body carries keeps its entry, or its absence. */
  lemma {:induction false} RecordedElsewhere(positions: map<string, Vec3>, bodies: seq<Planet>, n: nat,
                                             time: real, m: HostMath, k: string)
    requires AllElliptic(bodies) && Lawful(m) && n <= |bodies|
    requires forall i :: 0 <= i < n ==> bodies[i].name != k
    ensures k in Recorded(positions, bodies, n, time, m) <==> k in positions
    ensures k in positions ==> Recorded(positions, bodies, n, time, m)[k] == positions[k]
  {
    if n > 0 {
      assert bodies[n - 1].name != k;
      RecordedElsewhere(positions, bodies, n - 1, time, m, k);
    }
  }

  /** Tracking a body that is not in the table leaves the tracked position
      where it was. */
  lemma {:induction false} TrackedUnknown(tracked: Vec3, tracking: Option<string>, bodies: seq<Planet>, n: nat,
                                          time: real, m: HostMath)
    requires AllElliptic(bodies) && Lawful(m) && n <= |bodies|
    requires forall i :: 0 <= i < n ==> tracking != Some(bodies[i].name)
    ensures TrackedAfter(tracked, tracking, bodies, n, time, m) == tracked
  {
    if n > 0 {
      assert tracking != Some(bodies[n - 1].name);
      TrackedUnknown(tracked, tracking, bodies, n - 1, time, m);
    }
  }

  /** Tracking body i records its position at `time`. */
  lemma {:induction false} TrackedFound(tracked: Vec3, bodies: seq<Planet>, n: nat, time: real, m: HostMath, i: nat)
    requires AllElliptic(bodies) && Lawful(m) && DistinctNames(bodies) && i < n <= |bodies|
    ensures TrackedAfter(tracked, Some(bodies[i].name), bodies, n, time, m) == PlanetPosition(bodies[i], time, m)
  {
    if i < n - 1 {
      assert bodies[n - 1].name != bodies[i].name;
      TrackedFound(tracked, bodies, n - 1, time, m, i);
    }
  }

  /** Tracking body i records the same position the position table holds
      for it. */
  lemma TrackedIsRecorded(tracked: Vec3, positions: map<string, Vec3>, bodies: seq<Planet>,
                          time: real, m: HostMath, i: nat)
    requires AllElliptic(bodies) && Lawful(m) && DistinctNames(bodies) && i < |bodies|
    ensures bodies[i].name in Recorded(positions, bodies, |bodies|, time, m)
    ensures TrackedAfter(tracked, Some(bodies[i].name), bodies, |bodies|, time, m)
         == Recorded(positions, bodies, |bodies|, time, m)[bodies[i].name]
  {
    RecordedLookup(positions, bodies, |bodies|, time, m, i);
    TrackedFound(tracked, bodies, |bodies|, time, m, i);
  }

  // ---------------------------------------------------------------------
  // Model and normal matrices, built on buffers as the source does

  /** renderCelestialBody's normal matrix: `invert` into a fresh buffer
      (its null result ignored), then transpose in place. */
  function BodyNormal(model: Matrix): Matrix {
    match Inverted(model)
    case Some(inverse) => Transposed(inverse)
    case None => ZeroMatrix
  }

  /** A singular model matrix gives the shader an all-zero normal matrix:
      the failed `invert` leaves the fresh buffer's zeros in place. */
  lemma SingularBodyNormal(model: Matrix)
    requires Det(model) == 0.0
    ensures BodyNormal(model) == ZeroMatrix
  {
  }

  /** An invertible model matrix gives the inverse transpose, whose own
      transpose is the inverse. */
  lemma RegularBodyNormal(model: Matrix)
    requires Det(model) != 0.0
    ensures Inverted(model).Some?
    ensures Transposed(BodyNormal(model)) == Inverted(model).value
  {
    TransposeInvolution(Inverted(model).value);
  }

  method BodyNormalMatrix(model: array<real>) returns (normal: array<real>)
    requires model.Length == 16
    ensures fresh(normal) && normal.Length == 16
    ensures Read(normal) == BodyNormal(Read(model))
  {
    normal := Create();
    var ok := Invert(normal, model);
    Transpose(normal, normal);
    assert Transposed(ZeroMatrix) == ZeroMatrix;
  }

  // The model-matrix functions of the orbit module, written as the chain
  // of buffer operations the methods below perform.

  lemma PlacedSteps(p: Planet, time: real, m: HostMath)
    requires Elliptic(p) && Lawful(m)
    ensures var base := Translated(IdentityMatrix(), GalacticOffset(time));
      PlacedMatrix(p, time, m) == if p.semiMajorAxis > 0.0 then Translated(base, OrbitOffset(p, time, m)) else base
  {
  }

  lemma PlanetSteps(p: Planet, time: real, m: HostMath)
    requires Elliptic(p) && Lawful(m)
    ensures PlanetMatrix(p, time, m)
         == Scaled(RotatedY(PlacedMatrix(p, time, m), m.Sin(PlanetSpinAngle(p, time)), m.Cos(PlanetSpinAngle(p, time))),
                   Vec3(p.radius, p.radius, p.radius))
  {
  }

  lemma RingSteps(p: Planet, rings: Rings, time: real, m: HostMath)
    requires Elliptic(p) && Lawful(m)
    ensures var k := RingScale(p, rings);
      RingMatrix(p, rings, time, m)
         == Scaled(RotatedY(RotatedX(PlacedMatrix(p, time, m), m.Sin(rings.tilt), m.Cos(rings.tilt)),
                            m.Sin(PlanetSpinAngle(p, time)), m.Cos(PlanetSpinAngle(p, time))),
                   Vec3(k, k, k))
  {
  }

  lemma MoonSteps(planetPosition: Vec3, moon: Moon, time: real, m: HostMath)
    ensures MoonMatrix(planetPosition, moon, time, m)
         == Scaled(RotatedY(MoonPlacedMatrix(planetPosition, moon, time, m),
                            m.Sin(MoonSpinAngle(moon, time)), m.Cos(MoonSpinAngle(moon, time))),
                   Vec3(moon.radius, moon.radius, moon.radius))
  {
  }

  /** identity, translate by the galactic offset and, for an orbiting body,
      by its orbit offset. */
  method PlaceBody(out: array<real>, p: Planet, time: real, m: HostMath)
    requires out.Length == 16 && Elliptic(p) && Lawful(m)
    modifies out
    ensures Read(out) == PlacedMatrix(p, time, m)
  {
    Identity(out);
    Translate(out, out, GalacticOffset(time));
    if p.semiMajorAxis > 0.0 {
      Translate(out, out, OrbitOffset(p, time, m));
    }
    PlacedSteps(p, time, m);
  }

  method PlanetModelMatrix(p: Planet, time: real, m: HostMath) returns (model: array<real>)
    requires Elliptic(p) && Lawful(m)
    ensures fresh(model) && model.Length == 16
    ensures Read(model) == PlanetMatrix(p, time, m)
  {
    model := Create();
    PlaceBody(model, p, time, m);
    RotateY(model, model, PlanetSpinAngle(p, time), m);
    Scale(model, model, Vec3(p.radius, p.radius, p.radius));
    PlanetSteps(p, time, m);
  }

  /** The ring's model matrix, and its normal matrix, which the source
      fills by `invert` and then overwrites with the transpose of the model
      matrix itself. */
  method RingModelMatrices(p: Planet, rings: Rings, time: real, m: HostMath)
    returns (ringMatrix: array<real>, ringNormal: array<real>)
    requires Elliptic(p) && Lawful(m)
    ensures fresh(ringMatrix) && fresh(ringNormal) && ringMatrix.Length == 16 && ringNormal.Length == 16
    ensures Read(ringMatrix) == RingMatrix(p, rings, time, m)
    ensures Read(ringNormal) == Transposed(RingMatrix(p, rings, time, m))
  {
    ringMatrix := Create();
    PlaceBody(ringMatrix, p, time, m);
    RotateX(ringMatrix, ringMatrix, rings.tilt, m);
    RotateY(ringMatrix, ringMatrix, PlanetSpinAngle(p, time), m);
    var ringScale := RingScale(p, rings);
    Scale(ringMatrix, ringMatrix, Vec3(ringScale, ringScale, ringScale));
    RingSteps(p, rings, time, m);
    ringNormal := Create();
    var ok := Invert(ringNormal, ringMatrix);
    Transpose(ringNormal, ringMatrix);
  }

  /** identity, translate to the planet's recorded position, then by the
      moon's orbit offset. */
  method PlaceMoon(out: array<real>, planetPosition: Vec3, moon: Moon, time: real, m: HostMath)
    requires out.Length == 16
    modifies out
    ensures Read(out) == MoonPlacedMatrix(planetPosition, moon, time, m)
  {
    Identity(out);
    Translate(out, out, planetPosition);
    Translate(out, out, MoonOffset(moon, time, m));
  }

  method MoonModelMatrix(planetPosition: Vec3, moon: Moon, time: real, m: HostMath) returns (moonMatrix: array<real>)
    ensures fresh(moonMatrix) && moonMatrix.Length == 16
    ensures Read(moonMatrix) == MoonMatrix(planetPosition, moon, time, m)
  {
    moonMatrix := Create();
    PlaceMoon(moonMatrix, planetPosition, moon, time, m);
    RotateY(moonMatrix, moonMatrix, MoonSpinAngle(moon, time), m);
    Scale(moonMatrix, moonMatrix, Vec3(moon.radius, moon.radius, moon.radius));
    MoonSteps(planetPosition, moon, time, m);
  }

  /** The matrices renderScene computes to draw one body: its model and
      normal matrices, the ring's pair if it has one, and each moon's pair. */
  method DrawBody(planet: Planet, planetPosition: Vec3, time: real, m: HostMath)
    returns (model: Matrix, normal: Matrix, ring: Option<(Matrix, Matrix)>,
             moons: seq<(Matrix, Matrix)>)
    requires Elliptic(planet) && Lawful(m)
    ensures model == PlanetMatrix(planet, time, m) && normal == BodyNormal(model)
    ensures planet.rings.None? ==> ring.None?
    ensures planet.rings.Some? ==>
      var r := RingMatrix(planet, planet.rings.value, time, m);
      ring == Some((r, Transposed(r)))
    ensures |moons| == |planet.moons|
    ensures forall k :: 0 <= k < |moons| ==>
      var mm := MoonMatrix(planetPosition, planet.moons[k], time, m);
      moons[k] == (mm, BodyNormal(mm))
  {
    var modelBuffer := PlanetModelMatrix(planet, time, m);
    var normalBuffer := BodyNormalMatrix(modelBuffer);
    model, normal := Read(modelBuffer), Read(normalBuffer);
    ring := None;
    if planet.rings.Some? {
      var ringMatrix, ringNormal := RingModelMatrices(planet, planet.rings.value, time, m);
      ring := Some((Read(ringMatrix), Read(ringNormal)));
    }
    moons := DrawMoons(planetPosition, planet.moons, time, m);
  }

  /** The `planet.moons.forEach` loop: one model and normal pair per moon,
      in order. */
  method DrawMoons(planetPosition: Vec3, bodies: seq<Moon>, time: real, m: HostMath)
    returns (moons: seq<(Matrix, Matrix)>)
    ensures |moons| == |bodies|
    ensures forall k :: 0 <= k < |moons| ==>
      var mm := MoonMatrix(planetPosition, bodies[k], time, m);
      moons[k] == (mm, BodyNormal(mm))
  {
    moons := [];
    var k := 0;
    while k < |bodies|
      invariant k <= |bodies| && |moons| == k
      invariant forall j :: 0 <= j < k ==>
        var mm := MoonMatrix(planetPosition, bodies[j], time, m);
        moons[j] == (mm, BodyNormal(mm))
    {
      var moonMatrix := MoonModelMatrix(planetPosition, bodies[k], time, m);
      var moonNormal := BodyNormalMatrix(moonMatrix);
      moons := moons + [(Read(moonMatrix), Read(moonNormal))];
      k := k + 1;
    }
  }

  // ---------------------------------------------------------------------
  // The scene object

  class Scene {
    const bodies: seq<Planet>
    var time: real
    /** `trailHistory`, indexed like `bodies`. */
    var trails: seq<seq<Vec3>>
    var planetPositions: map<string, Vec3>
    /** Every position each body has recorded, oldest first. */
    ghost var history: seq<seq<Vec3>>

    /** The trails hold the newest 200 recorded positions, and a body
        without an orbit (the Sun) has recorded none. */
    ghost predicate Valid()
      reads this`trails, this`history
    {
      && AllElliptic(bodies)
      && |trails| == |bodies| && |history| == |bodies|
      && (forall i :: 0 <= i < |bodies| ==> trails[i] == Recent(history[i], MaxTrailLength))
      && (forall i :: 0 <= i < |bodies| ==> bodies[i].semiMajorAxis <= 0.0 ==> history[i] == [])
    }

    /** Every planet starts with an empty trail, at time 0. */
    constructor (planets: seq<Planet>)
      requires AllElliptic(planets)
      ensures Valid() && bodies == planets && time == 0.0 && planetPositions == map[]
      ensures forall i :: 0 <= i < |bodies| ==> trails[i] == [] && history[i] == []
    {
      bodies := planets;
      time := 0.0;
      trails := seq(|planets|, _ => []);
      planetPositions := map[];
      history := seq(|planets|, _ => []);
    }

    /** A valid scene's trails never exceed 200 points, the Sun's stays
        empty, and only orbiting bodies draw one. */
    lemma TrailsBounded()
      requires Valid()
      ensures forall i :: 0 <= i < |bodies| ==> |trails[i]| <= MaxTrailLength
      ensures forall i :: 0 <= i < |bodies| ==> bodies[i].semiMajorAxis <= 0.0 ==> trails[i] == []
      ensures forall i :: 0 <= i < |bodies| ==> DrawsTrail(bodies[i], trails[i]) ==> bodies[i].semiMajorAxis > 0.0
    {
    }

    /** The trail update for body i: an orbiting body pushes its position
        and drops the oldest once past the capacity; the Sun records nothing. */
    method RecordTrail(i: nat, position: Vec3)
      requires Valid() && i < |bodies|
      modifies this`trails, this`history
      ensures Valid()
      ensures trails == old(trails)[i := TrailStep(old(trails[i]), bodies[i], position)]
      ensures history == old(history)[i := if bodies[i].semiMajorAxis > 0.0 then old(history[i]) + [position]
                                           else old(history[i])]
    {
      if bodies[i].semiMajorAxis > 0.0 {
        PushedRecent(history[i], position);
        var trail := trails[i] + [position];
        if |trail| > MaxTrailLength {
          trail := trail[1..];
        }
        trails := trails[i := trail];
        history := history[i := history[i] + [position]];
      }
    }

    /** The bookkeeping of one iteration of the planet loop: the trail, the
        position table and the tracked position. */
    method RecordBody(i: nat, time: real, m: HostMath, cam: Camera.Controller,
                     ghost trails0: seq<seq<Vec3>>, ghost history0: seq<seq<Vec3>>,
                     ghost positions0: map<string, Vec3>, ghost tracked0: Vec3)
      requires Valid() && Lawful(m) && i < |bodies|
      requires |trails0| == |history0| == |bodies|
      requires trails == TrailsUpTo(trails0, bodies, i, time, m)
      requires history == HistoryUpTo(history0, bodies, i, time, m)
      requires planetPositions == Recorded(positions0, bodies, i, time, m)
      requires cam.trackedPlanetPosition == TrackedAfter(tracked0, cam.trackingPlanet, bodies, i, time, m)
      modifies this`trails, this`planetPositions, this`history, cam`trackedPlanetPosition
      ensures Valid()
      ensures trails == TrailsUpTo(trails0, bodies, i + 1, time, m)
      ensures history == HistoryUpTo(history0, bodies, i + 1, time, m)
      ensures planetPositions == Recorded(positions0, bodies, i + 1, time, m)
      ensures cam.trackedPlanetPosition == TrackedAfter(tracked0, cam.trackingPlanet, bodies, i + 1, time, m)
    {
      var planet := bodies[i];
      var planetPosition := PlanetPosition(planet, time, m);
      RecordTrail(i, planetPosition);
      UpToStep(trails0, history0, bodies, i, time, m);
      planetPositions := planetPositions[planet.name := planetPosition];
      if cam.trackingPlanet == Some(planet.name) {
        cam.trackedPlanetPosition := planetPosition;
      }
    }

    /** One iteration of renderScene's loop: body i records its trail point,
        its entry in the position table and, when tracked, the camera's
        tracked position, and is then drawn. */
    method VisitBody(i: nat, time: real, m: HostMath, cam: Camera.Controller,
                     ghost trails0: seq<seq<Vec3>>, ghost history0: seq<seq<Vec3>>,
                     ghost positions0: map<string, Vec3>, ghost tracked0: Vec3)
      requires Valid() && Lawful(m) && i < |bodies|
      requires |trails0| == |history0| == |bodies|
      requires trails == TrailsUpTo(trails0, bodies, i, time, m)
      requires history == HistoryUpTo(history0, bodies, i, time, m)
      requires planetPositions == Recorded(positions0, bodies, i, time, m)
      requires cam.trackedPlanetPosition == TrackedAfter(tracked0, cam.trackingPlanet, bodies, i, time, m)
      modifies this`trails, this`planetPositions, this`history, cam`trackedPlanetPosition
      ensures Valid()
      ensures trails == TrailsUpTo(trails0, bodies, i + 1, time, m)
      ensures history == HistoryUpTo(history0, bodies, i + 1, time, m)
      ensures planetPositions == Recorded(positions0, bodies, i + 1, time, m)
      ensures cam.trackedPlanetPosition == TrackedAfter(tracked0, cam.trackingPlanet, bodies, i + 1, time, m)
    {
      RecordBody(i, time, m, cam, trails0, history0, positions0, tracked0);
      var planet := bodies[i];
      var model, normal, ring, moons := DrawBody(planet, PlanetPosition(planet, time, m), time, m);
    }

    /** The per-planet loop of renderScene at simulation time `time`. */
    method RenderScene(time: real, m: HostMath, cam: Camera.Controller)
      requires Valid() && Lawful(m)
      modifies this`trails, this`planetPositions, this`history, cam`trackedPlanetPosition
      ensures Valid()
      ensures forall i :: 0 <= i < |bodies| ==>
        history[i] == (if bodies[i].semiMajorAxis > 0.0 then old(history[i]) + [PlanetPosition(bodies[i], time, m)]
                       else old(history[i]))
      ensures forall i :: 0 <= i < |bodies| ==>
        trails[i] == TrailStep(old(trails[i]), bodies[i], PlanetPosition(bodies[i], time, m))
      ensures planetPositions == Recorded(old(planetPositions), bodies, |bodies|, time, m)
      ensures cam.trackedPlanetPosition
           == TrackedAfter(old(cam.trackedPlanetPosition), cam.trackingPlanet, bodies, |bodies|, time, m)
    {
      ghost var trails0, history0, positions0, tracked0 := trails, history, planetPositions, cam.trackedPlanetPosition;
      var i := 0;
      while i < |bodies|
        invariant 0 <= i <= |bodies|
        invariant Valid()
        invariant trails == TrailsUpTo(trails0, bodies, i, time, m)
        invariant history == HistoryUpTo(history0, bodies, i, time, m)
        invariant planetPositions == Recorded(positions0, bodies, i, time, m)
        invariant cam.trackedPlanetPosition == TrackedAfter(tracked0, cam.trackingPlanet, bodies, i, time, m)
      {
        VisitBody(i, time, m, cam, trails0, history0, positions0, tracked0);
        i := i + 1;
      }
    }

    /** One call of `render`: advance time by 0.01 x speedMultiplier, run the
        camera step on the position recorded in the previous frame, then
        evaluate the scene at the new time. Returns what lookAt receives. */
    method Frame(speedMultiplier: real, m: HostMath, cam: Camera.Controller) returns (eye: Vec3, center: Vec3)
      requires Valid() && cam.Valid() && Lawful(m)
      modifies this, cam
      ensures Valid() && cam.Valid()
      ensures time == old(time) + 0.01 * speedMultiplier
      ensures Camera.View(eye, center) == Camera.ViewOf(Camera.Stepped(old(cam.State())), GalacticOffset(time), m)
      ensures Camera.IsTracking(old(cam.State())) ==> center == old(cam.trackedPlanetPosition)
      ensures cam.State() == Camera.Stepped(old(cam.State())).(tracked :=
        TrackedAfter(old(cam.trackedPlanetPosition), old(cam.trackingPlanet), bodies, |bodies|, time, m))
      ensures forall i :: 0 <= i < |bodies| ==>
        trails[i] == TrailStep(old(trails[i]), bodies[i], PlanetPosition(bodies[i], time, m))
      ensures planetPositions == Recorded(old(planetPositions), bodies, |bodies|, time, m)
    {
      time := time + 0.01 * speedMultiplier;
      var galacticOffset := GalacticOffset(time);
      eye, center := cam.Step(galacticOffset, m);
      RenderScene(time, m, cam);
    }
  }

  /** The one-frame lag: while tracking body i, the frame looks at the
      position recorded by the previous frame, and records the new one for
      the next. */
  lemma TrackingLagsOneFrame(s: Camera.CameraState, bodies: seq<Planet>, i: nat,
                             previousTime: real, time: real, m: HostMath)
    requires AllElliptic(bodies) && Lawful(m) && DistinctNames(bodies) && i < |bodies|
    requires s.tracking == Some(bodies[i].name) && bodies[i].name != ""
    requires s.tracked == PlanetPosition(bodies[i], previousTime, m)
    ensures Camera.ViewOf(Camera.Stepped(s), GalacticOffset(time), m).center == PlanetPosition(bodies[i], previousTime, m)
    ensures TrackedAfter(s.tracked, s.tracking, bodies, |bodies|, time, m) == PlanetPosition(bodies[i], time, m)
  {
    TrackedFound(s.tracked, bodies, |bodies|, time, m, i);
  }
}
