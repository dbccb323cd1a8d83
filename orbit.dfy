/** Orbital placement: where renderScene puts each planet, ring and moon at
    simulation time `time`. A planet with semiMajorAxis > 0 follows an
    ellipse evaluated with a single step of Kepler's equation,
    E = M + e sin M, and the whole system drifts upward by the galactic
    offset (0, 8 time, 0). */
module Orbit {
  import opened Basics
  import opened Mat4

  datatype Moon = Moon(name: string, radius: real, distance: real, orbitSpeed: real,
                       spinSpeed: Option<real>, texture: string)

  datatype Rings = Rings(innerRadius: real, outerRadius: real, opacity: real, tilt: real, texture: string)

  datatype Planet = Planet(name: string, radius: real, semiMajorAxis: real, orbitSpeed: real,
                           rotationSpeed: real, eccentricity: real, emissive: bool, glow: real,
                           texture: string, isEarth: bool, rings: Option<Rings>, moons: seq<Moon>)

  // ---------------------------------------------------------------------
  // The planet table (colours, which only reach the shaders, are left out)

  const Sun: Planet := Planet("Sun", 8.0, 0.0, 0.0, 0.008, 0.0, true, 3.0, "sun", false, None, [])
  const Mercury: Planet := Planet("Mercury", 0.35, 12.0, 4.15, 0.003, 0.206, false, 1.0, "mercury", false, None, [])
  const Venus: Planet := Planet("Venus", 0.90, 18.0, 1.62, -0.001, 0.007, false, 1.0, "venus", false, None, [])
  const Earth: Planet := Planet("Earth", 1.0, 25.0, 1.0, 0.20, 0.017, false, 1.0, "earth", true, None,
    [Moon("Moon", 0.27, 3.0, 13.37, None, "moon")])
  const Mars: Planet := Planet("Mars", 0.50, 38.0, 0.53, 0.19, 0.093, false, 1.0, "mars", false, None,
    [Moon("Phobos", 0.08, 1.2, 8.0, None, "moon"), Moon("Deimos", 0.05, 1.8, 5.0, None, "moon")])
  const Jupiter: Planet := Planet("Jupiter", 4.0, 80.0, 0.084, 0.45, 0.049, false, 1.0, "jupiter", false,
    Some(Rings(4.5, 5.5, 0.08, 0.05, "saturnRing")),
    [Moon("Io", 0.28, 6.5, 4.5, None, "moon"), Moon("Europa", 0.25, 8.0, 3.5, None, "moon"),
     Moon("Ganymede", 0.40, 10.0, 2.5, None, "moon"), Moon("Callisto", 0.36, 13.0, 1.8, None, "moon")])
  const Saturn: Planet := Planet("Saturn", 3.4, 140.0, 0.034, 0.42, 0.056, false, 1.0, "saturn", false,
    Some(Rings(4.5, 7.5, 0.75, 0.47, "saturnRing")),
    [Moon("Titan", 0.40, 8.0, 1.2, None, "moon"), Moon("Rhea", 0.15, 5.5, 2.5, None, "moon"),
     Moon("Iapetus", 0.12, 10.0, 0.8, None, "moon"), Moon("Enceladus", 0.10, 4.0, 4.0, None, "moon")])
  const Uranus: Planet := Planet("Uranus", 1.8, 280.0, 0.012, 0.28, 0.046, false, 1.0, "uranus", false,
    Some(Rings(2.5, 3.5, 0.20, 1.71, "saturnRing")),
    [Moon("Titania", 0.20, 5.0, 1.5, None, "moon"), Moon("Oberon", 0.18, 6.5, 1.2, None, "moon"),
     Moon("Ariel", 0.15, 3.5, 2.2, None, "moon"), Moon("Miranda", 0.08, 2.5, 3.5, None, "moon")])
  const Neptune: Planet := Planet("Neptune", 1.7, 440.0, 0.006, 0.30, 0.009, false, 1.0, "neptune", false,
    Some(Rings(2.2, 3.2, 0.12, 0.49, "saturnRing")),
    [Moon("Triton", 0.25, 5.0, -1.5, None, "moon")])

  const Planets: seq<Planet> := [Sun, Mercury, Venus, Earth, Mars, Jupiter, Saturn, Uranus, Neptune]

  /** The orbits the formulas are defined on: 0 <= e < 1, so that both
      square roots are real and the distance formula never divides by zero. */
  predicate Elliptic(p: Planet) { 0.0 <= p.eccentricity < 1.0 }

  lemma TableIsElliptic()
    ensures forall i :: 0 <= i < |Planets| ==> Elliptic(Planets[i])
  {
  }

  // ---------------------------------------------------------------------
  // The orbital formulas

  /** `galacticOffset` of render: the system rises along y at 8 units per
      unit of simulation time. */
  function GalacticOffset(time: real): Vec3 {
    Vec3(0.0, time * 8.0, 0.0)
  }

  /** The offset moves only upward, by 8 per unit of time elapsed. */
  lemma GalacticDrift(t1: real, t2: real)
    ensures GalacticOffset(t2).Minus(GalacticOffset(t1)) == Vec3(0.0, 8.0 * (t2 - t1), 0.0)
  {
  }

  function MeanAnomaly(p: Planet, time: real): real {
    time * p.orbitSpeed
  }

  /** The angle a planet has turned about its own axis by `time`. */
  function PlanetSpinAngle(p: Planet, time: real): real {
    time * p.rotationSpeed
  }

  /** The single Newton-free step `E = M + e sin M`. */
  function EccentricAnomaly(meanAnomaly: real, e: real, m: HostMath): real {
    meanAnomaly + e * m.Sin(meanAnomaly)
  }

  function TrueAnomaly(eccentricAnomaly: real, e: real, m: HostMath): real {
    2.0 * m.Atan2(m.Sqrt(1.0 + e) * m.Sin(eccentricAnomaly / 2.0),
                  m.Sqrt(1.0 - e) * m.Cos(eccentricAnomaly / 2.0))
  }

  /** The denominator of the distance formula lies in [1 - e, 1 + e]. */
  lemma DenominatorBounds(e: real, cosNu: real)
    requires 0.0 <= e && -1.0 <= cosNu <= 1.0
    ensures 1.0 - e <= 1.0 + e * cosNu <= 1.0 + e
  {
    assert e * (cosNu + 1.0) >= 0.0;
    assert e * (1.0 - cosNu) >= 0.0;
  }

  /** `r = a (1 - e^2) / (1 + e cos nu)`. */
  function OrbitRadius(a: real, e: real, cosNu: real): real
    requires 0.0 <= e < 1.0 && -1.0 <= cosNu <= 1.0
  {
    DenominatorBounds(e, cosNu);
    a * (1.0 - e * e) / (1.0 + e * cosNu)
  }

  /** The true anomaly of planet p at `time`. */
  function Anomaly(p: Planet, time: real, m: HostMath): real {
    TrueAnomaly(EccentricAnomaly(MeanAnomaly(p, time), p.eccentricity, m), p.eccentricity, m)
  }

  /** (planetX, 0, planetZ): the planet relative to the galactic offset;
      zero for a body with semiMajorAxis <= 0. */
  function OrbitOffset(p: Planet, time: real, m: HostMath): Vec3
    requires Elliptic(p) && Lawful(m)
  {
    if p.semiMajorAxis > 0.0 then
      var nu := Anomaly(p, time, m);
      var r := OrbitRadius(p.semiMajorAxis, p.eccentricity, m.Cos(nu));
      Polar(r, m.Cos(nu), m.Sin(nu))
    else
      Origin
  }

  /** The point at distance r along angle nu in the orbital (x, z) plane,
      given cos nu and sin nu. */
  function Polar(r: real, c: real, s: real): Vec3 {
    Vec3(r * c, 0.0, r * s)
  }

  /** `planetPosition`, recorded for trails, moons and camera tracking. */
  function PlanetPosition(p: Planet, time: real, m: HostMath): Vec3
    requires Elliptic(p) && Lawful(m)
  {
    var g := GalacticOffset(time);
    var o := OrbitOffset(p, time, m);
    Vec3(g.x + o.x, g.y, g.z + o.z)
  }

  // Properties of the orbit

  /** The closest distance a (1 - e) of an orbit to its focus. */
  function Perihelion(a: real, e: real): real {
    a * (1.0 - e)
  }

  /** The farthest distance a (1 + e) of an orbit from its focus. */
  function Aphelion(a: real, e: real): real {
    a * (1.0 + e)
  }

  /** For 0 <= e < 1, a >= 0 and any cos nu in [-1, 1] the distance lies
      between perihelion a (1 - e) and aphelion a (1 + e). */
  lemma OrbitRadiusBounds(a: real, e: real, cosNu: real)
    requires 0.0 <= a && 0.0 <= e < 1.0 && -1.0 <= cosNu <= 1.0
    ensures Perihelion(a, e) <= OrbitRadius(a, e, cosNu) <= Aphelion(a, e)
  {
    var d := 1.0 + e * cosNu;
    var r := OrbitRadius(a, e, cosNu);
    var lo, hi := Perihelion(a, e), Aphelion(a, e);
    DenominatorBounds(e, cosNu);
    RadiusTimesDenominator(a, e, cosNu);
    Factors(a, e);
    ApsidesNonNegative(a, e);
    Between(r, d, lo, hi, 1.0 - e, 1.0 + e);
  }

  lemma RadiusTimesDenominator(a: real, e: real, cosNu: real)
    requires 0.0 <= e < 1.0 && -1.0 <= cosNu <= 1.0
    ensures OrbitRadius(a, e, cosNu) * (1.0 + e * cosNu) == a * (1.0 - e * e)
  {
    DenominatorBounds(e, cosNu);
    QuotientTimes(a * (1.0 - e * e), 1.0 + e * cosNu);
  }

  lemma ApsidesNonNegative(a: real, e: real)
    requires 0.0 <= a && 0.0 <= e < 1.0
    ensures 0.0 <= Perihelion(a, e) && 0.0 <= Aphelion(a, e)
  {
    NonNegativeProduct(a, 1.0 - e);
    NonNegativeProduct(a, 1.0 + e);
  }

  /** a (1 - e^2) is perihelion times (1 + e) and aphelion times (1 - e). */
  lemma Factors(a: real, e: real)
    ensures a * (1.0 - e * e) == Perihelion(a, e) * (1.0 + e)
    ensures a * (1.0 - e * e) == Aphelion(a, e) * (1.0 - e)
  {
  }

  /** From r d = lo (1 + e) = hi (1 - e) with d in [1 - e, 1 + e] and
      lo, hi >= 0 follows lo <= r <= hi. */
  lemma Between(r: real, d: real, lo: real, hi: real, dLo: real, dHi: real)
    requires 0.0 < dLo <= d <= dHi && 0.0 <= lo && 0.0 <= hi
    requires r * d == lo * dHi && r * d == hi * dLo
    ensures lo <= r <= hi
  {
    MulMonotone(lo, d, dHi);
    DivideOut(r, lo, d);
    MulMonotone(hi, dLo, d);
    DivideOut(hi, r, d);
  }

  lemma MulMonotone(k: real, x: real, y: real)
    requires 0.0 <= k && x <= y
    ensures k * x <= k * y
  {
    assert k * y - k * x == k * (y - x);
  }

  lemma NonNegativeProduct(x: real, y: real)
    requires 0.0 <= x && 0.0 <= y
    ensures 0.0 <= x * y
  {
  }

  lemma DivideOut(x: real, y: real, d: real)
    requires 0.0 < d && x * d >= y * d
    ensures x >= y
  {
    assert (x - y) * d >= 0.0;
  }

  /** A circular orbit keeps distance a. */
  lemma CircularOrbitRadius(a: real, cosNu: real)
    requires -1.0 <= cosNu <= 1.0
    ensures OrbitRadius(a, 0.0, cosNu) == a
  {
  }

  function Square(x: real): real {
    x * x
  }

  /** The planet's squared distance from the galactic offset is r^2 for the
      orbit's r, hence between a^2 (1 - e)^2 and a^2 (1 + e)^2: the planet
      stays between perihelion and aphelion. */
  lemma DistanceFromSun(p: Planet, time: real, m: HostMath)
    requires Elliptic(p) && Lawful(m) && p.semiMajorAxis > 0.0
    ensures var d := PlanetPosition(p, time, m).Minus(GalacticOffset(time)).NormSquared();
      var lo, hi := Perihelion(p.semiMajorAxis, p.eccentricity), Aphelion(p.semiMajorAxis, p.eccentricity);
      Square(lo) <= d <= Square(hi)
  {
    OffsetFromSun(p, time, m);
    OrbitOffsetBounds(p, time, m);
  }

  lemma OrbitOffsetBounds(p: Planet, time: real, m: HostMath)
    requires Elliptic(p) && Lawful(m) && p.semiMajorAxis > 0.0
    ensures var d := OrbitOffset(p, time, m).NormSquared();
      var lo, hi := Perihelion(p.semiMajorAxis, p.eccentricity), Aphelion(p.semiMajorAxis, p.eccentricity);
      Square(lo) <= d <= Square(hi)
  {
    var nu := Anomaly(p, time, m);
    OrbitOffsetIsPolar(p, time, m);
    PolarOrbitBounds(p.semiMajorAxis, p.eccentricity, m.Cos(nu), m.Sin(nu));
  }

  /** An orbiting body's offset is the point at distance r along the true
      anomaly nu, whose cosine and sine obey the Pythagorean law. */
  lemma OrbitOffsetIsPolar(p: Planet, time: real, m: HostMath)
    requires Elliptic(p) && Lawful(m) && p.semiMajorAxis > 0.0
    ensures var nu := Anomaly(p, time, m);
      var c, s := m.Cos(nu), m.Sin(nu);
      && -1.0 <= c <= 1.0 && Square(s) + Square(c) == 1.0
      && OrbitOffset(p, time, m) == Polar(OrbitRadius(p.semiMajorAxis, p.eccentricity, c), c, s)
  {
    Pythagoras(m, Anomaly(p, time, m));
  }

  /** The bounds of `OrbitOffsetBounds` for any cos nu and sin nu whose
      squares sum to 1. */
  lemma PolarOrbitBounds(a: real, e: real, c: real, s: real)
    requires 0.0 <= a && 0.0 <= e < 1.0 && -1.0 <= c <= 1.0 && Square(s) + Square(c) == 1.0
    ensures var lo, hi := Perihelion(a, e), Aphelion(a, e);
      Square(lo) <= Polar(OrbitRadius(a, e, c), c, s).NormSquared() <= Square(hi)
  {
    var r := OrbitRadius(a, e, c);
    OrbitRadiusBounds(a, e, c);
    ApsidesNonNegative(a, e);
    PolarLength(r, c, s);
    SquareMonotone(Perihelion(a, e), r, Aphelion(a, e));
  }

  /** The planet's position relative to the galactic offset is the orbit offset. */
  lemma OffsetFromSun(p: Planet, time: real, m: HostMath)
    requires Elliptic(p) && Lawful(m)
    ensures PlanetPosition(p, time, m).Minus(GalacticOffset(time)) == OrbitOffset(p, time, m)
  {
  }

  /** (r cos, 0, r sin) has squared length r^2 when cos^2 + sin^2 = 1. */
  lemma PolarLength(r: real, c: real, s: real)
    requires Square(s) + Square(c) == 1.0
    ensures Polar(r, c, s).NormSquared() == Square(r)
  {
    assert (r * c) * (r * c) + (r * s) * (r * s) == r * r * (c * c + s * s);
  }

  lemma SquareMonotone(lo: real, x: real, hi: real)
    requires 0.0 <= lo <= x <= hi
    ensures Square(lo) <= Square(x) <= Square(hi)
  {
    assert lo * lo <= lo * x <= x * x;
    assert x * x <= x * hi <= hi * hi;
  }

  /** A circular orbit (e = 0) keeps the planet exactly at distance a. */
  lemma CircularOrbit(p: Planet, time: real, m: HostMath)
    requires Lawful(m) && p.eccentricity == 0.0 && p.semiMajorAxis > 0.0
    ensures PlanetPosition(p, time, m).Minus(GalacticOffset(time)).NormSquared()
         == p.semiMajorAxis * p.semiMajorAxis
  {
    var nu := Anomaly(p, time, m);
    CircularOrbitRadius(p.semiMajorAxis, m.Cos(nu));
    OffsetFromSun(p, time, m);
    assert OrbitOffset(p, time, m) == Polar(p.semiMajorAxis, m.Cos(nu), m.Sin(nu));
    Pythagoras(m, nu);
    PolarLength(p.semiMajorAxis, m.Cos(nu), m.Sin(nu));
  }

  /** A body with semiMajorAxis <= 0 (the Sun) sits exactly at the
      galactic offset. */
  lemma SunAtOffset(p: Planet, time: real, m: HostMath)
    requires Elliptic(p) && Lawful(m) && p.semiMajorAxis <= 0.0
    ensures PlanetPosition(p, time, m) == GalacticOffset(time)
  {
  }

  /** At time 0 every planet is at perihelion (a (1 - e), 0, 0): the mean
      and eccentric anomalies are 0, the true anomaly is 2 atan2(0, x) for a
      positive x, hence 0. */
  lemma PerihelionAtStart(p: Planet, m: HostMath)
    requires Elliptic(p) && Lawful(m) && p.semiMajorAxis > 0.0
    ensures PlanetPosition(p, 0.0, m) == Vec3(p.semiMajorAxis * (1.0 - p.eccentricity), 0.0, 0.0)
  {
    var e, a := p.eccentricity, p.semiMajorAxis;
    assert MeanAnomaly(p, 0.0) == 0.0;
    assert EccentricAnomaly(0.0, e, m) == 0.0;
    assert 0.0 / 2.0 == 0.0;
    SqrtPositive(m, 1.0 - e);
    assert m.Sqrt(1.0 + e) * m.Sin(0.0) == 0.0;
    assert 0.0 < m.Sqrt(1.0 - e) * m.Cos(0.0);
    assert Anomaly(p, 0.0, m) == 0.0;
    PerihelionRadius(a, e);
  }

  lemma PerihelionRadius(a: real, e: real)
    requires 0.0 <= e < 1.0
    ensures OrbitRadius(a, e, 1.0) == Perihelion(a, e)
  {
    assert a * (1.0 - e * e) == (a * (1.0 - e)) * (1.0 + e);
    QuotientCancel(a * (1.0 - e), 1.0 + e);
  }

  lemma QuotientCancel(x: real, d: real)
    requires d != 0.0
    ensures (x * d) / d == x
  {
  }

  /** Mercury starts at x = 12 (1 - 0.206) = 9.528, not at its
      semi-major axis 12. */
  lemma MercuryPerihelion(m: HostMath)
    requires Lawful(m)
    ensures PlanetPosition(Mercury, 0.0, m) == Vec3(9.528, 0.0, 0.0)
  {
    PerihelionAtStart(Mercury, m);
  }

  // ---------------------------------------------------------------------
  // Moons and rings

  function MoonOrbitAngle(moon: Moon, time: real): real {
    time * moon.orbitSpeed
  }

  /** `moon.spinSpeed ?? moon.orbitSpeed`. */
  function MoonSpinSpeed(moon: Moon): real {
    moon.spinSpeed.GetOr(moon.orbitSpeed)
  }

  /** The angle a moon has turned about its own axis by `time`. */
  function MoonSpinAngle(moon: Moon, time: real): real {
    time * MoonSpinSpeed(moon)
  }

  /** A moon's place: its distance along the orbit angle, around the
      planet's recorded position. */
  function MoonPosition(planetPosition: Vec3, moon: Moon, time: real, m: HostMath): Vec3 {
    planetPosition.Plus(MoonOffset(moon, time, m))
  }

  /** (moonX, 0, moonZ): the moon relative to its planet. */
  function MoonOffset(moon: Moon, time: real, m: HostMath): Vec3 {
    var angle := MoonOrbitAngle(moon, time);
    Polar(moon.distance, m.Cos(angle), m.Sin(angle))
  }

  /** Every moon sits at exactly its distance from the planet. */
  lemma MoonAtDistance(planetPosition: Vec3, moon: Moon, time: real, m: HostMath)
    requires Lawful(m)
    ensures MoonPosition(planetPosition, moon, time, m).Minus(planetPosition).NormSquared()
         == moon.distance * moon.distance
  {
    var angle := MoonOrbitAngle(moon, time);
    var d := moon.distance;
    assert MoonPosition(planetPosition, moon, time, m).Minus(planetPosition) == MoonOffset(moon, time, m);
    Pythagoras(m, angle);
    PolarLength(d, m.Cos(angle), m.Sin(angle));
  }

  /** Without a spinSpeed a moon is tidally locked: it turns about its
      axis by exactly its orbit angle; with one, it spins at that speed. */
  lemma MoonSpin(moon: Moon, time: real)
    ensures moon.spinSpeed.None? ==> MoonSpinAngle(moon, time) == MoonOrbitAngle(moon, time)
    ensures moon.spinSpeed.Some? ==> MoonSpinSpeed(moon) == moon.spinSpeed.value
  {
  }

  /** No moon of the table sets spinSpeed, so every moon is tidally locked. */
  lemma TableMoonsLocked()
    ensures forall i, j :: 0 <= i < |Planets| && 0 <= j < |Planets[i].moons| ==>
      Planets[i].moons[j].spinSpeed.None?
  {
  }

  /** `planet.radius * (rings.outerRadius / 2.0)`. */
  function RingScale(p: Planet, rings: Rings): real {
    p.radius * (rings.outerRadius / 2.0)
  }

  /** The ring mesh is built with inner radius 1.2 and outer radius 2.0, so
      the scaled ring's outer edge lies at radius * outerRadius, while its
      inner edge lies at 0.6 radius * outerRadius whatever innerRadius says. */
  lemma RingExtent(p: Planet, rings: Rings)
    ensures 2.0 * RingScale(p, rings) == p.radius * rings.outerRadius
    ensures 1.2 * RingScale(p, rings) == 0.6 * (p.radius * rings.outerRadius)
  {
  }

  // ---------------------------------------------------------------------
  // Model matrices, as renderScene composes them

  /** identity, then translate by the galactic offset, then (for an
      orbiting body) by (planetX, 0, planetZ). */
  function PlacedMatrix(p: Planet, time: real, m: HostMath): Matrix
    requires Elliptic(p) && Lawful(m)
  {
    var base := Translated(IdentityMatrix(), GalacticOffset(time));
    if p.semiMajorAxis > 0.0 then Translated(base, OrbitOffset(p, time, m)) else base
  }

  /** The planet's model matrix: placed, spun by time * rotationSpeed about
      y, scaled by its radius. */
  function PlanetMatrix(p: Planet, time: real, m: HostMath): Matrix
    requires Elliptic(p) && Lawful(m)
  {
    var spin := PlanetSpinAngle(p, time);
    Scaled(RotatedY(PlacedMatrix(p, time, m), m.Sin(spin), m.Cos(spin)),
           Vec3(p.radius, p.radius, p.radius))
  }

  /** The ring's model matrix: placed by the same orbit, tilted about x,
      spun with the planet, scaled by RingScale. */
  function RingMatrix(p: Planet, rings: Rings, time: real, m: HostMath): Matrix
    requires Elliptic(p) && Lawful(m)
  {
    var spin := PlanetSpinAngle(p, time);
    var k := RingScale(p, rings);
    Scaled(RotatedY(RotatedX(PlacedMatrix(p, time, m), m.Sin(rings.tilt), m.Cos(rings.tilt)),
                    m.Sin(spin), m.Cos(spin)),
           Vec3(k, k, k))
  }

  /** The moon's model matrix: translate to the planet's position, then by
      the moon's orbit offset, spin, scale. */
  function MoonMatrix(planetPosition: Vec3, moon: Moon, time: real, m: HostMath): Matrix {
    var spin := MoonSpinAngle(moon, time);
    Scaled(RotatedY(MoonPlacedMatrix(planetPosition, moon, time, m), m.Sin(spin), m.Cos(spin)),
           Vec3(moon.radius, moon.radius, moon.radius))
  }

  function MoonPlacedMatrix(planetPosition: Vec3, moon: Moon, time: real, m: HostMath): Matrix {
    Translated(Translated(IdentityMatrix(), planetPosition), MoonOffset(moon, time, m))
  }

  /** identity translated by u, then by v, moves the origin to u + v. */
  lemma TranslatedIdentityTwice(u: Vec3, v: Vec3)
    ensures Position(Translated(Translated(IdentityMatrix(), u), v)) == u.Plus(v)
    ensures Position(Translated(IdentityMatrix(), u)) == u
  {
    TranslatedTwice(IdentityMatrix(), u, v);
    TranslateKeepsBasis(IdentityMatrix(), u.Plus(v));
    TranslateKeepsBasis(IdentityMatrix(), u);
  }

  /** Spinning about y and scaling, the last two steps for every body,
      keep where the origin lands. */
  lemma SpunPosition(a: Matrix, s: real, c: real, v: Vec3)
    ensures Position(Scaled(RotatedY(a, s, c), v)) == Position(a)
  {
    KeepPosition(RotatedY(a, s, c), s, c, v);
    KeepPosition(a, s, c, v);
  }

  lemma PlacedAtPosition(p: Planet, time: real, m: HostMath)
    requires Elliptic(p) && Lawful(m)
    ensures Position(PlacedMatrix(p, time, m)) == PlanetPosition(p, time, m)
  {
    TranslatedIdentityTwice(GalacticOffset(time), OrbitOffset(p, time, m));
  }

  /** The planet is drawn centred on the position that trails, moons and
      camera tracking record. */
  lemma PlanetMatrixAtPosition(p: Planet, time: real, m: HostMath)
    requires Elliptic(p) && Lawful(m)
    ensures Position(PlanetMatrix(p, time, m)) == PlanetPosition(p, time, m)
  {
    var spin := PlanetSpinAngle(p, time);
    SpunPosition(PlacedMatrix(p, time, m), m.Sin(spin), m.Cos(spin), Vec3(p.radius, p.radius, p.radius));
    PlacedAtPosition(p, time, m);
  }

  /** The ring, computed by repeating the orbit formulas, is centred on the
      planet: tilting, spinning and scaling keep the translation column. */
  lemma RingMatrixAtPosition(p: Planet, rings: Rings, time: real, m: HostMath)
    requires Elliptic(p) && Lawful(m)
    ensures Position(RingMatrix(p, rings, time, m)) == PlanetPosition(p, time, m)
  {
    var spin := PlanetSpinAngle(p, time);
    var k := RingScale(p, rings);
    var r := PlacedMatrix(p, time, m);
    var tilted := RotatedX(r, m.Sin(rings.tilt), m.Cos(rings.tilt));
    KeepPosition(r, m.Sin(rings.tilt), m.Cos(rings.tilt), Vec3(k, k, k));
    SpunPosition(tilted, m.Sin(spin), m.Cos(spin), Vec3(k, k, k));
    PlacedAtPosition(p, time, m);
  }

  /** The moon is drawn centred on MoonPosition. */
  lemma MoonMatrixAtPosition(planetPosition: Vec3, moon: Moon, time: real, m: HostMath)
    ensures Position(MoonMatrix(planetPosition, moon, time, m)) == MoonPosition(planetPosition, moon, time, m)
  {
    var spin := MoonSpinAngle(moon, time);
    SpunPosition(MoonPlacedMatrix(planetPosition, moon, time, m), m.Sin(spin), m.Cos(spin),
                 Vec3(moon.radius, moon.radius, moon.radius));
    TranslatedIdentityTwice(planetPosition, MoonOffset(moon, time, m));
  }
}
