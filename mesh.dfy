/** Mesh generation: createSphere and createRing build flat attribute arrays
    (three numbers per vertex position and normal, two per texture
    coordinate) and an index list of triangles, by `push`ing inside nested
    loops. The index lists are uploaded as 16-bit unsigned integers, so every
    index must stay below 65536. */
module Mesh {
  import opened Basics

  /** The four arrays createSphere and createRing return. */
  datatype Mesh = Mesh(vertices: seq<real>, normals: seq<real>, texCoords: seq<real>, indices: seq<int>)

  const Empty: Mesh := Mesh([], [], [], [])

  /** Pushing the entries of `b` after those of `a`, array by array. */
  function Append(a: Mesh, b: Mesh): Mesh {
    Mesh(a.vertices + b.vertices, a.normals + b.normals, a.texCoords + b.texCoords, a.indices + b.indices)
  }

  lemma AppendAssoc(a: Mesh, b: Mesh, c: Mesh)
    ensures Append(Append(a, b), c) == Append(a, Append(b, c))
  {
  }

  // ---------------------------------------------------------------------
  // Flat-array vocabulary

  /** Every consecutive triple (x, y, z) of `s` has x^2 + y^2 + z^2 = 1. */
  predicate UnitTriples(s: seq<real>)
    decreases |s|
  {
    if |s| < 3 then s == [] else IsUnit(s[0], s[1], s[2]) && UnitTriples(s[3..])
  }

  predicate IsUnit(x: real, y: real, z: real) { x * x + y * y + z * z == 1.0 }

  /** Every consecutive triple of `s` is (0, 1, 0). */
  predicate UpTriples(s: seq<real>)
    decreases |s|
  {
    if |s| < 3 then s == [] else s[0] == 0.0 && s[1] == 1.0 && s[2] == 0.0 && UpTriples(s[3..])
  }

  /** Every consecutive triple of `s` has y = 0. */
  predicate GroundTriples(s: seq<real>)
    decreases |s|
  {
    if |s| < 3 then s == [] else s[1] == 0.0 && GroundTriples(s[3..])
  }

  predicate AllBetween(s: seq<int>, lo: int, hi: int) {
    forall i :: 0 <= i < |s| ==> lo <= s[i] < hi
  }

  predicate AllInUnitInterval(s: seq<real>) {
    forall i :: 0 <= i < |s| ==> 0.0 <= s[i] <= 1.0
  }

  /** One step of the multiplications that count array entries. */
  lemma MulSucc(n: nat, c: nat)
    requires 0 < n
    ensures n * c == (n - 1) * c + c
  {
  }

  lemma {:induction false} UnitTriplesAppend(a: seq<real>, b: seq<real>)
    requires UnitTriples(a) && UnitTriples(b)
    ensures UnitTriples(a + b)
    decreases |a|
  {
    if a != [] {
      assert (a + b)[3..] == a[3..] + b;
      UnitTriplesAppend(a[3..], b);
    } else {
      assert a + b == b;
    }
  }

  lemma {:induction false} UpTriplesAppend(a: seq<real>, b: seq<real>)
    requires UpTriples(a) && UpTriples(b)
    ensures UpTriples(a + b)
    decreases |a|
  {
    if a != [] {
      assert (a + b)[3..] == a[3..] + b;
      UpTriplesAppend(a[3..], b);
    } else {
      assert a + b == b;
    }
  }

  lemma {:induction false} GroundTriplesAppend(a: seq<real>, b: seq<real>)
    requires GroundTriples(a) && GroundTriples(b)
    ensures GroundTriples(a + b)
    decreases |a|
  {
    if a != [] {
      assert (a + b)[3..] == a[3..] + b;
      GroundTriplesAppend(a[3..], b);
    } else {
      assert a + b == b;
    }
  }

  /** A ratio k / n with 0 <= k <= n lies in [0, 1]. */
  lemma RatioInUnit(k: nat, n: nat)
    requires 0 < n && k <= n
    ensures 0.0 <= k as real / n as real <= 1.0
  {
  }

  /** sin^2 + cos^2 = 1 for both angles puts (cos phi sin theta, cos theta,
      sin phi sin theta) on the unit sphere. */
  lemma SphericalUnit(st: real, ct: real, sp: real, cp: real)
    requires st * st + ct * ct == 1.0 && sp * sp + cp * cp == 1.0
    ensures IsUnit(cp * st, ct, sp * st)
  {
    assert (cp * st) * (cp * st) + (sp * st) * (sp * st) == (cp * cp + sp * sp) * (st * st);
  }

  // ---------------------------------------------------------------------
  // createSphere

  /** The polar angle of latitude band `lat`: `lat * Math.PI / latBands`. */
  function Theta(latBands: nat, lat: nat): real
    requires 0 < latBands
  {
    lat as real * PI / latBands as real
  }

  /** The azimuth of longitude `long`: `long * 2 * Math.PI / longBands`. */
  function Phi(longBands: nat, long: nat): real
    requires 0 < longBands
  {
    long as real * 2.0 * PI / longBands as real
  }

  /** What the inner vertex loop pushes for grid point (lat, long): the
      position radius * normal, the unit normal
      (cos phi sin theta, cos theta, sin phi sin theta), and the texture
      coordinates u = 1 - long / longBands, v = lat / latBands. The inner
      loop of CreateSphere computes these values through this function
      (the source hoists sin theta and cos theta out of that loop, which
      does not change them). */
  function SpherePoint(radius: real, latBands: nat, longBands: nat, m: HostMath, lat: nat, long: nat): Mesh
    requires 0 < latBands && 0 < longBands
  {
    var sinTheta, cosTheta := m.Sin(Theta(latBands, lat)), m.Cos(Theta(latBands, lat));
    var sinPhi, cosPhi := m.Sin(Phi(longBands, long)), m.Cos(Phi(longBands, long));
    var x, y, z := cosPhi * sinTheta, cosTheta, sinPhi * sinTheta;
    Mesh([radius * x, radius * y, radius * z], [x, y, z],
         [1.0 - (long as real / longBands as real), lat as real / latBands as real], [])
  }

  /** The first k points of latitude band `lat`. */
  function SphereRow(radius: real, latBands: nat, longBands: nat, m: HostMath, lat: nat, k: nat): Mesh
    requires 0 < latBands && 0 < longBands
  {
    if k == 0 then Empty
    else Append(SphereRow(radius, latBands, longBands, m, lat, k - 1),
                SpherePoint(radius, latBands, longBands, m, lat, k - 1))
  }

  /** The first n latitude bands, each of longBands + 1 points. */
  function SphereRows(radius: real, latBands: nat, longBands: nat, m: HostMath, n: nat): Mesh
    requires 0 < latBands && 0 < longBands
  {
    if n == 0 then Empty
    else Append(SphereRows(radius, latBands, longBands, m, n - 1),
                SphereRow(radius, latBands, longBands, m, n - 1, longBands + 1))
  }

  /** The two triangles of the quad whose top-left corner is grid point
      (lat, long). */
  function SphereCell(longBands: nat, lat: nat, long: nat): seq<int> {
    var first := lat * (longBands + 1) + long;
    var second := first + longBands + 1;
    [first, second, first + 1, second, second + 1, first + 1]
  }

  /** The cells of band `lat` with long < k. */
  function SphereCellRow(longBands: nat, lat: nat, k: nat): seq<int> {
    if k == 0 then [] else SphereCellRow(longBands, lat, k - 1) + SphereCell(longBands, lat, k - 1)
  }

  /** The cells of bands lat < n. */
  function SphereCells(longBands: nat, n: nat): seq<int> {
    if n == 0 then [] else SphereCells(longBands, n - 1) + SphereCellRow(longBands, n - 1, longBands)
  }

  /** The mesh createSphere returns. */
  function SphereMesh(radius: real, latBands: nat, longBands: nat, m: HostMath): Mesh
    requires 0 < latBands && 0 < longBands
  {
    var g := SphereRows(radius, latBands, longBands, m, latBands + 1);
    Mesh(g.vertices, g.normals, g.texCoords, SphereCells(longBands, latBands))
  }

  /** createSphere(radius, latBands, longBands): the vertex loops, then the
      index loops. */
  method CreateSphere(radius: real, latBands: nat, longBands: nat, m: HostMath) returns (mesh: Mesh)
    requires 0 < latBands && 0 < longBands
    ensures mesh == SphereMesh(radius, latBands, longBands, m)
  {
    var grid := SphereGrid(radius, latBands, longBands, m);
    var indices := SphereIndices(latBands, longBands);
    mesh := Mesh(grid.vertices, grid.normals, grid.texCoords, indices);
  }

  /** The first loop nest of createSphere: one point per (lat, long) with
      0 <= lat <= latBands and 0 <= long <= longBands, row by row. */
  method SphereGrid(radius: real, latBands: nat, longBands: nat, m: HostMath) returns (grid: Mesh)
    requires 0 < latBands && 0 < longBands
    ensures grid == SphereRows(radius, latBands, longBands, m, latBands + 1)
  {
    grid := Empty;
    var lat: nat := 0;
    while lat <= latBands
      invariant lat <= latBands + 1
      invariant grid == SphereRows(radius, latBands, longBands, m, lat)
    {
      grid := SphereBand(grid, radius, latBands, longBands, m, lat);
      lat := lat + 1;
    }
  }

  /** The inner loop of the first nest: it pushes the longBands + 1 points of
      band `lat` after what `start` already holds, position, normal and
      texture coordinates together. */
  method SphereBand(start: Mesh, radius: real, latBands: nat, longBands: nat, m: HostMath, lat: nat)
    returns (grid: Mesh)
    requires 0 < latBands && 0 < longBands
    ensures grid == Append(start, SphereRow(radius, latBands, longBands, m, lat, longBands + 1))
  {
    grid := start;
    var long: nat := 0;
    while long <= longBands
      invariant long <= longBands + 1
      invariant grid == Append(start, SphereRow(radius, latBands, longBands, m, lat, long))
    {
      var p := SpherePoint(radius, latBands, longBands, m, lat, long);
      AppendAssoc(start, SphereRow(radius, latBands, longBands, m, lat, long), p);
      grid := Append(grid, p);
      long := long + 1;
    }
  }

  /** The second loop nest of createSphere: two triangles per quad, for
      0 <= lat < latBands and 0 <= long < longBands. */
  method SphereIndices(latBands: nat, longBands: nat) returns (indices: seq<int>)
    ensures indices == SphereCells(longBands, latBands)
  {
    indices := [];
    var lat := 0;
    while lat < latBands
      invariant lat <= latBands
      invariant indices == SphereCells(longBands, lat)
    {
      var long := 0;
      while long < longBands
        invariant long <= longBands
        invariant indices == SphereCells(longBands, lat) + SphereCellRow(longBands, lat, long)
      {
        var first := lat * (longBands + 1) + long;
        var second := first + longBands + 1;
        indices := indices + [first, second, first + 1];
        indices := indices + [second, second + 1, first + 1];
        assert SphereCell(longBands, lat, long) == [first, second, first + 1] + [second, second + 1, first + 1];
        long := long + 1;
      }
      lat := lat + 1;
    }
  }

  // Properties of the sphere

  lemma {:induction false} SphereRowSizes(radius: real, latBands: nat, longBands: nat, m: HostMath, lat: nat, k: nat)
    requires 0 < latBands && 0 < longBands
    ensures var g := SphereRow(radius, latBands, longBands, m, lat, k);
      |g.vertices| == 3 * k && |g.normals| == 3 * k && |g.texCoords| == 2 * k && g.indices == []
  {
    if k > 0 {
      SphereRowSizes(radius, latBands, longBands, m, lat, k - 1);
    }
  }

  lemma {:induction false} SphereRowsSizes(radius: real, latBands: nat, longBands: nat, m: HostMath, n: nat)
    requires 0 < latBands && 0 < longBands
    ensures var g := SphereRows(radius, latBands, longBands, m, n);
      |g.vertices| == 3 * (n * (longBands + 1)) && |g.normals| == 3 * (n * (longBands + 1))
      && |g.texCoords| == 2 * (n * (longBands + 1))
  {
    if n > 0 {
      SphereRowsSizes(radius, latBands, longBands, m, n - 1);
      SphereRowSizes(radius, latBands, longBands, m, n - 1, longBands + 1);
      MulSucc(n, longBands + 1);
    }
  }

  lemma {:induction false} SphereCellRowBounds(longBands: nat, lat: nat, k: nat)
    requires k <= longBands
    ensures |SphereCellRow(longBands, lat, k)| == 6 * k
    ensures AllBetween(SphereCellRow(longBands, lat, k), lat * (longBands + 1), lat * (longBands + 1) + 2 * (longBands + 1))
  {
    if k > 0 {
      SphereCellRowBounds(longBands, lat, k - 1);
    }
  }

  lemma {:induction false} SphereCellsBounds(longBands: nat, n: nat)
    ensures |SphereCells(longBands, n)| == 6 * (n * longBands)
    ensures AllBetween(SphereCells(longBands, n), 0, n * (longBands + 1) + (longBands + 1))
  {
    if n > 0 {
      SphereCellsBounds(longBands, n - 1);
      SphereCellRowBounds(longBands, n - 1, longBands);
      MulSucc(n, longBands);
      MulSucc(n, longBands + 1);
    }
  }

  /** createSphere(r, L, G) yields (L+1)(G+1) vertices and 6 L G indices,
      each naming one of those vertices. */
  lemma SphereSizes(radius: real, latBands: nat, longBands: nat, m: HostMath)
    requires 0 < latBands && 0 < longBands
    ensures var s := SphereMesh(radius, latBands, longBands, m);
      var count := (latBands + 1) * (longBands + 1);
      && |s.vertices| == 3 * count && |s.normals| == 3 * count && |s.texCoords| == 2 * count
      && |s.indices| == 6 * (latBands * longBands)
      && AllBetween(s.indices, 0, count)
  {
    SphereRowsSizes(radius, latBands, longBands, m, latBands + 1);
    SphereCellsBounds(longBands, latBands);
    MulSucc(latBands + 1, longBands + 1);
  }

  /** The shape facts of a piece of sphere mesh: unit normals and texture
      coordinates in [0, 1]. */
  predicate SphereShaped(g: Mesh) {
    && UnitTriples(g.normals)
    && AllInUnitInterval(g.texCoords)
  }

  lemma SphereShapedAppend(a: Mesh, b: Mesh)
    requires SphereShaped(a) && SphereShaped(b)
    ensures SphereShaped(Append(a, b))
  {
    UnitTriplesAppend(a.normals, b.normals);
  }

  lemma SpherePointShaped(radius: real, latBands: nat, longBands: nat, m: HostMath, lat: nat, long: nat)
    requires 0 < latBands && 0 < longBands && lat <= latBands && long <= longBands
    requires Lawful(m)
    ensures SphereShaped(SpherePoint(radius, latBands, longBands, m, lat, long))
  {
    var p := SpherePoint(radius, latBands, longBands, m, lat, long);
    var theta, phi := Theta(latBands, lat), Phi(longBands, long);
    var st, ct, sp, cp := m.Sin(theta), m.Cos(theta), m.Sin(phi), m.Cos(phi);
    Pythagoras(m, theta);
    Pythagoras(m, phi);
    SphericalUnit(st, ct, sp, cp);
    assert p.normals[3..] == [];
    RatioInUnit(long, longBands);
    RatioInUnit(lat, latBands);
  }

  lemma {:induction false} SphereRowShaped(radius: real, latBands: nat, longBands: nat, m: HostMath, lat: nat, k: nat)
    requires 0 < latBands && 0 < longBands && lat <= latBands && k <= longBands + 1
    requires Lawful(m)
    ensures SphereShaped(SphereRow(radius, latBands, longBands, m, lat, k))
  {
    if k > 0 {
      SphereRowShaped(radius, latBands, longBands, m, lat, k - 1);
      SpherePointShaped(radius, latBands, longBands, m, lat, k - 1);
      SphereShapedAppend(SphereRow(radius, latBands, longBands, m, lat, k - 1),
                         SpherePoint(radius, latBands, longBands, m, lat, k - 1));
    }
  }

  lemma {:induction false} SphereRowsShaped(radius: real, latBands: nat, longBands: nat, m: HostMath, n: nat)
    requires 0 < latBands && 0 < longBands && n <= latBands + 1
    requires Lawful(m)
    ensures SphereShaped(SphereRows(radius, latBands, longBands, m, n))
  {
    if n > 0 {
      SphereRowsShaped(radius, latBands, longBands, m, n - 1);
      SphereRowShaped(radius, latBands, longBands, m, n - 1, longBands + 1);
      SphereShapedAppend(SphereRows(radius, latBands, longBands, m, n - 1),
                         SphereRow(radius, latBands, longBands, m, n - 1, longBands + 1));
    }
  }

  /** Every normal is a unit vector, and both texture coordinates
      u = 1 - long / G and v = lat / L lie in [0, 1]. */
  lemma SphereAttributes(radius: real, latBands: nat, longBands: nat, m: HostMath)
    requires 0 < latBands && 0 < longBands && Lawful(m)
    ensures var s := SphereMesh(radius, latBands, longBands, m);
      && UnitTriples(s.normals)
      && AllInUnitInterval(s.texCoords)
  {
    SphereRowsShaped(radius, latBands, longBands, m, latBands + 1);
  }

  // ---------------------------------------------------------------------
  // createRing

  /** The angle of ring vertex pair i: `(i / segments) * Math.PI * 2`. */
  function RingAngle(segments: nat, i: nat): real
    requires 0 < segments
  {
    (i as real / segments as real) * PI * 2.0
  }

  /** What one iteration of the vertex loop pushes: an inner and an outer
      vertex at angle `(i / segments) * Math.PI * 2`, both facing up, with
      texture coordinates (0, i / segments) and (1, i / segments). The
      loop in CreateRing computes these values through this function. */
  function RingPoint(innerRadius: real, outerRadius: real, segments: nat, m: HostMath, i: nat): Mesh
    requires 0 < segments
  {
    var cos, sin := m.Cos(RingAngle(segments, i)), m.Sin(RingAngle(segments, i));
    var t := i as real / segments as real;
    Mesh([innerRadius * cos, 0.0, innerRadius * sin, outerRadius * cos, 0.0, outerRadius * sin],
         [0.0, 1.0, 0.0, 0.0, 1.0, 0.0],
         [0.0, t, 1.0, t],
         [])
  }

  /** The vertices pushed for i < n. */
  function RingPoints(innerRadius: real, outerRadius: real, segments: nat, m: HostMath, n: nat): Mesh
    requires 0 < segments
  {
    if n == 0 then Empty
    else Append(RingPoints(innerRadius, outerRadius, segments, m, n - 1),
                RingPoint(innerRadius, outerRadius, segments, m, n - 1))
  }

  /** The two triangles of segment i, between vertices 2i .. 2i + 3. */
  function RingCell(i: nat): seq<int> {
    var base := i * 2;
    [base, base + 2, base + 1, base + 1, base + 2, base + 3]
  }

  function RingCells(n: nat): seq<int> {
    if n == 0 then [] else RingCells(n - 1) + RingCell(n - 1)
  }

  /** The mesh createRing returns. */
  function RingMesh(innerRadius: real, outerRadius: real, segments: nat, m: HostMath): Mesh
    requires 0 < segments
  {
    var g := RingPoints(innerRadius, outerRadius, segments, m, segments + 1);
    Mesh(g.vertices, g.normals, g.texCoords, RingCells(segments))
  }

  /** createRing(innerRadius, outerRadius, segments). */
  method CreateRing(innerRadius: real, outerRadius: real, segments: nat, m: HostMath) returns (mesh: Mesh)
    requires 0 < segments
    ensures mesh == RingMesh(innerRadius, outerRadius, segments, m)
  {
    var vertices: seq<real>, normals: seq<real>, texCoords: seq<real>, indices: seq<int> := [], [], [], [];
    var i := 0;
    while i <= segments
      invariant i <= segments + 1
      invariant Mesh(vertices, normals, texCoords, []) == RingPoints(innerRadius, outerRadius, segments, m, i)
    {
      var p := RingPoint(innerRadius, outerRadius, segments, m, i);
      vertices := vertices + p.vertices;
      normals := normals + p.normals;
      texCoords := texCoords + p.texCoords;
      i := i + 1;
    }
    i := 0;
    while i < segments
      invariant i <= segments
      invariant indices == RingCells(i)
    {
      var base := i * 2;
      ghost var before := indices;
      indices := indices + [base, base + 2, base + 1];
      indices := indices + [base + 1, base + 2, base + 3];
      assert indices == before + RingCell(i);
      i := i + 1;
    }
    mesh := Mesh(vertices, normals, texCoords, indices);
  }

  // Properties of the ring

  /** The shape facts of a piece of ring mesh: normals (0, 1, 0), positions
      at height 0, texture coordinates in [0, 1]. */
  predicate RingShaped(g: Mesh) {
    && UpTriples(g.normals)
    && GroundTriples(g.vertices)
    && AllInUnitInterval(g.texCoords)
  }

  lemma RingShapedAppend(a: Mesh, b: Mesh)
    requires RingShaped(a) && RingShaped(b)
    ensures RingShaped(Append(a, b))
  {
    UpTriplesAppend(a.normals, b.normals);
    GroundTriplesAppend(a.vertices, b.vertices);
  }

  lemma RingPointShaped(innerRadius: real, outerRadius: real, segments: nat, m: HostMath, i: nat)
    requires 0 < segments && i <= segments
    ensures RingShaped(RingPoint(innerRadius, outerRadius, segments, m, i))
  {
    var p := RingPoint(innerRadius, outerRadius, segments, m, i);
    assert p.vertices[3..][3..] == [] && p.normals[3..][3..] == [];
    RatioInUnit(i, segments);
  }

  lemma {:induction false} RingPointsShaped(innerRadius: real, outerRadius: real, segments: nat, m: HostMath, n: nat)
    requires 0 < segments && n <= segments + 1
    ensures RingShaped(RingPoints(innerRadius, outerRadius, segments, m, n))
  {
    if n > 0 {
      RingPointsShaped(innerRadius, outerRadius, segments, m, n - 1);
      RingPointShaped(innerRadius, outerRadius, segments, m, n - 1);
      RingShapedAppend(RingPoints(innerRadius, outerRadius, segments, m, n - 1),
                       RingPoint(innerRadius, outerRadius, segments, m, n - 1));
    }
  }

  lemma {:induction false} RingPointsSizes(innerRadius: real, outerRadius: real, segments: nat, m: HostMath, n: nat)
    requires 0 < segments
    ensures var g := RingPoints(innerRadius, outerRadius, segments, m, n);
      |g.vertices| == 6 * n && |g.normals| == 6 * n && |g.texCoords| == 4 * n
  {
    if n > 0 {
      RingPointsSizes(innerRadius, outerRadius, segments, m, n - 1);
    }
  }

  lemma {:induction false} RingCellsBounds(n: nat)
    ensures |RingCells(n)| == 6 * n
    ensures AllBetween(RingCells(n), 0, 2 * (n + 1))
  {
    if n > 0 {
      RingCellsBounds(n - 1);
    }
  }

  /** createRing(_, _, S) yields 2 (S + 1) vertices, all at height 0 with
      normal (0, 1, 0), and 6 S indices, each naming one of them; the
      texture coordinates lie in [0, 1]. */
  lemma RingProperties(innerRadius: real, outerRadius: real, segments: nat, m: HostMath)
    requires 0 < segments
    ensures var r := RingMesh(innerRadius, outerRadius, segments, m);
      && |r.vertices| == 3 * (2 * (segments + 1))
      && |r.normals| == 3 * (2 * (segments + 1))
      && |r.texCoords| == 2 * (2 * (segments + 1))
      && UpTriples(r.normals)
      && GroundTriples(r.vertices)
      && AllInUnitInterval(r.texCoords)
      && |r.indices| == 6 * segments
      && AllBetween(r.indices, 0, 2 * (segments + 1))
  {
    RingPointsShaped(innerRadius, outerRadius, segments, m, segments + 1);
    RingPointsSizes(innerRadius, outerRadius, segments, m, segments + 1);
    RingCellsBounds(segments);
  }

  /** The planet sphere (40 x 40), the skybox (30 x 30) and the corona
      (48 x 48) have at most 49 * 49 = 2401 vertices, and the ring (64
      segments) 130: every index fits the Uint16Array the mesh is uploaded in. */
  lemma SphereIndicesFitUint16(radius: real, latBands: nat, longBands: nat, m: HostMath)
    requires 0 < latBands <= 48 && 0 < longBands <= 48
    ensures AllBetween(SphereMesh(radius, latBands, longBands, m).indices, 0, 65536)
  {
    SphereCellsBounds(longBands, latBands);
    GridCountBound(latBands, longBands);
    AllBetweenWeaken(SphereCells(longBands, latBands), 0, latBands * (longBands + 1) + (longBands + 1), 65536);
  }

  lemma GridCountBound(latBands: nat, longBands: nat)
    requires latBands <= 48 && longBands <= 48
    ensures latBands * (longBands + 1) + (longBands + 1) <= 49 * 49
  {
    assert latBands * (longBands + 1) <= 48 * (longBands + 1);
  }

  lemma AllBetweenWeaken(s: seq<int>, lo: int, hi: int, hi2: int)
    requires AllBetween(s, lo, hi) && hi <= hi2
    ensures AllBetween(s, lo, hi2)
  {
  }

  lemma RingIndicesFitUint16(innerRadius: real, outerRadius: real, segments: nat, m: HostMath)
    requires 0 < segments <= 64
    ensures AllBetween(RingMesh(innerRadius, outerRadius, segments, m).indices, 0, 65536)
  {
    RingProperties(innerRadius, outerRadius, segments, m);
  }
}
