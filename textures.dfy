/** Texture decisions: the power-of-two test that picks mipmapping for a
    loaded image, and the flags and texture units renderCelestialBody sets
    for a body's surface and for a ring. */
module Textures {
  import opened Orbit

  // ---------------------------------------------------------------------
  // isPowerOf2

  const TwoTo32: int := 0x1_0000_0000

  /** Bitwise AND of two naturals, bit by bit from the lowest. */
  function And(a: nat, b: nat): nat
    decreases a
  {
    if a == 0 || b == 0 then 0
    else 2 * And(a / 2, b / 2) + (if a % 2 == 1 && b % 2 == 1 then 1 else 0)
  }

  /** `isPowerOf2(value)`: `(value & (value - 1)) === 0`. Both operands of
      `&` are taken to 32 bits and compared as a bit pattern, so the test is
      `v & (v - 1)` on the residues modulo 2^32. */
  function IsPowerOf2(value: int): bool {
    And(value % TwoTo32, (value - 1) % TwoTo32) == 0
  }

  /** The positive powers of two, 1, 2, 4, ... */
  predicate IsPow2(v: nat)
    decreases v
  {
    v == 1 || (v > 1 && v % 2 == 0 && IsPow2(v / 2))
  }

  function Pow2(k: nat): (r: nat)
    ensures r >= 1
  {
    if k == 0 then 1 else 2 * Pow2(k - 1)
  }

  lemma {:induction false} AndSelf(a: nat)
    ensures And(a, a) == a
    decreases a
  {
    if a > 0 {
      AndSelf(a / 2);
    }
  }

  /** For positive v, `v & (v - 1)` clears the lowest set bit, which leaves
      zero exactly for powers of two. */
  lemma {:induction false} ClearsLowestBit(v: nat)
    requires v >= 1
    ensures And(v, v - 1) == 0 <==> IsPow2(v)
    decreases v
  {
    if v > 1 {
      if v % 2 == 1 {
        AndSelf(v / 2);
        assert (v - 1) / 2 == v / 2;
        assert And(v, v - 1) == 2 * And(v / 2, v / 2);
      } else {
        assert (v - 1) / 2 == v / 2 - 1;
        assert And(v, v - 1) == 2 * And(v / 2, v / 2 - 1);
        ClearsLowestBit(v / 2);
      }
    }
  }

  /** On 32-bit sizes the test accepts exactly 0 and the powers of two: zero
      passes too, because `0 & -1` is 0. */
  lemma PowerOf2Exactly(value: int)
    requires 0 <= value < TwoTo32
    ensures IsPowerOf2(value) <==> value == 0 || IsPow2(value)
  {
    if value > 0 {
      assert value % TwoTo32 == value;
      assert (value - 1) % TwoTo32 == value - 1;
      ClearsLowestBit(value);
    } else {
      assert (value - 1) % TwoTo32 == TwoTo32 - 1;
    }
  }

  lemma ZeroIsPowerOf2()
    ensures IsPowerOf2(0)
  {
    PowerOf2Exactly(0);
  }

  lemma {:induction false} Pow2IsPow2(k: nat)
    ensures IsPow2(Pow2(k))
  {
    if k > 0 {
      Pow2IsPow2(k - 1);
      assert Pow2(k) / 2 == Pow2(k - 1);
    }
  }

  lemma {:induction false} Pow2Exists(v: nat)
    requires IsPow2(v)
    ensures exists k: nat :: Pow2(k) == v
    decreases v
  {
    if v == 1 {
      assert Pow2(0) == v;
    } else {
      Pow2Exists(v / 2);
      var k: nat :| Pow2(k) == v / 2;
      assert Pow2(k + 1) == v;
    }
  }

  /** The image onload branch: mipmaps and trilinear filtering when both
      sides pass the test, otherwise clamped, linear, no mipmaps. */
  function UsesMipmaps(width: int, height: int): bool {
    IsPowerOf2(width) && IsPowerOf2(height)
  }

  /** An image is mipmapped exactly when each side is 0 or a power of two. */
  lemma MipmapsExactly(width: int, height: int)
    requires 0 <= width < TwoTo32 && 0 <= height < TwoTo32
    ensures UsesMipmaps(width, height) <==> (width == 0 || IsPow2(width)) && (height == 0 || IsPow2(height))
  {
    PowerOf2Exactly(width);
    PowerOf2Exactly(height);
  }

  // ---------------------------------------------------------------------
  // Texture flags and units

  /** The keys of the `textures` table. Earth's images go under three keys
      of their own; there is no `earth` key. */
  const TextureKeys: set<string> := {
    "sun", "mercury", "venus", "earthDay", "earthNight", "earthClouds", "mars",
    "jupiter", "saturn", "uranus", "neptune", "moon", "saturnRing", "starSkybox"
  }

  /** The three shader flags `hasTexture`, `isEarth` and `isRing`. */
  datatype Flags = Flags(hasTexture: bool, isEarth: bool, isRing: bool)

  /** A texture bound to a texture unit. */
  datatype Binding = Binding(unit: nat, key: string)

  datatype Surface = Surface(flags: Flags, bindings: seq<Binding>)

  /** renderCelestialBody's texture branch. A name is truthy when it is not
      empty; the table lookup succeeds for its keys, and Earth passes on
      `isEarth` alone and then samples its day, night and cloud maps on
      units 0, 1 and 2. */
  function SurfaceTextures(textureName: string, isEarth: bool, isRing: bool): (r: Surface)
    ensures r.flags.hasTexture <==> textureName != "" && (isEarth || textureName in TextureKeys)
    ensures r.flags.hasTexture ==> r.flags.isEarth == isEarth && r.flags.isRing == isRing
    ensures !r.flags.hasTexture ==> r.flags == Flags(false, false, false) && r.bindings == []
    ensures forall b :: b in r.bindings ==> b.key in TextureKeys
  {
    if textureName != "" && (isEarth || textureName in TextureKeys) then
      if isEarth then
        Surface(Flags(true, true, isRing),
                [Binding(0, "earthDay"), Binding(1, "earthNight"), Binding(2, "earthClouds")])
      else
        Surface(Flags(true, false, isRing), [Binding(0, textureName)])
    else
      Surface(Flags(false, false, false), [])
  }

  /** A planet draws with its own texture name and Earth flag, not as a ring. */
  function PlanetSurface(p: Planet): Surface {
    SurfaceTextures(p.texture, p.isEarth, false)
  }

  /** A moon draws with its texture name, never as Earth or as a ring. */
  function MoonSurface(moon: Moon): Surface {
    SurfaceTextures(moon.texture, false, false)
  }

  /** A ring sets the flags itself: textured, not Earth, a ring, and binds
      `textures[rings.texture]` on unit 0 without checking the lookup. */
  function RingSurface(rings: Rings): (r: Surface)
    ensures r.flags == Flags(true, false, true)
    ensures r.bindings == [Binding(0, rings.texture)]
  {
    Surface(Flags(true, false, true), [Binding(0, rings.texture)])
  }

  /** Every body of the table is drawn textured with the image under its own
      key, except Earth, whose key is missing from the table and which passes
      only because it is flagged as Earth. */
  lemma TableTextured()
    ensures forall i :: 0 <= i < |Planets| ==> PlanetSurface(Planets[i]).flags.hasTexture
    ensures forall i :: 0 <= i < |Planets| && Planets[i] != Earth ==>
      PlanetSurface(Planets[i]).bindings == [Binding(0, Planets[i].texture)]
    ensures Earth.texture !in TextureKeys && Earth.isEarth
    ensures PlanetSurface(Earth).bindings == [Binding(0, "earthDay"), Binding(1, "earthNight"), Binding(2, "earthClouds")]
    ensures !SurfaceTextures(Earth.texture, false, false).flags.hasTexture
  {
    forall i | 0 <= i < |Planets|
      ensures PlanetSurface(Planets[i]).flags.hasTexture
    {
      assert Planets[i].texture != "" && (Planets[i].isEarth || Planets[i].texture in TextureKeys);
    }
  }

  /** Every moon of the table draws the shared moon image, and every ring
      the ring image, both of which are in the table. */
  lemma MoonsAndRingsTextured()
    ensures forall i, k :: 0 <= i < |Planets| && 0 <= k < |Planets[i].moons| ==>
      MoonSurface(Planets[i].moons[k]) == Surface(Flags(true, false, false), [Binding(0, "moon")])
    ensures forall i :: 0 <= i < |Planets| && Planets[i].rings.Some? ==>
      Planets[i].rings.value.texture in TextureKeys
  {
    forall i, k | 0 <= i < |Planets| && 0 <= k < |Planets[i].moons|
      ensures MoonSurface(Planets[i].moons[k]) == Surface(Flags(true, false, false), [Binding(0, "moon")])
    {
      assert Planets[i].moons[k].texture == "moon";
    }
  }

  /** The Earth shader's three samplers sit on distinct units. */
  lemma EarthUnitsDistinct()
    ensures var b := PlanetSurface(Earth).bindings;
      forall j, k :: 0 <= j < k < |b| ==> b[j].unit != b[k].unit
  {
  }
}
