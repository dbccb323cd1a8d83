/** Bloom post-processing: the four offscreen framebuffers that
    createFramebuffers allocates for the canvas, and the order of the render
    passes in one frame, written as the list of GL state changes and draws
    that `render` issues and run through a small model of the GL state. */
module Bloom {
  import Basics
  import Orbit
  import Textures

  // ---------------------------------------------------------------------
  // Framebuffers

  /** The canvas and the four offscreen render targets. */
  datatype Target = SceneBuffer | BrightBuffer | Blur1Buffer | Blur2Buffer | Canvas

  /** What createFramebuffer returns: a GL handle, here the number of
      framebuffers created before it, and the size it was created with. */
  datatype Framebuffer = Framebuffer(handle: nat, width: real, height: real)

  datatype Framebuffers = Framebuffers(scene: Framebuffer, bright: Framebuffer, blur1: Framebuffer, blur2: Framebuffer)

  /** The extract threshold and the combine intensity `render` passes. */
  const BrightThreshold: real := 0.7
  const BloomIntensity: real := 1.2

  /** createFramebuffers for a canvas of width x height, the first handle
      being `next`: the scene at full size, the three bloom targets at half
      size, divided as reals. */
  function Allocated(width: nat, height: nat, next: nat): (f: Framebuffers)
    ensures f.scene.width == width as real && f.scene.height == height as real
    ensures f.bright.width == f.blur1.width == f.blur2.width == width as real / 2.0
    ensures f.bright.height == f.blur1.height == f.blur2.height == height as real / 2.0
    ensures [f.scene.handle, f.bright.handle, f.blur1.handle, f.blur2.handle] == [next, next + 1, next + 2, next + 3]
  {
    Framebuffers(Framebuffer(next, width as real, height as real),
                 Framebuffer(next + 1, width as real / 2.0, height as real / 2.0),
                 Framebuffer(next + 2, width as real / 2.0, height as real / 2.0),
                 Framebuffer(next + 3, width as real / 2.0, height as real / 2.0))
  }

  /** The size a pass rendering into t must use. */
  function TargetSize(f: Framebuffers, canvas: (real, real), t: Target): (real, real) {
    match t
    case SceneBuffer => (f.scene.width, f.scene.height)
    case BrightBuffer => (f.bright.width, f.bright.height)
    case Blur1Buffer => (f.blur1.width, f.blur1.height)
    case Blur2Buffer => (f.blur2.width, f.blur2.height)
    case Canvas => canvas
  }

  /** The three half-size targets have one size. */
  predicate BloomTargetsAlike(f: Framebuffers) {
    && f.bright.width == f.blur1.width == f.blur2.width
    && f.bright.height == f.blur1.height == f.blur2.height
  }

  /** An odd canvas side gives a fractional half size. */
  lemma OddWidthHalves(height: nat, next: nat)
    ensures Allocated(1025, height, next).bright.width == 512.5
  {
  }

  /** The canvas and its framebuffers, changed in place by resizeCanvas. */
  class Display {
    var canvasWidth: nat
    var canvasHeight: nat
    /** The size given to the last `gl.viewport` call. */
    var viewport: (real, real)
    var framebuffers: Framebuffers
    /** Every framebuffer created so far, oldest first; none is deleted. */
    var created: seq<Framebuffer>

    ghost predicate Valid()
      reads this
    {
      && |created| >= 4
      && framebuffers == Allocated(canvasWidth, canvasHeight, |created| - 4)
      && (forall i :: 0 <= i < |created| ==> created[i].handle == i)
      && created[|created| - 4..] == [framebuffers.scene, framebuffers.bright, framebuffers.blur1, framebuffers.blur2]
    }

    /** `gl.createFramebuffer` with a colour texture and depth buffer of
        the given size. */
    method CreateFramebuffer(width: real, height: real) returns (f: Framebuffer)
      modifies this`created
      ensures f == Framebuffer(|old(created)|, width, height)
      ensures created == old(created) + [f]
    {
      f := Framebuffer(|created|, width, height);
      created := created + [f];
    }

    method CreateFramebuffers()
      requires forall i :: 0 <= i < |created| ==> created[i].handle == i
      modifies this`framebuffers, this`created
      ensures framebuffers == Allocated(canvasWidth, canvasHeight, |old(created)|)
      ensures created == old(created) + [framebuffers.scene, framebuffers.bright, framebuffers.blur1, framebuffers.blur2]
      ensures Valid()
    {
      var w, h := canvasWidth as real, canvasHeight as real;
      var scene := CreateFramebuffer(w, h);
      var bright := CreateFramebuffer(w / 2.0, h / 2.0);
      var blur1 := CreateFramebuffer(w / 2.0, h / 2.0);
      var blur2 := CreateFramebuffer(w / 2.0, h / 2.0);
      framebuffers := Framebuffers(scene, bright, blur1, blur2);
      assert created[|created| - 4..] == [scene, bright, blur1, blur2];
    }

    /** The first resizeCanvas, run at start-up. */
    constructor (innerWidth: nat, innerHeight: nat)
      ensures Valid() && |created| == 4
      ensures canvasWidth == innerWidth && canvasHeight == innerHeight
      ensures viewport == (innerWidth as real, innerHeight as real)
    {
      canvasWidth, canvasHeight := innerWidth, innerHeight;
      viewport := (innerWidth as real, innerHeight as real);
      created := [];
      new;
      CreateFramebuffers();
    }

    /** resizeCanvas: adopt the window size, reset the viewport and create
        four new framebuffers; the old ones stay allocated. */
    method ResizeCanvas(innerWidth: nat, innerHeight: nat)
      requires Valid()
      modifies this
      ensures Valid()
      ensures canvasWidth == innerWidth && canvasHeight == innerHeight
      ensures viewport == (innerWidth as real, innerHeight as real)
      ensures framebuffers == Allocated(innerWidth, innerHeight, |old(created)|)
      ensures |created| == |old(created)| + 4 && created[..|old(created)|] == old(created)
    {
      canvasWidth, canvasHeight := innerWidth, innerHeight;
      viewport := (innerWidth as real, innerHeight as real);
      CreateFramebuffers();
    }
  }

  /** A valid display's framebuffers carry distinct handles, and new ones
      never reuse the handle of an old one. */
  lemma HandlesDistinct(created: seq<Framebuffer>, i: nat, j: nat)
    requires forall k :: 0 <= k < |created| ==> created[k].handle == k
    requires i < j < |created|
    ensures created[i].handle != created[j].handle
  {
  }

  // ---------------------------------------------------------------------
  // The GL state and the commands of a frame

  datatype Texture = Attachment(target: Target) | Image(key: string)

  /** The shader program of a draw, with the uniforms the frame sets. */
  datatype Program =
    | SkyboxProgram
    | StarProgram
    | TrailProgram
    /** The body shader with the texture flags of the draw. */
    | BodyProgram(flags: Textures.Flags)
    | CoronaProgram
    | Extract(threshold: real)
    | Blur(direction: (real, real), resolution: (real, real))
    | Combine(intensity: real)

  datatype Command =
    | BindFramebuffer(target: Target)
    | SetViewport(width: real, height: real)
    | BindTexture(unit: nat, texture: Texture)
    | Draw(program: Program)

  /** The GL state the commands change: the bound framebuffer, the
      viewport and the texture bound on each unit. */
  datatype GlState = GlState(bound: Target, viewport: (real, real), units: map<nat, Texture>)

  /** A draw and the state it happened in. */
  datatype DrawCall = DrawCall(target: Target, viewport: (real, real), units: map<nat, Texture>, program: Program)

  datatype Outcome = Outcome(final: GlState, draws: seq<DrawCall>)

  function Step(s: GlState, c: Command): GlState {
    match c
    case BindFramebuffer(t) => s.(bound := t)
    case SetViewport(w, h) => s.(viewport := (w, h))
    case BindTexture(u, tex) => s.(units := s.units[u := tex])
    case Draw(_) => s
  }

  function DrawsOf(s: GlState, c: Command): seq<DrawCall> {
    if c.Draw? then [DrawCall(s.bound, s.viewport, s.units, c.program)] else []
  }

  /** Run a command list from state s. */
  function Execute(cmds: seq<Command>, s: GlState): Outcome
    decreases |cmds|
  {
    if |cmds| == 0 then Outcome(s, [])
    else
      var rest := Execute(cmds[1..], Step(s, cmds[0]));
      Outcome(rest.final, DrawsOf(s, cmds[0]) + rest.draws)
  }

  /** Running two lists one after the other is running their concatenation. */
  lemma {:induction false} ExecuteAppend(a: seq<Command>, b: seq<Command>, s: GlState)
    ensures var first := Execute(a, s);
      Execute(a + b, s) == Outcome(Execute(b, first.final).final, first.draws + Execute(b, first.final).draws)
    decreases |a|
  {
    if |a| > 0 {
      assert (a + b)[1..] == a[1..] + b;
      ExecuteAppend(a[1..], b, Step(s, a[0]));
    } else {
      assert a + b == b;
    }
  }

  /** One step of Execute at position k of a list. */
  lemma ExecuteFrom(c: seq<Command>, k: nat, s: GlState)
    requires k < |c|
    ensures var rest := Execute(c[k + 1..], Step(s, c[k]));
      Execute(c[k..], s) == Outcome(rest.final, DrawsOf(s, c[k]) + rest.draws)
  {
    assert c[k..][1..] == c[k + 1..];
  }

  // ---------------------------------------------------------------------
  // renderScene, as texture bindings and draws

  /** A surface's texture bindings, in order. */
  function BindingCommands(bs: seq<Textures.Binding>): (c: seq<Command>)
    ensures |c| == |bs|
    ensures forall k :: 0 <= k < |bs| ==> c[k] == BindTexture(bs[k].unit, Image(bs[k].key))
    decreases |bs|
  {
    if |bs| == 0 then [] else [BindTexture(bs[0].unit, Image(bs[0].key))] + BindingCommands(bs[1..])
  }

  /** One body draw: the surface's bindings, then drawElements with the
      body program and the surface's flags. */
  function SurfaceDraw(sf: Textures.Surface): seq<Command> {
    BindingCommands(sf.bindings) + [Draw(BodyProgram(sf.flags))]
  }

  /** The moon loop of one planet. */
  function MoonDraws(moons: seq<Orbit.Moon>): seq<Command>
    decreases |moons|
  {
    if |moons| == 0 then [] else SurfaceDraw(Textures.MoonSurface(moons[0])) + MoonDraws(moons[1..])
  }

  /** One iteration of the planet loop: the body, its ring if it has one,
      then its moons. */
  function BodyDraws(p: Orbit.Planet): seq<Command> {
    SurfaceDraw(Textures.PlanetSurface(p))
    + (if p.rings.Some? then SurfaceDraw(Textures.RingSurface(p.rings.value)) else [])
    + MoonDraws(p.moons)
  }

  function PlanetDraws(ps: seq<Orbit.Planet>): seq<Command>
    decreases |ps|
  {
    if |ps| == 0 then [] else BodyDraws(ps[0]) + PlanetDraws(ps[1..])
  }

  /** Whether the trail loop draws body p's trail: not for a body with
      semi-major axis 0, and only for a trail of more than one point. */
  predicate TrailDrawn(p: Orbit.Planet, trails: seq<seq<Basics.Vec3>>) {
    p.semiMajorAxis != 0.0 && |trails| > 0 && |trails[0]| > 1
  }

  /** The trail loop: one line strip per drawn trail; `trails` is indexed
      like the bodies. */
  function TrailDraws(ps: seq<Orbit.Planet>, trails: seq<seq<Basics.Vec3>>): seq<Command>
    decreases |ps|
  {
    if |ps| == 0 then []
    else
      (if TrailDrawn(ps[0], trails) then [Draw(TrailProgram)] else [])
      + TrailDraws(ps[1..], if |trails| > 0 then trails[1..] else [])
  }

  /** renderScene: the trails, every body with its ring and moons, and the
      Sun's corona last. */
  function RenderSceneCommands(ps: seq<Orbit.Planet>, trails: seq<seq<Basics.Vec3>>): seq<Command> {
    TrailDraws(ps, trails) + PlanetDraws(ps) + [Draw(CoronaProgram)]
  }

  /** The number of trails the trail loop draws. */
  function TrailCount(ps: seq<Orbit.Planet>, trails: seq<seq<Basics.Vec3>>): nat
    decreases |ps|
  {
    if |ps| == 0 then 0
    else (if TrailDrawn(ps[0], trails) then 1 else 0) + TrailCount(ps[1..], if |trails| > 0 then trails[1..] else [])
  }

  /** The number of body, ring and moon draws of the planet loop. */
  function BodyDrawCount(ps: seq<Orbit.Planet>): nat
    decreases |ps|
  {
    if |ps| == 0 then 0
    else 1 + (if ps[0].rings.Some? then 1 else 0) + |ps[0].moons| + BodyDrawCount(ps[1..])
  }

  // ---------------------------------------------------------------------
  // Running bindings and draws

  /** Commands that only bind textures and draw. */
  predicate Local(c: seq<Command>)
    decreases |c|
  {
    |c| == 0 || ((c[0].BindTexture? || c[0].Draw?) && Local(c[1..]))
  }

  /** Commands whose bindings all go to units below n. */
  predicate BindsBelow(c: seq<Command>, n: nat)
    decreases |c|
  {
    |c| == 0 || ((c[0].BindTexture? ==> c[0].unit < n) && BindsBelow(c[1..], n))
  }

  /** The texture units after the bindings of c. */
  function BoundAfter(c: seq<Command>, units: map<nat, Texture>): map<nat, Texture>
    decreases |c|
  {
    if |c| == 0 then units
    else BoundAfter(c[1..], if c[0].BindTexture? then units[c[0].unit := c[0].texture] else units)
  }

  /** The programs of c's draws, in order. */
  function Programs(c: seq<Command>): seq<Program>
    decreases |c|
  {
    if |c| == 0 then [] else (if c[0].Draw? then [c[0].program] else []) + Programs(c[1..])
  }

  lemma {:induction false} LocalAppend(a: seq<Command>, b: seq<Command>)
    requires Local(a) && Local(b)
    ensures Local(a + b)
    decreases |a|
  {
    if |a| > 0 {
      assert (a + b)[0] == a[0] && (a + b)[1..] == a[1..] + b;
      LocalAppend(a[1..], b);
    } else {
      assert a + b == b;
    }
  }

  lemma {:induction false} BindsBelowAppend(a: seq<Command>, b: seq<Command>, n: nat)
    requires BindsBelow(a, n) && BindsBelow(b, n)
    ensures BindsBelow(a + b, n)
    decreases |a|
  {
    if |a| > 0 {
      assert (a + b)[0] == a[0] && (a + b)[1..] == a[1..] + b;
      BindsBelowAppend(a[1..], b, n);
    } else {
      assert a + b == b;
    }
  }

  lemma {:induction false} BindsBelowWider(c: seq<Command>, n: nat, m: nat)
    requires BindsBelow(c, n) && n <= m
    ensures BindsBelow(c, m)
    decreases |c|
  {
    if |c| > 0 {
      BindsBelowWider(c[1..], n, m);
    }
  }

  /** Bindings and draws leave the framebuffer and the viewport alone:
      each draw goes to the bound target at the current viewport, one per
      draw command in order, and only the units change. */
  lemma {:induction false} LocalRuns(c: seq<Command>, s: GlState)
    requires Local(c)
    ensures Execute(c, s).final == s.(units := BoundAfter(c, s.units))
    ensures |Execute(c, s).draws| == |Programs(c)|
    ensures forall k :: 0 <= k < |Programs(c)| ==>
      var d := Execute(c, s).draws[k];
      d.target == s.bound && d.viewport == s.viewport && d.program == Programs(c)[k]
    decreases |c|
  {
    if |c| > 0 {
      var next := Step(s, c[0]);
      assert next.bound == s.bound && next.viewport == s.viewport;
      LocalRuns(c[1..], next);
    }
  }

  lemma {:induction false} BoundAfterAppend(a: seq<Command>, b: seq<Command>, u: map<nat, Texture>)
    ensures BoundAfter(a + b, u) == BoundAfter(b, BoundAfter(a, u))
    decreases |a|
  {
    if |a| > 0 {
      assert (a + b)[1..] == a[1..] + b;
      BoundAfterAppend(a[1..], b, if a[0].BindTexture? then u[a[0].unit := a[0].texture] else u);
    } else {
      assert a + b == b;
    }
  }

  lemma {:induction false} ProgramsAppend(a: seq<Command>, b: seq<Command>)
    ensures Programs(a + b) == Programs(a) + Programs(b)
    decreases |a|
  {
    if |a| > 0 {
      assert (a + b)[1..] == a[1..] + b;
      ProgramsAppend(a[1..], b);
    } else {
      assert a + b == b;
    }
  }

  /** Bindings to units below n leave every unit from n on as it was. */
  lemma {:induction false} BindingsBelow(c: seq<Command>, n: nat, u: map<nat, Texture>)
    requires BindsBelow(c, n)
    ensures forall k :: k >= n ==> (k in BoundAfter(c, u) <==> k in u)
    ensures forall k :: k >= n && k in u ==> BoundAfter(c, u)[k] == u[k]
    decreases |c|
  {
    if |c| > 0 {
      BindingsBelow(c[1..], n, if c[0].BindTexture? then u[c[0].unit := c[0].texture] else u);
    }
  }

  // ---------------------------------------------------------------------
  // The shape of renderScene's commands

  lemma {:induction false} BindingsDrawNothing(bs: seq<Textures.Binding>)
    ensures Local(BindingCommands(bs)) && Programs(BindingCommands(bs)) == []
    ensures (forall b :: b in bs ==> b.unit < 3) ==> BindsBelow(BindingCommands(bs), 3)
    ensures (forall b :: b in bs ==> b.unit == 0) ==> BindsBelow(BindingCommands(bs), 1)
    decreases |bs|
  {
    if |bs| > 0 {
      var c := BindingCommands(bs);
      assert c[1..] == BindingCommands(bs[1..]);
      assert forall b :: b in bs[1..] ==> b in bs;
      BindingsDrawNothing(bs[1..]);
    }
  }

  /** A body draw binds, then draws once with its flags. */
  lemma SurfaceShape(sf: Textures.Surface)
    ensures Local(SurfaceDraw(sf)) && Programs(SurfaceDraw(sf)) == [BodyProgram(sf.flags)]
    ensures (forall b :: b in sf.bindings ==> b.unit < 3) ==> BindsBelow(SurfaceDraw(sf), 3)
    ensures (forall b :: b in sf.bindings ==> b.unit == 0) ==> BindsBelow(SurfaceDraw(sf), 1)
  {
    var draw := [Draw(BodyProgram(sf.flags))];
    BindingsDrawNothing(sf.bindings);
    assert Local(draw) && BindsBelow(draw, 1) && BindsBelow(draw, 3);
    LocalAppend(BindingCommands(sf.bindings), draw);
    if forall b :: b in sf.bindings ==> b.unit < 3 {
      BindsBelowAppend(BindingCommands(sf.bindings), draw, 3);
    }
    if forall b :: b in sf.bindings ==> b.unit == 0 {
      BindsBelowAppend(BindingCommands(sf.bindings), draw, 1);
    }
    ProgramsAppend(BindingCommands(sf.bindings), draw);
    assert Programs(draw) == [BodyProgram(sf.flags)] + Programs([]);
  }

  /** renderCelestialBody binds on units 0 to 2 only, and a body that is
      not Earth on unit 0 only. */
  lemma SurfaceUnits(name: string, isEarth: bool, isRing: bool)
    ensures forall b :: b in Textures.SurfaceTextures(name, isEarth, isRing).bindings ==> b.unit < 3
    ensures !isEarth ==> forall b :: b in Textures.SurfaceTextures(name, isEarth, isRing).bindings ==> b.unit == 0
  {
  }

  lemma {:induction false} MoonDrawsShape(moons: seq<Orbit.Moon>)
    ensures Local(MoonDraws(moons)) && BindsBelow(MoonDraws(moons), 1)
    ensures |Programs(MoonDraws(moons))| == |moons|
    ensures forall k :: 0 <= k < |moons| ==> Programs(MoonDraws(moons))[k].BodyProgram?
    decreases |moons|
  {
    if |moons| > 0 {
      var sf := Textures.MoonSurface(moons[0]);
      SurfaceUnits(moons[0].texture, false, false);
      SurfaceShape(sf);
      MoonDrawsShape(moons[1..]);
      LocalAppend(SurfaceDraw(sf), MoonDraws(moons[1..]));
      BindsBelowAppend(SurfaceDraw(sf), MoonDraws(moons[1..]), 1);
      ProgramsAppend(SurfaceDraw(sf), MoonDraws(moons[1..]));
    }
  }

  /** A planet's ring and moons bind on unit 0 only, and draw with the body
      program. */
  lemma RingAndMoonsShape(p: Orbit.Planet)
    ensures var rest := (if p.rings.Some? then SurfaceDraw(Textures.RingSurface(p.rings.value)) else []) + MoonDraws(p.moons);
      && Local(rest) && BindsBelow(rest, 1)
      && |Programs(rest)| == (if p.rings.Some? then 1 else 0) + |p.moons|
      && forall k :: 0 <= k < |Programs(rest)| ==> Programs(rest)[k].BodyProgram?
  {
    var ring := if p.rings.Some? then SurfaceDraw(Textures.RingSurface(p.rings.value)) else [];
    if p.rings.Some? {
      SurfaceShape(Textures.RingSurface(p.rings.value));
    } else {
      assert Local(ring) && BindsBelow(ring, 1) && Programs(ring) == [];
    }
    MoonDrawsShape(p.moons);
    LocalAppend(ring, MoonDraws(p.moons));
    BindsBelowAppend(ring, MoonDraws(p.moons), 1);
    ProgramsAppend(ring, MoonDraws(p.moons));
  }

  /** One planet's draws: its body, its ring and its moons, all with the
      body program, bound on units 0 to 2, and on unit 0 alone for a body
      that is not Earth. */
  lemma BodyDrawsShape(p: Orbit.Planet)
    ensures Local(BodyDraws(p)) && BindsBelow(BodyDraws(p), 3)
    ensures !p.isEarth ==> BindsBelow(BodyDraws(p), 1)
    ensures |Programs(BodyDraws(p))| == 1 + (if p.rings.Some? then 1 else 0) + |p.moons|
    ensures forall k :: 0 <= k < |Programs(BodyDraws(p))| ==> Programs(BodyDraws(p))[k].BodyProgram?
  {
    var body := SurfaceDraw(Textures.PlanetSurface(p));
    var ring := if p.rings.Some? then SurfaceDraw(Textures.RingSurface(p.rings.value)) else [];
    var rest := ring + MoonDraws(p.moons);
    assert BodyDraws(p) == body + rest;
    SurfaceUnits(p.texture, p.isEarth, false);
    SurfaceShape(Textures.PlanetSurface(p));
    RingAndMoonsShape(p);
    LocalAppend(body, rest);
    BindsBelowWider(rest, 1, 3);
    BindsBelowAppend(body, rest, 3);
    if !p.isEarth {
      BindsBelowAppend(body, rest, 1);
    }
    ProgramsAppend(body, rest);
  }

  lemma {:induction false} PlanetDrawsShape(ps: seq<Orbit.Planet>)
    ensures Local(PlanetDraws(ps)) && BindsBelow(PlanetDraws(ps), 3)
    ensures (forall i :: 0 <= i < |ps| ==> !ps[i].isEarth) ==> BindsBelow(PlanetDraws(ps), 1)
    ensures |Programs(PlanetDraws(ps))| == BodyDrawCount(ps)
    ensures forall k :: 0 <= k < BodyDrawCount(ps) ==> Programs(PlanetDraws(ps))[k].BodyProgram?
    decreases |ps|
  {
    if |ps| > 0 {
      var head, tail := BodyDraws(ps[0]), PlanetDraws(ps[1..]);
      BodyDrawsShape(ps[0]);
      PlanetDrawsShape(ps[1..]);
      LocalAppend(head, tail);
      BindsBelowAppend(head, tail, 3);
      if forall i :: 0 <= i < |ps| ==> !ps[i].isEarth {
        assert !ps[0].isEarth;
        assert forall i :: 0 <= i < |ps[1..]| ==> ps[1..][i] == ps[i + 1];
        BindsBelowAppend(head, tail, 1);
      }
      ProgramsAppend(head, tail);
    }
  }

  lemma {:induction false} PlanetDrawsAppend(a: seq<Orbit.Planet>, b: seq<Orbit.Planet>)
    ensures PlanetDraws(a + b) == PlanetDraws(a) + PlanetDraws(b)
    decreases |a|
  {
    if |a| > 0 {
      assert (a + b)[0] == a[0] && (a + b)[1..] == a[1..] + b;
      PlanetDrawsAppend(a[1..], b);
    } else {
      assert a + b == b;
    }
  }

  lemma PlanetDrawsSnoc(ps: seq<Orbit.Planet>, p: Orbit.Planet)
    ensures PlanetDraws(ps + [p]) == PlanetDraws(ps) + BodyDraws(p)
  {
    PlanetDrawsAppend(ps, [p]);
    assert PlanetDraws([p]) == BodyDraws(p) + PlanetDraws([]);
    assert BodyDraws(p) + [] == BodyDraws(p);
  }

  lemma {:induction false} TrailDrawsShape(ps: seq<Orbit.Planet>, trails: seq<seq<Basics.Vec3>>)
    ensures Local(TrailDraws(ps, trails)) && BindsBelow(TrailDraws(ps, trails), 0)
    ensures Programs(TrailDraws(ps, trails)) == seq(TrailCount(ps, trails), _ => TrailProgram)
    decreases |ps|
  {
    if |ps| > 0 {
      var rest := if |trails| > 0 then trails[1..] else [];
      var head: seq<Command> := if TrailDrawn(ps[0], trails) then [Draw(TrailProgram)] else [];
      assert Local(head) && BindsBelow(head, 0);
      TrailDrawsShape(ps[1..], rest);
      LocalAppend(head, TrailDraws(ps[1..], rest));
      BindsBelowAppend(head, TrailDraws(ps[1..], rest), 0);
      ProgramsAppend(head, TrailDraws(ps[1..], rest));
      assert Programs(head) == seq(|head|, _ => TrailProgram);
    }
  }

  /** renderScene draws its trails, then the bodies with their rings and
      moons in table order, then the corona, all to the bound target, and
      binds textures on units 0 to 2 only. */
  lemma SceneShape(ps: seq<Orbit.Planet>, trails: seq<seq<Basics.Vec3>>)
    ensures var c, t, b := RenderSceneCommands(ps, trails), TrailCount(ps, trails), BodyDrawCount(ps);
      && Local(c) && BindsBelow(c, 3)
      && |Programs(c)| == t + b + 1
      && (forall k :: 0 <= k < t ==> Programs(c)[k] == TrailProgram)
      && (forall k :: t <= k < t + b ==> Programs(c)[k].BodyProgram?)
      && Programs(c)[t + b] == CoronaProgram
  {
    var tr, pl, co := TrailDraws(ps, trails), PlanetDraws(ps), [Draw(CoronaProgram)];
    TrailDrawsShape(ps, trails);
    PlanetDrawsShape(ps);
    assert Local(co) && BindsBelow(co, 0);
    LocalAppend(tr, pl);
    LocalAppend(tr + pl, co);
    BindsBelowWider(tr, 0, 3);
    BindsBelowWider(co, 0, 3);
    BindsBelowAppend(tr, pl, 3);
    BindsBelowAppend(tr + pl, co, 3);
    ProgramsAppend(tr, pl);
    ProgramsAppend(tr + pl, co);
    assert Programs(co) == [CoronaProgram] + Programs([]);
  }

  /** The program's table draws 29 bodies, rings and moons, and at most
      eight trails: the Sun never draws one, every other body once its
      trail holds two points. */
  lemma TableDrawCounts(trails: seq<seq<Basics.Vec3>>)
    ensures BodyDrawCount(Orbit.Planets) == 29
    ensures TrailCount(Orbit.Planets, trails) <= 8
    ensures |trails| == 9 && (forall i :: 1 <= i < 9 ==> |trails[i]| > 1) ==> TrailCount(Orbit.Planets, trails) == 8
  {
    TableBodyDraws();
    var ps := Orbit.Planets;
    var rest := if |trails| > 0 then trails[1..] else [];
    assert !TrailDrawn(ps[0], trails);
    assert TrailCount(ps, trails) == TrailCount(ps[1..], rest);
    TrailsAtMost(ps[1..], rest);
    if |trails| == 9 && (forall i :: 1 <= i < 9 ==> |trails[i]| > 1) {
      assert forall i :: 0 <= i < |ps[1..]| ==> ps[1..][i].semiMajorAxis != 0.0;
      TrailsAll(ps[1..], rest);
    }
  }

  lemma TableBodyDraws()
    ensures BodyDrawCount(Orbit.Planets) == 29
  {
    var ps := Orbit.Planets;
    assert BodyDrawCount(ps[8..]) == 3;
    assert BodyDrawCount(ps[7..]) == 9;
    assert BodyDrawCount(ps[6..]) == 15;
    assert BodyDrawCount(ps[5..]) == 21;
    assert BodyDrawCount(ps[4..]) == 24;
    assert BodyDrawCount(ps[3..]) == 26;
    assert BodyDrawCount(ps[2..]) == 27;
    assert BodyDrawCount(ps[1..]) == 28;
  }

  /** At most one trail per body. */
  lemma {:induction false} TrailsAtMost(ps: seq<Orbit.Planet>, trails: seq<seq<Basics.Vec3>>)
    ensures TrailCount(ps, trails) <= |ps|
    decreases |ps|
  {
    if |ps| > 0 {
      TrailsAtMost(ps[1..], if |trails| > 0 then trails[1..] else []);
    }
  }

  /** Every orbiting body whose trail holds two points draws it. */
  lemma {:induction false} TrailsAll(ps: seq<Orbit.Planet>, trails: seq<seq<Basics.Vec3>>)
    requires |trails| == |ps|
    requires forall i :: 0 <= i < |ps| ==> ps[i].semiMajorAxis != 0.0 && |trails[i]| > 1
    ensures TrailCount(ps, trails) == |ps|
    decreases |ps|
  {
    if |ps| > 0 {
      assert TrailDrawn(ps[0], trails);
      TrailsAll(ps[1..], trails[1..]);
    }
  }

  // ---------------------------------------------------------------------
  // The scene pass and the bloom passes

  /** Skybox and stars into the scene framebuffer at its own size; the
      skybox texture goes on unit 0. */
  function ScenePass(f: Framebuffers): seq<Command> {
    [BindFramebuffer(SceneBuffer), SetViewport(f.scene.width, f.scene.height),
     BindTexture(0, Image("starSkybox")), Draw(SkyboxProgram), Draw(StarProgram)]
  }

  /** Bright areas of the scene into the bright framebuffer. */
  function ExtractPass(f: Framebuffers): seq<Command> {
    [BindFramebuffer(BrightBuffer), SetViewport(f.bright.width, f.bright.height),
     BindTexture(0, Attachment(SceneBuffer)), Draw(Extract(BrightThreshold))]
  }

  /** The horizontal and the vertical blur. Neither sets the viewport, and
      the second leaves the resolution uniform at blur1's size. */
  function BlurPasses(f: Framebuffers): seq<Command> {
    var resolution := (f.blur1.width, f.blur1.height);
    [BindFramebuffer(Blur1Buffer), BindTexture(0, Attachment(BrightBuffer)), Draw(Blur((1.0, 0.0), resolution)),
     BindFramebuffer(Blur2Buffer), BindTexture(0, Attachment(Blur1Buffer)), Draw(Blur((0.0, 1.0), resolution))]
  }

  /** The scene and the blurred highlights, combined onto the canvas. */
  function CombinePass(canvas: (real, real)): seq<Command> {
    [BindFramebuffer(Canvas), SetViewport(canvas.0, canvas.1),
     BindTexture(0, Attachment(SceneBuffer)), BindTexture(1, Attachment(Blur2Buffer)), Draw(Combine(BloomIntensity))]
  }

  lemma ExtractPassRuns(f: Framebuffers, s: GlState)
    ensures var u := s.units[0 := Attachment(SceneBuffer)];
      var v := (f.bright.width, f.bright.height);
      Execute(ExtractPass(f), s)
        == Outcome(GlState(BrightBuffer, v, u), [DrawCall(BrightBuffer, v, u, Extract(BrightThreshold))])
  {
    var c := ExtractPass(f);
    var s2 := GlState(BrightBuffer, (f.bright.width, f.bright.height), s.units);
    assert c[4..] == [];
    ExecuteFrom(c, 3, s2.(units := s.units[0 := Attachment(SceneBuffer)]));
    ExecuteFrom(c, 2, s2);
    ExecuteFrom(c, 1, s.(bound := BrightBuffer));
    ExecuteFrom(c, 0, s);
  }

  lemma BlurPassesRun(f: Framebuffers, s: GlState)
    ensures var r := (f.blur1.width, f.blur1.height);
      var u1 := s.units[0 := Attachment(BrightBuffer)];
      var u2 := s.units[0 := Attachment(Blur1Buffer)];
      Execute(BlurPasses(f), s)
        == Outcome(GlState(Blur2Buffer, s.viewport, u2),
                   [DrawCall(Blur1Buffer, s.viewport, u1, Blur((1.0, 0.0), r)),
                    DrawCall(Blur2Buffer, s.viewport, u2, Blur((0.0, 1.0), r))])
  {
    var c := BlurPasses(f);
    var r := (f.blur1.width, f.blur1.height);
    var u1 := s.units[0 := Attachment(BrightBuffer)];
    var s2 := GlState(Blur1Buffer, s.viewport, u1);
    assert u1[0 := Attachment(Blur1Buffer)] == s.units[0 := Attachment(Blur1Buffer)];
    assert c[6..] == [];
    BindAndDraw(c, 3, s2, Blur2Buffer, Attachment(Blur1Buffer), Blur((0.0, 1.0), r));
    BindAndDraw(c, 0, s, Blur1Buffer, Attachment(BrightBuffer), Blur((1.0, 0.0), r));
    assert c[0..] == c;
  }

  /** Three commands at position k that bind a framebuffer, bind a texture
      on unit 0 and draw: one draw into that framebuffer with that texture. */
  lemma BindAndDraw(c: seq<Command>, k: nat, s: GlState, t: Target, tex: Texture, p: Program)
    requires k + 3 <= |c|
    requires c[k] == BindFramebuffer(t) && c[k + 1] == BindTexture(0, tex) && c[k + 2] == Draw(p)
    ensures var next := GlState(t, s.viewport, s.units[0 := tex]);
      var rest := Execute(c[k + 3..], next);
      Execute(c[k..], s) == Outcome(rest.final, [DrawCall(t, s.viewport, next.units, p)] + rest.draws)
  {
    var s1 := GlState(t, s.viewport, s.units);
    ExecuteFrom(c, k + 2, GlState(t, s.viewport, s.units[0 := tex]));
    ExecuteFrom(c, k + 1, s1);
    ExecuteFrom(c, k, s);
  }

  lemma CombinePassRuns(canvas: (real, real), s: GlState)
    ensures var u := s.units[0 := Attachment(SceneBuffer)][1 := Attachment(Blur2Buffer)];
      Execute(CombinePass(canvas), s)
        == Outcome(GlState(Canvas, canvas, u), [DrawCall(Canvas, canvas, u, Combine(BloomIntensity))])
  {
    var c := CombinePass(canvas);
    var u0 := s.units[0 := Attachment(SceneBuffer)];
    var u := u0[1 := Attachment(Blur2Buffer)];
    var s2 := GlState(Canvas, canvas, s.units);
    var s3 := GlState(Canvas, canvas, u0);
    var s4 := GlState(Canvas, canvas, u);
    var d := DrawCall(Canvas, canvas, u, Combine(BloomIntensity));
    assert c[5..] == [];
    ExecuteFrom(c, 4, s4);
    assert Execute(c[4..], s4) == Outcome(s4, [d]);
    ExecuteFrom(c, 3, s3);
    assert Execute(c[3..], s3) == Outcome(s4, [d]);
    ExecuteFrom(c, 2, s2);
    assert Execute(c[2..], s2) == Outcome(s4, [d]);
    ExecuteFrom(c, 1, s.(bound := Canvas));
    assert Execute(c[1..], s.(bound := Canvas)) == Outcome(s4, [d]);
    ExecuteFrom(c, 0, s);
    assert c[0..] == c;
  }

  lemma ScenePassRuns(f: Framebuffers, s: GlState)
    ensures var u := s.units[0 := Image("starSkybox")];
      var v := (f.scene.width, f.scene.height);
      Execute(ScenePass(f), s)
        == Outcome(GlState(SceneBuffer, v, u),
                   [DrawCall(SceneBuffer, v, u, SkyboxProgram), DrawCall(SceneBuffer, v, u, StarProgram)])
  {
    var c := ScenePass(f);
    var u := s.units[0 := Image("starSkybox")];
    var v := (f.scene.width, f.scene.height);
    var s2 := GlState(SceneBuffer, v, s.units);
    var s3 := GlState(SceneBuffer, v, u);
    var d3, d4 := DrawCall(SceneBuffer, v, u, SkyboxProgram), DrawCall(SceneBuffer, v, u, StarProgram);
    assert c[5..] == [];
    ExecuteFrom(c, 4, s3);
    assert Execute(c[4..], s3) == Outcome(s3, [d4]);
    ExecuteFrom(c, 3, s3);
    assert Execute(c[3..], s3) == Outcome(s3, [d3, d4]);
    ExecuteFrom(c, 2, s2);
    assert Execute(c[2..], s2) == Outcome(s3, [d3, d4]);
    ExecuteFrom(c, 1, s.(bound := SceneBuffer));
    assert Execute(c[1..], s.(bound := SceneBuffer)) == Outcome(s3, [d3, d4]);
    ExecuteFrom(c, 0, s);
    assert c[0..] == c;
  }

  // ---------------------------------------------------------------------
  // One frame

  /** The state renderScene starts from: the scene framebuffer bound at its
      own size, the skybox texture on unit 0. */
  function SceneStart(f: Framebuffers, s: GlState): GlState {
    GlState(SceneBuffer, (f.scene.width, f.scene.height), s.units[0 := Image("starSkybox")])
  }

  /** `render`: the scene pass, renderScene's commands `scene`, then the
      bloom passes. */
  function FrameCommands(f: Framebuffers, canvas: (real, real), scene: seq<Command>): seq<Command> {
    ScenePass(f) + scene + ExtractPass(f) + BlurPasses(f) + CombinePass(canvas)
  }

  /** The draws of a frame, in order, each with the state it sees: skybox
      and stars, the scene's draws, then the four bloom passes, which find
      on the units whatever the scene left there except what they bind
      themselves. */
  function FrameDraws(f: Framebuffers, canvas: (real, real), s: GlState, scene: seq<Command>): seq<DrawCall> {
    var start := SceneStart(f, s);
    var u := BoundAfter(scene, start.units);
    var brightView := (f.bright.width, f.bright.height);
    var r := (f.blur1.width, f.blur1.height);
    [DrawCall(SceneBuffer, start.viewport, start.units, SkyboxProgram),
     DrawCall(SceneBuffer, start.viewport, start.units, StarProgram)]
    + Execute(scene, start).draws
    + [DrawCall(BrightBuffer, brightView, u[0 := Attachment(SceneBuffer)], Extract(BrightThreshold)),
       DrawCall(Blur1Buffer, brightView, u[0 := Attachment(BrightBuffer)], Blur((1.0, 0.0), r)),
       DrawCall(Blur2Buffer, brightView, u[0 := Attachment(Blur1Buffer)], Blur((0.0, 1.0), r)),
       DrawCall(Canvas, canvas, u[0 := Attachment(SceneBuffer)][1 := Attachment(Blur2Buffer)],
                Combine(BloomIntensity))]
  }

  /** Running a frame whose scene only binds textures and draws issues
      these draws and leaves the canvas bound at its own size. */
  lemma FrameRuns(f: Framebuffers, canvas: (real, real), s: GlState, scene: seq<Command>)
    requires Local(scene)
    ensures Execute(FrameCommands(f, canvas, scene), s).draws == FrameDraws(f, canvas, s, scene)
    ensures Execute(FrameCommands(f, canvas, scene), s).final.bound == Canvas
    ensures Execute(FrameCommands(f, canvas, scene), s).final.viewport == canvas
  {
    var a, b, c, d := ScenePass(f), ExtractPass(f), BlurPasses(f), CombinePass(canvas);
    ScenePassRuns(f, s);
    var s0 := SceneStart(f, s);
    LocalRuns(scene, s0);
    var s1 := Execute(scene, s0).final;
    ExtractPassRuns(f, s1);
    var s2 := Execute(b, s1).final;
    BlurPassesRun(f, s2);
    var s3 := Execute(c, s2).final;
    CombinePassRuns(canvas, s3);
    ExecuteAppend(a, scene, s);
    ExecuteAppend(a + scene, b, s);
    ExecuteAppend(a + scene + b, c, s);
    ExecuteAppend(a + scene + b + c, d, s);
    assert s1.units[0 := Attachment(SceneBuffer)][0 := Attachment(BrightBuffer)] == s1.units[0 := Attachment(BrightBuffer)];
    assert s2.units[0 := Attachment(Blur1Buffer)] == s1.units[0 := Attachment(Blur1Buffer)];
    assert s3.units[0 := Attachment(SceneBuffer)] == s1.units[0 := Attachment(SceneBuffer)];
  }

  /** A frame draws skybox and stars, the scene's draws in order, then one
      pass each into bright, blur1, blur2 and the canvas; everything up to
      the bloom passes goes into the scene framebuffer. */
  lemma FrameOrder(f: Framebuffers, canvas: (real, real), s: GlState, scene: seq<Command>)
    requires Local(scene)
    ensures var draws := FrameDraws(f, canvas, s, scene);
      var n := |draws|;
      && n == |Programs(scene)| + 6
      && (forall k :: 0 <= k < n - 4 ==> draws[k].target == SceneBuffer)
      && draws[0].program == SkyboxProgram && draws[1].program == StarProgram
      && (forall k :: 0 <= k < |Programs(scene)| ==> draws[k + 2].program == Programs(scene)[k])
      && draws[n - 4].target == BrightBuffer && draws[n - 3].target == Blur1Buffer
      && draws[n - 2].target == Blur2Buffer && draws[n - 1].target == Canvas
  {
    LocalRuns(scene, SceneStart(f, s));
    FrameDrawsParts(f, canvas, s, scene);
  }

  /** Where the scene's draws sit in the frame's. */
  lemma FrameDrawsParts(f: Framebuffers, canvas: (real, real), s: GlState, scene: seq<Command>)
    ensures var draws, sd := FrameDraws(f, canvas, s, scene), Execute(scene, SceneStart(f, s)).draws;
      && |draws| == |sd| + 6
      && draws[0].target == draws[1].target == SceneBuffer
      && draws[0].program == SkyboxProgram && draws[1].program == StarProgram
      && (forall k :: 0 <= k < |sd| ==> draws[k + 2] == sd[k])
      && draws[|draws| - 4].target == BrightBuffer && draws[|draws| - 3].target == Blur1Buffer
      && draws[|draws| - 2].target == Blur2Buffer && draws[|draws| - 1].target == Canvas
  {
  }

  /** The program's frame draws skybox and stars, the trails, the bodies
      with rings and moons, and the corona into the scene framebuffer, then
      one pass each into bright, blur1, blur2 and the canvas. */
  lemma PassOrder(f: Framebuffers, canvas: (real, real), s: GlState,
                  ps: seq<Orbit.Planet>, trails: seq<seq<Basics.Vec3>>)
    ensures var draws := FrameDraws(f, canvas, s, RenderSceneCommands(ps, trails));
      var t, b, n := TrailCount(ps, trails), BodyDrawCount(ps), |draws|;
      && n == t + b + 7
      && (forall k :: 0 <= k < n - 4 ==> draws[k].target == SceneBuffer)
      && draws[0].program == SkyboxProgram && draws[1].program == StarProgram
      && (forall k :: 2 <= k < 2 + t ==> draws[k].program == TrailProgram)
      && (forall k :: 2 + t <= k < 2 + t + b ==> draws[k].program.BodyProgram?)
      && draws[n - 5].program == CoronaProgram
      && draws[n - 4].target == BrightBuffer && draws[n - 3].target == Blur1Buffer
      && draws[n - 2].target == Blur2Buffer && draws[n - 1].target == Canvas
  {
    var scene := RenderSceneCommands(ps, trails);
    SceneShape(ps, trails);
    FrameOrder(f, canvas, s, scene);
    var draws := FrameDraws(f, canvas, s, scene);
    var t, b := TrailCount(ps, trails), BodyDrawCount(ps);
    assert forall k :: 2 <= k < 2 + t + b + 1 ==> draws[k].program == Programs(scene)[k - 2];
  }

  /** With framebuffers from createFramebuffers, every draw covers exactly
      its own target, the blurs included, which inherit the bright pass's
      viewport; the second blur's resolution uniform is its own size too. */
  lemma ViewportsFit(f: Framebuffers, canvas: (real, real), s: GlState, scene: seq<Command>)
    requires BloomTargetsAlike(f) && Local(scene)
    ensures var draws := FrameDraws(f, canvas, s, scene);
      forall k :: 0 <= k < |draws| ==> draws[k].viewport == TargetSize(f, canvas, draws[k].target)
    ensures var draws := FrameDraws(f, canvas, s, scene);
      |draws| >= 6 && draws[|draws| - 2].program.Blur?
      && draws[|draws| - 2].program.resolution == TargetSize(f, canvas, Blur2Buffer)
  {
    LocalRuns(scene, SceneStart(f, s));
    FrameDrawsParts(f, canvas, s, scene);
  }

  lemma AllocatedAlike(width: nat, height: nat, next: nat)
    ensures BloomTargetsAlike(Allocated(width, height, next))
  {
  }

  /** What the bloom samplers read: the extract reads the scene, each blur
      the previous target, and the combine the scene and the second blur. */
  lemma PassInputs(f: Framebuffers, canvas: (real, real), s: GlState, scene: seq<Command>)
    requires Local(scene)
    ensures var draws := Execute(FrameCommands(f, canvas, scene), s).draws;
      var n := |draws|;
      && n >= 6
      && 0 in draws[n - 4].units && 0 in draws[n - 3].units && 0 in draws[n - 2].units
      && 0 in draws[n - 1].units && 1 in draws[n - 1].units
      && draws[n - 4].units[0] == Attachment(SceneBuffer)
      && draws[n - 3].units[0] == Attachment(BrightBuffer)
      && draws[n - 2].units[0] == Attachment(Blur1Buffer)
      && draws[n - 1].units[0] == Attachment(SceneBuffer) && draws[n - 1].units[1] == Attachment(Blur2Buffer)
      && draws[n - 4].program == Extract(0.7) && draws[n - 1].program == Combine(1.2)
  {
    FrameRuns(f, canvas, s, scene);
  }

  // ---------------------------------------------------------------------
  // What the draws sample

  /** The texture units each program samples: the body shader samples unit
      0 when textured, and Earth's night and cloud maps on units 1 and 2;
      stars, trails and the corona sample nothing. */
  function Samples(p: Program): set<nat> {
    match p
    case SkyboxProgram => {0}
    case StarProgram => {}
    case TrailProgram => {}
    case BodyProgram(flags) => if !flags.hasTexture then {} else if flags.isEarth then {0, 1, 2} else {0}
    case CoronaProgram => {}
    case Extract(_) => {0}
    case Blur(_, _) => {0}
    case Combine(_) => {0, 1}
  }

  /** Every unit each draw samples holds an image, not a framebuffer. */
  predicate SamplesImages(ds: seq<DrawCall>) {
    forall k, u :: 0 <= k < |ds| && u in Samples(ds[k].program) ==> u in ds[k].units && ds[k].units[u].Image?
  }

  lemma SamplesImagesAppend(a: seq<DrawCall>, b: seq<DrawCall>)
    requires SamplesImages(a) && SamplesImages(b)
    ensures SamplesImages(a + b)
  {
    forall k, u | 0 <= k < |a + b| && u in Samples((a + b)[k].program)
      ensures u in (a + b)[k].units && (a + b)[k].units[u].Image?
    {
      if k < |a| { assert (a + b)[k] == a[k]; } else { assert (a + b)[k] == b[k - |a|]; }
    }
  }

  /** A unit that held an image, or that the bindings bind, holds an image
      after them. */
  lemma {:induction false} BindingsBindImages(bs: seq<Textures.Binding>, u: map<nat, Texture>, k: nat)
    requires (k in u && u[k].Image?) || exists b :: b in bs && b.unit == k
    ensures k in BoundAfter(BindingCommands(bs), u) && BoundAfter(BindingCommands(bs), u)[k].Image?
    decreases |bs|
  {
    if |bs| > 0 {
      var c := BindingCommands(bs);
      assert c[1..] == BindingCommands(bs[1..]);
      var u1 := u[bs[0].unit := Image(bs[0].key)];
      if bs[0].unit != k && !(k in u && u[k].Image?) {
        var b :| b in bs && b.unit == k;
        assert b in bs[1..];
      }
      BindingsBindImages(bs[1..], u1, k);
    }
  }

  /** The samplers a surface's flags switch on are units its bindings
      fill. */
  predicate Covered(sf: Textures.Surface) {
    forall u :: u in Samples(BodyProgram(sf.flags)) ==> exists b :: b in sf.bindings && b.unit == u
  }

  /** renderCelestialBody and the ring code bind every unit the body
      shader then samples: unit 0, and for Earth units 1 and 2 as well. */
  lemma SurfacesCovered(name: string, isEarth: bool, isRing: bool, rings: Orbit.Rings)
    ensures Covered(Textures.SurfaceTextures(name, isEarth, isRing))
    ensures Covered(Textures.RingSurface(rings))
  {
    var sf := Textures.SurfaceTextures(name, isEarth, isRing);
    if sf.flags.hasTexture {
      assert sf.bindings[0].unit == 0;
      if isEarth {
        assert sf.bindings[1].unit == 1 && sf.bindings[2].unit == 2;
      }
    }
    assert Textures.RingSurface(rings).bindings[0].unit == 0;
  }

  /** A body draw samples only the images just bound for it. */
  lemma SurfaceSamplesImages(sf: Textures.Surface, s: GlState)
    requires Covered(sf)
    ensures SamplesImages(Execute(SurfaceDraw(sf), s).draws)
  {
    var bc := BindingCommands(sf.bindings);
    BindingsDrawNothing(sf.bindings);
    LocalRuns(bc, s);
    var s1 := Execute(bc, s).final;
    ExecuteAppend(bc, [Draw(BodyProgram(sf.flags))], s);
    assert Execute([Draw(BodyProgram(sf.flags))], s1).draws == [DrawCall(s1.bound, s1.viewport, s1.units, BodyProgram(sf.flags))];
    assert |Execute(bc, s).draws| == 0;
    forall u | u in Samples(BodyProgram(sf.flags))
      ensures u in s1.units && s1.units[u].Image?
    {
      BindingsBindImages(sf.bindings, s.units, u);
    }
  }

  lemma {:induction false} MoonsSampleImages(moons: seq<Orbit.Moon>, s: GlState)
    ensures SamplesImages(Execute(MoonDraws(moons), s).draws)
    decreases |moons|
  {
    if |moons| > 0 {
      var sd := SurfaceDraw(Textures.MoonSurface(moons[0]));
      SurfacesCovered(moons[0].texture, false, false, Orbit.Rings(0.0, 0.0, 0.0, 0.0, ""));
      SurfaceSamplesImages(Textures.MoonSurface(moons[0]), s);
      var s1 := Execute(sd, s).final;
      MoonsSampleImages(moons[1..], s1);
      ExecuteAppend(sd, MoonDraws(moons[1..]), s);
      SamplesImagesAppend(Execute(sd, s).draws, Execute(MoonDraws(moons[1..]), s1).draws);
    }
  }

  lemma BodySamplesImages(p: Orbit.Planet, s: GlState)
    ensures SamplesImages(Execute(BodyDraws(p), s).draws)
  {
    var body := SurfaceDraw(Textures.PlanetSurface(p));
    var ring := if p.rings.Some? then SurfaceDraw(Textures.RingSurface(p.rings.value)) else [];
    var moons := MoonDraws(p.moons);
    SurfacesCovered(p.texture, p.isEarth, false, if p.rings.Some? then p.rings.value else Orbit.Rings(0.0, 0.0, 0.0, 0.0, ""));
    SurfaceSamplesImages(Textures.PlanetSurface(p), s);
    var s1 := Execute(body, s).final;
    if p.rings.Some? {
      SurfaceSamplesImages(Textures.RingSurface(p.rings.value), s1);
    }
    var s2 := Execute(ring, s1).final;
    MoonsSampleImages(p.moons, s2);
    ExecuteAppend(body, ring, s);
    ExecuteAppend(body + ring, moons, s);
    SamplesImagesAppend(Execute(body, s).draws, Execute(ring, s1).draws);
    SamplesImagesAppend(Execute(body, s).draws + Execute(ring, s1).draws, Execute(moons, s2).draws);
  }

  lemma {:induction false} PlanetsSampleImages(ps: seq<Orbit.Planet>, s: GlState)
    ensures SamplesImages(Execute(PlanetDraws(ps), s).draws)
    decreases |ps|
  {
    if |ps| > 0 {
      BodySamplesImages(ps[0], s);
      var s1 := Execute(BodyDraws(ps[0]), s).final;
      PlanetsSampleImages(ps[1..], s1);
      ExecuteAppend(BodyDraws(ps[0]), PlanetDraws(ps[1..]), s);
      SamplesImagesAppend(Execute(BodyDraws(ps[0]), s).draws, Execute(PlanetDraws(ps[1..]), s1).draws);
    }
  }

  /** Every draw of renderScene samples only images: textured bodies the
      images renderCelestialBody or the ring code bound just before, and
      the trails and the corona nothing. */
  lemma SceneSamplesImages(ps: seq<Orbit.Planet>, trails: seq<seq<Basics.Vec3>>, s: GlState)
    ensures SamplesImages(Execute(RenderSceneCommands(ps, trails), s).draws)
  {
    var tr, pl, co := TrailDraws(ps, trails), PlanetDraws(ps), [Draw(CoronaProgram)];
    TrailDrawsShape(ps, trails);
    LocalRuns(tr, s);
    var s1 := Execute(tr, s).final;
    PlanetsSampleImages(ps, s1);
    var s2 := Execute(pl, s1).final;
    assert Execute(co, s2).draws == [DrawCall(s2.bound, s2.viewport, s2.units, CoronaProgram)];
    ExecuteAppend(tr, pl, s);
    ExecuteAppend(tr + pl, co, s);
    SamplesImagesAppend(Execute(tr, s).draws, Execute(pl, s1).draws);
    SamplesImagesAppend(Execute(tr, s).draws + Execute(pl, s1).draws, Execute(co, s2).draws);
  }

  /** No draw samples the target it draws into: every sampled unit holds
      an image or the attachment of a target drawn into earlier in the
      frame. */
  predicate NoFeedbackIn(draws: seq<DrawCall>) {
    forall k, u :: 0 <= k < |draws| && u in Samples(draws[k].program) ==>
      && u in draws[k].units
      && (draws[k].units[u].Attachment? ==>
            draws[k].units[u].target != draws[k].target
            && exists j :: 0 <= j < k && draws[j].target == draws[k].units[u].target)
  }

  /** A frame whose scene samples only images has no feedback loop: the
      bloom passes read only targets drawn into before them. */
  lemma FrameNoFeedback(f: Framebuffers, canvas: (real, real), s: GlState, scene: seq<Command>)
    requires SamplesImages(Execute(scene, SceneStart(f, s)).draws)
    ensures NoFeedbackIn(FrameDraws(f, canvas, s, scene))
  {
    var sd := Execute(scene, SceneStart(f, s)).draws;
    var draws := FrameDraws(f, canvas, s, scene);
    var m := |sd|;
    assert |draws| == m + 6;
    assert draws[0].target == SceneBuffer;
    forall k, u | 0 <= k < |draws| && u in Samples(draws[k].program)
      ensures u in draws[k].units
      ensures draws[k].units[u].Attachment? ==>
              draws[k].units[u].target != draws[k].target
              && exists j :: 0 <= j < k && draws[j].target == draws[k].units[u].target
    {
      if 2 <= k < 2 + m {
        assert draws[k] == sd[k - 2];
      } else if k == m + 3 {
        assert draws[m + 2].target == BrightBuffer;
      } else if k == m + 4 {
        assert draws[m + 3].target == Blur1Buffer;
      } else if k == m + 5 {
        assert draws[m + 4].target == Blur2Buffer;
      }
    }
  }

  /** The program's frame has no feedback loop. */
  lemma NoFeedback(f: Framebuffers, canvas: (real, real), s: GlState,
                   ps: seq<Orbit.Planet>, trails: seq<seq<Basics.Vec3>>)
    ensures NoFeedbackIn(FrameDraws(f, canvas, s, RenderSceneCommands(ps, trails)))
  {
    SceneShape(ps, trails);
    SceneSamplesImages(ps, trails, SceneStart(f, s));
    FrameNoFeedback(f, canvas, s, RenderSceneCommands(ps, trails));
  }

  // ---------------------------------------------------------------------
  // The program's table

  /** With Earth after the inner planets, planets that are not Earth after
      it and Neptune last, renderScene leaves Triton's moon image on unit 0
      and Earth's night and cloud maps on units 1 and 2, and every other
      unit as it was. */
  lemma EarthToNeptuneUnits(inner: seq<Orbit.Planet>, outer: seq<Orbit.Planet>,
                            trails: seq<seq<Basics.Vec3>>, u: map<nat, Texture>)
    requires forall i :: 0 <= i < |outer| ==> !outer[i].isEarth
    ensures var after := BoundAfter(RenderSceneCommands(inner + [Orbit.Earth] + outer + [Orbit.Neptune], trails), u);
      && 0 in after && 1 in after && 2 in after
      && after[0] == Image("moon") && after[1] == Image("earthNight") && after[2] == Image("earthClouds")
      && (forall k :: k > 2 ==> (k in after <==> k in u))
      && (forall k :: k > 2 && k in u ==> after[k] == u[k])
  {
    var ps := inner + [Orbit.Earth] + outer + [Orbit.Neptune];
    var tr, pl, co := TrailDraws(ps, trails), PlanetDraws(ps), [Draw(CoronaProgram)];
    TrailDrawsShape(ps, trails);
    BindingsBelow(tr, 0, u);
    var w := BoundAfter(tr, u);
    PlanetsUnits(inner, outer, w);
    var v := BoundAfter(pl, w);
    assert BoundAfter(co, v) == BoundAfter([], v);
    BoundAfterAppend(tr, pl, u);
    BoundAfterAppend(tr + pl, co, u);
  }

  /** With the program's planet table, renderScene leaves Triton's moon
      image on unit 0 and Earth's night and cloud maps on units 1 and 2,
      and every other unit as it was. */
  lemma TableSceneUnits(trails: seq<seq<Basics.Vec3>>, u: map<nat, Texture>)
    ensures var after := BoundAfter(RenderSceneCommands(Orbit.Planets, trails), u);
      && 0 in after && 1 in after && 2 in after
      && after[0] == Image("moon") && after[1] == Image("earthNight") && after[2] == Image("earthClouds")
      && (forall k :: k > 2 ==> (k in after <==> k in u))
      && (forall k :: k > 2 && k in u ==> after[k] == u[k])
  {
    var outer := [Orbit.Mars, Orbit.Jupiter, Orbit.Saturn, Orbit.Uranus];
    assert Orbit.Planets == [Orbit.Sun, Orbit.Mercury, Orbit.Venus] + [Orbit.Earth] + outer + [Orbit.Neptune];
    EarthToNeptuneUnits([Orbit.Sun, Orbit.Mercury, Orbit.Venus], outer, trails, u);
  }

  /** The planet loop over such a list. */
  lemma PlanetsUnits(inner: seq<Orbit.Planet>, outer: seq<Orbit.Planet>, w: map<nat, Texture>)
    requires forall i :: 0 <= i < |outer| ==> !outer[i].isEarth
    ensures var after := BoundAfter(PlanetDraws(inner + [Orbit.Earth] + outer + [Orbit.Neptune]), w);
      && 0 in after && 1 in after && 2 in after
      && after[0] == Image("moon") && after[1] == Image("earthNight") && after[2] == Image("earthClouds")
      && (forall k :: k > 2 ==> (k in after <==> k in w))
      && (forall k :: k > 2 && k in w ==> after[k] == w[k])
  {
    var first, last := inner + [Orbit.Earth], outer + [Orbit.Neptune];
    assert inner + [Orbit.Earth] + outer + [Orbit.Neptune] == first + last;
    PlanetDrawsAppend(first, last);
    ThroughEarth(inner, w);
    var v := BoundAfter(PlanetDraws(first), w);
    AfterEarth(outer, v);
    BoundAfterAppend(PlanetDraws(first), PlanetDraws(last), w);
  }

  /** Up to Earth: the inner planets bind on units 0 to 2, and Earth, with
      its moon, leaves its night and cloud maps on units 1 and 2. */
  lemma ThroughEarth(inner: seq<Orbit.Planet>, w: map<nat, Texture>)
    ensures var after := BoundAfter(PlanetDraws(inner + [Orbit.Earth]), w);
      && 1 in after && 2 in after
      && after[1] == Image("earthNight") && after[2] == Image("earthClouds")
      && (forall k :: k > 2 ==> (k in after <==> k in w))
      && (forall k :: k > 2 && k in w ==> after[k] == w[k])
  {
    var a := PlanetDraws(inner);
    PlanetDrawsSnoc(inner, Orbit.Earth);
    PlanetDrawsShape(inner);
    BindingsBelow(a, 3, w);
    var after := EarthUnits(BoundAfter(a, w));
    BoundAfterAppend(a, BodyDraws(Orbit.Earth), w);
  }

  /** After Earth: the outer planets bind on unit 0 only, and Neptune's
      last draw is Triton's, which binds the moon image there. */
  lemma AfterEarth(outer: seq<Orbit.Planet>, v: map<nat, Texture>)
    requires forall i :: 0 <= i < |outer| ==> !outer[i].isEarth
    ensures var after := BoundAfter(PlanetDraws(outer + [Orbit.Neptune]), v);
      && 0 in after && after[0] == Image("moon")
      && (forall k :: k > 0 ==> (k in after <==> k in v))
      && (forall k :: k > 0 && k in v ==> after[k] == v[k])
  {
    var o := PlanetDraws(outer);
    PlanetDrawsSnoc(outer, Orbit.Neptune);
    PlanetDrawsShape(outer);
    BindingsBelow(o, 1, v);
    var after := NeptuneUnits(BoundAfter(o, v));
    BoundAfterAppend(o, BodyDraws(Orbit.Neptune), v);
  }

  /** Earth binds its day, night and cloud maps on units 0 to 2; its moon
      then rebinds unit 0 only. */
  lemma EarthUnits(u: map<nat, Texture>) returns (after: map<nat, Texture>)
    ensures after == BoundAfter(BodyDraws(Orbit.Earth), u)
    ensures 1 in after && 2 in after
    ensures after[1] == Image("earthNight") && after[2] == Image("earthClouds")
    ensures forall k :: k > 2 ==> (k in after <==> k in u)
    ensures forall k :: k > 2 && k in u ==> after[k] == u[k]
  {
    var sf := Textures.PlanetSurface(Orbit.Earth);
    assert sf.bindings == [Textures.Binding(0, "earthDay"), Textures.Binding(1, "earthNight"), Textures.Binding(2, "earthClouds")];
    var binds := BindingCommands(sf.bindings);
    var body := binds + [Draw(BodyProgram(sf.flags))];
    var moons := MoonDraws(Orbit.Earth.moons);
    assert BodyDraws(Orbit.Earth) == body + moons;
    var v := u[0 := Image("earthDay")][1 := Image("earthNight")][2 := Image("earthClouds")];
    assert BoundAfter(binds[2..], u[0 := Image("earthDay")][1 := Image("earthNight")]) == v by {
      assert binds[2..][1..] == [];
    }
    assert BoundAfter(binds, u) == v by {
      assert binds[1..][1..] == binds[2..];
    }
    BoundAfterAppend(binds, [Draw(BodyProgram(sf.flags))], u);
    assert BoundAfter(body, u) == v;
    MoonDrawsShape(Orbit.Earth.moons);
    BindingsBelow(moons, 1, v);
    BoundAfterAppend(body, moons, u);
    after := BoundAfter(BodyDraws(Orbit.Earth), u);
  }

  /** Neptune's draws end with Triton, which binds the moon image on
      unit 0. */
  lemma NeptuneUnits(u: map<nat, Texture>) returns (after: map<nat, Texture>)
    ensures after == BoundAfter(BodyDraws(Orbit.Neptune), u)
    ensures 0 in after && after[0] == Image("moon")
    ensures forall k :: k > 0 ==> (k in after <==> k in u)
    ensures forall k :: k > 0 && k in u ==> after[k] == u[k]
  {
    var head := SurfaceDraw(Textures.PlanetSurface(Orbit.Neptune)) + SurfaceDraw(Textures.RingSurface(Orbit.Neptune.rings.value));
    var triton := [BindTexture(0, Image("moon")), Draw(BodyProgram(Textures.Flags(true, false, false)))];
    assert SurfaceDraw(Textures.MoonSurface(Orbit.Neptune.moons[0])) == triton;
    assert MoonDraws(Orbit.Neptune.moons) == triton + MoonDraws([]);
    assert BodyDraws(Orbit.Neptune) == head + triton;
    BodyDrawsShape(Orbit.Neptune);
    BindingsBelow(BodyDraws(Orbit.Neptune), 1, u);
    BoundAfterAppend(head, triton, u);
    after := BoundAfter(BodyDraws(Orbit.Neptune), u);
  }

  /** In the program's frame the bloom passes find what renderScene left:
      the extract and both blurs draw with Earth's night map on unit 1 and
      its cloud map on unit 2, and the combine with the clouds still on
      unit 2. None of them samples units 1 or 2 except the combine, which
      samples unit 1 after binding the second blur there. */
  lemma TableBloomUnits(f: Framebuffers, canvas: (real, real), s: GlState, trails: seq<seq<Basics.Vec3>>)
    ensures var draws := FrameDraws(f, canvas, s, RenderSceneCommands(Orbit.Planets, trails));
      var n := |draws|;
      && n >= 6
      && (forall k :: n - 4 <= k < n - 1 ==>
            && 1 in draws[k].units && 2 in draws[k].units
            && draws[k].units[1] == Image("earthNight") && draws[k].units[2] == Image("earthClouds")
            && 1 !in Samples(draws[k].program) && 2 !in Samples(draws[k].program))
      && 2 in draws[n - 1].units && draws[n - 1].units[2] == Image("earthClouds")
      && 2 !in Samples(draws[n - 1].program)
  {
    SceneShape(Orbit.Planets, trails);
    TableSceneUnits(trails, SceneStart(f, s).units);
  }
}
