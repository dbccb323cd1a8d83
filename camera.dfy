/** The camera controller: the camera globals, the handlers that change them
    (planet selection, digit keys, mouse drag, wheel, keyboard) and the
    per-frame step of `render` that smooths toward a tracked planet or
    places the camera directly in overview mode. */
module Camera {
  import opened Basics
  import Orbit

  const PanSpeed: real := 5.0
  const ZoomSpeed: real := 10.0
  /** The fraction of the remaining gap closed in each tracking frame. */
  const LerpFactor: real := 0.12
  const DragSensitivity: real := 0.01
  const TurnStep: real := 0.05

  // ---------------------------------------------------------------------
  // Selection tables

  /** `planetCameraDistances`: how close the camera sits to each body. */
  const PlanetCameraDistances: map<string, real> := map[
    "Sun" := 25.0, "Mercury" := 3.0, "Venus" := 4.0, "Earth" := 5.0, "Mars" := 4.0,
    "Jupiter" := 15.0, "Saturn" := 14.0, "Uranus" := 8.0, "Neptune" := 8.0]

  /** `planetCameraDistances[name] || 10`: every entry is non-zero, so the
      fallback applies exactly to names missing from the table. */
  function TargetDistanceFor(name: string): (d: real)
    ensures name in PlanetCameraDistances ==> d == PlanetCameraDistances[name]
    ensures name !in PlanetCameraDistances ==> d == 10.0
  {
    if name in PlanetCameraDistances then PlanetCameraDistances[name] else 10.0
  }

  /** Every selectable distance lies in the tracking range [3, 50]. */
  lemma TargetDistanceInRange(name: string)
    ensures 3.0 <= TargetDistanceFor(name) <= 50.0
  {
    if name in PlanetCameraDistances {
      assert name in {"Sun", "Mercury", "Venus", "Earth", "Mars", "Jupiter", "Saturn", "Uranus", "Neptune"};
    }
  }

  /** The digit keys' `planetNames`: index 0 is overview. */
  const PlanetNames: seq<string> := ["", "Sun", "Mercury", "Venus", "Earth", "Mars",
                                     "Jupiter", "Saturn", "Uranus", "Neptune"]

  /** Digits 1 to 9 name the bodies of the planet table in order, and each
      has its own entry in the distance table. */
  lemma NamesMatchTables()
    ensures |PlanetNames| == |Orbit.Planets| + 1
    ensures forall i :: 1 <= i < |PlanetNames| ==> PlanetNames[i] == Orbit.Planets[i - 1].name
    ensures forall i :: 1 <= i < |PlanetNames| ==> PlanetNames[i] in PlanetCameraDistances
  {
  }

  // ---------------------------------------------------------------------
  // Key strings

  /** JavaScript's `<=` on strings: code unit by code unit, a proper prefix first. */
  predicate LexLessEq(a: string, b: string)
    decreases |a|
  {
    if |a| == 0 then true
    else if |b| == 0 then false
    else if a[0] != b[0] then a[0] < b[0]
    else LexLessEq(a[1..], b[1..])
  }

  /** `key >= '0' && key <= '9'`. */
  predicate IsDigitKey(key: string) {
    LexLessEq("0", key) && LexLessEq(key, "9")
  }

  /** The test admits a key starting with 0 to 8 and, of those starting with
      9, only "9" itself. */
  lemma DigitKeyShape(key: string)
    ensures IsDigitKey(key) <==> |key| >= 1 && ('0' <= key[0] <= '8' || key == "9")
  {
    if |key| >= 1 && key[0] == '9' && |key| >= 2 {
      assert key[1..] != [];
      assert !LexLessEq(key[1..], "9"[1..]);
    }
  }

  predicate IsDigit(c: char) { '0' <= c <= '9' }

  /** The number of leading decimal digits of s. */
  function LeadingDigits(s: string): (n: nat)
    ensures n <= |s|
    ensures forall i :: 0 <= i < n ==> IsDigit(s[i])
    ensures n < |s| ==> !IsDigit(s[n])
  {
    if |s| == 0 || !IsDigit(s[0]) then 0 else 1 + LeadingDigits(s[1..])
  }

  /** The value of a string of decimal digits. */
  function DecimalValue(s: string): nat
    requires forall i :: 0 <= i < |s| ==> IsDigit(s[i])
  {
    if |s| == 0 then 0
    else
      assert IsDigit(s[|s| - 1]);
      DecimalValue(s[..|s| - 1]) * 10 + (s[|s| - 1] as int - '0' as int)
  }

  predicate IsHexDigit(c: char) { IsDigit(c) || 'a' <= c <= 'f' || 'A' <= c <= 'F' }

  function HexDigitValue(c: char): (v: nat)
    requires IsHexDigit(c)
    ensures v < 16
    ensures IsDigit(c) ==> v == c as int - '0' as int
  {
    if IsDigit(c) then c as int - '0' as int
    else if 'a' <= c <= 'f' then c as int - 'a' as int + 10
    else c as int - 'A' as int + 10
  }

  /** The number of leading hexadecimal digits of s. */
  function LeadingHexDigits(s: string): (n: nat)
    ensures n <= |s|
    ensures forall i :: 0 <= i < n ==> IsHexDigit(s[i])
    ensures n < |s| ==> !IsHexDigit(s[n])
  {
    if |s| == 0 || !IsHexDigit(s[0]) then 0 else 1 + LeadingHexDigits(s[1..])
  }

  /** The value of a string of hexadecimal digits. */
  function HexValue(s: string): nat
    requires forall i :: 0 <= i < |s| ==> IsHexDigit(s[i])
  {
    if |s| == 0 then 0
    else
      assert IsHexDigit(s[|s| - 1]);
      HexValue(s[..|s| - 1]) * 16 + HexDigitValue(s[|s| - 1])
  }

  /** Whether s starts with the "0x" or "0X" that makes `parseInt` read base 16. */
  predicate HasHexPrefix(s: string) {
    |s| >= 2 && s[0] == '0' && (s[1] == 'x' || s[1] == 'X')
  }

  /** `parseInt(key)` without a radix, for the keys the digit test passes
      (they start with a digit, so carry no leading space or sign): after a
      "0x" or "0X" prefix the hexadecimal digits that follow, otherwise the
      leading decimal digits, the rest ignored; with no digit to read the
      result is NaN, here None. The prefix decides the base: a key that
      starts with a digit and lacks it is read in base 10 from its first
      character; one with it is a number exactly when a hexadecimal digit
      follows the prefix. */
  function ParseInt(key: string): (r: Option<nat>)
    ensures !HasHexPrefix(key) && |key| >= 1 && IsDigit(key[0]) ==>
      r == Some(DecimalValue(key[..LeadingDigits(key)]))
    ensures HasHexPrefix(key) ==> (r.Some? <==> |key| >= 3 && IsHexDigit(key[2]))
    ensures HasHexPrefix(key) && r.Some? ==> r.value == HexValue(key[2..][..LeadingHexDigits(key[2..])])
    ensures !HasHexPrefix(key) ==> (r.Some? <==> |key| >= 1 && IsDigit(key[0]))
  {
    if HasHexPrefix(key) then
      var body := key[2..];
      var n := LeadingHexDigits(body);
      if n == 0 then None else Some(HexValue(body[..n]))
    else
      var n := LeadingDigits(key);
      if n == 0 then None else Some(DecimalValue(key[..n]))
  }

  /** `planetNames[parseInt(key)] || ''`: NaN, an index past the table and
      the overview entry all give the empty selection. */
  function DigitSelection(key: string): string {
    match ParseInt(key)
    case None => ""
    case Some(n) => if n < |PlanetNames| then PlanetNames[n] else ""
  }

  /** A key "0x" followed by digit k passes the digit test and, read in
      base 16, selects `planetNames[k]` just as the key "k" does; "0x"
      alone is NaN and selects nothing. */
  lemma HexKeySelects(k: nat)
    requires k <= 9
    ensures IsDigitKey("0x" + [('0' as int + k) as char])
    ensures DigitSelection("0x" + [('0' as int + k) as char]) == PlanetNames[k]
    ensures IsDigitKey("0x") && DigitSelection("0x") == ""
  {
    var key := "0x" + [('0' as int + k) as char];
    DigitKeyShape(key);
    DigitKeyShape("0x");
    var body := key[2..];
    assert body == [('0' as int + k) as char];
    assert LeadingHexDigits(body[1..]) == 0;
    assert body[..LeadingHexDigits(body)] == body;
    assert body[..0] == [];
    assert HexValue(body) == k;
    assert ParseInt(key) == Some(k);
    assert LeadingHexDigits("0x"[2..]) == 0;
  }

  /** The single-character key for digit k selects `planetNames[k]`: 0 is
      overview, 1 to 9 the Sun to Neptune. */
  lemma DigitSelects(k: nat)
    requires k <= 9
    ensures IsDigitKey([('0' as int + k) as char])
    ensures DigitSelection([('0' as int + k) as char]) == PlanetNames[k]
  {
    var key := [('0' as int + k) as char];
    DigitKeyShape(key);
    assert LeadingDigits(key[1..]) == 0;
    assert key[..LeadingDigits(key)] == key;
    assert key[..0] == [];
    assert DecimalValue(key) == k;
    assert ParseInt(key) == Some(k);
  }

  /** `c.toLowerCase()` on the ASCII letters; other characters are kept. */
  function LowerChar(c: char): char {
    if 'A' <= c <= 'Z' then (c as int + 32) as char else c
  }

  function ToLower(s: string): (r: string)
    ensures |r| == |s|
    ensures forall i :: 0 <= i < |s| ==> r[i] == LowerChar(s[i])
  {
    seq(|s|, i requires 0 <= i < |s| => LowerChar(s[i]))
  }

  /** The keys that pan the camera and are ignored while tracking. */
  predicate IsPanKey(k: string) {
    k in {"arrowleft", "arrowright", "arrowup", "arrowdown", "q", "e"}
  }

  // ---------------------------------------------------------------------
  // The camera state and its transitions

  /** The camera globals; `tracking` is `trackingPlanet` (None for null) and
      `tracked` is `trackedPlanetPosition`. */
  datatype CameraState = CameraState(
    distance: real, angleX: real, angleY: real, offsetX: real, offsetY: real,
    dragging: bool, lastMouseX: real, lastMouseY: real,
    tracking: Option<string>, tracked: Vec3,
    target: real, targetOffsetX: real, targetOffsetY: real)

  const Initial: CameraState := CameraState(150.0, 0.35, 0.0, 0.0, 0.0, false, 0.0, 0.0,
                                            None, Origin, 150.0, 0.0, 0.0)

  /** `if (trackingPlanet)`: a non-empty name is being tracked. */
  predicate IsTracking(s: CameraState) {
    s.tracking.Some? && s.tracking.value != ""
  }

  /** What the handlers maintain: the pitch stays within a quarter turn of
      level, the target distance stays in [3, 50] while tracking and in
      [30, 800] in overview, and the camera keeps at least distance 3. */
  predicate Invariant(s: CameraState) {
    && -PI / 2.0 <= s.angleX <= PI / 2.0
    && (IsTracking(s) ==> 3.0 <= s.target <= 50.0)
    && (!IsTracking(s) ==> 30.0 <= s.target <= 800.0)
    && 3.0 <= s.distance
  }

  lemma InitialInvariant()
    ensures Invariant(Initial) && !IsTracking(Initial)
  {
  }

  /** The select's change handler. */
  function Selected(s: CameraState, value: string): CameraState {
    if value != "" then
      s.(tracking := Some(value), target := TargetDistanceFor(value))
    else
      s.(tracking := None, target := 150.0, targetOffsetX := 0.0, targetOffsetY := 0.0)
  }

  /** The digit-key listener: it sets the select to the digit's name and
      fires its change handler; any other key changes nothing. */
  function DigitKeyed(s: CameraState, key: string): CameraState {
    if IsDigitKey(key) then Selected(s, DigitSelection(key)) else s
  }

  function MouseDowned(s: CameraState, x: real, y: real): CameraState {
    s.(dragging := true, lastMouseX := x, lastMouseY := y)
  }

  /** A drag turns the camera by 0.01 per pixel, the pitch clamped to
      [-pi/2, pi/2]. */
  function MouseMoved(s: CameraState, x: real, y: real): CameraState {
    if s.dragging then
      s.(angleY := s.angleY + (x - s.lastMouseX) * DragSensitivity,
         angleX := Clamp(-PI / 2.0, PI / 2.0, s.angleX + (y - s.lastMouseY) * DragSensitivity),
         lastMouseX := x, lastMouseY := y)
    else s
  }

  function MouseUpped(s: CameraState): CameraState {
    s.(dragging := false)
  }

  /** The wheel handler: zoom by half of deltaY, scaled by 0.15 and clamped
      to [3, 50] while tracking; clamped to [30, 800] and applied to the
      distance at once in overview. */
  function Wheeled(s: CameraState, deltaY: real): CameraState {
    var zoom := deltaY * 0.5;
    if IsTracking(s) then
      s.(target := Clamp(3.0, 50.0, s.target + zoom * 0.15))
    else
      var t := Clamp(30.0, 800.0, s.target + zoom);
      s.(target := t, distance := t)
  }

  /** The cases of the keyboard handler's switch. */
  datatype KeyAction =
    | PanLeft | PanRight | PanUp | PanDown
    | ZoomIn | ZoomOut | TurnLeft | TurnRight | Reset | NoAction

  /** The switch on the lower-cased key: arrows and Q/E pan, W/S zoom,
      A/D turn, R resets; any other key does nothing. */
  function KeyActionOf(k: string): (r: KeyAction)
    ensures r in {PanLeft, PanRight, PanUp, PanDown} <==> IsPanKey(k)
    ensures r == NoAction <==>
      k !in {"arrowleft", "arrowright", "arrowup", "arrowdown", "q", "e", "w", "s", "a", "d", "r"}
  {
    if k == "arrowleft" then PanLeft
    else if k == "arrowright" then PanRight
    else if k == "arrowup" || k == "e" then PanUp
    else if k == "arrowdown" || k == "q" then PanDown
    else if k == "w" then ZoomIn
    else if k == "s" then ZoomOut
    else if k == "a" then TurnLeft
    else if k == "d" then TurnRight
    else if k == "r" then Reset
    else NoAction
  }

  /** The keyboard handler, on `e.key.toLowerCase()`. */
  function KeyPressed(s: CameraState, key: string): CameraState {
    Acted(s, KeyActionOf(ToLower(key)))
  }

  /** One case of the keyboard switch: pan keys are ignored while tracking,
      and zooming uses the tracking range [3, 50] with step 2 or the
      overview range [30, 800] with step 20, moving the distance along. */
  function Acted(s: CameraState, action: KeyAction): CameraState {
    var tracking := IsTracking(s);
    match action
    case PanLeft => if tracking then s else s.(offsetX := s.offsetX - PanSpeed)
    case PanRight => if tracking then s else s.(offsetX := s.offsetX + PanSpeed)
    case PanUp => if tracking then s else s.(offsetY := s.offsetY + PanSpeed)
    case PanDown => if tracking then s else s.(offsetY := s.offsetY - PanSpeed)
    case ZoomIn =>
      if tracking then s.(target := Max(3.0, s.target - 2.0))
      else var t := Max(30.0, s.target - ZoomSpeed); s.(target := t, distance := t)
    case ZoomOut =>
      if tracking then s.(target := Min(50.0, s.target + 2.0))
      else var t := Min(800.0, s.target + ZoomSpeed); s.(target := t, distance := t)
    case TurnLeft => s.(angleY := s.angleY - TurnStep)
    case TurnRight => s.(angleY := s.angleY + TurnStep)
    case Reset => s.(distance := 55.0, angleX := 0.4, angleY := 0.0, offsetX := 0.0, offsetY := 0.0)
    case NoAction => s
  }

  /** `x += (target - x) * lerpFactor`. */
  function Lerp(x: real, target: real): real {
    x + (target - x) * LerpFactor
  }

  /** The camera's offset from the point it looks at, in spherical
      coordinates: distance d, pitch ax, yaw ay. */
  function SphericalOffset(d: real, ax: real, ay: real, m: HostMath): Vec3 {
    Vec3(d * m.Cos(ax) * m.Sin(ay), d * m.Sin(ax), d * m.Cos(ax) * m.Cos(ay))
  }

  /** render's state update: while tracking, the target offsets take the
      tracked position and offsets and distance close 12% of their gap; in
      overview the distance jumps to the target. */
  function Stepped(s: CameraState): CameraState {
    if IsTracking(s) then
      var p := s.tracked;
      s.(targetOffsetX := p.x, targetOffsetY := p.y,
         offsetX := Lerp(s.offsetX, p.x), offsetY := Lerp(s.offsetY, p.y),
         distance := Lerp(s.distance, s.target))
    else
      s.(distance := s.target)
  }

  /** The eye and the look-at point passed to lookAt. */
  datatype View = View(eye: Vec3, center: Vec3)

  /** The view of a stepped state: around the tracked position while
      tracking, otherwise around (offsetX, offsetY, galacticOffset z). */
  function ViewOf(s: CameraState, galacticOffset: Vec3, m: HostMath): View {
    var center := if IsTracking(s) then s.tracked else Vec3(s.offsetX, s.offsetY, galacticOffset.z);
    View(center.Plus(SphericalOffset(s.distance, s.angleX, s.angleY, m)), center)
  }

  /** The `cameraPosition` uniform that renderScene sends for lighting:
      always around the offsets, with no z offset, tracking or not. */
  function LightingEye(s: CameraState, m: HostMath): Vec3 {
    Vec3(s.offsetX, s.offsetY, 0.0).Plus(SphericalOffset(s.distance, s.angleX, s.angleY, m))
  }

  // ---------------------------------------------------------------------
  // Properties of the transitions

  /** Selecting a body or overview, by the select or a digit key, keeps
      the invariant. */
  lemma SelectionKeepsInvariant(s: CameraState, value: string, key: string)
    requires Invariant(s)
    ensures Invariant(Selected(s, value))
    ensures Invariant(DigitKeyed(s, key))
  {
    TargetDistanceInRange(value);
    TargetDistanceInRange(DigitSelection(key));
  }

  /** Mouse handlers keep the invariant: the drag clamps the pitch. */
  lemma MouseKeepsInvariant(s: CameraState, x: real, y: real)
    requires Invariant(s)
    ensures Invariant(MouseDowned(s, x, y))
    ensures Invariant(MouseMoved(s, x, y))
    ensures Invariant(MouseUpped(s))
  {
  }

  /** The wheel and the keyboard keep the target in its mode's range. */
  lemma ZoomKeepsInvariant(s: CameraState, deltaY: real, key: string)
    requires Invariant(s)
    ensures Invariant(Wheeled(s, deltaY))
    ensures Invariant(KeyPressed(s, key))
  {
  }

  /** The frame step keeps the invariant: the lerp stays between the
      distance and the target, both at least 3. */
  lemma StepKeepsInvariant(s: CameraState)
    requires Invariant(s)
    ensures Invariant(Stepped(s))
  {
    LerpBetween(s.distance, s.target);
  }

  /** The lerp lands between its two ends. */
  lemma LerpBetween(x: real, t: real)
    ensures Min(x, t) <= Lerp(x, t) <= Max(x, t)
  {
  }

  /** Choosing a body tracks it at its table distance (10 for an unknown
      name); choosing none returns to overview at distance 150 with the
      target offsets cleared and the current offsets left where they are. */
  lemma SelectionTargets(s: CameraState, value: string)
    ensures value != "" ==>
      (&& IsTracking(Selected(s, value))
       && Selected(s, value).tracking == Some(value)
       && Selected(s, value).target == (if value in PlanetCameraDistances then PlanetCameraDistances[value] else 10.0))
    ensures value == "" ==>
      (&& !IsTracking(Selected(s, value))
       && Selected(s, value).target == 150.0
       && Selected(s, value).targetOffsetX == 0.0 && Selected(s, value).targetOffsetY == 0.0)
    ensures Selected(s, value).offsetX == s.offsetX && Selected(s, value).offsetY == s.offsetY
    ensures Selected(s, value).distance == s.distance
  {
  }

  /** Digit k picks the k-th entry of `planetNames`. */
  lemma DigitKeySelects(s: CameraState, k: nat)
    requires k <= 9
    ensures DigitKeyed(s, [('0' as int + k) as char]) == Selected(s, PlanetNames[k])
  {
    DigitSelects(k);
  }

  /** Pan keys (arrows, Q, E, in either case) change nothing while tracking. */
  lemma PanIgnoredWhileTracking(s: CameraState, key: string)
    requires IsTracking(s) && IsPanKey(ToLower(key))
    ensures KeyPressed(s, key) == s
  {
  }

  /** In overview, zooming by wheel or by W/S moves the distance with the
      target, so the next frame does not snap back. */
  lemma OverviewZoomSyncs(s: CameraState, deltaY: real, key: string)
    requires !IsTracking(s)
    ensures Wheeled(s, deltaY).distance == Wheeled(s, deltaY).target
    ensures ToLower(key) in {"w", "s"} ==> KeyPressed(s, key).distance == KeyPressed(s, key).target
  {
  }

  /** The pitch after a drag is the clamped sum, and yaw accumulates without
      bound: two drag moves turn the yaw as much as one move to the same end. */
  lemma DragComposes(s: CameraState, x1: real, y1: real, x2: real, y2: real)
    requires s.dragging
    ensures MouseMoved(MouseMoved(s, x1, y1), x2, y2).angleY == s.angleY + (x2 - s.lastMouseX) * DragSensitivity
    ensures -PI / 2.0 <= MouseMoved(s, x1, y1).angleX <= PI / 2.0
  {
  }

  /** One tracking frame closes 12% of each gap: what remains is 0.88 of it. */
  lemma TrackingStepCloses(s: CameraState)
    requires IsTracking(s)
    ensures Stepped(s).distance - s.target == 0.88 * (s.distance - s.target)
    ensures Stepped(s).offsetX - s.tracked.x == 0.88 * (s.offsetX - s.tracked.x)
    ensures Stepped(s).offsetY - s.tracked.y == 0.88 * (s.offsetY - s.tracked.y)
    ensures Stepped(s).targetOffsetX == s.tracked.x && Stepped(s).targetOffsetY == s.tracked.y
  {
  }

  /** x^k for a natural exponent. */
  function Power(x: real, k: nat): real
    decreases k
  {
    if k == 0 then 1.0 else x * Power(x, k - 1)
  }

  /** k tracking frames toward a fixed target. */
  function LerpTimes(x: real, target: real, k: nat): real
    decreases k
  {
    if k == 0 then x else LerpTimes(Lerp(x, target), target, k - 1)
  }

  /** After k frames toward a fixed target the gap is 0.88^k of the first:
      the tracking camera approaches geometrically and never overshoots. */
  lemma {:induction false} LerpTimesGap(x: real, target: real, k: nat)
    ensures LerpTimes(x, target, k) - target == Power(0.88, k) * (x - target)
    decreases k
  {
    if k > 0 {
      var p, g := Power(0.88, k - 1), x - target;
      LerpTimesGap(Lerp(x, target), target, k - 1);
      assert Lerp(x, target) - target == 0.88 * g;
      assert LerpTimes(x, target, k) - target == p * (0.88 * g);
      assert p * (0.88 * g) == (0.88 * p) * g;
    }
  }

  /** In overview the distance is set to the target, overriding the R key's 55. */
  lemma OverviewStepUsesTarget(s: CameraState)
    requires !IsTracking(s)
    ensures Stepped(KeyPressed(s, "r")).distance == s.target
  {
  }

  /** The eye sits at exactly the camera distance from the look-at point. */
  lemma EyeAtDistance(s: CameraState, galacticOffset: Vec3, m: HostMath)
    requires Lawful(m)
    ensures var v := ViewOf(s, galacticOffset, m);
      v.eye.Minus(v.center).NormSquared() == s.distance * s.distance
  {
    var v := ViewOf(s, galacticOffset, m);
    var o := SphericalOffset(s.distance, s.angleX, s.angleY, m);
    assert v.eye.Minus(v.center) == o;
    Pythagoras(m, s.angleX);
    Pythagoras(m, s.angleY);
    SphericalLength(s.distance, m.Cos(s.angleX), m.Sin(s.angleX), m.Cos(s.angleY), m.Sin(s.angleY));
  }

  lemma SphericalLength(d: real, cx: real, sx: real, cy: real, sy: real)
    requires sx * sx + cx * cx == 1.0 && sy * sy + cy * cy == 1.0
    ensures Vec3(d * cx * sy, d * sx, d * cx * cy).NormSquared() == d * d
  {
    assert (d * cx * sy) * (d * cx * sy) + (d * cx * cy) * (d * cx * cy)
        == (d * cx) * (d * cx) * (sy * sy + cy * cy);
    assert (d * cx) * (d * cx) + (d * sx) * (d * sx) == d * d * (cx * cx + sx * sx);
  }

  /** While tracking, the camera looks exactly at the recorded position of
      the tracked planet; in overview it looks at the offsets in the plane
      of the galactic offset's z. */
  lemma ViewCenters(s: CameraState, galacticOffset: Vec3, m: HostMath)
    ensures IsTracking(s) ==> ViewOf(s, galacticOffset, m).center == s.tracked
    ensures !IsTracking(s) ==> ViewOf(s, galacticOffset, m).center == Vec3(s.offsetX, s.offsetY, galacticOffset.z)
  {
  }

  /** In overview the lighting uniform agrees with the eye, since the galactic
      offset never moves in z. */
  lemma LightingEyeInOverview(s: CameraState, time: real, m: HostMath)
    requires !IsTracking(s)
    ensures LightingEye(s, m) == ViewOf(s, Orbit.GalacticOffset(time), m).eye
  {
  }

  // ---------------------------------------------------------------------
  // The controller object

  class Controller {
    var cameraDistance: real
    var cameraAngleX: real
    var cameraAngleY: real
    var cameraOffsetX: real
    var cameraOffsetY: real
    var isDragging: bool
    var lastMouseX: real
    var lastMouseY: real
    var trackingPlanet: Option<string>
    var trackedPlanetPosition: Vec3
    var targetCameraDistance: real
    var targetOffsetX: real
    var targetOffsetY: real

    function State(): CameraState
      reads this
    {
      CameraState(cameraDistance, cameraAngleX, cameraAngleY, cameraOffsetX, cameraOffsetY,
                  isDragging, lastMouseX, lastMouseY, trackingPlanet, trackedPlanetPosition,
                  targetCameraDistance, targetOffsetX, targetOffsetY)
    }

    predicate Valid()
      reads this
    {
      Invariant(State())
    }

    /** The initial values of the globals. */
    constructor ()
      ensures State() == Initial && Valid()
    {
      cameraDistance := 150.0;
      cameraAngleX := 0.35;
      cameraAngleY := 0.0;
      cameraOffsetX := 0.0;
      cameraOffsetY := 0.0;
      isDragging := false;
      lastMouseX := 0.0;
      lastMouseY := 0.0;
      trackingPlanet := None;
      trackedPlanetPosition := Origin;
      targetCameraDistance := 150.0;
      targetOffsetX := 0.0;
      targetOffsetY := 0.0;
    }

    method Select(value: string)
      requires Valid()
      modifies this
      ensures State() == Selected(old(State()), value) && Valid()
    {
      SelectionKeepsInvariant(State(), value, "");
      if value != "" {
        trackingPlanet := Some(value);
        targetCameraDistance := TargetDistanceFor(value);
      } else {
        trackingPlanet := None;
        targetCameraDistance := 150.0;
        targetOffsetX := 0.0;
        targetOffsetY := 0.0;
      }
    }

    method DigitKey(key: string)
      requires Valid()
      modifies this
      ensures State() == DigitKeyed(old(State()), key) && Valid()
    {
      if IsDigitKey(key) {
        Select(DigitSelection(key));
      }
    }

    method MouseDown(x: real, y: real)
      requires Valid()
      modifies this
      ensures State() == MouseDowned(old(State()), x, y) && Valid()
    {
      isDragging := true;
      lastMouseX := x;
      lastMouseY := y;
    }

    method MouseMove(x: real, y: real)
      requires Valid()
      modifies this
      ensures State() == MouseMoved(old(State()), x, y) && Valid()
    {
      if isDragging {
        var deltaX := x - lastMouseX;
        var deltaY := y - lastMouseY;
        cameraAngleY := cameraAngleY + deltaX * DragSensitivity;
        cameraAngleX := cameraAngleX + deltaY * DragSensitivity;
        cameraAngleX := Max(-PI / 2.0, Min(PI / 2.0, cameraAngleX));
        lastMouseX := x;
        lastMouseY := y;
      }
    }

    method MouseUp()
      requires Valid()
      modifies this
      ensures State() == MouseUpped(old(State())) && Valid()
    {
      isDragging := false;
    }

    method Wheel(deltaY: real)
      requires Valid()
      modifies this
      ensures State() == Wheeled(old(State()), deltaY) && Valid()
    {
      ZoomKeepsInvariant(State(), deltaY, "");
      var zoomAmount := deltaY * 0.5;
      if IsTracking(State()) {
        targetCameraDistance := targetCameraDistance + zoomAmount * 0.15;
        targetCameraDistance := Max(3.0, Min(50.0, targetCameraDistance));
      } else {
        targetCameraDistance := targetCameraDistance + zoomAmount;
        targetCameraDistance := Max(30.0, Min(800.0, targetCameraDistance));
        cameraDistance := targetCameraDistance;
      }
    }

    method KeyDown(key: string)
      requires Valid()
      modifies this
      ensures State() == KeyPressed(old(State()), key) && Valid()
    {
      ZoomKeepsInvariant(State(), 0.0, key);
      var action := KeyActionOf(ToLower(key));
      if action.PanLeft? || action.PanRight? || action.PanUp? || action.PanDown? {
        Pan(action);
      } else if action.ZoomIn? || action.ZoomOut? {
        Zoom(action);
      } else {
        Turn(action);
      }
    }

    /** The arrow and Q/E cases. */
    method Pan(action: KeyAction)
      requires action.PanLeft? || action.PanRight? || action.PanUp? || action.PanDown?
      modifies this
      ensures State() == Acted(old(State()), action)
    {
      if !IsTracking(State()) {
        match action
        case PanLeft => cameraOffsetX := cameraOffsetX - PanSpeed;
        case PanRight => cameraOffsetX := cameraOffsetX + PanSpeed;
        case PanUp => cameraOffsetY := cameraOffsetY + PanSpeed;
        case PanDown => cameraOffsetY := cameraOffsetY - PanSpeed;
      }
    }

    /** The W and S cases. */
    method Zoom(action: KeyAction)
      requires action.ZoomIn? || action.ZoomOut?
      modifies this
      ensures State() == Acted(old(State()), action)
    {
      var tracking := IsTracking(State());
      if action.ZoomIn? {
        if tracking {
          targetCameraDistance := Max(3.0, targetCameraDistance - 2.0);
        } else {
          targetCameraDistance := Max(30.0, targetCameraDistance - ZoomSpeed);
          cameraDistance := targetCameraDistance;
        }
      } else {
        if tracking {
          targetCameraDistance := Min(50.0, targetCameraDistance + 2.0);
        } else {
          targetCameraDistance := Min(800.0, targetCameraDistance + ZoomSpeed);
          cameraDistance := targetCameraDistance;
        }
      }
    }

    /** The A, D and R cases, and every other key. */
    method Turn(action: KeyAction)
      requires action.TurnLeft? || action.TurnRight? || action.Reset? || action.NoAction?
      modifies this
      ensures State() == Acted(old(State()), action)
    {
      match action
      case TurnLeft =>
        cameraAngleY := cameraAngleY - TurnStep;
      case TurnRight =>
        cameraAngleY := cameraAngleY + TurnStep;
      case Reset =>
        cameraDistance := 55.0;
        cameraAngleX := 0.4;
        cameraAngleY := 0.0;
        cameraOffsetX := 0.0;
        cameraOffsetY := 0.0;
      case NoAction =>
    }

    /** The camera part of render: update the state, then return the eye and
        look-at point for lookAt. */
    method Step(galacticOffset: Vec3, m: HostMath) returns (eye: Vec3, center: Vec3)
      requires Valid()
      modifies this
      ensures State() == Stepped(old(State())) && Valid()
      ensures View(eye, center) == ViewOf(State(), galacticOffset, m)
    {
      StepKeepsInvariant(State());
      if IsTracking(State()) {
        targetOffsetX := trackedPlanetPosition.x;
        targetOffsetY := trackedPlanetPosition.y;
        cameraOffsetX := cameraOffsetX + (targetOffsetX - cameraOffsetX) * LerpFactor;
        cameraOffsetY := cameraOffsetY + (targetOffsetY - cameraOffsetY) * LerpFactor;
        cameraDistance := cameraDistance + (targetCameraDistance - cameraDistance) * LerpFactor;
        center := trackedPlanetPosition;
      } else {
        cameraDistance := targetCameraDistance;
        center := Vec3(cameraOffsetX, cameraOffsetY, galacticOffset.z);
      }
      var offset := SphericalOffset(cameraDistance, cameraAngleX, cameraAngleY, m);
      eye := Vec3(center.x + offset.x, center.y + offset.y, center.z + offset.z);
    }
  }
}
