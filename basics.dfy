/** Shared vocabulary of the model: optional values, 3-vectors, Math.min /
    Math.max clamping, and the transcendental functions the program takes
    from the host's `Math` object, which the model leaves uninterpreted. */
module Basics {

  /** A value that may be absent (JavaScript `null` / `undefined`). */
  datatype Option<T> = None | Some(value: T) {
    /** `x ?? default` */
    function GetOr(default: T): T {
      match this
      case Some(v) => v
      case None => default
    }
  }

  /** A three-element JavaScript array of numbers used as a point or vector. */
  datatype Vec3 = Vec3(x: real, y: real, z: real) {
    function Plus(o: Vec3): Vec3 { Vec3(x + o.x, y + o.y, z + o.z) }
    function Minus(o: Vec3): Vec3 { Vec3(x - o.x, y - o.y, z - o.z) }
    function Scale(k: real): Vec3 { Vec3(k * x, k * y, k * z) }
    /** Componentwise division, as in `v[0] /= len; v[1] /= len; v[2] /= len`. */
    function Div(k: real): Vec3 requires k != 0.0 { Vec3(x / k, y / k, z / k) }
    function Dot(o: Vec3): real { x * o.x + y * o.y + z * o.z }
    function Cross(o: Vec3): Vec3 {
      Vec3(y * o.z - z * o.y, z * o.x - x * o.z, x * o.y - y * o.x)
    }
    function NormSquared(): real { x * x + y * y + z * z }
  }

  const Origin: Vec3 := Vec3(0.0, 0.0, 0.0)

  /** `Math.PI`, written as the decimal JavaScript prints for it. */
  const PI: real := 3.141592653589793

  function Min(a: real, b: real): (r: real)
    ensures r <= a && r <= b && (r == a || r == b)
  {
    if a <= b then a else b
  }

  function Max(a: real, b: real): (r: real)
    ensures r >= a && r >= b && (r == a || r == b)
  {
    if a >= b then a else b
  }

  /** `Math.max(lo, Math.min(hi, x))`: the clamp every camera handler uses. */
  function Clamp(lo: real, hi: real, x: real): (r: real)
    requires lo <= hi
    ensures lo <= r <= hi
    ensures lo <= x <= hi ==> r == x
    ensures x < lo ==> r == lo
    ensures hi < x ==> r == hi
  {
    Max(lo, Min(hi, x))
  }

  /** The host's `Math.sin`, `Math.cos`, `Math.sqrt` and `Math.atan2`, as
      unknown tables of values. A lawful host has an entry for every
      argument (see `Lawful`), and only the laws stated there are known of
      the values. */
  datatype HostMath = HostMath(
    sin: imap<real, real>,
    cos: imap<real, real>,
    sqrt: imap<real, real>,
    atan2: imap<(real, real), real>)
  {
    function Sin(x: real): real { if x in sin then sin[x] else 0.0 }
    function Cos(x: real): real { if x in cos then cos[x] else 0.0 }
    function Sqrt(x: real): real { if x in sqrt then sqrt[x] else 0.0 }
    function Atan2(y: real, x: real): real { if (y, x) in atan2 then atan2[(y, x)] else 0.0 }

    /** sin^2 x + cos^2 x, the quantity the Pythagorean law fixes at 1. */
    function SquareSum(x: real): real { Sin(x) * Sin(x) + Cos(x) * Cos(x) }

    /** The square-root law at x: a non-negative root whose square is x. */
    predicate RootOf(x: real) { 0.0 <= Sqrt(x) && Sqrt(x) * Sqrt(x) == x }
  }

  /** The facts about the host's functions that the proofs rely on. The
      two nonlinear laws are stated through SquareSum and RootOf, so a proof
      draws on them only where it names those terms. */
  ghost predicate Lawful(m: HostMath) {
    && (forall x :: x in m.sin && x in m.cos && x in m.sqrt)
    && (forall y, x :: (y, x) in m.atan2)
    && (forall x :: m.SquareSum(x) == 1.0)
    && (forall x :: -1.0 <= m.Cos(x) <= 1.0)
    && (forall x :: -1.0 <= m.Sin(x) <= 1.0)
    && m.Sin(0.0) == 0.0
    && m.Cos(0.0) == 1.0
    && (forall x :: 0.0 <= x ==> m.RootOf(x))
    && (forall x :: 0.0 < x ==> m.Atan2(0.0, x) == 0.0)
  }

  /** Consequence of the square-root law: the root of a positive number is positive. */
  lemma SqrtPositive(m: HostMath, x: real)
    requires Lawful(m) && 0.0 < x
    ensures 0.0 < m.Sqrt(x)
  {
    assert m.RootOf(x);
  }

  /** The Pythagorean law at x, written out. */
  lemma Pythagoras(m: HostMath, x: real)
    requires Lawful(m)
    ensures m.Sin(x) * m.Sin(x) + m.Cos(x) * m.Cos(x) == 1.0
  {
    assert m.SquareSum(x) == 1.0;
  }

  /** The square-root law at x >= 0, written out. */
  lemma Root(m: HostMath, x: real)
    requires Lawful(m) && 0.0 <= x
    ensures 0.0 <= m.Sqrt(x) && m.Sqrt(x) * m.Sqrt(x) == x
  {
    assert m.RootOf(x);
  }
}
