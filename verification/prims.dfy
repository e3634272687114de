/** Shared vocabulary of the controller model: an option type for the C# null
    references, 3-D vectors with the Unity operations the controller uses,
    Unity's clamps, `float.MaxValue`, and the facts the model assumes about the
    transcendental functions it leaves uninterpreted (tanh, vector length,
    `Vector3.Angle`). Those functions are passed in as parameters; the lemmas
    that need their bounds say so in a `requires`. */
module Prims {

  /** A value that may be absent: the model's stand-in for a C# null reference. */
  datatype Option<+T> = None | Some(value: T)

  /** `Vector3` / `float3`, over the reals. */
  datatype Vec3 = Vec3(x: real, y: real, z: real)

  const Zero: Vec3 := Vec3(0.0, 0.0, 0.0)

  /** `float.MaxValue`, exactly: (2 - 2^-23) * 2^127. The code uses it as the
      "no obstacle / no distance" sentinel. */
  const MaxFloat: real := 340282346638528859811704183484516925440.0

  function Add(a: Vec3, b: Vec3): Vec3 {
    Vec3(a.x + b.x, a.y + b.y, a.z + b.z)
  }

  function Sub(a: Vec3, b: Vec3): Vec3 {
    Vec3(a.x - b.x, a.y - b.y, a.z - b.z)
  }

  function Scale(k: real, a: Vec3): Vec3 {
    Vec3(k * a.x, k * a.y, k * a.z)
  }

  function Dot(a: Vec3, b: Vec3): real {
    a.x * b.x + a.y * b.y + a.z * b.z
  }

  /** `Vector3.sqrMagnitude`: exact, no square root involved. */
  function SqrMagnitude(a: Vec3): (r: real)
    ensures r >= 0.0
  {
    SquareNonNegative(a.x);
    SquareNonNegative(a.y);
    SquareNonNegative(a.z);
    a.x * a.x + a.y * a.y + a.z * a.z
  }

  lemma SquareNonNegative(x: real)
    ensures x * x >= 0.0
  {
    if x < 0.0 {
      assert x * x == (-x) * (-x);
    }
  }

  function Abs(x: real): (r: real)
    ensures r >= 0.0 && (r == x || r == -x)
  {
    if x < 0.0 then -x else x
  }

  function Min(a: real, b: real): (r: real)
    ensures r <= a && r <= b && (r == a || r == b)
  {
    if a <= b then a else b
  }

  function Max(a: real, b: real): (r: real)
    ensures r >= a && r >= b && (r == a || r == b)
  {
    if a >= b then a else b
  }

  /** `math.sign`: -1, 0 or 1. */
  function Sign(x: real): (r: real)
    ensures r * x == Abs(x)
    ensures r == 0.0 <==> x == 0.0
  {
    if x > 0.0 then 1.0 else if x < 0.0 then -1.0 else 0.0
  }

  /** `Mathf.Clamp` exactly as Unity defines it: the lower bound is checked first,
      so with lo > hi the result can lie outside [hi, lo]'s usual order. */
  function Clamp(v: real, lo: real, hi: real): (r: real)
    ensures lo <= hi ==> lo <= r <= hi
    ensures lo <= v <= hi ==> r == v
    ensures r == v || r == lo || r == hi
  {
    if v < lo then lo else if v > hi then hi else v
  }

  /** `Mathf.Clamp01`. */
  function Clamp01(v: real): (r: real)
    ensures 0.0 <= r <= 1.0
    ensures 0.0 <= v <= 1.0 ==> r == v
  {
    Clamp(v, 0.0, 1.0)
  }

  /** A set is empty or has an element; lets `:|` pick from a non-empty set. */
  lemma Inhabited(s: set<int>)
    ensures s == {} || exists x :: x in s
  {
    if forall x :: x !in s {
      assert s == {};
    }
  }

  /** `math.length` / `Vector3.magnitude`: a square root, left uninterpreted. */
  type LengthFn = Vec3 -> real

  /** The only fact the model uses about a vector length: it is never negative. */
  ghost predicate IsLength(length: LengthFn) {
    forall v :: length(v) >= 0.0
  }

  /** `Math.Tanh`, left uninterpreted. */
  type TanhFn = real -> real

  /** The facts the model uses about tanh: it lies strictly inside (-1, 1),
      is monotone, and vanishes at 0. */
  ghost predicate IsTanh(tanh: TanhFn) {
    && (forall x :: -1.0 < tanh(x) < 1.0)
    && (forall x, y :: x <= y ==> tanh(x) <= tanh(y))
    && tanh(0.0) == 0.0
  }

  /** `Vector3.Angle(a, b)`: the unsigned angle in degrees, left uninterpreted. */
  type AngleFn = (Vec3, Vec3) -> real

  /** The only fact the model uses about `Vector3.Angle`: it lies in [0, 180]. */
  ghost predicate IsAngle(angle: AngleFn) {
    forall a, b :: 0.0 <= angle(a, b) <= 180.0
  }
}
