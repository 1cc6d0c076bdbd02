/**
 * Exact real-valued vectors for the few positions whose values decide
 * discrete behaviour (drag clamp, distance thresholds). The source uses
 * IEEE doubles; here arithmetic is exact.
 */
module Geometry {

  datatype Vec2 = Vec2(x: real, y: real)

  datatype Vec3 = Vec3(x: real, y: real, z: real)

  function Add(a: Vec3, b: Vec3): Vec3 {
    Vec3(a.x + b.x, a.y + b.y, a.z + b.z)
  }

  /** Squared Euclidean length; `v.length() > d` is `LengthSq(v) > d*d` for d >= 0. */
  function LengthSq(v: Vec3): real {
    v.x * v.x + v.y * v.y + v.z * v.z
  }

  /** Squared 3-D distance, the square of `a.distanceTo(b)`. */
  function DistanceSq(a: Vec3, b: Vec3): real {
    LengthSq(Vec3(a.x - b.x, a.y - b.y, a.z - b.z))
  }

  /** Squared distance in the x/y plane only. */
  function PlanarDistanceSq(a: Vec3, b: Vec3): real {
    (a.x - b.x) * (a.x - b.x) + (a.y - b.y) * (a.y - b.y)
  }

  /** `THREE.MathUtils.clamp(v, lo, hi)`, which is `Math.max(lo, Math.min(hi, v))`. */
  function Clamp(v: real, lo: real, hi: real): (r: real)
    ensures lo <= hi ==> lo <= r <= hi
    ensures lo <= v <= hi ==> r == v
    ensures v < lo ==> r == lo
    ensures lo <= hi && hi < v ==> r == hi
  {
    var m := if hi < v then hi else v;
    if m < lo then lo else m
  }

  /** A squared depth gap of one bounds the 3-D distance from below by one. */
  lemma DepthGapBoundsDistance(a: Vec3, b: Vec3)
    requires (a.z - b.z) * (a.z - b.z) == 1.0
    ensures DistanceSq(a, b) >= 1.0
  {
    assert (a.x - b.x) * (a.x - b.x) >= 0.0;
    assert (a.y - b.y) * (a.y - b.y) >= 0.0;
  }
}
