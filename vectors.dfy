/** Three-component vectors over exact reals, standing for the engine's
    floating-point Vector3 (rounding is not modelled). */
module Vectors {

  datatype Vec3 = Vec3(x: real, y: real, z: real) {

    function Add(v: Vec3): Vec3
    {
      Vec3(x + v.x, y + v.y, z + v.z)
    }

    function Sub(v: Vec3): Vec3
    {
      Vec3(x - v.x, y - v.y, z - v.z)
    }

    function Scale(k: real): Vec3
    {
      Vec3(k * x, k * y, k * z)
    }
  }

  const ZERO := Vec3(0.0, 0.0, 0.0)

  /** The world's up direction (0, 1, 0). */
  const WORLD_UP := Vec3(0.0, 1.0, 0.0)

  function Dot(u: Vec3, v: Vec3): real
  {
    u.x * v.x + u.y * v.y + u.z * v.z
  }

  /** Squared Euclidean distance; distances are compared through it. */
  function Dist2(u: Vec3, v: Vec3): (d: real)
    ensures d >= 0.0
    ensures u == v ==> d == 0.0
  {
    var w := u.Sub(v);
    SquareNonNegative(w.x);
    SquareNonNegative(w.y);
    SquareNonNegative(w.z);
    Dot(w, w)
  }

  /** Linear interpolation from `a` towards `b` by `t`, as the engine's
      Vector3.Lerp computes it: `a + (b - a) * t`. */
  function Lerp(a: Vec3, b: Vec3, t: real): (r: Vec3)
    ensures r.Sub(b) == a.Sub(b).Scale(1.0 - t)
    ensures t == 0.0 ==> r == a
    ensures t == 1.0 ==> r == b
  {
    a.Add(b.Sub(a).Scale(t))
  }

  lemma SquareNonNegative(r: real)
    ensures r * r >= 0.0
  {
    if r < 0.0 {
      MulPositive(-r, -r);
      assert r * r == (-r) * (-r);
    }
  }

  lemma MulPositive(a: real, b: real)
    requires a > 0.0 && b > 0.0
    ensures a * b > 0.0
  {
  }

  /** Scaling every component by `k` scales the squared distance by `k * k`. */
  lemma Dist2Scale(w: Vec3, k: real)
    ensures Dist2(w.Scale(k), ZERO) == k * k * Dist2(w, ZERO)
  {
    calc {
      Dist2(w.Scale(k), ZERO);
      (k * w.x) * (k * w.x) + (k * w.y) * (k * w.y) + (k * w.z) * (k * w.z);
      k * k * (w.x * w.x + w.y * w.y + w.z * w.z);
    }
  }
}
