/** Vectors and quaternions of the engine, over reals, with the weighted sums
    the merge builds from them. */
module Geometry {
  import opened Sums

  datatype Vec3 = Vec3(x: real, y: real, z: real)

  /** A quaternion; only the engine's own operations inspect it. */
  datatype Quat = Quat(x: real, y: real, z: real, w: real)

  const Zero: Vec3 := Vec3(0.0, 0.0, 0.0)

  /** The engine's forward (X) axis: FVector::ForwardVector. */
  const ForwardVector: Vec3 := Vec3(1.0, 0.0, 0.0)

  /** The engine's right (Y) axis: FVector::RightVector. */
  const RightVector: Vec3 := Vec3(0.0, 1.0, 0.0)

  function Add(a: Vec3, b: Vec3): Vec3
  {
    Vec3(a.x + b.x, a.y + b.y, a.z + b.z)
  }

  function Sub(a: Vec3, b: Vec3): Vec3
  {
    Vec3(a.x - b.x, a.y - b.y, a.z - b.z)
  }

  /** `v * k` for a vector and a scalar. */
  function Scale(v: Vec3, k: real): Vec3
  {
    Vec3(v.x * k, v.y * k, v.z * k)
  }

  /** ws[0] * ps[0] + ... + ws[n-1] * ps[n-1], accumulated from the front. */
  function WeightedSumUpTo(ps: seq<Vec3>, ws: seq<real>, n: nat): Vec3
    requires n <= |ps| && n <= |ws|
  {
    if n == 0 then Zero else Add(WeightedSumUpTo(ps, ws, n - 1), Scale(ps[n - 1], ws[n - 1]))
  }

  /** Each coordinate of a weighted sum of vectors is the weighted sum of that
      coordinate: the weighted sum is the linear blend Σ ws[i] * ps[i]. */
  lemma WeightedSumCoordinates(ps: seq<Vec3>, ws: seq<real>, n: nat)
    requires n <= |ps| && n <= |ws|
    ensures WeightedSumUpTo(ps, ws, n).x == Sum(seq(n, i requires 0 <= i < n => ps[i].x * ws[i]))
    ensures WeightedSumUpTo(ps, ws, n).y == Sum(seq(n, i requires 0 <= i < n => ps[i].y * ws[i]))
    ensures WeightedSumUpTo(ps, ws, n).z == Sum(seq(n, i requires 0 <= i < n => ps[i].z * ws[i]))
  {
    WeightedSumX(ps, ws, n);
    WeightedSumY(ps, ws, n);
    WeightedSumZ(ps, ws, n);
  }

  lemma {:induction false} WeightedSumX(ps: seq<Vec3>, ws: seq<real>, n: nat)
    requires n <= |ps| && n <= |ws|
    ensures WeightedSumUpTo(ps, ws, n).x == Sum(seq(n, i requires 0 <= i < n => ps[i].x * ws[i]))
  {
    if n > 0 {
      WeightedSumX(ps, ws, n - 1);
      var s := seq(n, i requires 0 <= i < n => ps[i].x * ws[i]);
      assert s[..n - 1] == seq(n - 1, i requires 0 <= i < n - 1 => ps[i].x * ws[i]);
      assert Sum(s) == Sum(s[..n - 1]) + s[n - 1];
    }
  }

  lemma {:induction false} WeightedSumY(ps: seq<Vec3>, ws: seq<real>, n: nat)
    requires n <= |ps| && n <= |ws|
    ensures WeightedSumUpTo(ps, ws, n).y == Sum(seq(n, i requires 0 <= i < n => ps[i].y * ws[i]))
  {
    if n > 0 {
      WeightedSumY(ps, ws, n - 1);
      var s := seq(n, i requires 0 <= i < n => ps[i].y * ws[i]);
      assert s[..n - 1] == seq(n - 1, i requires 0 <= i < n - 1 => ps[i].y * ws[i]);
      assert Sum(s) == Sum(s[..n - 1]) + s[n - 1];
    }
  }

  lemma {:induction false} WeightedSumZ(ps: seq<Vec3>, ws: seq<real>, n: nat)
    requires n <= |ps| && n <= |ws|
    ensures WeightedSumUpTo(ps, ws, n).z == Sum(seq(n, i requires 0 <= i < n => ps[i].z * ws[i]))
  {
    if n > 0 {
      WeightedSumZ(ps, ws, n - 1);
      var s := seq(n, i requires 0 <= i < n => ps[i].z * ws[i]);
      assert s[..n - 1] == seq(n - 1, i requires 0 <= i < n - 1 => ps[i].z * ws[i]);
      assert Sum(s) == Sum(s[..n - 1]) + s[n - 1];
    }
  }

  /** When every contributor reports the same point and the weights total 1,
      the weighted sum is that point. */
  lemma {:induction false} WeightedSumOfAgreeingPoints(ps: seq<Vec3>, ws: seq<real>, n: nat, p: Vec3)
    requires n <= |ps| && n <= |ws|
    requires forall i :: 0 <= i < n ==> ps[i] == p
    ensures WeightedSumUpTo(ps, ws, n) == Scale(p, Sum(ws[..n]))
  {
    if n > 0 {
      WeightedSumOfAgreeingPoints(ps, ws, n - 1, p);
      SumPrefixStep(ws, n - 1);
      assert ps[n - 1] == p;
      ScaleDistributes(p, Sum(ws[..n - 1]), ws[n - 1]);
    }
  }

  /** Scaling distributes over a sum of scalars. */
  lemma ScaleDistributes(p: Vec3, a: real, b: real)
    ensures Add(Scale(p, a), Scale(p, b)) == Scale(p, a + b)
  {
    assert p.x * a + p.x * b == p.x * (a + b);
    assert p.y * a + p.y * b == p.y * (a + b);
    assert p.z * a + p.z * b == p.z * (a + b);
  }

  /** A single contributor of weight 1 is reproduced exactly. */
  lemma WeightedSumSingle(p: Vec3)
    ensures WeightedSumUpTo([p], [1.0], 1) == p
  {
  }

  /** Two contributors blend as u * a + v * b. */
  lemma WeightedSumPair(a: Vec3, b: Vec3, u: real, v: real)
    ensures WeightedSumUpTo([a, b], [u, v], 2) == Add(Scale(a, u), Scale(b, v))
  {
    assert WeightedSumUpTo([a, b], [u, v], 1) == Scale(a, u);
  }
}
