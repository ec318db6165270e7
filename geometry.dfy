/** Planar points, the flat (x, y, z) position buffers that line geometries
    carry, and the abstract exponential function the falloff uses. */
module Geometry {

  /** A planar point; attractors are of this type. */
  datatype Vec2 = Vec2(x: real, y: real)

  /** A point of a line buffer; z is kept only for the 3D buffer format. */
  datatype Vec3 = Vec3(x: real, y: real, z: real)

  /** A flat position buffer holds whole (x, y, z) triples. */
  predicate IsBuffer(s: seq<real>) {
    |s| % 3 == 0
  }

  /** The number of points a buffer holds. */
  function PointCount(s: seq<real>): nat {
    |s| / 3
  }

  /** The i-th point of a flat buffer: the triple at offsets 3i, 3i+1, 3i+2. */
  function PointAt(s: seq<real>, i: nat): Vec3
    requires 3 * i + 2 < |s|
  {
    Vec3(s[3 * i], s[3 * i + 1], s[3 * i + 2])
  }

  /** The buffer read as a list of points. */
  function Points(s: seq<real>): (ps: seq<Vec3>)
    requires IsBuffer(s)
    ensures |ps| == PointCount(s)
  {
    seq(|s| / 3, i requires 0 <= i < |s| / 3 => PointAt(s, i))
  }

  /** Writes a list of points into a flat buffer, three numbers per point
      (what `setFromPoints` produces from the points of a curve). */
  function Flatten(ps: seq<Vec3>): (s: seq<real>)
    ensures |s| == 3 * |ps| && IsBuffer(s) && PointCount(s) == |ps|
    ensures forall i :: 0 <= i < |ps| ==> PointAt(s, i) == ps[i]
  {
    if |ps| == 0 then []
    else
      var rest := Flatten(ps[..|ps| - 1]);
      var p := ps[|ps| - 1];
      assert forall i :: 0 <= i < |ps| - 1 ==> PointAt(rest + [p.x, p.y, p.z], i) == PointAt(rest, i);
      rest + [p.x, p.y, p.z]
  }

  /** Two buffers of the same length that agree on every point are equal. */
  lemma {:induction false} BufferExtensionality(s: seq<real>, t: seq<real>)
    requires IsBuffer(s) && |s| == |t|
    requires forall i :: 0 <= i < PointCount(s) ==> PointAt(s, i) == PointAt(t, i)
    ensures s == t
  {
    forall k | 0 <= k < |s|
      ensures s[k] == t[k]
    {
      var i := k / 3;
      assert 3 * i + 2 < |s|;
      assert PointAt(s, i) == PointAt(t, i);
    }
  }

  /** Reading a buffer as points and writing them back gives the buffer. */
  lemma FlattenPoints(s: seq<real>)
    requires IsBuffer(s)
    ensures Flatten(Points(s)) == s
  {
    BufferExtensionality(Flatten(Points(s)), s);
  }

  /** Writing points into a buffer and reading them back gives the points. */
  lemma PointsFlatten(ps: seq<Vec3>)
    ensures Points(Flatten(ps)) == ps
  {
  }

  /** The abstract exponential: exp(0) = 1 and exp is positive everywhere.
      Nothing else about `Math.exp` is assumed. */
  ghost predicate IsExp(exp: real -> real) {
    exp(0.0) == 1.0 && forall x :: exp(x) > 0.0
  }

  /** |x| on reals, as `Math.abs`. */
  function Abs(x: real): (r: real)
    ensures r >= 0.0 && (r == x || r == -x)
  {
    if x < 0.0 then -x else x
  }
}
