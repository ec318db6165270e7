/** `getBoundsXY`: a min/max scan over every point of a list of lines whose
    accumulators start at 0, so the box it returns always contains the
    origin. */
module Bounds {
  import opened Geometry
  import opened Lines

  /** The four accumulators of the scan. */
  datatype Box = Box(minx: real, miny: real, maxx: real, maxy: real)

  /** What `getBoundsXY` returns. */
  datatype BoundsXY = BoundsXY(boundsX: real, boundsY: real,
                               minx: real, miny: real, maxx: real, maxy: real)

  const Origin := Box(0.0, 0.0, 0.0, 0.0)

  predicate Contains(b: Box, p: Vec3) {
    b.minx <= p.x <= b.maxx && b.miny <= p.y <= b.maxy
  }

  /** One step of the scan: the four independent comparisons. The new box
      holds the point, only widens the old one, and each side is the old
      side or the point's coordinate. */
  function Include(b: Box, p: Vec3): (r: Box)
    ensures Contains(r, p)
    ensures r.minx <= b.minx && r.miny <= b.miny && r.maxx >= b.maxx && r.maxy >= b.maxy
    ensures (r.minx == b.minx || r.minx == p.x) && (r.miny == b.miny || r.miny == p.y)
    ensures (r.maxx == b.maxx || r.maxx == p.x) && (r.maxy == b.maxy || r.maxy == p.y)
  {
    Box(if p.x < b.minx then p.x else b.minx,
        if p.y < b.miny then p.y else b.miny,
        if p.x > b.maxx then p.x else b.maxx,
        if p.y > b.maxy then p.y else b.maxy)
  }

  /** The scan over a list of points, from the box `b`. */
  function ScanPoints(b: Box, ps: seq<Vec3>): Box {
    if |ps| == 0 then b else Include(ScanPoints(b, ps[..|ps| - 1]), ps[|ps| - 1])
  }

  /** Every point of every buffer, line after line. */
  function AllPoints(bs: seq<seq<real>>): seq<Vec3>
    requires forall k :: 0 <= k < |bs| ==> IsBuffer(bs[k])
  {
    if |bs| == 0 then [] else AllPoints(bs[..|bs| - 1]) + Points(bs[|bs| - 1])
  }

  /** The result of `getBoundsXY` on lines with these buffers. */
  function BoundsOf(bs: seq<seq<real>>): (r: BoundsXY)
    requires forall k :: 0 <= k < |bs| ==> IsBuffer(bs[k])
    ensures r.minx <= 0.0 <= r.maxx && r.miny <= 0.0 <= r.maxy
    ensures r.boundsX == r.maxx - r.minx && r.boundsY == r.maxy - r.miny
  {
    var b := ScanPoints(Origin, AllPoints(bs));
    ScanPointsBox(Origin, AllPoints(bs));
    BoundsXY(Abs(b.maxx) + Abs(b.minx), Abs(b.maxy) + Abs(b.miny), b.minx, b.miny, b.maxx, b.maxy)
  }

  /** The scan only widens its start box, covers every point it scans, and
      each side of the box is either the start box's or some scanned point's
      coordinate. */
  lemma {:induction false} ScanPointsBox(b: Box, ps: seq<Vec3>)
    ensures var r := ScanPoints(b, ps);
      r.minx <= b.minx && r.miny <= b.miny && r.maxx >= b.maxx && r.maxy >= b.maxy
    ensures forall p :: p in ps ==> Contains(ScanPoints(b, ps), p)
    ensures var r := ScanPoints(b, ps);
      (r.minx == b.minx || exists p :: p in ps && p.x == r.minx) &&
      (r.miny == b.miny || exists p :: p in ps && p.y == r.miny) &&
      (r.maxx == b.maxx || exists p :: p in ps && p.x == r.maxx) &&
      (r.maxy == b.maxy || exists p :: p in ps && p.y == r.maxy)
  {
    if |ps| > 0 {
      var init := ps[..|ps| - 1];
      ScanPointsBox(b, init);
      assert forall p :: p in init ==> p in ps;
      assert ps == init + [ps[|ps| - 1]];
    }
  }

  /** Each point of buffer k is among AllPoints. */
  lemma {:induction false} InAllPoints(bs: seq<seq<real>>, k: nat, i: nat)
    requires forall j :: 0 <= j < |bs| ==> IsBuffer(bs[j])
    requires k < |bs| && i < PointCount(bs[k])
    ensures PointAt(bs[k], i) in AllPoints(bs)
  {
    if k < |bs| - 1 {
      InAllPoints(bs[..|bs| - 1], k, i);
    } else {
      assert Points(bs[k])[i] == PointAt(bs[k], i);
    }
  }

  /** AllPoints holds nothing but points of the buffers. */
  lemma {:induction false} FromAllPoints(bs: seq<seq<real>>, p: Vec3)
    requires forall j :: 0 <= j < |bs| ==> IsBuffer(bs[j])
    requires p in AllPoints(bs)
    ensures exists k, i :: 0 <= k < |bs| && 0 <= i < PointCount(bs[k]) && p == PointAt(bs[k], i)
  {
    var init := bs[..|bs| - 1];
    if p in AllPoints(init) {
      FromAllPoints(init, p);
      var k, i :| 0 <= k < |init| && 0 <= i < PointCount(init[k]) && p == PointAt(init[k], i);
      assert init[k] == bs[k];
    } else {
      var ps := Points(bs[|bs| - 1]);
      var i :| 0 <= i < |ps| && ps[i] == p;
    }
  }

  /** What `getBoundsXY` promises: the box holds the origin and every
      scanned point, each side is 0 or attained by a point, the spans are
      max - min, and lines without points give all zeros. */
  lemma BoundsOfSpec(bs: seq<seq<real>>)
    requires forall k :: 0 <= k < |bs| ==> IsBuffer(bs[k])
    ensures var r := BoundsOf(bs);
      r.minx <= 0.0 <= r.maxx && r.miny <= 0.0 <= r.maxy
    ensures var r := BoundsOf(bs);
      forall k, i :: 0 <= k < |bs| && 0 <= i < PointCount(bs[k]) ==>
        r.minx <= PointAt(bs[k], i).x <= r.maxx && r.miny <= PointAt(bs[k], i).y <= r.maxy
    ensures var r := BoundsOf(bs);
      (r.maxx == 0.0 || exists k, i :: 0 <= k < |bs| && 0 <= i < PointCount(bs[k]) && PointAt(bs[k], i).x == r.maxx) &&
      (r.minx == 0.0 || exists k, i :: 0 <= k < |bs| && 0 <= i < PointCount(bs[k]) && PointAt(bs[k], i).x == r.minx) &&
      (r.maxy == 0.0 || exists k, i :: 0 <= k < |bs| && 0 <= i < PointCount(bs[k]) && PointAt(bs[k], i).y == r.maxy) &&
      (r.miny == 0.0 || exists k, i :: 0 <= k < |bs| && 0 <= i < PointCount(bs[k]) && PointAt(bs[k], i).y == r.miny)
    ensures var r := BoundsOf(bs);
      r.boundsX == r.maxx - r.minx && r.boundsY == r.maxy - r.miny
    ensures (forall k :: 0 <= k < |bs| ==> bs[k] == []) ==>
      BoundsOf(bs) == BoundsXY(0.0, 0.0, 0.0, 0.0, 0.0, 0.0)
  {
    var ps := AllPoints(bs);
    var b := ScanPoints(Origin, ps);
    ScanPointsBox(Origin, ps);
    forall k, i | 0 <= k < |bs| && 0 <= i < PointCount(bs[k])
      ensures Contains(b, PointAt(bs[k], i))
    {
      InAllPoints(bs, k, i);
    }
    if b.maxx != 0.0 {
      var p :| p in ps && p.x == b.maxx;
      FromAllPoints(bs, p);
    }
    if b.minx != 0.0 {
      var p :| p in ps && p.x == b.minx;
      FromAllPoints(bs, p);
    }
    if b.maxy != 0.0 {
      var p :| p in ps && p.y == b.maxy;
      FromAllPoints(bs, p);
    }
    if b.miny != 0.0 {
      var p :| p in ps && p.y == b.miny;
      FromAllPoints(bs, p);
    }
    if forall k :: 0 <= k < |bs| ==> bs[k] == [] {
      if ps != [] {
        FromAllPoints(bs, ps[0]);
      }
      assert ps == [];
    }
  }

  /** A single point in the positive quadrant is not the whole box: the
      scan starts at the origin, so the box runs from (0, 0) to the point,
      e.g. (5, 5) gives min 0, max 5. */
  lemma BoundsOfOnePoint(x: real, y: real, z: real)
    requires x >= 0.0 && y >= 0.0
    ensures BoundsOf([[x, y, z]]) == BoundsXY(x, y, 0.0, 0.0, x, y)
  {
    var bs := [[x, y, z]];
    assert PointCount(bs[0]) == 1 && PointAt(bs[0], 0) == Vec3(x, y, z);
    BoundsOfSpec(bs);
  }

  /** Scanning two lists one after the other is scanning their concatenation. */
  lemma {:induction false} ScanPointsAppend(b: Box, xs: seq<Vec3>, ys: seq<Vec3>)
    ensures ScanPoints(b, xs + ys) == ScanPoints(ScanPoints(b, xs), ys)
    decreases |ys|
  {
    if |ys| == 0 {
      assert xs + ys == xs;
    } else {
      assert (xs + ys)[..|xs + ys| - 1] == xs + ys[..|ys| - 1];
      ScanPointsAppend(b, xs, ys[..|ys| - 1]);
    }
  }

  /** `getBoundsXY` (src/main.ts:277-305): the scan over the lines, line by
      line, from accumulators at 0. */
  method GetBoundsXY(lines: seq<Line>) returns (r: BoundsXY)
    requires AllBuffers(lines)
    ensures r == BoundsOf(Positions(lines))
  {
    ghost var bs := Positions(lines);
    var box := Origin;
    var j := 0;
    while j < |lines|
      invariant 0 <= j <= |lines|
      invariant box == ScanPoints(Origin, AllPoints(bs[..j]))
    {
      assert bs[..j + 1][..j] == bs[..j];
      ScanPointsAppend(Origin, AllPoints(bs[..j]), Points(bs[j]));
      box := ScanLine(box, lines[j].position);
      j := j + 1;
    }
    assert bs[..j] == bs;
    r := BoundsXY(Abs(box.maxx) + Abs(box.minx), Abs(box.maxy) + Abs(box.miny),
                  box.minx, box.miny, box.maxx, box.maxy);
  }

  /** The body of the `forEach` callback of `getBoundsXY`: one line's buffer,
      triple by triple, x at offset i and y at offset i + 1. */
  method ScanLine(b: Box, linePoints: seq<real>) returns (r: Box)
    requires IsBuffer(linePoints)
    ensures r == ScanPoints(b, Points(linePoints))
  {
    var minx, miny, maxx, maxy := b.minx, b.miny, b.maxx, b.maxy;
    var i := 0;
    while i < |linePoints|
      invariant 0 <= i <= |linePoints| && i % 3 == 0
      invariant Box(minx, miny, maxx, maxy) == ScanPoints(b, Points(linePoints)[..i / 3])
    {
      var x := linePoints[i];
      var y := linePoints[i + 1];
      assert Points(linePoints)[..i / 3 + 1][..i / 3] == Points(linePoints)[..i / 3];
      if x > maxx {
        maxx := x;
      }
      if y > maxy {
        maxy := y;
      }
      if x < minx {
        minx := x;
      }
      if y < miny {
        miny := y;
      }
      i := i + 3;
    }
    assert Points(linePoints)[..i / 3] == Points(linePoints);
    r := Box(minx, miny, maxx, maxy);
  }
}
