/** The undisplaced grid built by `createHorizontalLines` and
    `createVerticalLines`: line i is the straight segment at offset i,
    sampled the way three.js's `LineCurve.getPoints(divisions)` samples it
    (divisions + 1 evenly spaced points, both ends included). */
module Grid {
  import opened Geometry
  import opened Distortion

  /** Point d of `new LineCurve(start, end).getPoints(divisions)`, raised to
      3D with z = 0 as `setFromPoints` does. */
  function CurvePoint(start: Vec2, end: Vec2, d: nat, divisions: nat): (q: Vec3)
    requires divisions >= 1
    ensures q.z == 0.0
    ensures d == 0 ==> q == Vec3(start.x, start.y, 0.0)
    ensures d == divisions ==> q == Vec3(end.x, end.y, 0.0)
  {
    var t := d as real / divisions as real;
    Vec3(start.x + (end.x - start.x) * t, start.y + (end.y - start.y) * t, 0.0)
  }

  /** The ends of line i: (0, i) to (amount, i) when horizontal, the
      transpose when vertical. */
  function LineStart(o: Orientation, i: nat): Vec2 {
    match o
    case Horizontal => Vec2(0.0, i as real)
    case Vertical => Vec2(i as real, 0.0)
  }

  function LineEnd(o: Orientation, i: nat, amount: nat): Vec2 {
    match o
    case Horizontal => Vec2(amount as real, i as real)
    case Vertical => Vec2(i as real, amount as real)
  }

  /** The sampled points of line i of a grid of `amount` lines. */
  function GridPoints(o: Orientation, i: nat, amount: nat, divisions: nat): (ps: seq<Vec3>)
    requires divisions >= 1
    ensures |ps| == divisions + 1
    ensures forall d :: 0 <= d <= divisions ==> ps[d] == SamplePoint(o, i, amount, d, divisions)
  {
    var ps := seq(divisions + 1, d requires 0 <= d <= divisions =>
                    CurvePoint(LineStart(o, i), LineEnd(o, i, amount), d, divisions));
    forall d | 0 <= d <= divisions
      ensures ps[d] == SamplePoint(o, i, amount, d, divisions)
    {
      CurveIsSample(o, i, amount, d, divisions);
    }
    ps
  }

  /** The curve sample written per orientation: the moving coordinate is
      amount * (d / divisions), the other one is the offset i. */
  function SamplePoint(o: Orientation, i: nat, amount: nat, d: nat, divisions: nat): Vec3
    requires divisions >= 1
  {
    var along := Along(amount, d, divisions);
    match o
    case Horizontal => Vec3(along, i as real, 0.0)
    case Vertical => Vec3(i as real, along, 0.0)
  }

  /** How far along its length sample d of a line of length `amount` lies. */
  function Along(amount: nat, d: nat, divisions: nat): real
    requires divisions >= 1
  {
    amount as real * (d as real / divisions as real)
  }

  lemma CurveIsSample(o: Orientation, i: nat, amount: nat, d: nat, divisions: nat)
    requires divisions >= 1
    ensures CurvePoint(LineStart(o, i), LineEnd(o, i, amount), d, divisions) == SamplePoint(o, i, amount, d, divisions)
  {
  }

  /** The position buffer of line i of a grid of `amount` lines. */
  function GridLine(o: Orientation, i: nat, amount: nat, divisions: nat): (s: seq<real>)
    requires divisions >= 1
    ensures |s| == 3 * (divisions + 1) && IsBuffer(s)
  {
    Flatten(GridPoints(o, i, amount, divisions))
  }

  /** The shape of a grid line: it runs from its start point to its end
      point, flat and straight at offset i, inside [0, amount] along its
      length, with consecutive samples amount / divisions apart. */
  lemma GridLineShape(o: Orientation, i: nat, amount: nat, divisions: nat)
    requires divisions >= 1
    ensures var s := GridLine(o, i, amount, divisions);
      PointAt(s, 0) == Vec3(LineStart(o, i).x, LineStart(o, i).y, 0.0) &&
      PointAt(s, divisions) == Vec3(LineEnd(o, i, amount).x, LineEnd(o, i, amount).y, 0.0)
    ensures var s := GridLine(o, i, amount, divisions);
      forall d :: 0 <= d <= divisions ==> PointAt(s, d).z == 0.0
    ensures var s := GridLine(o, i, amount, divisions);
      o == Horizontal ==> forall d :: 0 <= d <= divisions ==>
        PointAt(s, d).y == i as real && 0.0 <= PointAt(s, d).x <= amount as real
    ensures var s := GridLine(o, i, amount, divisions);
      o == Vertical ==> forall d :: 0 <= d <= divisions ==>
        PointAt(s, d).x == i as real && 0.0 <= PointAt(s, d).y <= amount as real
    ensures var s := GridLine(o, i, amount, divisions);
      o == Horizontal ==> forall d :: 0 <= d < divisions ==>
        PointAt(s, d + 1).x - PointAt(s, d).x == amount as real / divisions as real
    ensures var s := GridLine(o, i, amount, divisions);
      o == Vertical ==> forall d :: 0 <= d < divisions ==>
        PointAt(s, d + 1).y - PointAt(s, d).y == amount as real / divisions as real
  {
    var s := GridLine(o, i, amount, divisions);
    var ps := GridPoints(o, i, amount, divisions);
    assert forall d :: 0 <= d <= divisions ==> PointAt(s, d) == ps[d];
    forall d | 0 <= d <= divisions
      ensures 0.0 <= Along(amount, d, divisions) <= amount as real
    {
      Sample(amount, d, divisions);
    }
    forall d | 0 <= d < divisions
      ensures Along(amount, d + 1, divisions) - Along(amount, d, divisions) == amount as real / divisions as real
    {
      Step(amount, d, divisions);
    }
    Sample(amount, 0, divisions);
    Sample(amount, divisions, divisions);
  }

  /** amount * (d / divisions) lies in [0, amount] and is amount at d = divisions. */
  lemma Sample(amount: nat, d: nat, divisions: nat)
    requires divisions >= 1 && d <= divisions
    ensures 0.0 <= Along(amount, d, divisions) <= amount as real
    ensures d == 0 ==> Along(amount, d, divisions) == 0.0
    ensures d == divisions ==> Along(amount, d, divisions) == amount as real
  {
    var t := d as real / divisions as real;
    assert 0.0 <= t <= 1.0;
    assert amount as real * t <= amount as real * 1.0;
  }

  /** Consecutive samples differ by amount / divisions. */
  lemma Step(amount: nat, d: nat, divisions: nat)
    requires divisions >= 1
    ensures Along(amount, d + 1, divisions) - Along(amount, d, divisions) == amount as real / divisions as real
  {
    var n := divisions as real;
    assert (d + 1) as real / n == d as real / n + 1.0 / n;
    assert amount as real * (1.0 / n) == amount as real / n;
  }

  /** The vertical grid is the transpose of the horizontal one. */
  lemma GridTranspose(i: nat, amount: nat, divisions: nat, d: nat)
    requires divisions >= 1 && d <= divisions
    ensures PointAt(GridLine(Vertical, i, amount, divisions), d).x == PointAt(GridLine(Horizontal, i, amount, divisions), d).y
    ensures PointAt(GridLine(Vertical, i, amount, divisions), d).y == PointAt(GridLine(Horizontal, i, amount, divisions), d).x
  {
    assert PointAt(GridLine(Vertical, i, amount, divisions), d) == GridPoints(Vertical, i, amount, divisions)[d];
    assert PointAt(GridLine(Horizontal, i, amount, divisions), d) == GridPoints(Horizontal, i, amount, divisions)[d];
  }
}
