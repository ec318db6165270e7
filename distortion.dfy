/** Attractor-driven displacement of line points (`getAttractedLinePoints`)
    and its sequential, compounding application over an attractor list
    (the functional model of `updatePattern`). */
module Distortion {
  import opened Geometry
  import opened Falloff

  /** The two kinds of line; the source passes them as the tags
      'horizontal' and 'vertical'. */
  datatype Orientation = Horizontal | Vertical

  /** What displacement reads from the engine besides the attractor:
      `Math.exp`, the module-level `lineCount` and the two falloff factors. */
  datatype Setting = Setting(exp: real -> real, lineCount: int,
                             exponentialFalloff: real, linearFalloff: real)

  ghost predicate ValidSetting(st: Setting) {
    IsExp(st.exp) && st.lineCount > 0
  }

  /** The lateral "tent" weight (100 - |delta / (lineCount / 2) * 100|) / 100:
      1 exactly when the attractor is level with the point, 0 exactly at half
      the grid span, negative beyond. */
  function LateralWeight(delta: real, lineCount: real): (w: real)
    requires lineCount > 0.0
    ensures w <= 1.0
    ensures w == 1.0 <==> delta == 0.0
    ensures w > 0.0 <==> Abs(delta) < lineCount / 2.0
    ensures w == 0.0 <==> Abs(delta) == lineCount / 2.0
  {
    var half := lineCount / 2.0;
    var w := (100.0 - Abs(delta / half * 100.0)) / 100.0;
    TentIsLinear(delta, half);
    CompareRatio(Abs(delta), half);
    w
  }

  /** How a ratio a / h with positive h compares with 1 and with 0. */
  lemma CompareRatio(a: real, h: real)
    requires h > 0.0 && a >= 0.0
    ensures a / h < 1.0 <==> a < h
    ensures a / h == 1.0 <==> a == h
    ensures a / h == 0.0 <==> a == 0.0
  {
    var r := a / h;
    assert h * r == a;
    assert h * (r - 1.0) == a - h;
    SignOfProduct(h, r);
    SignOfProduct(h, r - 1.0);
  }

  lemma TentIsLinear(delta: real, half: real)
    requires half > 0.0
    ensures (100.0 - Abs(delta / half * 100.0)) / 100.0 == 1.0 - Abs(delta) / half
  {
    assert delta / half * 100.0 == (delta * 100.0) / half;
    if delta < 0.0 {
      assert delta / half < 0.0;
      assert Abs(delta / half * 100.0) == (-delta) / half * 100.0;
    } else {
      assert delta / half >= 0.0;
      assert Abs(delta / half * 100.0) == delta / half * 100.0;
    }
  }

  /** The displacement of the coordinate that moves: delta times the lateral
      and the axial weight. */
  function Shift(delta: real, lateral: real, axial: real): real {
    delta * lateral * axial
  }

  /** How the sign of the two weights decides the direction of the move. */
  lemma ShiftDirection(c: real, target: real, lateral: real, axial: real)
    ensures target == c || lateral == 0.0 ==> c + Shift(target - c, lateral, axial) == c
    ensures lateral > 0.0 && axial > 0.0 ==> Towards(c, target, c + Shift(target - c, lateral, axial))
    ensures lateral > 0.0 && axial < 0.0 ==> Away(c, target, c + Shift(target - c, lateral, axial))
    ensures lateral < 0.0 && axial > 0.0 ==> Away(c, target, c + Shift(target - c, lateral, axial))
    ensures lateral < 0.0 && axial < 0.0 ==> Towards(c, target, c + Shift(target - c, lateral, axial))
  {
    var delta := target - c;
    var f := lateral * axial;
    assert Shift(delta, lateral, axial) == delta * f;
    if lateral > 0.0 && axial > 0.0 {
      assert f > 0.0 by { assert lateral * axial > lateral * 0.0; }
      if delta > 0.0 { assert delta * f > 0.0 * f; }
      if delta < 0.0 { assert delta * f < 0.0 * f; }
    } else if lateral > 0.0 && axial < 0.0 {
      assert f < 0.0 by { assert lateral * axial < lateral * 0.0; }
      if delta > 0.0 { assert delta * f < delta * 0.0; }
      if delta < 0.0 { assert delta * f > delta * 0.0; }
    } else if lateral < 0.0 && axial > 0.0 {
      assert f < 0.0 by { assert axial * lateral < axial * 0.0; }
      if delta > 0.0 { assert delta * f < delta * 0.0; }
      if delta < 0.0 { assert delta * f > delta * 0.0; }
    } else if lateral < 0.0 && axial < 0.0 {
      assert f > 0.0 by { assert (-lateral) * (-axial) > (-lateral) * 0.0; }
      if delta > 0.0 { assert delta * f > 0.0 * f; }
      if delta < 0.0 { assert delta * f < 0.0 * f; }
    }
  }

  /** `m` lies strictly on the attractor's side of `c`. */
  predicate Towards(c: real, target: real, m: real) {
    (target > c ==> m > c) && (target < c ==> m < c)
  }

  /** `m` lies strictly on the side of `c` away from the attractor. */
  predicate Away(c: real, target: real, m: real) {
    (target > c ==> m < c) && (target < c ==> m > c)
  }

  /** The argument of the linear ramp: distance / lineCount * linearFalloff.
      The ramp is 0 where it reaches 1. */
  function Reach(distance: real, st: Setting): real
    requires st.lineCount > 0
  {
    distance / st.lineCount as real * st.linearFalloff
  }

  /** The coordinate that moves, for one point and one attractor: `c` is the
      point's moving coordinate, `target` the attractor's, `lateralDelta` the
      attractor's offset along the line. An attractor level with the point,
      or half the grid span away along the line, leaves it where it is. */
  function MoveCoordinate(c: real, target: real, lateralDelta: real, st: Setting): (c': real)
    requires ValidSetting(st)
    ensures target == c ==> c' == c
    ensures Abs(lateralDelta) == st.lineCount as real / 2.0 ==> c' == c
  {
    var count := st.lineCount as real;
    var delta := target - c;
    var lateral := LateralWeight(lateralDelta, count);
    var axial := CustomFalloff(st.exp, Abs(delta), count, st.exponentialFalloff, st.linearFalloff);
    ShiftDirection(c, target, lateral, axial);
    c + Shift(delta, lateral, axial)
  }

  /** Inside the tent and within the linear reach a point moves towards the
      attractor; beyond the linear reach the unclamped ramp pushes it away. */
  lemma MoveDirection(c: real, target: real, lateralDelta: real, st: Setting)
    requires ValidSetting(st)
    requires Abs(lateralDelta) < st.lineCount as real / 2.0
    ensures Reach(Abs(target - c), st) < 1.0 ==> Towards(c, target, MoveCoordinate(c, target, lateralDelta, st))
    ensures Reach(Abs(target - c), st) > 1.0 ==> Away(c, target, MoveCoordinate(c, target, lateralDelta, st))
  {
    var count := st.lineCount as real;
    var delta := target - c;
    var lateral := LateralWeight(lateralDelta, count);
    var axial := CustomFalloff(st.exp, Abs(delta), count, st.exponentialFalloff, st.linearFalloff);
    var reach := Reach(Abs(delta), st);
    assert axial > 0.0 <==> reach < 1.0;
    assert axial < 0.0 <==> reach > 1.0;
    assert lateral > 0.0;
    var m := MoveCoordinate(c, target, lateralDelta, st);
    assert m == c + Shift(delta, lateral, axial);
    ShiftDirection(c, target, lateral, axial);
    assert axial > 0.0 ==> Towards(c, target, m);
    assert axial < 0.0 ==> Away(c, target, m);
  }

  /** Beyond half the grid span along the line the tent weight is negative
      too, which flips both directions: within the linear reach the point
      is pushed away, beyond it the two negative weights cancel and the
      point moves towards the attractor. */
  lemma MoveDirectionOutsideTent(c: real, target: real, lateralDelta: real, st: Setting)
    requires ValidSetting(st)
    requires Abs(lateralDelta) > st.lineCount as real / 2.0
    ensures Reach(Abs(target - c), st) < 1.0 ==> Away(c, target, MoveCoordinate(c, target, lateralDelta, st))
    ensures Reach(Abs(target - c), st) > 1.0 ==> Towards(c, target, MoveCoordinate(c, target, lateralDelta, st))
  {
    var count := st.lineCount as real;
    var delta := target - c;
    var lateral := LateralWeight(lateralDelta, count);
    var axial := CustomFalloff(st.exp, Abs(delta), count, st.exponentialFalloff, st.linearFalloff);
    var reach := Reach(Abs(delta), st);
    assert axial > 0.0 <==> reach < 1.0;
    assert axial < 0.0 <==> reach > 1.0;
    assert lateral < 0.0;
    var m := MoveCoordinate(c, target, lateralDelta, st);
    assert m == c + Shift(delta, lateral, axial);
    ShiftDirection(c, target, lateral, axial);
    assert axial > 0.0 ==> Away(c, target, m);
    assert axial < 0.0 ==> Towards(c, target, m);
  }

  /** One point of `getAttractedLinePoints`. A horizontal line moves only y
      (towards the attractor's y, tent over the x offset); a vertical line
      only x (towards the attractor's x, tent over the y offset); z is
      written as 0. */
  function Attract(p: Vec3, a: Vec2, o: Orientation, st: Setting): (q: Vec3)
    requires ValidSetting(st)
    ensures q.z == 0.0
    ensures o == Horizontal ==> q.x == p.x && q.y == MoveCoordinate(p.y, a.y, a.x - p.x, st)
    ensures o == Vertical ==> q.y == p.y && q.x == MoveCoordinate(p.x, a.x, a.y - p.y, st)
    ensures o == Horizontal && a.y == p.y ==> q == Vec3(p.x, p.y, 0.0)
    ensures o == Vertical && a.x == p.x ==> q == Vec3(p.x, p.y, 0.0)
  {
    match o
    case Horizontal => Vec3(p.x, MoveCoordinate(p.y, a.y, a.x - p.x, st), 0.0)
    case Vertical => Vec3(MoveCoordinate(p.x, a.x, a.y - p.y, st), p.y, 0.0)
  }

  /** The buffer `getAttractedLinePoints` returns for one attractor: every
      point of the input moved by Attract. */
  function Attracted(s: seq<real>, a: Vec2, o: Orientation, st: Setting): (r: seq<real>)
    requires IsBuffer(s) && ValidSetting(st)
    ensures |r| == |s| && IsBuffer(r)
    ensures forall i :: 0 <= i < PointCount(s) ==> PointAt(r, i) == Attract(PointAt(s, i), a, o, st)
  {
    Flatten(seq(PointCount(s), i requires 0 <= i < PointCount(s) => Attract(PointAt(s, i), a, o, st)))
  }

  /** What `getAttractedLinePoints` promises per point: z is written as 0,
      the coordinate the orientation keeps is copied, and a point level with
      the attractor does not move. */
  lemma AttractedKeeps(s: seq<real>, a: Vec2, o: Orientation, st: Setting)
    requires IsBuffer(s) && ValidSetting(st)
    ensures var r := Attracted(s, a, o, st);
      forall i :: 0 <= i < PointCount(s) ==> PointAt(r, i).z == 0.0
    ensures var r := Attracted(s, a, o, st);
      o == Horizontal ==> forall i :: 0 <= i < PointCount(s) ==>
        PointAt(r, i).x == PointAt(s, i).x &&
        (PointAt(s, i).y == a.y ==> PointAt(r, i).y == PointAt(s, i).y)
    ensures var r := Attracted(s, a, o, st);
      o == Vertical ==> forall i :: 0 <= i < PointCount(s) ==>
        PointAt(r, i).y == PointAt(s, i).y &&
        (PointAt(s, i).x == a.x ==> PointAt(r, i).x == PointAt(s, i).x)
  {
  }

  /** `updatePattern` on one line: the attractors applied in list order, each
      pass consuming the previous pass's output. */
  function ApplyAll(s: seq<real>, attractors: seq<Vec2>, o: Orientation, st: Setting): (r: seq<real>)
    requires IsBuffer(s) && ValidSetting(st)
    ensures |r| == |s| && IsBuffer(r)
    decreases |attractors|
  {
    if |attractors| == 0 then s
    else Attracted(ApplyAll(s, attractors[..|attractors| - 1], o, st), attractors[|attractors| - 1], o, st)
  }

  /** The coordinate the orientation keeps fixed never changes, however many
      attractors pass, and any pass flattens the line to z = 0. */
  lemma {:induction false} ApplyAllKeeps(s: seq<real>, attractors: seq<Vec2>, o: Orientation, st: Setting)
    requires IsBuffer(s) && ValidSetting(st)
    ensures var r := ApplyAll(s, attractors, o, st);
      o == Horizontal ==> forall i :: 0 <= i < PointCount(s) ==> PointAt(r, i).x == PointAt(s, i).x
    ensures var r := ApplyAll(s, attractors, o, st);
      o == Vertical ==> forall i :: 0 <= i < PointCount(s) ==> PointAt(r, i).y == PointAt(s, i).y
    ensures var r := ApplyAll(s, attractors, o, st);
      attractors != [] ==> forall i :: 0 <= i < PointCount(s) ==> PointAt(r, i).z == 0.0
    decreases |attractors|
  {
    if |attractors| > 0 {
      ApplyAllKeeps(s, attractors[..|attractors| - 1], o, st);
    }
  }

  /** Displacements compound: applying a list and then another list is
      applying their concatenation. */
  lemma {:induction false} ApplyAllAppend(s: seq<real>, first: seq<Vec2>, second: seq<Vec2>,
                                          o: Orientation, st: Setting)
    requires IsBuffer(s) && ValidSetting(st)
    ensures ApplyAll(s, first + second, o, st) == ApplyAll(ApplyAll(s, first, o, st), second, o, st)
    decreases |second|
  {
    if |second| == 0 {
      assert first + second == first;
    } else {
      var init := second[..|second| - 1];
      assert (first + second)[..|first + second| - 1] == first + init;
      ApplyAllAppend(s, first, init, o, st);
    }
  }

  /** A point level with every attractor (for a horizontal line: the same y)
      never moves. */
  lemma {:induction false} ApplyAllFixedPoint(s: seq<real>, attractors: seq<Vec2>, st: Setting, i: nat)
    requires IsBuffer(s) && ValidSetting(st) && i < PointCount(s)
    requires PointAt(s, i).z == 0.0
    requires forall k :: 0 <= k < |attractors| ==> attractors[k].y == PointAt(s, i).y
    ensures PointAt(ApplyAll(s, attractors, Horizontal, st), i) == PointAt(s, i)
    decreases |attractors|
  {
    if |attractors| > 0 {
      ApplyAllFixedPoint(s, attractors[..|attractors| - 1], st, i);
    }
  }

  /** The vertical twin: a point of a vertical line level with every
      attractor (the same x) never moves. */
  lemma {:induction false} ApplyAllFixedPointVertical(s: seq<real>, attractors: seq<Vec2>, st: Setting, i: nat)
    requires IsBuffer(s) && ValidSetting(st) && i < PointCount(s)
    requires PointAt(s, i).z == 0.0
    requires forall k :: 0 <= k < |attractors| ==> attractors[k].x == PointAt(s, i).x
    ensures PointAt(ApplyAll(s, attractors, Vertical, st), i) == PointAt(s, i)
    decreases |attractors|
  {
    if |attractors| > 0 {
      ApplyAllFixedPointVertical(s, attractors[..|attractors| - 1], st, i);
    }
  }
}
