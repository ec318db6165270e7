/** The pattern engine: the module-level state of src/main.ts and the
    handlers, `initPattern`, `resetPattern`, `updatePattern`, `refresh` and
    the export that read and write it. */
module Engine {
  import opened Geometry
  import opened Distortion
  import opened Grid
  import opened Lines
  import opened Bounds
  import opened Export

  /** The two `Math.random()` results `createAtractorpoints` draws for one
      attractor, each in [0, 1). */
  datatype Draw = Draw(u: real, v: real)

  predicate ValidDraws(rng: seq<Draw>) {
    forall k :: 0 <= k < |rng| ==> 0.0 <= rng[k].u < 1.0 && 0.0 <= rng[k].v < 1.0
  }

  /** The attractors `createAtractorpoints(amount)` makes from these draws:
      (u * lineCount, v * lineCount) each. */
  function RandomAttractors(rng: seq<Draw>, amount: nat, lineCount: int): (ps: seq<Vec2>)
    requires amount <= |rng|
    ensures |ps| == amount
    ensures forall k :: 0 <= k < amount ==> ps[k] == Spread(rng[k], lineCount as real)
  {
    seq(amount, k requires 0 <= k < amount => Spread(rng[k], lineCount as real))
  }

  /** One draw stretched over a grid of side `size`. */
  function Spread(d: Draw, size: real): Vec2 {
    Vec2(d.u * size, d.v * size)
  }

  predicate InCell(p: Vec2, size: real) {
    0.0 <= p.x <= size && 0.0 <= p.y <= size
  }

  /** Every coordinate of a point list lies in [0, size]. */
  predicate InSquare(ps: seq<Vec2>, size: real) {
    forall k :: 0 <= k < |ps| ==> InCell(ps[k], size)
  }

  /** Random attractors lie inside the grid. */
  lemma RandomAttractorsInGrid(rng: seq<Draw>, amount: nat, lineCount: int)
    requires amount <= |rng| && ValidDraws(rng) && lineCount >= 0
    ensures InSquare(RandomAttractors(rng, amount, lineCount), lineCount as real)
  {
    var ps := RandomAttractors(rng, amount, lineCount);
    forall k | 0 <= k < amount
      ensures InCell(ps[k], lineCount as real)
    {
      SpreadInCell(rng[k], lineCount as real);
    }
  }

  /** A draw in [0, 1] stretched over a grid of side `size` stays in [0, size]. */
  lemma SpreadInCell(d: Draw, size: real)
    requires 0.0 <= d.u <= 1.0 && 0.0 <= d.v <= 1.0 && size >= 0.0
    ensures InCell(Spread(d, size), size)
  {
    var p := Spread(d, size);
    FractionOf(d.u, size, p.x);
    FractionOf(d.v, size, p.y);
  }

  lemma FractionOf(u: real, size: real, r: real)
    requires 0.0 <= u <= 1.0 && size >= 0.0 && r == u * size
    ensures 0.0 <= r <= size
  {
    assert size - r == (1.0 - u) * size;
  }

  /** Every attractor multiplied by `factor`: as many points, and factor 1
      leaves them as they are. */
  function Scaled(ps: seq<Vec2>, factor: real): (qs: seq<Vec2>)
    ensures |qs| == |ps|
    ensures factor == 1.0 ==> qs == ps
  {
    seq(|ps|, k requires 0 <= k < |ps| => Vec2(ps[k].x * factor, ps[k].y * factor))
  }

  /** Rescaling by newCount / oldCount keeps attractors that were inside the
      old grid inside the new one. */
  lemma ScaledStaysInGrid(ps: seq<Vec2>, oldCount: int, newCount: int)
    requires oldCount > 0 && newCount > 0 && InSquare(ps, oldCount as real)
    ensures |Scaled(ps, newCount as real / oldCount as real)| == |ps|
    ensures InSquare(Scaled(ps, newCount as real / oldCount as real), newCount as real)
  {
    var f := newCount as real / oldCount as real;
    var qs := Scaled(ps, f);
    forall k | 0 <= k < |ps|
      ensures InCell(qs[k], newCount as real)
    {
      Rescale(ps[k].x, oldCount as real, newCount as real);
      Rescale(ps[k].y, oldCount as real, newCount as real);
    }
  }

  lemma Rescale(c: real, oldSize: real, newSize: real)
    requires oldSize > 0.0 && newSize > 0.0 && 0.0 <= c <= oldSize
    ensures 0.0 <= c * (newSize / oldSize) <= newSize
  {
    var f := newSize / oldSize;
    assert f > 0.0;
    assert c * f <= oldSize * f;
    assert oldSize * f == newSize;
  }

  /** Two rescalings in a row are one by the product of their factors, so
      successive `lineCount` changes from n0 to n1 to n2 scale the
      attractors by n2 / n0 overall. */
  lemma ScaledTwice(ps: seq<Vec2>, f: real, g: real)
    ensures Scaled(Scaled(ps, f), g) == Scaled(ps, f * g)
  {
    var qs := Scaled(Scaled(ps, f), g);
    forall k | 0 <= k < |ps|
      ensures qs[k] == Scaled(ps, f * g)[k]
    {
      assert ps[k].x * f * g == ps[k].x * (f * g);
      assert ps[k].y * f * g == ps[k].y * (f * g);
    }
  }

  /** The undisplaced buffers of a whole grid of `amount` lines. */
  function GridBuffers(o: Orientation, amount: nat, divisions: nat): (bs: seq<seq<real>>)
    requires divisions >= 1
    ensures |bs| == amount
    ensures forall i :: 0 <= i < amount ==> bs[i] == GridLine(o, i, amount, divisions)
  {
    seq(amount, i requires 0 <= i < amount => GridLine(o, i, amount, divisions))
  }

  /** `updatePattern` on a whole list of lines of one orientation. */
  function ApplyEach(bs: seq<seq<real>>, attractors: seq<Vec2>, o: Orientation, st: Setting): (rs: seq<seq<real>>)
    requires ValidSetting(st) && forall k :: 0 <= k < |bs| ==> IsBuffer(bs[k])
    ensures |rs| == |bs| && forall k :: 0 <= k < |bs| ==> |rs[k]| == |bs[k]| && IsBuffer(rs[k])
    ensures forall k :: 0 <= k < |bs| ==> rs[k] == ApplyAll(bs[k], attractors, o, st)
  {
    seq(|bs|, k requires 0 <= k < |bs| => ApplyAll(bs[k], attractors, o, st))
  }

  /** One attractor's pass over a whole list of lines of one orientation. */
  function AttractEach(bs: seq<seq<real>>, a: Vec2, o: Orientation, st: Setting): (rs: seq<seq<real>>)
    requires ValidSetting(st) && forall k :: 0 <= k < |bs| ==> IsBuffer(bs[k])
    ensures |rs| == |bs| && forall k :: 0 <= k < |bs| ==> rs[k] == Attracted(bs[k], a, o, st)
  {
    seq(|bs|, k requires 0 <= k < |bs| => Attracted(bs[k], a, o, st))
  }

  /** One more attractor pass extends the applied prefix by one. */
  lemma ApplyEachStep(bs: seq<seq<real>>, attractors: seq<Vec2>, n: nat, o: Orientation, st: Setting)
    requires ValidSetting(st) && forall k :: 0 <= k < |bs| ==> IsBuffer(bs[k])
    requires n < |attractors|
    ensures AttractEach(ApplyEach(bs, attractors[..n], o, st), attractors[n], o, st) ==
            ApplyEach(bs, attractors[..n + 1], o, st)
  {
    assert attractors[..n + 1][..n] == attractors[..n];
  }

  /** Zero attractors leave every line as it is; lists applied one after
      another compound into their concatenation, so a set displaced again
      by the same attractors ends up displaced by the list twice over. */
  lemma ApplyEachCompose(bs: seq<seq<real>>, first: seq<Vec2>, second: seq<Vec2>, o: Orientation, st: Setting)
    requires ValidSetting(st) && forall k :: 0 <= k < |bs| ==> IsBuffer(bs[k])
    ensures ApplyEach(bs, [], o, st) == bs
    ensures ApplyEach(ApplyEach(bs, first, o, st), second, o, st) == ApplyEach(bs, first + second, o, st)
  {
    forall k | 0 <= k < |bs|
      ensures ApplyAll(ApplyAll(bs[k], first, o, st), second, o, st) == ApplyAll(bs[k], first + second, o, st)
    {
      ApplyAllAppend(bs[k], first, second, o, st);
    }
  }

  /** The x of every point of a horizontal grid line stays where the grid
      put it whatever attractors pass over it (y for vertical lines). */
  lemma DisplacedGridKeepsOffsets(o: Orientation, amount: nat, divisions: nat, attractors: seq<Vec2>,
                                  st: Setting, i: nat, d: nat)
    requires divisions >= 1 && ValidSetting(st) && i < amount && d <= divisions
    ensures var s := ApplyEach(GridBuffers(o, amount, divisions), attractors, o, st)[i];
      3 * d + 2 < |s| &&
      (o == Horizontal ==> 0.0 <= PointAt(s, d).x <= amount as real) &&
      (o == Vertical ==> 0.0 <= PointAt(s, d).y <= amount as real)
  {
    var g := GridLine(o, i, amount, divisions);
    GridLineShape(o, i, amount, divisions);
    ApplyAllKeeps(g, attractors, o, st);
  }


  /** The scalar configuration of the engine. */
  datatype Config = Config(isProportional: bool, proportion: real, exponentialFalloff: real, linearFalloff: real,
                           lineCount: int, isHorizontalLines: bool, isVerticalLines: bool, pointAmount: int)

  class PatternEngine {
    /** `Math.exp`. */
    const exp: real -> real

    var isProportional: bool
    var proportion: real
    var exponentialFalloff: real
    var linearFalloff: real
    var lineCount: int
    var isHorizontalLines: bool
    var isVerticalLines: bool
    var pointAmount: int
    var horizontalLines: seq<Line>
    var verticalLines: seq<Line>
    var attractors: seq<Vec2>

    ghost function LineObjects(): set<Line>
      reads this
    {
      (set l | l in horizontalLines) + (set l | l in verticalLines)
    }

    /** What displacement reads from the state. */
    function CurrentSetting(): Setting
      reads this
    {
      Setting(exp, lineCount, exponentialFalloff, linearFalloff)
    }

    /** The scalar state a handler can change, for "nothing else changes". */
    function Configuration(): Config
      reads this
    {
      Config(isProportional, proportion, exponentialFalloff, linearFalloff,
             lineCount, isHorizontalLines, isVerticalLines, pointAmount)
    }

    /** The configuration bounds the GUI keeps; the proportional link (while
        isProportional, exponentialFalloff is linearFalloff times
        proportion); attractors, once drawn, number pointAmount and lie
        inside the grid. */
    ghost predicate ValidConfig()
      reads this
    {
      && IsExp(exp) && lineCount >= 2 && pointAmount >= 1
      && (isProportional ==> exponentialFalloff == linearFalloff * proportion)
      && (attractors == [] || |attractors| == pointAmount)
      && InSquare(attractors, lineCount as real)
    }

    /** A line set of the current grid: no line twice, none or lineCount of
        them, each carrying pointAmount + 1 points. */
    ghost predicate WellFormed(lines: seq<Line>)
      reads this, set l | l in lines
    {
      && Distinct(lines)
      && (|lines| == 0 || |lines| == lineCount)
      && forall l :: l in lines ==> IsBuffer(l.position) && |l.position| == 3 * (pointAmount + 1)
    }

    /** The engine invariant. */
    ghost predicate Valid()
      reads this, LineObjects()
    {
      && ValidConfig()
      && WellFormed(horizontalLines) && WellFormed(verticalLines)
      && (forall h, v :: h in horizontalLines && v in verticalLines ==> h != v)
    }

    /** The state right after `resetPattern(); initPattern()`: each enabled
        set is freshly built, visible, and its grid displaced once by the
        current attractors; each disabled set is empty. */
    ghost predicate Rebuilt()
      reads this, LineObjects()
      requires ValidConfig()
    {
      && (isHorizontalLines ==>
            |horizontalLines| == lineCount && (forall l :: l in horizontalLines ==> l.visible) &&
            Positions(horizontalLines) ==
            ApplyEach(GridBuffers(Horizontal, lineCount, pointAmount), attractors, Horizontal, CurrentSetting()))
      && (!isHorizontalLines ==> horizontalLines == [])
      && (isVerticalLines ==>
            |verticalLines| == lineCount && (forall l :: l in verticalLines ==> l.visible) &&
            Positions(verticalLines) ==
            ApplyEach(GridBuffers(Vertical, lineCount, pointAmount), attractors, Vertical, CurrentSetting()))
      && (!isVerticalLines ==> verticalLines == [])
    }

    /** The module-level initial values (src/main.ts:21-29, 41, 49, 65, 81). */
    constructor (exp: real -> real)
      requires IsExp(exp)
      ensures Valid() && this.exp == exp
      ensures Configuration() == Config(true, 0.01 / 4.0, 0.01, 4.0, 200, true, true, 5)
      ensures horizontalLines == [] && verticalLines == [] && attractors == []
    {
      this.exp := exp;
      isProportional := true;
      proportion := 0.01 / 4.0;
      exponentialFalloff := 0.01;
      linearFalloff := 4.0;
      lineCount := 200;
      isHorizontalLines := true;
      isVerticalLines := true;
      pointAmount := 5;
      horizontalLines := [];
      verticalLines := [];
      attractors := [];
    }

    /** `getAttractedLinePoints`: a new buffer as long as the input, filled
        triple by triple; the per-orientation branch of the loop body is
        Attract (src/main.ts:225-263). */
    method GetAttractedLinePoints(linePoints: seq<real>, atractorPoint: Vec2, o: Orientation,
                                  exponentialFalloff: real, linearFalloff: real) returns (newPoints: seq<real>)
      requires IsBuffer(linePoints) && IsExp(exp) && lineCount > 0
      ensures newPoints == Attracted(linePoints, atractorPoint, o, Setting(exp, lineCount, exponentialFalloff, linearFalloff))
      ensures |newPoints| == |linePoints|
    {
      var st := Setting(exp, lineCount, exponentialFalloff, linearFalloff);
      ghost var target := Attracted(linePoints, atractorPoint, o, st);
      var buffer := new real[|linePoints|](_ => 0.0);
      var i := 0;
      ghost var n := 0;
      while i < |linePoints|
        invariant 0 <= i <= |linePoints| && i == 3 * n
        invariant buffer[..i] == target[..i]
      {
        var p := Vec3(linePoints[i], linePoints[i + 1], linePoints[i + 2]);
        var q := Attract(p, atractorPoint, o, st);
        assert PointAt(target, n) == q;
        assert target[i] == q.x && target[i + 1] == q.y && target[i + 2] == q.z;
        ghost var done := buffer[..i];
        buffer[i], buffer[i + 1], buffer[i + 2] := q.x, q.y, q.z;
        assert buffer[..i + 3] == done + [q.x, q.y, q.z];
        assert target[..i + 3] == target[..i] + [q.x, q.y, q.z];
        i, n := i + 3, n + 1;
      }
      newPoints := buffer[..];
      assert buffer[..] == buffer[..i];
      assert target == target[..i];
    }

    /** `createHorizontalLines(amount)` and `createVerticalLines(amount)`:
        `amount` new visible lines, line i the grid line at offset i sampled
        with the current pointAmount (src/main.ts:184-211). */
    method CreateLines(o: Orientation, amount: nat) returns (lines: seq<Line>)
      requires pointAmount >= 1
      ensures |lines| == amount && Distinct(lines)
      ensures forall l :: l in lines ==>
                fresh(l) && l.visible && IsBuffer(l.position) && |l.position| == 3 * (pointAmount + 1)
      ensures Positions(lines) == GridBuffers(o, amount, pointAmount)
    {
      lines := [];
      var i := 0;
      while i < amount
        invariant 0 <= i <= amount && |lines| == i && Distinct(lines)
        invariant forall l :: l in lines ==>
                    fresh(l) && l.visible && IsBuffer(l.position) && |l.position| == 3 * (pointAmount + 1)
        invariant forall k :: 0 <= k < i ==> lines[k].position == GridLine(o, k, amount, pointAmount)
      {
        var line := new Line(GridLine(o, i, amount, pointAmount));
        lines := lines + [line];
        i := i + 1;
      }
    }

    /** `createAtractorpoints(amount)` with the draws of `Math.random()`
        given as `rng` (src/main.ts:213-222). */
    method CreateAttractorPoints(amount: nat, rng: seq<Draw>) returns (points: seq<Vec2>)
      requires amount <= |rng| && ValidDraws(rng) && lineCount >= 0
      ensures points == RandomAttractors(rng, amount, lineCount)
      ensures |points| == amount && InSquare(points, lineCount as real)
    {
      points := [];
      var i := 0;
      while i < amount
        invariant 0 <= i <= amount
        invariant points == RandomAttractors(rng, i, lineCount)
      {
        var x := rng[i].u * lineCount as real;
        var y := rng[i].v * lineCount as real;
        assert Vec2(x, y) == Spread(rng[i], lineCount as real);
        assert RandomAttractors(rng, i + 1, lineCount) == RandomAttractors(rng, i, lineCount) + [Vec2(x, y)];
        points := points + [Vec2(x, y)];
        i := i + 1;
      }
      RandomAttractorsInGrid(rng, amount, lineCount);
    }

    /** One `forEach` of `updatePattern` over a list of lines: each line's
        position replaced by its displaced copy. */
    method AttractLines(lines: seq<Line>, atractorPoint: Vec2, o: Orientation)
      requires Distinct(lines) && AllBuffers(lines) && IsExp(exp) && lineCount > 0
      modifies set l | l in lines
      ensures forall l :: l in lines ==> IsBuffer(l.position) && |l.position| == |old(l.position)|
      ensures Positions(lines) == AttractEach(old(Positions(lines)), atractorPoint, o, CurrentSetting())
      ensures forall l :: l in lines ==> l.visible == old(l.visible)
    {
      var j := 0;
      while j < |lines|
        invariant 0 <= j <= |lines|
        invariant forall k :: 0 <= k < j ==>
                    lines[k].position == Attracted(old(lines[k].position), atractorPoint, o, CurrentSetting())
        invariant forall k :: j <= k < |lines| ==> lines[k].position == old(lines[k].position)
        invariant forall k :: 0 <= k < |lines| ==> lines[k].visible == old(lines[k].visible)
      {
        var line := lines[j];
        assert line in lines;
        var newPoints := GetAttractedLinePoints(line.position, atractorPoint, o, exponentialFalloff, linearFalloff);
        line.position := newPoints;
        j := j + 1;
      }
    }

    /** The body of the outer `forEach` of `updatePattern`: one attractor's
        pass over the horizontal lines, then over the vertical ones. */
    method AttractBoth(hs: seq<Line>, vs: seq<Line>, atractorPoint: Vec2)
      requires Distinct(hs) && Distinct(vs) && AllBuffers(hs) && AllBuffers(vs)
      requires forall h, v :: h in hs && v in vs ==> h != v
      requires IsExp(exp) && lineCount > 0
      modifies (set l | l in hs), (set l | l in vs)
      ensures forall l :: l in hs ==> IsBuffer(l.position) && |l.position| == |old(l.position)|
      ensures forall l :: l in vs ==> IsBuffer(l.position) && |l.position| == |old(l.position)|
      ensures Positions(hs) == AttractEach(old(Positions(hs)), atractorPoint, Horizontal, CurrentSetting())
      ensures Positions(vs) == AttractEach(old(Positions(vs)), atractorPoint, Vertical, CurrentSetting())
      ensures forall l :: l in hs ==> l.visible == old(l.visible)
      ensures forall l :: l in vs ==> l.visible == old(l.visible)
    {
      AttractLines(hs, atractorPoint, Horizontal);
      AttractLines(vs, atractorPoint, Vertical);
    }

    /** `updatePattern`: for each attractor in list order, every horizontal
        and then every vertical line is displaced, each pass consuming the
        previous one's output (src/main.ts:166-183). */
    method UpdatePattern(hs: seq<Line>, vs: seq<Line>, atractorPoints: seq<Vec2>)
      requires Distinct(hs) && Distinct(vs) && AllBuffers(hs) && AllBuffers(vs)
      requires forall h, v :: h in hs && v in vs ==> h != v
      requires IsExp(exp) && lineCount > 0
      modifies (set l | l in hs), (set l | l in vs)
      ensures forall l :: l in hs ==> IsBuffer(l.position) && |l.position| == |old(l.position)|
      ensures forall l :: l in vs ==> IsBuffer(l.position) && |l.position| == |old(l.position)|
      ensures Positions(hs) == ApplyEach(old(Positions(hs)), atractorPoints, Horizontal, CurrentSetting())
      ensures Positions(vs) == ApplyEach(old(Positions(vs)), atractorPoints, Vertical, CurrentSetting())
      ensures forall l :: l in hs ==> l.visible == old(l.visible)
      ensures forall l :: l in vs ==> l.visible == old(l.visible)
    {
      ghost var st := CurrentSetting();
      ghost var hs0, vs0 := Positions(hs), Positions(vs);
      ApplyEachCompose(hs0, [], [], Horizontal, st);
      ApplyEachCompose(vs0, [], [], Vertical, st);
      assert atractorPoints[..0] == [];
      var a := 0;
      while a < |atractorPoints|
        invariant 0 <= a <= |atractorPoints|
        invariant forall l :: l in hs ==> IsBuffer(l.position) && |l.position| == |old(l.position)|
        invariant forall l :: l in vs ==> IsBuffer(l.position) && |l.position| == |old(l.position)|
        invariant Positions(hs) == ApplyEach(hs0, atractorPoints[..a], Horizontal, st)
        invariant Positions(vs) == ApplyEach(vs0, atractorPoints[..a], Vertical, st)
        invariant forall l :: l in hs ==> l.visible == old(l.visible)
        invariant forall l :: l in vs ==> l.visible == old(l.visible)
      {
        ApplyEachStep(hs0, atractorPoints, a, Horizontal, st);
        ApplyEachStep(vs0, atractorPoints, a, Vertical, st);
        AttractBoth(hs, vs, atractorPoints[a]);
        a := a + 1;
      }
      assert atractorPoints[..a] == atractorPoints;
    }

    /** `resetPattern`: both line collections emptied; nothing else changes
        (src/main.ts:154-165). It asks only for a valid configuration, as the
        `lineCount` handler has already rescaled the attractors and changed
        lineCount when it calls it. */
    method ResetPattern()
      requires ValidConfig()
      modifies this
      ensures Valid()
      ensures horizontalLines == [] && verticalLines == []
      ensures attractors == old(attractors) && Configuration() == old(Configuration())
    {
      horizontalLines := [];
      verticalLines := [];
    }

    /** The first branch of `initPattern`: the horizontal set is built from
        the grid only when it is empty and enabled, otherwise it is kept,
        hidden or not. */
    method PrepareHorizontal()
      requires Valid()
      modifies this
      ensures Valid() && Configuration() == old(Configuration())
      ensures verticalLines == old(verticalLines) && attractors == old(attractors)
      ensures old(horizontalLines) == [] && isHorizontalLines ==>
                |horizontalLines| == lineCount && (forall l :: l in horizontalLines ==> fresh(l) && l.visible) &&
                Positions(horizontalLines) == GridBuffers(Horizontal, lineCount, pointAmount)
      ensures !(old(horizontalLines) == [] && isHorizontalLines) ==> horizontalLines == old(horizontalLines)
    {
      if |horizontalLines| == 0 && isHorizontalLines {
        horizontalLines := CreateLines(Horizontal, lineCount);
      }
    }

    /** The second branch of `initPattern`, the same for the vertical set. */
    method PrepareVertical()
      requires Valid()
      modifies this
      ensures Valid() && Configuration() == old(Configuration())
      ensures horizontalLines == old(horizontalLines) && attractors == old(attractors)
      ensures old(verticalLines) == [] && isVerticalLines ==>
                |verticalLines| == lineCount && (forall l :: l in verticalLines ==> fresh(l) && l.visible) &&
                Positions(verticalLines) == GridBuffers(Vertical, lineCount, pointAmount)
      ensures !(old(verticalLines) == [] && isVerticalLines) ==> verticalLines == old(verticalLines)
    {
      if |verticalLines| == 0 && isVerticalLines {
        verticalLines := CreateLines(Vertical, lineCount);
      }
    }

    /** The third branch of `initPattern`: attractors are drawn only when
        there are none. */
    method PrepareAttractors(rng: seq<Draw>)
      requires Valid() && pointAmount <= |rng| && ValidDraws(rng)
      modifies this
      ensures Valid() && Configuration() == old(Configuration())
      ensures horizontalLines == old(horizontalLines) && verticalLines == old(verticalLines)
      ensures attractors == if old(attractors) == [] then RandomAttractors(rng, pointAmount, lineCount) else old(attractors)
    {
      if |attractors| == 0 {
        attractors := CreateAttractorPoints(pointAmount, rng);
      }
    }

    /** The three branches of `initPattern` before its call of
        `updatePattern`. */
    method PrepareState(rng: seq<Draw>)
      requires Valid() && pointAmount <= |rng| && ValidDraws(rng)
      modifies this
      ensures Valid() && Configuration() == old(Configuration())
      ensures attractors == if old(attractors) == [] then RandomAttractors(rng, pointAmount, lineCount) else old(attractors)
      ensures old(horizontalLines) == [] && isHorizontalLines ==>
                |horizontalLines| == lineCount && (forall l :: l in horizontalLines ==> fresh(l) && l.visible) &&
                Positions(horizontalLines) == GridBuffers(Horizontal, lineCount, pointAmount)
      ensures !(old(horizontalLines) == [] && isHorizontalLines) ==> horizontalLines == old(horizontalLines)
      ensures old(verticalLines) == [] && isVerticalLines ==>
                |verticalLines| == lineCount && (forall l :: l in verticalLines ==> fresh(l) && l.visible) &&
                Positions(verticalLines) == GridBuffers(Vertical, lineCount, pointAmount)
      ensures !(old(verticalLines) == [] && isVerticalLines) ==> verticalLines == old(verticalLines)
    {
      PrepareHorizontal();
      PrepareVertical();
      PrepareAttractors(rng);
    }

    /** `updatePattern` applied to the engine's own line sets and
        attractors: every buffer is displaced by every attractor, in order,
        and nothing but the buffers changes. */
    method Displace()
      requires Valid()
      modifies LineObjects()
      ensures Valid()
      ensures Positions(horizontalLines) ==
              ApplyEach(old(Positions(horizontalLines)), attractors, Horizontal, CurrentSetting())
      ensures Positions(verticalLines) ==
              ApplyEach(old(Positions(verticalLines)), attractors, Vertical, CurrentSetting())
      ensures forall l :: l in horizontalLines ==> l.visible == old(l.visible)
      ensures forall l :: l in verticalLines ==> l.visible == old(l.visible)
    {
      UpdatePattern(horizontalLines, verticalLines, attractors);
    }

    /** `initPattern` (src/main.ts:121-153): the preparation above, then
        `updatePattern` over both sets with every attractor. A reused set is
        displaced again on top of its current buffers. */
    method InitPattern(rng: seq<Draw>)
      requires Valid() && pointAmount <= |rng| && ValidDraws(rng)
      modifies this, LineObjects()
      ensures Valid() && Configuration() == old(Configuration())
      ensures attractors == if old(attractors) == [] then RandomAttractors(rng, pointAmount, lineCount) else old(attractors)
      ensures old(horizontalLines) == [] && isHorizontalLines ==>
                |horizontalLines| == lineCount && (forall l :: l in horizontalLines ==> fresh(l) && l.visible) &&
                Positions(horizontalLines) ==
                ApplyEach(GridBuffers(Horizontal, lineCount, pointAmount), attractors, Horizontal, CurrentSetting())
      ensures !(old(horizontalLines) == [] && isHorizontalLines) ==>
                horizontalLines == old(horizontalLines) &&
                Positions(horizontalLines) == ApplyEach(old(Positions(horizontalLines)), attractors, Horizontal, CurrentSetting()) &&
                forall l :: l in horizontalLines ==> l.visible == old(l.visible)
      ensures old(verticalLines) == [] && isVerticalLines ==>
                |verticalLines| == lineCount && (forall l :: l in verticalLines ==> fresh(l) && l.visible) &&
                Positions(verticalLines) ==
                ApplyEach(GridBuffers(Vertical, lineCount, pointAmount), attractors, Vertical, CurrentSetting())
      ensures !(old(verticalLines) == [] && isVerticalLines) ==>
                verticalLines == old(verticalLines) &&
                Positions(verticalLines) == ApplyEach(old(Positions(verticalLines)), attractors, Vertical, CurrentSetting()) &&
                forall l :: l in verticalLines ==> l.visible == old(l.visible)
    {
      PrepareState(rng);
      Displace();
    }

    /** `resetPattern(); initPattern()`, the tail of most handlers: the
        enabled sets are rebuilt from the grid and displaced once by the
        attractors, reused or drawn. */
    method Rebuild(rng: seq<Draw>)
      requires ValidConfig() && pointAmount <= |rng| && ValidDraws(rng)
      modifies this
      ensures Valid() && Rebuilt() && Configuration() == old(Configuration())
      ensures attractors == if old(attractors) == [] then RandomAttractors(rng, pointAmount, lineCount) else old(attractors)
      ensures forall l :: l in horizontalLines ==> fresh(l)
      ensures forall l :: l in verticalLines ==> fresh(l)
    {
      ResetPattern();
      InitPattern(rng);
    }

    /** The `forEach` of the `lineCount` handler: each attractor's
        coordinates multiplied by `factor`, one point at a time. */
    method ScaleAttractors(factor: real)
      modifies this
      ensures attractors == Scaled(old(attractors), factor)
      ensures Configuration() == old(Configuration())
      ensures horizontalLines == old(horizontalLines) && verticalLines == old(verticalLines)
    {
      ghost var ps := attractors;
      var k := 0;
      while k < |attractors|
        invariant 0 <= k <= |attractors| && |attractors| == |ps|
        invariant forall j :: 0 <= j < k ==> attractors[j] == Vec2(ps[j].x * factor, ps[j].y * factor)
        invariant forall j :: k <= j < |attractors| ==> attractors[j] == ps[j]
        invariant Configuration() == old(Configuration())
        invariant horizontalLines == old(horizontalLines) && verticalLines == old(verticalLines)
      {
        var point := attractors[k];
        attractors := attractors[k := Vec2(point.x * factor, point.y * factor)];
        k := k + 1;
      }
      assert forall j :: 0 <= j < |ps| ==> attractors[j] == Scaled(ps, factor)[j];
    }

    /** The `lineCount` handler (src/main.ts:31-40): the attractors keep
        their number and are rescaled by value / lineCount, so they stay
        inside the new grid; then the pattern is rebuilt. */
    method OnLineCountChange(value: int, rng: seq<Draw>)
      requires Valid() && value >= 2 && pointAmount <= |rng| && ValidDraws(rng)
      modifies this
      ensures Valid() && Rebuilt()
      ensures Configuration() == old(Configuration()).(lineCount := value)
      ensures attractors == if old(attractors) == [] then RandomAttractors(rng, pointAmount, value)
                            else Scaled(old(attractors), value as real / old(lineCount) as real)
      ensures forall l :: l in horizontalLines ==> fresh(l)
      ensures forall l :: l in verticalLines ==> fresh(l)
    {
      var scale := value as real / lineCount as real;
      ScaledStaysInGrid(attractors, lineCount, value);
      lineCount := value;
      ScaleAttractors(scale);
      Rebuild(rng);
    }

    /** The `pointAmount` handler (src/main.ts:43-48): the attractors are
        dropped, so the rebuild draws exactly value new ones. */
    method OnPointAmountChange(value: int, rng: seq<Draw>)
      requires Valid() && value >= 1 && value <= |rng| && ValidDraws(rng)
      modifies this
      ensures Valid() && Rebuilt()
      ensures Configuration() == old(Configuration()).(pointAmount := value)
      ensures attractors == RandomAttractors(rng, value, lineCount)
      ensures forall l :: l in horizontalLines ==> fresh(l)
      ensures forall l :: l in verticalLines ==> fresh(l)
    {
      pointAmount := value;
      attractors := [];
      Rebuild(rng);
    }

    /** `refresh` (src/main.ts:389-394): new attractors, rebuilt pattern. */
    method Refresh(rng: seq<Draw>)
      requires Valid() && pointAmount <= |rng| && ValidDraws(rng)
      modifies this
      ensures Valid() && Rebuilt() && Configuration() == old(Configuration())
      ensures attractors == RandomAttractors(rng, pointAmount, lineCount)
      ensures forall l :: l in horizontalLines ==> fresh(l)
      ensures forall l :: l in verticalLines ==> fresh(l)
    {
      attractors := [];
      Rebuild(rng);
    }

    /** The assignments of the `exponentialFalloff` handler: the new value,
        and under the proportional link the linear factor that keeps the
        ratio. */
    method SetExponentialFalloff(value: real)
      requires ValidConfig() && (isProportional ==> proportion != 0.0)
      modifies this
      ensures ValidConfig()
      ensures Configuration() == old(Configuration()).(exponentialFalloff := value,
                linearFalloff := if old(isProportional) then value / old(proportion) else old(linearFalloff))
      ensures horizontalLines == old(horizontalLines) && verticalLines == old(verticalLines)
      ensures attractors == old(attractors)
    {
      exponentialFalloff := value;
      if isProportional {
        linearFalloff := exponentialFalloff / proportion;
        assert exponentialFalloff == linearFalloff * proportion;
      }
    }

    /** The assignments of the `linearFalloff` handler: the new value, and
        under the proportional link the exponential factor that keeps the
        ratio. */
    method SetLinearFalloff(value: real)
      requires ValidConfig()
      modifies this
      ensures ValidConfig()
      ensures Configuration() == old(Configuration()).(linearFalloff := value,
                exponentialFalloff := if old(isProportional) then value * old(proportion) else old(exponentialFalloff))
      ensures horizontalLines == old(horizontalLines) && verticalLines == old(verticalLines)
      ensures attractors == old(attractors)
    {
      linearFalloff := value;
      if isProportional {
        exponentialFalloff := linearFalloff * proportion;
      }
    }

    /** The `exponentialFalloff` handler (src/main.ts:82-90): under the
        proportional link linearFalloff follows as value / proportion,
        otherwise it is left alone; the attractors are kept. */
    method OnExponentialFalloffChange(value: real, rng: seq<Draw>)
      requires Valid() && (isProportional ==> proportion != 0.0) && pointAmount <= |rng| && ValidDraws(rng)
      modifies this
      ensures Valid() && Rebuilt()
      ensures Configuration() == old(Configuration()).(exponentialFalloff := value,
                linearFalloff := if old(isProportional) then value / old(proportion) else old(linearFalloff))
      ensures attractors == if old(attractors) == [] then RandomAttractors(rng, pointAmount, lineCount) else old(attractors)
      ensures forall l :: l in horizontalLines ==> fresh(l)
      ensures forall l :: l in verticalLines ==> fresh(l)
    {
      SetExponentialFalloff(value);
      Rebuild(rng);
    }

    /** The `linearFalloff` handler (src/main.ts:91-99): under the
        proportional link exponentialFalloff follows as value * proportion,
        otherwise it is left alone; the attractors are kept. */
    method OnLinearFalloffChange(value: real, rng: seq<Draw>)
      requires Valid() && pointAmount <= |rng| && ValidDraws(rng)
      modifies this
      ensures Valid() && Rebuilt()
      ensures Configuration() == old(Configuration()).(linearFalloff := value,
                exponentialFalloff := if isProportional then value * proportion else old(exponentialFalloff))
      ensures attractors == if old(attractors) == [] then RandomAttractors(rng, pointAmount, lineCount) else old(attractors)
      ensures forall l :: l in horizontalLines ==> fresh(l)
      ensures forall l :: l in verticalLines ==> fresh(l)
    {
      SetLinearFalloff(value);
      ghost var cfg := Configuration();
      ghost var kept := attractors;
      Rebuild(rng);
      assert Configuration() == cfg;
      assert attractors == if kept == [] then RandomAttractors(rng, pointAmount, lineCount) else kept;
    }

    /** The `isProportional` handler (src/main.ts:100-105): switching the
        link on fixes proportion to the current ratio; nothing is redrawn. */
    method OnProportionalChange(value: bool)
      requires Valid() && (value ==> linearFalloff != 0.0)
      modifies this
      ensures Valid()
      ensures Configuration() == old(Configuration()).(isProportional := value,
                proportion := if value then old(exponentialFalloff) / old(linearFalloff) else old(proportion))
      ensures horizontalLines == old(horizontalLines) && verticalLines == old(verticalLines)
      ensures attractors == old(attractors)
    {
      isProportional := value;
      if isProportional {
        proportion := exponentialFalloff / linearFalloff;
      }
    }

    /** The first half of the `horizontal` handler: the flag follows the
        checkbox and every existing horizontal line is shown or hidden. */
    method ShowHorizontal(value: bool)
      requires Valid()
      modifies this, set l | l in horizontalLines
      ensures Valid() && Configuration() == old(Configuration()).(isHorizontalLines := value)
      ensures horizontalLines == old(horizontalLines) && verticalLines == old(verticalLines)
      ensures attractors == old(attractors)
      ensures forall l :: l in horizontalLines ==> l.visible == value && l.position == old(l.position)
      ensures forall l :: l in verticalLines ==> l.visible == old(l.visible) && l.position == old(l.position)
    {
      isHorizontalLines := value;
      SetVisible(horizontalLines, value);
    }

    /** The `horizontal` handler (src/main.ts:51-64): the flag follows the
        checkbox and the existing lines are shown or hidden; switching on
        also runs `initPattern` WITHOUT a reset, so lines that already exist
        (of both sets) are displaced once more on top of their current
        buffers. */
    method OnHorizontalChange(value: bool, rng: seq<Draw>)
      requires Valid() && pointAmount <= |rng| && ValidDraws(rng)
      modifies this, LineObjects()
      ensures Valid() && Configuration() == old(Configuration()).(isHorizontalLines := value)
      ensures !value ==>
                horizontalLines == old(horizontalLines) && verticalLines == old(verticalLines) &&
                attractors == old(attractors) &&
                (forall l :: l in horizontalLines ==> !l.visible && l.position == old(l.position)) &&
                (forall l :: l in verticalLines ==> l.visible == old(l.visible) && l.position == old(l.position))
      ensures value ==>
                attractors == if old(attractors) == [] then RandomAttractors(rng, pointAmount, lineCount) else old(attractors)
      ensures value && old(horizontalLines) == [] ==>
                |horizontalLines| == lineCount && (forall l :: l in horizontalLines ==> fresh(l) && l.visible) &&
                Positions(horizontalLines) ==
                ApplyEach(GridBuffers(Horizontal, lineCount, pointAmount), attractors, Horizontal, CurrentSetting())
      ensures value && old(horizontalLines) != [] ==>
                horizontalLines == old(horizontalLines) && (forall l :: l in horizontalLines ==> l.visible) &&
                Positions(horizontalLines) == ApplyEach(old(Positions(horizontalLines)), attractors, Horizontal, CurrentSetting())
      ensures value && !(old(verticalLines) == [] && isVerticalLines) ==>
                verticalLines == old(verticalLines) &&
                (forall l :: l in verticalLines ==> l.visible == old(l.visible)) &&
                Positions(verticalLines) == ApplyEach(old(Positions(verticalLines)), attractors, Vertical, CurrentSetting())
      ensures forall l :: l in LineObjects() ==> l in old(LineObjects()) || fresh(l)
    {
      ShowHorizontal(value);
      if value {
        InitPattern(rng);
      }
    }

    /** The first half of the `vertical` handler: the flag follows the
        checkbox and every existing vertical line is shown or hidden. */
    method ShowVertical(value: bool)
      requires Valid()
      modifies this, set l | l in verticalLines
      ensures Valid() && Configuration() == old(Configuration()).(isVerticalLines := value)
      ensures horizontalLines == old(horizontalLines) && verticalLines == old(verticalLines)
      ensures attractors == old(attractors)
      ensures forall l :: l in verticalLines ==> l.visible == value && l.position == old(l.position)
      ensures forall l :: l in horizontalLines ==> l.visible == old(l.visible) && l.position == old(l.position)
    {
      isVerticalLines := value;
      SetVisible(verticalLines, value);
    }

    /** The `vertical` handler (src/main.ts:67-80), the same for the
        vertical set. */
    method OnVerticalChange(value: bool, rng: seq<Draw>)
      requires Valid() && pointAmount <= |rng| && ValidDraws(rng)
      modifies this, LineObjects()
      ensures Valid() && Configuration() == old(Configuration()).(isVerticalLines := value)
      ensures !value ==>
                horizontalLines == old(horizontalLines) && verticalLines == old(verticalLines) &&
                attractors == old(attractors) &&
                (forall l :: l in verticalLines ==> !l.visible && l.position == old(l.position)) &&
                (forall l :: l in horizontalLines ==> l.visible == old(l.visible) && l.position == old(l.position))
      ensures value ==>
                attractors == if old(attractors) == [] then RandomAttractors(rng, pointAmount, lineCount) else old(attractors)
      ensures value && old(verticalLines) == [] ==>
                |verticalLines| == lineCount && (forall l :: l in verticalLines ==> fresh(l) && l.visible) &&
                Positions(verticalLines) ==
                ApplyEach(GridBuffers(Vertical, lineCount, pointAmount), attractors, Vertical, CurrentSetting())
      ensures value && old(verticalLines) != [] ==>
                verticalLines == old(verticalLines) && (forall l :: l in verticalLines ==> l.visible) &&
                Positions(verticalLines) == ApplyEach(old(Positions(verticalLines)), attractors, Vertical, CurrentSetting())
      ensures value && !(old(horizontalLines) == [] && isHorizontalLines) ==>
                horizontalLines == old(horizontalLines) &&
                (forall l :: l in horizontalLines ==> l.visible == old(l.visible)) &&
                Positions(horizontalLines) == ApplyEach(old(Positions(horizontalLines)), attractors, Horizontal, CurrentSetting())
      ensures forall l :: l in LineObjects() ==> l in old(LineObjects()) || fresh(l)
    {
      ShowVertical(value);
      if value {
        InitPattern(rng);
      }
    }

    /** The DOM-free part of `exportLinesAsSVG` (src/main.ts:306-377):
        bounds over every line, hidden or not, and one polyline per visible
        line, horizontal lines first. */
    method ExportLinesAsSVG(fmt: real -> string) returns (doc: SvgDocument)
      requires Valid()
      ensures doc == ExportDocument(fmt, Positions(horizontalLines), Visibility(horizontalLines),
                                    Positions(verticalLines), Visibility(verticalLines))
    {
      doc := ExportLines(fmt, horizontalLines, verticalLines);
    }
  }

  /** Start-up (src/main.ts:403-404): the initial values, then one
      `initPattern`, which builds both grids of 200 lines and draws the
      five attractors. */
  method Startup(exp: real -> real, rng: seq<Draw>) returns (e: PatternEngine)
    requires IsExp(exp) && 5 <= |rng| && ValidDraws(rng)
    ensures fresh(e) && e.Valid() && e.Rebuilt()
    ensures e.Configuration() == Config(true, 0.01 / 4.0, 0.01, 4.0, 200, true, true, 5)
    ensures e.attractors == RandomAttractors(rng, 5, 200)
    ensures |e.horizontalLines| == 200 && |e.verticalLines| == 200
    ensures forall l :: l in e.horizontalLines ==> fresh(l)
    ensures forall l :: l in e.verticalLines ==> fresh(l)
  {
    e := new PatternEngine(exp);
    e.InitPattern(rng);
  }

  /** The page loads, then the horizontal checkbox is cleared and ticked
      again: the same horizontal line objects come back into view, and
      their grid is now displaced by the startup attractors twice over. */
  method ReEnableHorizontal(exp: real -> real, rng: seq<Draw>) returns (e: PatternEngine)
    requires IsExp(exp) && 5 <= |rng| && ValidDraws(rng)
    ensures fresh(e) && e.Valid() && e.isHorizontalLines
    ensures e.attractors == RandomAttractors(rng, 5, 200)
    ensures |e.horizontalLines| == 200 && forall l :: l in e.horizontalLines ==> l.visible
    ensures Positions(e.horizontalLines) ==
            ApplyEach(GridBuffers(Horizontal, 200, 5), e.attractors + e.attractors, Horizontal, e.CurrentSetting())
  {
    e := Startup(exp, rng);
    ghost var built := Positions(e.horizontalLines);
    e.OnHorizontalChange(false, rng);
    assert Positions(e.horizontalLines) == built;
    e.OnHorizontalChange(true, rng);
    ApplyEachCompose(GridBuffers(Horizontal, 200, 5), e.attractors, e.attractors, Horizontal, e.CurrentSetting());
  }
}
