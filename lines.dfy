/** A drawn line (`THREE.Line`) as far as the engine uses it: the flat
    position buffer of its geometry and its visibility flag. */
module Lines {
  import opened Geometry

  class Line {
    /** The geometry's `position` attribute. The engine never edits a buffer
        in place: it replaces the attribute with a new one, so the field
        holds a value and is reassigned. */
    var position: seq<real>
    var visible: bool

    /** A new line is visible, as three.js objects are. */
    constructor (position: seq<real>)
      ensures this.position == position && visible
    {
      this.position := position;
      visible := true;
    }
  }

  /** The position buffers of a list of lines, in order. */
  ghost function Positions(lines: seq<Line>): (ps: seq<seq<real>>)
    reads set l | l in lines
    ensures |ps| == |lines| && forall i :: 0 <= i < |lines| ==> ps[i] == lines[i].position
  {
    seq(|lines|, i requires 0 <= i < |lines| reads set l | l in lines => lines[i].position)
  }

  /** The visibility flags of a list of lines, in order. */
  ghost function Visibility(lines: seq<Line>): (vs: seq<bool>)
    reads set l | l in lines
    ensures |vs| == |lines| && forall i :: 0 <= i < |lines| ==> vs[i] == lines[i].visible
  {
    seq(|lines|, i requires 0 <= i < |lines| reads set l | l in lines => lines[i].visible)
  }

  /** No line occurs twice in the list. */
  ghost predicate Distinct(lines: seq<Line>) {
    forall i, j :: 0 <= i < j < |lines| ==> lines[i] != lines[j]
  }

  /** Every line carries a whole number of points. */
  ghost predicate AllBuffers(lines: seq<Line>)
    reads set l | l in lines
  {
    forall l :: l in lines ==> IsBuffer(l.position)
  }

  /** The visibility loop of the `horizontal` and `vertical` handlers: every
      line of the list shown or hidden, its buffer untouched. */
  method SetVisible(lines: seq<Line>, visible: bool)
    modifies set l | l in lines
    ensures forall l :: l in lines ==> l.visible == visible && l.position == old(l.position)
  {
    var j := 0;
    while j < |lines|
      invariant 0 <= j <= |lines|
      invariant forall k :: 0 <= k < j ==> lines[k].visible == visible
      invariant forall l :: l in lines ==> l.position == old(l.position)
    {
      lines[j].visible := visible;
      j := j + 1;
    }
  }

  /** The buffers of two lists one after the other are the buffers of the
      concatenated list. */
  lemma PositionsAppend(hs: seq<Line>, vs: seq<Line>)
    ensures Positions(hs + vs) == Positions(hs) + Positions(vs)
  {
  }
}
