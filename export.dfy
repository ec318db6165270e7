/** The DOM-free part of `exportLinesAsSVG`: which lines become polylines,
    the text of each polyline's `points` attribute, and the viewBox, width
    and height arithmetic. The document is an abstract value; building DOM
    nodes, serialising and downloading are not modelled. */
module Export {
  import opened Geometry
  import opened Lines
  import opened Bounds

  /** The margin added to the content size for the viewBox. */
  const Margin: real := 100.0
  /** `multiplyer`: the scale applied to every exported coordinate. */
  const Multiplier: real := 1.0

  datatype ViewBox = ViewBox(minX: real, minY: real, width: real, height: real)

  /** A `polyline` element; stroke, stroke width and fill are fixed. */
  datatype Polyline = Polyline(points: string, stroke: string, strokeWidth: string, fill: string)

  datatype SvgDocument = SvgDocument(viewBox: ViewBox, width: real, height: real, polylines: seq<Polyline>)

  /** The viewBox: the content box, centred, grown by Margin. Whatever the
      bounds, it is the content box padded by Margin / 2 on every side. */
  function ViewBoxOf(b: BoundsXY): (vb: ViewBox)
    ensures vb.minX == b.minx - Margin / 2.0 && vb.minX + vb.width == b.maxx + Margin / 2.0
    ensures vb.minY == b.miny - Margin / 2.0 && vb.minY + vb.height == b.maxy + Margin / 2.0
  {
    var contentWidth := b.maxx - b.minx;
    var contentHeight := b.maxy - b.miny;
    var centerX := (b.minx + b.maxx) / 2.0;
    var centerY := (b.miny + b.maxy) / 2.0;
    var viewBoxWidth := contentWidth + Margin;
    var viewBoxHeight := contentHeight + Margin;
    ViewBox(centerX - viewBoxWidth / 2.0, centerY - viewBoxHeight / 2.0, viewBoxWidth, viewBoxHeight)
  }

  /** The token one point contributes to `points`: "x,y " with the
      coordinates printed by `fmt` (JavaScript number printing). */
  function Token(fmt: real -> string, p: Vec3): (t: string)
    ensures |t| >= 2 && t[|t| - 1] == ' ' && ',' in t
  {
    fmt(p.x * Multiplier) + "," + fmt(p.y * Multiplier) + " "
  }

  /** The `points` attribute of a line: its tokens, in order. */
  function PointsText(fmt: real -> string, ps: seq<Vec3>): string {
    if |ps| == 0 then "" else PointsText(fmt, ps[..|ps| - 1]) + Token(fmt, ps[|ps| - 1])
  }

  function MakePolyline(fmt: real -> string, s: seq<real>): Polyline
    requires IsBuffer(s)
  {
    Polyline(PointsText(fmt, Points(s)), "black", "1", "none")
  }

  /** The polylines for a list of lines: one per visible line, in order,
      hidden lines skipped. */
  function PolylinesOf(fmt: real -> string, bs: seq<seq<real>>, vis: seq<bool>): seq<Polyline>
    requires |bs| == |vis| && forall k :: 0 <= k < |bs| ==> IsBuffer(bs[k])
  {
    if |bs| == 0 then []
    else
      var rest := PolylinesOf(fmt, bs[..|bs| - 1], vis[..|vis| - 1]);
      if vis[|vis| - 1] then rest + [MakePolyline(fmt, bs[|bs| - 1])] else rest
  }

  /** The document `exportLinesAsSVG` builds: bounds taken over ALL lines,
      hidden ones included; polylines for the visible ones, horizontal lines
      first. */
  function ExportDocument(fmt: real -> string, hb: seq<seq<real>>, hv: seq<bool>,
                          vb: seq<seq<real>>, vv: seq<bool>): SvgDocument
    requires |hb| == |hv| && forall k :: 0 <= k < |hb| ==> IsBuffer(hb[k])
    requires |vb| == |vv| && forall k :: 0 <= k < |vb| ==> IsBuffer(vb[k])
  {
    var b := BoundsOf(hb + vb);
    SvgDocument(ViewBoxOf(b), b.boundsX, b.boundsY, PolylinesOf(fmt, hb, hv) + PolylinesOf(fmt, vb, vv))
  }

  /** The number of true flags. */
  function CountTrue(vis: seq<bool>): nat {
    if |vis| == 0 then 0 else CountTrue(vis[..|vis| - 1]) + (if vis[|vis| - 1] then 1 else 0)
  }

  /** The number of occurrences of `c` in `s`. */
  function Occurrences(c: char, s: string): nat {
    if |s| == 0 then 0 else Occurrences(c, s[..|s| - 1]) + (if s[|s| - 1] == c then 1 else 0)
  }

  lemma {:induction false} OccurrencesAppend(c: char, s: string, t: string)
    ensures Occurrences(c, s + t) == Occurrences(c, s) + Occurrences(c, t)
    decreases |t|
  {
    if |t| == 0 {
      assert s + t == s;
    } else {
      assert (s + t)[..|s + t| - 1] == s + t[..|t| - 1];
      OccurrencesAppend(c, s, t[..|t| - 1]);
    }
  }

  /** One "x,y " token per point: when printed numbers hold no blank and no
      comma, the `points` text of n points holds exactly n blanks and n
      commas, and it ends in a blank unless it is empty. */
  lemma {:induction false} PointsTextTokens(fmt: real -> string, ps: seq<Vec3>)
    requires forall x :: ' ' !in fmt(x) && ',' !in fmt(x)
    ensures Occurrences(' ', PointsText(fmt, ps)) == |ps|
    ensures Occurrences(',', PointsText(fmt, ps)) == |ps|
    ensures |ps| > 0 <==> |PointsText(fmt, ps)| > 0
    ensures |ps| > 0 ==> PointsText(fmt, ps)[|PointsText(fmt, ps)| - 1] == ' '
  {
    if |ps| > 0 {
      var p := ps[|ps| - 1];
      var head := PointsText(fmt, ps[..|ps| - 1]);
      PointsTextTokens(fmt, ps[..|ps| - 1]);
      var fx, fy := fmt(p.x * Multiplier), fmt(p.y * Multiplier);
      NoOccurrences(' ', fx);
      NoOccurrences(' ', fy);
      NoOccurrences(',', fx);
      NoOccurrences(',', fy);
      assert Token(fmt, p) == fx + "," + fy + " ";
      OccurrencesAppend(' ', head, fx + "," + fy + " ");
      OccurrencesAppend(',', head, fx + "," + fy + " ");
      OccurrencesAppend(' ', fx + "," + fy, " ");
      OccurrencesAppend(',', fx + "," + fy, " ");
      OccurrencesAppend(' ', fx + ",", fy);
      OccurrencesAppend(',', fx + ",", fy);
      OccurrencesAppend(' ', fx, ",");
      OccurrencesAppend(',', fx, ",");
    }
  }

  lemma {:induction false} NoOccurrences(c: char, s: string)
    requires c !in s
    ensures Occurrences(c, s) == 0
  {
    if |s| > 0 {
      assert forall k :: 0 <= k < |s| - 1 ==> s[..|s| - 1][k] == s[k];
      NoOccurrences(c, s[..|s| - 1]);
    }
  }

  /** One polyline per visible line: hidden lines are dropped, visible ones
      kept in order, and the two groups concatenate. */
  lemma {:induction false} PolylinesOfCount(fmt: real -> string, bs: seq<seq<real>>, vis: seq<bool>)
    requires |bs| == |vis| && forall k :: 0 <= k < |bs| ==> IsBuffer(bs[k])
    ensures |PolylinesOf(fmt, bs, vis)| == CountTrue(vis)
    ensures (forall k :: 0 <= k < |vis| ==> !vis[k]) ==> PolylinesOf(fmt, bs, vis) == []
    ensures (forall k :: 0 <= k < |vis| ==> vis[k]) ==>
      PolylinesOf(fmt, bs, vis) == seq(|bs|, k requires 0 <= k < |bs| => MakePolyline(fmt, bs[k]))
  {
    if |bs| > 0 {
      var n := |bs| - 1;
      PolylinesOfCount(fmt, bs[..n], vis[..n]);
      if forall k :: 0 <= k < |vis| ==> vis[k] {
        assert forall k :: 0 <= k < n ==> vis[..n][k];
      }
      if forall k :: 0 <= k < |vis| ==> !vis[k] {
        assert forall k :: 0 <= k < n ==> !vis[..n][k];
      }
    }
  }

  /** What the export promises about its document: width and height are
      the content spans and the viewBox is 100 wider and higher; the viewBox
      holds the origin and every point of every line, visible or not, with
      half a margin to spare; and it holds one polyline per visible line. */
  lemma ExportDocumentSpec(fmt: real -> string, hb: seq<seq<real>>, hv: seq<bool>,
                           vb: seq<seq<real>>, vv: seq<bool>)
    requires |hb| == |hv| && forall k :: 0 <= k < |hb| ==> IsBuffer(hb[k])
    requires |vb| == |vv| && forall k :: 0 <= k < |vb| ==> IsBuffer(vb[k])
    ensures var doc := ExportDocument(fmt, hb, hv, vb, vv);
      doc.width >= 0.0 && doc.height >= 0.0 &&
      doc.viewBox.width == doc.width + Margin && doc.viewBox.height == doc.height + Margin
    ensures var doc := ExportDocument(fmt, hb, hv, vb, vv);
      var all := hb + vb;
      forall k, i :: 0 <= k < |all| && 0 <= i < PointCount(all[k]) ==>
        doc.viewBox.minX + Margin / 2.0 <= PointAt(all[k], i).x <= doc.viewBox.minX + doc.viewBox.width - Margin / 2.0 &&
        doc.viewBox.minY + Margin / 2.0 <= PointAt(all[k], i).y <= doc.viewBox.minY + doc.viewBox.height - Margin / 2.0
    ensures var doc := ExportDocument(fmt, hb, hv, vb, vv);
      doc.viewBox.minX + Margin / 2.0 <= 0.0 <= doc.viewBox.minX + doc.viewBox.width - Margin / 2.0 &&
      doc.viewBox.minY + Margin / 2.0 <= 0.0 <= doc.viewBox.minY + doc.viewBox.height - Margin / 2.0
    ensures |ExportDocument(fmt, hb, hv, vb, vv).polylines| == CountTrue(hv) + CountTrue(vv)
  {
    var all := hb + vb;
    var b := BoundsOf(all);
    BoundsOfSpec(all);
    var doc := ExportDocument(fmt, hb, hv, vb, vv);
    assert doc.viewBox == ViewBoxOf(b) && doc.width == b.boundsX && doc.height == b.boundsY;
    assert doc.polylines == PolylinesOf(fmt, hb, hv) + PolylinesOf(fmt, vb, vv);
    PolylinesOfCount(fmt, hb, hv);
    PolylinesOfCount(fmt, vb, vv);
  }

  /** With every line hidden the document has no polyline, yet its viewBox
      still spans the hidden lines. */
  lemma ExportAllHidden(fmt: real -> string, hb: seq<seq<real>>, hv: seq<bool>,
                        vb: seq<seq<real>>, vv: seq<bool>)
    requires |hb| == |hv| && forall k :: 0 <= k < |hb| ==> IsBuffer(hb[k])
    requires |vb| == |vv| && forall k :: 0 <= k < |vb| ==> IsBuffer(vb[k])
    requires forall k :: 0 <= k < |hv| ==> !hv[k]
    requires forall k :: 0 <= k < |vv| ==> !vv[k]
    ensures ExportDocument(fmt, hb, hv, vb, vv).polylines == []
    ensures ExportDocument(fmt, hb, hv, vb, vv).viewBox.width >= Margin
    ensures ExportDocument(fmt, hb, hv, vb, vv).viewBox.height >= Margin
    ensures var doc := ExportDocument(fmt, hb, hv, vb, vv);
      var all := hb + vb;
      forall k, i :: 0 <= k < |all| && 0 <= i < PointCount(all[k]) ==>
        doc.viewBox.minX + Margin / 2.0 <= PointAt(all[k], i).x <= doc.viewBox.minX + doc.viewBox.width - Margin / 2.0 &&
        doc.viewBox.minY + Margin / 2.0 <= PointAt(all[k], i).y <= doc.viewBox.minY + doc.viewBox.height - Margin / 2.0
  {
    var doc := ExportDocument(fmt, hb, hv, vb, vv);
    PolylinesOfCount(fmt, hb, hv);
    PolylinesOfCount(fmt, vb, vv);
    assert doc.polylines == [] + [];
    ExportDocumentSpec(fmt, hb, hv, vb, vv);
  }

  /** The `points` string of one line (src/main.ts:346-351): one token
      appended per triple. */
  method BuildPointsString(fmt: real -> string, linePoints: seq<real>) returns (pointsString: string)
    requires IsBuffer(linePoints)
    ensures pointsString == PointsText(fmt, Points(linePoints))
  {
    pointsString := "";
    var i := 0;
    while i < |linePoints|
      invariant 0 <= i <= |linePoints| && i % 3 == 0
      invariant pointsString == PointsText(fmt, Points(linePoints)[..i / 3])
    {
      var x := linePoints[i];
      var y := linePoints[i + 1];
      assert Points(linePoints)[..i / 3 + 1][..i / 3] == Points(linePoints)[..i / 3];
      pointsString := pointsString + fmt(x * Multiplier) + "," + fmt(y * Multiplier) + " ";
      i := i + 3;
    }
    assert Points(linePoints)[..i / 3] == Points(linePoints);
  }

  /** One `forEach` of the export over a list of lines: hidden lines are
      skipped, each visible one appends its polyline. */
  method AppendPolylines(fmt: real -> string, lines: seq<Line>, acc: seq<Polyline>) returns (out: seq<Polyline>)
    requires AllBuffers(lines)
    ensures out == acc + PolylinesOf(fmt, Positions(lines), Visibility(lines))
  {
    ghost var bs, vis := Positions(lines), Visibility(lines);
    out := acc;
    var j := 0;
    while j < |lines|
      invariant 0 <= j <= |lines|
      invariant out == acc + PolylinesOf(fmt, bs[..j], vis[..j])
    {
      assert bs[..j + 1][..j] == bs[..j] && vis[..j + 1][..j] == vis[..j];
      var line := lines[j];
      if line.visible {
        var pointsString := BuildPointsString(fmt, line.position);
        out := out + [Polyline(pointsString, "black", "1", "none")];
      }
      j := j + 1;
    }
    assert bs[..j] == bs && vis[..j] == vis;
  }

  /** The two `forEach` loops of the export: the horizontal lines' polylines,
      then the vertical lines'. */
  method BuildPolylines(fmt: real -> string, hs: seq<Line>, vs: seq<Line>) returns (polylines: seq<Polyline>)
    requires AllBuffers(hs) && AllBuffers(vs)
    ensures polylines == PolylinesOf(fmt, Positions(hs), Visibility(hs)) + PolylinesOf(fmt, Positions(vs), Visibility(vs))
  {
    polylines := AppendPolylines(fmt, hs, []);
    assert polylines == PolylinesOf(fmt, Positions(hs), Visibility(hs));
    polylines := AppendPolylines(fmt, vs, polylines);
  }

  /** The DOM-free part of `exportLinesAsSVG` on two line lists: bounds
      over every line, hidden or not, and one polyline per visible line,
      horizontal lines first. */
  method ExportLines(fmt: real -> string, hs: seq<Line>, vs: seq<Line>) returns (doc: SvgDocument)
    requires AllBuffers(hs) && AllBuffers(vs)
    ensures doc == ExportDocument(fmt, Positions(hs), Visibility(hs), Positions(vs), Visibility(vs))
  {
    PositionsAppend(hs, vs);
    var b := GetBoundsXY(hs + vs);
    doc := AssembleDocument(fmt, b, hs, vs);
  }

  /** The rest of the export once the bounds are known: the viewBox, width
      and height from the bounds, then the polylines. */
  method AssembleDocument(fmt: real -> string, b: BoundsXY, hs: seq<Line>, vs: seq<Line>) returns (doc: SvgDocument)
    requires AllBuffers(hs) && AllBuffers(vs)
    requires b == BoundsOf(Positions(hs) + Positions(vs))
    ensures doc == ExportDocument(fmt, Positions(hs), Visibility(hs), Positions(vs), Visibility(vs))
  {
    ghost var hb, hv, vb, vv := Positions(hs), Visibility(hs), Positions(vs), Visibility(vs);
    var polylines := BuildPolylines(fmt, hs, vs);
    doc := SvgDocument(ViewBoxOf(b), b.boundsX, b.boundsY, polylines);
    assert hb == Positions(hs) && hv == Visibility(hs) && vb == Positions(vs) && vv == Visibility(vs);
  }
}
