/** Tessellation of a shape into strips, with vertical merging of matching strips. The
    outline is any function from a row to the segments the shape covers there. */
module StripMerge {

  datatype Rect = Rect(x: int, y: int, width: int, height: int)

  datatype Segment = Segment(left: real, right: real)

  function Floor(x: real): int { x.Floor }

  function Ceil(x: real): int { -((-x).Floor) }

  predicate Covers(r: Rect, px: int, py: int) {
    r.x <= px < r.x + r.width && r.y <= py < r.y + r.height
  }

  ghost predicate Covered(rects: seq<Rect>, px: int, py: int) {
    exists k :: 0 <= k < |rects| && Covers(rects[k], px, py)
  }

  predicate Proper(r: Rect) { r.width > 0 && r.height > 0 }

  ghost predicate Disjoint(r: Rect, s: Rect) {
    forall px, py :: !(Covers(r, px, py) && Covers(s, px, py))
  }

  ghost predicate PairwiseDisjoint(rects: seq<Rect>) {
    forall i, j :: 0 <= i < j < |rects| ==> Disjoint(rects[i], rects[j])
  }

  // ----- merging -----

  predicate Fits(r: Rect, p: Rect) { r.x == p.x && r.width == p.width && r.y + r.height == p.y }

  /** The rectangle a strip is merged into: scanning from the end, up to the first
      rectangle that ends above the strip; -1 if there is none. */
  function MergeIndex(out: seq<Rect>, p: Rect): (k: int)
    ensures -1 <= k < |out|
    ensures k >= 0 ==> Fits(out[k], p)
  {
    if out == [] then -1
    else
      var last := out[|out| - 1];
      if last.y + last.height < p.y then -1
      else if Fits(last, p) then |out| - 1
      else MergeIndex(out[..|out| - 1], p)
  }

  function Add(out: seq<Rect>, p: Rect): seq<Rect> {
    var k := MergeIndex(out, p);
    if k >= 0 then out[k := out[k].(height := out[k].height + p.height)] else out + [p]
  }

  // ----- the loops, as functions -----

  function PieceLeft(visualX: int, a: Segment, b: Segment): int {
    visualX + Ceil(if a.left >= b.left then a.left else b.left)
  }

  function PieceRight(visualX: int, a: Segment, b: Segment): int {
    visualX + Floor(if a.right <= b.right then a.right else b.right)
  }

  /** Adds the intersection of a segment of the strip's top edge and one of its bottom
      edge, if it holds a whole pixel. */
  function WithPiece(out: seq<Rect>, visualX: int, y: int, height: int, a: Segment, b: Segment): seq<Rect> {
    var x, right := PieceLeft(visualX, a, b), PieceRight(visualX, a, b);
    if right - x <= 0 then out else Add(out, Rect(x, y, right - x, height))
  }

  function WithPieces(out: seq<Rect>, visualX: int, y: int, height: int, a: Segment, bottom: seq<Segment>): seq<Rect> {
    if bottom == [] then out
    else
      WithPiece(WithPieces(out, visualX, y, height, a, bottom[..|bottom| - 1]),
                visualX, y, height, a, bottom[|bottom| - 1])
  }

  function WithStrip(out: seq<Rect>, visualX: int, y: int, height: int, top: seq<Segment>, bottom: seq<Segment>)
    : seq<Rect>
  {
    if top == [] then out
    else
      WithPieces(WithStrip(out, visualX, y, height, top[..|top| - 1], bottom),
                 visualX, y, height, top[|top| - 1], bottom)
  }

  type Positive = n: int | n >= 1 witness 1

  datatype Frame = Frame(visualX: int, visualY: int, visualHeight: int, stripPx: Positive)

  function StripHeight(f: Frame, row: int): int {
    if f.stripPx <= f.visualHeight - row then f.stripPx else f.visualHeight - row
  }

  function WithRow(out: seq<Rect>, f: Frame, segments: int -> seq<Segment>, row: int): seq<Rect> {
    var h := StripHeight(f, row);
    WithStrip(out, f.visualX, f.visualY + row, h, segments(row), segments(row + h))
  }

  function TessellatedFrom(out: seq<Rect>, f: Frame, segments: int -> seq<Segment>, row: int): seq<Rect>
    decreases f.visualHeight - row
  {
    if row >= f.visualHeight then out
    else TessellatedFrom(WithRow(out, f, segments, row), f, segments, row + f.stripPx)
  }

  function Tessellated(f: Frame, segments: int -> seq<Segment>): seq<Rect>
  {
    TessellatedFrom([], f, segments, 0)
  }

  // ----- the loops -----

  method FindMerge(out: seq<Rect>, p: Rect) returns (k: int)
    ensures k == MergeIndex(out, p)
  {
    k := |out| - 1;
    assert out[..|out|] == out;
    while k >= 0
      invariant -1 <= k < |out| && MergeIndex(out, p) == MergeIndex(out[..k + 1], p)
    {
      assert out[..k + 1][..k] == out[..k];
      if out[k].y + out[k].height < p.y {
        return -1;
      }
      if out[k].x == p.x && out[k].width == p.width && out[k].y + out[k].height == p.y {
        return k;
      }
      k := k - 1;
    }
  }

  method AddPiece(out: seq<Rect>, visualX: int, y: int, height: int, a: Segment, b: Segment) returns (more: seq<Rect>)
    ensures more == WithPiece(out, visualX, y, height, a, b)
  {
    var left := if a.left >= b.left then a.left else b.left;
    var right := if a.right <= b.right then a.right else b.right;
    var rx := visualX + Ceil(left);
    var rw := visualX + Floor(right) - rx;
    if rw <= 0 {
      return out;
    }
    var k := FindMerge(out, Rect(rx, y, rw, height));
    if k >= 0 {
      return out[k := out[k].(height := out[k].height + height)];
    }
    return out + [Rect(rx, y, rw, height)];
  }

  method AddStrip(out: seq<Rect>, visualX: int, y: int, height: int, top: seq<Segment>, bottom: seq<Segment>)
    returns (more: seq<Rect>)
    ensures more == WithStrip(out, visualX, y, height, top, bottom)
  {
    more := out;
    var i := 0;
    while i < |top|
      invariant 0 <= i <= |top| && more == WithStrip(out, visualX, y, height, top[..i], bottom)
    {
      assert top[..i + 1][..i] == top[..i];
      ghost var before := more;
      var j := 0;
      while j < |bottom|
        invariant 0 <= j <= |bottom| && more == WithPieces(before, visualX, y, height, top[i], bottom[..j])
      {
        assert bottom[..j + 1][..j] == bottom[..j];
        more := AddPiece(more, visualX, y, height, top[i], bottom[j]);
        j := j + 1;
      }
      assert bottom[..j] == bottom;
      i := i + 1;
    }
    assert top[..i] == top;
  }

  /** The strip loop of the tessellator. */
  method Tessellate(visualX: int, visualY: int, visualHeight: int, strip: int, segments: int -> seq<Segment>)
    returns (out: seq<Rect>)
    ensures out == Tessellated(Frame(visualX, visualY, visualHeight, if strip < 1 then 1 else strip), segments)
  {
    var stripPx := if strip < 1 then 1 else strip;
    ghost var f := Frame(visualX, visualY, visualHeight, stripPx);
    out := [];
    var row := 0;
    while row < visualHeight
      invariant TessellatedFrom(out, f, segments, row) == Tessellated(f, segments)
      decreases visualHeight - row
    {
      var rowH := if stripPx <= visualHeight - row then stripPx else visualHeight - row;
      out := AddStrip(out, visualX, visualY + row, rowH, segments(row), segments(row + rowH));
      row := row + stripPx;
    }
  }

  // ----- coverage -----

  /** Pixel x of the row lies wholly inside the segment. */
  predicate Inside(x: int, s: Segment) { s.left <= x as real && (x + 1) as real <= s.right }

  predicate InPiece(visualX: int, y: int, height: int, a: Segment, b: Segment, px: int, py: int) {
    y <= py < y + height && Inside(px - visualX, a) && Inside(px - visualX, b)
  }

  /** Rounding inwards keeps exactly the pixels that lie wholly inside both segments. */
  lemma RoundingInwards(visualX: int, a: Segment, b: Segment, px: int)
    ensures PieceLeft(visualX, a, b) <= px < PieceRight(visualX, a, b)
      <==> Inside(px - visualX, a) && Inside(px - visualX, b)
  {
    var x := px - visualX;
    var left := if a.left >= b.left then a.left else b.left;
    var right := if a.right <= b.right then a.right else b.right;
    assert Ceil(left) <= x <==> left <= x as real;
    assert x + 1 <= Floor(right) <==> (x + 1) as real <= right;
  }

  lemma AddCovers(out: seq<Rect>, p: Rect, px: int, py: int)
    requires (forall k :: 0 <= k < |out| ==> Proper(out[k])) && Proper(p)
    ensures Covered(Add(out, p), px, py) <==> Covered(out, px, py) || Covers(p, px, py)
    ensures forall k :: 0 <= k < |Add(out, p)| ==> Proper(Add(out, p)[k])
  {
    var k, r := MergeIndex(out, p), Add(out, p);
    if k >= 0 {
      assert Covers(r[k], px, py) <==> Covers(out[k], px, py) || Covers(p, px, py);
      if Covered(out, px, py) {
        var j :| 0 <= j < |out| && Covers(out[j], px, py);
        assert Covers(r[j], px, py);
      }
    } else {
      assert r[|out|] == p;
      if Covered(out, px, py) {
        var j :| 0 <= j < |out| && Covers(out[j], px, py);
        assert Covers(r[j], px, py);
      }
    }
  }

  ghost predicate AllProper(rects: seq<Rect>) {
    forall k :: 0 <= k < |rects| ==> Proper(rects[k])
  }

  lemma WithPieceCovers(out: seq<Rect>, v: int, y: int, h: int, a: Segment, b: Segment, px: int, py: int)
    requires AllProper(out) && h > 0
    ensures Covered(WithPiece(out, v, y, h, a, b), px, py) <==> Covered(out, px, py) || InPiece(v, y, h, a, b, px, py)
    ensures AllProper(WithPiece(out, v, y, h, a, b))
  {
    RoundingInwards(v, a, b, px);
    var x, right := PieceLeft(v, a, b), PieceRight(v, a, b);
    if right - x > 0 {
      AddCovers(out, Rect(x, y, right - x, h), px, py);
    }
  }

  ghost predicate InPieces(v: int, y: int, h: int, a: Segment, bottom: seq<Segment>, px: int, py: int) {
    exists j :: 0 <= j < |bottom| && InPiece(v, y, h, a, bottom[j], px, py)
  }

  lemma {:induction false} WithPiecesCovers(
      out: seq<Rect>, v: int, y: int, h: int, a: Segment, bottom: seq<Segment>, px: int, py: int)
    requires AllProper(out) && h > 0
    ensures Covered(WithPieces(out, v, y, h, a, bottom), px, py)
      <==> Covered(out, px, py) || InPieces(v, y, h, a, bottom, px, py)
    ensures AllProper(WithPieces(out, v, y, h, a, bottom))
  {
    if bottom != [] {
      var n := |bottom| - 1;
      WithPiecesCovers(out, v, y, h, a, bottom[..n], px, py);
      WithPieceCovers(WithPieces(out, v, y, h, a, bottom[..n]), v, y, h, a, bottom[n], px, py);
      assert InPieces(v, y, h, a, bottom, px, py)
        <==> InPieces(v, y, h, a, bottom[..n], px, py) || InPiece(v, y, h, a, bottom[n], px, py)
      by {
        assert forall j :: 0 <= j < n ==> bottom[..n][j] == bottom[j];
      }
    }
  }

  ghost predicate InStrip(v: int, y: int, h: int, top: seq<Segment>, bottom: seq<Segment>, px: int, py: int) {
    exists i :: 0 <= i < |top| && InPieces(v, y, h, top[i], bottom, px, py)
  }

  lemma {:induction false} WithStripCovers(
      out: seq<Rect>, v: int, y: int, h: int, top: seq<Segment>, bottom: seq<Segment>, px: int, py: int)
    requires AllProper(out) && h > 0
    ensures Covered(WithStrip(out, v, y, h, top, bottom), px, py)
      <==> Covered(out, px, py) || InStrip(v, y, h, top, bottom, px, py)
    ensures AllProper(WithStrip(out, v, y, h, top, bottom))
  {
    if top != [] {
      var n := |top| - 1;
      WithStripCovers(out, v, y, h, top[..n], bottom, px, py);
      WithPiecesCovers(WithStrip(out, v, y, h, top[..n], bottom), v, y, h, top[n], bottom, px, py);
      assert InStrip(v, y, h, top, bottom, px, py)
        <==> InStrip(v, y, h, top[..n], bottom, px, py) || InPieces(v, y, h, top[n], bottom, px, py)
      by {
        assert forall i :: 0 <= i < n ==> top[..n][i] == top[i];
      }
    }
  }

  /** The pixel lies in strip number k, wholly inside a segment of the strip's top edge
      and wholly inside a segment of its bottom edge. */
  ghost predicate InStripNumber(f: Frame, segments: int -> seq<Segment>, k: int, px: int, py: int) {
    var row := k * f.stripPx;
    var h := StripHeight(f, row);
    row < f.visualHeight && InStrip(f.visualX, f.visualY + row, h, segments(row), segments(row + h), px, py)
  }

  ghost predicate InStripsFrom(f: Frame, segments: int -> seq<Segment>, from: int, px: int, py: int) {
    exists k :: k >= from && InStripNumber(f, segments, k, px, py)
  }

  lemma {:induction false} TessellatedFromCovers(
      out: seq<Rect>, f: Frame, segments: int -> seq<Segment>, from: nat, px: int, py: int)
    requires AllProper(out)
    ensures Covered(TessellatedFrom(out, f, segments, from * f.stripPx), px, py)
      <==> Covered(out, px, py) || InStripsFrom(f, segments, from, px, py)
    ensures AllProper(TessellatedFrom(out, f, segments, from * f.stripPx))
    decreases f.visualHeight - from * f.stripPx
  {
    var row := from * f.stripPx;
    assert (from + 1) * f.stripPx == row + f.stripPx;
    if row < f.visualHeight {
      var h := StripHeight(f, row);
      WithStripCovers(out, f.visualX, f.visualY + row, h, segments(row), segments(row + h), px, py);
      TessellatedFromCovers(WithRow(out, f, segments, row), f, segments, from + 1, px, py);
      assert InStripsFrom(f, segments, from, px, py)
        <==> InStripNumber(f, segments, from, px, py) || InStripsFrom(f, segments, from + 1, px, py);
    } else {
      LaterStripsAreOutside(f, segments, from, px, py);
    }
  }

  lemma LaterStripsAreOutside(f: Frame, segments: int -> seq<Segment>, from: nat, px: int, py: int)
    requires from * f.stripPx >= f.visualHeight
    ensures !InStripsFrom(f, segments, from, px, py)
  {
    forall k | k >= from ensures !InStripNumber(f, segments, k, px, py) {
      assert k * f.stripPx >= from * f.stripPx by {
        assert (k - from) * f.stripPx >= 0;
      }
    }
  }

  /** Merging loses no pixel and adds none: a pixel is covered exactly when it lies in a
      strip, wholly inside a segment of the strip's top edge and one of its bottom edge. */
  lemma MergingKeepsCoverage(f: Frame, segments: int -> seq<Segment>, px: int, py: int)
    ensures Covered(Tessellated(f, segments), px, py) <==> InStripsFrom(f, segments, 0, px, py)
    ensures AllProper(Tessellated(f, segments))
  {
    TessellatedFromCovers([], f, segments, 0, px, py);
    assert 0 * f.stripPx == 0;
  }

  // ----- disjointness -----

  /** No two segments of the row share a whole pixel. */
  ghost predicate Separate(segments: seq<Segment>) {
    forall i, j, x :: 0 <= i < j < |segments| && Inside(x, segments[i]) ==> !Inside(x, segments[j])
  }

  lemma WithPieceKeepsDisjoint(out: seq<Rect>, v: int, y: int, h: int, a: Segment, b: Segment)
    requires PairwiseDisjoint(out) && AllProper(out) && h > 0
    requires forall px, py :: Covered(out, px, py) ==> !InPiece(v, y, h, a, b, px, py)
    ensures PairwiseDisjoint(WithPiece(out, v, y, h, a, b))
  {
    var x, right := PieceLeft(v, a, b), PieceRight(v, a, b);
    if right - x > 0 {
      var p := Rect(x, y, right - x, h);
      forall k | 0 <= k < |out| ensures Disjoint(out[k], p) {
        forall px, py ensures !(Covers(out[k], px, py) && Covers(p, px, py)) {
          RoundingInwards(v, a, b, px);
          assert Covers(out[k], px, py) ==> Covered(out, px, py);
        }
      }
    }
  }

  lemma {:induction false} WithPiecesKeepsDisjoint(
      out: seq<Rect>, v: int, y: int, h: int, a: Segment, bottom: seq<Segment>)
    requires PairwiseDisjoint(out) && AllProper(out) && h > 0 && Separate(bottom)
    requires forall px, py :: Covered(out, px, py) ==> !InPieces(v, y, h, a, bottom, px, py)
    ensures PairwiseDisjoint(WithPieces(out, v, y, h, a, bottom))
  {
    if bottom != [] {
      var n := |bottom| - 1;
      forall px, py | Covered(out, px, py) ensures !InPieces(v, y, h, a, bottom[..n], px, py) {
        assert forall j :: 0 <= j < n ==> bottom[..n][j] == bottom[j];
      }
      WithPiecesKeepsDisjoint(out, v, y, h, a, bottom[..n]);
      var before := WithPieces(out, v, y, h, a, bottom[..n]);
      WithPiecesCovers(out, v, y, h, a, bottom[..n], 0, 0);
      forall px, py | Covered(before, px, py) ensures !InPiece(v, y, h, a, bottom[n], px, py) {
        WithPiecesCovers(out, v, y, h, a, bottom[..n], px, py);
      }
      WithPieceKeepsDisjoint(before, v, y, h, a, bottom[n]);
    }
  }

  lemma {:induction false} WithStripKeepsDisjoint(
      out: seq<Rect>, v: int, y: int, h: int, top: seq<Segment>, bottom: seq<Segment>)
    requires PairwiseDisjoint(out) && AllProper(out) && h > 0 && Separate(top) && Separate(bottom)
    requires forall px, py :: Covered(out, px, py) ==> py < y
    ensures PairwiseDisjoint(WithStrip(out, v, y, h, top, bottom))
  {
    if top != [] {
      var n := |top| - 1;
      WithStripKeepsDisjoint(out, v, y, h, top[..n], bottom);
      var before := WithStrip(out, v, y, h, top[..n], bottom);
      WithStripCovers(out, v, y, h, top[..n], bottom, 0, 0);
      forall px, py | Covered(before, px, py) ensures !InPieces(v, y, h, top[n], bottom, px, py) {
        WithStripCovers(out, v, y, h, top[..n], bottom, px, py);
      }
      WithPiecesKeepsDisjoint(before, v, y, h, top[n], bottom);
    }
  }

  lemma {:induction false} TessellatedFromDisjoint(out: seq<Rect>, f: Frame, segments: int -> seq<Segment>, row: int)
    requires PairwiseDisjoint(out) && AllProper(out)
    requires forall r :: Separate(segments(r))
    requires forall px, py :: Covered(out, px, py) ==> py < f.visualY + row
    ensures PairwiseDisjoint(TessellatedFrom(out, f, segments, row))
    decreases f.visualHeight - row
  {
    if row < f.visualHeight {
      var h, y := StripHeight(f, row), f.visualY + row;
      var top, bottom := segments(row), segments(row + h);
      WithStripKeepsDisjoint(out, f.visualX, y, h, top, bottom);
      var next := WithRow(out, f, segments, row);
      WithStripCovers(out, f.visualX, y, h, top, bottom, 0, 0);
      forall px, py | Covered(next, px, py) ensures py < y + f.stripPx {
        WithStripCovers(out, f.visualX, y, h, top, bottom, px, py);
      }
      TessellatedFromDisjoint(next, f, segments, row + f.stripPx);
    }
  }

  /** If the segments of each row share no pixel, no two resulting rectangles do, merged
      or not. */
  lemma MergedRectanglesAreDisjoint(f: Frame, segments: int -> seq<Segment>)
    requires forall r :: Separate(segments(r))
    ensures PairwiseDisjoint(Tessellated(f, segments))
  {
    TessellatedFromDisjoint([], f, segments, 0);
  }

  // ----- when strips merge -----

  function End(r: Rect): int { r.y + r.height }

  /** After rectangle i comes one that ended above y. */
  ghost predicate BlockedAt(out: seq<Rect>, i: nat, y: int) {
    exists b :: i < b < |out| && End(out[b]) < y
  }

  lemma {:induction false} MergeIndexMeans(out: seq<Rect>, p: Rect)
    ensures MergeIndex(out, p) >= 0 ==> forall j :: MergeIndex(out, p) < j < |out| ==> End(out[j]) >= p.y
    ensures MergeIndex(out, p) < 0 ==> forall i :: 0 <= i < |out| && Fits(out[i], p) ==> BlockedAt(out, i, p.y)
  {
    if out != [] {
      var n := |out| - 1;
      MergeIndexMeans(out[..n], p);
      forall i | 0 <= i < n && BlockedAt(out[..n], i, p.y) ensures BlockedAt(out, i, p.y) {
        var b :| i < b < n && End(out[..n][b]) < p.y;
        assert End(out[b]) < p.y;
      }
      assert forall i :: 0 <= i < n ==> out[..n][i] == out[i];
    }
  }

  /** A strip is merged exactly when some rectangle fits above it and no later rectangle
      ends above the strip. */
  lemma MergesExactly(out: seq<Rect>, p: Rect)
    ensures MergeIndex(out, p) >= 0 <==>
      exists k :: 0 <= k < |out| && Fits(out[k], p) && !BlockedAt(out, k, p.y)
  {
    MergeIndexMeans(out, p);
    var k := MergeIndex(out, p);
    if k >= 0 {
      assert Fits(out[k], p) && !BlockedAt(out, k, p.y);
    }
  }

  /** Two columns, of which the right one ends a strip earlier. */
  function TwoColumns(row: int): seq<Segment> {
    if row <= 1 then [Segment(0.0, 1.0), Segment(2.0, 3.0)] else [Segment(0.0, 1.0)]
  }

  lemma PiecesOfOne(out: seq<Rect>, v: int, y: int, h: int, a: Segment, c: Segment)
    ensures WithPieces(out, v, y, h, a, [c]) == WithPiece(out, v, y, h, a, c)
  {
    assert [c][..0] == [];
  }

  lemma PiecesOfTwo(out: seq<Rect>, v: int, y: int, h: int, a: Segment, c: Segment, d: Segment)
    ensures WithPieces(out, v, y, h, a, [c, d]) == WithPiece(WithPiece(out, v, y, h, a, c), v, y, h, a, d)
  {
    assert [c, d][..1] == [c];
    PiecesOfOne(out, v, y, h, a, c);
  }

  lemma StripOfOne(out: seq<Rect>, v: int, y: int, h: int, a: Segment, bottom: seq<Segment>)
    ensures WithStrip(out, v, y, h, [a], bottom) == WithPieces(out, v, y, h, a, bottom)
  {
    assert [a][..0] == [];
  }

  lemma StripOfTwo(out: seq<Rect>, v: int, y: int, h: int, a: Segment, b: Segment, bottom: seq<Segment>)
    ensures WithStrip(out, v, y, h, [a, b], bottom)
         == WithPieces(WithPieces(out, v, y, h, a, bottom), v, y, h, b, bottom)
  {
    assert [a, b][..1] == [a];
    StripOfOne(out, v, y, h, a, bottom);
  }

  const THREE_ROWS := Frame(0, 0, 3, 1)

  const LEFT := Segment(0.0, 1.0)

  const RIGHT := Segment(2.0, 3.0)

  lemma LeftAlone(out: seq<Rect>, y: int)
    ensures WithPiece(out, 0, y, 1, LEFT, LEFT) == Add(out, Rect(0, y, 1, 1))
  {
  }

  lemma RightAlone(out: seq<Rect>, y: int)
    ensures WithPiece(out, 0, y, 1, RIGHT, RIGHT) == Add(out, Rect(2, y, 1, 1))
  {
  }

  lemma ColumnsDoNotMeet(out: seq<Rect>, y: int)
    ensures WithPiece(out, 0, y, 1, LEFT, RIGHT) == out && WithPiece(out, 0, y, 1, RIGHT, LEFT) == out
  {
  }

  lemma MergesPastOne(a: Rect, b: Rect, p: Rect)
    requires Fits(a, p) && !Fits(b, p) && b.y + b.height >= p.y
    ensures Add([a, b], p) == [a.(height := a.height + p.height), b]
  {
    assert [a, b][..1] == [a];
    assert MergeIndex([a], p) == 0;
  }

  lemma FirstColumn()
    ensures WithPieces([], 0, 0, 1, LEFT, [LEFT, RIGHT]) == [Rect(0, 0, 1, 1)]
  {
    PiecesOfTwo([], 0, 0, 1, LEFT, LEFT, RIGHT);
    LeftAlone([], 0);
    assert Add([], Rect(0, 0, 1, 1)) == [Rect(0, 0, 1, 1)];
    ColumnsDoNotMeet([Rect(0, 0, 1, 1)], 0);
  }

  lemma SecondColumn()
    ensures WithPieces([Rect(0, 0, 1, 1)], 0, 0, 1, RIGHT, [LEFT, RIGHT]) == [Rect(0, 0, 1, 1), Rect(2, 0, 1, 1)]
  {
    var r := [Rect(0, 0, 1, 1)];
    PiecesOfTwo(r, 0, 0, 1, RIGHT, LEFT, RIGHT);
    ColumnsDoNotMeet(r, 0);
    RightAlone(r, 0);
    assert Add(r, Rect(2, 0, 1, 1)) == [Rect(0, 0, 1, 1), Rect(2, 0, 1, 1)];
  }

  lemma FirstStrip()
    ensures WithRow([], THREE_ROWS, TwoColumns, 0) == [Rect(0, 0, 1, 1), Rect(2, 0, 1, 1)]
  {
    StripOfTwo([], 0, 0, 1, LEFT, RIGHT, [LEFT, RIGHT]);
    FirstColumn();
    SecondColumn();
  }

  lemma SecondStrip()
    ensures WithRow([Rect(0, 0, 1, 1), Rect(2, 0, 1, 1)], THREE_ROWS, TwoColumns, 1)
         == [Rect(0, 0, 1, 2), Rect(2, 0, 1, 1)]
  {
    var r, s := [Rect(0, 0, 1, 1), Rect(2, 0, 1, 1)], [Rect(0, 0, 1, 2), Rect(2, 0, 1, 1)];
    assert WithRow(r, THREE_ROWS, TwoColumns, 1) == WithStrip(r, 0, 1, 1, [LEFT, RIGHT], [LEFT]);
    StripOfTwo(r, 0, 1, 1, LEFT, RIGHT, [LEFT]);
    PiecesOfOne(r, 0, 1, 1, LEFT, LEFT);
    PiecesOfOne(s, 0, 1, 1, RIGHT, LEFT);
    LeftAlone(r, 1);
    MergesPastOne(Rect(0, 0, 1, 1), Rect(2, 0, 1, 1), Rect(0, 1, 1, 1));
    assert WithPieces(r, 0, 1, 1, LEFT, [LEFT]) == s;
    ColumnsDoNotMeet(s, 1);
  }

  lemma ThirdStrip()
    ensures WithRow([Rect(0, 0, 1, 2), Rect(2, 0, 1, 1)], THREE_ROWS, TwoColumns, 2)
         == [Rect(0, 0, 1, 2), Rect(2, 0, 1, 1), Rect(0, 2, 1, 1)]
  {
    var s := [Rect(0, 0, 1, 2), Rect(2, 0, 1, 1)];
    StripOfOne(s, 0, 2, 1, LEFT, [LEFT]);
    PiecesOfOne(s, 0, 2, 1, LEFT, LEFT);
    assert Add(s, Rect(0, 2, 1, 1)) == [Rect(0, 0, 1, 2), Rect(2, 0, 1, 1), Rect(0, 2, 1, 1)];
  }

  /** The merging is not maximal. The first rectangle that ends above stops the scan, so
      once the right column has ended, the left column is cut although its parts fit. */
  lemma MergingCanMissAFit()
    ensures Tessellated(THREE_ROWS, TwoColumns) == [Rect(0, 0, 1, 2), Rect(2, 0, 1, 1), Rect(0, 2, 1, 1)]
    ensures Fits(Rect(0, 0, 1, 2), Rect(0, 2, 1, 1))
  {
    FirstStrip();
    SecondStrip();
    ThirdStrip();
    var r1, r2 := [Rect(0, 0, 1, 1), Rect(2, 0, 1, 1)], [Rect(0, 0, 1, 2), Rect(2, 0, 1, 1)];
    var r3 := [Rect(0, 0, 1, 2), Rect(2, 0, 1, 1), Rect(0, 2, 1, 1)];
    assert TessellatedFrom(r3, THREE_ROWS, TwoColumns, 3) == r3;
    assert TessellatedFrom(r2, THREE_ROWS, TwoColumns, 2) == r3;
    assert TessellatedFrom(r1, THREE_ROWS, TwoColumns, 1) == r3;
  }
}
