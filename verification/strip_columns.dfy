/** Which rectangles the strip merging leaves apart, by the pieces of the rows alone: the
    columns are what the merging would give if its scan went on to the first rectangle. */
module StripColumns {
  import opened StripMerge

  // ----- the pieces, in the order of the loops -----

  function PieceOf(visualX: int, y: int, height: int, a: Segment, b: Segment): seq<Rect> {
    var x, right := PieceLeft(visualX, a, b), PieceRight(visualX, a, b);
    if right - x <= 0 then [] else [Rect(x, y, right - x, height)]
  }

  /** The pieces of one segment of the top edge with the first n of the bottom edge. */
  function PiecesOf(visualX: int, y: int, height: int, a: Segment, bottom: seq<Segment>, n: nat): seq<Rect>
    requires n <= |bottom|
  {
    if n == 0 then []
    else PiecesOf(visualX, y, height, a, bottom, n - 1) + PieceOf(visualX, y, height, a, bottom[n - 1])
  }

  /** The pieces of the first n segments of the top edge. */
  function StripPieces(visualX: int, y: int, height: int, top: seq<Segment>, bottom: seq<Segment>, n: nat): seq<Rect>
    requires n <= |top|
  {
    if n == 0 then []
    else
      StripPieces(visualX, y, height, top, bottom, n - 1)
      + PiecesOf(visualX, y, height, top[n - 1], bottom, |bottom|)
  }

  function RowPieces(f: Frame, segments: int -> seq<Segment>, row: int): seq<Rect> {
    var h := StripHeight(f, row);
    StripPieces(f.visualX, f.visualY + row, h, segments(row), segments(row + h), |segments(row)|)
  }

  function PiecesFrom(f: Frame, segments: int -> seq<Segment>, row: int): seq<Rect>
    decreases f.visualHeight - row
  {
    if row >= f.visualHeight then [] else RowPieces(f, segments, row) + PiecesFrom(f, segments, row + f.stripPx)
  }

  function Pieces(f: Frame, segments: int -> seq<Segment>): seq<Rect> { PiecesFrom(f, segments, 0) }

  function Added(out: seq<Rect>, ps: seq<Rect>): seq<Rect> {
    if ps == [] then out else Add(Added(out, ps[..|ps| - 1]), ps[|ps| - 1])
  }

  lemma AddedOne(out: seq<Rect>, ps: seq<Rect>, p: Rect)
    ensures Added(out, ps + [p]) == Add(Added(out, ps), p)
  {
    assert (ps + [p])[..|ps|] == ps;
  }

  lemma AddedTwoMore(out: seq<Rect>, a: seq<Rect>, b: seq<Rect>, p: Rect)
    requires Added(out, a + b) == Added(Added(out, a), b)
    ensures Added(out, a + (b + [p])) == Added(Added(out, a), b + [p])
  {
    AddedOne(out, a + b, p);
    AddedOne(Added(out, a), b, p);
    assert a + (b + [p]) == a + b + [p];
  }

  lemma {:induction false} AddedTwo(out: seq<Rect>, a: seq<Rect>, b: seq<Rect>)
    ensures Added(out, a + b) == Added(Added(out, a), b)
    decreases |b|
  {
    if b == [] {
      assert a + b == a;
    } else {
      var before, last := b[..|b| - 1], b[|b| - 1];
      assert b == before + [last];
      AddedTwo(out, a, before);
      AddedTwoMore(out, a, before, last);
    }
  }

  lemma WithPieceAdds(out: seq<Rect>, v: int, y: int, h: int, a: Segment, b: Segment)
    ensures WithPiece(out, v, y, h, a, b) == Added(out, PieceOf(v, y, h, a, b))
  {
    var x, right := PieceLeft(v, a, b), PieceRight(v, a, b);
    AddedOne(out, [], Rect(x, y, right - x, h));
    assert [] + PieceOf(v, y, h, a, b) == PieceOf(v, y, h, a, b);
  }

  lemma PieceAdds(out: seq<Rect>, before: seq<Rect>, v: int, y: int, h: int, a: Segment, b: Segment)
    ensures WithPiece(Added(out, before), v, y, h, a, b) == Added(out, before + PieceOf(v, y, h, a, b))
  {
    WithPieceAdds(Added(out, before), v, y, h, a, b);
    AddedTwo(out, before, PieceOf(v, y, h, a, b));
  }

  /** The inner loop, one segment of the bottom edge later. */
  lemma WithPiecesOne(out: seq<Rect>, v: int, y: int, h: int, a: Segment, bottom: seq<Segment>, n: nat)
    requires 0 < n <= |bottom|
    ensures WithPieces(out, v, y, h, a, bottom[..n])
         == WithPiece(WithPieces(out, v, y, h, a, bottom[..n - 1]), v, y, h, a, bottom[n - 1])
  {
    assert bottom[..n][..n - 1] == bottom[..n - 1];
  }

  lemma WithPiecesAddsOne(out: seq<Rect>, v: int, y: int, h: int, a: Segment, bottom: seq<Segment>, n: nat)
    requires 0 < n <= |bottom|
    requires WithPieces(out, v, y, h, a, bottom[..n - 1]) == Added(out, PiecesOf(v, y, h, a, bottom, n - 1))
    ensures WithPieces(out, v, y, h, a, bottom[..n]) == Added(out, PiecesOf(v, y, h, a, bottom, n))
  {
    var before := PiecesOf(v, y, h, a, bottom, n - 1);
    WithPiecesOne(out, v, y, h, a, bottom, n);
    PieceAdds(out, before, v, y, h, a, bottom[n - 1]);
    assert PiecesOf(v, y, h, a, bottom, n) == before + PieceOf(v, y, h, a, bottom[n - 1]);
  }

  lemma {:induction false} WithPiecesAdds(
      out: seq<Rect>, v: int, y: int, h: int, a: Segment, bottom: seq<Segment>, n: nat)
    requires n <= |bottom|
    ensures WithPieces(out, v, y, h, a, bottom[..n]) == Added(out, PiecesOf(v, y, h, a, bottom, n))
  {
    if n == 0 {
      assert bottom[..n] == [];
    } else {
      WithPiecesAdds(out, v, y, h, a, bottom, n - 1);
      WithPiecesAddsOne(out, v, y, h, a, bottom, n);
    }
  }

  lemma SegmentAdds(
      out: seq<Rect>, before: seq<Rect>, v: int, y: int, h: int, a: Segment, bottom: seq<Segment>)
    ensures WithPieces(Added(out, before), v, y, h, a, bottom)
         == Added(out, before + PiecesOf(v, y, h, a, bottom, |bottom|))
  {
    assert bottom[..|bottom|] == bottom;
    WithPiecesAdds(Added(out, before), v, y, h, a, bottom, |bottom|);
    AddedTwo(out, before, PiecesOf(v, y, h, a, bottom, |bottom|));
  }

  /** The strip's loop, one segment of the top edge later. */
  lemma WithStripOne(out: seq<Rect>, v: int, y: int, h: int, top: seq<Segment>, bottom: seq<Segment>, n: nat)
    requires 0 < n <= |top|
    ensures WithStrip(out, v, y, h, top[..n], bottom)
         == WithPieces(WithStrip(out, v, y, h, top[..n - 1], bottom), v, y, h, top[n - 1], bottom)
  {
    assert top[..n][..n - 1] == top[..n - 1];
  }

  lemma {:induction false} WithStripAdds(
      out: seq<Rect>, v: int, y: int, h: int, top: seq<Segment>, bottom: seq<Segment>, n: nat)
    requires n <= |top|
    ensures WithStrip(out, v, y, h, top[..n], bottom) == Added(out, StripPieces(v, y, h, top, bottom, n))
  {
    if n > 0 {
      WithStripAdds(out, v, y, h, top, bottom, n - 1);
      WithStripOne(out, v, y, h, top, bottom, n);
      SegmentAdds(out, StripPieces(v, y, h, top, bottom, n - 1), v, y, h, top[n - 1], bottom);
    }
  }

  lemma WholeStripAdds(out: seq<Rect>, v: int, y: int, h: int, top: seq<Segment>, bottom: seq<Segment>)
    ensures WithStrip(out, v, y, h, top, bottom) == Added(out, StripPieces(v, y, h, top, bottom, |top|))
  {
    assert top[..|top|] == top;
    WithStripAdds(out, v, y, h, top, bottom, |top|);
  }

  lemma WithRowAdds(out: seq<Rect>, f: Frame, segments: int -> seq<Segment>, row: int)
    ensures WithRow(out, f, segments, row) == Added(out, RowPieces(f, segments, row))
  {
    var h := StripHeight(f, row);
    WholeStripAdds(out, f.visualX, f.visualY + row, h, segments(row), segments(row + h));
  }

  lemma RowAndRestAdd(out: seq<Rect>, f: Frame, segments: int -> seq<Segment>, row: int, rest: seq<Rect>)
    ensures Added(WithRow(out, f, segments, row), rest) == Added(out, RowPieces(f, segments, row) + rest)
  {
    WithRowAdds(out, f, segments, row);
    AddedTwo(out, RowPieces(f, segments, row), rest);
  }

  /** The loops add the pieces one by one. */
  lemma {:induction false} TessellatedAdds(out: seq<Rect>, f: Frame, segments: int -> seq<Segment>, row: int)
    ensures TessellatedFrom(out, f, segments, row) == Added(out, PiecesFrom(f, segments, row))
    decreases f.visualHeight - row
  {
    if row < f.visualHeight {
      var later, rest := WithRow(out, f, segments, row), PiecesFrom(f, segments, row + f.stripPx);
      TessellatedAdds(later, f, segments, row + f.stripPx);
      RowAndRestAdd(out, f, segments, row, rest);
      assert TessellatedFrom(out, f, segments, row) == Added(later, rest);
    }
  }

  // ----- the pieces lie in strips -----

  ghost predicate InOneStrip(ps: seq<Rect>, y: int, h: int) {
    forall k :: 0 <= k < |ps| ==> ps[k].y == y && ps[k].height == h && ps[k].width > 0
  }

  lemma {:induction false} PiecesInOneStrip(v: int, y: int, h: int, a: Segment, bottom: seq<Segment>, n: nat)
    requires n <= |bottom|
    ensures InOneStrip(PiecesOf(v, y, h, a, bottom, n), y, h)
  {
    if n > 0 {
      PiecesInOneStrip(v, y, h, a, bottom, n - 1);
    }
  }

  lemma {:induction false} StripInOneStrip(v: int, y: int, h: int, top: seq<Segment>, bottom: seq<Segment>, n: nat)
    requires n <= |top|
    ensures InOneStrip(StripPieces(v, y, h, top, bottom, n), y, h)
  {
    if n > 0 {
      StripInOneStrip(v, y, h, top, bottom, n - 1);
      PiecesInOneStrip(v, y, h, top[n - 1], bottom, |bottom|);
    }
  }

  lemma RowInOneStrip(f: Frame, segments: int -> seq<Segment>, row: int)
    ensures InOneStrip(RowPieces(f, segments, row), f.visualY + row, StripHeight(f, row))
  {
    var h := StripHeight(f, row);
    StripInOneStrip(f.visualX, f.visualY + row, h, segments(row), segments(row + h), |segments(row)|);
  }

  predicate Before(a: Rect, b: Rect) { (a.y == b.y && a.height == b.height) || End(a) <= b.y }

  /** Each piece lies in the strip of the next or above it. */
  ghost predicate Stacked(ps: seq<Rect>) {
    && (forall k :: 0 <= k < |ps| ==> Proper(ps[k]))
    && (forall i, j :: 0 <= i <= j < |ps| ==> Before(ps[i], ps[j]))
  }

  /** All of them lie at y or below. */
  ghost predicate From(ps: seq<Rect>, y: int) { forall k :: 0 <= k < |ps| ==> ps[k].y >= y }

  lemma FromAbove(ps: seq<Rect>, y: int, z: int)
    requires From(ps, z) && y <= z
    ensures From(ps, y)
  {
  }

  lemma StackedOnStrip(a: seq<Rect>, b: seq<Rect>, y: int, h: int)
    requires InOneStrip(a, y, h) && h > 0 && Stacked(b) && From(b, y + h)
    ensures Stacked(a + b) && From(a + b, y)
  {
  }

  lemma RowOnRest(f: Frame, segments: int -> seq<Segment>, row: int, rest: seq<Rect>)
    requires row < f.visualHeight && Stacked(rest) && From(rest, f.visualY + row + f.stripPx)
    ensures Stacked(RowPieces(f, segments, row) + rest) && From(RowPieces(f, segments, row) + rest, f.visualY + row)
  {
    var h, y := StripHeight(f, row), f.visualY + row;
    RowInOneStrip(f, segments, row);
    FromAbove(rest, y + h, y + f.stripPx);
    StackedOnStrip(RowPieces(f, segments, row), rest, y, h);
  }

  lemma {:induction false} PiecesAreStacked(f: Frame, segments: int -> seq<Segment>, row: int)
    ensures Stacked(PiecesFrom(f, segments, row)) && From(PiecesFrom(f, segments, row), f.visualY + row)
    decreases f.visualHeight - row
  {
    if row < f.visualHeight {
      PiecesAreStacked(f, segments, row + f.stripPx);
      RowOnRest(f, segments, row, PiecesFrom(f, segments, row + f.stripPx));
    }
  }

  // ----- adding one piece -----

  /** The scan for the strip stopped before a rectangle that fits. */
  ghost predicate Missed(out: seq<Rect>, p: Rect) {
    MergeIndex(out, p) < 0 && exists k :: 0 <= k < |out| && Fits(out[k], p)
  }

  ghost predicate HasFit(out: seq<Rect>) {
    exists i, j :: 0 <= i < |out| && 0 <= j < |out| && Fits(out[i], out[j])
  }

  /** Of two rectangles that fit, the upper one is followed by one that ended above. */
  ghost predicate Blocked(out: seq<Rect>) {
    forall i, j :: 0 <= i < |out| && 0 <= j < |out| && Fits(out[i], out[j]) ==> BlockedAt(out, i, out[j].y)
  }

  /** While the strip from y on is added, every rectangle starts at y or above, and ends at y
      or above or with the strip. */
  ghost predicate Level(out: seq<Rect>, y: int, h: int) {
    forall k :: 0 <= k < |out| ==> Proper(out[k]) && out[k].y <= y && (End(out[k]) <= y || End(out[k]) == y + h)
  }

  lemma AddKeepsLevel(out: seq<Rect>, p: Rect, h: int)
    requires Level(out, p.y, h) && p.height == h && Proper(p)
    ensures Level(Add(out, p), p.y, h)
  {
  }

  lemma AddKeepsBlocked(out: seq<Rect>, p: Rect, h: int)
    requires Level(out, p.y, h) && p.height == h && Proper(p) && Blocked(out)
    ensures Blocked(Add(out, p))
  {
    var k, r := MergeIndex(out, p), Add(out, p);
    MergeIndexMeans(out, p);
    forall i, j | 0 <= i < |r| && 0 <= j < |r| && Fits(r[i], r[j]) ensures BlockedAt(r, i, r[j].y) {
      assert i < |out| && i != k;
      if j < |out| {
        assert Fits(out[i], out[j]);
        var b :| i < b < |out| && End(out[b]) < out[j].y;
        assert End(r[b]) < r[j].y;
      } else {
        var b :| i < b < |out| && End(out[b]) < p.y;
        assert End(r[b]) < r[j].y;
      }
    }
  }

  /** A fit that is there, or is missed now, stays. */
  lemma AddKeepsFit(out: seq<Rect>, p: Rect, h: int)
    requires Level(out, p.y, h) && p.height == h && Proper(p) && Blocked(out)
    requires HasFit(out) || Missed(out, p)
    ensures HasFit(Add(out, p))
  {
    var k, r := MergeIndex(out, p), Add(out, p);
    MergeIndexMeans(out, p);
    if HasFit(out) {
      var i, j :| 0 <= i < |out| && 0 <= j < |out| && Fits(out[i], out[j]);
      assert BlockedAt(out, i, out[j].y);
      assert i != k;
      assert Fits(r[i], r[j]);
    } else {
      var i :| 0 <= i < |out| && Fits(out[i], p);
      assert Fits(r[i], r[|out|]);
    }
  }

  // ----- the columns -----

  /** The last rectangle that the piece fits below, -1 if there is none. */
  function LastFit(cols: seq<Rect>, p: Rect): (k: int)
    ensures -1 <= k < |cols|
    ensures k >= 0 ==> Fits(cols[k], p)
    ensures forall j :: k < j < |cols| ==> !Fits(cols[j], p)
  {
    if cols == [] then -1
    else if Fits(cols[|cols| - 1], p) then |cols| - 1
    else LastFit(cols[..|cols| - 1], p)
  }

  function Continued(cols: seq<Rect>, p: Rect): seq<Rect> {
    var k := LastFit(cols, p);
    if k >= 0 then cols[k := cols[k].(height := cols[k].height + p.height)] else cols + [p]
  }

  /** The columns of pieces, in the order of their first pieces: a piece that fits below a
      column always continues it. */
  function Columns(ps: seq<Rect>): seq<Rect> {
    if ps == [] then [] else Continued(Columns(ps[..|ps| - 1]), ps[|ps| - 1])
  }

  /** Piece j continues a column, and a column that began later has ended above it. */
  ghost predicate CutShort(ps: seq<Rect>, j: nat)
    requires j < |ps|
  {
    var cols := Columns(ps[..j]);
    var k := LastFit(cols, ps[j]);
    k >= 0 && BlockedAt(cols, k, ps[j].y)
  }

  lemma {:induction false} ScanFindsLastFit(out: seq<Rect>, p: Rect)
    ensures var k := LastFit(out, p);
      MergeIndex(out, p) == if k >= 0 && !BlockedAt(out, k, p.y) then k else -1
  {
    if out != [] {
      var n := |out| - 1;
      var k := LastFit(out[..n], p);
      ScanFindsLastFit(out[..n], p);
      if End(out[n]) < p.y {
        assert k >= 0 ==> BlockedAt(out, k, p.y);
      } else if k >= 0 && !Fits(out[n], p) {
        assert BlockedAt(out[..n], k, p.y) ==> BlockedAt(out, k, p.y);
      }
    }
  }

  lemma LevelOn(out: seq<Rect>, p: Rect, q: Rect)
    requires Level(out, p.y, p.height) && Before(p, q) && Proper(p)
    ensures Level(out, q.y, q.height)
  {
  }

  lemma ContinuedKeepsLevel(cols: seq<Rect>, p: Rect)
    requires Level(cols, p.y, p.height) && Proper(p)
    ensures Level(Continued(cols, p), p.y, p.height)
    ensures !HasFit(cols) ==> !HasFit(Continued(cols, p))
  {
  }

  /** No column could be continued by another. */
  lemma {:induction false} ColumnsAreMaximal(ps: seq<Rect>)
    requires Stacked(ps)
    ensures !HasFit(Columns(ps))
    ensures ps != [] ==> Level(Columns(ps), ps[|ps| - 1].y, ps[|ps| - 1].height)
  {
    if ps != [] {
      var n := |ps| - 1;
      ColumnsAreMaximal(ps[..n]);
      if n > 0 {
        LevelOn(Columns(ps[..n]), ps[n - 1], ps[n]);
      }
      ContinuedKeepsLevel(Columns(ps[..n]), ps[n]);
    }
  }

  lemma {:induction false} AddedIsLevel(ps: seq<Rect>)
    requires Stacked(ps)
    ensures Blocked(Added([], ps))
    ensures ps != [] ==> Level(Added([], ps), ps[|ps| - 1].y, ps[|ps| - 1].height)
  {
    if ps != [] {
      var n := |ps| - 1;
      AddedIsLevel(ps[..n]);
      if n > 0 {
        LevelOn(Added([], ps[..n]), ps[n - 1], ps[n]);
      }
      AddKeepsLevel(Added([], ps[..n]), ps[n], ps[n].height);
      AddKeepsBlocked(Added([], ps[..n]), ps[n], ps[n].height);
    }
  }

  /** Among the first n pieces. */
  ghost predicate CutShortBy(ps: seq<Rect>, n: nat)
    requires n <= |ps|
  {
    exists j :: 0 <= j < n && CutShort(ps, j)
  }

  ghost predicate SomeCutShort(ps: seq<Rect>) { CutShortBy(ps, |ps|) }

  /** One piece more, on a result that either has a fit already or is the columns. */
  lemma AddExactly(out: seq<Rect>, cols: seq<Rect>, cut: bool, p: Rect)
    requires Level(out, p.y, p.height) && Blocked(out) && Proper(p)
    requires if cut then HasFit(out) else out == cols && !HasFit(cols)
    ensures var k := LastFit(cols, p);
      if cut || (k >= 0 && BlockedAt(cols, k, p.y)) then HasFit(Add(out, p)) else Add(out, p) == Continued(cols, p)
  {
    ScanFindsLastFit(out, p);
    if HasFit(out) || Missed(out, p) {
      AddKeepsFit(out, p, p.height);
    }
  }

  lemma AddedIsLevelAt(ps: seq<Rect>, n: nat)
    requires Stacked(ps) && n < |ps|
    ensures Level(Added([], ps[..n]), ps[n].y, ps[n].height) && Blocked(Added([], ps[..n]))
  {
    AddedIsLevel(ps[..n]);
    if n > 0 {
      LevelOn(Added([], ps[..n]), ps[n - 1], ps[n]);
    }
  }

  lemma StepOfBoth(ps: seq<Rect>, n: nat)
    requires n < |ps|
    ensures Added([], ps[..n + 1]) == Add(Added([], ps[..n]), ps[n])
    ensures Columns(ps[..n + 1]) == Continued(Columns(ps[..n]), ps[n])
  {
    assert ps[..n + 1][..n] == ps[..n];
  }

  /** After the first n pieces, the result has a fit, or is the columns so far. */
  ghost predicate Exact(ps: seq<Rect>, n: nat)
    requires n <= |ps|
  {
    if CutShortBy(ps, n) then HasFit(Added([], ps[..n])) else Added([], ps[..n]) == Columns(ps[..n])
  }

  lemma ExactOne(ps: seq<Rect>, n: nat)
    requires Stacked(ps) && n < |ps| && Exact(ps, n)
    ensures Exact(ps, n + 1)
  {
    var out, cols := Added([], ps[..n]), Columns(ps[..n]);
    AddedIsLevelAt(ps, n);
    ColumnsAreMaximal(ps[..n]);
    AddExactly(out, cols, CutShortBy(ps, n), ps[n]);
    StepOfBoth(ps, n);
    assert CutShortBy(ps, n + 1) <==> CutShortBy(ps, n) || CutShort(ps, n);
  }

  lemma {:induction false} AddedExactly(ps: seq<Rect>, n: nat)
    requires Stacked(ps) && n <= |ps|
    ensures Exact(ps, n)
  {
    if n > 0 {
      AddedExactly(ps, n - 1);
      ExactOne(ps, n - 1);
    }
  }

  /** The result holds two rectangles that fit, and so could be one, if and only if a piece
      continues a column of equal pieces that began before a column that has ended above.
      Otherwise the result is the columns. */
  lemma MaximalExactly(f: Frame, segments: int -> seq<Segment>)
    ensures HasFit(Tessellated(f, segments)) <==> SomeCutShort(Pieces(f, segments))
    ensures !SomeCutShort(Pieces(f, segments)) ==> Tessellated(f, segments) == Columns(Pieces(f, segments))
  {
    TessellatedAdds([], f, segments, 0);
    PiecesAreStacked(f, segments, 0);
    var ps := Pieces(f, segments);
    assert ps[..|ps|] == ps;
    AddedExactly(ps, |ps|);
    ColumnsAreMaximal(ps);
  }
}
