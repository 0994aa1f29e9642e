/**
 * The per-frame damage bookkeeping of prePaintWindow: two frame-scoped
 * regions (what has been painted so far, bottom to top, and what is blurred
 * so far) and the rewriting of each window's opaque and paint regions.
 */
module DamageTracker {

  import opened Geometry

  /** The parts of WindowPrePaintData the effect reads and rewrites: the
      opaque region (as its rectangles, which the shrinking iterates) and the
      region that will be painted. */
  datatype PrePaintData = PrePaintData(opaqueRects: RectList, paint: set<Point>)

  /** m_paintedArea and m_currentBlur. */
  datatype FrameRegions = FrameRegions(paintedArea: set<Point>, currentBlur: set<Point>)

  /** The start of a frame (prePaintScreen): nothing painted, nothing blurred. */
  const FrameStart := FrameRegions({}, {})

  /** A rectangle moved inwards by `d` on all four sides. */
  function Shrink(r: Rect, d: int): Rect { r.Adjusted(d, d, -d, -d) }

  /** The new opaque region: every rectangle shrunk, the ones that vanish
      dropped (adding an empty rectangle to a QRegion adds nothing). */
  function ShrunkOpaque(rs: seq<Rect>, d: int): (r: RectList)
    ensures |r| <= |rs|
    decreases |rs|
  {
    if rs == [] then []
    else
      var front, s := ShrunkOpaque(rs[..|rs| - 1], d), Shrink(rs[|rs| - 1], d);
      if s.IsEmpty() then front else front + [s]
  }

  /** A point is in the shrunk opaque region exactly when some rectangle of
      the opaque region, shrunk by `d`, contains it. */
  lemma {:induction false} ShrunkOpaqueMember(rs: seq<Rect>, d: int, p: Point)
    ensures p in Cover(ShrunkOpaque(rs, d)) <==> exists i :: 0 <= i < |rs| && Shrink(rs[i], d).Contains(p)
    decreases |rs|
  {
    if rs != [] {
      var front := rs[..|rs| - 1];
      var s := Shrink(rs[|rs| - 1], d);
      ShrunkOpaqueMember(front, d, p);
      PointsMember(s, p);
      if !s.IsEmpty() {
        CoverAppend(ShrunkOpaque(front, d), s);
      }
      if exists i :: 0 <= i < |front| && Shrink(front[i], d).Contains(p) {
        var i :| 0 <= i < |front| && Shrink(front[i], d).Contains(p);
        assert rs[i] == front[i];
      }
      if exists i :: 0 <= i < |rs| && Shrink(rs[i], d).Contains(p) {
        var i :| 0 <= i < |rs| && Shrink(rs[i], d).Contains(p);
        if i < |rs| - 1 {
          assert front[i] == rs[i];
        }
      }
    }
  }

  /** Shrinking by a non-negative margin never adds opaque area. */
  lemma ShrunkOpaqueInside(rs: seq<Rect>, d: int)
    requires d >= 0
    ensures Cover(ShrunkOpaque(rs, d)) <= Cover(rs)
  {
    forall p | p in Cover(ShrunkOpaque(rs, d)) ensures p in Cover(rs) {
      ShrunkOpaqueMember(rs, d, p);
      var i :| 0 <= i < |rs| && Shrink(rs[i], d).Contains(p);
      CoverMember(rs, p);
    }
  }

  /** The area a window wants blurred this frame: the bounding rectangle of
      its blur region, moved to the window's position. */
  function BlurArea(region: seq<Rect>, pos: Point): set<Point>
  {
    Points(Bounding(region).Translated(pos.x, pos.y))
  }

  /** A window's blur area holds its whole blur region, moved to its position. */
  lemma BlurAreaCovers(region: seq<Rect>, pos: Point)
    ensures Cover(TranslatedAll(region, pos.x, pos.y)) <= BlurArea(region, pos)
    ensures BlurArea(region, pos) == {} <==> Cover(region) == {}
  {
    var b := Bounding(region);
    BoundingCovers(region);
    forall p | p in Cover(TranslatedAll(region, pos.x, pos.y)) ensures p in BlurArea(region, pos) {
      CoverMember(TranslatedAll(region, pos.x, pos.y), p);
      var i :| 0 <= i < |region| && TranslatedAll(region, pos.x, pos.y)[i].Contains(p);
      var q := Point(p.x - pos.x, p.y - pos.y);
      CoverMember(region, q);
      PointsMember(b, q);
      PointsMember(b.Translated(pos.x, pos.y), p);
    }
    EmptyRectHasNoPoints(b);
    EmptyRectHasNoPoints(b.Translated(pos.x, pos.y));
  }

  /** One window's prePaintWindow step, windows being visited bottom to top.
      Below, `below` is the blurred area that remains under this window once
      the opaque region has been rewritten, `translucent` says that a
      non-opaque part of the window is painted over it, and `repaint` says
      that the window's blur area is painted again: by a window underneath,
      by this window, or by the remaining blurred area this window repaints. */
  function PrePaintWindow(f: FrameRegions, data: PrePaintData, blurArea: set<Point>, expandSize: int)
    : (r: (FrameRegions, PrePaintData))
    // an opaque region that meets the blurred area is shrunk, and the blurred
    // area loses exactly the shrunk opaque area; otherwise it is kept
    ensures Intersects(Cover(data.opaqueRects), f.currentBlur) ==>
              r.1.opaqueRects == ShrunkOpaque(data.opaqueRects, expandSize)
              && r.0.currentBlur == (f.currentBlur - Cover(r.1.opaqueRects)) + blurArea
    ensures !Intersects(Cover(data.opaqueRects), f.currentBlur) ==>
              r.1.opaqueRects == data.opaqueRects && r.0.currentBlur == f.currentBlur + blurArea
    // the window's blur area is blurred from now on
    ensures blurArea <= r.0.currentBlur <= f.currentBlur + blurArea
    ensures var below := f.currentBlur - Cover(r.1.opaqueRects);
            var translucent := Intersects(data.paint - Cover(data.opaqueRects), below);
            var repaint := Intersects(f.paintedArea, blurArea) || Intersects(data.paint, blurArea)
                           || (translucent && Intersects(below, blurArea));
            // the paint region only ever grows, and only by blurred area
            && data.paint <= r.1.paint <= data.paint + below + blurArea
            // a translucent part painted over blurred area repaints all of it
            && (translucent ==> below <= r.1.paint)
            // a blur area painted again is repainted whole ...
            && (repaint ==> blurArea <= r.1.paint)
            // ... and when it meets the blurred area below, so is all of that
            && (repaint && Intersects(blurArea, below) ==> below <= r.1.paint)
            // without either reason the paint region is left alone
            && (!translucent && !repaint ==> r.1.paint == data.paint)
            // and each reason adds only its own area
            && (translucent && !repaint ==> r.1.paint == data.paint + below)
            && (!translucent && repaint && !Intersects(blurArea, below) ==> r.1.paint == data.paint + blurArea)
    // what is painted so far: the old painted area not hidden by this window, plus what it paints
    ensures r.0.paintedArea == (f.paintedArea - Cover(r.1.opaqueRects)) + r.1.paint
  {
    var oldOpaque := Cover(data.opaqueRects);
    var shrink := Intersects(oldOpaque, f.currentBlur);
    var newOpaque: RectList := if shrink then ShrunkOpaque(data.opaqueRects, expandSize) else data.opaqueRects;
    var blur1 := if shrink then f.currentBlur - Cover(newOpaque) else f.currentBlur;
    // an opaque region that misses the blurred area takes nothing from it
    assert !shrink ==> blur1 == f.currentBlur - Cover(newOpaque) by {
      if !shrink {
        forall p | p in f.currentBlur ensures p !in oldOpaque {
          assert p in oldOpaque ==> p in oldOpaque * f.currentBlur;
        }
      }
    }
    var paint1 := if Intersects(data.paint - oldOpaque, blur1) then data.paint + blur1 else data.paint;
    var paint2 :=
      if Intersects(f.paintedArea, blurArea) || Intersects(paint1, blurArea) then
        if Intersects(blurArea, blur1) then paint1 + blurArea + blur1 else paint1 + blurArea
      else paint1;
    (FrameRegions((f.paintedArea - Cover(newOpaque)) + paint2, blur1 + blurArea), PrePaintData(newOpaque, paint2))
  }

  /** One window of a frame, as prePaintWindow sees it. */
  datatype WindowInput = WindowInput(data: PrePaintData, blurArea: set<Point>)

  /** A whole frame: the windows visited bottom to top from frame region
      state `f`; the result is the final state and every window's rewritten data. */
  function RunFrame(f: FrameRegions, ws: seq<WindowInput>, expandSize: int): (r: (FrameRegions, seq<PrePaintData>))
    ensures |r.1| == |ws|
    decreases |ws|
  {
    if ws == [] then (f, [])
    else
      var step := PrePaintWindow(f, ws[0].data, ws[0].blurArea, expandSize);
      var rest := RunFrame(step.0, ws[1..], expandSize);
      (rest.0, [step.1] + rest.1)
  }

  /** The union of all blur areas of a frame. */
  function BlurUnion(ws: seq<WindowInput>): set<Point>
    decreases |ws|
  {
    if ws == [] then {} else ws[0].blurArea + BlurUnion(ws[1..])
  }

  /** At any point of a frame the blurred area is part of the blur areas of
      the windows visited so far. */
  lemma {:induction false} FrameBlurBounded(f: FrameRegions, ws: seq<WindowInput>, expandSize: int)
    ensures RunFrame(f, ws, expandSize).0.currentBlur <= f.currentBlur + BlurUnion(ws)
    decreases |ws|
  {
    if ws != [] {
      var step := PrePaintWindow(f, ws[0].data, ws[0].blurArea, expandSize);
      FrameBlurBounded(step.0, ws[1..], expandSize);
    }
  }

  /** A frame of windows none of which wants blur leaves the blurred area
      empty and every window's opaque and paint regions as they were. */
  lemma {:induction false} FrameWithoutBlur(f: FrameRegions, ws: seq<WindowInput>, expandSize: int)
    requires f.currentBlur == {}
    requires forall i :: 0 <= i < |ws| ==> ws[i].blurArea == {}
    ensures RunFrame(f, ws, expandSize).0.currentBlur == {}
    ensures forall i :: 0 <= i < |ws| ==> RunFrame(f, ws, expandSize).1[i] == ws[i].data
    decreases |ws|
  {
    if ws != [] {
      var step := PrePaintWindow(f, ws[0].data, ws[0].blurArea, expandSize);
      assert step.1 == ws[0].data;
      FrameWithoutBlur(step.0, ws[1..], expandSize);
      var r := RunFrame(f, ws, expandSize);
      forall i | 0 <= i < |ws| ensures r.1[i] == ws[i].data {
        if i > 0 {
          assert ws[1..][i - 1] == ws[i];
        }
      }
    }
  }
}
