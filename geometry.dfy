/**
 * Integer screen geometry as the effect uses it: Qt's QRect is an inclusive
 * box (right = left + width - 1) that is empty when over-shrunk, and a QRegion
 * is either a list of non-empty rectangles (where its decomposition matters:
 * iterating it, taking its bounding rectangle) or the set of points it covers
 * (where only union, difference and intersection matter).
 */
module Geometry {

  datatype Point = Point(x: int, y: int)

  datatype Size = Size(width: int, height: int)

  /** QRect: an inclusive box. */
  datatype Rect = Rect(left: int, top: int, right: int, bottom: int) {

    predicate IsEmpty() { right < left || bottom < top }

    function Width(): int { right - left + 1 }

    function Height(): int { bottom - top + 1 }

    /** QRect::size() */
    function Dimensions(): Size { Size(Width(), Height()) }

    predicate Contains(p: Point) { left <= p.x <= right && top <= p.y <= bottom }

    /** QRect::translated(dx, dy) */
    function Translated(dx: int, dy: int): Rect {
      Rect(left + dx, top + dy, right + dx, bottom + dy)
    }

    /** QRect::adjusted(dx1, dy1, dx2, dy2): moves each edge independently. */
    function Adjusted(dx1: int, dy1: int, dx2: int, dy2: int): Rect {
      Rect(left + dx1, top + dy1, right + dx2, bottom + dy2)
    }

    /** QRect::intersected */
    function Intersected(o: Rect): Rect {
      Rect(Max(left, o.left), Max(top, o.top), Min(right, o.right), Min(bottom, o.bottom))
    }
  }

  function Max(a: int, b: int): int { if a < b then b else a }

  function Min(a: int, b: int): int { if a < b then a else b }

  /** QRect(): the default (null) rectangle, which is empty. */
  const NullRect := Rect(0, 0, -1, -1)

  /** A QRegion's rectangles: Qt never stores an empty one. */
  predicate AllNonEmpty(rs: seq<Rect>) {
    forall i :: 0 <= i < |rs| ==> !rs[i].IsEmpty()
  }

  type RectList = rs: seq<Rect> | AllNonEmpty(rs) witness []

  /** The points a rectangle covers. */
  function Points(r: Rect): set<Point> {
    set x: int, y: int | r.left <= x <= r.right && r.top <= y <= r.bottom :: Point(x, y)
  }

  lemma PointsMember(r: Rect, p: Point)
    ensures p in Points(r) <==> r.Contains(p)
  {
    if r.Contains(p) {
      assert p == Point(p.x, p.y);
    }
  }

  lemma EmptyRectHasNoPoints(r: Rect)
    ensures r.IsEmpty() <==> Points(r) == {}
  {
    if !r.IsEmpty() {
      PointsMember(r, Point(r.left, r.top));
    }
  }

  /** The points a list of rectangles covers (the QRegion it builds). */
  function Cover(rs: seq<Rect>): set<Point>
    decreases |rs|
  {
    if rs == [] then {} else Cover(rs[..|rs| - 1]) + Points(rs[|rs| - 1])
  }

  lemma {:induction false} CoverMember(rs: seq<Rect>, p: Point)
    ensures p in Cover(rs) <==> exists i :: 0 <= i < |rs| && rs[i].Contains(p)
    decreases |rs|
  {
    if rs != [] {
      var front := rs[..|rs| - 1];
      CoverMember(front, p);
      PointsMember(rs[|rs| - 1], p);
      if p in Cover(front) {
        var i :| 0 <= i < |front| && front[i].Contains(p);
        assert rs[i] == front[i];
      }
      if exists i :: 0 <= i < |rs| && rs[i].Contains(p) {
        var i :| 0 <= i < |rs| && rs[i].Contains(p);
        if i < |rs| - 1 {
          assert front[i] == rs[i];
        }
      }
    }
  }

  lemma CoverAppend(rs: seq<Rect>, r: Rect)
    ensures Cover(rs + [r]) == Cover(rs) + Points(r)
  {
    assert (rs + [r])[..|rs|] == rs;
  }

  lemma {:induction false} CoverConcat(a: seq<Rect>, b: seq<Rect>)
    ensures Cover(a + b) == Cover(a) + Cover(b)
    decreases |b|
  {
    if b == [] {
      assert a + b == a;
    } else {
      var front := b[..|b| - 1];
      assert a + b == (a + front) + [b[|b| - 1]];
      CoverAppend(a + front, b[|b| - 1]);
      CoverConcat(a, front);
    }
  }

  /** Two point sets meet: QRegion::intersects. */
  predicate Intersects(a: set<Point>, b: set<Point>) { a * b != {} }

  /** The smallest box holding two non-empty boxes (QRect::united). */
  function United(a: Rect, b: Rect): Rect {
    Rect(Min(a.left, b.left), Min(a.top, b.top), Max(a.right, b.right), Max(a.bottom, b.bottom))
  }

  /** QRegion::boundingRect: the null rectangle for an empty region; empty
      rectangles (which a QRegion never holds) are skipped. */
  function Bounding(rs: seq<Rect>): (b: Rect)
    ensures b.IsEmpty() ==> b == NullRect
    ensures b.Width() >= 0 && b.Height() >= 0
    decreases |rs|
  {
    if rs == [] then NullRect
    else
      var front, last := Bounding(rs[..|rs| - 1]), rs[|rs| - 1];
      if last.IsEmpty() then front
      else if front.IsEmpty() then last
      else United(front, last)
  }

  lemma {:induction false} BoundingContains(rs: seq<Rect>, p: Point)
    requires p in Cover(rs)
    ensures Bounding(rs).Contains(p)
    decreases |rs|
  {
    var front, last := rs[..|rs| - 1], rs[|rs| - 1];
    assert Cover(rs) == Cover(front) + Points(last);
    if p in Cover(front) {
      BoundingContains(front, p);
    } else {
      PointsMember(last, p);
      BoundingNonEmpty(front);
    }
  }

  lemma {:induction false} BoundingNonEmpty(rs: seq<Rect>)
    ensures Bounding(rs).IsEmpty() <==> Cover(rs) == {}
    decreases |rs|
  {
    if rs != [] {
      BoundingNonEmpty(rs[..|rs| - 1]);
      if rs[|rs| - 1].IsEmpty() {
        EmptyLastRect(rs);
      } else {
        NonEmptyLastRect(rs);
      }
    }
  }

  /** An empty last rectangle adds nothing to the region or its bounding rectangle. */
  lemma EmptyLastRect(rs: seq<Rect>)
    requires rs != [] && rs[|rs| - 1].IsEmpty()
    ensures Cover(rs) == Cover(rs[..|rs| - 1]) && Bounding(rs) == Bounding(rs[..|rs| - 1])
  {
    EmptyRectHasNoPoints(rs[|rs| - 1]);
  }

  /** A non-empty last rectangle makes both the region and its bounding rectangle non-empty. */
  lemma NonEmptyLastRect(rs: seq<Rect>)
    requires rs != [] && !rs[|rs| - 1].IsEmpty()
    ensures Cover(rs) != {}
    ensures !Bounding(rs).IsEmpty()
  {
    NonEmptyLastCover(rs);
    NonEmptyLastBounding(rs);
  }

  lemma NonEmptyLastCover(rs: seq<Rect>)
    requires rs != [] && !rs[|rs| - 1].IsEmpty()
    ensures Cover(rs) != {}
  {
    var last := rs[|rs| - 1];
    var q := Point(last.left, last.top);
    PointsMember(last, q);
    assert q in Points(last);
  }

  lemma NonEmptyLastBounding(rs: seq<Rect>)
    requires rs != [] && !rs[|rs| - 1].IsEmpty()
    ensures !Bounding(rs).IsEmpty()
  {
    var front, last := rs[..|rs| - 1], rs[|rs| - 1];
    var fb := Bounding(front);
    if !fb.IsEmpty() {
      assert Bounding(rs) == United(fb, last);
      UnitedNonEmpty(fb, last);
    }
  }

  lemma UnitedNonEmpty(a: Rect, b: Rect)
    requires !b.IsEmpty()
    ensures !United(a, b).IsEmpty()
  {
  }

  /** Every point of a region lies in its bounding rectangle, and the bounding
      rectangle is empty exactly when the region is. */
  lemma BoundingCovers(rs: seq<Rect>)
    ensures Cover(rs) <= Points(Bounding(rs))
    ensures Bounding(rs).IsEmpty() <==> Cover(rs) == {}
  {
    forall p | p in Cover(rs) ensures p in Points(Bounding(rs)) {
      BoundingContains(rs, p);
      PointsMember(Bounding(rs), p);
    }
    BoundingNonEmpty(rs);
  }

  /** The points of an intersection are the common points. */
  lemma IntersectedPoints(a: Rect, b: Rect)
    ensures Points(a.Intersected(b)) == Points(a) * Points(b)
  {
    forall p ensures p in Points(a.Intersected(b)) <==> p in Points(a) && p in Points(b) {
      PointsMember(a.Intersected(b), p);
      PointsMember(a, p);
      PointsMember(b, p);
    }
  }

  /** QRegion::translated: every rectangle shifted. */
  function TranslatedAll(rs: seq<Rect>, dx: int, dy: int): (r: seq<Rect>)
    ensures |r| == |rs|
    ensures forall i :: 0 <= i < |rs| ==> r[i] == rs[i].Translated(dx, dy)
    ensures AllNonEmpty(rs) ==> AllNonEmpty(r)
  {
    seq(|rs|, i requires 0 <= i < |rs| => rs[i].Translated(dx, dy))
  }
}
