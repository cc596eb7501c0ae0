/** Concrete drawings: an axis-aligned rectangle, a rotated square, a
    triangle and a non-polyline entity, and the cut lists they give. */
module Scenarios {
  import opened Decimal
  import opened Geometry
  import opened Panels

  function P(x: real, y: real): Point {
    Point(x, y)
  }

  /** A 10 x 5 rectangle drawn as an open four-vertex polyline. */
  const Rectangle: Entity :=
    Entity(PolylineType, [[0.0, 0.0], [10.0, 0.0], [10.0, 5.0], [0.0, 5.0]])

  /** A square rotated by 45 degrees, side length 5 * sqrt(2). */
  const RotatedSquare: Entity :=
    Entity(PolylineType, [[0.0, 0.0], [5.0, 5.0], [0.0, 10.0], [-5.0, 5.0]])

  const Triangle: Entity :=
    Entity(PolylineType, [[0.0, 0.0], [4.0, 0.0], [0.0, 3.0]])

  /** A line entity: never looked at, whatever its vertices. */
  const Line: Entity :=
    Entity("LINE", [[0.0, 0.0], [10.0, 0.0], [10.0, 5.0], [0.0, 5.0]])

  const ClosedRectangle: seq<Point> :=
    [P(0.0, 0.0), P(10.0, 0.0), P(10.0, 5.0), P(0.0, 5.0), P(0.0, 0.0)]

  const ClosedRotatedSquare: seq<Point> :=
    [P(0.0, 0.0), P(5.0, 5.0), P(0.0, 10.0), P(-5.0, 5.0), P(0.0, 0.0)]

  /** The rotated square drawn with an extra vertex in the middle of its
      first edge and without a repeated first corner: five vertices that
      do not close the outline. */
  const SplitEdgeSquare: Entity :=
    Entity(PolylineType, [[0.0, 0.0], [2.5, 2.5], [5.0, 5.0], [0.0, 10.0], [-5.0, 5.0]])

  const SplitEdgePoints: seq<Point> :=
    [P(0.0, 0.0), P(2.5, 2.5), P(5.0, 5.0), P(0.0, 10.0), P(-5.0, 5.0)]

  lemma FirstName()
    ensures PanelName(1) == "Panel 1" && PanelName(2) == "Panel 2"
  {
    assert FromNat(1) == "1" && FromNat(2) == "2";
  }

  /** A drawing of one entity gives at most the record of that entity,
      numbered 1. */
  lemma SingleEntity(e: Entity, lib: Library)
    ensures Accepts(e, lib) ==> CutList([e], lib) == [PanelFor(1, e, lib)]
    ensures !Accepts(e, lib) ==> CutList([e], lib) == []
  {
    CutListStep([], e, lib);
    assert [] + [e] == [e];
  }

  lemma RectangleClosed()
    ensures ClosedPoints(Rectangle) == ClosedRectangle
  {
    var pts := Project(Rectangle.vertices);
    assert pts == ClosedRectangle[..4];
  }

  lemma RotatedSquareClosed()
    ensures ClosedPoints(RotatedSquare) == ClosedRotatedSquare
  {
    var pts := Project(RotatedSquare.vertices);
    assert pts == ClosedRotatedSquare[..4];
  }

  /** The bounding box of the rectangle's corners is 10 x 5. */
  lemma RectangleSize()
    ensures BoxWidth(ClosedRectangle[..4]) == 10.0 && BoxHeight(ClosedRectangle[..4]) == 5.0
  {
    var corners := ClosedRectangle[..4];
    assert corners == [P(0.0, 0.0), P(10.0, 0.0), P(10.0, 5.0), P(0.0, 5.0)];
    forall k | 0 <= k < 4 ensures 0.0 <= corners[k].x <= 10.0 && 0.0 <= corners[k].y <= 5.0 {
      assert k == 0 || k == 1 || k == 2 || k == 3;
    }
    BoxWidthOfBounds(corners, 0.0, 10.0, 0, 1);
    BoxHeightOfBounds(corners, 0.0, 5.0, 0, 2);
  }

  /** The bounding box of the rotated square's corners is 10 x 10. */
  lemma RotatedSquareSize()
    ensures BoxWidth(ClosedRotatedSquare[..4]) == 10.0 && BoxHeight(ClosedRotatedSquare[..4]) == 10.0
  {
    var corners := ClosedRotatedSquare[..4];
    assert corners == [P(0.0, 0.0), P(5.0, 5.0), P(0.0, 10.0), P(-5.0, 5.0)];
    forall k | 0 <= k < 4 ensures -5.0 <= corners[k].x <= 5.0 && 0.0 <= corners[k].y <= 10.0 {
      assert k == 0 || k == 1 || k == 2 || k == 3;
    }
    BoxWidthOfBounds(corners, -5.0, 5.0, 3, 1);
    BoxHeightOfBounds(corners, 0.0, 10.0, 0, 2);
  }

  /** The open rectangle is closed before the gate and measures 10 x 5. */
  lemma RectangleCutList(lib: Library)
    requires lib.polygonIsValid(ClosedRectangle) && lib.polygonIsRectangle(ClosedRectangle)
    ensures CutList([Rectangle], lib) ==
            [Panel("Panel 1", lib.round2(10.0), lib.round2(5.0), 1, "MDF", "18mm")]
  {
    RectangleClosed();
    SingleEntity(Rectangle, lib);
    PanelForOf(1, Rectangle, lib, ClosedRectangle);
    RectangleSize();
    FirstName();
  }

  /** A rotated square passes a rotation-tolerant gate, and its reported
      size is its axis-aligned bounding box (10 x 10), not its side length. */
  lemma RotatedSquareCutList(lib: Library)
    requires lib.polygonIsValid(ClosedRotatedSquare) && lib.polygonIsRectangle(ClosedRotatedSquare)
    ensures CutList([RotatedSquare], lib) ==
            [Panel("Panel 1", lib.round2(10.0), lib.round2(10.0), 1, "MDF", "18mm")]
  {
    RotatedSquareClosed();
    SingleEntity(RotatedSquare, lib);
    PanelForOf(1, RotatedSquare, lib, ClosedRotatedSquare);
    RotatedSquareSize();
    FirstName();
  }

  /** A four-entity input whose first and last entities are accepted and
      whose middle two are rejected gives two records, numbered 1 and 2. */
  lemma TwoAccepted(es: seq<Entity>, lib: Library)
    requires |es| == 4
    requires Accepts(es[0], lib) && !Accepts(es[1], lib) && !Accepts(es[2], lib) && Accepts(es[3], lib)
    ensures CutList(es, lib) == [PanelFor(1, es[0], lib), PanelFor(2, es[3], lib)]
  {
    assert es[..0] == [];
    CutListPrefixStep(es, 0, lib);
    CutListPrefixStep(es, 1, lib);
    CutListPrefixStep(es, 2, lib);
    CutListPrefixStep(es, 3, lib);
    assert es[..4] == es;
  }

  /** Three vertices are not closed and fail the five-point gate. */
  lemma TriangleRejected(lib: Library)
    ensures !Accepts(Triangle, lib)
  {
  }

  /** A line entity fails the type test, whatever its vertices. */
  lemma LineRejected(lib: Library)
    ensures !Accepts(Line, lib)
  {
  }

  lemma RectangleRecord(n: nat, lib: Library)
    requires lib.polygonIsValid(ClosedRectangle) && lib.polygonIsRectangle(ClosedRectangle)
    ensures Accepts(Rectangle, lib)
    ensures PanelFor(n, Rectangle, lib) ==
            Panel(PanelName(n), lib.round2(10.0), lib.round2(5.0), 1, "MDF", "18mm")
  {
    RectangleClosed();
    PanelForOf(n, Rectangle, lib, ClosedRectangle);
    RectangleSize();
  }

  lemma RotatedSquareRecord(n: nat, lib: Library)
    requires lib.polygonIsValid(ClosedRotatedSquare) && lib.polygonIsRectangle(ClosedRotatedSquare)
    ensures Accepts(RotatedSquare, lib)
    ensures PanelFor(n, RotatedSquare, lib) ==
            Panel(PanelName(n), lib.round2(10.0), lib.round2(10.0), 1, "MDF", "18mm")
  {
    RotatedSquareClosed();
    PanelForOf(n, RotatedSquare, lib, ClosedRotatedSquare);
    RotatedSquareSize();
  }

  /** Two rectangles around a triangle and a line: the triangle and the line
      are skipped without error and the rectangles are numbered 1 and 2 in
      drawing order. */
  lemma MixedDrawing(lib: Library)
    requires lib.polygonIsValid(ClosedRectangle) && lib.polygonIsRectangle(ClosedRectangle)
    requires lib.polygonIsValid(ClosedRotatedSquare) && lib.polygonIsRectangle(ClosedRotatedSquare)
    ensures CutList([Rectangle, Triangle, Line, RotatedSquare], lib) ==
            [Panel("Panel 1", lib.round2(10.0), lib.round2(5.0), 1, "MDF", "18mm"),
             Panel("Panel 2", lib.round2(10.0), lib.round2(10.0), 1, "MDF", "18mm")]
  {
    RectangleRecord(1, lib);
    RotatedSquareRecord(2, lib);
    TriangleRejected(lib);
    LineRejected(lib);
    TwoAccepted([Rectangle, Triangle, Line, RotatedSquare], lib);
    FirstName();
  }

  /** A drawing without entities gives an empty cut list. */
  lemma EmptyDrawing(lib: Library)
    ensures CutList([], lib) == []
  {
  }

  /** A five-vertex outline is measured without its fifth vertex even when
      that vertex does not repeat the first: the split-edge square spans
      10 in x, but its record reports the width of its first four
      vertices, 5. */
  lemma SplitEdgeSquareDropsCorner(lib: Library)
    requires lib.polygonIsValid(SplitEdgePoints) && lib.polygonIsRectangle(SplitEdgePoints)
    ensures Accepts(SplitEdgeSquare, lib)
    ensures BoxWidth(ClosedPoints(SplitEdgeSquare)) == 10.0
    ensures PanelFor(1, SplitEdgeSquare, lib).width == lib.round2(5.0)
    ensures PanelFor(1, SplitEdgeSquare, lib).height == lib.round2(10.0)
  {
    var pts := Project(SplitEdgeSquare.vertices);
    assert pts == SplitEdgePoints;
    forall k | 0 <= k < 5 ensures -5.0 <= pts[k].x <= 5.0 {
      assert k == 0 || k == 1 || k == 2 || k == 3 || k == 4;
    }
    BoxWidthOfBounds(pts, -5.0, 5.0, 4, 2);
    var corners := SplitEdgePoints[..4];
    assert corners == [P(0.0, 0.0), P(2.5, 2.5), P(5.0, 5.0), P(0.0, 10.0)];
    forall k | 0 <= k < 4 ensures 0.0 <= corners[k].x <= 5.0 && 0.0 <= corners[k].y <= 10.0 {
      assert k == 0 || k == 1 || k == 2 || k == 3;
    }
    BoxWidthOfBounds(corners, 0.0, 5.0, 0, 2);
    BoxHeightOfBounds(corners, 0.0, 10.0, 0, 3);
    PanelForOf(1, SplitEdgeSquare, lib, SplitEdgePoints);
  }
}
