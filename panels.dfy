/** The panel-extraction pass: the rectangle gate, the specification of the
    cut list an entity sequence yields, and the extraction loop proved against it. */
module Panels {
  import opened Decimal
  import opened Geometry

  /** The entity type tag of the lightweight polylines the pass looks at. */
  const PolylineType: string := "LWPOLYLINE"
  const DefaultMaterial: string := "MDF"
  const DefaultThickness: string := "18mm"

  /** A drawing entity: its type tag and, for polylines, its vertices. */
  datatype Entity = Entity(dxftype: string, vertices: seq<Vertex>)

  /** One row of the cut list (the columns Panel, Width (mm), Height (mm),
      Qty, Material, Thickness). */
  datatype Panel = Panel(name: string, width: real, height: real, qty: int,
                         material: string, thickness: string)

  /** The collaborators whose behaviour the model does not define: the
      geometry library's validity and rectangle tests on a polygon, and
      rounding to two decimal places. */
  datatype Library = Library(polygonIsValid: seq<Point> -> bool,
                             polygonIsRectangle: seq<Point> -> bool,
                             round2: real -> real)

  /** The rectangle gate: a list that is not exactly five points long is
      never a rectangle; a five-point list is one exactly when the library
      finds the polygon both valid and a rectangle. */
  function IsRectangle(coords: seq<Point>, lib: Library): (r: bool)
    ensures |coords| != 5 ==> !r
    ensures r <==> |coords| == 5 && lib.polygonIsValid(coords) && lib.polygonIsRectangle(coords)
  {
    if |coords| != 5 then false
    else lib.polygonIsValid(coords) && lib.polygonIsRectangle(coords)
  }

  /** The point list the gate sees for an entity: its projected vertices,
      closed when there are four of them. */
  function ClosedPoints(e: Entity): seq<Point> {
    Close(Project(e.vertices))
  }

  /** The point list without its last point (Python's points[:-1]): for a
      five-vertex outline that is its fifth vertex, whether or not it
      repeats the first. */
  function Corners(pts: seq<Point>): seq<Point>
    requires |pts| > 0
  {
    pts[..|pts| - 1]
  }

  /** An entity yields a panel when it is a polyline that passes the gate. */
  predicate Accepts(e: Entity, lib: Library) {
    e.dxftype == PolylineType && IsRectangle(ClosedPoints(e), lib)
  }

  function PanelName(n: nat): string {
    "Panel " + FromNat(n)
  }

  /** The record the pass appends for an accepted entity when the counter
      has just become n. */
  function PanelFor(n: nat, e: Entity, lib: Library): Panel
    requires Accepts(e, lib)
  {
    var corners := Corners(ClosedPoints(e));
    Panel(PanelName(n), lib.round2(BoxWidth(corners)), lib.round2(BoxHeight(corners)),
          1, DefaultMaterial, DefaultThickness)
  }

  /** The cut list of an entity sequence, built as the pass builds it: the
      cut list of all but the last entity, then one more record when the
      last entity is accepted, numbered one past the records so far. */
  function CutList(es: seq<Entity>, lib: Library): (r: seq<Panel>)
    ensures |r| <= |es|
    decreases |es|
  {
    if es == [] then []
    else
      var prev := CutList(es[..|es| - 1], lib);
      var e := es[|es| - 1];
      if Accepts(e, lib) then prev + [PanelFor(|prev| + 1, e, lib)] else prev
  }

  /** The input positions of the accepted entities, in increasing order. */
  function Positions(es: seq<Entity>, lib: Library): (r: seq<nat>)
    ensures |r| == |CutList(es, lib)|
    ensures forall k :: 0 <= k < |r| ==> r[k] < |es| && Accepts(es[r[k]], lib)
    decreases |es|
  {
    if es == [] then []
    else
      var prev := Positions(es[..|es| - 1], lib);
      if Accepts(es[|es| - 1], lib) then prev + [|es| - 1] else prev
  }

  /** The model of the loop of the source: walks the entities in order,
      keeps a counter that starts at 0 in every call, and appends one
      record per entity that passes the gate. */
  method ExtractPanels(entities: seq<Entity>, lib: Library) returns (panels: seq<Panel>)
    ensures panels == CutList(entities, lib)
  {
    panels := [];
    var panelCount: nat := 0;
    for i := 0 to |entities|
      invariant panels == CutList(entities[..i], lib)
      invariant panelCount == |panels|
    {
      var entity := entities[i];
      CutListPrefixStep(entities, i, lib);
      if entity.dxftype == PolylineType {
        var points := Project(entity.vertices);
        if |points| == 4 {
          points := points + [points[0]];
        }
        assert points == ClosedPoints(entity);
        if IsRectangle(points, lib) {
          panelCount := panelCount + 1;
          var corners := points[..|points| - 1];
          var width := BoxWidth(corners);
          var height := BoxHeight(corners);
          var panel := Panel(PanelName(panelCount), lib.round2(width), lib.round2(height),
                             1, DefaultMaterial, DefaultThickness);
          PanelForOf(panelCount, entity, lib, points);
          panels := panels + [panel];
        }
      }
    }
    assert entities[..|entities|] == entities;
  }

  // ---------------------------------------------------------------------
  // Properties of the specification

  /** The record for an accepted entity, computed from the closed point
      list the gate saw. */
  lemma PanelForOf(n: nat, e: Entity, lib: Library, points: seq<Point>)
    requires Accepts(e, lib) && points == ClosedPoints(e)
    ensures PanelFor(n, e, lib) ==
            Panel(PanelName(n), lib.round2(BoxWidth(points[..|points| - 1])),
                  lib.round2(BoxHeight(points[..|points| - 1])), 1, DefaultMaterial, DefaultThickness)
  {
  }

  /** Processing one more entity: a rejected one leaves the cut list (and so
      the counter, its length) unchanged; an accepted one appends exactly
      one record, numbered one past the records so far. */
  lemma CutListStep(es: seq<Entity>, e: Entity, lib: Library)
    ensures !Accepts(e, lib) ==> CutList(es + [e], lib) == CutList(es, lib)
    ensures Accepts(e, lib) ==>
              CutList(es + [e], lib) == CutList(es, lib) + [PanelFor(|CutList(es, lib)| + 1, e, lib)]
  {
    assert (es + [e])[..|es|] == es;
  }

  /** CutListStep for the input prefix of length i + 1. */
  lemma CutListPrefixStep(es: seq<Entity>, i: nat, lib: Library)
    requires i < |es|
    ensures !Accepts(es[i], lib) ==> CutList(es[..i + 1], lib) == CutList(es[..i], lib)
    ensures Accepts(es[i], lib) ==>
              CutList(es[..i + 1], lib) == CutList(es[..i], lib) + [PanelFor(|CutList(es[..i], lib)| + 1, es[i], lib)]
  {
    assert es[..i + 1][..i] == es[..i];
  }

  /** Removing a rejected entity from anywhere in the input leaves the cut
      list unchanged. */
  lemma {:induction false} CutListSkipsRejected(a: seq<Entity>, e: Entity, b: seq<Entity>, lib: Library)
    requires !Accepts(e, lib)
    ensures CutList(a + [e] + b, lib) == CutList(a + b, lib)
    decreases |b|
  {
    if b == [] {
      assert a + [e] + b == a + [e];
      assert a + b == a;
      CutListStep(a, e, lib);
    } else {
      var init, x := b[..|b| - 1], b[|b| - 1];
      CutListSkipsRejected(a, e, init, lib);
      assert a + [e] + b == (a + [e] + init) + [x];
      assert a + b == (a + init) + [x];
      CutListStep(a + [e] + init, x, lib);
      CutListStep(a + init, x, lib);
    }
  }

  /** An entity that is not a polyline never yields a record, whatever the
      geometry library says, and never moves the counter. */
  lemma NonPolylineIgnored(a: seq<Entity>, e: Entity, b: seq<Entity>, lib: Library)
    requires e.dxftype != PolylineType
    ensures CutList(a + [e] + b, lib) == CutList(a + b, lib)
  {
    CutListSkipsRejected(a, e, b, lib);
  }

  /** The gate can only pass an entity with four vertices (closed by the
      pass) or five (closed in the drawing). */
  lemma AcceptedVertexCount(e: Entity, lib: Library)
    ensures Accepts(e, lib) ==> |e.vertices| == 4 || |e.vertices| == 5
  {
  }

  /** The corners measured for an accepted entity are the projections of
      its first four vertices; when it had exactly four, the gate saw them
      followed by the first corner again. */
  lemma AcceptedCorners(e: Entity, lib: Library)
    requires Accepts(e, lib)
    ensures Corners(ClosedPoints(e)) == Project(e.vertices)[..4]
    ensures |e.vertices| == 4 ==> ClosedPoints(e) == Project(e.vertices) + [Project(e.vertices)[0]]
  {
    var pts := Project(e.vertices);
    assert |pts| == 4 || |pts| == 5;
    if |pts| == 4 {
      assert ClosedPoints(e)[..4] == pts;
    } else {
      assert ClosedPoints(e) == pts;
    }
  }

  /** Width and height of a panel are the axis-aligned extents of the
      entity's first four vertices, so never negative before rounding. */
  lemma PanelDimensions(n: nat, e: Entity, lib: Library)
    requires Accepts(e, lib)
    ensures var corners := Project(e.vertices)[..4];
            && PanelFor(n, e, lib).width == lib.round2(BoxWidth(corners))
            && PanelFor(n, e, lib).height == lib.round2(BoxHeight(corners))
            && 0.0 <= BoxWidth(corners) && 0.0 <= BoxHeight(corners)
  {
    AcceptedCorners(e, lib);
  }

  /** Record k (from 0) of the cut list is the record, with counter value
      k + 1, of the entity at the k-th accepted position. */
  lemma {:induction false} CutListAt(es: seq<Entity>, k: nat, lib: Library)
    requires k < |CutList(es, lib)|
    ensures k < |Positions(es, lib)| && Positions(es, lib)[k] < |es|
    ensures Accepts(es[Positions(es, lib)[k]], lib)
    ensures CutList(es, lib)[k] == PanelFor(k + 1, es[Positions(es, lib)[k]], lib)
    decreases |es|
  {
    var init := es[..|es| - 1];
    if k < |CutList(init, lib)| {
      CutListAt(init, k, lib);
      assert init[Positions(init, lib)[k]] == es[Positions(init, lib)[k]];
    }
  }

  /** Every record is named after its position and carries the fixed
      quantity, material and thickness. */
  lemma CutListRecord(es: seq<Entity>, k: nat, lib: Library)
    requires k < |CutList(es, lib)|
    ensures CutList(es, lib)[k].name == PanelName(k + 1)
    ensures CutList(es, lib)[k].qty == 1
    ensures CutList(es, lib)[k].material == DefaultMaterial
    ensures CutList(es, lib)[k].thickness == DefaultThickness
  {
    CutListAt(es, k, lib);
  }

  lemma {:induction false} PositionsIncreasing(es: seq<Entity>, lib: Library)
    ensures forall k, l :: 0 <= k < l < |Positions(es, lib)| ==>
              Positions(es, lib)[k] < Positions(es, lib)[l]
    decreases |es|
  {
    if es != [] {
      PositionsIncreasing(es[..|es| - 1], lib);
    }
  }

  lemma {:induction false} PositionsComplete(es: seq<Entity>, lib: Library)
    ensures forall i :: 0 <= i < |es| && Accepts(es[i], lib) ==> i in Positions(es, lib)
    decreases |es|
  {
    if es != [] {
      var init := es[..|es| - 1];
      PositionsComplete(init, lib);
      forall i | 0 <= i < |es| - 1 && Accepts(es[i], lib) ensures i in Positions(es, lib) {
        assert init[i] == es[i];
      }
    }
  }

  /** Records appear in input order: record k is the record of the entity at
      input position idx[k], the positions strictly increase, and every
      accepted entity has its record. */
  lemma CutListOrder(es: seq<Entity>, lib: Library) returns (idx: seq<nat>)
    ensures |idx| == |CutList(es, lib)|
    ensures forall k, l :: 0 <= k < l < |idx| ==> idx[k] < idx[l]
    ensures forall i :: 0 <= i < |es| && Accepts(es[i], lib) ==> i in idx
    ensures forall k :: 0 <= k < |idx| ==>
              idx[k] < |es| && Accepts(es[idx[k]], lib) &&
              CutList(es, lib)[k] == PanelFor(k + 1, es[idx[k]], lib)
  {
    idx := Positions(es, lib);
    PositionsIncreasing(es, lib);
    PositionsComplete(es, lib);
    forall k | 0 <= k < |idx|
      ensures CutList(es, lib)[k] == PanelFor(k + 1, es[idx[k]], lib)
    {
      CutListAt(es, k, lib);
    }
  }

  /** The cut list is empty exactly when no entity is accepted. */
  lemma CutListEmpty(es: seq<Entity>, lib: Library)
    ensures CutList(es, lib) == [] <==> forall i :: 0 <= i < |es| ==> !Accepts(es[i], lib)
  {
    PositionsComplete(es, lib);
    var idx := Positions(es, lib);
    if idx != [] {
      assert Accepts(es[idx[0]], lib);
    }
  }

  /** Distinct counter values give distinct names. */
  lemma PanelNameInjective(m: nat, n: nat)
    requires m != n
    ensures PanelName(m) != PanelName(n)
  {
    var prefix := "Panel ";
    assert PanelName(m)[|prefix|..] == FromNat(m);
    assert PanelName(n)[|prefix|..] == FromNat(n);
    FromNatInjective(m, n);
  }

  lemma NamesDistinctAt(r: seq<Panel>, k: nat, l: nat)
    requires k < l < |r| && r[k].name == PanelName(k + 1) && r[l].name == PanelName(l + 1)
    ensures r[k].name != r[l].name
  {
    PanelNameInjective(k + 1, l + 1);
  }

  /** No two records share a name. */
  lemma PanelNamesDistinct(es: seq<Entity>, k: nat, l: nat, lib: Library)
    requires k < l < |CutList(es, lib)|
    ensures CutList(es, lib)[k].name != CutList(es, lib)[l].name
  {
    CutListRecord(es, k, lib);
    CutListRecord(es, l, lib);
    NamesDistinctAt(CutList(es, lib), k, l);
  }
}
