/** Points, the projection of drawing vertices to (x, y), the closing of an
    open four-corner outline, and axis-aligned extents. */
module Geometry {

  /** A 2D point in drawing units. */
  datatype Point = Point(x: real, y: real)

  /** A vertex as the drawing reader delivers it: x, y and possibly further
      components (widths, bulge) that the extractor ignores. */
  type Vertex = v: seq<real> | |v| >= 2 witness [0.0, 0.0]

  /** One (x, y) point per vertex, taken from the vertex's first two components. */
  function Project(vs: seq<Vertex>): (pts: seq<Point>)
    ensures |pts| == |vs|
    ensures forall i :: 0 <= i < |vs| ==> pts[i].x == vs[i][0] && pts[i].y == vs[i][1]
  {
    if vs == [] then [] else [Point(vs[0][0], vs[0][1])] + Project(vs[1..])
  }

  /** Closes an open outline of exactly four points by repeating its first
      point; any other list is left as it is. */
  function Close(pts: seq<Point>): (r: seq<Point>)
    ensures |r| == 5 <==> |pts| == 4 || |pts| == 5
    ensures |pts| <= |r| && r[..|pts|] == pts
    ensures |r| != |pts| ==> |pts| == 4 && r == pts + [pts[0]]
  {
    if |pts| == 4 then pts + [pts[0]] else pts
  }

  function Max(s: seq<real>): real
    requires |s| > 0
  {
    if |s| == 1 then s[0]
    else
      var rest := Max(s[1..]);
      if s[0] >= rest then s[0] else rest
  }

  function Min(s: seq<real>): real
    requires |s| > 0
  {
    if |s| == 1 then s[0]
    else
      var rest := Min(s[1..]);
      if s[0] <= rest then s[0] else rest
  }

  /** Max picks an element that no element exceeds. */
  lemma {:induction false} MaxIsGreatest(s: seq<real>)
    requires |s| > 0
    ensures Max(s) in s
    ensures forall i :: 0 <= i < |s| ==> s[i] <= Max(s)
  {
    if |s| > 1 {
      MaxIsGreatest(s[1..]);
      assert forall i :: 1 <= i < |s| ==> s[i] == s[1..][i - 1];
    }
  }

  /** Min picks an element that exceeds no element. */
  lemma {:induction false} MinIsLeast(s: seq<real>)
    requires |s| > 0
    ensures Min(s) in s
    ensures forall i :: 0 <= i < |s| ==> Min(s) <= s[i]
  {
    if |s| > 1 {
      MinIsLeast(s[1..]);
      assert forall i :: 1 <= i < |s| ==> s[i] == s[1..][i - 1];
    }
  }

  /** max - min of a non-empty list; never negative. */
  function Extent(s: seq<real>): (w: real)
    requires |s| > 0
    ensures 0.0 <= w
  {
    MaxIsGreatest(s);
    MinIsLeast(s);
    Max(s) - Min(s)
  }

  /** The extent is the largest difference between two elements. */
  lemma ExtentIsLargestGap(s: seq<real>)
    requires |s| > 0
    ensures forall i, j :: 0 <= i < |s| && 0 <= j < |s| ==> s[i] - s[j] <= Extent(s)
    ensures exists i, j :: 0 <= i < |s| && 0 <= j < |s| && s[i] - s[j] == Extent(s)
  {
    MaxIsGreatest(s);
    MinIsLeast(s);
    var i :| 0 <= i < |s| && s[i] == Max(s);
    var j :| 0 <= j < |s| && s[j] == Min(s);
    assert s[i] - s[j] == Extent(s);
  }

  function Xs(pts: seq<Point>): (xs: seq<real>)
    ensures |xs| == |pts|
    ensures forall i :: 0 <= i < |pts| ==> xs[i] == pts[i].x
  {
    seq(|pts|, i requires 0 <= i < |pts| => pts[i].x)
  }

  function Ys(pts: seq<Point>): (ys: seq<real>)
    ensures |ys| == |pts|
    ensures forall i :: 0 <= i < |pts| ==> ys[i] == pts[i].y
  {
    seq(|pts|, i requires 0 <= i < |pts| => pts[i].y)
  }

  /** Width of the axis-aligned bounding box (max x - min x); never negative. */
  function BoxWidth(pts: seq<Point>): (w: real)
    requires |pts| > 0
    ensures 0.0 <= w
  {
    Extent(Xs(pts))
  }

  /** Height of the axis-aligned bounding box (max y - min y); never negative. */
  function BoxHeight(pts: seq<Point>): (h: real)
    requires |pts| > 0
    ensures 0.0 <= h
  {
    Extent(Ys(pts))
  }

  /** The box width is the largest x difference between two of the points. */
  lemma BoxWidthIsLargestGap(pts: seq<Point>)
    requires |pts| > 0
    ensures forall i, j :: 0 <= i < |pts| && 0 <= j < |pts| ==> pts[i].x - pts[j].x <= BoxWidth(pts)
    ensures exists i, j :: 0 <= i < |pts| && 0 <= j < |pts| && pts[i].x - pts[j].x == BoxWidth(pts)
  {
    var xs := Xs(pts);
    ExtentIsLargestGap(xs);
    var i, j :| 0 <= i < |xs| && 0 <= j < |xs| && xs[i] - xs[j] == Extent(xs);
    assert pts[i].x - pts[j].x == BoxWidth(pts);
  }

  /** The box height is the largest y difference between two of the points. */
  lemma BoxHeightIsLargestGap(pts: seq<Point>)
    requires |pts| > 0
    ensures forall i, j :: 0 <= i < |pts| && 0 <= j < |pts| ==> pts[i].y - pts[j].y <= BoxHeight(pts)
    ensures exists i, j :: 0 <= i < |pts| && 0 <= j < |pts| && pts[i].y - pts[j].y == BoxHeight(pts)
  {
    var ys := Ys(pts);
    ExtentIsLargestGap(ys);
    var i, j :| 0 <= i < |ys| && 0 <= j < |ys| && ys[i] - ys[j] == Extent(ys);
    assert pts[i].y - pts[j].y == BoxHeight(pts);
  }

  /** The box width is the length of the tightest interval holding every x:
      when all x lie in [lo, hi] and both ends are attained, it is hi - lo. */
  lemma BoxWidthOfBounds(pts: seq<Point>, lo: real, hi: real, i: nat, j: nat)
    requires i < |pts| && j < |pts| && pts[i].x == lo && pts[j].x == hi
    requires forall k :: 0 <= k < |pts| ==> lo <= pts[k].x <= hi
    ensures BoxWidth(pts) == hi - lo
  {
    BoxWidthIsLargestGap(pts);
    var w := BoxWidth(pts);
    var a, b :| 0 <= a < |pts| && 0 <= b < |pts| && pts[a].x - pts[b].x == w;
    assert pts[j].x - pts[i].x <= w;
  }

  /** The box height is the length of the tightest interval holding every y:
      when all y lie in [lo, hi] and both ends are attained, it is hi - lo. */
  lemma BoxHeightOfBounds(pts: seq<Point>, lo: real, hi: real, i: nat, j: nat)
    requires i < |pts| && j < |pts| && pts[i].y == lo && pts[j].y == hi
    requires forall k :: 0 <= k < |pts| ==> lo <= pts[k].y <= hi
    ensures BoxHeight(pts) == hi - lo
  {
    BoxHeightIsLargestGap(pts);
    var h := BoxHeight(pts);
    var a, b :| 0 <= a < |pts| && 0 <= b < |pts| && pts[a].y - pts[b].y == h;
    assert pts[j].y - pts[i].y <= h;
  }
}
