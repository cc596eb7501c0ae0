# Cut-list extraction from DXF drawings — a Dafny model

The application reads a DXF drawing of furniture panels and turns it into a
cut list. It walks the entities of the drawing's model space in order. It
looks only at lightweight polylines (`LWPOLYLINE`) and takes the (x, y) part
of each vertex. An outline with four points is closed by repeating its first
point. The point list then goes through a rectangle gate: it must have exactly
five points, and the geometry library must find the polygon valid and a
rectangle. Every accepted outline raises a panel counter and adds a record:

- the name `Panel <counter>`;
- the width and height of the axis-aligned bounding box of the point list
  without its last point, each rounded to two decimals (for a five-vertex
  outline that is its fifth vertex, whether or not it repeats the first);
- quantity 1, material `MDF` and thickness `18mm`.

The model has four modules:

- `Geometry` (`geometry.dfy`): points, vertex projection, closing a
  four-point outline, and bounding-box extents.
- `Decimal` (`decimal.dfy`): the decimal numeral of the counter, as the name
  formatting writes it, and its inverse.
- `Panels` (`panels.dfy`): the rectangle gate, the specification function
  `CutList`, the loop `ExtractPanels` proved equal to it, and the properties
  of `CutList`.
- `Scenarios` (`scenarios.dfy`): concrete drawings and the cut lists they
  give.

The geometry library's two polygon tests and `round(., 2)` are not defined by
the model. They are the three fields of a `Library` value, an argument of
every `Panels` operation that consults it, so the `Panels` properties hold whatever they
compute; the `Scenarios` lemmas assume that the library accepts the outlines
they name.

## Model

| member | source | states |
|---|---|---|
| Panels.IsRectangle | app.py:7-11 | a list whose length is not 5 is rejected; the gate passes exactly when the list has 5 points and the polygon is both valid and a rectangle |
| Panels.ExtractPanels | app.py:17-38 | the loop, with a counter starting at 0, returns exactly the specified cut list of the entity sequence |
| Panels.Accepts | app.py:21-25 | no contract of its own: an entity is accepted when it is a polyline and its closed point list passes the gate; AcceptedVertexCount, NonPolylineIgnored and CutListSkipsRejected describe it |
| Panels.ClosedPoints | app.py:22-24 | no contract of its own: the projected vertices, closed when there are four; Geometry.Project, Geometry.Close and AcceptedCorners describe it |
| Panels.Corners | app.py:27-28 | no contract of its own: the point list without its last point (for a five-vertex outline, its fifth vertex, whether or not it repeats the first); AcceptedCorners and Scenarios.SplitEdgeSquareDropsCorner describe it |
| Panels.PanelName | app.py:32 | no contract of its own: "Panel " followed by the decimal numeral of the counter; PanelNameInjective and Scenarios.FirstName describe it |
| Panels.PanelFor | app.py:26-38 | no contract of its own: the record appended for an accepted entity; PanelForOf, PanelDimensions and CutListRecord describe it |
| Panels.CutList | app.py:17-38 | the cut list has no more records than there are entities |
| Panels.CutListStep | app.py:20-38 | loop-proof helper (the recursive equation of CutList at es + [e]): one more rejected entity leaves the records and counter unchanged; one more accepted entity appends exactly one record, numbered one past the records so far |
| Panels.CutListPrefixStep | app.py:20-38 | loop-proof helper: the same step stated for the prefix of length i + 1, as the loop invariant of ExtractPanels uses it |
| Panels.CutListSkipsRejected | app.py:20-25 | removing a rejected entity from any position leaves the cut list unchanged |
| Panels.NonPolylineIgnored | app.py:21 | an entity that is not a polyline never changes the cut list, whatever the geometry library says |
| Panels.AcceptedVertexCount | app.py:22-25 | only an entity with 4 or 5 vertices can be accepted |
| Panels.AcceptedCorners | app.py:22-28 | the measured corners are the projections of the first four vertices; a four-vertex outline is seen by the gate closed with its first point |
| Panels.PanelForOf | app.py:26-38 | loop-proof helper (the body of PanelFor over the loop's local point list): the record of an accepted entity is built from the closed point list without its last point, with the fixed quantity, material and thickness |
| Panels.PanelDimensions | app.py:27-34 | width and height are the rounded x and y extents of the first four projected vertices, and the extents are never negative |
| Panels.Positions | app.py:20-25 | one position per record; each position is an input index whose entity is accepted |
| Panels.PositionsIncreasing | app.py:20 | the positions strictly increase |
| Panels.PositionsComplete | app.py:20-25 | every accepted entity's index is among the positions |
| Panels.CutListAt | app.py:25-38 | record k is the record, with counter k + 1, of the entity at the k-th accepted position |
| Panels.CutListOrder | app.py:20-38 | there is a strictly increasing list of input indices, one per record, covering every accepted entity, with record k built from entity idx[k] and counter k + 1 |
| Panels.CutListRecord | app.py:31-38 | record k is named after counter value k + 1 and has quantity 1, material MDF and thickness 18mm |
| Panels.CutListEmpty | app.py:17-31 | the cut list is empty exactly when no entity is accepted |
| Panels.PanelNameInjective | app.py:32 | different counter values give different names |
| Panels.PanelNamesDistinct | app.py:26-32 | no two records of a cut list share a name |
| Geometry.Project | app.py:22 | one point per vertex, whose x and y are the vertex's first two components |
| Geometry.Close | app.py:23-24 | the result has 5 points exactly when the input has 4 or 5; the input is a prefix of the result; only a four-point list changes, by getting its first point appended |
| Geometry.Max | app.py:29-30 | no contract of its own: the largest element of a non-empty list; MaxIsGreatest describes it |
| Geometry.Min | app.py:29-30 | no contract of its own: the smallest element of a non-empty list; MinIsLeast describes it |
| Geometry.Xs | app.py:27 | one x per point, pointwise equal to that point's x |
| Geometry.Ys | app.py:28 | one y per point, pointwise equal to that point's y |
| Geometry.MaxIsGreatest | app.py:29-30 | the maximum is an element of the list that no element exceeds |
| Geometry.MinIsLeast | app.py:29-30 | the minimum is an element of the list that exceeds no element |
| Geometry.Extent | app.py:29-30 | max - min is never negative |
| Geometry.ExtentIsLargestGap | app.py:29-30 | max - min bounds every difference of two elements and equals one of them |
| Geometry.BoxWidth | app.py:27-29 | the bounding-box width is never negative |
| Geometry.BoxHeight | app.py:28-30 | the bounding-box height is never negative |
| Geometry.BoxWidthIsLargestGap | app.py:27-29 | the width bounds every x difference of two points and equals one of them |
| Geometry.BoxHeightIsLargestGap | app.py:28-30 | the height bounds every y difference of two points and equals one of them |
| Geometry.BoxWidthOfBounds | app.py:27-29 | when every x lies in [lo, hi] and both ends occur, the width is hi - lo |
| Geometry.BoxHeightOfBounds | app.py:28-30 | when every y lies in [lo, hi] and both ends occur, the height is hi - lo |
| Decimal.FromNat | app.py:32 | the numeral is non-empty, all digits, and starts with 0 only for zero |
| Decimal.ToNatFromNat | app.py:32 | reading the numeral back gives the number |
| Decimal.FromNatInjective | app.py:32 | different numbers have different numerals |
| Scenarios.FirstName | app.py:32 | counters 1 and 2 give "Panel 1" and "Panel 2" |
| Scenarios.SingleEntity | app.py:20-38 | a one-entity drawing gives that entity's record numbered 1, or nothing |
| Scenarios.RectangleClosed | app.py:22-24 | the open 10 x 5 rectangle is closed by repeating its first corner |
| Scenarios.RotatedSquareClosed | app.py:22-24 | the same for a square rotated by 45 degrees |
| Scenarios.RectangleSize | app.py:27-30 | the rectangle's corners span 10 in x and 5 in y |
| Scenarios.RotatedSquareSize | app.py:27-30 | the rotated square's corners span 10 in x and 10 in y: its bounding box, not its side length |
| Scenarios.RectangleCutList | app.py:20-38 | a drawing holding only the rectangle gives one record "Panel 1" of rounded size 10 x 5 |
| Scenarios.RotatedSquareCutList | app.py:20-38 | a drawing holding only the rotated square gives one record "Panel 1" of rounded size 10 x 10 when the gate passes it |
| Scenarios.RectangleRecord | app.py:26-38 | the rectangle's record for any counter value |
| Scenarios.RotatedSquareRecord | app.py:26-38 | the rotated square's record for any counter value |
| Scenarios.TwoAccepted | app.py:20-38 | accepted, rejected, rejected, accepted gives exactly two records, numbered 1 and 2 in input order |
| Scenarios.TriangleRejected | app.py:8-9 | a three-vertex polyline is rejected by the length test |
| Scenarios.LineRejected | app.py:21 | a line entity is rejected by the type test |
| Scenarios.SplitEdgeSquareDropsCorner | app.py:23-30 | a five-vertex outline whose last vertex does not repeat the first is measured without that vertex: if the library accepts it, a square spanning 10 in x is reported 5 wide |
| Scenarios.MixedDrawing | app.py:20-38 | rectangle, triangle, line, rotated square give the two records "Panel 1" (10 x 5) and "Panel 2" (10 x 10), with nothing for the triangle and the line |
| Scenarios.EmptyDrawing | app.py:17-38 | a drawing without entities gives an empty cut list |

## Left out

- Reading the DXF file and iterating its model space: the input is the entity sequence in model-space order, and each entity is its type tag and vertex list.
- The geometry library's polygon construction and its validity and rectangle tests: they are arbitrary predicates on the point list. The model does not say whether the library has a rectangle test at all, or what the test does on any drawing.
- Panels.PanelDimensions: states the extents as exact real numbers and stays silent on what rounding to two decimals gives. Rounding is an arbitrary function, so nothing is proved about the rounded value, not even that it is non-negative.
- Floating-point coordinates are real numbers in the model. So max - min carries no rounding error.
- Panels.Corners: a five-vertex outline is measured on its first four vertices. When the fifth vertex does not repeat the first, the reported box can be smaller than the outline's, and the model keeps that behaviour (Scenarios.SplitEdgeSquareDropsCorner). Whether the library's rectangle test passes such an outline is not modelled.
- Extra vertex components (start and end width, bulge) are allowed by the vertex type and ignored, as in the source. Arc segments that a bulge would describe are not measured.
- Collecting the records into a data frame is not modelled: the result is the record sequence, column for column. The same goes for the web user interface, the upload widget, the table display and the CSV export.
- Errors the drawing reader or the geometry library may raise are not modelled: the model has no error path for them.
