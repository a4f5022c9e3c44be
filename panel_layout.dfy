/** The box dimensions and the strip of four side panels the net command
    lays out along the X axis. */
module PanelLayout {
  import opened Geometry

  /** The width, height and depth of a box: the difference between the
      maximal and minimal corners of its bounding box. */
  function BoxExtent(box: BoundingBox): (e: Vector3)
    ensures Translate(box.min, e) == box.max
    ensures e.x >= 0.0 && e.y >= 0.0 && e.z >= 0.0 <==> Ordered(box)
  {
    Vector3(box.max.x - box.min.x, box.max.y - box.min.y, box.max.z - box.min.z)
  }

  /** A rectangle on the Z-normal plane through `origin`, with corners at
      `origin` moved by `width` along X and by `height` along Y. */
  function MakeRect(origin: Point3, width: real, height: real): (r: Rectangle)
    ensures r.plane.origin == origin && FlatOnZ(r)
    ensures Width(r) == (if width < 0.0 then -width else width)
    ensures Height(r) == (if height < 0.0 then -height else height)
    ensures width >= 0.0 ==> Left(r) == origin.x && Right(r) == origin.x + width
    ensures height >= 0.0 ==> Bottom(r) == origin.y && Top(r) == origin.y + height
  {
    var xAxisPoint := Translate(origin, Vector3(width, 0.0, 0.0));
    var yAxisPoint := Translate(origin, Vector3(0.0, height, 0.0));
    Rectangle(Plane(origin, ZAxis), xAxisPoint, yAxisPoint)
  }

  /** The panel widths along the strip: the box's X, Y, X and Y extents,
      so the strip unfolds the four vertical faces in order. */
  function PanelWidths(e: Vector3): seq<real>
  {
    [e.x, e.y, e.x, e.y]
  }

  /** The X coordinates of the panel edges along the strip, left to right:
      each the sum of the widths before it. */
  function Edges(e: Vector3): seq<real>
  {
    [0.0, e.x, e.x + e.y, e.x + e.y + e.x, e.x + e.y + e.x + e.y]
  }

  /** The four side panels, each as tall as the box's Z extent, placed
      edge to edge along X starting at the world origin: every panel's
      origin is the previous one's moved by the previous width. */
  function SidePanels(e: Vector3): (panels: seq<Rectangle>)
    ensures |panels| == 4
    ensures forall i :: 0 <= i < 4 ==>
      panels[i] == MakeRect(Point3(Edges(e)[i], 0.0, 0.0), PanelWidths(e)[i], e.z)
    ensures panels[0].plane.origin == Origin
    ensures forall i :: 0 <= i < 3 ==>
      panels[i + 1].plane.origin == Translate(panels[i].plane.origin, Vector3(PanelWidths(e)[i], 0.0, 0.0))
  {
    var origin1 := Point3(e.x, 0.0, 0.0);
    var origin2 := Point3(e.x + e.y, 0.0, 0.0);
    var origin3 := Point3(e.x + e.y + e.x, 0.0, 0.0);
    [MakeRect(Origin, e.x, e.z), MakeRect(origin1, e.y, e.z),
     MakeRect(origin2, e.x, e.z), MakeRect(origin3, e.y, e.z)]
  }

  /** Panel `i` of a box with non-negative extents spans the X interval
      between edges `i` and `i + 1`, and Y from 0 to the box's height. */
  lemma PanelSpan(e: Vector3, i: nat)
    requires e.x >= 0.0 && e.y >= 0.0 && e.z >= 0.0 && i < 4
    ensures var panel := SidePanels(e)[i];
      && Left(panel) == Edges(e)[i] && Right(panel) == Edges(e)[i + 1]
      && Width(panel) == PanelWidths(e)[i]
      && Bottom(panel) == 0.0 && Top(panel) == e.z && panel.plane.origin.z == 0.0
  {
  }

  /** For a box with non-negative extents the strip has no gaps: the first
      panel starts at X = 0, each next one starts where the previous one
      ends, the last ends at 2x + 2y; every panel sits on Y = 0, is exactly
      as wide as its face and as tall as the box. */
  lemma SidePanelsAreContiguous(box: BoundingBox)
    requires Ordered(box)
    ensures var e := BoxExtent(box); var panels := SidePanels(e);
      && Left(panels[0]) == 0.0
      && (forall i :: 0 <= i < 3 ==> Right(panels[i]) == Left(panels[i + 1]))
      && Right(panels[3]) == 2.0 * e.x + 2.0 * e.y
      && (forall i :: 0 <= i < 4 ==> Width(panels[i]) == PanelWidths(e)[i])
      && (forall i :: 0 <= i < 4 ==> Bottom(panels[i]) == 0.0 && Top(panels[i]) == e.z)
  {
    var e := BoxExtent(box);
    forall i | 0 <= i < 4
      ensures var panel := SidePanels(e)[i];
        && Left(panel) == Edges(e)[i] && Right(panel) == Edges(e)[i + 1]
        && Width(panel) == PanelWidths(e)[i]
        && Bottom(panel) == 0.0 && Top(panel) == e.z
    {
      PanelSpan(e, i);
    }
  }

  /** For a box with non-negative extents no two panels overlap: every
      panel lies to the left of every later one. */
  lemma SidePanelsDoNotOverlap(box: BoundingBox)
    requires Ordered(box)
    ensures var panels := SidePanels(BoxExtent(box));
      forall i, j :: 0 <= i < j < 4 ==> Right(panels[i]) <= Left(panels[j])
  {
    var e := BoxExtent(box);
    var panels := SidePanels(e);
    PanelSpan(e, 0);
    PanelSpan(e, 1);
    PanelSpan(e, 2);
    PanelSpan(e, 3);
    forall i, j | 0 <= i < j < 4
      ensures Right(panels[i]) <= Left(panels[j])
    {
      // Edge i + 1 is at most edge j, as the widths between them are non-negative.
      if i == 0 && j == 1 {
      } else if i < 2 && j == 2 {
      } else {
        assert j == 3;
      }
    }
  }
}
