/** The CreateNet command: measure the picked box, lay out its four side
    panels, and add the sample finger joint to the document. Picking the
    object and writing to the document belong to the host application; here
    the pick is a parameter and the polylines added are the result. */
module CreateNetCommand {
  import opened Geometry
  import opened PanelLayout
  import opened FingerJoint
  import opened FingerJointProperties

  datatype Option<T> = None | Some(value: T)

  /** What one run of the command produces. On success, `panels` is the
      strip of side panels it computes (it does not add them to the
      document) and `added` the polylines it adds to the document. */
  datatype CommandResult =
    | Success(panels: seq<Rectangle>, added: seq<seq<Point3>>)
    | Failure

  /** The sample seam the command cuts: from the origin straight up 11 units. */
  const SampleSeam := Seam(Origin, Point3(0.0, 11.0, 0.0))

  /** The sheet thickness the command uses for the sample joint. */
  const SampleThickness := 2.0

  /** The sample joint has five full teeth and one truncated tooth of run 1,
      which goes left (five is odd) and ends on the seam's end: 19 points. */
  lemma SampleJoint()
    ensures var pts := Joint(SampleSeam, SampleThickness);
      && TeethCount(0.0, 11.0, 2.0) == 5
      && |pts| == 19
      && pts[16] == Point3(-2.0, 10.0, 0.0)
      && pts[17] == Point3(-2.0, 11.0, 0.0)
      && pts[18] == Point3(0.0, 11.0, 0.0)
  {
  }

  /** A seam of length 6 at thickness 2 takes exactly three full teeth and no
      truncated tooth; one of length 7 adds a truncated tooth of run 1. */
  lemma DivisibleAndSlackSeams()
    ensures var six := Seam(Origin, Point3(0.0, 6.0, 0.0)); var pts := Joint(six, 2.0);
      TeethCount(0.0, 6.0, 2.0) == 3 && !Truncated(six, 2.0)
      && |pts| == 10 && pts[9] == Point3(0.0, 6.0, 0.0)
    ensures var seven := Seam(Origin, Point3(0.0, 7.0, 0.0)); var pts := Joint(seven, 2.0);
      TeethCount(0.0, 7.0, 2.0) == 3 && Truncated(seven, 2.0)
      && |pts| == 13 && pts[10].y == 6.0 && pts[11].y == 7.0 && pts[12] == Point3(0.0, 7.0, 0.0)
  {
    var six, seven := Seam(Origin, Point3(0.0, 6.0, 0.0)), Seam(Origin, Point3(0.0, 7.0, 0.0));
    assert (6.0 / 2.0).Floor == 3 && (7.0 / 2.0).Floor == 3;
    JointLength(six, 2.0);
    FullToothShape(six, 2.0, 2);
    JointLength(seven, 2.0);
    TruncatedToothShape(seven, 2.0);
  }

  /** One run of the command. `picked` is the bounding box of the object
      the user selected, or None when the selection did not succeed. */
  method RunCommand(picked: Option<BoundingBox>) returns (result: CommandResult)
    ensures picked.None? <==> result.Failure?
    ensures picked.Some? ==> result.panels == SidePanels(BoxExtent(picked.value))
    ensures picked.Some? ==> result.added == [Joint(SampleSeam, SampleThickness)]
    ensures picked.Some? ==> |result.added[0]| == 19 && result.added[0][18] == Point3(0.0, 11.0, 0.0)
  {
    if picked.Some? {
      var extent := BoxExtent(picked.value);
      var panels := SidePanels(extent);
      var fingerPoly := GenerateFingerJoint(SampleSeam, SampleThickness);
      SampleJoint();
      result := Success(panels, [fingerPoly]);
      return;
    }
    result := Failure;
  }
}
