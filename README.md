# CreateNet: box net and finger-joint generator

This project models the core of the Rocky plug-in's `CreateNet` command
(`Rocky/CreateNetCommand.cs`) and proves properties of it. The command measures
a selected box and lays its four vertical faces out as a flat strip of
rectangles. It then builds a finger joint: the zig-zag polyline of interlocking
teeth cut along a seam.

Modules:

- `Geometry` (geometry.dfy) holds the host library's value types as plain data.
  These are points, vectors, bounding boxes, planes and rectangles, all with
  `real` coordinates.
- `PanelLayout` (panel_layout.dfy) holds the box extent
  (`getWidthHeigthDepthVect`), `MakeRect` and the strip of four side panels.
- `FingerJoint` (finger_joint.dfy) holds `generateFingerJoint` as an imperative
  method. Its loop and its finishing step are proved equal to the
  specification function `Joint`.
- `FingerJointProperties` (finger_joint_properties.dfy) holds the properties of
  `Joint`. These cover the point count, the side and run of each tooth, the
  truncated last tooth, that Y never decreases, the exact end point, and that X
  stays in {0, t, -t}. `Vertex` describes each point independently of the loop.
- `CreateNetCommand` (create_net_command.dfy) holds `RunCommand`. The object pick
  is a parameter and the polylines added to the document are the result. It
  also holds the sample joint the command draws: seam (0,0)→(0,11), thickness 2.

Behaviour of the code that a reader might expect to be different:

- A tooth goes out by ±thickness, not by half a thickness.
- The panels touch each other with no gap and no margin.
- Every joint starts at X = 0 whatever the seam's X is.
- A seam that does not run upward gives the single start point. There is no
  error and no mirrored pattern.
- For a non-positive thickness the loop runs forever when
  `fromY + thickness <= toY`. Otherwise it returns the start point. Every
  member that takes a seam requires `thickness > 0`; the command itself
  always passes 2.
- The point count is `1 + 3k` or `4 + 3k` for `k` full teeth, which is even
  for some seams. It is not always odd.

## Model

| member | source | states |
|---|---|---|
| PanelLayout.BoxExtent | Rocky/CreateNetCommand.cs:114-125 | Moving the box's minimal corner by the extent gives its maximal corner. The extent is non-negative in every coordinate exactly when the box is ordered. |
| PanelLayout.MakeRect | Rocky/CreateNetCommand.cs:127-137 | The rectangle lies on the Z-normal plane through `origin`. Its width and height are the absolute values of `width` and `height`. For non-negative sizes it spans origin.x to origin.x+width and origin.y to origin.y+height. |
| PanelLayout.SidePanels | Rocky/CreateNetCommand.cs:37-53 | Exactly 4 panels with widths x, y, x, y and height z. Their origins are at X = 0, x, x+y and 2x+y, with Y = Z = 0. The first origin is the world origin, and each next origin is the previous one moved by the previous width. |
| PanelLayout.PanelSpan | Rocky/CreateNetCommand.cs:41-48 | For non-negative extents, panel i spans X from edge i to edge i+1 and Y from 0 to z, and is exactly as wide as its face. |
| PanelLayout.SidePanelsAreContiguous | Rocky/CreateNetCommand.cs:37-53 | For an ordered bounding box the strip starts at X = 0 and ends at 2x+2y. Each panel starts where the previous one ends. Every panel has its face's width and the box's height. |
| PanelLayout.SidePanelsDoNotOverlap | Rocky/CreateNetCommand.cs:41-53 | For an ordered bounding box every panel lies left of every later panel. |
| FingerJoint.GenerateFingerJoint | Rocky/CreateNetCommand.cs:71-112 | With thickness > 0 the loop terminates in exact arithmetic. The polyline equals `Joint`: full teeth while one fits, then a truncated tooth when slack remains. Every property proved of `Joint` therefore holds of it. |
| FingerJoint.LevelIsLinear | Rocky/CreateNetCommand.cs:84-96 | After k full teeth the current Y is fromY + k·thickness. |
| FingerJoint.FitsAtMostTeethCount | Rocky/CreateNetCommand.cs:84 | If the loop guard admits a tooth, the tooth count bounds the number of teeth drawn. This proves that the loop terminates. |
| FingerJoint.OvershootAtLeastTeethCount | Rocky/CreateNetCommand.cs:84 | When the loop guard fails after m teeth, the tooth count is at most m. With the loop invariant `count <= TeethCount`, the loop stops after exactly TeethCount teeth. |
| FingerJointProperties.TeethCountFits | Rocky/CreateNetCommand.cs:84-97 | When fromY ≤ toY the number of full teeth k is ⌊(toY−fromY)/thickness⌋: the teeth reach no higher than toY and one more would overshoot. When toY ≤ fromY, k = 0. |
| FingerJointProperties.JointLength | Rocky/CreateNetCommand.cs:73-109 | The point count is 1 + 3k, plus 3 when there is a truncated tooth. The first point is (0, fromY, 0). A truncated tooth has a run strictly between 0 and thickness. |
| FingerJointProperties.TruncatedFollowsParity | Rocky/CreateNetCommand.cs:79-102 | Flipping the last full tooth's direction (or the initial −1) gives +1 for an even number of full teeth and −1 for an odd number. |
| FingerJointProperties.JointAt | Rocky/CreateNetCommand.cs:84-109 | Every point of the polyline equals the one the closed-form `Vertex` description gives for its index. |
| FingerJointProperties.JointVertices | Rocky/CreateNetCommand.cs:84-109 | The whole polyline agrees point by point with `Vertex`. |
| FingerJointProperties.FullToothShape | Rocky/CreateNetCommand.cs:86-96 | Full tooth n goes out to +thickness when n is even and −thickness when n is odd. It climbs exactly one thickness and returns to X = 0. |
| FingerJointProperties.TruncatedToothShape | Rocky/CreateNetCommand.cs:99-109 | The truncated tooth is the last three points. It goes to the side given by the parity of the full-tooth count, its top is exactly at toY, and it returns to X = 0. |
| FingerJointProperties.JointStaysNearCentreLine | Rocky/CreateNetCommand.cs:89-108 | Every point has Z = 0 and X in {0, thickness, −thickness}. Points at indices 0, 3, 6, … have X = 0. |
| FingerJointProperties.VertexClimbs | Rocky/CreateNetCommand.cs:89-108 | Consecutive points never descend. |
| FingerJointProperties.JointClimbsFrom | Rocky/CreateNetCommand.cs:84-109 | Y never decreases from any point to any later point. |
| FingerJointProperties.JointClimbsToSeamEnd | Rocky/CreateNetCommand.cs:82-109 | Y never decreases. When fromY ≤ toY every point lies between fromY and toY and the last point's Y is exactly toY. When toY ≤ fromY the result is the single start point. |
| CreateNetCommand.SampleJoint | Rocky/CreateNetCommand.cs:61-62 | The seam (0,0)→(0,11) at thickness 2 has 5 full teeth and 19 points. The last tooth is truncated: it goes left from Y = 10 to Y = 11 and ends at (0, 11, 0). |
| CreateNetCommand.DivisibleAndSlackSeams | Rocky/CreateNetCommand.cs:84-109 | A seam of length 6 at thickness 2 has a tooth count of 3 and is not truncated: 10 points ending at Y = 6. A seam of length 7 also has a tooth count of 3 and is truncated: a tooth of run 1 is added, giving 13 points. |
| CreateNetCommand.RunCommand | Rocky/CreateNetCommand.cs:23-69 | The command fails exactly when nothing was picked. Otherwise it computes the four-panel strip of the picked box's extent and adds exactly one polyline, the 19-point sample joint ending at (0, 11, 0). |

## Left out

- Object selection (`RhinoGet.GetOneObject`), adding the polyline to the document and redrawing are host-application I/O. The pick is an `Option<BoundingBox>` parameter and the added polylines are part of the result.
- `Brep()` and `GetBoundingBox` belong to the host geometry kernel. The bounding box's two corners are the input to `BoxExtent`.
- The host kernel builds `Plane`, `Rectangle3d`, `Polyline` and `Line` values. Here they are plain data. A rectangle is its plane plus the two corner points it is built from, read as opposite corners. A polyline is a `seq<Point3>`.
- Coordinates are exact reals, not IEEE doubles. Three results hold in real arithmetic and need not hold after rounding: the exact end Y, the floor count, and termination. In doubles, `currPoint.Y + thickness` rounds back to `currPoint.Y` once thickness is below half a unit in the last place of Y. For example, with fromY = 1e17, toY = 2e17 and thickness 1 the loop never advances.
- For thickness ≤ 0 the loop runs forever when fromY + thickness ≤ toY; otherwise it returns the start point. The model requires thickness > 0 and does not cover those cases.
- The four rectangles are computed but never added to the document, because the code that adds them is commented out. `RunCommand` returns them without emitting them.
- Features a fuller net generator would have, which this code lacks, are not modelled: gaps and margins between panels, an N-panel polygon layout, a bottom panel, pre-shrink scaling, shrink-to-dimensions, one-sided joints, and errors for bad parameters.
- Rocky/DefineCircuitComponentsCommand.cs is not part of this model. Its `autoroute` is an unfinished stub and the rest is selection UI.
- Rocky/ModularizeConcreteCommand.cs and Rocky/CreateMoldsCommand.cs are not part of this model. Their command bodies are empty.
