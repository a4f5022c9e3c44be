/** What the finger-joint generator promises about the polyline it builds:
    its length, the shape and side of every tooth, where it starts and ends,
    that it only climbs, and that it never strays beyond one thickness from
    the centre line. */
module FingerJointProperties {
  import opened Geometry
  import opened FingerJoint

  /** The X offset of tooth `n`: one thickness to the right for an even
      `n`, to the left for an odd one. */
  function Side(thickness: real, n: nat): real
  {
    if n % 2 == 0 then thickness else -thickness
  }

  /** The `i`-th vertex of a joint, described point by point: the start on
      the centre line; for full tooth `n`, out at its base, out at its top,
      back on the centre line; then the truncated tooth, whose top is the
      seam's end. */
  function Vertex(seam: Seam, thickness: real, i: nat): Point3
    requires thickness > 0.0
  {
    var fromY, toY := seam.from.y, seam.to.y;
    var k := TeethCount(fromY, toY, thickness);
    if i == 0 then Point3(0.0, fromY, 0.0)
    else if i <= 3 * k then
      var n, j := (i - 1) / 3, (i - 1) % 3;
      Point3(if j == 2 then 0.0 else Side(thickness, n),
             if j == 0 then Level(fromY, thickness, n) else Level(fromY, thickness, n) + thickness,
             0.0)
    else
      var j := i - 1 - 3 * k;
      Point3(if j == 2 then 0.0 else Side(thickness, k),
             if j == 0 then Level(fromY, thickness, k) else toY,
             0.0)
  }

  /** Whether a joint ends with a truncated tooth: slack remains above the
      last full tooth. */
  predicate Truncated(seam: Seam, thickness: real)
    requires thickness > 0.0
  {
    Level(seam.from.y, thickness, TeethCount(seam.from.y, seam.to.y, thickness)) < seam.to.y
  }

  lemma {:induction false} FullTeethLength(fromY: real, thickness: real, k: nat)
    ensures |FullTeeth(fromY, thickness, k)| == 3 * k
  {
    if k > 0 {
      FullTeethLength(fromY, thickness, k - 1);
    }
  }

  /** Tooth `n` of the first `k` full teeth occupies positions 3n to 3n + 2. */
  lemma {:induction false} FullTeethAt(fromY: real, thickness: real, k: nat, n: nat)
    requires n < k
    ensures |FullTeeth(fromY, thickness, k)| == 3 * k
    ensures FullTeeth(fromY, thickness, k)[3 * n .. 3 * n + 3]
         == Tooth(Level(fromY, thickness, n), thickness, thickness, Direction(n))
  {
    FullTeethLength(fromY, thickness, k);
    FullTeethLength(fromY, thickness, k - 1);
    if n < k - 1 {
      FullTeethAt(fromY, thickness, k - 1, n);
      var prefix := FullTeeth(fromY, thickness, k - 1);
      assert FullTeeth(fromY, thickness, k)[..3 * (k - 1)] == prefix;
    }
  }

  /** The number of full teeth is the largest count that fits: with
      `fromY <= toY` they reach no higher than `toY` and one more would
      overshoot it; otherwise there are none. Every full tooth climbs
      exactly one thickness. */
  lemma TeethCountFits(fromY: real, toY: real, thickness: real)
    requires thickness > 0.0
    ensures var k := TeethCount(fromY, toY, thickness);
      && (fromY <= toY ==> k == ((toY - fromY) / thickness).Floor)
      && (fromY <= toY ==> Level(fromY, thickness, k) <= toY < Level(fromY, thickness, k) + thickness)
      && (toY <= fromY ==> k == 0)
      && Level(fromY, thickness, k) == fromY + k as real * thickness
  {
    var k := TeethCount(fromY, toY, thickness);
    LevelIsLinear(fromY, thickness, k);
    if fromY <= toY {
      FloorBounds(toY - fromY, thickness);
    }
  }

  /** The joint has the start point, three points per full tooth and three
      for the truncated tooth when there is one; the truncated tooth exists
      exactly when slack strictly less than a thickness remains. */
  lemma JointLength(seam: Seam, thickness: real)
    requires thickness > 0.0
    ensures var k := TeethCount(seam.from.y, seam.to.y, thickness);
      && |Joint(seam, thickness)| == 1 + 3 * k + (if Truncated(seam, thickness) then 3 else 0)
      && Joint(seam, thickness)[0] == Point3(0.0, seam.from.y, 0.0)
      && (Truncated(seam, thickness) ==>
            0.0 < seam.to.y - Level(seam.from.y, thickness, k) < thickness)
  {
    var k := TeethCount(seam.from.y, seam.to.y, thickness);
    FullTeethLength(seam.from.y, thickness, k);
    TeethCountFits(seam.from.y, seam.to.y, thickness);
  }

  /** The truncated tooth takes the side given by the parity of the number
      of full teeth before it, like a further full tooth would. */
  lemma TruncatedFollowsParity(k: nat)
    ensures TruncatedDirection(k) == Direction(k)
  {
  }

  /** Vertex `i` of the joint is the one `Vertex` describes. */
  lemma JointAt(seam: Seam, thickness: real, i: nat)
    requires thickness > 0.0 && i < |Joint(seam, thickness)|
    ensures Joint(seam, thickness)[i] == Vertex(seam, thickness, i)
  {
    var fromY, toY := seam.from.y, seam.to.y;
    var k := TeethCount(fromY, toY, thickness);
    var pts := Joint(seam, thickness);
    JointLength(seam, thickness);
    FullTeethLength(fromY, thickness, k);
    if 1 <= i <= 3 * k {
      var n := (i - 1) / 3;
      FullTeethAt(fromY, thickness, k, n);
      SideOfTooth(thickness, n);
      assert pts[i] == FullTeeth(fromY, thickness, k)[i - 1];
      assert FullTeeth(fromY, thickness, k)[i - 1]
          == FullTeeth(fromY, thickness, k)[3 * n .. 3 * n + 3][(i - 1) % 3];
    } else if i > 3 * k {
      TruncatedFollowsParity(k);
      SideOfTooth(thickness, k);
    }
  }

  /** Every vertex of the joint is the one `Vertex` describes. */
  lemma JointVertices(seam: Seam, thickness: real)
    requires thickness > 0.0
    ensures forall i :: 0 <= i < |Joint(seam, thickness)| ==> Joint(seam, thickness)[i] == Vertex(seam, thickness, i)
  {
    forall i | 0 <= i < |Joint(seam, thickness)|
      ensures Joint(seam, thickness)[i] == Vertex(seam, thickness, i)
    {
      JointAt(seam, thickness, i);
    }
  }

  /** One thickness to the side given by a tooth's parity. */
  lemma SideOfTooth(thickness: real, n: nat)
    ensures thickness * Direction(n) == Side(thickness, n)
  {
  }

  /** Full tooth `n` (0-indexed) goes out by +thickness when `n` is even and
      by -thickness when `n` is odd, climbs exactly one thickness, and comes
      back to the centre line. */
  lemma FullToothShape(seam: Seam, thickness: real, n: nat)
    requires thickness > 0.0 && n < TeethCount(seam.from.y, seam.to.y, thickness)
    ensures var pts := Joint(seam, thickness); var y := Level(seam.from.y, thickness, n);
      && 3 * n + 3 < |pts|
      && pts[3 * n + 1] == Point3(if n % 2 == 0 then thickness else -thickness, y, 0.0)
      && pts[3 * n + 2] == Point3(if n % 2 == 0 then thickness else -thickness, y + thickness, 0.0)
      && pts[3 * n + 3] == Point3(0.0, y + thickness, 0.0)
  {
    JointLength(seam, thickness);
    assert (3 * n + 1 - 1) / 3 == n && (3 * n + 2 - 1) / 3 == n && (3 * n + 3 - 1) / 3 == n;
    assert (3 * n + 1 - 1) % 3 == 0 && (3 * n + 2 - 1) % 3 == 1 && (3 * n + 3 - 1) % 3 == 2;
    JointAt(seam, thickness, 3 * n + 1);
    JointAt(seam, thickness, 3 * n + 2);
    JointAt(seam, thickness, 3 * n + 3);
  }

  /** When slack remains after the last full tooth, the joint ends with a
      truncated tooth on the side given by the parity of the full-tooth
      count, whose top lands exactly on the seam's end. */
  lemma TruncatedToothShape(seam: Seam, thickness: real)
    requires thickness > 0.0 && Truncated(seam, thickness)
    ensures var pts := Joint(seam, thickness); var k := TeethCount(seam.from.y, seam.to.y, thickness);
      var y := Level(seam.from.y, thickness, k);
      && |pts| == 3 * k + 4
      && pts[3 * k + 1] == Point3(if k % 2 == 0 then thickness else -thickness, y, 0.0)
      && pts[3 * k + 2] == Point3(if k % 2 == 0 then thickness else -thickness, seam.to.y, 0.0)
      && pts[3 * k + 3] == Point3(0.0, seam.to.y, 0.0)
  {
    var k := TeethCount(seam.from.y, seam.to.y, thickness);
    JointLength(seam, thickness);
    JointAt(seam, thickness, 3 * k + 1);
    JointAt(seam, thickness, 3 * k + 2);
    JointAt(seam, thickness, 3 * k + 3);
  }

  /** Every vertex lies on the Z = 0 plane at X = 0 or one thickness to
      either side; every third vertex, where a tooth starts or ends, is back
      on the centre line. */
  lemma JointStaysNearCentreLine(seam: Seam, thickness: real)
    requires thickness > 0.0
    ensures var pts := Joint(seam, thickness);
      forall i :: 0 <= i < |pts| ==>
        && pts[i].z == 0.0
        && (pts[i].x == 0.0 || pts[i].x == thickness || pts[i].x == -thickness)
        && (i % 3 == 0 ==> pts[i].x == 0.0)
  {
    var pts := Joint(seam, thickness);
    forall i | 0 <= i < |pts|
      ensures pts[i].z == 0.0
      ensures pts[i].x == 0.0 || pts[i].x == thickness || pts[i].x == -thickness
      ensures i % 3 == 0 ==> pts[i].x == 0.0
    {
      JointAt(seam, thickness, i);
      VertexNearCentreLine(seam, thickness, i);
    }
  }

  /** Vertex `i` lies on Z = 0 at X = 0 or one thickness to either side,
      and at X = 0 when `i` is a multiple of 3. */
  lemma VertexNearCentreLine(seam: Seam, thickness: real, i: nat)
    requires thickness > 0.0 && i < |Joint(seam, thickness)|
    ensures var v := Vertex(seam, thickness, i);
      && v.z == 0.0
      && (v.x == 0.0 || v.x == thickness || v.x == -thickness)
      && (i % 3 == 0 ==> v.x == 0.0)
  {
    var k := TeethCount(seam.from.y, seam.to.y, thickness);
    if i > 3 * k {
      JointLength(seam, thickness);
      assert i - 1 - 3 * k <= 2;
    }
  }

  /** Consecutive vertices never descend. */
  lemma VertexClimbs(seam: Seam, thickness: real, i: nat)
    requires thickness > 0.0 && i + 1 < |Joint(seam, thickness)|
    ensures Vertex(seam, thickness, i).y <= Vertex(seam, thickness, i + 1).y
  {
    JointLength(seam, thickness);
    var k := TeethCount(seam.from.y, seam.to.y, thickness);
    if 1 <= i < 3 * k && (i - 1) % 3 == 2 {
      assert i / 3 == (i - 1) / 3 + 1 && i % 3 == 0;
    }
  }

  /** Y never decreases along the joint. */
  lemma {:induction false} JointClimbsFrom(seam: Seam, thickness: real, i: nat, j: nat)
    requires thickness > 0.0 && i <= j < |Joint(seam, thickness)|
    ensures Joint(seam, thickness)[i].y <= Joint(seam, thickness)[j].y
  {
    JointVertices(seam, thickness);
    if i < j {
      JointClimbsFrom(seam, thickness, i, j - 1);
      VertexClimbs(seam, thickness, j - 1);
    }
  }

  /** Y never decreases along the joint; when the seam runs upward the
      joint stays between its two ends and finishes exactly at the end's Y;
      a seam that does not run upward yields just the start point. */
  lemma JointClimbsToSeamEnd(seam: Seam, thickness: real)
    requires thickness > 0.0
    ensures var pts := Joint(seam, thickness);
      && (forall i, j :: 0 <= i <= j < |pts| ==> pts[i].y <= pts[j].y)
      && (seam.from.y <= seam.to.y ==> pts[|pts| - 1].y == seam.to.y)
      && (seam.from.y <= seam.to.y ==>
            forall i :: 0 <= i < |pts| ==> seam.from.y <= pts[i].y <= seam.to.y)
      && (seam.to.y <= seam.from.y ==> pts == [Point3(0.0, seam.from.y, 0.0)])
  {
    var pts := Joint(seam, thickness);
    forall i, j | 0 <= i <= j < |pts|
      ensures pts[i].y <= pts[j].y
    {
      JointClimbsFrom(seam, thickness, i, j);
    }
    JointLength(seam, thickness);
    TeethCountFits(seam.from.y, seam.to.y, thickness);
    JointVertices(seam, thickness);
  }
}
