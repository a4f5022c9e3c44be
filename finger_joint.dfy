/** The finger-joint generator: the zig-zag polyline of interlocking teeth
    cut along a vertical seam, one tooth per `thickness` of seam length. */
module FingerJoint {
  import opened Geometry

  /** A seam, the straight line a joint is cut along. Only the Y
      coordinates of its ends are used: every joint starts at X = 0. */
  datatype Seam = Seam(from: Point3, to: Point3)

  /** The side of the n-th full tooth (0-indexed): +1 (right of the centre
      line) for an even n, -1 (left) for an odd n. */
  function Direction(n: nat): real
  {
    if n % 2 == 0 then 1.0 else -1.0
  }

  /** The side of the truncated last tooth: the direction of the last full
      tooth (or the initial -1 when there was none), flipped. */
  function TruncatedDirection(fullTeeth: nat): real
  {
    var last := if fullTeeth == 0 then -1.0 else Direction(fullTeeth - 1);
    -last
  }

  /** The three points of one tooth starting on the centre line at height
      `y`: out to the side, up by `run`, back to the centre line. */
  function Tooth(y: real, run: real, thickness: real, dir: real): seq<Point3>
  {
    [Point3(thickness * dir, y, 0.0), Point3(thickness * dir, y + run, 0.0), Point3(0.0, y + run, 0.0)]
  }

  /** The height reached after `k` full teeth: `fromY` raised by `thickness`
      `k` times over. */
  function Level(fromY: real, thickness: real, k: nat): real
  {
    if k == 0 then fromY else Level(fromY, thickness, k - 1) + thickness
  }

  /** The points of the first `k` full teeth of a joint starting at `fromY`. */
  function FullTeeth(fromY: real, thickness: real, k: nat): seq<Point3>
  {
    if k == 0 then []
    else FullTeeth(fromY, thickness, k - 1)
           + Tooth(Level(fromY, thickness, k - 1), thickness, thickness, Direction(k - 1))
  }

  /** How many full teeth fit between `fromY` and `toY`. */
  function TeethCount(fromY: real, toY: real, thickness: real): nat
    requires thickness > 0.0
  {
    if toY <= fromY then 0 else ((toY - fromY) / thickness).Floor
  }

  /** The joint along `seam`: the start point on the centre line, every full
      tooth, and one truncated tooth reaching the seam's end when slack remains. */
  function Joint(seam: Seam, thickness: real): seq<Point3>
    requires thickness > 0.0
  {
    var fromY, toY := seam.from.y, seam.to.y;
    var k := TeethCount(fromY, toY, thickness);
    var y := Level(fromY, thickness, k);
    [Point3(0.0, fromY, 0.0)] + FullTeeth(fromY, thickness, k)
      + (if y < toY then Tooth(y, toY - y, thickness, TruncatedDirection(k)) else [])
  }

  /** The finger-joint generator: walks up the seam a full tooth at a time
      while one still fits, then finishes with a truncated tooth. */
  method GenerateFingerJoint(seam: Seam, thickness: real) returns (points: seq<Point3>)
    requires thickness > 0.0
    ensures points == Joint(seam, thickness)
  {
    var curr := Point3(0.0, seam.from.y, 0.0);
    points := [curr];
    var count: nat := 0;
    var dir := -1.0;
    ghost var teeth := TeethCount(seam.from.y, seam.to.y, thickness);
    while curr.y + thickness <= seam.to.y
      invariant count <= teeth
      invariant curr == Point3(0.0, Level(seam.from.y, thickness, count), 0.0)
      invariant points == [Point3(0.0, seam.from.y, 0.0)] + FullTeeth(seam.from.y, thickness, count)
      invariant dir == if count == 0 then -1.0 else Direction(count - 1)
      decreases teeth - count
    {
      ghost var y := curr.y;
      FitsAtMostTeethCount(seam.from.y, seam.to.y, thickness, count + 1);
      dir := if count % 2 == 0 then 1.0 else -1.0;
      curr := Translate(curr, Vector3(thickness * dir, 0.0, 0.0));
      points := points + [curr];
      curr := Translate(curr, Vector3(0.0, thickness, 0.0));
      points := points + [curr];
      curr := Translate(curr, Vector3(-thickness * dir, 0.0, 0.0));
      assert curr == Point3(0.0, y + thickness, 0.0) by { Cancel(thickness, dir); }
      points := points + [curr];
      assert points == [Point3(0.0, seam.from.y, 0.0)] + FullTeeth(seam.from.y, thickness, count + 1) by {
        assert FullTeeth(seam.from.y, thickness, count + 1)
            == FullTeeth(seam.from.y, thickness, count) + Tooth(y, thickness, thickness, dir);
      }
      count := count + 1;
    }
    OvershootAtLeastTeethCount(seam.from.y, seam.to.y, thickness, count);
    ghost var start := points;
    if curr.y < seam.to.y {
      ghost var y := curr.y;
      dir := dir * -1.0;
      assert dir == TruncatedDirection(count);
      curr := Translate(curr, Vector3(thickness * dir, 0.0, 0.0));
      points := points + [curr];
      curr := Translate(curr, Vector3(0.0, seam.to.y - curr.y, 0.0));
      points := points + [curr];
      curr := Translate(curr, Vector3(-thickness * dir, 0.0, 0.0));
      assert curr == Point3(0.0, seam.to.y, 0.0) by { Cancel(thickness, dir); }
      points := points + [curr];
      assert points == start + Tooth(y, seam.to.y - y, thickness, dir);
    }
  }

  /** Going out by `t * dir` and back by `-t * dir` returns to the centre line. */
  lemma Cancel(t: real, dir: real)
    ensures t * dir + -t * dir == 0.0
  {
  }

  /** The height after `k` teeth is `fromY + k * thickness`. */
  lemma {:induction false} LevelIsLinear(fromY: real, thickness: real, k: nat)
    ensures Level(fromY, thickness, k) == fromY + k as real * thickness
  {
    if k > 0 {
      LevelIsLinear(fromY, thickness, k - 1);
    }
  }

  /** If `m` full teeth fit below `toY`, the tooth count is at least `m`. */
  lemma FitsAtMostTeethCount(fromY: real, toY: real, thickness: real, m: nat)
    requires thickness > 0.0 && Level(fromY, thickness, m) <= toY
    ensures m <= TeethCount(fromY, toY, thickness)
  {
    LevelIsLinear(fromY, thickness, m);
    if m > 0 {
      FloorAtLeast(toY - fromY, thickness, m);
    }
  }

  /** If tooth `m + 1` would overshoot `toY`, the tooth count is at most `m`. */
  lemma OvershootAtLeastTeethCount(fromY: real, toY: real, thickness: real, m: nat)
    requires thickness > 0.0 && toY < Level(fromY, thickness, m) + thickness
    ensures TeethCount(fromY, toY, thickness) <= m
  {
    LevelIsLinear(fromY, thickness, m);
    if fromY < toY {
      FloorAtMost(toY - fromY, thickness, m);
    }
  }

  /** Multiplying by a positive `t` keeps a non-strict order. */
  lemma MulLe(a: real, b: real, t: real)
    requires a <= b && t > 0.0
    ensures a * t <= b * t
  {
    assert b * t - a * t == (b - a) * t;
  }

  /** Multiplying by a positive `t` keeps a strict order. */
  lemma MulLt(a: real, b: real, t: real)
    requires a < b && t > 0.0
    ensures a * t < b * t
  {
    assert b * t - a * t == (b - a) * t;
  }

  /** Dividing by a positive `t` keeps a non-strict order. */
  lemma DivLe(a: real, b: real, t: real)
    requires a * t <= b * t && t > 0.0
    ensures a <= b
  {
    if b < a {
      MulLt(b, a, t);
    }
  }

  /** If `m` steps of `t` fit in `d`, then at least `m` whole steps fit. */
  lemma FloorAtLeast(d: real, t: real, m: nat)
    requires t > 0.0 && m as real * t <= d
    ensures m <= (d / t).Floor
  {
    var q := d / t;
    assert q * t == d;
    DivLe(m as real, q, t);
  }

  /** If `m + 1` steps of `t` overshoot `d`, then at most `m` whole steps fit. */
  lemma FloorAtMost(d: real, t: real, m: nat)
    requires t > 0.0 && d < (m + 1) as real * t
    ensures (d / t).Floor <= m
  {
    var q := d / t;
    assert q * t == d;
    if (m + 1) as real <= q {
      MulLe((m + 1) as real, q, t);
    }
  }

  /** The whole steps of `t` in `d` reach no further than `d`, and one more
      step overshoots it. */
  lemma FloorBounds(d: real, t: real)
    requires t > 0.0 && d >= 0.0
    ensures (d / t).Floor as real * t <= d
    ensures d < (d / t).Floor as real * t + t
  {
    var q := d / t;
    var k := q.Floor;
    assert k as real <= q < k as real + 1.0;
    assert q * t == d;
    MulLe(k as real, q, t);
    MulLt(q, k as real + 1.0, t);
    assert (k as real + 1.0) * t == k as real * t + t;
  }
}
