/**
 * Catmull-Rom splines (namespace catRom): the per-segment coefficient matrix
 * M·P, point/tangent evaluation through T = (t³, t², t, 1), the spline built
 * from a control-point list, and the clamp-to-last-segment evaluation rule.
 */
module CatmullRom {
  import opened Vectors

  /** M·P for one segment: the four rows of the Catmull-Rom basis times the
      four control points, i.e. the polynomial coefficients of t³, t², t, 1. */
  datatype Segment = Segment(a: Vec3, b: Vec3, c: Vec3, d: Vec3)

  /** Position and first derivative, the pair returned by catRom::point. */
  datatype Sample = Sample(pos: Vec3, deriv: Vec3)

  /** catRom::MP: rows of the basis matrix (glm stores it column by column). */
  function MP(p0: Vec3, p1: Vec3, p2: Vec3, p3: Vec3): Segment {
    Segment(
      Combine(-0.5, 1.5, -1.5, 0.5, p0, p1, p2, p3),
      Combine(1.0, -2.5, 2.0, -0.5, p0, p1, p2, p3),
      Combine(-0.5, 0.0, 0.5, 0.0, p0, p1, p2, p3),
      Combine(0.0, 1.0, 0.0, 0.0, p0, p1, p2, p3))
  }

  /** catRom::point: T·MP and dT·MP with T = (t³, t², t, 1), dT = (3t², 2t, 1, 0). */
  function Point(s: Segment, t: real): Sample {
    Sample(
      Combine(t * t * t, t * t, t, 1.0, s.a, s.b, s.c, s.d),
      Combine(3.0 * t * t, 2.0 * t, 1.0, 0.0, s.a, s.b, s.c, s.d))
  }

  /** A segment passes through its second control point at t = 0 and its
      third at t = 1, with tangents (p2 − p0)/2 and (p3 − p1)/2 there. */
  lemma SegmentEnds(p0: Vec3, p1: Vec3, p2: Vec3, p3: Vec3)
    ensures Point(MP(p0, p1, p2, p3), 0.0).pos == p1
    ensures Point(MP(p0, p1, p2, p3), 1.0).pos == p2
    ensures Point(MP(p0, p1, p2, p3), 0.0).deriv == Scale(0.5, Sub(p2, p0))
    ensures Point(MP(p0, p1, p2, p3), 1.0).deriv == Scale(0.5, Sub(p3, p1))
  {
    var s := MP(p0, p1, p2, p3);
    assert Point(s, 0.0).pos == s.d;
    assert Point(s, 1.0).pos == Add(Add(s.a, s.b), Add(s.c, s.d));
    assert Point(s, 0.0).deriv == s.c;
    assert Point(s, 1.0).deriv == Add(Add(Scale(3.0, s.a), Scale(2.0, s.b)), s.c);
  }

  /** The spline: one MP matrix per segment. */
  datatype Spline = Spline(segments: seq<Segment>)

  /** The number of segments the Spline constructor makes from k points. */
  function SegmentCount(k: nat): nat { if k < 4 then 0 else k - 3 }

  /** The segments the Spline constructor makes from a control-point list:
      segment i is made from points i..i+3; fewer than four points give an
      empty spline. */
  function SplineOf(controlPoints: seq<Vec3>): (sp: Spline)
    ensures |sp.segments| == SegmentCount(|controlPoints|)
  {
    if |controlPoints| < 4 then Spline([])
    else Spline(seq(|controlPoints| - 3, i requires 0 <= i < |controlPoints| - 3 =>
      MP(controlPoints[i], controlPoints[i + 1], controlPoints[i + 2], controlPoints[i + 3])))
  }

  /** The Spline constructor: nrSegments = k − 2 and the loop stops one short
      of it, so k points give k − 3 segments. */
  method BuildSpline(controlPoints: seq<Vec3>) returns (sp: Spline)
    ensures sp == SplineOf(controlPoints)
  {
    var segs: seq<Segment> := [];
    if |controlPoints| < 4 {
      return Spline(segs);
    }
    var nrSegments := |controlPoints| - 2;
    var i := 0;
    while i < nrSegments - 1
      invariant 0 <= i <= nrSegments - 1
      invariant segs == SplineOf(controlPoints).segments[..i]
    {
      segs := segs + [MP(controlPoints[i], controlPoints[i + 1], controlPoints[i + 2], controlPoints[i + 3])];
      i := i + 1;
    }
    sp := Spline(segs);
  }

  /** Consecutive segments of a built spline meet: segment i at t = 1 equals
      segment i+1 at t = 0, in position and in tangent. */
  lemma SplineContinuity(controlPoints: seq<Vec3>, i: nat)
    requires i + 1 < |SplineOf(controlPoints).segments|
    ensures Point(SplineOf(controlPoints).segments[i], 1.0) == Point(SplineOf(controlPoints).segments[i + 1], 0.0)
  {
    var cp := controlPoints;
    SegmentEnds(cp[i], cp[i + 1], cp[i + 2], cp[i + 3]);
    SegmentEnds(cp[i + 1], cp[i + 2], cp[i + 3], cp[i + 4]);
  }

  /** The segment index Spline::evaluate picks from scaled = t·n:
      min((int)scaled, n − 1). */
  function SegmentIndex(scaled: real, n: nat): (i: nat)
    requires 0.0 <= scaled && n > 0
    ensures i < n
    ensures i == n - 1 || (i as real <= scaled < i as real + 1.0)
  {
    if scaled.Floor < n - 1 then scaled.Floor else n - 1
  }

  /** glm::fract */
  function Fract(x: real): (f: real)
    ensures 0.0 <= f < 1.0
  {
    x - x.Floor as real
  }

  /** Spline::evaluate. An empty spline yields the zero position and tangent;
      otherwise the segment chosen by SegmentIndex is evaluated at the
      fractional part of t·n. Time is never negative here (the phase of an
      animated translation stays in [0, 1]); a negative segment index is
      undefined behaviour in the source. */
  function Evaluate(sp: Spline, t: real): (r: Sample)
    requires 0.0 <= t
    ensures |sp.segments| == 0 ==> r == Sample(Origin, Origin)
  {
    if |sp.segments| == 0 then Sample(Origin, Origin)
    else
      var loc := Locate(t, |sp.segments|);
      Point(sp.segments[loc.0], loc.1)
  }

  /** The segment and local parameter Spline::evaluate picks for t on n segments. */
  function Locate(t: real, n: nat): (loc: (nat, real))
    requires 0.0 <= t && n > 0
    ensures loc.0 < n && 0.0 <= loc.1 < 1.0
  {
    var scaled := t * n as real;
    assert 0.0 <= scaled;
    (SegmentIndex(scaled, n), Fract(scaled))
  }

  /** Inside the curve, evaluate(t) runs segment ⌊t·n⌋ at the fraction t·n − ⌊t·n⌋. */
  lemma LocateInside(t: real, n: nat, i: nat)
    requires 0.0 <= t && i < n
    requires i as real <= t * n as real < i as real + 1.0
    ensures Locate(t, n) == (i, t * n as real - i as real)
  {
    FloorIs(t * n as real, i);
  }

  lemma FloorIs(x: real, i: nat)
    requires i as real <= x < i as real + 1.0
    ensures x.Floor == i && Fract(x) == x - i as real
  {
  }

  /** At t = 1 the clamp selects the last segment and the fractional part is
      0: the curve is sampled at the START of its last segment, not its end. */
  lemma LocateAtOne(n: nat)
    requires n > 0
    ensures Locate(1.0, n) == (n - 1, 0.0)
  {
    FloorIs(1.0 * n as real, n);
  }

  /** For a built spline over k ≥ 4 points, evaluate(1) is the point
      controlPoints[k − 3] (second point of the last segment), while the end of
      the curve is controlPoints[k − 2]. */
  lemma BuiltSplineAtOne(controlPoints: seq<Vec3>)
    requires |controlPoints| >= 4
    ensures Evaluate(SplineOf(controlPoints), 1.0).pos == controlPoints[|controlPoints| - 3]
    ensures Point(SplineOf(controlPoints).segments[|controlPoints| - 4], 1.0).pos == controlPoints[|controlPoints| - 2]
  {
    var k := |controlPoints|;
    var cp := controlPoints;
    LocateAtOne(k - 3);
    SegmentEnds(cp[k - 4], cp[k - 3], cp[k - 2], cp[k - 1]);
  }

  /** The closed loop of an animated translation: the first three input points
      are appended before the spline is built. */
  function ClosedLoop(controlPoints: seq<Vec3>): seq<Vec3>
    requires |controlPoints| >= 3
  {
    controlPoints + controlPoints[..3]
  }

  /** N ≥ 3 inputs give exactly N segments, and the loop is closed: the last
      segment ends where the first one starts, with the same tangent. */
  lemma ClosedLoopSegments(controlPoints: seq<Vec3>)
    requires |controlPoints| >= 3
    ensures |SplineOf(ClosedLoop(controlPoints)).segments| == |controlPoints|
    ensures Point(SplineOf(ClosedLoop(controlPoints)).segments[|controlPoints| - 1], 1.0)
         == Point(SplineOf(ClosedLoop(controlPoints)).segments[0], 0.0)
  {
    var n := |controlPoints|;
    var cp := ClosedLoop(controlPoints);
    assert cp[n] == cp[0] && cp[n + 1] == cp[1] && cp[n + 2] == cp[2];
    SegmentEnds(cp[n - 1], cp[n], cp[n + 1], cp[n + 2]);
    SegmentEnds(cp[0], cp[1], cp[2], cp[3]);
  }
}
