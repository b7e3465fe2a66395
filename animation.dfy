/**
 * Animated transforms: a phase t in [0, 1] that advances by dt/period on every
 * application and is reset to exactly 0 when the advance would pass 1.
 * AnimatedTranslation follows a closed Catmull-Rom loop; AnimatedRotation
 * turns 360·t degrees about a fixed axis.
 */
module Animation {
  import opened Vectors
  import opened CatmullRom
  import opened Wrappers
  import opened Cycles
  import CameraControl

  /** A phase of an animation cycle. */
  type UnitPhase = r: real | 0.0 <= r <= 1.0

  /** The cycle length in seconds; a period of zero or less is not modelled. */
  type Period = r: real | r > 0.0 witness 1.0

  /** The update both apply methods end with:
      t := (t + dt/period <= 1) ? t + dt/period : 0. */
  function NextPhase(t: real, dt: real, period: real): (r: real)
    requires period != 0.0
    ensures r <= 1.0
    ensures r == t + dt / period || (r == 0.0 && t + dt / period > 1.0)
  {
    if t + dt / period <= 1.0 then t + dt / period else 0.0
  }

  /** With a non-negative time step and a positive period the phase never
      leaves [0, 1]. */
  lemma PhaseStaysInRange(t: real, dt: real, period: real)
    requires 0.0 <= t <= 1.0 && dt >= 0.0 && period > 0.0
    ensures 0.0 <= NextPhase(t, dt, period) <= 1.0
  {
    assert dt / period >= 0.0;
  }

  /** The phase after k applications with the same time step. */
  function PhaseAfter(t: real, dt: real, period: real, k: nat): real
    requires period != 0.0
  {
    if k == 0 then t else NextPhase(PhaseAfter(t, dt, period, k - 1), dt, period)
  }

  /** With a time step of period/n, the first n applications from phase 0
      climb by 1/n each and reach 1 exactly: the test is `<=`, so the end
      of the range is shown. */
  lemma {:induction false} PhaseSteps(dt: real, period: real, n: nat, k: nat)
    requires period > 0.0 && n >= 1 && dt * (n as real) == period && k <= n
    ensures PhaseAfter(0.0, dt, period, k) == (k as real) / (n as real)
  {
    if k > 0 {
      PhaseSteps(dt, period, n, k - 1);
      StepRatio(dt, period, n);
      FractionStep(k, n);
    }
  }

  lemma StepRatio(dt: real, period: real, n: nat)
    requires period > 0.0 && n >= 1 && dt * (n as real) == period
    ensures dt / period == 1.0 / (n as real)
  {
  }

  lemma FractionStep(k: nat, n: nat)
    requires 1 <= k <= n
    ensures ((k - 1) as real) / (n as real) + 1.0 / (n as real) == (k as real) / (n as real)
    ensures (k as real) / (n as real) <= 1.0
  {
  }

  /** The next application overshoots and resets to exactly 0, so one turn
      of the cycle takes n + 1 applications, not n: phases 0 and 1 are both
      shown, and the sequence repeats with period n + 1. */
  lemma PhaseCycle(dt: real, period: real, n: nat)
    requires period > 0.0 && n >= 1 && dt * (n as real) == period
    ensures PhaseAfter(0.0, dt, period, n) == 1.0
    ensures PhaseAfter(0.0, dt, period, n + 1) == 0.0
  {
    PhaseSteps(dt, period, n, n);
    StepRatio(dt, period, n);
  }

  lemma {:induction false} PhasePeriodic(dt: real, period: real, n: nat, k: nat)
    requires period > 0.0 && n >= 1 && dt * (n as real) == period
    ensures PhaseAfter(0.0, dt, period, k + n + 1) == PhaseAfter(0.0, dt, period, k)
  {
    if k == 0 {
      PhaseCycle(dt, period, n);
    } else {
      PhasePeriodic(dt, period, n, k - 1);
    }
  }

  /** The local frame an aligned translation rotates into: front along the
      tangent, right = front × worldUp, up = right × front, all normalised. */
  datatype Frame = Frame(front: Vec3, up: Vec3, right: Vec3)

  function AlignFrame(maths: Maths, tangent: Vec3, worldUp: Vec3): Frame {
    var front := maths.normalize(tangent);
    var right := maths.normalize(Cross(front, worldUp));
    Frame(front, maths.normalize(Cross(right, front)), right)
  }

  /** The aligned frame's right and up are the camera's right_up of its
      front, so its three axes are pairwise perpendicular, and front has
      length 1 for a non-zero tangent. */
  lemma AlignFrameOrthonormal(maths: Maths, tangent: Vec3, worldUp: Vec3)
    requires NormalizeScales(maths) && LengthOfScaledUnit(maths)
    ensures var f := AlignFrame(maths, tangent, worldUp);
      (f.right, f.up) == CameraControl.RightUp(maths, f.front, worldUp)
    ensures var f := AlignFrame(maths, tangent, worldUp);
      Dot(f.right, f.front) == 0.0 && Dot(f.up, f.front) == 0.0 && Dot(f.up, f.right) == 0.0
    ensures tangent != Origin ==> maths.length(AlignFrame(maths, tangent, worldUp).front) == 1.0
  {
    CameraControl.RightUpOrthonormal(maths, maths.normalize(tangent), worldUp);
    if tangent != Origin {
      NormalizedUnit(maths, tangent);
    }
  }

  /** One matrix operation multiplied onto the model-view matrix. */
  datatype MatrixOp =
    | Translate(offset: Vec3)
    | Rotate(degrees: real, axis: Vec3)
    | Scale(factors: Vec3)
    /** Spline::transform: translate to the curve point, then (if aligned)
        rotate into the curve's frame. */
    | FollowPath(position: Vec3, frame: Option<Frame>)

  /** Spline::transform at phase t. */
  function PathOp(maths: Maths, path: Spline, t: UnitPhase, aligned: bool, worldUp: Vec3): (op: MatrixOp)
    ensures op.FollowPath? && op.position == Evaluate(path, t).pos
    ensures op.frame.Some? <==> aligned
    ensures aligned ==> op.frame.value == AlignFrame(maths, Evaluate(path, t).deriv, worldUp)
  {
    var s := Evaluate(path, t);
    FollowPath(s.pos, if aligned then Some(AlignFrame(maths, s.deriv, worldUp)) else None)
  }

  class AnimatedTranslation {
    /** The input points followed by copies of the first three, closing the loop. */
    const controlPoints: seq<Vec3>
    const path: Spline
    var t: UnitPhase
    const period: Period
    const aligned: bool

    /** The constructor appends points 0, 1 and 2 and builds the spline. */
    constructor(points: seq<Vec3>, period: Period, isAligned: bool)
      requires |points| >= 3
      ensures controlPoints == ClosedLoop(points)
      ensures path == SplineOf(controlPoints)
      ensures |path.segments| == |points|
      ensures t == 0.0 && this.period == period && aligned == isAligned
    {
      var closed := points;
      closed := closed + [points[0]];
      closed := closed + [points[1]];
      closed := closed + [points[2]];
      assert closed == ClosedLoop(points);
      ClosedLoopSegments(points);
      var sp := BuildSpline(closed);
      controlPoints := closed;
      path := sp;
      t := 0.0;
      this.period := period;
      aligned := isAligned;
    }

    /** The matrix operation apply multiplies on at the current phase. */
    function Op(maths: Maths, worldUp: Vec3): MatrixOp
      reads this
    {
      PathOp(maths, path, t, aligned, worldUp)
    }

    /** AnimatedTranslation::apply: place the object on the curve at the
        current phase, then advance the phase. */
    method Apply(maths: Maths, dt: real, worldUp: Vec3) returns (op: MatrixOp)
      requires dt >= 0.0
      modifies this
      ensures op == old(Op(maths, worldUp))
      ensures t == NextPhase(old(t), dt, period)
    {
      op := PathOp(maths, path, t, aligned, worldUp);
      PhaseStaysInRange(t, dt, period);
      t := NextPhase(t, dt, period);
    }
  }

  /** AnimatedRotation's operation at phase t: a turn of 360·t degrees. */
  function SpinOp(axis: Vec3, t: UnitPhase): (op: MatrixOp)
    ensures op.Rotate? && 0.0 <= op.degrees <= 360.0 && op.axis == axis
    ensures t == 0.0 ==> op.degrees == 0.0
    ensures t == 1.0 ==> op.degrees == 360.0
  {
    Rotate(360.0 * t, axis)
  }

  class AnimatedRotation {
    const axis: Vec3
    var t: UnitPhase
    const period: Period

    constructor(axis: Vec3, period: Period)
      ensures this.axis == axis && this.period == period && t == 0.0
    {
      this.axis := axis;
      this.period := period;
      t := 0.0;
    }

    function Op(): MatrixOp
      reads this
    {
      SpinOp(axis, t)
    }

    /** AnimatedRotation::apply: rotate by 360·t degrees, then advance. */
    method Apply(dt: real) returns (op: MatrixOp)
      requires dt >= 0.0
      modifies this
      ensures op == old(Op())
      ensures t == NextPhase(old(t), dt, period)
    {
      op := SpinOp(axis, t);
      PhaseStaysInRange(t, dt, period);
      t := NextPhase(t, dt, period);
    }
  }

  /** The shared tessellation setting of animated translations (the static
      members tessellationLevels and currentTessIndex) and the showPath flag. */
  class PathDisplay {
    const levels: seq<int>
    var tessIndex: nat
    var showPath: bool

    ghost predicate Valid()
      reads this
    {
      tessIndex < |levels|
    }

    /** The index starts at the last level and the path is hidden. */
    constructor(levels: seq<int>)
      requires |levels| > 0
      ensures Valid()
      ensures this.levels == levels && tessIndex == |levels| - 1 && !showPath
    {
      this.levels := levels;
      tessIndex := |levels| - 1;
      showPath := false;
    }

    function Level(): int
      reads this
      requires Valid()
    {
      levels[tessIndex]
    }

    /** nextTessellationLevel: advance the index modulo the number of levels. */
    method NextTessellationLevel()
      requires Valid()
      modifies this
      ensures Valid()
      ensures tessIndex == Cycled(old(tessIndex), |levels|)
      ensures showPath == old(showPath)
    {
      tessIndex := Cycled(tessIndex, |levels|);
    }
  }

  /** The levels of the two releases: {1, 2, 4, 10} in the third, {10} in the fourth. */
  const ThirdReleaseLevels: seq<int> := [1, 2, 4, 10]
  const FourthReleaseLevels: seq<int> := [10]

  /** In the third release, k presses of the level key from the starting
      index select level (3 + k) mod 4 of {1, 2, 4, 10}: the first press
      goes from 10 to 1, and the level is 10 again exactly when k is a
      multiple of 4. The fourth release's single level never changes. */
  lemma TessellationCycles(k: nat)
    ensures CycledTimes(|ThirdReleaseLevels| - 1, |ThirdReleaseLevels|, k) == (3 + k) % 4
    ensures k == 1 ==> ThirdReleaseLevels[CycledTimes(3, 4, k)] == 1
    ensures ThirdReleaseLevels[CycledTimes(3, 4, k)] == 10 <==> k % 4 == 0
    ensures FourthReleaseLevels[CycledTimes(0, 1, k)] == 10
  {
    CycledTimesIs(3, 4, k);
    CycleReturns(3, 4, k);
    CycledTimesIs(0, 1, k);
  }
}
