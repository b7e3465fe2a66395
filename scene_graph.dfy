/**
 * The scene graph: a tree of groups, each with an optional colour, a list of
 * transforms, a list of model references and a list of subgroups, rendered
 * in pre-order. Rendering is observed as the sequence of draw requests it
 * makes, each carrying the matrix operations in force (ancestors' first,
 * then the group's own, in list order) and the colour in force.
 *
 * The animated transforms are objects whose phase a render advances. The
 * phases of a tree are read off in the pre-order of its transforms, and the
 * trace of a render is a function of the tree and of those phases.
 *
 * The model payload `M` is whatever a release draws: loaded vertex lists
 * in the second release, file names in the third, model references with a
 * texture and a material in the fourth.
 */
module SceneGraph {
  import opened Vectors
  import opened Wrappers
  import opened Animation

  datatype Transform =
    | Translation(offset: Vec3)
    | Rotation(degrees: real, axis: Vec3)
    | Scaling(factors: Vec3)
    | Travel(path: AnimatedTranslation)
    | Spin(spin: AnimatedRotation)

  datatype Group<M> = Group(colour: Option<Vec3>, transforms: seq<Transform>, models: seq<M>, subgroups: seq<Group<M>>)

  /** One model drawn under the given matrix operations and colour. */
  datatype Draw<M> = Draw(ops: seq<MatrixOp>, colour: Option<Vec3>, model: M)

  /** What the render call needs besides the tree: the maths functions, the
      world up vector an aligned path uses, and whether colours are set. */
  datatype Context = Context(maths: Maths, worldUp: Vec3, setsColour: bool)

  // ----- the transforms of a tree, in pre-order -----

  function AllTransforms<M>(g: Group<M>): seq<Transform>
    decreases g, |g.subgroups| + 1
  {
    g.transforms + ChildrenTransforms(g, |g.subgroups|)
  }

  /** The transforms of the first n subgroups. */
  function ChildrenTransforms<M>(g: Group<M>, n: nat): seq<Transform>
    requires n <= |g.subgroups|
    decreases g, n
  {
    if n == 0 then [] else ChildrenTransforms(g, n - 1) + AllTransforms(g.subgroups[n - 1])
  }

  function ObjectOf(tr: Transform): set<object> {
    match tr
    case Travel(a) => {a}
    case Spin(r) => {r}
    case _ => {}
  }

  function TransformObjects(ts: seq<Transform>): set<object> {
    set k, o | 0 <= k < |ts| && o in ObjectOf(ts[k]) :: o
  }

  /** Every animated transform is its own object: no object is applied twice
      in one render (the source stores them by value). */
  predicate DistinctTransforms(ts: seq<Transform>) {
    forall i, j :: 0 <= i < j < |ts| ==> ObjectOf(ts[i]) !! ObjectOf(ts[j])
  }

  // ----- phases -----

  /** The phase of an animated transform; a static one has none and reads 0. */
  function PhaseOf(tr: Transform): UnitPhase
    reads ObjectOf(tr)
  {
    match tr
    case Travel(a) => a.t
    case Spin(r) => r.t
    case _ => 0.0
  }

  function Phases(ts: seq<Transform>): (ph: seq<UnitPhase>)
    reads TransformObjects(ts)
    ensures |ph| == |ts|
    ensures forall j :: 0 <= j < |ts| ==> ph[j] == PhaseOf(ts[j])
  {
    if |ts| == 0 then [] else Phases(ts[..|ts| - 1]) + [PhaseOf(ts[|ts| - 1])]
  }

  /** The phase a transform has after one application with time step dt. */
  function Step(tr: Transform, phase: real, dt: real): real {
    match tr
    case Travel(a) => NextPhase(phase, dt, a.period)
    case Spin(r) => NextPhase(phase, dt, r.period)
    case _ => phase
  }

  /** Every transform of ts went from phase `before` to phase `after` by
      exactly one application. */
  predicate Advanced(ts: seq<Transform>, after: seq<real>, before: seq<real>, dt: real) {
    |after| == |before| == |ts|
    && forall j :: 0 <= j < |ts| ==> after[j] == Step(ts[j], before[j], dt)
  }

  // ----- the specification of a render -----

  /** The operation a transform multiplies on at a given phase. */
  function OpAt(ctx: Context, tr: Transform, phase: UnitPhase): MatrixOp {
    match tr
    case Translation(v) => Translate(v)
    case Rotation(a, axis) => Rotate(a, axis)
    case Scaling(v) => Scale(v)
    case Travel(a) => PathOp(ctx.maths, a.path, phase, a.aligned, ctx.worldUp)
    case Spin(r) => SpinOp(r.axis, phase)
  }

  function TransformOps(ctx: Context, ts: seq<Transform>, ph: seq<UnitPhase>): (ops: seq<MatrixOp>)
    requires |ph| == |ts|
  {
    seq(|ts|, j requires 0 <= j < |ts| => OpAt(ctx, ts[j], ph[j]))
  }

  function ModelDraws<M>(models: seq<M>, ops: seq<MatrixOp>, colour: Option<Vec3>): (ds: seq<Draw<M>>) {
    seq(|models|, i requires 0 <= i < |models| => Draw(ops, colour, models[i]))
  }

  /** The colour in force inside a group. */
  function ColourIn<M>(ctx: Context, g: Group<M>, outer: Option<Vec3>): Option<Vec3> {
    if ctx.setsColour && g.colour.Some? then g.colour else outer
  }

  /** Group::render with the tree's phases ph: the group's transforms on top
      of acc, its models, then its subgroups in order. */
  function GroupTrace<M>(ctx: Context, g: Group<M>, ph: seq<UnitPhase>, acc: seq<MatrixOp>, colour: Option<Vec3>): seq<Draw<M>>
    requires |ph| == |AllTransforms(g)|
    decreases g, |g.subgroups| + 1
  {
    var k := |g.transforms|;
    var ops := acc + TransformOps(ctx, g.transforms, ph[..k]);
    var col := ColourIn(ctx, g, colour);
    ModelDraws(g.models, ops, col) + ChildrenTrace(ctx, g, |g.subgroups|, ph[k..], ops, col)
  }

  /** The draws of the first n subgroups, each rendered under acc. */
  function ChildrenTrace<M>(ctx: Context, g: Group<M>, n: nat, ph: seq<UnitPhase>, acc: seq<MatrixOp>, colour: Option<Vec3>): seq<Draw<M>>
    requires n <= |g.subgroups| && |ph| == |ChildrenTransforms(g, n)|
    decreases g, n
  {
    if n == 0 then []
    else
      var k := |ChildrenTransforms(g, n - 1)|;
      ChildrenTrace(ctx, g, n - 1, ph[..k], acc, colour) + GroupTrace(ctx, g.subgroups[n - 1], ph[k..], acc, colour)
  }

  // ----- facts about the transform lists -----

  lemma {:induction false} ChildrenPrefix<M>(g: Group<M>, i: nat, n: nat)
    requires i <= n <= |g.subgroups|
    ensures |ChildrenTransforms(g, i)| <= |ChildrenTransforms(g, n)|
    ensures ChildrenTransforms(g, n)[..|ChildrenTransforms(g, i)|] == ChildrenTransforms(g, i)
    decreases n
  {
    if i < n {
      ChildrenPrefix(g, i, n - 1);
      var a, b := ChildrenTransforms(g, n - 1), ChildrenTransforms(g, i);
      assert ChildrenTransforms(g, n)[..|a|] == a;
      assert a[..|b|] == b;
    }
  }

  lemma ObjectsWithin(ts: seq<Transform>, a: nat, b: nat)
    requires a <= b <= |ts|
    ensures TransformObjects(ts[a..b]) <= TransformObjects(ts)
  {
    forall o | o in TransformObjects(ts[a..b])
      ensures o in TransformObjects(ts)
    {
      var k :| 0 <= k < b - a && o in ObjectOf(ts[a..b][k]);
      assert ts[a..b][k] == ts[a + k];
    }
  }

  /** In a list without shared objects, transform j lies outside the objects
      of any slice that does not contain it. */
  lemma OutsideSlice(ts: seq<Transform>, a: nat, b: nat, j: nat)
    requires a <= b <= |ts| && j < |ts| && (j < a || b <= j) && DistinctTransforms(ts)
    ensures ObjectOf(ts[j]) !! TransformObjects(ts[a..b])
  {
    forall o | o in TransformObjects(ts[a..b])
      ensures o !in ObjectOf(ts[j])
    {
      var k :| 0 <= k < b - a && o in ObjectOf(ts[a..b][k]);
      assert ts[a..b][k] == ts[a + k];
    }
  }

  lemma DistinctSlice(ts: seq<Transform>, a: nat, b: nat)
    requires a <= b <= |ts| && DistinctTransforms(ts)
    ensures DistinctTransforms(ts[a..b])
  {
    forall i, j | 0 <= i < j < b - a
      ensures ObjectOf(ts[a..b][i]) !! ObjectOf(ts[a..b][j])
    {
      assert ts[a..b][i] == ts[a + i] && ts[a..b][j] == ts[a + j];
    }
  }

  // ----- the render methods -----

  /** One transform of Group::applyTransforms (the visitor's cases). */
  method ApplyOne(ctx: Context, tr: Transform, dt: real) returns (op: MatrixOp)
    requires dt >= 0.0
    modifies ObjectOf(tr)
    ensures op == OpAt(ctx, tr, old(PhaseOf(tr)))
    ensures PhaseOf(tr) == Step(tr, old(PhaseOf(tr)), dt)
  {
    match tr {
      case Translation(v) => op := Translate(v);
      case Rotation(a, axis) => op := Rotate(a, axis);
      case Scaling(v) => op := Scale(v);
      case Travel(a) => op := a.Apply(ctx.maths, dt, ctx.worldUp);
      case Spin(r) => op := r.Apply(dt);
    }
  }

  twostate lemma PhaseKept(tr: Transform)
    requires unchanged(ObjectOf(tr))
    ensures PhaseOf(tr) == old(PhaseOf(tr))
  {
  }

  /** Group::applyTransforms: each transform in list order multiplies its
      operation on; an animated one uses its phase and then advances it. */
  method ApplyTransforms(ctx: Context, ts: seq<Transform>, dt: real) returns (ops: seq<MatrixOp>)
    requires dt >= 0.0 && DistinctTransforms(ts)
    modifies TransformObjects(ts)
    ensures ops == TransformOps(ctx, ts, old(Phases(ts)))
    ensures Advanced(ts, Phases(ts), old(Phases(ts)), dt)
  {
    ghost var before := Phases(ts);
    ops := [];
    var k := 0;
    while k < |ts|
      invariant 0 <= k <= |ts|
      invariant |ops| == k && forall j :: 0 <= j < k ==> ops[j] == OpAt(ctx, ts[j], before[j])
      invariant forall j :: 0 <= j < k ==> PhaseOf(ts[j]) == Step(ts[j], before[j], dt)
      invariant forall j :: k <= j < |ts| ==> PhaseOf(ts[j]) == before[j]
    {
      assert ObjectOf(ts[k]) <= TransformObjects(ts);
      label pre:
      var op := ApplyOne(ctx, ts[k], dt);
      forall j | 0 <= j < |ts| && j != k
        ensures PhaseOf(ts[j]) == old@pre(PhaseOf(ts[j]))
      {
        assert ObjectOf(ts[j]) !! ObjectOf(ts[k]);
        PhaseKept@pre(ts[j]);
      }
      ops := ops + [op];
      k := k + 1;
    }
  }

  lemma PhasesSplit(a: seq<Transform>, b: seq<Transform>)
    ensures Phases(a + b) == Phases(a) + Phases(b)
  {
  }

  lemma AdvancedAppend(ts1: seq<Transform>, after1: seq<real>, before1: seq<real>,
                       ts2: seq<Transform>, after2: seq<real>, before2: seq<real>, dt: real)
    requires Advanced(ts1, after1, before1, dt) && Advanced(ts2, after2, before2, dt)
    ensures Advanced(ts1 + ts2, after1 + after2, before1 + before2, dt)
  {
    var ts, after, before := ts1 + ts2, after1 + after2, before1 + before2;
    forall j | |ts1| <= j < |ts|
      ensures after[j] == Step(ts[j], before[j], dt)
    {
      assert ts[j] == ts2[j - |ts1|];
    }
  }

  lemma SplitObjects(a: seq<Transform>, b: seq<Transform>)
    requires DistinctTransforms(a + b)
    ensures DistinctTransforms(a) && DistinctTransforms(b)
    ensures TransformObjects(a) !! TransformObjects(b)
    ensures TransformObjects(a + b) == TransformObjects(a) + TransformObjects(b)
  {
    var ab := a + b;
    assert ab[..|a|] == a && ab[|a|..] == b;
    DistinctSlice(ab, 0, |a|);
    DistinctSlice(ab, |a|, |ab|);
    forall o | o in TransformObjects(a)
      ensures o !in TransformObjects(b)
    {
      var k :| 0 <= k < |a| && o in ObjectOf(a[k]);
      assert ab[k] == a[k];
      OutsideSlice(ab, |a|, |ab|, k);
    }
    forall o | o in TransformObjects(ab)
      ensures o in TransformObjects(a) + TransformObjects(b)
    {
      var k :| 0 <= k < |ab| && o in ObjectOf(ab[k]);
      if k >= |a| {
        assert ab[k] == b[k - |a|];
      }
    }
    forall o | o in TransformObjects(b)
      ensures o in TransformObjects(ab)
    {
      var k :| 0 <= k < |b| && o in ObjectOf(b[k]);
      assert ab[|a| + k] == b[k];
    }
  }

  /** Phases read nothing but the transforms' own objects. */
  twostate lemma PhasesUnchanged(ts: seq<Transform>)
    requires unchanged(TransformObjects(ts))
    ensures Phases(ts) == old(Phases(ts))
  {
    forall j | 0 <= j < |ts|
      ensures PhaseOf(ts[j]) == old(PhaseOf(ts[j]))
    {
      assert ObjectOf(ts[j]) <= TransformObjects(ts);
    }
  }

  /** Group::render (and renderGroup in the second release): apply the
      transforms, set the colour if the group has one, draw the models in
      order, then render the subgroups in order. */
  method RenderGroup<M>(ctx: Context, g: Group<M>, acc: seq<MatrixOp>, colour: Option<Vec3>, dt: real)
      returns (draws: seq<Draw<M>>)
    requires dt >= 0.0 && DistinctTransforms(AllTransforms(g))
    modifies TransformObjects(AllTransforms(g))
    decreases g, 2
    ensures draws == GroupTrace(ctx, g, old(Phases(AllTransforms(g))), acc, colour)
    ensures Advanced(AllTransforms(g), Phases(AllTransforms(g)), old(Phases(AllTransforms(g))), dt)
  {
    ghost var children := ChildrenTransforms(g, |g.subgroups|);
    SplitObjects(g.transforms, children);
    PhasesSplit(g.transforms, children);
    assert allocated(TransformObjects(g.transforms)) && allocated(TransformObjects(children));
    ghost var ownBefore, childrenBefore := Phases(g.transforms), Phases(children);

    var own := ApplyTransforms(ctx, g.transforms, dt);
    label applied:
    PhasesUnchanged(children);
    ghost var ownAfter := Phases(g.transforms);
    var ops := acc + own;
    var col := ColourIn(ctx, g, colour);
    draws := DrawModels(g.models, ops, col);
    var rest := RenderChildren(ctx, g, ops, col, dt);
    draws := draws + rest;
    PhasesUnchanged@applied(g.transforms);
    PhasesSplit(g.transforms, children);
    AdvancedAppend(g.transforms, ownAfter, ownBefore, children, Phases(children), childrenBefore, dt);
  }

  /** The draw loop over a group's models, in order. */
  method DrawModels<M>(models: seq<M>, ops: seq<MatrixOp>, colour: Option<Vec3>) returns (draws: seq<Draw<M>>)
    ensures draws == ModelDraws(models, ops, colour)
  {
    draws := [];
    var m := 0;
    while m < |models|
      invariant 0 <= m <= |models| && |draws| == m
      invariant forall i :: 0 <= i < m ==> draws[i] == Draw(ops, colour, models[i])
    {
      draws := draws + [Draw(ops, colour, models[m])];
      m := m + 1;
    }
  }

  lemma Slices<T>(s: seq<T>, lo: nat, hi: nat)
    requires lo <= hi <= |s|
    ensures s[..hi][..lo] == s[..lo] && s[..hi][lo..] == s[lo..hi]
    ensures s[..lo] + s[lo..hi] == s[..hi]
    ensures s[lo..][..hi - lo] == s[lo..hi]
  {
  }

  lemma ChildrenTraceStep<M>(ctx: Context, g: Group<M>, i: nat, ph: seq<UnitPhase>, acc: seq<MatrixOp>, colour: Option<Vec3>)
    requires i < |g.subgroups| && |ph| == |ChildrenTransforms(g, i + 1)|
    ensures |ChildrenTransforms(g, i)| <= |ph|
    ensures ChildrenTrace(ctx, g, i + 1, ph, acc, colour)
         == ChildrenTrace(ctx, g, i, ph[..|ChildrenTransforms(g, i)|], acc, colour)
          + GroupTrace(ctx, g.subgroups[i], ph[|ChildrenTransforms(g, i)|..], acc, colour)
  {
  }

  /** How subgroup i sits in the transforms of a group's children: after
      those of the earlier subgroups, before those of the later ones, with no
      object shared with either. */
  lemma ChildSplit<M>(g: Group<M>, i: nat)
    requires i < |g.subgroups| && DistinctTransforms(ChildrenTransforms(g, |g.subgroups|))
    ensures var all, lo, hi := ChildrenTransforms(g, |g.subgroups|), |ChildrenTransforms(g, i)|, |ChildrenTransforms(g, i + 1)|;
      lo <= hi <= |all|
      && all[lo..hi] == AllTransforms(g.subgroups[i])
      && all[..hi] == ChildrenTransforms(g, i + 1)
      && DistinctTransforms(all[lo..hi])
      && TransformObjects(all[lo..hi]) <= TransformObjects(all)
      && TransformObjects(all[..lo]) <= TransformObjects(all)
      && TransformObjects(all[hi..]) <= TransformObjects(all)
      && TransformObjects(all[..lo]) !! TransformObjects(all[lo..hi])
      && TransformObjects(all[hi..]) !! TransformObjects(all[lo..hi])
  {
    var all, lo, hi := ChildrenTransforms(g, |g.subgroups|), |ChildrenTransforms(g, i)|, |ChildrenTransforms(g, i + 1)|;
    ChildrenPrefix(g, i, |g.subgroups|);
    ChildrenPrefix(g, i + 1, |g.subgroups|);
    var done, sub := all[..lo], all[lo..hi];
    assert all[..hi] == ChildrenTransforms(g, i) + AllTransforms(g.subgroups[i]);
    assert all == done + all[lo..];
    assert all[lo..] == sub + all[hi..];
    SplitObjects(done, all[lo..]);
    SplitObjects(sub, all[hi..]);
  }

  lemma PhasesSlices(ts: seq<Transform>, before: seq<UnitPhase>, lo: nat, hi: nat)
    requires lo <= hi <= |ts| == |before| && Phases(ts[lo..]) == before[lo..]
    ensures Phases(ts[lo..hi]) == before[lo..hi] && Phases(ts[hi..]) == before[hi..]
  {
    assert ts[lo..] == ts[lo..hi] + ts[hi..];
    PhasesSplit(ts[lo..hi], ts[hi..]);
    assert before[lo..] == before[lo..hi] + before[hi..];
  }

  /** Advancing transforms lo..hi extends an advanced prefix ..lo to ..hi. */
  lemma PhasesExtend(ts: seq<Transform>, before: seq<UnitPhase>, lo: nat, hi: nat, dt: real)
    requires lo <= hi <= |ts| == |before|
    requires Advanced(ts[..lo], Phases(ts[..lo]), before[..lo], dt)
    requires Advanced(ts[lo..hi], Phases(ts[lo..hi]), before[lo..hi], dt)
    ensures Advanced(ts[..hi], Phases(ts[..hi]), before[..hi], dt)
  {
    Slices(ts, lo, hi);
    PhasesSplit(ts[..lo], ts[lo..hi]);
    AdvancedAppend(ts[..lo], Phases(ts[..lo]), before[..lo], ts[lo..hi], Phases(ts[lo..hi]), before[lo..hi], dt);
    Slices(before, lo, hi);
  }

  /** Pointwise phases give the phases of a slice. */
  lemma PhasesOfSlice(ts: seq<Transform>, before: seq<UnitPhase>, lo: nat, hi: nat)
    requires lo <= hi <= |ts| == |before|
    requires forall j :: lo <= j < hi ==> PhaseOf(ts[j]) == before[j]
    ensures Phases(ts[lo..hi]) == before[lo..hi]
  {
    assert forall j :: 0 <= j < hi - lo ==> ts[lo..hi][j] == ts[lo + j];
  }

  /** A slice that advanced, seen index by index in the whole list. */
  lemma AdvancedInside(ts: seq<Transform>, sub: seq<Transform>, before: seq<UnitPhase>, lo: nat, hi: nat, dt: real)
    requires lo <= hi <= |ts| == |before| && ts[lo..hi] == sub
    requires Advanced(sub, Phases(sub), before[lo..hi], dt)
    ensures forall j :: lo <= j < hi ==> PhaseOf(ts[j]) == Step(ts[j], before[j], dt)
  {
    forall j | lo <= j < hi
      ensures PhaseOf(ts[j]) == Step(ts[j], before[j], dt)
    {
      assert sub[j - lo] == ts[j] && before[lo..hi][j - lo] == before[j];
    }
  }

  /** One turn of the loop over the subgroups: subgroup i is rendered under
      acc, its transforms (the slice lo..hi of the children's transforms)
      advance and every other transform keeps its phase. */
  method RenderChild<M>(ctx: Context, g: Group<M>, i: nat, acc: seq<MatrixOp>, colour: Option<Vec3>, dt: real,
                        ghost before: seq<UnitPhase>)
      returns (d: seq<Draw<M>>)
    requires dt >= 0.0 && i < |g.subgroups| && DistinctTransforms(ChildrenTransforms(g, |g.subgroups|))
    requires |before| == |ChildrenTransforms(g, |g.subgroups|)|
    requires forall j :: |ChildrenTransforms(g, i)| <= j < |before| ==> PhaseOf(ChildrenTransforms(g, |g.subgroups|)[j]) == before[j]
    modifies TransformObjects(ChildrenTransforms(g, |g.subgroups|))
    decreases g, 0
    ensures |ChildrenTransforms(g, i)| <= |ChildrenTransforms(g, i + 1)| <= |before|
    ensures d == GroupTrace(ctx, g.subgroups[i], before[|ChildrenTransforms(g, i)|..|ChildrenTransforms(g, i + 1)|], acc, colour)
    ensures forall j :: |ChildrenTransforms(g, i)| <= j < |ChildrenTransforms(g, i + 1)| ==>
      PhaseOf(ChildrenTransforms(g, |g.subgroups|)[j]) == Step(ChildrenTransforms(g, |g.subgroups|)[j], before[j], dt)
    ensures forall j :: 0 <= j < |before| && !(|ChildrenTransforms(g, i)| <= j < |ChildrenTransforms(g, i + 1)|) ==>
      PhaseOf(ChildrenTransforms(g, |g.subgroups|)[j]) == old(PhaseOf(ChildrenTransforms(g, |g.subgroups|)[j]))
  {
    ghost var all := ChildrenTransforms(g, |g.subgroups|);
    assert allocated(all);
    ghost var lo, hi := |ChildrenTransforms(g, i)|, |ChildrenTransforms(g, i + 1)|;
    ChildSplit(g, i);
    ghost var sub := AllTransforms(g.subgroups[i]);
    PhasesOfSlice(all, before, lo, hi);
    d := RenderGroup(ctx, g.subgroups[i], acc, colour, dt);
    forall j | 0 <= j < |all| && !(lo <= j < hi)
      ensures PhaseOf(all[j]) == old(PhaseOf(all[j]))
    {
      OutsideSlice(all, lo, hi, j);
      assert ObjectOf(all[j]) !! TransformObjects(sub);
      assert old(allocated(ObjectOf(all[j])));
      PhaseKept(all[j]);
    }
    AdvancedInside(all, sub, before, lo, hi, dt);
  }

  /** The loop over the subgroups (and World::renderGroups over the top level). */
  method RenderChildren<M>(ctx: Context, g: Group<M>, acc: seq<MatrixOp>, colour: Option<Vec3>, dt: real)
      returns (draws: seq<Draw<M>>)
    requires dt >= 0.0 && DistinctTransforms(ChildrenTransforms(g, |g.subgroups|))
    modifies TransformObjects(ChildrenTransforms(g, |g.subgroups|))
    decreases g, 1
    ensures draws == ChildrenTrace(ctx, g, |g.subgroups|, old(Phases(ChildrenTransforms(g, |g.subgroups|))), acc, colour)
    ensures Advanced(ChildrenTransforms(g, |g.subgroups|), Phases(ChildrenTransforms(g, |g.subgroups|)),
                     old(Phases(ChildrenTransforms(g, |g.subgroups|))), dt)
  {
    var n := |g.subgroups|;
    ghost var all := ChildrenTransforms(g, n);
    ghost var before := Phases(all);
    draws := [];
    var i := 0;
    ghost var lo := 0;
    while i < n
      invariant 0 <= i <= n && lo == |ChildrenTransforms(g, i)| <= |all|
      invariant draws == ChildrenTrace(ctx, g, i, before[..lo], acc, colour)
      invariant forall j :: 0 <= j < lo ==> PhaseOf(all[j]) == Step(all[j], before[j], dt)
      invariant forall j :: lo <= j < |all| ==> PhaseOf(all[j]) == before[j]
    {
      var d := RenderChild(ctx, g, i, acc, colour, dt, before);
      ghost var hi := |ChildrenTransforms(g, i + 1)|;
      ChildrenTraceStep(ctx, g, i, before[..hi], acc, colour);
      Slices(before, lo, hi);
      draws := draws + d;
      i, lo := i + 1, hi;
    }
    assert all[..lo] == all && before[..lo] == before;
  }

  // ----- World::renderGroups -----

  /** The top-level groups of a world seen as the subgroups of a root group
      with nothing of its own. */
  function WorldRoot<M>(groups: seq<Group<M>>): (root: Group<M>)
    ensures root.subgroups == groups && root.transforms == [] && root.models == []
  {
    Group(None, [], [], groups)
  }

  /** World::renderGroups (renderScene's loop in the second release): the
      top-level groups in order, from an empty operation list and no colour. */
  method RenderWorld<M>(ctx: Context, groups: seq<Group<M>>, dt: real) returns (draws: seq<Draw<M>>)
    requires dt >= 0.0 && DistinctTransforms(ChildrenTransforms(WorldRoot(groups), |groups|))
    modifies TransformObjects(ChildrenTransforms(WorldRoot(groups), |groups|))
    ensures draws == ChildrenTrace(ctx, WorldRoot(groups), |groups|, old(Phases(ChildrenTransforms(WorldRoot(groups), |groups|))), [], None)
    ensures Advanced(ChildrenTransforms(WorldRoot(groups), |groups|), Phases(ChildrenTransforms(WorldRoot(groups), |groups|)),
                     old(Phases(ChildrenTransforms(WorldRoot(groups), |groups|))), dt)
  {
    draws := RenderChildren(ctx, WorldRoot(groups), [], None, dt);
  }

  // ----- what a trace contains -----

  /** The models of a tree in pre-order: a group's own, then each subgroup's. */
  function PreorderModels<M>(g: Group<M>): seq<M>
    decreases g, |g.subgroups| + 1
  {
    g.models + ChildrenModels(g, |g.subgroups|)
  }

  function ChildrenModels<M>(g: Group<M>, n: nat): seq<M>
    requires n <= |g.subgroups|
    decreases g, n
  {
    if n == 0 then [] else ChildrenModels(g, n - 1) + PreorderModels(g.subgroups[n - 1])
  }

  function ModelsOf<M>(ds: seq<Draw<M>>): (ms: seq<M>)
    ensures |ms| == |ds| && forall i :: 0 <= i < |ds| ==> ms[i] == ds[i].model
  {
    if ds == [] then [] else ModelsOf(ds[..|ds| - 1]) + [ds[|ds| - 1].model]
  }

  lemma ModelsOfAppend<M>(a: seq<Draw<M>>, b: seq<Draw<M>>)
    ensures ModelsOf(a + b) == ModelsOf(a) + ModelsOf(b)
  {
    assert forall i :: 0 <= i < |a| + |b| ==> ModelsOf(a + b)[i] == (ModelsOf(a) + ModelsOf(b))[i];
  }

  lemma ModelsOfDraws<M>(models: seq<M>, ops: seq<MatrixOp>, colour: Option<Vec3>)
    ensures ModelsOf(ModelDraws(models, ops, colour)) == models
  {
  }

  /** A render draws every model of the tree exactly once, in pre-order. */
  lemma {:induction false} TraceModels<M>(ctx: Context, g: Group<M>, ph: seq<UnitPhase>, acc: seq<MatrixOp>, colour: Option<Vec3>)
    requires |ph| == |AllTransforms(g)|
    ensures ModelsOf(GroupTrace(ctx, g, ph, acc, colour)) == PreorderModels(g)
    decreases g, |g.subgroups| + 1
  {
    var k := |g.transforms|;
    var ops := acc + TransformOps(ctx, g.transforms, ph[..k]);
    var col := ColourIn(ctx, g, colour);
    var own, rest := ModelDraws(g.models, ops, col), ChildrenTrace(ctx, g, |g.subgroups|, ph[k..], ops, col);
    assert GroupTrace(ctx, g, ph, acc, colour) == own + rest;
    ChildrenTraceModels(ctx, g, |g.subgroups|, ph[k..], ops, col);
    ModelsOfDraws(g.models, ops, col);
    ModelsOfAppend(own, rest);
  }

  lemma {:induction false} ChildrenTraceModels<M>(ctx: Context, g: Group<M>, n: nat, ph: seq<UnitPhase>, acc: seq<MatrixOp>, colour: Option<Vec3>)
    requires n <= |g.subgroups| && |ph| == |ChildrenTransforms(g, n)|
    ensures ModelsOf(ChildrenTrace(ctx, g, n, ph, acc, colour)) == ChildrenModels(g, n)
    decreases g, n
  {
    if n > 0 {
      var k := |ChildrenTransforms(g, n - 1)|;
      ChildrenTraceModels(ctx, g, n - 1, ph[..k], acc, colour);
      TraceModels(ctx, g.subgroups[n - 1], ph[k..], acc, colour);
      ModelsOfAppend(ChildrenTrace(ctx, g, n - 1, ph[..k], acc, colour), GroupTrace(ctx, g.subgroups[n - 1], ph[k..], acc, colour));
    }
  }

  /** Every draw happens under the operations in force when the group was
      entered: the ancestors' operations come first (the push/pop pairing). */
  lemma {:induction false} TraceKeepsPrefix<M>(ctx: Context, g: Group<M>, ph: seq<UnitPhase>, acc: seq<MatrixOp>, colour: Option<Vec3>)
    requires |ph| == |AllTransforms(g)|
    ensures forall d :: d in GroupTrace(ctx, g, ph, acc, colour) ==> acc <= d.ops
    decreases g, |g.subgroups| + 1
  {
    var k := |g.transforms|;
    var ops := acc + TransformOps(ctx, g.transforms, ph[..k]);
    var col := ColourIn(ctx, g, colour);
    ChildrenKeepPrefix(ctx, g, |g.subgroups|, ph[k..], ops, col);
  }

  lemma {:induction false} ChildrenKeepPrefix<M>(ctx: Context, g: Group<M>, n: nat, ph: seq<UnitPhase>, acc: seq<MatrixOp>, colour: Option<Vec3>)
    requires n <= |g.subgroups| && |ph| == |ChildrenTransforms(g, n)|
    ensures forall d :: d in ChildrenTrace(ctx, g, n, ph, acc, colour) ==> acc <= d.ops
    decreases g, n
  {
    if n > 0 {
      var k := |ChildrenTransforms(g, n - 1)|;
      ChildrenKeepPrefix(ctx, g, n - 1, ph[..k], acc, colour);
      TraceKeepsPrefix(ctx, g.subgroups[n - 1], ph[k..], acc, colour);
    }
  }

  /** Where colours are not set (the fourth release, and the renderer in
      GraphicsUtils), every draw keeps the colour in force outside the tree. */
  lemma {:induction false} ColourUntouched<M>(ctx: Context, g: Group<M>, ph: seq<UnitPhase>, acc: seq<MatrixOp>, colour: Option<Vec3>)
    requires |ph| == |AllTransforms(g)| && !ctx.setsColour
    ensures forall d :: d in GroupTrace(ctx, g, ph, acc, colour) ==> d.colour == colour
    decreases g, |g.subgroups| + 1
  {
    var k := |g.transforms|;
    var ops := acc + TransformOps(ctx, g.transforms, ph[..k]);
    ChildrenColourUntouched(ctx, g, |g.subgroups|, ph[k..], ops, colour);
  }

  lemma {:induction false} ChildrenColourUntouched<M>(ctx: Context, g: Group<M>, n: nat, ph: seq<UnitPhase>, acc: seq<MatrixOp>, colour: Option<Vec3>)
    requires n <= |g.subgroups| && |ph| == |ChildrenTransforms(g, n)| && !ctx.setsColour
    ensures forall d :: d in ChildrenTrace(ctx, g, n, ph, acc, colour) ==> d.colour == colour
    decreases g, n
  {
    if n > 0 {
      var k := |ChildrenTransforms(g, n - 1)|;
      ChildrenColourUntouched(ctx, g, n - 1, ph[..k], acc, colour);
      ColourUntouched(ctx, g.subgroups[n - 1], ph[k..], acc, colour);
    }
  }
}
