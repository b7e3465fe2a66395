/**
 * The Phase 3 OBJ files: the generator writes a triangle list as one `v`
 * line per float triplet (exportToOBJ), and the engine loads the vertex
 * positions of a file as a flat list of floats, either emitting every face
 * vertex directly (loadModelVerticesOld) or fan-triangulating each face
 * (loadModelVertices). A file without faces loads as all its vertices in
 * declaration order.
 */
module TriangleObj {
  import opened Wrappers
  import opened Vectors
  import opened Text
  import ObjFormat

  // ----- positions as floats -----

  function Flat(v: Vec3): seq<real> {
    [v.x, v.y, v.z]
  }

  /** The positions, three floats each, in order. */
  function Flatten(vs: seq<Vec3>): (r: seq<real>)
    ensures |r| == 3 * |vs|
  {
    if vs == [] then [] else Flatten(vs[..|vs| - 1]) + Flat(vs[|vs| - 1])
  }

  /** The float triplets as positions; Flatten undoes it. */
  function Triplets(fs: seq<real>): (r: seq<Vec3>)
    requires |fs| % 3 == 0
    ensures 3 * |r| == |fs|
    ensures Flatten(r) == fs
  {
    if fs == [] then []
    else
      var r := Triplets(fs[..|fs| - 3]) + [Vec3(fs[|fs| - 3], fs[|fs| - 2], fs[|fs| - 1])];
      assert r[..|r| - 1] == Triplets(fs[..|fs| - 3]);
      assert fs == fs[..|fs| - 3] + [fs[|fs| - 3], fs[|fs| - 2], fs[|fs| - 1]];
      r
  }

  /** Three more floats are one more triplet. */
  lemma TripletsStep(fs: seq<real>, k: nat)
    requires 3 * k + 3 <= |fs|
    ensures |fs[..3 * k]| % 3 == 0 && |fs[..3 * k + 3]| % 3 == 0
    ensures Triplets(fs[..3 * k + 3]) == Triplets(fs[..3 * k]) + [Vec3(fs[3 * k], fs[3 * k + 1], fs[3 * k + 2])]
  {
    assert fs[..3 * k + 3][..3 * k] == fs[..3 * k];
  }

  // ----- the generator's writer -----

  /** One `v` line, each float in the stream's default format. */
  function PositionLine(rt: RealText, v: Vec3): string {
    Spaced(["v", rt.general(v.x), rt.general(v.y), rt.general(v.z)])
  }

  function PositionLines(rt: RealText, vs: seq<Vec3>): (r: seq<string>)
    ensures |r| == |vs|
  {
    if vs == [] then [] else PositionLines(rt, vs[..|vs| - 1]) + [PositionLine(rt, vs[|vs| - 1])]
  }

  lemma PositionLinesSnoc(rt: RealText, vs: seq<Vec3>, v: Vec3)
    ensures PositionLines(rt, vs + [v]) == PositionLines(rt, vs) + [PositionLine(rt, v)]
  {
    assert (vs + [v])[..|vs|] == vs;
  }

  /** exportToOBJ: one `v` line per float triplet, in order. The source
      reads the floats three at a time, so their number is a multiple of 3. */
  method ExportToOBJ(rt: RealText, fs: seq<real>) returns (lines: seq<string>)
    requires |fs| % 3 == 0
    ensures |lines| == |fs| / 3
    ensures lines == PositionLines(rt, Triplets(fs))
  {
    lines := [];
    ghost var n, k := |Triplets(fs)|, 0;
    var i := 0;
    while i < |fs|
      invariant i == 3 * k && k <= n && |fs| == 3 * n
      invariant |fs[..i]| % 3 == 0 && lines == PositionLines(rt, Triplets(fs[..i]))
    {
      var v := Vec3(fs[i], fs[i + 1], fs[i + 2]);
      TripletsStep(fs, k);
      PositionLinesSnoc(rt, Triplets(fs[..i]), v);
      lines := lines + [PositionLine(rt, v)];
      i, k := i + 3, k + 1;
    }
    assert fs[..i] == fs;
    Third(|fs|, n);
  }

  lemma Third(n: nat, k: nat)
    requires n == 3 * k
    ensures n / 3 == k
  {
  }

  // ----- face indices -----

  /** The vertex index of a face token (`v`, `v/vt`, `v//vn` or
      `v/vt/vn`): the text before the first '/', read by stoi, and accepted
      only when it names one of the `seen` vertices read so far. */
  function VertexIndex(token: string, seen: nat): (r: Option<nat>)
    ensures r.Some? ==> 1 <= r.value <= seen
  {
    match Stoi(Field(token, '/', 0))
    case Failure(_) => None
    case Ok(v) => if 0 < v <= seen then Some(v) else None
  }

  /** A written index (with or without the texture and normal parts
      after it) is accepted exactly when it is between 1 and the number of
      vertices seen. */
  lemma VertexIndexOfNumeral(k: nat, rest: string, seen: nat)
    requires k <= IntMax
    requires rest == [] || rest[0] == '/'
    ensures VertexIndex(NatToString(k) + rest, seen) == if 1 <= k <= seen then Some(k) else None
  {
    var w := NatToString(k);
    assert '/' !in w by {
      forall i | 0 <= i < |w| ensures w[i] != '/' {
        assert IsDigit(w[i]);
      }
    }
    SplitPrefix(w, rest, '/');
    if rest != [] {
      assert rest == [rest[0]] + rest[1..];
    }
    assert Split(rest, '/')[0] == "";
    assert w + "" == w;
    StoiOfNatToString(k);
  }

  predicate ValidIndices(idx: seq<nat>, seen: nat) {
    forall i :: 0 <= i < |idx| ==> 1 <= idx[i] <= seen
  }

  /** The indices of a face's tokens; None as soon as one is rejected. */
  function IndicesOf(tokens: seq<string>, seen: nat): (r: Option<seq<nat>>)
    ensures r.Some? ==> |r.value| == |tokens| && ValidIndices(r.value, seen)
  {
    if tokens == [] then Some([])
    else
      var front := tokens[..|tokens| - 1];
      match IndicesOf(front, seen)
      case None => None
      case Some(idx) =>
        match VertexIndex(tokens[|tokens| - 1], seen)
        case None => None
        case Some(v) => Some(idx + [v])
  }

  /** A face is accepted exactly when each of its tokens is, and its
      indices are those of its tokens. */
  lemma {:induction false} IndicesOfAccepts(tokens: seq<string>, seen: nat)
    ensures IndicesOf(tokens, seen).Some? <==> forall i :: 0 <= i < |tokens| ==> VertexIndex(tokens[i], seen).Some?
    ensures IndicesOf(tokens, seen).Some? ==>
      forall i :: 0 <= i < |tokens| ==> IndicesOf(tokens, seen).value[i] == VertexIndex(tokens[i], seen).value
    decreases |tokens|
  {
    if IndicesOf(tokens, seen).Some? {
      IndicesOfSome(tokens, seen);
    } else {
      IndicesOfNone(tokens, seen);
    }
  }

  /** An accepted face: every token is accepted, with its own index. */
  lemma {:induction false} IndicesOfSome(tokens: seq<string>, seen: nat)
    requires IndicesOf(tokens, seen).Some?
    ensures forall i :: 0 <= i < |tokens| ==> VertexIndex(tokens[i], seen) == Some(IndicesOf(tokens, seen).value[i])
    decreases |tokens|
  {
    if tokens != [] {
      var front := tokens[..|tokens| - 1];
      var idx := IndicesOf(front, seen).value;
      IndicesOfSome(front, seen);
      assert IndicesOf(tokens, seen).value == idx + [VertexIndex(tokens[|tokens| - 1], seen).value];
      forall i | 0 <= i < |tokens| - 1
        ensures VertexIndex(tokens[i], seen) == Some(IndicesOf(tokens, seen).value[i])
      {
        assert tokens[i] == front[i];
      }
    }
  }

  /** A rejected face: some token is rejected. */
  lemma {:induction false} IndicesOfNone(tokens: seq<string>, seen: nat)
    requires IndicesOf(tokens, seen).None?
    ensures exists i :: 0 <= i < |tokens| && VertexIndex(tokens[i], seen).None?
    decreases |tokens|
  {
    var front := tokens[..|tokens| - 1];
    if IndicesOf(front, seen).None? {
      IndicesOfNone(front, seen);
      var j :| 0 <= j < |front| && VertexIndex(front[j], seen).None?;
      assert tokens[j] == front[j];
    } else {
      assert VertexIndex(tokens[|tokens| - 1], seen).None?;
    }
  }

  /** A rejected token ends the face: what follows it does not matter. */
  lemma {:induction false} RejectedPrefix(tokens: seq<string>, i: nat, seen: nat)
    requires i <= |tokens| && IndicesOf(tokens[..i], seen).None?
    ensures IndicesOf(tokens, seen).None?
    decreases |tokens| - i
  {
    if i < |tokens| {
      assert tokens[..i + 1][..i] == tokens[..i];
      RejectedPrefix(tokens, i + 1, seen);
    } else {
      assert tokens[..i] == tokens;
    }
  }

  /** The inner loop of both loaders over a face's tokens. */
  method ReadFaceIndices(tokens: seq<string>, seen: nat) returns (r: Option<seq<nat>>)
    ensures r == IndicesOf(tokens, seen)
  {
    var idx := [];
    var i := 0;
    while i < |tokens|
      invariant 0 <= i <= |tokens|
      invariant IndicesOf(tokens[..i], seen) == Some(idx)
    {
      var v := VertexIndex(tokens[i], seen);
      IndicesOfStep(tokens, i, seen);
      if v.None? {
        RejectedPrefix(tokens, i + 1, seen);
        return None;
      }
      idx := idx + [v.value];
      i := i + 1;
    }
    assert tokens[..i] == tokens;
    r := Some(idx);
  }

  // ----- what a face emits -----

  /** Triangle t of the fan: the first vertex, vertex t and vertex t + 1. */
  function Triangle(seen: seq<Vec3>, idx: seq<nat>, t: nat): seq<real>
    requires ValidIndices(idx, |seen|) && 1 <= t && t + 1 < |idx|
  {
    Flat(seen[idx[0] - 1]) + Flat(seen[idx[t] - 1]) + Flat(seen[idx[t + 1] - 1])
  }

  /** Triangles 1..k of the fan. */
  function FanTriangles(seen: seq<Vec3>, idx: seq<nat>, k: nat): (r: seq<real>)
    requires ValidIndices(idx, |seen|) && (k == 0 || k + 1 < |idx|)
    ensures |r| == 9 * k
  {
    if k == 0 then [] else FanTriangles(seen, idx, k - 1) + Triangle(seen, idx, k)
  }

  /** The vertices a face names, in order. */
  function Picked(seen: seq<Vec3>, idx: seq<nat>): (r: seq<Vec3>)
    requires ValidIndices(idx, |seen|)
    ensures |r| == |idx|
  {
    if idx == [] then [] else Picked(seen, idx[..|idx| - 1]) + [seen[idx[|idx| - 1] - 1]]
  }

  /** The two loaders: every face vertex in order (loadModelVerticesOld),
      or a fan of triangles (loadModelVertices). */
  datatype Variant = Direct | Fan

  function FaceFloats(variant: Variant, seen: seq<Vec3>, idx: seq<nat>): seq<real>
    requires ValidIndices(idx, |seen|)
  {
    match variant
    case Direct => Flatten(Picked(seen, idx))
    case Fan => if |idx| >= 3 then FanTriangles(seen, idx, |idx| - 2) else []
  }

  /** A face of n >= 3 indices becomes n - 2 triangles of 9 floats; a
      shorter face adds nothing. Direct emission gives 3 floats per index. */
  lemma FaceFloatsCount(seen: seq<Vec3>, idx: seq<nat>)
    requires ValidIndices(idx, |seen|)
    ensures |FaceFloats(Fan, seen, idx)| == if |idx| >= 3 then 9 * (|idx| - 2) else 0
    ensures |FaceFloats(Direct, seen, idx)| == 3 * |idx|
  {
  }

  /** Triangle t (1-based) of the fan sits at floats 9(t-1)..9t. */
  lemma {:induction false} FanTriangleAt(seen: seq<Vec3>, idx: seq<nat>, k: nat, t: nat)
    requires ValidIndices(idx, |seen|) && k + 1 < |idx| && 1 <= t <= k
    ensures FanTriangles(seen, idx, k)[9 * (t - 1)..9 * t] == Triangle(seen, idx, t)
    decreases k
  {
    var prev := FanTriangles(seen, idx, k - 1);
    assert FanTriangles(seen, idx, k) == prev + Triangle(seen, idx, k);
    if t < k {
      FanTriangleAt(seen, idx, k - 1, t);
      assert (prev + Triangle(seen, idx, k))[9 * (t - 1)..9 * t] == prev[9 * (t - 1)..9 * t];
    } else {
      assert (prev + Triangle(seen, idx, k))[9 * (k - 1)..9 * k] == Triangle(seen, idx, k);
    }
  }

  /** On a triangle both loaders emit the same nine floats. */
  lemma TriangleLoadsAlike(seen: seq<Vec3>, idx: seq<nat>)
    requires ValidIndices(idx, |seen|) && |idx| == 3
    ensures FaceFloats(Fan, seen, idx) == FaceFloats(Direct, seen, idx)
  {
    assert idx[..1][..0] == [];
    assert Picked(seen, idx[..1]) == [seen[idx[0] - 1]];
    assert idx[..2][..1] == idx[..1];
    assert Picked(seen, idx[..2]) == [seen[idx[0] - 1], seen[idx[1] - 1]];
    assert idx[..2] == idx[..|idx| - 1];
    assert Picked(seen, idx) == [seen[idx[0] - 1], seen[idx[1] - 1], seen[idx[2] - 1]];
    var p := Picked(seen, idx);
    assert Flatten(p[..1]) == Flat(p[0]) by {
      assert p[..1][..0] == [];
    }
    assert Flatten(p[..2]) == Flat(p[0]) + Flat(p[1]) by {
      assert p[..2][..1] == p[..1];
    }
    assert p[..2] == p[..|p| - 1];
  }

  /** The fan loop of loadModelVertices (i from 1 to n - 2). */
  method Triangulate(seen: seq<Vec3>, idx: seq<nat>) returns (out: seq<real>)
    requires ValidIndices(idx, |seen|)
    ensures out == FaceFloats(Fan, seen, idx)
  {
    out := [];
    if |idx| >= 3 {
      var i := 1;
      while i < |idx| - 1
        invariant 1 <= i <= |idx| - 1
        invariant out == FanTriangles(seen, idx, i - 1)
      {
        out := out + Flat(seen[idx[0] - 1]);
        out := out + Flat(seen[idx[i] - 1]);
        out := out + Flat(seen[idx[i + 1] - 1]);
        i := i + 1;
      }
    }
  }

  // ----- the loaders -----

  /** The vertices read so far and the floats emitted so far. */
  datatype Load = Load(seen: seq<Vec3>, out: seq<real>)

  predicate IsFaceLine(line: string) {
    var toks := Tokens(line);
    line != [] && line[0] != '#' && toks != [] && toks[0] == "f"
  }

  /** One line: empty lines and comments are skipped, a `v` line adds a
      vertex, an `f` line emits its face, other lines change nothing. Any
      rejected face index fails with the one message the catch-all handler
      gives. */
  function LoadLine(rt: RealText, variant: Variant, st: Load, line: string): Result<Load> {
    if line == [] || line[0] == '#' then Ok(st)
    else
      var toks := Tokens(line);
      if toks == [] then Ok(st)
      else if toks[0] == "v" then
        match ObjFormat.Reals3(rt, toks[1..])
        case None => Failure("Failed to parse vertex line: " + line)
        case Some(v) => Ok(st.(seen := st.seen + [v]))
      else if toks[0] == "f" then
        match IndicesOf(toks[1..], |st.seen|)
        case None => Failure("Failed to parse face vertex index: " + line)
        case Some(idx) => Ok(st.(out := st.out + FaceFloats(variant, st.seen, idx)))
      else Ok(st)
  }

  /** What one line does. */
  lemma LoadLineCases(rt: RealText, variant: Variant, st: Load, line: string)
    ensures line == [] || line[0] == '#' ==> LoadLine(rt, variant, st, line) == Ok(st)
    ensures !IsFaceLine(line) ==> LoadLine(rt, variant, st, line).Ok? ==>
      LoadLine(rt, variant, st, line).value.out == st.out
    ensures var r := LoadLine(rt, variant, st, line); var toks := Tokens(line);
      IsFaceLine(line) ==>
        (r.Failure? <==> IndicesOf(toks[1..], |st.seen|).None?)
        && (r.Failure? ==> r.error == "Failed to parse face vertex index: " + line)
        && (r.Ok? ==>
              r.value.seen == st.seen
              && r.value.out == st.out + FaceFloats(variant, st.seen, IndicesOf(toks[1..], |st.seen|).value))
    ensures var r := LoadLine(rt, variant, st, line);
      !IsFaceLine(line) && r.Ok? ==> r.value.seen == st.seen || |r.value.seen| == |st.seen| + 1
  {
  }

  function LoadLines(rt: RealText, variant: Variant, st: Load, lines: seq<string>): Result<Load>
    decreases |lines|
  {
    if lines == [] then Ok(st)
    else match LoadLine(rt, variant, st, lines[0])
      case Failure(e) => Failure(e)
      case Ok(st1) => LoadLines(rt, variant, st1, lines[1..])
  }

  /** A loader on the file at `path` (None: it cannot be opened): the
      emitted floats, or every vertex in order when nothing was emitted. */
  function Loaded(rt: RealText, variant: Variant, path: string, file: Option<seq<string>>): (r: Result<seq<real>>)
    ensures file.None? ==> r == Failure("Failed to open file: " + path)
  {
    match file
    case None => Failure("Failed to open file: " + path)
    case Some(lines) =>
      match LoadLines(rt, variant, Load([], []), lines)
      case Failure(e) => Failure(e)
      case Ok(st) => Ok(if st.out == [] then Flatten(st.seen) else st.out)
  }

  lemma {:induction false} LoadLinesAppend(rt: RealText, variant: Variant, st: Load, a: seq<string>, b: seq<string>)
    ensures LoadLines(rt, variant, st, a + b) ==
      match LoadLines(rt, variant, st, a)
      case Failure(e) => Failure(e)
      case Ok(st1) => LoadLines(rt, variant, st1, b)
    decreases |a|
  {
    if a == [] {
      assert a + b == b;
    } else {
      assert (a + b)[0] == a[0];
      assert (a + b)[1..] == a[1..] + b;
      if LoadLine(rt, variant, st, a[0]).Ok? {
        LoadLinesAppend(rt, variant, LoadLine(rt, variant, st, a[0]).value, a[1..], b);
      }
    }
  }

  /** A file without face lines emits nothing, so it loads as all its
      vertices in declaration order. */
  lemma {:induction false} FacelessEmitsNothing(rt: RealText, variant: Variant, st: Load, lines: seq<string>)
    requires forall i :: 0 <= i < |lines| ==> !IsFaceLine(lines[i])
    requires LoadLines(rt, variant, st, lines).Ok?
    ensures LoadLines(rt, variant, st, lines).value.out == st.out
    decreases |lines|
  {
    if lines != [] {
      LoadLineCases(rt, variant, st, lines[0]);
      FacelessEmitsNothing(rt, variant, LoadLine(rt, variant, st, lines[0]).value, lines[1..]);
    }
  }

  lemma FacelessLoadsVertices(rt: RealText, variant: Variant, path: string, lines: seq<string>)
    requires forall i :: 0 <= i < |lines| ==> !IsFaceLine(lines[i])
    requires LoadLines(rt, variant, Load([], []), lines).Ok?
    ensures Loaded(rt, variant, path, Some(lines)) == Ok(Flatten(LoadLines(rt, variant, Load([], []), lines).value.seen))
  {
    FacelessEmitsNothing(rt, variant, Load([], []), lines);
  }

  /** A written position line reads back as that vertex. */
  lemma PositionLineLoads(rt: RealText, variant: Variant, st: Load, v: Vec3)
    requires ReadsBack(rt, rt.general)
    ensures LoadLine(rt, variant, st, PositionLine(rt, v)) == Ok(st.(seen := st.seen + [v]))
  {
    var words := ["v", rt.general(v.x), rt.general(v.y), rt.general(v.z)];
    TokensOfSpaced(words);
    assert PositionLine(rt, v)[0] == 'v';
    assert Tokens(PositionLine(rt, v))[1..] == words[1..];
  }

  lemma {:induction false} PositionLinesLoad(rt: RealText, variant: Variant, st: Load, vs: seq<Vec3>)
    requires ReadsBack(rt, rt.general)
    ensures LoadLines(rt, variant, st, PositionLines(rt, vs)) == Ok(st.(seen := st.seen + vs))
    decreases |vs|
  {
    if vs == [] {
      assert st.seen + vs == st.seen;
    } else {
      var front := vs[..|vs| - 1];
      var v := vs[|vs| - 1];
      PositionLinesLoad(rt, variant, st, front);
      LoadLinesAppend(rt, variant, st, PositionLines(rt, front), [PositionLine(rt, v)]);
      var st1 := st.(seen := st.seen + front);
      PositionLineLoads(rt, variant, st1, v);
      assert [PositionLine(rt, v)][1..] == [];
      assert st.seen + front + [v] == st.seen + vs;
    }
  }

  /** A file the generator wrote loads back as the floats it was given,
      with either loader. */
  lemma ExportThenLoad(rt: RealText, variant: Variant, path: string, fs: seq<real>)
    requires |fs| % 3 == 0 && ReadsBack(rt, rt.general)
    ensures Loaded(rt, variant, path, Some(PositionLines(rt, Triplets(fs)))) == Ok(fs)
  {
    PositionLinesLoad(rt, variant, Load([], []), Triplets(fs));
    assert [] + Triplets(fs) == Triplets(fs);
  }

  /** The direct-emission face loop of loadModelVerticesOld: each accepted
      index emits its vertex at once. */
  method EmitDirect(seen: seq<Vec3>, tokens: seq<string>) returns (r: Option<seq<real>>)
    ensures r == match IndicesOf(tokens, |seen|)
      case None => None
      case Some(idx) => Some(FaceFloats(Direct, seen, idx))
  {
    var out := [];
    ghost var idx := [];
    var i := 0;
    while i < |tokens|
      invariant 0 <= i <= |tokens|
      invariant IndicesOf(tokens[..i], |seen|) == Some(idx)
      invariant out == Flatten(Picked(seen, idx))
    {
      var v := VertexIndex(tokens[i], |seen|);
      EmitStep(seen, tokens, i, idx);
      if v.None? {
        return None;
      }
      idx := idx + [v.value];
      out := out + Flat(seen[v.value - 1]);
      i := i + 1;
    }
    assert tokens[..i] == tokens;
    r := Some(out);
  }

  /** One more token: the face so far is extended by its index, or
      rejected with it. */
  lemma IndicesOfStep(tokens: seq<string>, i: nat, seen: nat)
    requires i < |tokens|
    ensures IndicesOf(tokens[..i + 1], seen) == match IndicesOf(tokens[..i], seen)
      case None => None
      case Some(idx) =>
        match VertexIndex(tokens[i], seen)
        case None => None
        case Some(v) => Some(idx + [v])
  {
    assert tokens[..i + 1][..i] == tokens[..i];
  }

  /** One more token of a directly emitted face: a rejected token rejects
      the face, an accepted one appends its vertex's floats. */
  lemma EmitStep(seen: seq<Vec3>, tokens: seq<string>, i: nat, idx: seq<nat>)
    requires i < |tokens| && IndicesOf(tokens[..i], |seen|) == Some(idx)
    ensures VertexIndex(tokens[i], |seen|).None? ==> IndicesOf(tokens, |seen|).None?
    ensures VertexIndex(tokens[i], |seen|).Some? ==>
      var v := VertexIndex(tokens[i], |seen|).value;
      IndicesOf(tokens[..i + 1], |seen|) == Some(idx + [v])
      && Flatten(Picked(seen, idx + [v])) == Flatten(Picked(seen, idx)) + Flat(seen[v - 1])
  {
    IndicesOfStep(tokens, i, |seen|);
    var r := VertexIndex(tokens[i], |seen|);
    if r.None? {
      RejectedPrefix(tokens, i + 1, |seen|);
    } else {
      PickedSnoc(seen, idx, r.value);
      var picked := Picked(seen, idx + [r.value]);
      assert picked[..|picked| - 1] == Picked(seen, idx);
    }
  }

  /** Picking one more index appends its vertex. */
  lemma PickedSnoc(seen: seq<Vec3>, idx: seq<nat>, v: nat)
    requires ValidIndices(idx, |seen|) && 1 <= v <= |seen|
    ensures ValidIndices(idx + [v], |seen|)
    ensures Picked(seen, idx + [v]) == Picked(seen, idx) + [seen[v - 1]]
  {
    ValidSnoc(idx, v, |seen|);
    var longer := idx + [v];
    assert longer[..|idx|] == idx;
  }

  lemma ValidSnoc(idx: seq<nat>, v: nat, seen: nat)
    requires ValidIndices(idx, seen) && 1 <= v <= seen
    ensures ValidIndices(idx + [v], seen)
  {
  }

  /** The fallback loop: every vertex, in order. */
  method AllVertices(seen: seq<Vec3>) returns (out: seq<real>)
    ensures out == Flatten(seen)
  {
    out := [];
    var i := 0;
    while i < |seen|
      invariant 0 <= i <= |seen|
      invariant out == Flatten(seen[..i])
    {
      assert seen[..i + 1][..i] == seen[..i];
      out := out + Flat(seen[i]);
      i := i + 1;
    }
    assert seen[..i] == seen;
  }

  /** loadModelVertices: faces are fan-triangulated. */
  method LoadModelVertices(rt: RealText, path: string, file: Option<seq<string>>) returns (r: Result<seq<real>>)
    ensures r == Loaded(rt, Fan, path, file)
  {
    if file.None? {
      return Failure("Failed to open file: " + path);
    }
    var lines := file.value;
    var seen: seq<Vec3> := [];
    var out: seq<real> := [];
    var i := 0;
    while i < |lines|
      invariant 0 <= i <= |lines|
      invariant LoadLines(rt, Fan, Load(seen, out), lines[i..]) == LoadLines(rt, Fan, Load([], []), lines)
    {
      assert lines[i..][1..] == lines[i + 1..];
      var line := lines[i];
      if line != [] && line[0] != '#' {
        var toks := Tokens(line);
        if toks != [] && toks[0] == "v" {
          var v := ObjFormat.Reals3(rt, toks[1..]);
          if v.None? {
            return Failure("Failed to parse vertex line: " + line);
          }
          seen := seen + [v.value];
        } else if toks != [] && toks[0] == "f" {
          var idx := ReadFaceIndices(toks[1..], |seen|);
          if idx.None? {
            return Failure("Failed to parse face vertex index: " + line);
          }
          var tris := Triangulate(seen, idx.value);
          out := out + tris;
        }
      }
      i := i + 1;
    }
    assert lines[i..] == [];
    if out == [] {
      out := AllVertices(seen);
    }
    r := Ok(out);
  }

  /** loadModelVerticesOld: every face vertex is emitted directly. */
  method LoadModelVerticesOld(rt: RealText, path: string, file: Option<seq<string>>) returns (r: Result<seq<real>>)
    ensures r == Loaded(rt, Direct, path, file)
  {
    if file.None? {
      return Failure("Failed to open file: " + path);
    }
    var lines := file.value;
    var seen: seq<Vec3> := [];
    var out: seq<real> := [];
    var i := 0;
    while i < |lines|
      invariant 0 <= i <= |lines|
      invariant LoadLines(rt, Direct, Load(seen, out), lines[i..]) == LoadLines(rt, Direct, Load([], []), lines)
    {
      assert lines[i..][1..] == lines[i + 1..];
      var line := lines[i];
      if line != [] && line[0] != '#' {
        var toks := Tokens(line);
        if toks != [] && toks[0] == "v" {
          var v := ObjFormat.Reals3(rt, toks[1..]);
          if v.None? {
            return Failure("Failed to parse vertex line: " + line);
          }
          seen := seen + [v.value];
        } else if toks != [] && toks[0] == "f" {
          var face := EmitDirect(seen, toks[1..]);
          if face.None? {
            return Failure("Failed to parse face vertex index: " + line);
          }
          out := out + face.value;
        }
      }
      i := i + 1;
    }
    assert lines[i..] == [];
    if out == [] {
      out := AllVertices(seen);
    }
    r := Ok(out);
  }
}
