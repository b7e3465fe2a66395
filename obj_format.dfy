/**
 * The Wavefront OBJ subset of the fourth release: the reader (v, vn, vt
 * and triangular f lines, 1-based indices stored 0-based, count checks)
 * and the writer (one line per vertex, normal and texture coordinate,
 * then one face line per complete index triple), and the round trip of
 * writing a mesh and reading it back.
 */
module ObjFormat {
  import opened Wrappers
  import opened Vectors
  import opened Text
  import opened MeshBuffers

  /** Indices are stored as 32-bit unsigned ints. */
  const UIntModulus: nat := 0x1_0000_0000

  predicate IndicesFit(s: seq<nat>) {
    forall i :: 0 <= i < |s| ==> s[i] < UIntModulus
  }

  /** The low 32 bits of an unsigned value: what storing it in an
      unsigned int keeps. */
  function Low32(x: nat): (r: nat)
    ensures r < UIntModulus
    decreases x
  {
    if x < UIntModulus then x else Low32(x - UIntModulus)
  }

  lemma {:induction false} Low32IsRemainder(x: nat)
    ensures Low32(x) == x % UIntModulus
    decreases x
  {
    if x >= UIntModulus {
      Low32IsRemainder(x - UIntModulus);
    }
  }

  // ----- reading -----

  /** One 1-based index field: stoul, minus one in unsigned long
      arithmetic, stored as unsigned int (so "0" wraps round to the
      largest value). */
  function IndexOf(part: string): (r: Result<nat>)
    ensures r.Ok? ==> r.value < UIntModulus
    ensures r.Ok? <==> Stoul(part).Ok?
  {
    match Stoul(part)
    case Failure(e) => Failure(e)
    case Ok(v) => Ok(Low32(if v == 0 then ULongMax else v - 1))
  }

  /** An optional index field: an empty field adds nothing. */
  function OptionalIndex(part: string, indices: seq<nat>): (r: Result<seq<nat>>)
    ensures part == [] ==> r == Ok(indices)
    ensures part != [] && r.Ok? ==> |r.value| == |indices| + 1 && r.value[..|indices|] == indices
  {
    if part == [] then Ok(indices)
    else match IndexOf(part)
      case Failure(e) => Failure(e)
      case Ok(i) => Ok(indices + [i])
  }

  /** One face vertex `v[/vt][/vn]`: the vertex index is required, the
      texture and normal indices are added only when their field is not
      empty. */
  function ReadCorner(m: Mesh, token: string): Result<Mesh>
  {
    var vPart := Field(token, '/', 0);
    if vPart == [] then Failure("Vertex index is required")
    else match IndexOf(vPart)
      case Failure(e) => Failure(e)
      case Ok(vi) =>
        match OptionalIndex(Field(token, '/', 1), m.vtIndices)
        case Failure(e) => Failure(e)
        case Ok(vt) =>
          match OptionalIndex(Field(token, '/', 2), m.vnIndices)
          case Failure(e) => Failure(e)
          case Ok(vn) => Ok(m.(vIndices := m.vIndices + [vi], vtIndices := vt, vnIndices := vn))
  }

  /** The corners of a face, in order; the first failure ends the read. */
  function ReadCorners(m: Mesh, tokens: seq<string>): Result<Mesh>
    decreases |tokens|
  {
    if tokens == [] then Ok(m)
    else match ReadCorner(m, tokens[0])
      case Failure(e) => Failure(e)
      case Ok(m1) => ReadCorners(m1, tokens[1..])
  }

  /** What one corner does: it fails without a vertex field, and
      otherwise appends one vertex index, and one texture or normal index
      exactly when that field is present, leaving the rest of the mesh
      alone. */
  lemma ReadCornerEffect(m: Mesh, token: string)
    ensures Field(token, '/', 0) == [] ==> ReadCorner(m, token).Failure?
    ensures var r := ReadCorner(m, token); r.Ok? ==>
      |r.value.vIndices| == |m.vIndices| + 1 && r.value.vIndices[..|m.vIndices|] == m.vIndices
      && |r.value.vtIndices| == |m.vtIndices| + (if Field(token, '/', 1) == [] then 0 else 1)
      && |r.value.vnIndices| == |m.vnIndices| + (if Field(token, '/', 2) == [] then 0 else 1)
      && r.value == m.(vIndices := r.value.vIndices, vtIndices := r.value.vtIndices, vnIndices := r.value.vnIndices)
  {
  }

  /** Each corner read appends one vertex index. */
  lemma {:induction false} ReadCornersCount(m: Mesh, tokens: seq<string>)
    ensures var r := ReadCorners(m, tokens);
      r.Ok? ==> |r.value.vIndices| == |m.vIndices| + |tokens| && r.value.buffersInitialised == m.buffersInitialised
    decreases |tokens|
  {
    if tokens != [] {
      ReadCornerEffect(m, tokens[0]);
      if ReadCorner(m, tokens[0]).Ok? {
        ReadCornersCount(ReadCorner(m, tokens[0]).value, tokens[1..]);
      }
    }
  }

  /** Three floats after the prefix (further tokens are ignored). */
  function Reals3(rt: RealText, args: seq<string>): Option<Vec3> {
    if |args| < 3 then None
    else match (rt.parse(args[0]), rt.parse(args[1]), rt.parse(args[2]))
      case (Some(x), Some(y), Some(z)) => Some(Vec3(x, y, z))
      case _ => None
  }

  function Reals2(rt: RealText, args: seq<string>): Option<Vec2> {
    if |args| < 2 then None
    else match (rt.parse(args[0]), rt.parse(args[1]))
      case (Some(u), Some(v)) => Some(Vec2(u, v))
      case _ => None
  }

  /** A line with at least one token: its prefix selects what it adds. */
  function ReadEntry(rt: RealText, m: Mesh, prefix: string, args: seq<string>, line: string): Result<Mesh> {
    if prefix == "v" then
      match Reals3(rt, args)
      case None => Failure("Failed to parse vertex line: " + line)
      case Some(v) => Ok(m.(vertices := m.vertices + [v]))
    else if prefix == "vn" then
      match Reals3(rt, args)
      case None => Failure("Failed to parse normal line: " + line)
      case Some(n) => Ok(m.(normals := m.normals + [n]))
    else if prefix == "vt" then
      match Reals2(rt, args)
      case None => Failure("Failed to parse texcoords line: " + line)
      case Some(t) => Ok(m.(texcoords := m.texcoords + [t]))
    else if prefix == "f" then
      if |args| != 3 then Failure("Only triangular faces are supported")
      else ReadCorners(m, args)
    else Ok(m)
  }

  /** One line of the file. Empty lines, comment lines, blank lines and
      lines with any other prefix change nothing. */
  function ReadLine(rt: RealText, m: Mesh, line: string): Result<Mesh> {
    if line == [] || line[0] == '#' then Ok(m)
    else
      var toks := Tokens(line);
      if toks == [] then Ok(m) else ReadEntry(rt, m, toks[0], toks[1..], line)
  }

  /** What one line does: a comment, a blank line or an unknown prefix
      changes nothing, a face line without exactly three corners fails,
      a v, vn or vt line appends exactly one element to its list and a
      face line appends three vertex indices. */
  lemma ReadLineCases(rt: RealText, m: Mesh, line: string)
    ensures line == [] || line[0] == '#' ==> ReadLine(rt, m, line) == Ok(m)
    ensures var toks := Tokens(line);
      line != [] && line[0] != '#' && (toks == [] || toks[0] !in ["v", "vn", "vt", "f"]) ==> ReadLine(rt, m, line) == Ok(m)
    ensures var toks := Tokens(line);
      line != [] && line[0] != '#' && toks != [] && toks[0] == "f" && |toks| != 4 ==> ReadLine(rt, m, line).Failure?
    ensures var toks := Tokens(line); var r := ReadLine(rt, m, line);
      line != [] && line[0] != '#' && toks != [] && r.Ok? ==>
        (toks[0] == "v" ==> r.value == m.(vertices := r.value.vertices) && |r.value.vertices| == |m.vertices| + 1)
        && (toks[0] == "vn" ==> r.value == m.(normals := r.value.normals) && |r.value.normals| == |m.normals| + 1)
        && (toks[0] == "vt" ==> r.value == m.(texcoords := r.value.texcoords) && |r.value.texcoords| == |m.texcoords| + 1)
        && (toks[0] == "f" ==> |r.value.vIndices| == |m.vIndices| + 3)
  {
    var toks := Tokens(line);
    if toks != [] {
      ReadCornersCount(m, toks[1..]);
    }
  }

  /** The lines read in order; the first failure ends the read. */
  function ReadLines(rt: RealText, m: Mesh, lines: seq<string>): Result<Mesh>
    decreases |lines|
  {
    if lines == [] then Ok(m)
    else match ReadLine(rt, m, lines[0])
      case Failure(e) => Failure(e)
      case Ok(m1) => ReadLines(rt, m1, lines[1..])
  }

  /** The count checks after the last line. */
  function Validated(m: Mesh): (r: Result<Mesh>)
    ensures r.Ok? <==> (m.vtIndices == [] || |m.vtIndices| == |m.vIndices|) && (m.vnIndices == [] || |m.vnIndices| == |m.vIndices|)
    ensures r.Ok? ==> r.value == m
  {
    if m.vtIndices != [] && |m.vtIndices| != |m.vIndices| then
      Failure("Vertex texture indices count doesn't match vertex indices count")
    else if m.vnIndices != [] && |m.vnIndices| != |m.vIndices| then
      Failure("Vertex normal indices count doesn't match vertex indices count")
    else Ok(m)
  }

  const EmptyMesh: Mesh := MeshOf([], [], [], [], [], [])

  /** importOBJ on the lines of the file at `path` (None: the file cannot
      be opened). */
  function Imported(rt: RealText, path: string, file: Option<seq<string>>): (r: Result<Mesh>)
    ensures file.None? ==> r == Failure("Failed to open file: " + path)
  {
    match file
    case None => Failure("Failed to open file: " + path)
    case Some(lines) =>
      match ReadLines(rt, EmptyMesh, lines)
      case Failure(e) => Failure(e)
      case Ok(m) => Validated(m)
  }

  /** A successful import has matching index counts (or none of a kind),
      and every texture and normal index list is either empty or as long
      as the vertex index list. */
  lemma ImportedCounts(rt: RealText, path: string, file: Option<seq<string>>)
    requires Imported(rt, path, file).Ok?
    ensures var m := Imported(rt, path, file).value;
      (m.vtIndices == [] || |m.vtIndices| == |m.vIndices|) && (m.vnIndices == [] || |m.vnIndices| == |m.vIndices|)
      && !m.buffersInitialised
  {
    ReadLinesKeepsBuffers(rt, EmptyMesh, file.value);
  }

  lemma {:induction false} ReadLinesKeepsBuffers(rt: RealText, m: Mesh, lines: seq<string>)
    requires ReadLines(rt, m, lines).Ok?
    ensures ReadLines(rt, m, lines).value.buffersInitialised == m.buffersInitialised
    decreases |lines|
  {
    if lines != [] {
      var m1 := ReadLine(rt, m, lines[0]).value;
      var toks := Tokens(lines[0]);
      if lines[0] != [] && lines[0][0] != '#' && toks != [] {
        ReadCornersCount(m, toks[1..]);
      }
      ReadLinesKeepsBuffers(rt, m1, lines[1..]);
    }
  }

  /** importOBJ: the lines are read one by one. */
  method ImportOBJ(rt: RealText, path: string, file: Option<seq<string>>) returns (r: Result<Mesh>)
    ensures r == Imported(rt, path, file)
  {
    if file.None? {
      return Failure("Failed to open file: " + path);
    }
    var lines := file.value;
    var model := EmptyMesh;
    var i := 0;
    while i < |lines|
      invariant 0 <= i <= |lines|
      invariant ReadLines(rt, model, lines[i..]) == ReadLines(rt, EmptyMesh, lines)
    {
      assert lines[i..][1..] == lines[i + 1..];
      var step := ReadLine(rt, model, lines[i]);
      if step.Failure? {
        return Failure(step.error);
      }
      model := step.value;
      i := i + 1;
    }
    assert lines[i..] == [];
    r := Validated(model);
  }

  // ----- writing -----

  function VertexLine(rt: RealText, v: Vec3): string {
    Spaced(["v", rt.fixed6(v.x), rt.fixed6(v.y), rt.fixed6(v.z)])
  }

  function NormalLine(rt: RealText, n: Vec3): string {
    Spaced(["vn", rt.fixed6(n.x), rt.fixed6(n.y), rt.fixed6(n.z)])
  }

  function TexcoordLine(rt: RealText, t: Vec2): string {
    Spaced(["vt", rt.fixed6(t.u), rt.fixed6(t.v)])
  }

  /** An index written 1-based, in unsigned int arithmetic. */
  function OneBased(i: nat): string {
    NatToString(Low32(i + 1))
  }

  /** Whether the texture and normal index lists cover every written face. */
  predicate FacesCovered(m: Mesh) {
    |m.vtIndices| >= 3 * (|m.vIndices| / 3) && |m.vnIndices| >= 3 * (|m.vIndices| / 3)
  }

  /** The corner `v/vt/vn` of index position j, each index written by
      `numeral`. */
  function Corner(m: Mesh, j: nat, numeral: nat -> string): string
    requires FacesCovered(m) && j < 3 * (|m.vIndices| / 3)
  {
    Joined([numeral(m.vIndices[j]), numeral(m.vtIndices[j]), numeral(m.vnIndices[j])], '/')
  }

  /** A face line from its three corner tokens. */
  function FaceText(a: string, b: string, c: string): string {
    Spaced(["f", a, b, c])
  }

  function FaceLine(m: Mesh, f: nat, numeral: nat -> string): string
    requires FacesCovered(m) && f < |m.vIndices| / 3
  {
    FaceText(Corner(m, 3 * f, numeral), Corner(m, 3 * f + 1, numeral), Corner(m, 3 * f + 2, numeral))
  }

  function VertexLines(rt: RealText, vs: seq<Vec3>): (r: seq<string>)
    ensures |r| == |vs|
  {
    if vs == [] then [] else VertexLines(rt, vs[..|vs| - 1]) + [VertexLine(rt, vs[|vs| - 1])]
  }

  function NormalLines(rt: RealText, ns: seq<Vec3>): (r: seq<string>)
    ensures |r| == |ns|
  {
    if ns == [] then [] else NormalLines(rt, ns[..|ns| - 1]) + [NormalLine(rt, ns[|ns| - 1])]
  }

  function TexcoordLines(rt: RealText, ts: seq<Vec2>): (r: seq<string>)
    ensures |r| == |ts|
  {
    if ts == [] then [] else TexcoordLines(rt, ts[..|ts| - 1]) + [TexcoordLine(rt, ts[|ts| - 1])]
  }

  /** The first k face lines. */
  function FaceLines(m: Mesh, k: nat, numeral: nat -> string): (r: seq<string>)
    requires FacesCovered(m) && k <= |m.vIndices| / 3
    ensures |r| == k
  {
    if k == 0 then [] else FaceLines(m, k - 1, numeral) + [FaceLine(m, k - 1, numeral)]
  }

  /** The file exportOBJ writes: vertices, a blank line, normals, a blank
      line, texture coordinates, a blank line, and ⌊|vIndices|/3⌋ faces. */
  function Exported(rt: RealText, m: Mesh): (lines: seq<string>)
    requires FacesCovered(m)
    ensures |lines| == |m.vertices| + |m.normals| + |m.texcoords| + 3 + |m.vIndices| / 3
  {
    VertexLines(rt, m.vertices) + [""] + NormalLines(rt, m.normals) + [""]
      + TexcoordLines(rt, m.texcoords) + [""] + FaceLines(m, |m.vIndices| / 3, OneBased)
  }

  /** exportOBJ: the four sections, separated by blank lines. */
  method ExportOBJ(rt: RealText, m: Mesh) returns (lines: seq<string>)
    requires FacesCovered(m)
    ensures lines == Exported(rt, m)
  {
    var vertexLines := WriteVertices(rt, m.vertices);
    var normalLines := WriteNormals(rt, m.normals);
    var texcoordLines := WriteTexcoords(rt, m.texcoords);
    var faceLines := WriteFaces(m);
    lines := vertexLines + [""] + normalLines + [""] + texcoordLines + [""] + faceLines;
  }

  /** The vertex loop of exportOBJ. */
  method WriteVertices(rt: RealText, vs: seq<Vec3>) returns (lines: seq<string>)
    ensures lines == VertexLines(rt, vs)
  {
    lines := [];
    var i := 0;
    while i < |vs|
      invariant 0 <= i <= |vs|
      invariant lines == VertexLines(rt, vs[..i])
    {
      assert vs[..i + 1][..i] == vs[..i];
      lines := lines + [VertexLine(rt, vs[i])];
      i := i + 1;
    }
    assert vs[..i] == vs;
  }

  /** The normal loop of exportOBJ (a non-finite component would be
      written as 0; reals are always finite). */
  method WriteNormals(rt: RealText, ns: seq<Vec3>) returns (lines: seq<string>)
    ensures lines == NormalLines(rt, ns)
  {
    lines := [];
    var i := 0;
    while i < |ns|
      invariant 0 <= i <= |ns|
      invariant lines == NormalLines(rt, ns[..i])
    {
      assert ns[..i + 1][..i] == ns[..i];
      lines := lines + [NormalLine(rt, ns[i])];
      i := i + 1;
    }
    assert ns[..i] == ns;
  }

  /** The texture coordinate loop of exportOBJ. */
  method WriteTexcoords(rt: RealText, ts: seq<Vec2>) returns (lines: seq<string>)
    ensures lines == TexcoordLines(rt, ts)
  {
    lines := [];
    var i := 0;
    while i < |ts|
      invariant 0 <= i <= |ts|
      invariant lines == TexcoordLines(rt, ts[..i])
    {
      assert ts[..i + 1][..i] == ts[..i];
      lines := lines + [TexcoordLine(rt, ts[i])];
      i := i + 1;
    }
    assert ts[..i] == ts;
  }

  /** The face loop of exportOBJ: a face for every complete index triple. */
  method WriteFaces(m: Mesh) returns (lines: seq<string>)
    requires FacesCovered(m)
    ensures lines == FaceLines(m, |m.vIndices| / 3, OneBased)
  {
    var faces := |m.vIndices| / 3;
    assert 3 * faces <= |m.vIndices| < 3 * faces + 3;
    lines := [];
    var i, f := 0, 0;
    while i < |m.vIndices|
      invariant i == 3 * f && f <= faces
      invariant lines == FaceLines(m, f, OneBased)
      decreases |m.vIndices| - i
    {
      if i + 2 >= |m.vIndices| {
        break;
      }
      lines := lines + [FaceLine(m, f, OneBased)];
      i, f := i + 3, f + 1;
    }
    assert f == faces;
  }

  // ----- the round trip -----

  /** ReadLines over two consecutive blocks of lines. */
  lemma {:induction false} ReadLinesAppend(rt: RealText, m: Mesh, a: seq<string>, b: seq<string>)
    ensures ReadLines(rt, m, a + b) ==
      match ReadLines(rt, m, a)
      case Failure(e) => Failure(e)
      case Ok(m1) => ReadLines(rt, m1, b)
    decreases |a|
  {
    if a == [] {
      assert a + b == b;
    } else {
      assert (a + b)[0] == a[0];
      assert (a + b)[1..] == a[1..] + b;
      if ReadLine(rt, m, a[0]).Ok? {
        ReadLinesAppend(rt, ReadLine(rt, m, a[0]).value, a[1..], b);
      }
    }
  }

  /** One more line after a successful read. */
  lemma ReadLinesSnoc(rt: RealText, m: Mesh, a: seq<string>, line: string, m1: Mesh, m2: Mesh)
    requires ReadLines(rt, m, a) == Ok(m1) && ReadLine(rt, m1, line) == Ok(m2)
    ensures ReadLines(rt, m, a + [line]) == Ok(m2)
  {
    ReadLinesAppend(rt, m, a, [line]);
    assert [line][1..] == [];
  }

  lemma ReadOneLine(rt: RealText, m: Mesh, line: string)
    ensures ReadLines(rt, m, [line]) == ReadLine(rt, m, line)
  {
    assert [line][1..] == [];
  }

  /** A written vertex line reads back as that vertex. */
  lemma VertexLineReads(rt: RealText, m: Mesh, v: Vec3)
    requires ReadsBack(rt, rt.fixed6)
    ensures ReadLine(rt, m, VertexLine(rt, v)) == Ok(m.(vertices := m.vertices + [v]))
  {
    var words := ["v", rt.fixed6(v.x), rt.fixed6(v.y), rt.fixed6(v.z)];
    TokensOfSpaced(words);
    assert VertexLine(rt, v)[0] == 'v';
    assert Tokens(VertexLine(rt, v))[1..] == words[1..];
  }

  lemma NormalLineReads(rt: RealText, m: Mesh, n: Vec3)
    requires ReadsBack(rt, rt.fixed6)
    ensures ReadLine(rt, m, NormalLine(rt, n)) == Ok(m.(normals := m.normals + [n]))
  {
    var words := ["vn", rt.fixed6(n.x), rt.fixed6(n.y), rt.fixed6(n.z)];
    TokensOfSpaced(words);
    assert NormalLine(rt, n)[0] == 'v';
    assert Tokens(NormalLine(rt, n))[1..] == words[1..];
  }

  lemma TexcoordLineReads(rt: RealText, m: Mesh, t: Vec2)
    requires ReadsBack(rt, rt.fixed6)
    ensures ReadLine(rt, m, TexcoordLine(rt, t)) == Ok(m.(texcoords := m.texcoords + [t]))
  {
    var words := ["vt", rt.fixed6(t.u), rt.fixed6(t.v)];
    TokensOfSpaced(words);
    assert TexcoordLine(rt, t)[0] == 'v';
    assert Tokens(TexcoordLine(rt, t))[1..] == words[1..];
  }

  lemma {:induction false} VertexLinesRead(rt: RealText, m: Mesh, vs: seq<Vec3>)
    requires ReadsBack(rt, rt.fixed6)
    ensures ReadLines(rt, m, VertexLines(rt, vs)) == Ok(m.(vertices := m.vertices + vs))
    decreases |vs|
  {
    if vs != [] {
      var init := vs[..|vs| - 1];
      VertexLinesRead(rt, m, init);
      ReadLinesAppend(rt, m, VertexLines(rt, init), [VertexLine(rt, vs[|vs| - 1])]);
      var m1 := m.(vertices := m.vertices + init);
      ReadOneLine(rt, m1, VertexLine(rt, vs[|vs| - 1]));
      VertexLineReads(rt, m1, vs[|vs| - 1]);
      assert m.vertices + init + [vs[|vs| - 1]] == m.vertices + vs;
    } else {
      assert m.vertices + vs == m.vertices;
    }
  }

  lemma {:induction false} NormalLinesRead(rt: RealText, m: Mesh, ns: seq<Vec3>)
    requires ReadsBack(rt, rt.fixed6)
    ensures ReadLines(rt, m, NormalLines(rt, ns)) == Ok(m.(normals := m.normals + ns))
    decreases |ns|
  {
    if ns != [] {
      var init := ns[..|ns| - 1];
      NormalLinesRead(rt, m, init);
      ReadLinesAppend(rt, m, NormalLines(rt, init), [NormalLine(rt, ns[|ns| - 1])]);
      var m1 := m.(normals := m.normals + init);
      ReadOneLine(rt, m1, NormalLine(rt, ns[|ns| - 1]));
      NormalLineReads(rt, m1, ns[|ns| - 1]);
      assert m.normals + init + [ns[|ns| - 1]] == m.normals + ns;
    } else {
      assert m.normals + ns == m.normals;
    }
  }

  lemma {:induction false} TexcoordLinesRead(rt: RealText, m: Mesh, ts: seq<Vec2>)
    requires ReadsBack(rt, rt.fixed6)
    ensures ReadLines(rt, m, TexcoordLines(rt, ts)) == Ok(m.(texcoords := m.texcoords + ts))
    decreases |ts|
  {
    if ts != [] {
      var init := ts[..|ts| - 1];
      TexcoordLinesRead(rt, m, init);
      ReadLinesAppend(rt, m, TexcoordLines(rt, init), [TexcoordLine(rt, ts[|ts| - 1])]);
      var m1 := m.(texcoords := m.texcoords + init);
      ReadOneLine(rt, m1, TexcoordLine(rt, ts[|ts| - 1]));
      TexcoordLineReads(rt, m1, ts[|ts| - 1]);
      assert m.texcoords + init + [ts[|ts| - 1]] == m.texcoords + ts;
    } else {
      assert m.texcoords + ts == m.texcoords;
    }
  }

  /** A 1-based index field reads back as the index. */
  lemma OneBasedReads(i: nat)
    requires i < UIntModulus
    ensures IndexOf(OneBased(i)) == Ok(i)
  {
    var n := Low32(i + 1);
    StoulOfNatToString(n);
    if i + 1 == UIntModulus {
      assert n == Low32(0) == 0;
      Low32IsRemainder(ULongMax);
    }
  }

  /** A decimal numeral holds neither whitespace nor the field delimiter. */
  lemma NumeralIsPlain(s: string)
    requires forall i :: 0 <= i < |s| ==> IsDigit(s[i])
    ensures NoSpace(s) && '/' !in s
  {
    forall c | c in s ensures c != '/' {
      var i :| 0 <= i < |s| && s[i] == c;
    }
  }

  /** A rendering of indices that the reader takes back: each numeral is
      one token without the field delimiter, and reads as the index. */
  ghost predicate NumeralsReadBack(numeral: nat -> string) {
    forall i: nat :: i < UIntModulus ==>
      numeral(i) != [] && NoSpace(numeral(i)) && '/' !in numeral(i) && IndexOf(numeral(i)) == Ok(i)
  }

  /** The writer's numerals read back. */
  lemma OneBasedReadsBack()
    ensures NumeralsReadBack(OneBased)
  {
    forall i: nat | i < UIntModulus
      ensures OneBased(i) != [] && NoSpace(OneBased(i)) && '/' !in OneBased(i) && IndexOf(OneBased(i)) == Ok(i)
    {
      NumeralIsPlain(OneBased(i));
      OneBasedReads(i);
    }
  }

  /** The three fields of a written corner. */
  lemma CornerParts(src: Mesh, j: nat, numeral: nat -> string)
    requires FacesCovered(src) && j < 3 * (|src.vIndices| / 3)
    ensures var parts := [numeral(src.vIndices[j]), numeral(src.vtIndices[j]), numeral(src.vnIndices[j])];
      Joined(parts, '/') == Corner(src, j, numeral) && parts[1..][1..] == [parts[2]]
  {
  }

  /** A written corner is one token. */
  lemma CornerIsWord(src: Mesh, j: nat, numeral: nat -> string)
    requires FacesCovered(src) && AllFit(src) && j < 3 * (|src.vIndices| / 3)
    requires NumeralsReadBack(numeral)
    ensures Corner(src, j, numeral) != [] && NoSpace(Corner(src, j, numeral))
  {
    var p := [numeral(src.vIndices[j]), numeral(src.vtIndices[j]), numeral(src.vnIndices[j])];
    CornerParts(src, j, numeral);
    assert Joined(p[1..], '/') == p[1] + "/" + p[2];
    var c := Corner(src, j, numeral);
    assert c == p[0] + "/" + (p[1] + "/" + p[2]);
    assert NoSpace(p[0]) && NoSpace(p[1]) && NoSpace(p[2]);
    forall i | 0 <= i < |c| ensures !IsSpace(c[i]) {
      if i < |p[0]| {
        assert c[i] == p[0][i];
      } else if i == |p[0]| {
        assert c[i] == '/';
      } else if i < |p[0]| + 1 + |p[1]| {
        assert c[i] == p[1][i - |p[0]| - 1];
      } else if i == |p[0]| + 1 + |p[1]| {
        assert c[i] == '/';
      } else {
        assert c[i] == p[2][i - |p[0]| - |p[1]| - 2];
      }
    }
  }

  /** The mesh with one written corner's indices appended. */
  function WithCorner(src: Mesh, j: nat, m: Mesh): Mesh
    requires FacesCovered(src) && j < 3 * (|src.vIndices| / 3)
  {
    m.(vIndices := m.vIndices + [src.vIndices[j]], vtIndices := m.vtIndices + [src.vtIndices[j]],
       vnIndices := m.vnIndices + [src.vnIndices[j]])
  }

  predicate AllFit(m: Mesh) {
    IndicesFit(m.vIndices) && IndicesFit(m.vtIndices) && IndicesFit(m.vnIndices)
  }

  /** A written corner reads back as its three indices. */
  lemma CornerReads(src: Mesh, j: nat, m: Mesh, numeral: nat -> string)
    requires FacesCovered(src) && AllFit(src) && j < 3 * (|src.vIndices| / 3)
    requires NumeralsReadBack(numeral)
    ensures ReadCorner(m, Corner(src, j, numeral)) == Ok(WithCorner(src, j, m))
  {
    var parts := [numeral(src.vIndices[j]), numeral(src.vtIndices[j]), numeral(src.vnIndices[j])];
    CornerParts(src, j, numeral);
    assert '/' !in parts[0] && '/' !in parts[1] && '/' !in parts[2];
    SplitOfJoined(parts, '/');
  }

  /** A face line with three corner tokens reads as those three corners. */
  lemma FaceLineTokens(rt: RealText, m: Mesh, a: string, b: string, c: string)
    requires a != [] && NoSpace(a) && b != [] && NoSpace(b) && c != [] && NoSpace(c)
    ensures ReadLine(rt, m, Spaced(["f", a, b, c])) == ReadCorners(m, [a, b, c])
  {
    var words := ["f", a, b, c];
    TokensOfSpaced(words);
    var line := Spaced(words);
    assert line == "f" + " " + Spaced(words[1..]);
    assert line[0] == 'f';
    assert words[1..] == [a, b, c];
  }

  /** The mesh with one written face's indices appended. */
  function WithFace(src: Mesh, f: nat, m: Mesh): Mesh
    requires FacesCovered(src) && f < |src.vIndices| / 3
  {
    WithCorner(src, 3 * f + 2, WithCorner(src, 3 * f + 1, WithCorner(src, 3 * f, m)))
  }

  /** A face line whose three corner tokens each read successfully. */
  lemma FaceReads(rt: RealText, m: Mesh, a: string, b: string, c: string, m1: Mesh, m2: Mesh, m3: Mesh)
    requires a != [] && NoSpace(a) && b != [] && NoSpace(b) && c != [] && NoSpace(c)
    requires ReadCorner(m, a) == Ok(m1) && ReadCorner(m1, b) == Ok(m2) && ReadCorner(m2, c) == Ok(m3)
    ensures ReadLine(rt, m, FaceText(a, b, c)) == Ok(m3)
  {
    FaceLineTokens(rt, m, a, b, c);
    var cs := [a, b, c];
    assert ReadCorners(m, cs) == ReadCorners(m1, cs[1..]);
    assert ReadCorners(m1, cs[1..]) == ReadCorners(m2, cs[1..][1..]);
    assert ReadCorners(m2, cs[1..][1..]) == ReadCorners(m3, []);
  }

  /** A written face line reads back as its three corners. */
  lemma FaceLineReads(rt: RealText, src: Mesh, f: nat, m: Mesh, numeral: nat -> string)
    requires FacesCovered(src) && AllFit(src) && f < |src.vIndices| / 3
    requires NumeralsReadBack(numeral)
    ensures ReadLine(rt, m, FaceLine(src, f, numeral)) == Ok(WithFace(src, f, m))
  {
    CornerIsWord(src, 3 * f, numeral);
    CornerIsWord(src, 3 * f + 1, numeral);
    CornerIsWord(src, 3 * f + 2, numeral);
    var m1 := WithCorner(src, 3 * f, m);
    var m2 := WithCorner(src, 3 * f + 1, m1);
    CornerReads(src, 3 * f, m, numeral);
    CornerReads(src, 3 * f + 1, m1, numeral);
    CornerReads(src, 3 * f + 2, m2, numeral);
    FaceReads(rt, m, Corner(src, 3 * f, numeral), Corner(src, 3 * f + 1, numeral), Corner(src, 3 * f + 2, numeral), m1, m2, WithFace(src, f, m));
  }

  /** A face's indices are the next three of each index list. */
  lemma WithFaceSlices(src: Mesh, f: nat, m: Mesh)
    requires FacesCovered(src) && f < |src.vIndices| / 3
    ensures WithFace(src, f, m) ==
      WithIndices(m, src.vIndices[3 * f .. 3 * f + 3], src.vtIndices[3 * f .. 3 * f + 3], src.vnIndices[3 * f .. 3 * f + 3])
  {
    var j := 3 * f;
    assert src.vIndices[j .. j + 3] == [src.vIndices[j], src.vIndices[j + 1], src.vIndices[j + 2]];
    assert src.vtIndices[j .. j + 3] == [src.vtIndices[j], src.vtIndices[j + 1], src.vtIndices[j + 2]];
    assert src.vnIndices[j .. j + 3] == [src.vnIndices[j], src.vnIndices[j + 1], src.vnIndices[j + 2]];
  }

  /** Index slices of consecutive faces join up. */
  lemma FaceSlices(s: seq<nat>, j: nat)
    requires j + 3 <= |s|
    ensures s[..j] + s[j .. j + 3] == s[..j + 3]
  {
  }

  /** The mesh with the given index lists appended. */
  function WithIndices(m: Mesh, v: seq<nat>, vt: seq<nat>, vn: seq<nat>): Mesh {
    m.(vIndices := m.vIndices + v, vtIndices := m.vtIndices + vt, vnIndices := m.vnIndices + vn)
  }

  lemma WithIndicesTwice(m: Mesh, v: seq<nat>, vt: seq<nat>, vn: seq<nat>, v2: seq<nat>, vt2: seq<nat>, vn2: seq<nat>)
    ensures WithIndices(WithIndices(m, v, vt, vn), v2, vt2, vn2) == WithIndices(m, v + v2, vt + vt2, vn + vn2)
  {
    assert m.vIndices + v + v2 == m.vIndices + (v + v2);
    assert m.vtIndices + vt + vt2 == m.vtIndices + (vt + vt2);
    assert m.vnIndices + vn + vn2 == m.vnIndices + (vn + vn2);
  }

  /** One more written face line after a successful read. */
  lemma FaceLinesSnocRead(rt: RealText, src: Mesh, k: nat, m: Mesh, numeral: nat -> string, m1: Mesh)
    requires FacesCovered(src) && AllFit(src) && 0 < k <= |src.vIndices| / 3
    requires NumeralsReadBack(numeral)
    requires ReadLines(rt, m, FaceLines(src, k - 1, numeral)) == Ok(m1)
    ensures ReadLines(rt, m, FaceLines(src, k, numeral)) == Ok(WithFace(src, k - 1, m1))
  {
    FaceLineReads(rt, src, k - 1, m1, numeral);
    ReadLinesSnoc(rt, m, FaceLines(src, k - 1, numeral), FaceLine(src, k - 1, numeral), m1, WithFace(src, k - 1, m1));
  }

  /** The indices of the first k faces are those of the first k - 1 and
      then the k-th. */
  lemma FaceIndicesGrow(src: Mesh, k: nat, m: Mesh)
    requires FacesCovered(src) && 0 < k <= |src.vIndices| / 3
    ensures var j := 3 * (k - 1);
      WithFace(src, k - 1, WithIndices(m, src.vIndices[..j], src.vtIndices[..j], src.vnIndices[..j]))
        == WithIndices(m, src.vIndices[..3 * k], src.vtIndices[..3 * k], src.vnIndices[..3 * k])
  {
    var j := 3 * (k - 1);
    var m1 := WithIndices(m, src.vIndices[..j], src.vtIndices[..j], src.vnIndices[..j]);
    WithFaceSlices(src, k - 1, m1);
    WithIndicesTwice(m, src.vIndices[..j], src.vtIndices[..j], src.vnIndices[..j],
      src.vIndices[j .. j + 3], src.vtIndices[j .. j + 3], src.vnIndices[j .. j + 3]);
    FaceSlices(src.vIndices, j);
    FaceSlices(src.vtIndices, j);
    FaceSlices(src.vnIndices, j);
    assert j + 3 == 3 * k;
  }

  /** The first k written face lines read back as the first 3k indices of
      each list. */
  lemma {:induction false} FaceLinesRead(rt: RealText, src: Mesh, k: nat, m: Mesh, numeral: nat -> string)
    requires FacesCovered(src) && AllFit(src) && k <= |src.vIndices| / 3
    requires NumeralsReadBack(numeral)
    ensures ReadLines(rt, m, FaceLines(src, k, numeral)) ==
      Ok(WithIndices(m, src.vIndices[..3 * k], src.vtIndices[..3 * k], src.vnIndices[..3 * k]))
  {
    if k == 0 {
      assert m.vIndices + src.vIndices[..0] == m.vIndices;
      assert m.vtIndices + src.vtIndices[..0] == m.vtIndices;
      assert m.vnIndices + src.vnIndices[..0] == m.vnIndices;
    } else {
      FaceLinesRead(rt, src, k - 1, m, numeral);
      var j := 3 * (k - 1);
      FaceLinesSnocRead(rt, src, k, m, numeral, WithIndices(m, src.vIndices[..j], src.vtIndices[..j], src.vnIndices[..j]));
      FaceIndicesGrow(src, k, m);
    }
  }

  lemma BlankLineReads(rt: RealText, m: Mesh)
    ensures ReadLines(rt, m, [""]) == Ok(m)
  {
    ReadOneLine(rt, m, "");
  }

  /** An exported file read block by block: vertices, normals, texture
      coordinates and faces, each block after a blank line. */
  lemma ReadBlocks(rt: RealText, e: Mesh, vl: seq<string>, nl: seq<string>, tl: seq<string>, fl: seq<string>,
                   m1: Mesh, m2: Mesh, m3: Mesh, m4: Mesh)
    requires ReadLines(rt, e, vl) == Ok(m1) && ReadLines(rt, m1, nl) == Ok(m2)
    requires ReadLines(rt, m2, tl) == Ok(m3) && ReadLines(rt, m3, fl) == Ok(m4)
    ensures ReadLines(rt, e, vl + [""] + nl + [""] + tl + [""] + fl) == Ok(m4)
  {
    ReadLinesSnoc(rt, e, vl, "", m1, m1);
    ReadLinesAppend(rt, e, vl + [""], nl);
    ReadLinesSnoc(rt, e, vl + [""] + nl, "", m2, m2);
    ReadLinesAppend(rt, e, vl + [""] + nl + [""], tl);
    ReadLinesSnoc(rt, e, vl + [""] + nl + [""] + tl, "", m3, m3);
    ReadLinesAppend(rt, e, vl + [""] + nl + [""] + tl + [""], fl);
  }

  /** The mesh the blocks of an exported file build up from an empty one. */
  lemma ReadBackMesh(m: Mesh, k: nat)
    requires k <= |m.vIndices| && k <= |m.vtIndices| && k <= |m.vnIndices|
    ensures var m3 := EmptyMesh.(vertices := [] + m.vertices).(normals := [] + m.normals).(texcoords := [] + m.texcoords);
      WithIndices(m3, m.vIndices[..k], m.vtIndices[..k], m.vnIndices[..k])
        == MeshOf(m.vertices, m.normals, m.texcoords, m.vIndices[..k], m.vnIndices[..k], m.vtIndices[..k])
  {
    assert [] + m.vertices == m.vertices;
    assert [] + m.normals == m.normals;
    assert [] + m.texcoords == m.texcoords;
    assert [] + m.vIndices[..k] == m.vIndices[..k];
    assert [] + m.vtIndices[..k] == m.vtIndices[..k];
    assert [] + m.vnIndices[..k] == m.vnIndices[..k];
  }

  /** exportThenImportOBJ: writing a mesh and reading the file back gives
      the same vertices, normals and texture coordinates, and the three
      index lists cut to the written faces (a multiple of three), with no
      buffers. */
  lemma ExportThenImport(rt: RealText, path: string, m: Mesh)
    requires ReadsBack(rt, rt.fixed6)
    requires FacesCovered(m) && AllFit(m)
    ensures var k := 3 * (|m.vIndices| / 3);
      Imported(rt, path, Some(Exported(rt, m))) ==
        Ok(MeshOf(m.vertices, m.normals, m.texcoords, m.vIndices[..k], m.vnIndices[..k], m.vtIndices[..k]))
  {
    var k := |m.vIndices| / 3;
    var e := EmptyMesh;
    var m1 := e.(vertices := e.vertices + m.vertices);
    var m2 := m1.(normals := m1.normals + m.normals);
    var m3 := m2.(texcoords := m2.texcoords + m.texcoords);
    var m4 := WithIndices(m3, m.vIndices[..3 * k], m.vtIndices[..3 * k], m.vnIndices[..3 * k]);
    VertexLinesRead(rt, e, m.vertices);
    NormalLinesRead(rt, m1, m.normals);
    TexcoordLinesRead(rt, m2, m.texcoords);
    OneBasedReadsBack();
    FaceLinesRead(rt, m, k, m3, OneBased);
    ReadBlocks(rt, e, VertexLines(rt, m.vertices), NormalLines(rt, m.normals), TexcoordLines(rt, m.texcoords),
      FaceLines(m, k, OneBased), m1, m2, m3, m4);
    ReadBackMesh(m, 3 * k);
  }
}
