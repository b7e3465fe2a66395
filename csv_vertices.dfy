/**
 * The comma-separated model files of Phases 1 and 2: one "x,y,z" line per
 * vertex. Phase 1 keeps a model as a list of positions, Phase 2 as a flat
 * list of floats that grows three at a time.
 *
 * A line is read with getline(',') three times, each field converted by
 * stof before the next one is read: a line that runs out of fields is
 * skipped, and a field stof cannot convert raises an exception that
 * nothing catches (here a Failure).
 */
module CsvVertices {
  import opened Wrappers
  import opened Vectors
  import opened Text
  import opened TriangleObj

  // ----- one line -----

  /** The fields getline(',') delivers: every field between commas, except
      a last field that is empty (getline fails when nothing is left). */
  function CsvFields(line: string): (r: seq<string>)
    ensures |r| <= |Split(line, ',')|
  {
    var parts := Split(line, ',');
    if parts[|parts| - 1] == "" then parts[..|parts| - 1] else parts
  }

  datatype LineRead = Skip | Vertex(v: Vec3) | Throws

  /** One line: fields are converted in order and the first field stof
      rejects throws, even when a later field is missing. */
  function ReadCsvLine(rt: RealText, line: string): LineRead {
    var f := CsvFields(line);
    if |f| == 0 then Skip
    else match rt.parse(f[0])
      case None => Throws
      case Some(x) =>
        if |f| == 1 then Skip
        else match rt.parse(f[1])
          case None => Throws
          case Some(y) =>
            if |f| == 2 then Skip
            else match rt.parse(f[2])
              case None => Throws
              case Some(z) => Vertex(Vec3(x, y, z))
  }

  /** A line with fewer than three fields is skipped unless one of its
      fields fails to convert; a line with three or more convertible
      fields is one vertex (further fields are ignored). */
  lemma ReadCsvLineCases(rt: RealText, line: string)
    ensures var f := CsvFields(line);
      |f| < 3 && (forall i :: 0 <= i < |f| ==> rt.parse(f[i]).Some?) ==> ReadCsvLine(rt, line) == Skip
    ensures var f := CsvFields(line);
      |f| >= 3 && rt.parse(f[0]).Some? && rt.parse(f[1]).Some? && rt.parse(f[2]).Some? ==>
        ReadCsvLine(rt, line) == Vertex(Vec3(rt.parse(f[0]).value, rt.parse(f[1]).value, rt.parse(f[2]).value))
    ensures ReadCsvLine(rt, line) == Throws <==>
      exists i :: 0 <= i < |CsvFields(line)| && i < 3 && rt.parse(CsvFields(line)[i]).None?
  {
    var f := CsvFields(line);
    if ReadCsvLine(rt, line) != Throws {
      forall i | 0 <= i < |f| && i < 3 ensures rt.parse(f[i]).Some? {
      }
    }
  }

  /** The lines in order; the first exception ends the read. */
  function ReadCsv(rt: RealText, lines: seq<string>): (r: Result<seq<Vec3>>)
    ensures r.Ok? ==> |r.value| <= |lines|
  {
    if lines == [] then Ok([])
    else
      var front := lines[..|lines| - 1];
      match ReadCsv(rt, front)
      case Failure(e) => Failure(e)
      case Ok(vs) =>
        match ReadCsvLine(rt, lines[|lines| - 1])
        case Skip => Ok(vs)
        case Vertex(v) => Ok(vs + [v])
        case Throws => Failure("stof")
  }

  /** The vertices of a file; a file that cannot be opened gives none. */
  function VerticesOf(rt: RealText, file: Option<seq<string>>): (r: Result<seq<Vec3>>)
    ensures file.None? ==> r == Ok([])
  {
    match file
    case None => Ok([])
    case Some(lines) => ReadCsv(rt, lines)
  }

  // ----- writing -----

  /** One vertex as written by `<<`, fields separated by commas. */
  function CsvLine(rt: RealText, v: Vec3): string {
    Joined([rt.general(v.x), rt.general(v.y), rt.general(v.z)], ',')
  }

  function CsvLines(rt: RealText, vs: seq<Vec3>): (r: seq<string>)
    ensures |r| == |vs|
  {
    if vs == [] then [] else CsvLines(rt, vs[..|vs| - 1]) + [CsvLine(rt, vs[|vs| - 1])]
  }

  lemma CsvLinesSnoc(rt: RealText, vs: seq<Vec3>, v: Vec3)
    ensures CsvLines(rt, vs + [v]) == CsvLines(rt, vs) + [CsvLine(rt, v)]
  {
    assert (vs + [v])[..|vs|] == vs;
  }

  /** A written line reads back as its vertex. */
  lemma CsvLineReads(rt: RealText, v: Vec3)
    requires ReadsBack(rt, rt.general)
    ensures ReadCsvLine(rt, CsvLine(rt, v)) == Vertex(v)
  {
    var parts := [rt.general(v.x), rt.general(v.y), rt.general(v.z)];
    SplitOfJoined(parts, ',');
  }

  /** Every written line reads back as one vertex, in order: the file
      gives back exactly the vertices written. */
  lemma {:induction false} CsvLinesRead(rt: RealText, vs: seq<Vec3>)
    requires ReadsBack(rt, rt.general)
    ensures ReadCsv(rt, CsvLines(rt, vs)) == Ok(vs)
    decreases |vs|
  {
    if vs != [] {
      var front, last := vs[..|vs| - 1], vs[|vs| - 1];
      assert front + [last] == vs;
      assert CsvLines(rt, vs) == CsvLines(rt, front) + [CsvLine(rt, last)];
      CsvLinesRead(rt, front);
      CsvLineReads(rt, last);
      ReadCsvSnoc(rt, CsvLines(rt, front), CsvLine(rt, last));
    }
  }

  // ----- Phase 1: a model of positions -----

  class VertexModel {
    var vertices: seq<Vec3>

    constructor (vertices: seq<Vec3>)
      ensures this.vertices == vertices
    {
      this.vertices := vertices;
    }

    /** toFile: one line per vertex; nothing when the file cannot be
        opened (`isOpen` false). */
    method ToFile(rt: RealText, isOpen: bool) returns (lines: seq<string>)
      ensures lines == if isOpen then CsvLines(rt, vertices) else []
    {
      lines := [];
      if !isOpen {
        return;
      }
      var i := 0;
      while i < |vertices|
        invariant 0 <= i <= |vertices|
        invariant lines == CsvLines(rt, vertices[..i])
      {
        assert vertices[..i + 1][..i] == vertices[..i];
        lines := lines + [CsvLine(rt, vertices[i])];
        i := i + 1;
      }
      assert vertices[..i] == vertices;
    }

    /** One line of fromFile: its vertex, if any, is appended; `thrown`
        when stof rejects one of its fields. */
    method ReadLine(rt: RealText, line: string) returns (thrown: bool)
      modifies this
      ensures thrown <==> ReadCsvLine(rt, line).Throws?
      ensures vertices == old(vertices) + LineVertices(ReadCsvLine(rt, line))
    {
      match ReadCsvLine(rt, line) {
        case Skip => thrown := false;
        case Throws => thrown := true;
        case Vertex(v) =>
          vertices := vertices + [v];
          thrown := false;
      }
    }

    /** fromFile: the lines read in order into a new model. */
    static method FromFile(rt: RealText, file: Option<seq<string>>) returns (r: Result<VertexModel>)
      ensures VerticesOf(rt, file).Failure? <==> r.Failure?
      ensures r.Ok? ==> fresh(r.value) && r.value.vertices == VerticesOf(rt, file).value
    {
      var model := new VertexModel([]);
      if file.None? {
        return Ok(model);
      }
      var lines := file.value;
      var i := 0;
      while i < |lines|
        invariant 0 <= i <= |lines|
        invariant fresh(model)
        invariant ReadCsv(rt, lines[..i]) == Ok(model.vertices)
      {
        ReadCsvStep(rt, lines, i);
        var thrown := model.ReadLine(rt, lines[i]);
        if thrown {
          FailurePersists(rt, lines, i + 1);
          return Failure("stof");
        }
        i := i + 1;
      }
      assert lines[..i] == lines;
      r := Ok(model);
    }
  }

  /** The vertex a line contributes, if any. */
  function LineVertices(r: LineRead): seq<Vec3> {
    if r.Vertex? then [r.v] else []
  }

  /** One more line continues the read of the lines before it. */
  lemma ReadCsvStep(rt: RealText, lines: seq<string>, i: nat)
    requires i < |lines|
    ensures ReadCsv(rt, lines[..i + 1]) == match ReadCsv(rt, lines[..i])
      case Failure(e) => Failure(e)
      case Ok(vs) =>
        if ReadCsvLine(rt, lines[i]).Throws? then Failure("stof")
        else Ok(vs + LineVertices(ReadCsvLine(rt, lines[i])))
  {
    assert lines[..i + 1][..i] == lines[..i];
    match ReadCsv(rt, lines[..i]) {
      case Failure(_) =>
      case Ok(vs) => assert vs + [] == vs;
    }
  }

  /** ReadCsvStep for a last line given apart. */
  lemma ReadCsvSnoc(rt: RealText, lines: seq<string>, line: string)
    ensures ReadCsv(rt, lines + [line]) == match ReadCsv(rt, lines)
      case Failure(e) => Failure(e)
      case Ok(vs) =>
        if ReadCsvLine(rt, line).Throws? then Failure("stof")
        else Ok(vs + LineVertices(ReadCsvLine(rt, line)))
  {
    ReadCsvStep(rt, lines + [line], |lines|);
    assert (lines + [line])[..|lines| + 1] == lines + [line];
    assert (lines + [line])[..|lines|] == lines;
  }

  lemma FlattenSnoc(vs: seq<Vec3>, v: Vec3)
    ensures Flatten(vs + [v]) == Flatten(vs) + Flat(v)
  {
    assert (vs + [v])[..|vs|] == vs;
  }

  /** An exception ends the read whatever follows. */
  lemma {:induction false} FailurePersists(rt: RealText, lines: seq<string>, i: nat)
    requires i <= |lines| && ReadCsv(rt, lines[..i]).Failure?
    ensures ReadCsv(rt, lines).Failure?
    decreases |lines| - i
  {
    if i < |lines| {
      assert lines[..i + 1][..i] == lines[..i];
      FailurePersists(rt, lines, i + 1);
    } else {
      assert lines[..i] == lines;
    }
  }

  // ----- Phase 2: a model of floats -----

  class FloatModel {
    var vertices: seq<real>

    /** Floats only ever arrive three at a time. */
    ghost predicate Valid()
      reads this
    {
      |vertices| % 3 == 0
    }

    constructor ()
      ensures vertices == [] && Valid()
    {
      vertices := [];
    }

    /** addVertex: exactly x, y and z are appended. */
    method AddVertex(v: Vec3)
      requires Valid()
      modifies this
      ensures Valid()
      ensures vertices == old(vertices) + [v.x, v.y, v.z]
    {
      vertices := vertices + [v.x, v.y, v.z];
    }
  }

  /** modelFiles::load: the floats of the file's vertices, in order. */
  method Load(rt: RealText, file: Option<seq<string>>) returns (r: Result<FloatModel>)
    ensures VerticesOf(rt, file).Failure? <==> r.Failure?
    ensures r.Ok? ==>
      fresh(r.value) && r.value.Valid() && r.value.vertices == Flatten(VerticesOf(rt, file).value)
  {
    var model := new FloatModel();
    if file.None? {
      return Ok(model);
    }
    var lines := file.value;
    var i := 0;
    ghost var read: seq<Vec3> := [];
    while i < |lines|
      invariant 0 <= i <= |lines|
      invariant fresh(model) && model.Valid()
      invariant ReadCsv(rt, lines[..i]) == Ok(read)
      invariant model.vertices == Flatten(read)
    {
      ReadCsvStep(rt, lines, i);
      var thrown := LoadLine(rt, lines[i], model, read);
      if thrown {
        FailurePersists(rt, lines, i + 1);
        return Failure("stof");
      }
      read := read + LineVertices(ReadCsvLine(rt, lines[i]));
      i := i + 1;
    }
    assert lines[..i] == lines;
    r := Ok(model);
  }

  /** One line of load: the vertex, if any, is added to the model. */
  method LoadLine(rt: RealText, line: string, model: FloatModel, ghost read: seq<Vec3>) returns (thrown: bool)
    requires model.Valid() && model.vertices == Flatten(read)
    modifies model
    ensures model.Valid()
    ensures thrown <==> ReadCsvLine(rt, line).Throws?
    ensures model.vertices == Flatten(read + LineVertices(ReadCsvLine(rt, line)))
  {
    match ReadCsvLine(rt, line) {
      case Skip =>
        assert read + [] == read;
        thrown := false;
      case Throws =>
        assert read + [] == read;
        thrown := true;
      case Vertex(v) =>
        model.AddVertex(v);
        FlattenSnoc(read, v);
        thrown := false;
    }
  }

  /** The generator's save: one comma-separated triplet per line; false
      when the file cannot be opened (`isOpen` false), and then nothing is
      written. The floats are read three at a time, so their number is a
      multiple of 3. */
  method Save(rt: RealText, fs: seq<real>, isOpen: bool) returns (saved: bool, lines: seq<string>)
    requires |fs| % 3 == 0
    ensures saved == isOpen
    ensures lines == if isOpen then CsvLines(rt, Triplets(fs)) else []
  {
    lines := [];
    if !isOpen {
      return false, lines;
    }
    ghost var n, k := |Triplets(fs)|, 0;
    var i := 0;
    while i < |fs|
      invariant i == 3 * k && k <= n && |fs| == 3 * n
      invariant |fs[..i]| % 3 == 0 && lines == CsvLines(rt, Triplets(fs[..i]))
    {
      var v := Vec3(fs[i], fs[i + 1], fs[i + 2]);
      TripletsStep(fs, k);
      CsvLinesSnoc(rt, Triplets(fs[..i]), v);
      lines := lines + [CsvLine(rt, v)];
      i, k := i + 3, k + 1;
    }
    assert fs[..i] == fs;
    saved := true;
  }

  /** A file the generator saved loads back as the same floats. */
  lemma SaveThenLoad(rt: RealText, fs: seq<real>)
    requires |fs| % 3 == 0 && ReadsBack(rt, rt.general)
    ensures VerticesOf(rt, Some(CsvLines(rt, Triplets(fs)))).Ok?
    ensures Flatten(VerticesOf(rt, Some(CsvLines(rt, Triplets(fs)))).value) == fs
  {
    CsvLinesRead(rt, Triplets(fs));
  }
}
