/**
 * The generator of the third phase: every shape is built from quads, each
 * appended as two triangles of x, y, z floats by addQuad, except where the
 * sphere's top stack and the cone's last stack append single triangles.
 * Bezier surfaces are tessellated patch by patch from the control points of
 * a patch file.
 */
module Phase3Shapes {
  import opened Wrappers
  import opened Vectors
  import opened SoupGrid
  import opened TriangleObj
  import Phase1Shapes
  import Phase2Shapes
  import MeshIndices
  import BezierPatch

  // ----- addQuad -----

  /** The corners of a quad, in order around it. */
  datatype Corners = Corners(v1: Vec3, v2: Vec3, v3: Vec3, v4: Vec3)

  /** Six positions written out as eighteen floats. */
  lemma FlattenSix(a: Vec3, b: Vec3, c: Vec3, d: Vec3, e: Vec3, f: Vec3)
    ensures Flatten([a, b, c, d, e, f])
      == [a.x, a.y, a.z, b.x, b.y, b.z, c.x, c.y, c.z, d.x, d.y, d.z, e.x, e.y, e.z, f.x, f.y, f.z]
  {
    assert [a, b, c, d, e, f] == [a, b, c] + [d, e, f];
    FlattenAppend([a, b, c], [d, e, f]);
    FlattenThree(a, b, c);
    FlattenThree(d, e, f);
  }

  lemma FlattenThree(a: Vec3, b: Vec3, c: Vec3)
    ensures Flatten([a, b, c]) == [a.x, a.y, a.z, b.x, b.y, b.z, c.x, c.y, c.z]
  {
    assert Flatten([a]) == Flat(a) by { assert [a][..0] == []; }
    assert Flatten([a, b]) == Flatten([a]) + Flat(b) by { assert [a, b][..1] == [a]; }
    assert Flatten([a, b, c]) == Flatten([a, b]) + Flat(c) by { assert [a, b, c][..2] == [a, b]; }
  }

  /** addQuad: the two triangles of the quad appended as 18 floats, wound
      counter-clockwise when facing front and clockwise otherwise. */
  method AddQuad(vertices: seq<real>, v1: Vec3, v2: Vec3, v3: Vec3, v4: Vec3, facingFront: bool) returns (r: seq<real>)
    ensures r == vertices + Flatten(Quad(v1, v2, v3, v4, facingFront))
    ensures |r| == |vertices| + 18
  {
    if facingFront {
      r := vertices + [v1.x, v1.y, v1.z, v2.x, v2.y, v2.z, v3.x, v3.y, v3.z,
                       v1.x, v1.y, v1.z, v3.x, v3.y, v3.z, v4.x, v4.y, v4.z];
      FlattenSix(v1, v2, v3, v1, v3, v4);
    } else {
      r := vertices + [v1.x, v1.y, v1.z, v3.x, v3.y, v3.z, v2.x, v2.y, v2.z,
                       v1.x, v1.y, v1.z, v4.x, v4.y, v4.z, v3.x, v3.y, v3.z];
      FlattenSix(v1, v3, v2, v1, v4, v3);
    }
  }

  /** The cell of a grid of quads with the given corners, all facing the
      same way. */
  function QuadCells(corners: (nat, nat) -> Corners, front: bool): (nat, nat) -> seq<Vec3> {
    (row: nat, col: nat) => QuadOf(corners(row, col), front)
  }

  function QuadOf(q: Corners, front: bool): seq<Vec3> {
    Quad(q.v1, q.v2, q.v3, q.v4, front)
  }

  /** The row and column loops around addQuad. */
  method AddQuadGrid(vertices: seq<real>, rows: nat, cols: nat, corners: (nat, nat) -> Corners, front: bool) returns (r: seq<real>)
    ensures r == vertices + Flatten(Grid(rows, cols, QuadCells(corners, front)))
  {
    r := vertices;
    var row := 0;
    while row < rows
      invariant row <= rows
      invariant r == vertices + Concat(row, RowsOf(cols, FlatCells(QuadCells(corners, front))))
    {
      r := AddQuadRow(r, row, cols, corners, front);
      row := row + 1;
    }
    FlattenGrid(rows, cols, QuadCells(corners, front));
  }

  /** The column loop of one row: the row's quads appended in column order. */
  method AddQuadRow(vertices: seq<real>, row: nat, cols: nat, corners: (nat, nat) -> Corners, front: bool) returns (r: seq<real>)
    ensures r == vertices + RowsOf(cols, FlatCells(QuadCells(corners, front)))(row)
  {
    r := vertices;
    var col := 0;
    while col < cols
      invariant col <= cols
      invariant r == vertices + Concat(col, CellsOf(FlatCells(QuadCells(corners, front)), row))
    {
      var q := corners(row, col);
      r := AddQuad(r, q.v1, q.v2, q.v3, q.v4, front);
      assert Flatten(QuadOf(q, front)) == FlatCells(QuadCells(corners, front))(row, col);
      col := col + 1;
    }
  }

  /** Every quad contributes 6 vertices. */
  lemma QuadGridSize(rows: nat, cols: nat, corners: (nat, nat) -> Corners, front: bool)
    ensures |Grid(rows, cols, QuadCells(corners, front))| == rows * cols * 6
  {
    forall r: nat, c: nat | r < rows && c < cols
      ensures |QuadCells(corners, front)(r, c)| == 6
    {
      assert QuadCells(corners, front)(r, c) == QuadOf(corners(r, c), front);
    }
    GridUniform(rows, cols, QuadCells(corners, front), 6);
  }

  /** When every corner satisfies P, so does every vertex. */
  lemma QuadGridAll(rows: nat, cols: nat, corners: (nat, nat) -> Corners, front: bool, P: Vec3 -> bool)
    requires forall r: nat, c: nat :: r < rows && c < cols ==>
      var q := corners(r, c); P(q.v1) && P(q.v2) && P(q.v3) && P(q.v4)
    ensures All(Grid(rows, cols, QuadCells(corners, front)), P)
  {
    GridAll(rows, cols, QuadCells(corners, front), P);
  }

  // ----- plane -----

  /** The cell at row and column: (r1, 0, c1), (r1, 0, c2), (r2, 0, c2),
      (r2, 0, c1), x running with the row and z with the column. */
  function PlaneCorners(coord: nat -> real): (nat, nat) -> Corners {
    (row: nat, col: nat) =>
      Corners(Vec3(coord(row), 0.0, coord(col)), Vec3(coord(row), 0.0, coord(Next(col))),
              Vec3(coord(Next(row)), 0.0, coord(Next(col))), Vec3(coord(Next(row)), 0.0, coord(col)))
  }

  function Plane(length: real, divisions: nat): seq<Vec3> {
    Grid(divisions, divisions, QuadCells(PlaneCorners(Coords(length, divisions)), true))
  }

  method GeneratePlane(length: real, divisions: nat) returns (vertices: seq<real>)
    ensures vertices == Flatten(Plane(length, divisions))
  {
    vertices := AddQuadGrid([], divisions, divisions, PlaneCorners(Coords(length, divisions)), true);
    EmptyAppend(Flatten(Plane(length, divisions)));
  }

  /** 18·divisions² floats; every vertex at y = 0 and, for a non-negative
      length, with x and z within ±length/2. */
  lemma PlaneShape(length: real, d: nat)
    ensures |Flatten(Plane(length, d))| == 18 * d * d
    ensures All(Plane(length, d), AtHeight(0.0))
    ensures length >= 0.0 ==> All(Plane(length, d), WithinSquare(length / 2.0))
  {
    var corners := PlaneCorners(Coords(length, d));
    QuadGridSize(d, d, corners, true);
    Floats(d, 6);
    forall r: nat, c: nat | r < d && c < d
      ensures var q := corners(r, c); var P := AtHeight(0.0); P(q.v1) && P(q.v2) && P(q.v3) && P(q.v4)
    {
    }
    QuadGridAll(d, d, corners, true, AtHeight(0.0));
    if length >= 0.0 {
      var h := length / 2.0;
      CoordsWithin(length, d);
      forall r: nat, c: nat | r < d && c < d
        ensures var q := corners(r, c); var P := WithinSquare(h); P(q.v1) && P(q.v2) && P(q.v3) && P(q.v4)
      {
        PlaneCornerWithin(Coords(length, d), d, h, r, c);
      }
      QuadGridAll(d, d, corners, true, WithinSquare(h));
    }
  }

  lemma PlaneCornerWithin(coord: nat -> real, d: nat, h: real, r: nat, c: nat)
    requires Bounded(coord, d, h) && r < d && c < d
    ensures var q := PlaneCorners(coord)(r, c); var P := WithinSquare(h);
      P(q.v1) && P(q.v2) && P(q.v3) && P(q.v4)
  {
    assert Next(r) <= d && Next(c) <= d;
  }

  // ----- box -----

  /** Faces 0 to 5 are right, left, top, bottom, front and back: the even
      ones at +o facing front, the odd ones at -o facing back. The row
      coordinate a runs along y for the side faces and along x otherwise. */
  function FaceCorners(o: real, face: nat, a: real, aN: real, b: real, bN: real): Corners {
    var fc := if face % 2 == 0 then o else -o;
    if face < 2 then Corners(Vec3(fc, a, b), Vec3(fc, aN, b), Vec3(fc, aN, bN), Vec3(fc, a, bN))
    else if face < 4 then Corners(Vec3(a, fc, b), Vec3(a, fc, bN), Vec3(aN, fc, bN), Vec3(aN, fc, b))
    else Corners(Vec3(a, b, fc), Vec3(aN, b, fc), Vec3(aN, bN, fc), Vec3(a, bN, fc))
  }

  function BoxCorners(o: real, coord: nat -> real, face: nat): (nat, nat) -> Corners {
    (row: nat, col: nat) => FaceCorners(o, face, coord(row), coord(Next(row)), coord(col), coord(Next(col)))
  }

  function BoxFaces(o: real, coord: nat -> real, d: nat): nat -> seq<Vec3> {
    (face: nat) => Grid(d, d, QuadCells(BoxCorners(o, coord, face), face % 2 == 0))
  }

  function Box(length: real, divisions: nat): seq<Vec3> {
    Concat(6, BoxFaces(length / 2.0, Coords(length, divisions), divisions))
  }

  /** The six face loops, one after the other. */
  method GenerateBox(length: real, divisions: nat) returns (vertices: seq<real>)
    ensures vertices == Flatten(Box(length, divisions))
  {
    var faces := BoxFaces(length / 2.0, Coords(length, divisions), divisions);
    vertices := [];
    var face := 0;
    while face < 6
      invariant face <= 6
      invariant vertices == Flatten(Concat(face, faces))
    {
      vertices := AddQuadGrid(vertices, divisions, divisions, BoxCorners(length / 2.0, Coords(length, divisions), face), face % 2 == 0);
      FlattenAppend(Concat(face, faces), faces(face));
      face := face + 1;
    }
    assert Box(length, divisions) == Concat(6, faces);
  }

  /** The plane of face f in the numbering of the first phase (right, top,
      front, left, bottom, back). */
  function Side(face: nat): nat {
    if face % 2 == 0 then face / 2 else 3 + face / 2
  }

  lemma FaceOn(o: real, face: nat, a: real, aN: real, b: real, bN: real)
    requires face < 6
    ensures var q := FaceCorners(o, face, a, aN, b, bN); var P := Phase1Shapes.OnFace(o, Side(face));
      P(q.v1) && P(q.v2) && P(q.v3) && P(q.v4)
  {
  }

  lemma FaceWithin(o: real, face: nat, a: real, aN: real, b: real, bN: real)
    requires o >= 0.0 && -o <= a <= o && -o <= aN <= o && -o <= b <= o && -o <= bN <= o
    ensures var q := FaceCorners(o, face, a, aN, b, bN); var P := WithinCube(o);
      P(q.v1) && P(q.v2) && P(q.v3) && P(q.v4)
  {
  }

  /** One face: 6·d² vertices in its plane, within the cube when its grid
      lines are. */
  lemma FaceGrid(o: real, coord: nat -> real, d: nat, face: nat)
    requires face < 6
    ensures |BoxFaces(o, coord, d)(face)| == 6 * d * d
    ensures All(BoxFaces(o, coord, d)(face), Phase1Shapes.OnFace(o, Side(face)))
    ensures o >= 0.0 && Bounded(coord, d, o) ==> All(BoxFaces(o, coord, d)(face), WithinCube(o))
  {
    var corners, front := BoxCorners(o, coord, face), face % 2 == 0;
    forall r: nat, c: nat | r < d && c < d
      ensures var q := corners(r, c); var P := Phase1Shapes.OnFace(o, Side(face));
        P(q.v1) && P(q.v2) && P(q.v3) && P(q.v4)
    {
      FaceOn(o, face, coord(r), coord(Next(r)), coord(c), coord(Next(c)));
    }
    QuadGridSize(d, d, corners, front);
    QuadGridAll(d, d, corners, front, Phase1Shapes.OnFace(o, Side(face)));
    if o >= 0.0 && Bounded(coord, d, o) {
      forall r: nat, c: nat | r < d && c < d
        ensures var q := corners(r, c); var P := WithinCube(o);
          P(q.v1) && P(q.v2) && P(q.v3) && P(q.v4)
      {
        FaceWithin(o, face, coord(r), coord(Next(r)), coord(c), coord(Next(c)));
      }
      QuadGridAll(d, d, corners, front, WithinCube(o));
    }
  }

  /** Where face f's run of 6·d² vertices starts. */
  function FaceStart(d: nat, f: nat): nat {
    f * (6 * d * d)
  }

  /** 108·divisions² floats in six runs of 18·divisions², one per face in
      the order right, left, top, bottom, front, back, each in its plane. */
  lemma BoxShape(length: real, d: nat, f: nat)
    requires f < 6
    ensures |Flatten(Box(length, d))| == 108 * d * d
    ensures FaceStart(d, f) <= FaceStart(d, f + 1) <= |Box(length, d)|
    ensures All(Box(length, d)[FaceStart(d, f) .. FaceStart(d, f + 1)], Phase1Shapes.OnFace(length / 2.0, Side(f)))
  {
    var o, coord := length / 2.0, Coords(length, d);
    var faces, k := BoxFaces(o, coord, d), 6 * d * d;
    forall g: nat | g < 6
      ensures |faces(g)| == k
    {
      FaceGrid(o, coord, d, g);
    }
    FaceGrid(o, coord, d, f);
    var box := Box(length, d);
    assert box == Concat(6, faces);
    ConcatBlock(6, faces, k, f);
    assert box[FaceStart(d, f) .. FaceStart(d, f + 1)] == faces(f);
    Phase1Shapes.SixFaces(d);
    Floats(d, 36);
  }

  /** d·d·k vertices make 3·k·d·d floats. */
  lemma Floats(d: nat, k: nat)
    ensures 3 * (d * d * k) == 3 * k * d * d && d * d * k == k * d * d
  {
  }

  /** For a non-negative length every vertex is within the cube. */
  lemma BoxWithin(length: real, d: nat)
    requires length >= 0.0
    ensures All(Box(length, d), WithinCube(length / 2.0))
  {
    var o, coord := length / 2.0, Coords(length, d);
    var faces := BoxFaces(o, coord, d);
    CoordsWithin(length, d);
    forall g: nat | g < 6
      ensures All(faces(g), WithinCube(o))
    {
      FaceGrid(o, coord, d, g);
    }
    ConcatAll(6, faces, WithinCube(o));
  }

  /** The outward axis of face f: ±x, ±y or ±z. */
  function Outward(face: nat): Vec3 {
    var sign := if face % 2 == 0 then 1.0 else -1.0;
    if face < 2 then Vec3(sign, 0.0, 0.0) else if face < 4 then Vec3(0.0, sign, 0.0) else Vec3(0.0, 0.0, sign)
  }

  /** The triangle's normal (right-hand rule) points along n. */
  function FacesAlong(n: Vec3): (Vec3, Vec3, Vec3) -> bool {
    (a: Vec3, b: Vec3, c: Vec3) => Dot(Normal(a, b, c), n) > 0.0
  }

  lemma PositiveProduct(x: real, y: real)
    requires x > 0.0 && y > 0.0
    ensures x * y > 0.0
  {
  }

  /** Both triangles of a quad in a plane x = fc, spanned by increasing
      grid lines, face +x when wound front and −x when wound back; likewise
      for the planes y = fc and z = fc below. */
  lemma OutwardX(fc: real, a: real, aN: real, b: real, bN: real, front: bool)
    requires a < aN && b < bN
    ensures EveryTriangle(Quad(Vec3(fc, a, b), Vec3(fc, aN, b), Vec3(fc, aN, bN), Vec3(fc, a, bN), front),
                          FacesAlong(Vec3(if front then 1.0 else -1.0, 0.0, 0.0)))
  {
    var v1, v2, v3, v4 := Vec3(fc, a, b), Vec3(fc, aN, b), Vec3(fc, aN, bN), Vec3(fc, a, bN);
    PositiveProduct(aN - a, bN - b);
    QuadWinding(v1, v2, v3, v4);
    var f, q := Quad(v1, v2, v3, v4, true), Quad(v1, v2, v3, v4, front);
    assert Normal(f[0], f[1], f[2]) == Normal(f[3], f[4], f[5]) == Vec3((aN - a) * (bN - b), 0.0, 0.0);
    QuadAlong(q, Vec3(if front then 1.0 else -1.0, 0.0, 0.0));
  }

  lemma OutwardY(fc: real, a: real, aN: real, b: real, bN: real, front: bool)
    requires a < aN && b < bN
    ensures EveryTriangle(Quad(Vec3(a, fc, b), Vec3(a, fc, bN), Vec3(aN, fc, bN), Vec3(aN, fc, b), front),
                          FacesAlong(Vec3(0.0, if front then 1.0 else -1.0, 0.0)))
  {
    var v1, v2, v3, v4 := Vec3(a, fc, b), Vec3(a, fc, bN), Vec3(aN, fc, bN), Vec3(aN, fc, b);
    PositiveProduct(aN - a, bN - b);
    QuadWinding(v1, v2, v3, v4);
    var f, q := Quad(v1, v2, v3, v4, true), Quad(v1, v2, v3, v4, front);
    assert Normal(f[0], f[1], f[2]) == Normal(f[3], f[4], f[5]) == Vec3(0.0, (aN - a) * (bN - b), 0.0);
    QuadAlong(q, Vec3(0.0, if front then 1.0 else -1.0, 0.0));
  }

  lemma OutwardZ(fc: real, a: real, aN: real, b: real, bN: real, front: bool)
    requires a < aN && b < bN
    ensures EveryTriangle(Quad(Vec3(a, b, fc), Vec3(aN, b, fc), Vec3(aN, bN, fc), Vec3(a, bN, fc), front),
                          FacesAlong(Vec3(0.0, 0.0, if front then 1.0 else -1.0)))
  {
    var v1, v2, v3, v4 := Vec3(a, b, fc), Vec3(aN, b, fc), Vec3(aN, bN, fc), Vec3(a, bN, fc);
    PositiveProduct(aN - a, bN - b);
    QuadWinding(v1, v2, v3, v4);
    var f, q := Quad(v1, v2, v3, v4, true), Quad(v1, v2, v3, v4, front);
    assert Normal(f[0], f[1], f[2]) == Normal(f[3], f[4], f[5]) == Vec3(0.0, 0.0, (aN - a) * (bN - b));
    QuadAlong(q, Vec3(0.0, 0.0, if front then 1.0 else -1.0));
  }

  /** With its grid lines increasing, each quad of face f, wound as addQuad
      is told to (front for right, top and front, back for the others), has
      both triangles facing out of the box. */
  lemma FaceOutward(o: real, face: nat, a: real, aN: real, b: real, bN: real)
    requires face < 6 && a < aN && b < bN
    ensures EveryTriangle(QuadOf(FaceCorners(o, face, a, aN, b, bN), face % 2 == 0), FacesAlong(Outward(face)))
  {
    var front := face % 2 == 0;
    var fc := if front then o else -o;
    var sign := if front then 1.0 else -1.0;
    if face < 2 {
      assert Outward(face) == Vec3(sign, 0.0, 0.0);
      OutwardX(fc, a, aN, b, bN, front);
    } else if face < 4 {
      assert Outward(face) == Vec3(0.0, sign, 0.0);
      OutwardY(fc, a, aN, b, bN, front);
    } else {
      assert Outward(face) == Vec3(0.0, 0.0, sign);
      OutwardZ(fc, a, aN, b, bN, front);
    }
  }

  lemma QuadAlong(q: seq<Vec3>, n: Vec3)
    requires |q| == 6 && Dot(Normal(q[0], q[1], q[2]), n) > 0.0 && Dot(Normal(q[3], q[4], q[5]), n) > 0.0
    ensures EveryTriangle(q, FacesAlong(n))
  {
    TwoTriangles(q, FacesAlong(n));
  }

  /** For a positive length, every triangle of the box faces outwards: face
      f's run of 6·d² vertices is wound around Outward(f). */
  lemma BoxOutward(length: real, d: nat, f: nat)
    requires length > 0.0 && f < 6
    ensures FaceStart(d, f) <= FaceStart(d, f + 1) <= |Box(length, d)|
    ensures EveryTriangle(Box(length, d)[FaceStart(d, f) .. FaceStart(d, f + 1)], FacesAlong(Outward(f)))
  {
    var o, coord := length / 2.0, Coords(length, d);
    CoordsIncrease(length, d);
    FaceGridOutward(o, coord, d, f);
    var faces, k := BoxFaces(o, coord, d), 6 * d * d;
    forall g: nat | g < 6
      ensures |faces(g)| == k
    {
      FaceGrid(o, coord, d, g);
    }
    var box := Box(length, d);
    assert box == Concat(6, faces);
    ConcatBlock(6, faces, k, f);
    assert box[FaceStart(d, f) .. FaceStart(d, f + 1)] == faces(f);
  }

  lemma CoordsIncrease(length: real, d: nat)
    requires length > 0.0
    ensures forall r: nat :: r < d ==> Coords(length, d)(r) < Coords(length, d)(Next(r))
  {
    forall r: nat | r < d
      ensures Coords(length, d)(r) < Coords(length, d)(Next(r))
    {
      CoordNext(length, d, r);
      assert Step(length, d) > 0.0;
    }
  }

  /** Over increasing grid lines, every triangle of a face's grid faces out. */
  lemma FaceGridOutward(o: real, coord: nat -> real, d: nat, f: nat)
    requires f < 6 && forall r: nat :: r < d ==> coord(r) < coord(Next(r))
    ensures EveryTriangle(BoxFaces(o, coord, d)(f), FacesAlong(Outward(f)))
  {
    var cell := QuadCells(BoxCorners(o, coord, f), f % 2 == 0);
    forall r: nat, c: nat | r < d && c < d
      ensures EveryTriangle(cell(r, c), FacesAlong(Outward(f)))
    {
      FaceOutward(o, f, coord(r), coord(Next(r)), coord(c), coord(Next(c)));
      assert cell(r, c) == QuadOf(FaceCorners(o, f, coord(r), coord(Next(r)), coord(c), coord(Next(c))), f % 2 == 0);
    }
    GridTriangles(d, d, cell, FacesAlong(Outward(f)));
  }

  // ----- sphere -----

  /** The cell between stack rings stack and stack + 1 and slice rings
      slice and slice + 1: the quad (t1, b1, b2, t2), except on the top
      stack, where t1 and t2 are both the north pole and only the lower
      triangle (t1, b1, b2) is written. */
  function SphereCell(point: (nat, nat) -> Vec3): (nat, nat) -> seq<Vec3> {
    (stack: nat, slice: nat) =>
      var t1, t2 := point(stack, slice), point(stack, Next(slice));
      var b1, b2 := point(Next(stack), slice), point(Next(stack), Next(slice));
      if stack != 0 then Quad(t1, b1, b2, t2, true) else [t1, b1, b2]
  }

  function Sphere(maths: Maths, radius: real, slices: nat, stacks: nat): seq<Vec3> {
    Grid(stacks, slices, SphereCell(Phase1Shapes.SphereRings(maths, radius, slices, stacks)))
  }

  method GenerateSphere(maths: Maths, radius: real, slices: nat, stacks: nat) returns (vertices: seq<real>)
    ensures vertices == Flatten(Sphere(maths, radius, slices, stacks))
  {
    vertices := AppendFlatGrid([], stacks, slices, SphereCell(Phase1Shapes.SphereRings(maths, radius, slices, stacks)));
    EmptyAppend(Flatten(Sphere(maths, radius, slices, stacks)));
  }

  /** The same triangles as the second phase's sphere cell: the lower one
      as it is, the upper one with its vertices rotated (same winding). */
  lemma SphereCellMatchesPhase2(point: (nat, nat) -> Vec3, stack: nat, slice: nat)
    ensures var c3, c2 := SphereCell(point)(stack, slice), Phase2Shapes.SphereCell(point)(stack, slice);
      |c3| == |c2| == (if stack == 0 then 3 else 6) && c3[..3] == c2[..3]
      && (stack != 0 ==> c3[3] == c2[5] && c3[4] == c2[3] && c3[5] == c2[4])
  {
    var t1, t2 := point(stack, slice), point(stack, Next(slice));
    var b1, b2 := point(Next(stack), slice), point(Next(stack), Next(slice));
    assert SphereCell(point)(stack, slice) == if stack != 0 then [t1, b1, b2, t1, b2, t2] else [t1, b1, b2];
    assert Phase2Shapes.SphereCell(point)(stack, slice) == [t1, b1, b2] + (if stack != 0 then [b2, t2, t1] else []);
  }

  /** The top stack has 3 vertices per slice, every other stack 6. */
  lemma SphereRowLength(point: (nat, nat) -> Vec3, slices: nat, stack: nat)
    ensures |RowsOf(slices, SphereCell(point))(stack)| == if stack == 0 then 3 * slices else 6 * slices
  {
    var cells := CellsOf(SphereCell(point), stack);
    var k := if stack == 0 then 3 else 6;
    forall i: nat | i < slices
      ensures |cells(i)| == k
    {
      SphereCellMatchesPhase2(point, stack, i);
    }
    ConcatUniform(slices, cells, k);
  }

  /** 9 floats per slice on the top stack and 18 on every other:
      9·slices·(2·stacks − 1) in all. */
  lemma SphereCount(maths: Maths, radius: real, slices: nat, stacks: nat)
    ensures |Flatten(Sphere(maths, radius, slices, stacks))| == if stacks == 0 then 0 else 9 * (slices * (2 * stacks - 1))
  {
    var point := Phase1Shapes.SphereRings(maths, radius, slices, stacks);
    var rows := RowsOf(slices, SphereCell(point));
    if stacks > 0 {
      forall i: nat | i < stacks
        ensures |rows(i)| == if i == 0 then 3 * slices else 2 * (3 * slices)
      {
        SphereRowLength(point, slices, i);
      }
      ShortFirstPart(stacks, rows, 3 * slices);
      Phase2Shapes.SphereArith(slices, stacks);
    }
  }

  // ----- cone -----

  /** The cell of the cone loop: the lateral quad (t1, b1, b2, t2) on every
      stack but the last; on the last, whose top corners are both the apex,
      the lower lateral triangle (b1, b2, t1) followed by the base triangle
      (c1, centre, c2) of the slice. */
  function ConeCell(stacks: nat, rim: nat -> Vec3, point: (nat, nat) -> Vec3): (nat, nat) -> seq<Vec3> {
    (stack: nat, slice: nat) =>
      var b1, b2 := point(stack, slice), point(stack, Next(slice));
      var t1, t2 := point(Next(stack), slice), point(Next(stack), Next(slice));
      if stack != stacks - 1 then Quad(t1, b1, b2, t2, true)
      else [b1, b2, t1] + [rim(slice), Origin, rim(Next(slice))]
  }

  function Cone(maths: Maths, radius: real, height: real, slices: nat, stacks: nat): seq<Vec3> {
    Grid(stacks, slices, ConeCell(stacks, Phase1Shapes.ConeRim(maths, radius, slices),
      Phase1Shapes.ConeRings(maths, radius, height, slices, stacks)))
  }

  method GenerateCone(maths: Maths, radius: real, height: real, slices: nat, stacks: nat) returns (vertices: seq<real>)
    ensures vertices == Flatten(Cone(maths, radius, height, slices, stacks))
  {
    vertices := AppendFlatGrid([], stacks, slices, ConeCell(stacks, Phase1Shapes.ConeRim(maths, radius, slices),
      Phase1Shapes.ConeRings(maths, radius, height, slices, stacks)));
    EmptyAppend(Flatten(Cone(maths, radius, height, slices, stacks)));
  }

  /** Both triangles of a lateral quad start at its top-left corner t1. */
  function AboveBase(): (Vec3, Vec3, Vec3) -> bool {
    (a: Vec3, b: Vec3, c: Vec3) => a.y > 0.0
  }

  /** Every cell has 6 vertices. Below the last stack both triangles start
      at the upper ring; the last stack's second triangle is the base
      triangle of the slice. */
  lemma ConeCellShape(stacks: nat, rim: nat -> Vec3, point: (nat, nat) -> Vec3, stack: nat, slice: nat)
    requires stack < stacks
    ensures var cell := ConeCell(stacks, rim, point)(stack, slice);
      |cell| == 6
      && (stack < stacks - 1 ==> cell[0] == cell[3] == point(Next(stack), slice))
      && (stack == stacks - 1 ==> cell[3..] == [rim(slice), Origin, rim(Next(slice))])
  {
    var b1, b2 := point(stack, slice), point(stack, Next(slice));
    var t1, t2 := point(Next(stack), slice), point(Next(stack), Next(slice));
    assert ConeCell(stacks, rim, point)(stack, slice)
      == if stack != stacks - 1 then [t1, b1, b2, t1, b2, t2] else [b1, b2, t1, rim(slice), Origin, rim(Next(slice))];
  }

  /** Ring i above the base is above y = 0 when the height is positive. */
  lemma RingAbove(height: real, stacks: nat, i: nat)
    requires height > 0.0 && stacks > 0 && i > 0
    ensures Phase1Shapes.RingHeight(height, stacks, i) > 0.0
  {
    var step := height / stacks as real;
    assert step > 0.0;
    assert (i as real) * step >= step;
  }

  lemma ConeArith(slices: nat, stacks: nat, s: nat)
    requires stacks >= 1 && s < slices
    ensures (stacks - 1) * (6 * slices) + 6 * slices == 6 * (slices * stacks)
    ensures (stacks - 1) * (6 * slices) == 6 * (slices * (stacks - 1))
    ensures 6 * s + 6 <= 6 * slices
  {
  }

  /** Every stack has 6 vertices per slice. */
  lemma ConeRowLength(stacks: nat, rim: nat -> Vec3, point: (nat, nat) -> Vec3, slices: nat, i: nat)
    requires i < stacks
    ensures |RowsOf(slices, ConeCell(stacks, rim, point))(i)| == 6 * slices
  {
    forall j: nat | j < slices
      ensures |CellsOf(ConeCell(stacks, rim, point), i)(j)| == 6
    {
      ConeCellShape(stacks, rim, point, i, j);
    }
    ConcatUniform(slices, CellsOf(ConeCell(stacks, rim, point), i), 6);
  }

  /** In the last stack, the cell of slice s ends with its base
      triangle. */
  lemma ConeLastRow(stacks: nat, rim: nat -> Vec3, point: (nat, nat) -> Vec3, slices: nat, s: nat)
    requires stacks >= 1 && s < slices
    ensures var row := RowsOf(slices, ConeCell(stacks, rim, point))(stacks - 1);
      6 * s + 6 <= |row| && row[6 * s + 3 .. 6 * s + 6] == [rim(s), Origin, rim(Next(s))]
  {
    var cells := CellsOf(ConeCell(stacks, rim, point), stacks - 1);
    forall j: nat | j < slices
      ensures |cells(j)| == 6
    {
      ConeCellShape(stacks, rim, point, stacks - 1, j);
    }
    ConcatBlock(slices, cells, 6, s);
    ConeCellShape(stacks, rim, point, stacks - 1, s);
    var row := Concat(slices, cells);
    assert row[6 * s .. 6 * s + 6] == cells(s);
    assert row[6 * s + 3 .. 6 * s + 6] == cells(s)[3..];
  }

  /** Below the last stack every triangle starts at an upper ring point;
      when those lie above y = 0, no triangle there is in the base plane. */
  lemma ConeBelowLast(stacks: nat, rim: nat -> Vec3, point: (nat, nat) -> Vec3, slices: nat)
    requires stacks >= 1
    requires forall i: nat, j: nat :: i < stacks - 1 && j < slices ==> point(Next(i), j).y > 0.0
    ensures EveryTriangle(Concat(stacks - 1, RowsOf(slices, ConeCell(stacks, rim, point))), AboveBase())
  {
    var cell := ConeCell(stacks, rim, point);
    forall i: nat | i < stacks - 1
      ensures EveryTriangle(RowsOf(slices, cell)(i), AboveBase())
    {
      forall j: nat | j < slices
        ensures EveryTriangle(CellsOf(cell, i)(j), AboveBase())
      {
        ConeCellShape(stacks, rim, point, i, j);
      }
      ConcatTriangles(slices, CellsOf(cell, i), AboveBase());
    }
    ConcatTriangles(stacks - 1, RowsOf(slices, cell), AboveBase());
  }

  /** Where the cell of the given stack and slice starts: every cell has
      6 vertices. */
  function CellStart(slices: nat, stack: nat, slice: nat): nat {
    6 * (slices * stack) + 6 * slice
  }

  /** 6·slices·stacks vertices, and the base is drawn exactly once, in the
      last stack: there the cell of slice s ends with the base triangle
      (rim(s), centre, rim(s + 1)), while for a positive height every
      triangle of the stacks below starts above the base plane y = 0. */
  lemma ConeBaseOnce(maths: Maths, radius: real, height: real, slices: nat, stacks: nat, s: nat)
    requires stacks >= 1 && s < slices
    ensures |Cone(maths, radius, height, slices, stacks)| == 6 * (slices * stacks)
    ensures var cone, k := Cone(maths, radius, height, slices, stacks), CellStart(slices, stacks - 1, s);
      k + 6 <= |cone| && cone[k + 3 .. k + 6] == Phase1Shapes.BaseCell(Phase1Shapes.ConeRim(maths, radius, slices))(s)
    ensures var cone, k := Cone(maths, radius, height, slices, stacks), CellStart(slices, stacks - 1, 0);
      k <= |cone| && (height > 0.0 ==> EveryTriangle(cone[..k], AboveBase()))
  {
    var rim, point := Phase1Shapes.ConeRim(maths, radius, slices), Phase1Shapes.ConeRings(maths, radius, height, slices, stacks);
    var rows := RowsOf(slices, ConeCell(stacks, rim, point));
    forall i: nat | i < stacks
      ensures |rows(i)| == 6 * slices
    {
      ConeRowLength(stacks, rim, point, slices, i);
    }
    ConcatUniform(stacks - 1, rows, 6 * slices);
    ConeArith(slices, stacks, s);
    ConeLastRow(stacks, rim, point, slices, s);
    var below, last := Concat(stacks - 1, rows), rows(stacks - 1);
    assert Cone(maths, radius, height, slices, stacks) == below + last;
    var k := CellStart(slices, stacks - 1, s);
    assert k == |below| + 6 * s;
    SliceAfter(below, last, k + 3, k + 6);
    if height > 0.0 {
      ConeRaised(maths, radius, height, slices, stacks);
      assert (below + last)[.. CellStart(slices, stacks - 1, 0)] == below;
    }
  }

  lemma SliceAfter<T>(a: seq<T>, b: seq<T>, i: nat, j: nat)
    requires |a| <= i <= j <= |a| + |b|
    ensures (a + b)[i .. j] == b[i - |a| .. j - |a|]
  {
  }

  /** For a positive height every ring above the base is above y = 0. */
  lemma ConeRaised(maths: Maths, radius: real, height: real, slices: nat, stacks: nat)
    requires stacks >= 1 && height > 0.0
    ensures var rim, point := Phase1Shapes.ConeRim(maths, radius, slices), Phase1Shapes.ConeRings(maths, radius, height, slices, stacks);
      EveryTriangle(Concat(stacks - 1, RowsOf(slices, ConeCell(stacks, rim, point))), AboveBase())
  {
    var rim, point := Phase1Shapes.ConeRim(maths, radius, slices), Phase1Shapes.ConeRings(maths, radius, height, slices, stacks);
    forall i: nat, j: nat | i < stacks - 1 && j < slices
      ensures point(Next(i), j).y > 0.0
    {
      RingAbove(height, stacks, Next(i));
    }
    ConeBelowLast(stacks, rim, point, slices);
  }

  // ----- tube -----

  /** One slice of the tube, four quads: the top ring (facing front), the
      bottom ring (facing back), the outer wall (front) and the inner wall
      (back); ot, it, ob and ib are the outer and inner circles at the top
      and the bottom. */
  function TubeCell(ot: nat -> Vec3, it: nat -> Vec3, ob: nat -> Vec3, ib: nat -> Vec3): nat -> seq<Vec3> {
    (slice: nat) =>
      TubeQuads(ot(slice), ot(Next(slice)), it(slice), it(Next(slice)), ob(slice), ob(Next(slice)), ib(slice), ib(Next(slice)))
  }

  function TubeQuads(ot1: Vec3, ot2: Vec3, it1: Vec3, it2: Vec3, ob1: Vec3, ob2: Vec3, ib1: Vec3, ib2: Vec3): seq<Vec3> {
    Quad(it1, ot1, ot2, it2, true) + Quad(ib1, ob1, ob2, ib2, false)
    + Quad(ot1, ob1, ob2, ot2, true) + Quad(it1, ib1, ib2, it2, false)
  }

  /** The four circles of a tube: outer and inner radius at ±height/2. */
  function TubeCells(maths: Maths, iradius: real, oradius: real, height: real, slices: nat): nat -> seq<Vec3> {
    var half := height * 0.5;
    TubeCell(Phase2Shapes.TubeRing(maths, oradius, half, slices), Phase2Shapes.TubeRing(maths, iradius, half, slices),
      Phase2Shapes.TubeRing(maths, oradius, -half, slices), Phase2Shapes.TubeRing(maths, iradius, -half, slices))
  }

  function Tube(maths: Maths, iradius: real, oradius: real, height: real, slices: nat): seq<Vec3> {
    Concat(slices, TubeCells(maths, iradius, oradius, height, slices))
  }

  lemma FlattenFour(a: seq<Vec3>, b: seq<Vec3>, c: seq<Vec3>, d: seq<Vec3>)
    ensures Flatten(a + b + c + d) == Flatten(a) + Flatten(b) + Flatten(c) + Flatten(d)
  {
    FlattenAppend(a + b + c, d);
    FlattenAppend(a + b, c);
    FlattenAppend(a, b);
  }

  /** The body of the slice loop: four addQuad calls. */
  method AddTubeSlice(vertices: seq<real>, ot: nat -> Vec3, it: nat -> Vec3, ob: nat -> Vec3, ib: nat -> Vec3, slice: nat)
    returns (r: seq<real>)
    ensures r == vertices + FlatParts(TubeCell(ot, it, ob, ib))(slice)
  {
    var ot1, ot2, it1, it2 := ot(slice), ot(Next(slice)), it(slice), it(Next(slice));
    var ob1, ob2, ib1, ib2 := ob(slice), ob(Next(slice)), ib(slice), ib(Next(slice));
    r := AddQuad(vertices, it1, ot1, ot2, it2, true);
    r := AddQuad(r, ib1, ob1, ob2, ib2, false);
    r := AddQuad(r, ot1, ob1, ob2, ot2, true);
    r := AddQuad(r, it1, ib1, ib2, it2, false);
    FlattenFour(Quad(it1, ot1, ot2, it2, true), Quad(ib1, ob1, ob2, ib2, false),
      Quad(ot1, ob1, ob2, ot2, true), Quad(it1, ib1, ib2, it2, false));
    assert TubeCell(ot, it, ob, ib)(slice) == TubeQuads(ot1, ot2, it1, it2, ob1, ob2, ib1, ib2);
  }

  /** The slice loop over the four circles ot, it, ob and ib. */
  method AddTubeSlices(vertices: seq<real>, ot: nat -> Vec3, it: nat -> Vec3, ob: nat -> Vec3, ib: nat -> Vec3, slices: nat)
    returns (r: seq<real>)
    ensures r == vertices + Flatten(Concat(slices, TubeCell(ot, it, ob, ib)))
  {
    r := vertices;
    var slice := 0;
    while slice < slices
      invariant slice <= slices
      invariant r == vertices + Concat(slice, FlatParts(TubeCell(ot, it, ob, ib)))
    {
      r := AddTubeSlice(r, ot, it, ob, ib, slice);
      slice := slice + 1;
    }
    FlattenConcat(slices, TubeCell(ot, it, ob, ib));
  }

  method GenerateTube(maths: Maths, iradius: real, oradius: real, height: real, slices: nat) returns (vertices: seq<real>)
    ensures vertices == Flatten(Tube(maths, iradius, oradius, height, slices))
  {
    vertices := AddTubeSlices([],
      Phase2Shapes.TubeRing(maths, oradius, height * 0.5, slices), Phase2Shapes.TubeRing(maths, iradius, height * 0.5, slices),
      Phase2Shapes.TubeRing(maths, oradius, -(height * 0.5), slices), Phase2Shapes.TubeRing(maths, iradius, -(height * 0.5), slices),
      slices);
    EmptyAppend(Flatten(Tube(maths, iradius, oradius, height, slices)));
  }

  /** Each slice's 24 vertices: the first 6 (the top ring) at y = height/2,
      the next 6 (the bottom ring) at y = -height/2. */
  lemma TubeCellShape(maths: Maths, iradius: real, oradius: real, height: real, slices: nat, slice: nat)
    ensures var c := TubeCells(maths, iradius, oradius, height, slices)(slice);
      |c| == 24 && All(c[..6], AtHeight(height / 2.0)) && All(c[6..12], AtHeight(-(height / 2.0)))
  {
    TubeCellIs(maths, iradius, oradius, height, slices, slice);
  }

  /** The slice's 24 vertices written out. */
  lemma TubeCellIs(maths: Maths, iradius: real, oradius: real, height: real, slices: nat, slice: nat)
    ensures var half := height * 0.5;
      var ot, it := Phase2Shapes.TubeRing(maths, oradius, half, slices), Phase2Shapes.TubeRing(maths, iradius, half, slices);
      var ob, ib := Phase2Shapes.TubeRing(maths, oradius, -half, slices), Phase2Shapes.TubeRing(maths, iradius, -half, slices);
      var ot1, ot2, it1, it2 := ot(slice), ot(Next(slice)), it(slice), it(Next(slice));
      var ob1, ob2, ib1, ib2 := ob(slice), ob(Next(slice)), ib(slice), ib(Next(slice));
      TubeCells(maths, iradius, oradius, height, slices)(slice)
        == [it1, ot1, ot2, it1, ot2, it2, ib1, ob2, ob1, ib1, ib2, ob2,
            ot1, ob1, ob2, ot1, ob2, ot2, it1, ib2, ib1, it1, it2, ib2]
  {
  }

  /** The caps are the second phase's cap triangles, each with its
      vertices rotated (so wound the same way). */
  lemma TubeCapsMatchPhase2(maths: Maths, iradius: real, oradius: real, height: real, slices: nat, slice: nat)
    ensures var c3 := TubeCells(maths, iradius, oradius, height, slices)(slice);
      var c2 := Phase2Shapes.TubeCells(maths, iradius, oradius, height, slices)(slice);
      |c3| == |c2| == 24
      && c3[0] == c2[2] && c3[1] == c2[0] && c3[2] == c2[1] && c3[3..6] == c2[3..6]
      && c3[6] == c2[8] && c3[7] == c2[6] && c3[8] == c2[7] && c3[9..12] == c2[9..12]
  {
    TubeCellIs(maths, iradius, oradius, height, slices, slice);
  }

  /** 72·slices floats; slice s occupies vertices 24·s up to 24·s + 24,
      its top ring at height/2 and its bottom ring at -height/2. */
  lemma TubeShape(maths: Maths, iradius: real, oradius: real, height: real, slices: nat, s: nat)
    requires s < slices
    ensures var t := Tube(maths, iradius, oradius, height, slices);
      |Flatten(t)| == 72 * slices
      && All(t[24 * s .. 24 * s + 6], AtHeight(height / 2.0))
      && All(t[24 * s + 6 .. 24 * s + 12], AtHeight(-(height / 2.0)))
  {
    var part := TubeCells(maths, iradius, oradius, height, slices);
    forall i: nat | i < slices
      ensures |part(i)| == 24
    {
      TubeCellShape(maths, iradius, oradius, height, slices, i);
    }
    ConcatBlock(slices, part, 24, s);
    TubeCellShape(maths, iradius, oradius, height, slices, s);
    var t := Tube(maths, iradius, oradius, height, slices);
    assert t[24 * s .. 24 * s + 24] == part(s);
    SliceOfSlice(t, 24 * s, 24 * s + 24, 0, 6);
    SliceOfSlice(t, 24 * s, 24 * s + 24, 6, 12);
  }

  // ----- bezier -----

  /** i/tess, the parameter of grid line i; unused when tess is 0, since
      then no quad is written. */
  function Fraction(i: nat, tess: nat): real {
    if tess == 0 then 0.0 else (i as real) / (tess as real)
  }

  /** The surface point of grid line u along the patch and v across it. */
  function SurfacePoint(patch: BezierPatch.Patch, tess: nat): (nat, nat) -> Vec3 {
    (u: nat, v: nat) => BezierPatch.Position(patch, Fraction(u, tess), Fraction(v, tess))
  }

  /** The quad (p00, p01, p11, p10) of the cell at u and v. */
  function SurfaceCorners(point: (nat, nat) -> Vec3): (nat, nat) -> Corners {
    (u: nat, v: nat) => Corners(point(u, v), point(u, Next(v)), point(Next(u), Next(v)), point(Next(u), v))
  }

  /** The surface of every patch of the file; none past the last patch. */
  function PatchSurfaces(b: MeshIndices.BezierInput, tess: nat): nat -> (nat, nat) -> Vec3
    requires MeshIndices.WellIndexed(b)
  {
    (p: nat) =>
      if p < |b.patches| then SurfacePoint(MeshIndices.InputPatch(b, p), tess)
      else (u: nat, v: nat) => Origin
  }

  /** The tess × tess quads of surface p. */
  function SurfaceQuads(surfaces: nat -> (nat, nat) -> Vec3, tess: nat): nat -> seq<Vec3> {
    (p: nat) => Grid(tess, tess, QuadCells(SurfaceCorners(surfaces(p)), true))
  }

  function Bezier(b: MeshIndices.BezierInput, tess: nat): seq<Vec3>
    requires MeshIndices.WellIndexed(b)
  {
    Concat(|b.patches|, SurfaceQuads(PatchSurfaces(b, tess), tess))
  }

  /** The body of the patch loop: the patch's control points gathered
      through its indices, then the u and v loops of addQuad. */
  method AddPatch(vertices: seq<real>, b: MeshIndices.BezierInput, tess: nat, i: nat) returns (r: seq<real>)
    requires MeshIndices.WellIndexed(b) && i < |b.patches|
    ensures r == vertices + Flatten(SurfaceQuads(PatchSurfaces(b, tess), tess)(i))
  {
    var cps := MeshIndices.LoadControlPoints(b, i);
    var patch := BezierPatch.PatchOf(cps);
    r := AddQuadGrid(vertices, tess, tess, SurfaceCorners(SurfacePoint(patch, tess)), true);
    assert PatchSurfaces(b, tess)(i) == SurfacePoint(patch, tess);
  }

  /** bezier: nothing for a file that cannot be opened; otherwise, patch by
      patch, the 16 control points gathered through the patch's indices and
      the u and v loops of addQuad over the patch. */
  method GenerateBezier(file: Option<MeshIndices.BezierInput>, tess: nat) returns (vertices: seq<real>)
    requires file.Some? ==> MeshIndices.WellIndexed(file.value)
    ensures file.None? ==> vertices == []
    ensures file.Some? ==> vertices == Flatten(Bezier(file.value, tess))
  {
    if file.None? {
      return [];
    }
    var b := file.value;
    vertices := [];
    var i := 0;
    while i < |b.patches|
      invariant i <= |b.patches|
      invariant vertices == Flatten(Concat(i, SurfaceQuads(PatchSurfaces(b, tess), tess)))
    {
      vertices := AddPatch(vertices, b, tess, i);
      FlattenAppend(Concat(i, SurfaceQuads(PatchSurfaces(b, tess), tess)), SurfaceQuads(PatchSurfaces(b, tess), tess)(i));
      i := i + 1;
    }
  }

  /** The corners of the grid are the corner control points 0, 3, 12 and
      15 of the patch. */
  lemma SurfaceCornersAreControlPoints(cps: seq<Vec3>, tess: nat)
    requires |cps| >= 16 && tess > 0
    ensures var point := SurfacePoint(BezierPatch.PatchOf(cps), tess);
      point(0, 0) == cps[0] && point(0, tess) == cps[3] && point(tess, 0) == cps[12] && point(tess, tess) == cps[15]
  {
    assert Fraction(0, tess) == 0.0;
    assert Fraction(tess, tess) == 1.0;
    BezierPatch.PatchCorners(cps);
  }

  lemma BezierArith(n: nat, tess: nat, p: nat)
    requires p < n
    ensures 3 * (n * (6 * tess * tess)) == 18 * tess * tess * n
    ensures (p + 1) * (6 * tess * tess) <= n * (6 * tess * tess)
  {
    MulLe(p + 1, n, 6 * tess * tess);
  }

  /** Where the run of 6·tess² vertices of patch p starts. */
  function RunStart(p: nat, tess: nat): nat {
    p * (6 * tess * tess)
  }

  /** n surfaces give 6·tess²·n vertices; surface p's run starts at its
      point (0, 0). */
  lemma SurfacesShape(n: nat, surfaces: nat -> (nat, nat) -> Vec3, tess: nat, p: nat)
    requires p < n && tess > 0
    ensures |Flatten(Concat(n, SurfaceQuads(surfaces, tess)))| == 18 * tess * tess * n
    ensures RunStart(p, tess) < |Concat(n, SurfaceQuads(surfaces, tess))|
      && Concat(n, SurfaceQuads(surfaces, tess))[RunStart(p, tess)] == surfaces(p)(0, 0)
  {
    var part, k := SurfaceQuads(surfaces, tess), 6 * tess * tess;
    forall q: nat | q < n
      ensures |part(q)| == k
    {
      SurfaceFirst(surfaces(q), tess);
    }
    SurfaceFirst(surfaces(p), tess);
    ConcatRunFirst(n, part, k, p);
    BezierArith(n, tess, p);
  }

  /** One surface: 6·tess² vertices, starting at its point (0, 0). */
  lemma SurfaceFirst(point: (nat, nat) -> Vec3, tess: nat)
    requires tess > 0
    ensures |Grid(tess, tess, QuadCells(SurfaceCorners(point), true))| == 6 * tess * tess
    ensures Grid(tess, tess, QuadCells(SurfaceCorners(point), true))[0] == point(0, 0)
  {
    var cell := QuadCells(SurfaceCorners(point), true);
    QuadGridSize(tess, tess, SurfaceCorners(point), true);
    assert tess * tess * 6 == 6 * tess * tess;
    forall r: nat, c: nat | r < tess && c < tess
      ensures |cell(r, c)| == 6
    {
      assert cell(r, c) == QuadOf(SurfaceCorners(point)(r, c), true);
    }
    GridFirst(tess, tess, cell, 6);
    assert SurfaceCorners(point)(0, 0).v1 == point(0, 0);
  }

  /** 18·tess² floats per patch; patch p's run of 6·tess² vertices starts
      at the patch's first control point, the one its first index names. */
  lemma BezierShape(b: MeshIndices.BezierInput, tess: nat, p: nat)
    requires MeshIndices.WellIndexed(b) && p < |b.patches| && tess > 0
    ensures |Flatten(Bezier(b, tess))| == 18 * tess * tess * |b.patches|
    ensures RunStart(p, tess) < |Bezier(b, tess)| && Bezier(b, tess)[RunStart(p, tess)] == MeshIndices.ControlPoints(b, p)[0]
  {
    SurfacesShape(|b.patches|, PatchSurfaces(b, tess), tess, p);
    var cps := MeshIndices.ControlPoints(b, p);
    SurfaceCornersAreControlPoints(cps, tess);
    assert PatchSurfaces(b, tess)(p) == SurfacePoint(BezierPatch.PatchOf(cps), tess);
  }

  /** The first vertex of a grid of non-empty cells of equal size is the
      first vertex of its first cell. */
  lemma GridFirst<T>(rows: nat, cols: nat, cell: (nat, nat) -> seq<T>, k: nat)
    requires rows > 0 && cols > 0 && k > 0
    requires forall r: nat, c: nat :: r < rows && c < cols ==> |cell(r, c)| == k
    ensures |Grid(rows, cols, cell)| > 0 && Grid(rows, cols, cell)[0] == cell(0, 0)[0]
  {
    forall r: nat | r < rows
      ensures |RowsOf(cols, cell)(r)| == cols * k
    {
      ConcatUniform(cols, CellsOf(cell, r), k);
    }
    ConcatBlock(rows, RowsOf(cols, cell), cols * k, 0);
    ConcatBlock(cols, CellsOf(cell, 0), k, 0);
    var g := Grid(rows, cols, cell);
    assert g[0] == g[0 .. cols * k][0];
    assert RowsOf(cols, cell)(0)[0] == RowsOf(cols, cell)(0)[0 .. k][0];
  }
}
