/**
 * generateVertices of the second phase: each shape is a flat list of
 * floats, x, y, z per vertex, three vertices per triangle. Every function
 * below gives the vertices; the generating methods return their floats.
 * Plane, sphere and cone reuse the grid lines and ring points of the first
 * phase, which compute the same coordinates.
 */
module Phase2Shapes {
  import opened Vectors
  import opened SoupGrid
  import opened TriangleObj
  import Phase1Shapes

  // ----- plane -----

  /** generateVertices::plane: row by row and column by column, the cell
      (x1, z1), (x1, z2), (x2, z2), (x2, z2), (x2, z1), (x1, z1) — the very
      cell of the first phase's square plane. */
  method GeneratePlane(length: real, divisions: nat, height: real) returns (floats: seq<real>)
    ensures floats == Flatten(Phase1Shapes.SquarePlane(length, divisions, height))
  {
    floats := AppendFlatGrid([], divisions, divisions, Phase1Shapes.PlaneCell(Coords(length, divisions), height));
    EmptyAppend(Flatten(Phase1Shapes.SquarePlane(length, divisions, height)));
  }

  /** 18·divisions² floats, read back as the plane's vertices. */
  lemma PlaneFloats(length: real, d: nat, height: real)
    ensures |Flatten(Phase1Shapes.SquarePlane(length, d, height))| == 18 * d * d
    ensures Triplets(Flatten(Phase1Shapes.SquarePlane(length, d, height))) == Phase1Shapes.SquarePlane(length, d, height)
  {
    Phase1Shapes.SquarePlaneShape(length, d, height);
    TripletsFlatten(Phase1Shapes.SquarePlane(length, d, height));
  }

  // ----- box -----

  /** The corners v1 to v4 of a cell of face 0 to 5 (right, top, front,
      left, bottom, back) at the face coordinate ±o; a runs with the row
      and b with the column. */
  function FaceCorners(o: real, face: nat, a: real, aN: real, b: real, bN: real): (Vec3, Vec3, Vec3, Vec3) {
    var fc := if face >= 3 then -o else o;
    if face == 0 || face == 3 then (Vec3(fc, a, b), Vec3(fc, aN, b), Vec3(fc, aN, bN), Vec3(fc, a, bN))
    else if face == 1 || face == 4 then (Vec3(a, fc, b), Vec3(a, fc, bN), Vec3(aN, fc, bN), Vec3(aN, fc, b))
    else (Vec3(a, b, fc), Vec3(aN, b, fc), Vec3(aN, bN, fc), Vec3(a, bN, fc))
  }

  /** The faces at -o (face 3 and up) are wound the other way. */
  function FaceQuad(o: real, face: nat, a: real, aN: real, b: real, bN: real): seq<Vec3> {
    var (v1, v2, v3, v4) := FaceCorners(o, face, a, aN, b, bN);
    Quad(v1, v2, v3, v4, face < 3)
  }

  function BoxCell(o: real, coord: nat -> real, face: nat): (nat, nat) -> seq<Vec3> {
    (row: nat, col: nat) => FaceQuad(o, face, coord(row), coord(Next(row)), coord(col), coord(Next(col)))
  }

  function BoxFaces(o: real, coord: nat -> real, d: nat): nat -> seq<Vec3> {
    (face: nat) => Grid(d, d, BoxCell(o, coord, face))
  }

  function Box(length: real, divisions: nat): seq<Vec3> {
    Concat(6, BoxFaces(length / 2.0, Coords(length, divisions), divisions))
  }

  /** generateVertices::box: the face loop around the row and column
      loops. */
  method GenerateBox(length: real, divisions: nat) returns (floats: seq<real>)
    ensures floats == Flatten(Box(length, divisions))
  {
    var faces := BoxFaces(length / 2.0, Coords(length, divisions), divisions);
    floats := [];
    var face := 0;
    while face < 6
      invariant face <= 6
      invariant floats == Flatten(Concat(face, faces))
    {
      floats := AppendFlatGrid(floats, divisions, divisions, BoxCell(length / 2.0, Coords(length, divisions), face));
      FlattenAppend(Concat(face, faces), faces(face));
      face := face + 1;
    }
    assert Box(length, divisions) == Concat(6, faces);
  }

  lemma FaceOn(o: real, face: nat, a: real, aN: real, b: real, bN: real)
    ensures |FaceQuad(o, face, a, aN, b, bN)| == 6
    ensures All(FaceQuad(o, face, a, aN, b, bN), Phase1Shapes.OnFace(o, face))
  {
  }

  lemma FaceWithin(o: real, face: nat, a: real, aN: real, b: real, bN: real)
    requires o >= 0.0 && -o <= a <= o && -o <= aN <= o && -o <= b <= o && -o <= bN <= o
    ensures All(FaceQuad(o, face, a, aN, b, bN), WithinCube(o))
  {
  }

  /** One face: 6·d² vertices in its plane, within the cube when its grid
      lines are. */
  lemma FaceGrid(o: real, coord: nat -> real, d: nat, face: nat)
    ensures |BoxFaces(o, coord, d)(face)| == 6 * d * d
    ensures All(BoxFaces(o, coord, d)(face), Phase1Shapes.OnFace(o, face))
    ensures o >= 0.0 && Bounded(coord, d, o) ==> All(BoxFaces(o, coord, d)(face), WithinCube(o))
  {
    var cell := BoxCell(o, coord, face);
    forall r: nat, c: nat | r < d && c < d
      ensures |cell(r, c)| == 6 && All(cell(r, c), Phase1Shapes.OnFace(o, face))
    {
      FaceOn(o, face, coord(r), coord(Next(r)), coord(c), coord(Next(c)));
    }
    GridUniform(d, d, cell, 6);
    GridAll(d, d, cell, Phase1Shapes.OnFace(o, face));
    if o >= 0.0 && Bounded(coord, d, o) {
      forall r: nat, c: nat | r < d && c < d
        ensures All(cell(r, c), WithinCube(o))
      {
        FaceWithin(o, face, coord(r), coord(Next(r)), coord(c), coord(Next(c)));
      }
      GridAll(d, d, cell, WithinCube(o));
    }
  }

  /** 36·divisions² vertices (108·divisions² floats) in six runs of
      6·divisions², face f's run lying in its plane: right, top, front,
      left, bottom, back. */
  lemma BoxShape(length: real, d: nat, f: nat)
    requires f < 6
    ensures |Box(length, d)| == 36 * d * d
    ensures var k := 6 * d * d;
      (f + 1) * k <= |Box(length, d)| && All(Box(length, d)[f * k .. (f + 1) * k], Phase1Shapes.OnFace(length / 2.0, f))
  {
    var o, coord := length / 2.0, Coords(length, d);
    var faces, k := BoxFaces(o, coord, d), 6 * d * d;
    forall g: nat | g < 6
      ensures |faces(g)| == k
    {
      FaceGrid(o, coord, d, g);
    }
    FaceGrid(o, coord, d, f);
    ConcatBlock(6, faces, k, f);
    Phase1Shapes.SixFaces(d);
  }

  /** For a non-negative length every vertex is within the cube. */
  lemma BoxWithin(length: real, d: nat)
    requires length >= 0.0
    ensures All(Box(length, d), WithinCube(length / 2.0))
  {
    var o, coord := length / 2.0, Coords(length, d);
    var faces := BoxFaces(o, coord, d);
    CoordsWithin(length, d);
    forall g: nat | g < 6
      ensures All(faces(g), WithinCube(o))
    {
      FaceGrid(o, coord, d, g);
    }
    ConcatAll(6, faces, WithinCube(o));
  }

  // ----- sphere -----

  /** The cell between stack rings stack and stack + 1 and slice rings
      slice and slice + 1: the lower triangle (t1, b1, b2) always, the upper
      one (b2, t2, t1) except on the top stack, where t1 and t2 are both the
      north pole. */
  function SphereCell(point: (nat, nat) -> Vec3): (nat, nat) -> seq<Vec3> {
    (stack: nat, slice: nat) =>
      var t1, t2 := point(stack, slice), point(stack, Next(slice));
      var b1, b2 := point(Next(stack), slice), point(Next(stack), Next(slice));
      [t1, b1, b2] + (if stack != 0 then [b2, t2, t1] else [])
  }

  function Sphere(maths: Maths, radius: real, slices: nat, stacks: nat): seq<Vec3> {
    Grid(stacks, slices, SphereCell(Phase1Shapes.SphereRings(maths, radius, slices, stacks)))
  }

  method GenerateSphere(maths: Maths, radius: real, slices: nat, stacks: nat) returns (floats: seq<real>)
    ensures floats == Flatten(Sphere(maths, radius, slices, stacks))
  {
    floats := AppendFlatGrid([], stacks, slices, SphereCell(Phase1Shapes.SphereRings(maths, radius, slices, stacks)));
    EmptyAppend(Flatten(Sphere(maths, radius, slices, stacks)));
  }

  /** The top stack has 3 vertices per slice, every other stack 6. */
  lemma SphereRowLength(point: (nat, nat) -> Vec3, slices: nat, stack: nat)
    ensures |RowsOf(slices, SphereCell(point))(stack)| == if stack == 0 then 3 * slices else 6 * slices
  {
    var cells := CellsOf(SphereCell(point), stack);
    var k := if stack == 0 then 3 else 6;
    forall i: nat | i < slices
      ensures |cells(i)| == k
    {
    }
    ConcatUniform(slices, cells, k);
  }

  /** 3·slices·(2·stacks − 1) vertices, so 9·slices·(2·stacks − 1)
      floats: 9 per slice on the top stack and 18 on every other. */
  lemma SphereCount(maths: Maths, radius: real, slices: nat, stacks: nat)
    ensures |Sphere(maths, radius, slices, stacks)| == if stacks == 0 then 0 else 3 * (slices * (2 * stacks - 1))
    ensures |Flatten(Sphere(maths, radius, slices, stacks))| == if stacks == 0 then 0 else 9 * (slices * (2 * stacks - 1))
  {
    var rows := RowsOf(slices, SphereCell(Phase1Shapes.SphereRings(maths, radius, slices, stacks)));
    if stacks > 0 {
      forall i: nat | i < stacks
        ensures |rows(i)| == if i == 0 then 3 * slices else 2 * (3 * slices)
      {
        SphereRowLength(Phase1Shapes.SphereRings(maths, radius, slices, stacks), slices, i);
      }
      ShortFirstPart(stacks, rows, 3 * slices);
      SphereArith(slices, stacks);
    }
  }

  lemma SphereArith(slices: nat, stacks: nat)
    requires stacks > 0
    ensures 2 * (stacks * (3 * slices)) - 3 * slices == 3 * (slices * (2 * stacks - 1))
  {
    assert stacks * (3 * slices) == 3 * (slices * stacks);
    assert slices * (2 * stacks - 1) == 2 * (slices * stacks) - slices;
  }

  // ----- cone, as written -----

  /** The cell of the cone loop as the second phase writes it: the base
      triangle (c1, centre, c2) on every stack but the last, the lower
      lateral triangle (b1, b2, t1) always, the upper one (t1, b2, t2) on
      every stack but the last, whose top corners are both the apex. */
  function ConeCell(stacks: nat, rim: nat -> Vec3, point: (nat, nat) -> Vec3): (nat, nat) -> seq<Vec3> {
    (stack: nat, slice: nat) =>
      var b1, b2 := point(stack, slice), point(stack, Next(slice));
      var t1, t2 := point(Next(stack), slice), point(Next(stack), Next(slice));
      (if stack != stacks - 1 then [rim(slice), Origin, rim(Next(slice))] else [])
      + [b1, b2, t1]
      + (if stack != stacks - 1 then [t1, b2, t2] else [])
  }

  function Cone(maths: Maths, radius: real, height: real, slices: nat, stacks: nat): seq<Vec3> {
    Grid(stacks, slices, ConeCell(stacks, Phase1Shapes.ConeRim(maths, radius, slices),
      Phase1Shapes.ConeRings(maths, radius, height, slices, stacks)))
  }

  method GenerateCone(maths: Maths, radius: real, height: real, slices: nat, stacks: nat) returns (floats: seq<real>)
    ensures floats == Flatten(Cone(maths, radius, height, slices, stacks))
  {
    floats := AppendFlatGrid([], stacks, slices, ConeCell(stacks, Phase1Shapes.ConeRim(maths, radius, slices),
      Phase1Shapes.ConeRings(maths, radius, height, slices, stacks)));
    EmptyAppend(Flatten(Cone(maths, radius, height, slices, stacks)));
  }

  /** The base triangle is emitted by every stack but the last, so the base
      is drawn stacks − 1 times over; the last stack emits the lower lateral
      triangle only. With a single stack the cone has no base at all: its
      3·slices vertices are the lateral triangles. */
  lemma ConeBaseRepeated(stacks: nat, rim: nat -> Vec3, point: (nat, nat) -> Vec3, stack: nat, slice: nat)
    requires stack < stacks
    ensures var cell := ConeCell(stacks, rim, point)(stack, slice);
      if stack < stacks - 1 then
        |cell| == 9 && cell[..3] == [rim(slice), Origin, rim(Next(slice))]
      else
        cell == [point(stack, slice), point(stack, Next(slice)), point(Next(stack), slice)]
  {
  }

  /** 9 vertices per slice on every stack but the last, 3 on the last:
      3·slices·(3·stacks − 2) vertices, of which 3·slices·(stacks − 1) make
      base triangles. */
  lemma ConeCount(maths: Maths, radius: real, height: real, slices: nat, stacks: nat)
    requires stacks >= 1
    ensures |Cone(maths, radius, height, slices, stacks)| == 3 * (slices * (3 * stacks - 2))
  {
    var rim, point := Phase1Shapes.ConeRim(maths, radius, slices), Phase1Shapes.ConeRings(maths, radius, height, slices, stacks);
    var rows := RowsOf(slices, ConeCell(stacks, rim, point));
    forall i: nat | i < stacks
      ensures |rows(i)| == if i < stacks - 1 then 9 * slices else 3 * slices
    {
      var cells := CellsOf(ConeCell(stacks, rim, point), i);
      var k := if i < stacks - 1 then 9 else 3;
      forall j: nat | j < slices
        ensures |cells(j)| == k
      {
        ConeBaseRepeated(stacks, rim, point, i, j);
      }
      ConcatUniform(slices, cells, k);
    }
    ConcatUniform(stacks - 1, rows, 9 * slices);
    ConeArith(slices, stacks);
  }

  lemma ConeArith(slices: nat, stacks: nat)
    requires stacks >= 1
    ensures (stacks - 1) * (9 * slices) + 3 * slices == 3 * (slices * (3 * stacks - 2))
  {
    assert (stacks - 1) * (9 * slices) == 9 * (slices * stacks) - 9 * slices;
    assert slices * (3 * stacks - 2) == 3 * (slices * stacks) - 2 * slices;
  }

  /** One stack: no base triangle, only slices lateral triangles. */
  lemma ConeOneStack(maths: Maths, radius: real, height: real, slices: nat)
    ensures |Cone(maths, radius, height, slices, 1)| == 3 * slices
    ensures forall slice: nat :: slice < slices ==>
      ConeCell(1, Phase1Shapes.ConeRim(maths, radius, slices), Phase1Shapes.ConeRings(maths, radius, height, slices, 1))(0, slice)
        == [Phase1Shapes.ConeRings(maths, radius, height, slices, 1)(0, slice),
            Phase1Shapes.ConeRings(maths, radius, height, slices, 1)(0, Next(slice)),
            Phase1Shapes.ConeRings(maths, radius, height, slices, 1)(1, slice)]
  {
    var rim, point := Phase1Shapes.ConeRim(maths, radius, slices), Phase1Shapes.ConeRings(maths, radius, height, slices, 1);
    var cell := ConeCell(1, rim, point);
    forall slice: nat | slice < slices
      ensures cell(0, slice) == [point(0, slice), point(0, Next(slice)), point(1, slice)]
    {
      ConeBaseRepeated(1, rim, point, 0, slice);
    }
    GridUniform(1, slices, cell, 3);
  }

  // ----- tube -----

  /** Slice ring j of the circle of radius r at height y: yaw j·2π/slices. */
  function TubeRing(maths: Maths, r: real, y: real, slices: nat): nat -> Vec3 {
    (j: nat) => Vec3(r * maths.sin(Phase1Shapes.Theta(slices, j)), y, r * maths.cos(Phase1Shapes.Theta(slices, j)))
  }

  /** One slice of the tube: the top ring (ccw), the bottom ring (cw), the
      outer wall (ccw), the inner wall (cw), two triangles each; ot, it, ob
      and ib are the outer and inner circles at the top and the bottom. */
  function TubeCell(ot: nat -> Vec3, it: nat -> Vec3, ob: nat -> Vec3, ib: nat -> Vec3): nat -> seq<Vec3> {
    (slice: nat) =>
      var ot1, ot2, it1, it2 := ot(slice), ot(Next(slice)), it(slice), it(Next(slice));
      var ob1, ob2, ib1, ib2 := ob(slice), ob(Next(slice)), ib(slice), ib(Next(slice));
      [ot1, ot2, it1, it1, ot2, it2]
      + [ob2, ob1, ib1, ib1, ib2, ob2]
      + [ob1, ob2, ot2, ob1, ot2, ot1]
      + [ib1, it2, ib2, ib1, it1, it2]
  }

  /** The four circles of a tube: outer and inner radius at ±height/2. */
  function TubeCells(maths: Maths, iradius: real, oradius: real, height: real, slices: nat): nat -> seq<Vec3> {
    var half := height * 0.5;
    TubeCell(TubeRing(maths, oradius, half, slices), TubeRing(maths, iradius, half, slices),
      TubeRing(maths, oradius, -half, slices), TubeRing(maths, iradius, -half, slices))
  }

  function Tube(maths: Maths, iradius: real, oradius: real, height: real, slices: nat): seq<Vec3> {
    Concat(slices, TubeCells(maths, iradius, oradius, height, slices))
  }

  method GenerateTube(maths: Maths, iradius: real, oradius: real, height: real, slices: nat) returns (floats: seq<real>)
    ensures floats == Flatten(Tube(maths, iradius, oradius, height, slices))
  {
    var part := TubeCells(maths, iradius, oradius, height, slices);
    floats := AppendEach([], slices, FlatParts(part));
    FlattenConcat(slices, part);
    EmptyAppend(Concat(slices, FlatParts(part)));
  }

  /** Each slice's 24 vertices: the first 6 (the top ring) at y = height/2,
      the next 6 (the bottom ring) at y = -height/2. */
  lemma TubeCellShape(maths: Maths, iradius: real, oradius: real, height: real, slices: nat, slice: nat)
    ensures var c := TubeCells(maths, iradius, oradius, height, slices)(slice);
      |c| == 24 && All(c[..6], AtHeight(height / 2.0)) && All(c[6..12], AtHeight(-(height / 2.0)))
  {
  }

  /** 24·slices vertices (72·slices floats); slice s occupies vertices
      24·s up to 24·s + 24, its top ring at height/2 and its bottom ring at
      -height/2. */
  lemma TubeShape(maths: Maths, iradius: real, oradius: real, height: real, slices: nat, s: nat)
    requires s < slices
    ensures var t := Tube(maths, iradius, oradius, height, slices);
      |t| == 24 * slices && |Flatten(t)| == 72 * slices
      && All(t[24 * s .. 24 * s + 6], AtHeight(height / 2.0))
      && All(t[24 * s + 6 .. 24 * s + 12], AtHeight(-(height / 2.0)))
  {
    var part := TubeCells(maths, iradius, oradius, height, slices);
    forall i: nat | i < slices
      ensures |part(i)| == 24
    {
      TubeCellShape(maths, iradius, oradius, height, slices, i);
    }
    ConcatBlock(slices, part, 24, s);
    TubeCellShape(maths, iradius, oradius, height, slices, s);
    var t := Tube(maths, iradius, oradius, height, slices);
    assert t[24 * s .. 24 * s + 24] == part(s);
    SliceOfSlice(t, 24 * s, 24 * s + 24, 0, 6);
    SliceOfSlice(t, 24 * s, 24 * s + 24, 6, 12);
  }
}
