/**
 * The models of the first phase: a square plane, a box, a sphere and a
 * cone, each built by its constructor as a list of positions, three per
 * triangle.
 */
module Phase1Shapes {
  import opened Vectors
  import opened SoupGrid

  // ----- SquarePlane -----

  /** One cell: v1 (x, z), v2 (x, zNext), v3 (xNext, zNext), v4 (xNext, z),
      as the triangles (v1, v2, v3) and (v3, v4, v1). */
  function PlaneQuad(x: real, xNext: real, z: real, zNext: real, height: real): seq<Vec3> {
    var v1, v2, v3, v4 := Vec3(x, height, z), Vec3(x, height, zNext), Vec3(xNext, height, zNext), Vec3(xNext, height, z);
    [v1, v2, v3, v3, v4, v1]
  }

  /** The cell in row `row` (along z) and column `col` (along x) of a grid
      whose lines are at coord(0), coord(1), ... */
  function PlaneCell(coord: nat -> real, height: real): (nat, nat) -> seq<Vec3> {
    (row: nat, col: nat) => PlaneQuad(coord(col), coord(Next(col)), coord(row), coord(Next(row)), height)
  }

  function SquarePlane(length: real, divisions: nat, height: real): seq<Vec3> {
    Grid(divisions, divisions, PlaneCell(Coords(length, divisions), height))
  }

  method GenerateSquarePlane(length: real, divisions: nat, height: real) returns (vertices: seq<Vec3>)
    ensures vertices == SquarePlane(length, divisions, height)
  {
    vertices := AppendGrid([], divisions, divisions, PlaneCell(Coords(length, divisions), height));
    EmptyAppend(SquarePlane(length, divisions, height));
  }

  /** d·d cells make 6·d² vertices at the plane's height, within [-h, h]
      when the grid lines are. */
  lemma PlaneGrid(coord: nat -> real, d: nat, height: real, h: real)
    ensures |Grid(d, d, PlaneCell(coord, height))| == 6 * d * d
    ensures All(Grid(d, d, PlaneCell(coord, height)), AtHeight(height))
    ensures Bounded(coord, d, h) ==> All(Grid(d, d, PlaneCell(coord, height)), WithinSquare(h))
  {
    var cell := PlaneCell(coord, height);
    forall r: nat, c: nat | r < d && c < d
      ensures |cell(r, c)| == 6 && All(cell(r, c), AtHeight(height))
    {
      PlaneCellIs(coord, height, r, c);
    }
    GridUniform(d, d, cell, 6);
    GridAll(d, d, cell, AtHeight(height));
    if Bounded(coord, d, h) {
      forall r: nat, c: nat | r < d && c < d
        ensures All(cell(r, c), WithinSquare(h))
      {
        PlaneCellIs(coord, height, r, c);
        QuadWithin(h, coord(c), coord(Next(c)), coord(r), coord(Next(r)), height);
      }
      GridAll(d, d, cell, WithinSquare(h));
    }
  }

  /** 6·divisions² vertices, all at the plane's height and, for a
      non-negative length, within the square centred on the axis. */
  lemma SquarePlaneShape(length: real, d: nat, height: real)
    ensures |SquarePlane(length, d, height)| == 6 * d * d
    ensures All(SquarePlane(length, d, height), AtHeight(height))
    ensures length >= 0.0 ==> All(SquarePlane(length, d, height), WithinSquare(length / 2.0))
  {
    PlaneGrid(Coords(length, d), d, height, length / 2.0);
    if length >= 0.0 {
      CoordsWithin(length, d);
    }
  }

  lemma PlaneCellIs(coord: nat -> real, height: real, r: nat, c: nat)
    ensures PlaneCell(coord, height)(r, c) == PlaneQuad(coord(c), coord(Next(c)), coord(r), coord(Next(r)), height)
  {
  }

  lemma QuadWithin(h: real, x: real, xNext: real, z: real, zNext: real, height: real)
    requires -h <= x <= h && -h <= xNext <= h && -h <= z <= h && -h <= zNext <= h
    ensures All(PlaneQuad(x, xNext, z, zNext, height), WithinSquare(h))
  {
  }

  // ----- SquareBox -----

  /** The two triangles of a cell of face 0 to 5: right, top, front,
      left, bottom, back, each at its fixed coordinate o or -o; a and aN
      are the row's coordinates, b and bN the column's. */
  function FaceQuad(o: real, face: nat, a: real, aN: real, b: real, bN: real): seq<Vec3> {
    if face == 0 then
      [Vec3(o, a, b), Vec3(o, aN, b), Vec3(o, aN, bN), Vec3(o, aN, bN), Vec3(o, a, bN), Vec3(o, a, b)]
    else if face == 1 then
      [Vec3(a, o, b), Vec3(a, o, bN), Vec3(aN, o, bN), Vec3(aN, o, bN), Vec3(aN, o, b), Vec3(a, o, b)]
    else if face == 2 then
      [Vec3(a, b, o), Vec3(aN, b, o), Vec3(a, bN, o), Vec3(aN, bN, o), Vec3(a, bN, o), Vec3(aN, b, o)]
    else if face == 3 then
      [Vec3(-o, a, b), Vec3(-o, aN, bN), Vec3(-o, aN, b), Vec3(-o, aN, bN), Vec3(-o, a, b), Vec3(-o, a, bN)]
    else if face == 4 then
      [Vec3(a, -o, b), Vec3(aN, -o, b), Vec3(aN, -o, bN), Vec3(aN, -o, bN), Vec3(a, -o, bN), Vec3(a, -o, b)]
    else
      [Vec3(a, b, -o), Vec3(a, bN, -o), Vec3(aN, b, -o), Vec3(aN, b, -o), Vec3(a, bN, -o), Vec3(aN, bN, -o)]
  }

  function BoxCell(o: real, coord: nat -> real, face: nat): (nat, nat) -> seq<Vec3> {
    (row: nat, col: nat) => FaceQuad(o, face, coord(row), coord(Next(row)), coord(col), coord(Next(col)))
  }

  function BoxFaces(o: real, coord: nat -> real, d: nat): nat -> seq<Vec3> {
    (face: nat) => Grid(d, d, BoxCell(o, coord, face))
  }

  function SquareBox(length: real, divisions: nat): seq<Vec3> {
    Concat(6, BoxFaces(length / 2.0, Coords(length, divisions), divisions))
  }

  /** The six face loops, one after the other. */
  method GenerateSquareBox(length: real, divisions: nat) returns (vertices: seq<Vec3>)
    ensures vertices == SquareBox(length, divisions)
  {
    var o, coord := length / 2.0, Coords(length, divisions);
    var faces := BoxFaces(o, coord, divisions);
    vertices := AppendGrid([], divisions, divisions, BoxCell(o, coord, 0));
    EmptyAppend(faces(0));
    assert vertices == Concat(1, faces);
    vertices := AppendGrid(vertices, divisions, divisions, BoxCell(o, coord, 1));
    assert vertices == Concat(2, faces);
    vertices := AppendGrid(vertices, divisions, divisions, BoxCell(o, coord, 2));
    assert vertices == Concat(3, faces);
    vertices := AppendGrid(vertices, divisions, divisions, BoxCell(o, coord, 3));
    assert vertices == Concat(4, faces);
    vertices := AppendGrid(vertices, divisions, divisions, BoxCell(o, coord, 4));
    assert vertices == Concat(5, faces);
    vertices := AppendGrid(vertices, divisions, divisions, BoxCell(o, coord, 5));
  }

  /** Face 0 to 5 lies in the plane x = h, y = h, z = h, x = -h, y = -h,
      z = -h. */
  function OnFace(h: real, face: nat): Vec3 -> bool {
    (v: Vec3) =>
      if face == 0 then v.x == h else if face == 1 then v.y == h else if face == 2 then v.z == h
      else if face == 3 then v.x == -h else if face == 4 then v.y == -h else v.z == -h
  }

  /** One face: 6·d² vertices in its plane, within the cube when its grid
      lines are. */
  lemma FaceGrid(o: real, coord: nat -> real, d: nat, face: nat)
    ensures |BoxFaces(o, coord, d)(face)| == 6 * d * d
    ensures All(BoxFaces(o, coord, d)(face), OnFace(o, face))
    ensures o >= 0.0 && Bounded(coord, d, o) ==> All(BoxFaces(o, coord, d)(face), WithinCube(o))
  {
    var cell := BoxCell(o, coord, face);
    forall r: nat, c: nat | r < d && c < d
      ensures |cell(r, c)| == 6 && All(cell(r, c), OnFace(o, face))
    {
      FaceOn(o, face, coord(r), coord(Next(r)), coord(c), coord(Next(c)));
    }
    GridUniform(d, d, cell, 6);
    GridAll(d, d, cell, OnFace(o, face));
    if o >= 0.0 && Bounded(coord, d, o) {
      forall r: nat, c: nat | r < d && c < d
        ensures All(cell(r, c), WithinCube(o))
      {
        FaceWithin(o, face, coord(r), coord(Next(r)), coord(c), coord(Next(c)));
      }
      GridAll(d, d, cell, WithinCube(o));
    }
  }

  /** 36·divisions² vertices; face f is the f-th run of 6·divisions² and
      lies in its plane. */
  lemma SquareBoxShape(length: real, d: nat, f: nat)
    requires f < 6
    ensures |SquareBox(length, d)| == 36 * d * d
    ensures var k := 6 * d * d;
      (f + 1) * k <= |SquareBox(length, d)| && All(SquareBox(length, d)[f * k .. (f + 1) * k], OnFace(length / 2.0, f))
  {
    var o, coord := length / 2.0, Coords(length, d);
    var faces, k := BoxFaces(o, coord, d), 6 * d * d;
    forall g: nat | g < 6
      ensures |faces(g)| == k
    {
      FaceGrid(o, coord, d, g);
    }
    FaceGrid(o, coord, d, f);
    ConcatBlock(6, faces, k, f);
    SixFaces(d);
  }

  lemma SixFaces(d: nat)
    ensures 6 * (6 * d * d) == 36 * d * d
  {
  }

  /** For a non-negative length every vertex is within the cube. */
  lemma SquareBoxWithin(length: real, d: nat)
    requires length >= 0.0
    ensures All(SquareBox(length, d), WithinCube(length / 2.0))
  {
    var o, coord := length / 2.0, Coords(length, d);
    var faces := BoxFaces(o, coord, d);
    CoordsWithin(length, d);
    forall g: nat | g < 6
      ensures All(faces(g), WithinCube(o))
    {
      FaceGrid(o, coord, d, g);
    }
    ConcatAll(6, faces, WithinCube(o));
  }

  lemma FaceOn(o: real, face: nat, a: real, aN: real, b: real, bN: real)
    ensures |FaceQuad(o, face, a, aN, b, bN)| == 6 && All(FaceQuad(o, face, a, aN, b, bN), OnFace(o, face))
  {
  }

  lemma FaceWithin(o: real, face: nat, a: real, aN: real, b: real, bN: real)
    requires o >= 0.0 && -o <= a <= o && -o <= aN <= o && -o <= b <= o && -o <= bN <= o
    ensures All(FaceQuad(o, face, a, aN, b, bN), WithinCube(o))
  {
  }

  // ----- Sphere -----

  /** The angle of stack ring i, from π/2 at the top down in steps of
      π/stacks. */
  function Phi(stacks: nat, i: nat): real {
    Pi / 2.0 - (i as real) * (if stacks == 0 then 0.0 else Pi / stacks as real)
  }

  /** The angle of slice ring j, in steps of 2π/slices. */
  function Theta(slices: nat, j: nat): real {
    (j as real) * (if slices == 0 then 0.0 else 2.0 * Pi / slices as real)
  }

  /** The point at angles phi (vertical) and theta (horizontal). */
  function SpherePoint(maths: Maths, radius: real, phi: real, theta: real): Vec3 {
    Vec3(radius * maths.cos(phi) * maths.sin(theta), radius * maths.sin(phi), radius * maths.cos(phi) * maths.cos(theta))
  }

  /** The point where stack ring i meets slice ring j. */
  function SphereRings(maths: Maths, radius: real, slices: nat, stacks: nat): (nat, nat) -> Vec3 {
    (i: nat, j: nat) => SpherePoint(maths, radius, Phi(stacks, i), Theta(slices, j))
  }

  /** The rings run from the north pole to the south pole. */
  lemma PoleToPole(stacks: nat)
    requires stacks > 0
    ensures Phi(stacks, 0) == Pi / 2.0 && Phi(stacks, stacks) == -(Pi / 2.0)
  {
    assert (stacks as real) * (Pi / stacks as real) == Pi;
  }

  /** The first triangle (v1, v2, v3) unless on the bottom stack, the
      second (v3, v4, v1) unless on the top one: the triangles that would
      collapse at the poles are left out. */
  function PoleCut(top: bool, bottom: bool, v1: Vec3, v2: Vec3, v3: Vec3, v4: Vec3): seq<Vec3> {
    (if !bottom then [v1, v2, v3] else []) + (if !top then [v3, v4, v1] else [])
  }

  lemma PoleCutLength(top: bool, bottom: bool, v1: Vec3, v2: Vec3, v3: Vec3, v4: Vec3)
    ensures |PoleCut(top, bottom, v1, v2, v3, v4)| == (if bottom then 0 else 3) + (if top then 0 else 3)
  {
  }

  /** The cell between stack rings stack and stack + 1 and slice rings
      slice and slice + 1, whose corners are point(i, j). */
  function SphereCell(stacks: nat, point: (nat, nat) -> Vec3): (nat, nat) -> seq<Vec3> {
    (stack: nat, slice: nat) =>
      PoleCut(stack == 0, stack == stacks - 1,
        point(stack, slice), point(Next(stack), slice), point(Next(stack), Next(slice)), point(stack, Next(slice)))
  }

  function Sphere(maths: Maths, radius: real, slices: nat, stacks: nat): seq<Vec3> {
    Grid(stacks, slices, SphereCell(stacks, SphereRings(maths, radius, slices, stacks)))
  }

  method GenerateSphere(maths: Maths, radius: real, slices: nat, stacks: nat) returns (vertices: seq<Vec3>)
    ensures vertices == Sphere(maths, radius, slices, stacks)
  {
    vertices := AppendGrid([], stacks, slices, SphereCell(stacks, SphereRings(maths, radius, slices, stacks)));
    EmptyAppend(Sphere(maths, radius, slices, stacks));
  }

  /** A stack of slices cells holds 6 vertices per cell, 3 on the top and
      bottom stacks, none when it is both. */
  lemma SphereRowLength(stacks: nat, point: (nat, nat) -> Vec3, slices: nat, stack: nat)
    ensures |RowsOf(slices, SphereCell(stacks, point))(stack)| ==
      if stack == 0 && stack == stacks - 1 then 0
      else if stack == 0 || stack == stacks - 1 then 3 * slices
      else 6 * slices
  {
    var cells := CellsOf(SphereCell(stacks, point), stack);
    var k := if stack == 0 && stack == stacks - 1 then 0 else if stack == 0 || stack == stacks - 1 then 3 else 6;
    forall i: nat | i < slices
      ensures |cells(i)| == k
    {
      PoleCutLength(stack == 0, stack == stacks - 1,
        point(stack, i), point(Next(stack), i), point(Next(stack), Next(i)), point(stack, Next(i)));
    }
    if stack == 0 && stack == stacks - 1 {
      ConcatUniform(slices, cells, 0);
    } else if stack == 0 || stack == stacks - 1 {
      ConcatUniform(slices, cells, 3);
    } else {
      ConcatUniform(slices, cells, 6);
    }
  }

  lemma {:induction false} SphereRows(stacks: nat, point: (nat, nat) -> Vec3, slices: nat, n: nat)
    requires 1 <= n < stacks
    ensures |Concat(n, RowsOf(slices, SphereCell(stacks, point)))| == 6 * (n * slices) - 3 * slices
  {
    SphereRowLength(stacks, point, slices, n - 1);
    if n > 1 {
      SphereRows(stacks, point, slices, n - 1);
      MulSucc(n - 1, slices);
    }
  }

  /** 6·slices·(stacks − 1) vertices: one stack alone gives none. */
  lemma SphereCount(maths: Maths, radius: real, slices: nat, stacks: nat)
    ensures |Sphere(maths, radius, slices, stacks)| == if stacks == 0 then 0 else 6 * (slices * (stacks - 1))
  {
    var point := SphereRings(maths, radius, slices, stacks);
    var rows := RowsOf(slices, SphereCell(stacks, point));
    if stacks > 0 {
      assert Sphere(maths, radius, slices, stacks) == Concat(stacks - 1, rows) + rows(stacks - 1);
      SphereRowLength(stacks, point, slices, stacks - 1);
      if stacks > 1 {
        SphereRows(stacks, point, slices, stacks - 1);
        assert (stacks - 1) * slices == slices * (stacks - 1);
      }
    }
  }

  // ----- Cone -----

  /** The rim of the base: slice ring j at radius `radius`, y = 0. */
  function ConeRim(maths: Maths, radius: real, slices: nat): nat -> Vec3 {
    (j: nat) => Vec3(radius * maths.sin(Theta(slices, j)), 0.0, radius * maths.cos(Theta(slices, j)))
  }

  /** The base: for every slice the rim point, the centre, the next rim
      point. */
  function BaseCell(rim: nat -> Vec3): nat -> seq<Vec3> {
    (slice: nat) => [rim(slice), Origin, rim(Next(slice))]
  }

  /** The ring radius of stack ring i: radius·(1 − i/stacks). */
  function RingRadius(radius: real, stacks: nat, i: nat): real {
    radius * (1.0 - (i as real) / (if stacks == 0 then 1.0 else stacks as real))
  }

  /** The height of stack ring i: i·height/stacks. */
  function RingHeight(height: real, stacks: nat, i: nat): real {
    (i as real) * (if stacks == 0 then 0.0 else height / stacks as real)
  }

  /** The point where stack ring i meets slice ring j. */
  function ConeRings(maths: Maths, radius: real, height: real, slices: nat, stacks: nat): (nat, nat) -> Vec3 {
    (i: nat, j: nat) =>
      var r := RingRadius(radius, stacks, i);
      Vec3(r * maths.sin(Theta(slices, j)), RingHeight(height, stacks, i), r * maths.cos(Theta(slices, j)))
  }

  /** bottom-left, bottom-right, top-left, then top-left, bottom-right,
      top-right. */
  function SideCell(point: (nat, nat) -> Vec3): (nat, nat) -> seq<Vec3> {
    (stack: nat, slice: nat) =>
      var bottomLeft, bottomRight := point(stack, slice), point(stack, Next(slice));
      var topLeft, topRight := point(Next(stack), slice), point(Next(stack), Next(slice));
      [bottomLeft, bottomRight, topLeft, topLeft, bottomRight, topRight]
  }

  function Cone(maths: Maths, radius: real, height: real, slices: nat, stacks: nat): seq<Vec3> {
    Concat(slices, BaseCell(ConeRim(maths, radius, slices)))
      + Grid(stacks, slices, SideCell(ConeRings(maths, radius, height, slices, stacks)))
  }

  /** The base loop, then the stack and slice loops of the sides. */
  method GenerateCone(maths: Maths, radius: real, height: real, slices: nat, stacks: nat) returns (vertices: seq<Vec3>)
    ensures vertices == Cone(maths, radius, height, slices, stacks)
  {
    vertices := AppendEach([], slices, BaseCell(ConeRim(maths, radius, slices)));
    EmptyAppend(Concat(slices, BaseCell(ConeRim(maths, radius, slices))));
    vertices := AppendGrid(vertices, stacks, slices, SideCell(ConeRings(maths, radius, height, slices, stacks)));
  }

  function BaseTriangle(): (Vec3, Vec3, Vec3) -> bool {
    (a: Vec3, b: Vec3, c: Vec3) => a.y == 0.0 && b == Origin && c.y == 0.0
  }

  /** 3·slices base vertices and 6·slices·stacks side vertices; every base
      triangle lies at y = 0 with the centre as its middle vertex. */
  lemma ConeShape(maths: Maths, radius: real, height: real, slices: nat, stacks: nat)
    ensures |Cone(maths, radius, height, slices, stacks)| == 3 * slices + 6 * slices * stacks
    ensures 3 * slices <= |Cone(maths, radius, height, slices, stacks)|
      && EveryTriangle(Cone(maths, radius, height, slices, stacks)[..3 * slices], BaseTriangle())
  {
    var base := Concat(slices, BaseCell(ConeRim(maths, radius, slices)));
    var sides := Grid(stacks, slices, SideCell(ConeRings(maths, radius, height, slices, stacks)));
    forall j: nat | j <= slices
      ensures ConeRim(maths, radius, slices)(j).y == 0.0
    {
    }
    BaseShape(ConeRim(maths, radius, slices), slices);
    assert stacks * slices * 6 == 6 * slices * stacks;
    SidesLength(ConeRings(maths, radius, height, slices, stacks), stacks, slices);
    assert (base + sides)[..3 * slices] == base;
  }

  /** The base: 3·slices vertices, every triangle at y = 0 around the
      centre when the rim is at y = 0. */
  lemma BaseShape(rim: nat -> Vec3, slices: nat)
    ensures |Concat(slices, BaseCell(rim))| == 3 * slices
    ensures (forall j: nat :: j <= slices ==> rim(j).y == 0.0) ==> EveryTriangle(Concat(slices, BaseCell(rim)), BaseTriangle())
  {
    var base := BaseCell(rim);
    forall i: nat | i < slices
      ensures |base(i)| == 3
    {
    }
    ConcatUniform(slices, base, 3);
    if forall j: nat :: j <= slices ==> rim(j).y == 0.0 {
      forall i: nat | i < slices
        ensures EveryTriangle(base(i), BaseTriangle())
      {
        assert rim(i).y == 0.0 && rim(Next(i)).y == 0.0;
      }
      ConcatTriangles(slices, base, BaseTriangle());
    }
  }

  lemma SidesLength(point: (nat, nat) -> Vec3, stacks: nat, slices: nat)
    ensures |Grid(stacks, slices, SideCell(point))| == stacks * slices * 6
  {
    var cell := SideCell(point);
    forall r: nat, c: nat | r < stacks && c < slices
      ensures |cell(r, c)| == 6
    {
    }
    GridUniform(stacks, slices, cell, 6);
  }

  /** The bottom ring is the rim of the base, so base and sides close up;
      the rings rise from y = 0 to the height and shrink to the apex
      (0, height, 0), where the top corners of the last stack meet. */
  lemma ConeApex(maths: Maths, radius: real, height: real, slices: nat, stacks: nat, slice: nat)
    requires stacks > 0
    ensures ConeRings(maths, radius, height, slices, stacks)(0, slice) == ConeRim(maths, radius, slices)(slice)
    ensures RingHeight(height, stacks, 0) == 0.0 && RingHeight(height, stacks, stacks) == height
    ensures var cell := SideCell(ConeRings(maths, radius, height, slices, stacks))(stacks - 1, slice);
      cell[2] == cell[3] == cell[5] == Vec3(0.0, height, 0.0)
  {
    RingEnds(radius, height, stacks);
    var point := ConeRings(maths, radius, height, slices, stacks);
    assert Next(stacks - 1) == stacks;
    ZeroTimes(maths.sin(Theta(slices, slice)));
    ZeroTimes(maths.cos(Theta(slices, slice)));
    ZeroTimes(maths.sin(Theta(slices, Next(slice))));
    ZeroTimes(maths.cos(Theta(slices, Next(slice))));
    assert point(stacks, slice) == Vec3(0.0, height, 0.0);
    assert point(stacks, Next(slice)) == Vec3(0.0, height, 0.0);
  }

  lemma RingEnds(radius: real, height: real, stacks: nat)
    requires stacks > 0
    ensures RingRadius(radius, stacks, 0) == radius && RingRadius(radius, stacks, stacks) == 0.0
    ensures RingHeight(height, stacks, 0) == 0.0 && RingHeight(height, stacks, stacks) == height
  {
    assert (stacks as real) / (stacks as real) == 1.0;
    assert (stacks as real) * (height / stacks as real) == height;
  }

  lemma ZeroTimes(x: real)
    ensures 0.0 * x == 0.0
  {
  }
}
