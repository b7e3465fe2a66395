/**
 * The indexed mesh builders of the fourth release (the engine's `genVerts`
 * and the generator's `generateVertices`, which are the same code except
 * for the cone's bottom fan). Each builder fills vertex, normal and
 * texture-coordinate lists in a grid loop and three index lists in a cell
 * loop. Positions on curved surfaces come from the `Maths` functions; what
 * is proved is the integer structure: how many entries each list gets and
 * that every index names an existing entry.
 *
 * The index lists are specified cell by cell: `Cell(s, ch, i, j)` is what
 * the builder of scheme `s` appends to channel `ch` in cell (i, j) of its
 * loop, and `Cells` is the concatenation of the cells in loop order.
 */
module MeshIndices {
  import opened Wrappers
  import opened Vectors
  import MeshBuffers
  import BezierPatch

  // ----- normals and bilinear interpolation -----

  /** Below this length a cross product counts as zero. */
  const NormalEpsilon: real := 0.000001

  const UpNormal: Vec3 := Vec3(0.0, 1.0, 0.0)

  /** vNormal: the normalised cross product of the two edges from v0,
      taken in the other order for clockwise triangles; (0, 1, 0) for a
      degenerate triangle. */
  function VNormal(maths: Maths, v0: Vec3, v1: Vec3, v2: Vec3, ccw: bool): Vec3 {
    var c := if ccw then Cross(Sub(v1, v0), Sub(v2, v0)) else Cross(Sub(v2, v0), Sub(v1, v0));
    var length := maths.length(c);
    if length < NormalEpsilon then UpNormal else Scale(1.0 / length, c)
  }

  /** Reversing the winding reverses a normal: when the length function
      does not see the sign, the clockwise normal is the counter-clockwise
      one negated, and a degenerate triangle is degenerate both ways. */
  lemma VNormalWinding(maths: Maths, v0: Vec3, v1: Vec3, v2: Vec3)
    requires var c := Cross(Sub(v1, v0), Sub(v2, v0)); maths.length(Neg(c)) == maths.length(c)
    ensures var c := Cross(Sub(v1, v0), Sub(v2, v0));
      if maths.length(c) < NormalEpsilon then VNormal(maths, v0, v1, v2, false) == VNormal(maths, v0, v1, v2, true) == UpNormal
      else VNormal(maths, v0, v1, v2, false) == Neg(VNormal(maths, v0, v1, v2, true))
  {
    var c := Cross(Sub(v1, v0), Sub(v2, v0));
    assert Cross(Sub(v2, v0), Sub(v1, v0)) == Neg(c);
  }

  /** bilinear: the point at (u, v) of the quad v00, v10, v11, v01. */
  function Bilinear(u: real, v: real, v00: Vec3, v10: Vec3, v11: Vec3, v01: Vec3): Vec3 {
    Combine((1.0 - u) * (1.0 - v), (1.0 - u) * v, u * v, u * (1.0 - v), v00, v10, v11, v01)
  }

  /** The four corners of the unit square land on the four given points. */
  lemma BilinearCorners(v00: Vec3, v10: Vec3, v11: Vec3, v01: Vec3)
    ensures Bilinear(0.0, 0.0, v00, v10, v11, v01) == v00
    ensures Bilinear(0.0, 1.0, v00, v10, v11, v01) == v10
    ensures Bilinear(1.0, 1.0, v00, v10, v11, v01) == v11
    ensures Bilinear(1.0, 0.0, v00, v10, v11, v01) == v01
  {
  }

  // ----- grids of vertex attributes -----

  function LatticeRow<T>(i: nat, cols: nat, f: (nat, nat) -> T): (r: seq<T>)
    ensures |r| == cols
  {
    if cols == 0 then [] else LatticeRow(i, cols - 1, f) + [f(i, cols - 1)]
  }

  /** The values of a row-major double loop, row i column j at i·cols + j. */
  function Lattice<T>(rows: nat, cols: nat, f: (nat, nat) -> T): (r: seq<T>)
    ensures |r| == rows * cols
  {
    if rows == 0 then [] else Lattice(rows - 1, cols, f) + LatticeRow(rows - 1, cols, f)
  }

  lemma {:induction false} LatticeAt<T>(rows: nat, cols: nat, f: (nat, nat) -> T, i: nat, j: nat)
    requires i < rows && j < cols
    ensures i * cols + j < rows * cols
    ensures Lattice(rows, cols, f)[i * cols + j] == f(i, j)
    decreases rows
  {
    var before, row := Lattice(rows - 1, cols, f), LatticeRow(rows - 1, cols, f);
    var k := i * cols + j;
    MulPred(rows, cols);
    assert Lattice(rows, cols, f) == before + row;
    if i < rows - 1 {
      LatticeAt(rows - 1, cols, f, i, j);
      assert k < |before|;
    } else {
      LatticeRowAt(i, cols, f, j);
      assert k == |before| + j;
    }
  }

  lemma MulPred(r: nat, c: nat)
    requires r > 0
    ensures r * c == (r - 1) * c + c
  {
  }

  lemma {:induction false} LatticeRowAt<T>(i: nat, cols: nat, f: (nat, nat) -> T, j: nat)
    requires j < cols
    ensures LatticeRow(i, cols, f)[j] == f(i, j)
    decreases cols
  {
    if j < cols - 1 {
      LatticeRowAt(i, cols - 1, f, j);
    }
  }

  lemma MulLe(a: nat, b: nat, c: nat)
    requires a <= b
    ensures a * c <= b * c
  {
    assert b * c == a * c + (b - a) * c;
  }

  /** The attribute loop of planeAux, sphere, cone and bezier: for every
      grid point, one position, one texture coordinate and, when
      `withNormals`, one normal. */
  method Grid(rows: nat, cols: nat, pos: (nat, nat) -> Vec3, normal: (nat, nat) -> Vec3, tex: (nat, nat) -> Vec2, withNormals: bool)
    returns (vertices: seq<Vec3>, normals: seq<Vec3>, texcoords: seq<Vec2>)
    ensures vertices == Lattice(rows, cols, pos) && texcoords == Lattice(rows, cols, tex)
    ensures normals == if withNormals then Lattice(rows, cols, normal) else []
  {
    vertices, normals, texcoords := [], [], [];
    var i := 0;
    while i < rows
      invariant i <= rows
      invariant vertices == Lattice(i, cols, pos) && texcoords == Lattice(i, cols, tex)
      invariant normals == if withNormals then Lattice(i, cols, normal) else []
    {
      vertices, normals, texcoords := GridRow(vertices, normals, texcoords, i, cols, pos, normal, tex, withNormals);
      i := i + 1;
    }
  }

  /** The column loop of one grid row: its positions, texture coordinates
      and, when `withNormals`, normals appended in column order. */
  method GridRow(vertices: seq<Vec3>, normals: seq<Vec3>, texcoords: seq<Vec2>, i: nat, cols: nat,
                 pos: (nat, nat) -> Vec3, normal: (nat, nat) -> Vec3, tex: (nat, nat) -> Vec2, withNormals: bool)
    returns (v: seq<Vec3>, n: seq<Vec3>, t: seq<Vec2>)
    ensures v == vertices + LatticeRow(i, cols, pos) && t == texcoords + LatticeRow(i, cols, tex)
    ensures n == if withNormals then normals + LatticeRow(i, cols, normal) else normals
  {
    v, n, t := vertices, normals, texcoords;
    var j := 0;
    while j < cols
      invariant j <= cols
      invariant v == vertices + LatticeRow(i, j, pos) && t == texcoords + LatticeRow(i, j, tex)
      invariant n == if withNormals then normals + LatticeRow(i, j, normal) else normals
    {
      v := v + [pos(i, j)];
      t := t + [tex(i, j)];
      if withNormals {
        n := n + [normal(i, j)];
      }
      j := j + 1;
    }
  }

  // ----- index cells -----

  /** Which builder's cell loop. The cone's `topFirst` is the generator's
      variant, whose bottom fan starts at texture coordinate 1 (the top)
      where the engine's starts at 0. The bezier scheme is one patch whose
      vertices start at `offset` and, in flat shading, whose first quad
      normal is `normalBase`. */
  datatype Scheme =
    | PlaneCells(divisions: nat)
    | SphereCells(stacks: nat)
    | ConeCells(stacks: nat, topFirst: bool)
    | TubeCells
    | BezierCells(tess: nat, offset: nat, normalBase: nat, smooth: bool)

  datatype Channel = Positions | Normals | Texcoords

  /** The two triangles (tl, bl, br) and (br, tr, tl) of a grid cell whose
      rows are `stride` apart. */
  function Quad(stride: nat, base: nat, row: nat, col: nat): seq<nat> {
    var tl := base + row * stride + col;
    var bl := base + (row + 1) * stride + col;
    [tl, bl, bl + 1, bl + 1, tl + 1, tl]
  }

  /** Side cell `stack` of a sphere or cone slice: a quad, or the triangle
      to the top vertex (index 1) on the last stack. */
  function Band(last: int, c0: nat, c1: nat, stack: nat): seq<nat> {
    var r0c0, r0c1 := 2 + stack + c0, 2 + stack + c1;
    var r1c0, r1c1 := 2 + stack + 1 + c0, 2 + stack + 1 + c1;
    if stack == last then [r0c0, r0c1, 1]
    else [r0c0, r0c1, r1c0, r1c0, r0c1, r1c1]
  }

  function Repeat(x: nat, n: nat): (r: seq<nat>)
    ensures |r| == n && forall i :: 0 <= i < n ==> r[i] == x
  {
    if n == 0 then [] else Repeat(x, n - 1) + [x]
  }

  /** What cell (i, j) appends to a channel. */
  function Cell(s: Scheme, ch: Channel, i: nat, j: nat): seq<nat> {
    match s
    case PlaneCells(d) => if ch == Normals then Repeat(0, 6) else Quad(d + 1, 0, i, j)
    case SphereCells(stacks) =>
      // slice i; j = 0 is the bottom fan, j = k + 1 is stack k
      var per: nat := if stacks == 0 then 0 else stacks - 1;
      var c0, c1 := i * per, (i + 1) * per;
      if j == 0 then [0, 2 + c1, 2 + c0] else Band(stacks - 2, c0, c1, j - 1)
    case ConeCells(stacks, topFirst) =>
      var c0, c1 := i * stacks, (i + 1) * stacks;
      if j == 0 then
        if ch == Normals then [0, 0, 0]
        else if ch == Texcoords && topFirst then [1, 2 + c1, 2 + c0]
        else [0, 2 + c1, 2 + c0]
      else Band(stacks - 1, c0, c1, j - 1)
    case TubeCells => TubeCell(ch, i, j)
    case BezierCells(tess, offset, normalBase, smooth) =>
      if ch == Normals && !smooth then Repeat(normalBase + i * tess + j, 6) else BezierQuad(tess, offset, i, j)
  }

  /** The two triangles (v00, v10, v11) and (v00, v11, v01) of quad (i, j)
      of a patch starting at `offset`. */
  function BezierQuad(tess: nat, offset: nat, i: nat, j: nat): seq<nat> {
    var q := Quad(tess + 1, offset, i, j);
    [q[0], q[1], q[2], q[0], q[2], q[5] + 1]
  }

  /** Slice i of the tube: part 0 the outer wall, 1 the inner wall, 2 the
      top cap, 3 the bottom cap; 8 vertices and 4 normals per slice. */
  function TubeCell(ch: Channel, i: nat, part: nat): seq<nat> {
    var ov00, ov01 := 8 * i, 8 * (i + 1);
    var n0, n1 := 4 * i, 4 * (i + 1);
    var shift := 2 * part;
    var a, b, c, d := ov00 + shift, ov01 + shift, ov00 + shift + 1, ov01 + shift + 1;
    if ch == Normals then
      if part == 0 then [n0, n1, n0, n0, n1, n1]
      else if part == 1 then [n0 + 1, n0 + 1, n1 + 1, n1 + 1, n0 + 1, n1 + 1]
      else Repeat(n0 + part, 6)
    else if part % 2 == 0 then [a, b, c, c, b, d]
    else [a, c, b, b, c, d]
  }

  function CellRow(s: Scheme, ch: Channel, i: nat, cols: nat): seq<nat> {
    if cols == 0 then [] else CellRow(s, ch, i, cols - 1) + Cell(s, ch, i, cols - 1)
  }

  /** The cells of a row-major double loop, in loop order. */
  function Cells(s: Scheme, ch: Channel, rows: nat, cols: nat): seq<nat> {
    if rows == 0 then [] else Cells(s, ch, rows - 1, cols) + CellRow(s, ch, rows - 1, cols)
  }

  predicate InRange(s: seq<nat>, lo: nat, hi: nat) {
    forall k :: 0 <= k < |s| ==> lo <= s[k] < hi
  }

  lemma {:induction false} CellRowInRange(s: Scheme, ch: Channel, i: nat, cols: nat, lo: nat, hi: nat)
    requires forall j :: 0 <= j < cols ==> InRange(Cell(s, ch, i, j), lo, hi)
    ensures InRange(CellRow(s, ch, i, cols), lo, hi)
    decreases cols
  {
    if cols > 0 {
      CellRowInRange(s, ch, i, cols - 1, lo, hi);
      InRangeAppend(CellRow(s, ch, i, cols - 1), Cell(s, ch, i, cols - 1), lo, hi);
    }
  }

  lemma InRangeAppend(a: seq<nat>, b: seq<nat>, lo: nat, hi: nat)
    requires InRange(a, lo, hi) && InRange(b, lo, hi)
    ensures InRange(a + b, lo, hi)
  {
    forall k | 0 <= k < |a + b|
      ensures lo <= (a + b)[k] < hi
    {
      if k >= |a| {
        assert (a + b)[k] == b[k - |a|];
      }
    }
  }

  /** Every index of the loop lies in a range when every cell's does. */
  lemma CellsInRange(s: Scheme, ch: Channel, rows: nat, cols: nat, lo: nat, hi: nat)
    requires forall i, j :: 0 <= i < rows && 0 <= j < cols ==> InRange(Cell(s, ch, i, j), lo, hi)
    ensures InRange(Cells(s, ch, rows, cols), lo, hi)
  {
    forall i | 0 <= i < rows
      ensures InRange(CellRow(s, ch, i, cols), lo, hi)
    {
      CellRowInRange(s, ch, i, cols, lo, hi);
    }
    RowsInRange(s, ch, rows, cols, lo, hi);
  }

  lemma {:induction false} RowsInRange(s: Scheme, ch: Channel, rows: nat, cols: nat, lo: nat, hi: nat)
    requires forall i :: 0 <= i < rows ==> InRange(CellRow(s, ch, i, cols), lo, hi)
    ensures InRange(Cells(s, ch, rows, cols), lo, hi)
    decreases rows
  {
    if rows > 0 {
      RowsInRange(s, ch, rows - 1, cols, lo, hi);
      InRangeAppend(Cells(s, ch, rows - 1, cols), CellRow(s, ch, rows - 1, cols), lo, hi);
    }
  }

  lemma {:induction false} CellRowLength(s: Scheme, ch: Channel, i: nat, cols: nat, size: nat)
    requires forall j :: 0 <= j < cols ==> |Cell(s, ch, i, j)| == size
    ensures |CellRow(s, ch, i, cols)| == cols * size
    decreases cols
  {
    if cols > 0 {
      CellRowLength(s, ch, i, cols - 1, size);
      assert |Cell(s, ch, i, cols - 1)| == size;
      MulPred(cols, size);
    }
  }

  /** The loop appends rows·R indices when every row appends R. */
  lemma {:induction false} CellsLength(s: Scheme, ch: Channel, rows: nat, cols: nat, perRow: nat)
    requires forall i :: 0 <= i < rows ==> |CellRow(s, ch, i, cols)| == perRow
    ensures |Cells(s, ch, rows, cols)| == rows * perRow
    decreases rows
  {
    if rows > 0 {
      CellsLength(s, ch, rows - 1, cols, perRow);
      assert |CellRow(s, ch, rows - 1, cols)| == perRow;
      assert Cells(s, ch, rows, cols) == Cells(s, ch, rows - 1, cols) + CellRow(s, ch, rows - 1, cols);
      assert (rows - 1) * perRow + perRow == rows * perRow;
    }
  }

  /** Two channels whose cells agree agree as a whole. */
  lemma CellsAgree(s: Scheme, a: Channel, b: Channel, rows: nat, cols: nat)
    requires forall i, j :: 0 <= i < rows && 0 <= j < cols ==> Cell(s, a, i, j) == Cell(s, b, i, j)
    ensures Cells(s, a, rows, cols) == Cells(s, b, rows, cols)
  {
    forall i | 0 <= i < rows
      ensures CellRow(s, a, i, cols) == CellRow(s, b, i, cols)
    {
      CellRowAgree(s, a, b, i, cols);
    }
    RowsAgree(s, a, b, rows, cols);
  }

  lemma {:induction false} RowsAgree(s: Scheme, a: Channel, b: Channel, rows: nat, cols: nat)
    requires forall i :: 0 <= i < rows ==> CellRow(s, a, i, cols) == CellRow(s, b, i, cols)
    ensures Cells(s, a, rows, cols) == Cells(s, b, rows, cols)
    decreases rows
  {
    if rows > 0 {
      RowsAgree(s, a, b, rows - 1, cols);
    }
  }

  lemma {:induction false} CellRowAgree(s: Scheme, a: Channel, b: Channel, i: nat, cols: nat)
    requires forall j :: 0 <= j < cols ==> Cell(s, a, i, j) == Cell(s, b, i, j)
    ensures CellRow(s, a, i, cols) == CellRow(s, b, i, cols)
    decreases cols
  {
    if cols > 0 {
      CellRowAgree(s, a, b, i, cols - 1);
    }
  }

  // ----- planeAux -----

  /** A cell of the plane reaches at most the next row and column. */
  lemma QuadInRange(stride: nat, base: nat, rows: nat, row: nat, col: nat)
    requires row < rows && col + 1 < stride
    ensures InRange(Quad(stride, base, row, col), base, base + (rows + 1) * stride)
  {
    MulLe(row + 1, rows, stride);
    assert (rows + 1) * stride == rows * stride + stride;
  }

  /** planeAux's indices: 6d² of each kind; vertex and texture indices
      name one of the (d+1)² grid points and are equal; every normal index
      is 0, the face's single normal. */
  lemma PlaneIndices(d: nat)
    ensures |Cells(PlaneCells(d), Positions, d, d)| == 6 * d * d
    ensures |Cells(PlaneCells(d), Normals, d, d)| == 6 * d * d
    ensures InRange(Cells(PlaneCells(d), Positions, d, d), 0, (d + 1) * (d + 1))
    ensures InRange(Cells(PlaneCells(d), Normals, d, d), 0, 1)
    ensures Cells(PlaneCells(d), Texcoords, d, d) == Cells(PlaneCells(d), Positions, d, d)
  {
    var s := PlaneCells(d);
    forall i, j | 0 <= i < d && 0 <= j < d
      ensures InRange(Cell(s, Positions, i, j), 0, (d + 1) * (d + 1))
    {
      QuadInRange(d + 1, 0, d, i, j);
    }
    CellsInRange(s, Positions, d, d, 0, (d + 1) * (d + 1));
    CellsInRange(s, Normals, d, d, 0, 1);
    CellsAgree(s, Texcoords, Positions, d, d);
    forall i | 0 <= i < d
      ensures |CellRow(s, Positions, i, d)| == 6 * d && |CellRow(s, Normals, i, d)| == 6 * d
    {
      CellRowLength(s, Positions, i, d, 6);
      CellRowLength(s, Normals, i, d, 6);
    }
    CellsLength(s, Positions, d, d, 6 * d);
    CellsLength(s, Normals, d, d, 6 * d);
  }

  // ----- sphere -----

  /** A sphere slice with stacks ≥ 2: the bottom fan, stacks − 2 quads and
      the top fan, 6(stacks − 1) indices. */
  lemma {:induction false} SphereRowLength(stacks: nat, ch: Channel, i: nat, cols: nat)
    requires 2 <= stacks && 1 <= cols <= stacks
    ensures |CellRow(SphereCells(stacks), ch, i, cols)| == if cols == stacks then 6 * (stacks - 1) else 3 + 6 * (cols - 1)
    decreases cols
  {
    if cols > 1 {
      SphereRowLength(stacks, ch, i, cols - 1);
    }
  }

  /** sphere (stacks ≥ 2): 6·slices·(stacks−1) indices, every one naming
      one of the 2 + (slices+1)(stacks−1) vertices; normal and texture
      indices are the vertex indices. */
  lemma SphereIndices(stacks: nat, slices: nat)
    requires stacks >= 2
    ensures |Cells(SphereCells(stacks), Positions, slices, stacks)| == 6 * slices * (stacks - 1)
    ensures InRange(Cells(SphereCells(stacks), Positions, slices, stacks), 0, 2 + (slices + 1) * (stacks - 1))
    ensures Cells(SphereCells(stacks), Normals, slices, stacks) == Cells(SphereCells(stacks), Positions, slices, stacks)
    ensures Cells(SphereCells(stacks), Texcoords, slices, stacks) == Cells(SphereCells(stacks), Positions, slices, stacks)
  {
    var s := SphereCells(stacks);
    var n := 2 + (slices + 1) * (stacks - 1);
    forall i, j | 0 <= i < slices && 0 <= j < stacks
      ensures InRange(Cell(s, Positions, i, j), 0, n)
    {
      MulLe(i + 1, slices, stacks - 1);
      assert (slices + 1) * (stacks - 1) == slices * (stacks - 1) + (stacks - 1);
      assert i * (stacks - 1) + (stacks - 1) == (i + 1) * (stacks - 1);
    }
    CellsInRange(s, Positions, slices, stacks, 0, n);
    forall i | 0 <= i < slices
      ensures |CellRow(s, Positions, i, stacks)| == 6 * (stacks - 1)
    {
      SphereRowLength(stacks, Positions, i, stacks);
    }
    CellsLength(s, Positions, slices, stacks, 6 * (stacks - 1));
    CellsAgree(s, Normals, Positions, slices, stacks);
    CellsAgree(s, Texcoords, Positions, slices, stacks);
  }

  /** With a single stack the bottom fan names vertex 2, but only the two
      poles exist. */
  lemma SphereSingleStack(slices: nat)
    requires slices >= 1
    ensures !InRange(Cells(SphereCells(1), Positions, slices, 1), 0, 2 + (slices + 1) * 0)
  {
    var s := SphereCells(1);
    assert CellRow(s, Positions, slices - 1, 1) == [0, 2, 2];
    var cells := Cells(s, Positions, slices, 1);
    assert cells[|cells| - 2] == 2;
  }

  // ----- cone -----

  lemma ConeCellInRange(stacks: nat, topFirst: bool, slices: nat, i: nat, j: nat)
    requires stacks >= 1 && i < slices && j < stacks + 1
    ensures var n := 2 + (slices + 1) * stacks;
      InRange(Cell(ConeCells(stacks, topFirst), Positions, i, j), 0, n)
      && InRange(Cell(ConeCells(stacks, topFirst), Normals, i, j), 0, n)
  {
    MulLe(i + 1, slices, stacks);
    assert (slices + 1) * stacks == slices * stacks + stacks;
    assert i * stacks + stacks == (i + 1) * stacks;
  }

  lemma {:induction false} ConeRowLength(stacks: nat, topFirst: bool, ch: Channel, i: nat, cols: nat)
    requires 1 <= stacks && 1 <= cols <= stacks + 1
    ensures |CellRow(ConeCells(stacks, topFirst), ch, i, cols)| == if cols == stacks + 1 then 6 * stacks else 3 + 6 * (cols - 1)
    decreases cols
  {
    if cols > 1 {
      ConeRowLength(stacks, topFirst, ch, i, cols - 1);
    }
  }

  /** cone (stacks ≥ 1): 6·slices·stacks vertex and normal indices
      naming the 2 + (slices+1)·stacks vertices (and as many normals);
      one row of cells per slice, the bottom fan and then stacks cells. */
  lemma ConeIndices(stacks: nat, slices: nat, topFirst: bool)
    requires stacks >= 1
    ensures var v := Cells(ConeCells(stacks, topFirst), Positions, slices, stacks + 1);
      |v| == 6 * slices * stacks && InRange(v, 0, 2 + (slices + 1) * stacks)
    ensures var vn := Cells(ConeCells(stacks, topFirst), Normals, slices, stacks + 1);
      |vn| == 6 * slices * stacks && InRange(vn, 0, 2 + (slices + 1) * stacks)
  {
    var s := ConeCells(stacks, topFirst);
    var n := 2 + (slices + 1) * stacks;
    var cols := stacks + 1;
    forall i, j | 0 <= i < slices && 0 <= j < cols
      ensures InRange(Cell(s, Positions, i, j), 0, n) && InRange(Cell(s, Normals, i, j), 0, n)
    {
      ConeCellInRange(stacks, topFirst, slices, i, j);
    }
    CellsInRange(s, Positions, slices, cols, 0, n);
    CellsInRange(s, Normals, slices, cols, 0, n);
    forall i | 0 <= i < slices
      ensures |CellRow(s, Positions, i, cols)| == 6 * stacks && |CellRow(s, Normals, i, cols)| == 6 * stacks
    {
      ConeRowLength(stacks, topFirst, Positions, i, cols);
      ConeRowLength(stacks, topFirst, Normals, i, cols);
    }
    CellsLength(s, Positions, slices, cols, 6 * stacks);
    CellsLength(s, Normals, slices, cols, 6 * stacks);
  }

  /** The bottom fan of a cone slice uses the downward normal (index 0)
      three times; its first texture index is 0 in the engine and 1 in the
      generator; elsewhere normal and texture indices are the vertex
      indices. */
  lemma ConeBottomFan(stacks: nat, topFirst: bool, i: nat, j: nat)
    ensures Cell(ConeCells(stacks, topFirst), Normals, i, 0) == [0, 0, 0]
    ensures Cell(ConeCells(stacks, topFirst), Texcoords, i, 0)[0] == (if topFirst then 1 else 0)
    ensures Cell(ConeCells(stacks, topFirst), Texcoords, i, 0)[1..] == Cell(ConeCells(stacks, topFirst), Positions, i, 0)[1..]
    ensures j > 0 ==> Cell(ConeCells(stacks, topFirst), Normals, i, j) == Cell(ConeCells(stacks, topFirst), Positions, i, j)
    ensures j > 0 ==> Cell(ConeCells(stacks, topFirst), Texcoords, i, j) == Cell(ConeCells(stacks, topFirst), Positions, i, j)
  {
  }

  // ----- tube -----

  /** tube: 24 indices per slice; vertex and texture indices name one of
      the 8(slices+1) vertices, normal indices one of the 4(slices+1)
      normals. */
  lemma TubeIndices(slices: nat)
    ensures |Cells(TubeCells, Positions, slices, 4)| == 24 * slices
    ensures |Cells(TubeCells, Normals, slices, 4)| == 24 * slices
    ensures InRange(Cells(TubeCells, Positions, slices, 4), 0, 8 * (slices + 1))
    ensures InRange(Cells(TubeCells, Normals, slices, 4), 0, 4 * (slices + 1))
    ensures Cells(TubeCells, Texcoords, slices, 4) == Cells(TubeCells, Positions, slices, 4)
  {
    var s := TubeCells;
    CellsInRange(s, Positions, slices, 4, 0, 8 * (slices + 1));
    CellsInRange(s, Normals, slices, 4, 0, 4 * (slices + 1));
    CellsAgree(s, Texcoords, Positions, slices, 4);
    forall i | 0 <= i < slices
      ensures |CellRow(s, Positions, i, 4)| == 24 && |CellRow(s, Normals, i, 4)| == 24
    {
      CellRowLength(s, Positions, i, 4, 6);
      CellRowLength(s, Normals, i, 4, 6);
    }
    CellsLength(s, Positions, slices, 4, 24);
    CellsLength(s, Normals, slices, 4, 24);
  }

  // ----- bezier -----

  lemma BezierCellInRange(tess: nat, offset: nat, normalBase: nat, smooth: bool, i: nat, j: nat)
    requires i < tess && j < tess
    ensures InRange(Cell(BezierCells(tess, offset, normalBase, smooth), Positions, i, j), offset, offset + (tess + 1) * (tess + 1))
    ensures !smooth ==> InRange(Cell(BezierCells(tess, offset, normalBase, smooth), Normals, i, j), normalBase, normalBase + tess * tess)
  {
    QuadInRange(tess + 1, offset, tess, i, j);
    MulLe(i + 1, tess, tess);
    assert i * tess + tess == (i + 1) * tess;
  }

  /** One patch of bezier: 6·tess² indices of each kind. Vertex and
      texture indices name the patch's own (tess+1)² vertices. In smooth
      shading the normal indices are the vertex indices; in flat shading
      quad k of the patch uses normal normalBase + k six times. */
  lemma BezierPatchIndices(tess: nat, offset: nat, normalBase: nat, smooth: bool)
    ensures var v := Cells(BezierCells(tess, offset, normalBase, smooth), Positions, tess, tess);
      |v| == 6 * tess * tess && InRange(v, offset, offset + (tess + 1) * (tess + 1))
    ensures var s := BezierCells(tess, offset, normalBase, smooth);
      Cells(s, Texcoords, tess, tess) == Cells(s, Positions, tess, tess)
    ensures var s := BezierCells(tess, offset, normalBase, smooth);
      |Cells(s, Normals, tess, tess)| == 6 * tess * tess
      && (smooth ==> Cells(s, Normals, tess, tess) == Cells(s, Positions, tess, tess))
      && (!smooth ==> InRange(Cells(s, Normals, tess, tess), normalBase, normalBase + tess * tess))
  {
    var s := BezierCells(tess, offset, normalBase, smooth);
    BezierPatchLengths(tess, offset, normalBase, smooth);
    BezierPatchRanges(tess, offset, normalBase, smooth);
    if smooth {
      CellsAgree(s, Normals, Positions, tess, tess);
    }
    CellsAgree(s, Texcoords, Positions, tess, tess);
  }

  /** One patch of bezier: 6·tess² position and normal indices. */
  lemma BezierPatchLengths(tess: nat, offset: nat, normalBase: nat, smooth: bool)
    ensures var s := BezierCells(tess, offset, normalBase, smooth);
      |Cells(s, Positions, tess, tess)| == 6 * tess * tess && |Cells(s, Normals, tess, tess)| == 6 * tess * tess
  {
    var s := BezierCells(tess, offset, normalBase, smooth);
    forall i | 0 <= i < tess
      ensures |CellRow(s, Positions, i, tess)| == 6 * tess && |CellRow(s, Normals, i, tess)| == 6 * tess
    {
      CellRowLength(s, Positions, i, tess, 6);
      CellRowLength(s, Normals, i, tess, 6);
    }
    CellsLength(s, Positions, tess, tess, 6 * tess);
    CellsLength(s, Normals, tess, tess, 6 * tess);
    assert tess * (6 * tess) == 6 * tess * tess;
  }

  /** One patch of bezier: position indices name the patch's own
      vertices; in flat shading normal indices name its own quad normals. */
  lemma BezierPatchRanges(tess: nat, offset: nat, normalBase: nat, smooth: bool)
    ensures var s := BezierCells(tess, offset, normalBase, smooth);
      InRange(Cells(s, Positions, tess, tess), offset, offset + (tess + 1) * (tess + 1))
      && (!smooth ==> InRange(Cells(s, Normals, tess, tess), normalBase, normalBase + tess * tess))
  {
    var s := BezierCells(tess, offset, normalBase, smooth);
    forall i, j | 0 <= i < tess && 0 <= j < tess
      ensures InRange(Cell(s, Positions, i, j), offset, offset + (tess + 1) * (tess + 1))
      ensures !smooth ==> InRange(Cell(s, Normals, i, j), normalBase, normalBase + tess * tess)
    {
      BezierCellInRange(tess, offset, normalBase, smooth, i, j);
    }
    CellsInRange(s, Positions, tess, tess, offset, offset + (tess + 1) * (tess + 1));
    if !smooth {
      CellsInRange(s, Normals, tess, tess, normalBase, normalBase + tess * tess);
    }
  }

  /** Lattice entry (i, j) after a prefix of other entries. */
  lemma PrefixedLatticeAt<T>(pre: seq<T>, rows: nat, cols: nat, f: (nat, nat) -> T, i: nat, j: nat)
    requires i < rows && j < cols
    ensures |pre| + GridIndex(rows, cols, i, j) < |pre| + rows * cols
    ensures (pre + Lattice(rows, cols, f))[|pre| + GridIndex(rows, cols, i, j)] == f(i, j)
  {
    LatticeAt(rows, cols, f, i, j);
  }

  // ----- the cell loops -----

  /** The double loop over cells that appends the same kind of entries to
      all three index lists (planeAux, bezier's index part). */
  method CellLoop(s: Scheme, rows: nat, cols: nat) returns (v: seq<nat>, vn: seq<nat>, vt: seq<nat>)
    ensures v == Cells(s, Positions, rows, cols) && vn == Cells(s, Normals, rows, cols) && vt == Cells(s, Texcoords, rows, cols)
  {
    v, vn, vt := [], [], [];
    var i := 0;
    while i < rows
      invariant i <= rows
      invariant v == Cells(s, Positions, i, cols) && vn == Cells(s, Normals, i, cols) && vt == Cells(s, Texcoords, i, cols)
    {
      v, vn, vt := CellRowLoop(v, vn, vt, s, i, cols);
      i := i + 1;
    }
  }

  /** The column loop of one row: the row's cells appended to each list. */
  method CellRowLoop(v0: seq<nat>, vn0: seq<nat>, vt0: seq<nat>, s: Scheme, i: nat, cols: nat)
    returns (v: seq<nat>, vn: seq<nat>, vt: seq<nat>)
    ensures v == v0 + CellRow(s, Positions, i, cols) && vn == vn0 + CellRow(s, Normals, i, cols)
    ensures vt == vt0 + CellRow(s, Texcoords, i, cols)
  {
    v, vn, vt := v0, vn0, vt0;
    var j := 0;
    while j < cols
      invariant j <= cols
      invariant v == v0 + CellRow(s, Positions, i, j) && vn == vn0 + CellRow(s, Normals, i, j)
      invariant vt == vt0 + CellRow(s, Texcoords, i, j)
    {
      var cv, cn, ct := Cell(s, Positions, i, j), Cell(s, Normals, i, j), Cell(s, Texcoords, i, j);
      CellRowStep(v0, s, Positions, i, j);
      CellRowStep(vn0, s, Normals, i, j);
      CellRowStep(vt0, s, Texcoords, i, j);
      v, vn, vt := v + cv, vn + cn, vt + ct;
      j := j + 1;
    }
  }

  lemma CellRowStep(before: seq<nat>, s: Scheme, ch: Channel, i: nat, j: nat)
    ensures before + CellRow(s, ch, i, j) + Cell(s, ch, i, j) == before + CellRow(s, ch, i, j + 1)
  {
  }

  // ----- planeAux and plane -----

  /** Where a row-major double loop puts row `row`, column `col`. */
  function GridIndex(rows: nat, cols: nat, row: nat, col: nat): (k: nat)
    requires row < rows && col < cols
    ensures k < rows * cols
  {
    MulLe(row, rows - 1, cols);
    row * cols + col
  }

  /** The grid point at (row, col): column and row fractions u = col/d and
      v = row/d of the bilinear patch. */
  function PlanePoint(d: nat, bl: Vec3, br: Vec3, tr: Vec3, tl: Vec3, row: nat, col: nat): Vec3
    requires d >= 1
  {
    Bilinear((col as real) / (d as real), (row as real) / (d as real), bl, br, tr, tl)
  }

  /** Its texture coordinate (v, u). */
  function PlaneTexcoord(d: nat, row: nat, col: nat): Vec2
    requires d >= 1
  {
    Vec2((row as real) / (d as real), (col as real) / (d as real))
  }

  /** planeAux: (d+1)² grid points with their texture coordinates, the
      face's one normal, and 6d² entries in each index list; every vertex
      index names a grid point, texture indices equal vertex indices and
      every normal index is 0. */
  method PlaneAux(maths: Maths, d: nat, bl: Vec3, br: Vec3, tr: Vec3, tl: Vec3) returns (m: MeshBuffers.Mesh)
    requires d >= 1
    ensures |m.vertices| == |m.texcoords| == (d + 1) * (d + 1)
    ensures forall row: nat, col: nat :: row <= d && col <= d ==>
      m.vertices[GridIndex(d + 1, d + 1, row, col)] == PlanePoint(d, bl, br, tr, tl, row, col)
      && m.texcoords[GridIndex(d + 1, d + 1, row, col)] == PlaneTexcoord(d, row, col)
    ensures m.normals == [VNormal(maths, bl, br, tr, true)]
    ensures m.vIndices == Cells(PlaneCells(d), Positions, d, d) && m.vnIndices == Cells(PlaneCells(d), Normals, d, d)
    ensures |m.vIndices| == |m.vnIndices| == 6 * d * d && m.vtIndices == m.vIndices
    ensures InRange(m.vIndices, 0, |m.vertices|) && InRange(m.vnIndices, 0, |m.normals|)
    ensures !m.buffersInitialised
  {
    var vertices, texcoords := PlaneAttributes(d, bl, br, tr, tl);
    var v, vn, vt := CellLoop(PlaneCells(d), d, d);
    PlaneIndices(d);
    m := MeshBuffers.MeshOf(vertices, [VNormal(maths, bl, br, tr, true)], texcoords, v, vn, vt);
  }

  /** planeAux's attribute loop: the bilinear point and the texture
      coordinate of every grid point, row by row. */
  method PlaneAttributes(d: nat, bl: Vec3, br: Vec3, tr: Vec3, tl: Vec3) returns (vertices: seq<Vec3>, texcoords: seq<Vec2>)
    requires d >= 1
    ensures |vertices| == |texcoords| == (d + 1) * (d + 1)
    ensures forall row: nat, col: nat :: row <= d && col <= d ==>
      vertices[GridIndex(d + 1, d + 1, row, col)] == PlanePoint(d, bl, br, tr, tl, row, col)
      && texcoords[GridIndex(d + 1, d + 1, row, col)] == PlaneTexcoord(d, row, col)
  {
    var pos, tex := PlanePositions(d, bl, br, tr, tl), PlaneTexcoords(d);
    var normals;
    vertices, normals, texcoords := Grid(d + 1, d + 1, pos, pos, tex, false);
    PlaneLattice(d, bl, br, tr, tl);
  }

  function PlanePositions(d: nat, bl: Vec3, br: Vec3, tr: Vec3, tl: Vec3): (nat, nat) -> Vec3 {
    (row: nat, col: nat) => if d >= 1 then PlanePoint(d, bl, br, tr, tl, row, col) else Origin
  }

  function PlaneTexcoords(d: nat): (nat, nat) -> Vec2 {
    (row: nat, col: nat) => if d >= 1 then PlaneTexcoord(d, row, col) else Vec2(0.0, 0.0)
  }

  /** Grid point (row, col) of planeAux's attribute loop sits at
      row·(d+1) + col. */
  lemma PlaneLattice(d: nat, bl: Vec3, br: Vec3, tr: Vec3, tl: Vec3)
    requires d >= 1
    ensures forall row: nat, col: nat :: row <= d && col <= d ==>
      Lattice(d + 1, d + 1, PlanePositions(d, bl, br, tr, tl))[GridIndex(d + 1, d + 1, row, col)] == PlanePoint(d, bl, br, tr, tl, row, col)
      && Lattice(d + 1, d + 1, PlaneTexcoords(d))[GridIndex(d + 1, d + 1, row, col)] == PlaneTexcoord(d, row, col)
  {
    forall row: nat, col: nat | row <= d && col <= d
      ensures Lattice(d + 1, d + 1, PlanePositions(d, bl, br, tr, tl))[GridIndex(d + 1, d + 1, row, col)] == PlanePoint(d, bl, br, tr, tl, row, col)
      ensures Lattice(d + 1, d + 1, PlaneTexcoords(d))[GridIndex(d + 1, d + 1, row, col)] == PlaneTexcoord(d, row, col)
    {
      LatticeAt(d + 1, d + 1, PlanePositions(d, bl, br, tr, tl), row, col);
      LatticeAt(d + 1, d + 1, PlaneTexcoords(d), row, col);
    }
  }

  /** plane's corners (bl, br, tr, tl): a square of side `length` centred
      on the origin in y = 0. */
  function PlaneCorners(length: real): (c: seq<Vec3>)
    ensures |c| == 4 && forall k :: 0 <= k < 4 ==> c[k].y == 0.0
  {
    var hl := length / 2.0;
    [Vec3(-hl, 0.0, -hl + length), Vec3(-hl + length, 0.0, -hl + length), Vec3(-hl + length, 0.0, -hl), Vec3(-hl, 0.0, -hl)]
  }

  /** plane: every grid point lies in y = 0. */
  method Plane(maths: Maths, length: real, d: nat) returns (m: MeshBuffers.Mesh)
    requires d >= 1
    ensures |m.vertices| == (d + 1) * (d + 1) && |m.vIndices| == 6 * d * d
    ensures InRange(m.vIndices, 0, |m.vertices|) && InRange(m.vnIndices, 0, |m.normals|)
    ensures var c := PlaneCorners(length);
      forall row: nat, col: nat :: row <= d && col <= d ==>
        m.vertices[GridIndex(d + 1, d + 1, row, col)] == PlanePoint(d, c[0], c[1], c[2], c[3], row, col)
        && PlanePoint(d, c[0], c[1], c[2], c[3], row, col).y == 0.0
  {
    var c := PlaneCorners(length);
    m := PlaneAux(maths, d, c[0], c[1], c[2], c[3]);
  }

  // ----- box and skybox -----

  function VerticesOf(faces: seq<MeshBuffers.Mesh>): seq<Vec3> {
    if faces == [] then [] else VerticesOf(faces[..|faces| - 1]) + faces[|faces| - 1].vertices
  }

  function NormalsOf(faces: seq<MeshBuffers.Mesh>): seq<Vec3> {
    if faces == [] then [] else NormalsOf(faces[..|faces| - 1]) + faces[|faces| - 1].normals
  }

  function TexcoordsOf(faces: seq<MeshBuffers.Mesh>): seq<Vec2> {
    if faces == [] then [] else TexcoordsOf(faces[..|faces| - 1]) + faces[|faces| - 1].texcoords
  }

  function Shift(s: seq<nat>, k: nat): (r: seq<nat>)
    ensures |r| == |s| && forall i :: 0 <= i < |s| ==> r[i] == s[i] + k
  {
    if s == [] then [] else Shift(s[..|s| - 1], k) + [s[|s| - 1] + k]
  }

  /** The merged vertex indices: each face's shifted by the number of
      vertices of the faces before it. */
  function MergedIndices(faces: seq<MeshBuffers.Mesh>): seq<nat> {
    if faces == [] then []
    else
      var front := faces[..|faces| - 1];
      MergedIndices(front) + Shift(faces[|faces| - 1].vIndices, |VerticesOf(front)|)
  }

  /** The merged normal indices: every entry of a face names the first
      normal of that face. */
  function MergedNormalIndices(faces: seq<MeshBuffers.Mesh>): seq<nat> {
    if faces == [] then []
    else
      var front := faces[..|faces| - 1];
      MergedNormalIndices(front) + Repeat(|NormalsOf(front)|, |faces[|faces| - 1].vIndices|)
  }

  /** The merge loop of box and skybox. */
  method Merge(faces: seq<MeshBuffers.Mesh>) returns (m: MeshBuffers.Mesh)
    ensures m.vertices == VerticesOf(faces) && m.normals == NormalsOf(faces) && m.texcoords == TexcoordsOf(faces)
    ensures m.vIndices == MergedIndices(faces) && m.vnIndices == MergedNormalIndices(faces) && m.vtIndices == m.vIndices
    ensures !m.buffersInitialised
  {
    var vertices, normals, texcoords := [], [], [];
    var vIndices, vnIndices, vtIndices := [], [], [];
    var vOffset, nOffset := 0, 0;
    var f := 0;
    while f < |faces|
      invariant f <= |faces|
      invariant vertices == VerticesOf(faces[..f]) && normals == NormalsOf(faces[..f]) && texcoords == TexcoordsOf(faces[..f])
      invariant vIndices == MergedIndices(faces[..f]) && vnIndices == MergedNormalIndices(faces[..f]) && vtIndices == vIndices
      invariant vOffset == |vertices| && nOffset == |normals|
    {
      MergedSnoc(faces, f);
      var face := faces[f];
      vertices := vertices + face.vertices;
      normals := normals + face.normals;
      texcoords := texcoords + face.texcoords;
      vIndices, vnIndices, vtIndices := AppendFaceIndices(vIndices, vnIndices, vtIndices, face.vIndices, vOffset, nOffset);
      vOffset := vOffset + |face.vertices|;
      nOffset := nOffset + |face.normals|;
      f := f + 1;
    }
    assert faces[..f] == faces;
    m := MeshBuffers.MeshOf(vertices, normals, texcoords, vIndices, vnIndices, vtIndices);
  }

  /** The merged lists after one more face. */
  lemma MergedSnoc(faces: seq<MeshBuffers.Mesh>, f: nat)
    requires f < |faces|
    ensures VerticesOf(faces[..f + 1]) == VerticesOf(faces[..f]) + faces[f].vertices
    ensures NormalsOf(faces[..f + 1]) == NormalsOf(faces[..f]) + faces[f].normals
    ensures TexcoordsOf(faces[..f + 1]) == TexcoordsOf(faces[..f]) + faces[f].texcoords
    ensures MergedIndices(faces[..f + 1]) == MergedIndices(faces[..f]) + Shift(faces[f].vIndices, |VerticesOf(faces[..f])|)
    ensures MergedNormalIndices(faces[..f + 1]) == MergedNormalIndices(faces[..f]) + Repeat(|NormalsOf(faces[..f])|, |faces[f].vIndices|)
  {
    assert faces[..f + 1][..f] == faces[..f];
  }

  /** One face's pass of the merge loop: its vertex indices shifted by the
      vertices before it, and as many copies of its normal's index. */
  method AppendFaceIndices(vIndices: seq<nat>, vnIndices: seq<nat>, vtIndices: seq<nat>, face: seq<nat>, vOffset: nat, nOffset: nat)
    returns (v: seq<nat>, vn: seq<nat>, vt: seq<nat>)
    ensures v == vIndices + Shift(face, vOffset) && vn == vnIndices + Repeat(nOffset, |face|)
    ensures vt == vtIndices + Shift(face, vOffset)
  {
    v, vn, vt := vIndices, vnIndices, vtIndices;
    var k := 0;
    while k < |face|
      invariant k <= |face|
      invariant v == vIndices + Shift(face[..k], vOffset) && vn == vnIndices + Repeat(nOffset, k)
      invariant vt == vtIndices + Shift(face[..k], vOffset)
    {
      assert face[..k + 1][..k] == face[..k];
      v := v + [vOffset + face[k]];
      vn := vn + [nOffset];
      vt := vt + [vOffset + face[k]];
      k := k + 1;
    }
    assert face[..k] == face;
  }

  /** Face k's entries all name normal k: k copies of each face number. */
  function FaceNumbers(faces: nat, perFace: nat): seq<nat> {
    if faces == 0 then [] else FaceNumbers(faces - 1, perFace) + Repeat(faces - 1, perFace)
  }

  /** Every face has V vertices, one normal and I indices, each naming
      one of its own vertices. */
  predicate UniformFaces(faces: seq<MeshBuffers.Mesh>, perFace: nat, indices: nat) {
    forall f :: 0 <= f < |faces| ==>
      |faces[f].vertices| == perFace && |faces[f].normals| == 1 && |faces[f].vIndices| == indices
      && InRange(faces[f].vIndices, 0, perFace)
  }

  lemma UniformFront(faces: seq<MeshBuffers.Mesh>, perFace: nat, indices: nat)
    requires faces != [] && UniformFaces(faces, perFace, indices)
    ensures UniformFaces(faces[..|faces| - 1], perFace, indices)
    ensures var last := faces[|faces| - 1];
      |last.vertices| == perFace && |last.normals| == 1 && |last.vIndices| == indices
      && InRange(last.vIndices, 0, perFace)
  {
    var front := faces[..|faces| - 1];
    assert forall f :: 0 <= f < |front| ==> front[f] == faces[f];
  }

  /** Merging n uniform faces: n·V vertices, n normals and n·I indices. */
  lemma {:induction false} MergeCounts(faces: seq<MeshBuffers.Mesh>, perFace: nat, indices: nat)
    requires UniformFaces(faces, perFace, indices)
    ensures |VerticesOf(faces)| == |faces| * perFace && |NormalsOf(faces)| == |faces|
    ensures |MergedIndices(faces)| == |faces| * indices
    decreases |faces|
  {
    if faces != [] {
      UniformFront(faces, perFace, indices);
      MergeCounts(faces[..|faces| - 1], perFace, indices);
      MulPred(|faces|, perFace);
      MulPred(|faces|, indices);
    }
  }

  /** Merging n uniform faces: every merged vertex index names one of the
      n·V merged vertices. */
  lemma {:induction false} MergeInRange(faces: seq<MeshBuffers.Mesh>, perFace: nat, indices: nat)
    requires UniformFaces(faces, perFace, indices)
    ensures InRange(MergedIndices(faces), 0, |faces| * perFace)
    decreases |faces|
  {
    if faces != [] {
      var n := |faces| - 1;
      var front, last := faces[..n], faces[n];
      UniformFront(faces, perFace, indices);
      MergeInRange(front, perFace, indices);
      MergeCounts(front, perFace, indices);
      MulPred(|faces|, perFace);
      MulLe(n, |faces|, perFace);
      var shifted := Shift(last.vIndices, |VerticesOf(front)|);
      assert InRange(shifted, 0, |faces| * perFace);
      InRangeWiden(MergedIndices(front), 0, n * perFace, |faces| * perFace);
      InRangeAppend(MergedIndices(front), shifted, 0, |faces| * perFace);
    }
  }

  /** Merging n uniform faces: the entries of face k all name normal k. */
  lemma {:induction false} MergeNormalFaces(faces: seq<MeshBuffers.Mesh>, perFace: nat, indices: nat)
    requires UniformFaces(faces, perFace, indices)
    ensures MergedNormalIndices(faces) == FaceNumbers(|faces|, indices)
    decreases |faces|
  {
    if faces != [] {
      var front := faces[..|faces| - 1];
      UniformFront(faces, perFace, indices);
      MergeNormalFaces(front, perFace, indices);
      MergeCounts(front, perFace, indices);
    }
  }

  /** Merging faces of V vertices, one normal and I in-range indices each:
      n·V vertices, n normals, n·I indices naming merged vertices, and the
      entries of face k all name normal k. */
  lemma MergeUniform(faces: seq<MeshBuffers.Mesh>, perFace: nat, indices: nat)
    requires forall f :: 0 <= f < |faces| ==>
      |faces[f].vertices| == perFace && |faces[f].normals| == 1 && |faces[f].vIndices| == indices
      && InRange(faces[f].vIndices, 0, perFace)
    ensures |VerticesOf(faces)| == |faces| * perFace && |NormalsOf(faces)| == |faces|
    ensures |MergedIndices(faces)| == |faces| * indices
    ensures InRange(MergedIndices(faces), 0, |faces| * perFace)
    ensures MergedNormalIndices(faces) == FaceNumbers(|faces|, indices)
  {
    MergeCounts(faces, perFace, indices);
    MergeInRange(faces, perFace, indices);
    MergeNormalFaces(faces, perFace, indices);
  }

  lemma InRangeWiden(s: seq<nat>, lo: nat, hi: nat, hi': nat)
    requires InRange(s, lo, hi) && hi <= hi'
    ensures InRange(s, lo, hi')
  {
  }

  /** The corners of one box face: the axis (0 = x, 1 = y, 2 = z), the
      positive (ccw) or negative (cw) face of the pair, and whether it is
      the skybox, whose faces sit on the opposite side so that they face
      inwards. The order is (bl, br, tr, tl) as planeAux takes them. */
  function FaceCorners(l: real, axis: nat, positive: bool, sky: bool): (seq<Vec3>) {
    var hl := l / 2.0;
    var along := if axis == 0 then Vec3(0.0, -hl, -hl) else if axis == 1 then Vec3(-hl, 0.0, -hl) else Vec3(-hl, -hl, 0.0);
    var away := if axis == 0 then Vec3(hl, 0.0, 0.0) else if axis == 1 then Vec3(0.0, hl, 0.0) else Vec3(0.0, 0.0, hl);
    var bl := if axis == 0 then Vec3(0.0, 0.0, l) else if axis == 1 then Vec3(0.0, 0.0, l) else Vec3(0.0, 0.0, 0.0);
    var br := if axis == 0 then Vec3(0.0, 0.0, 0.0) else if axis == 1 then Vec3(l, 0.0, l) else Vec3(l, 0.0, 0.0);
    var tr := if axis == 0 then Vec3(0.0, l, 0.0) else if axis == 1 then Vec3(l, 0.0, 0.0) else Vec3(l, l, 0.0);
    var tl := if axis == 0 then Vec3(0.0, l, l) else if axis == 1 then Vec3(0.0, 0.0, 0.0) else Vec3(0.0, l, 0.0);
    var shift := if positive != sky then Add(along, away) else Sub(along, away);
    if positive then [Add(bl, shift), Add(br, shift), Add(tr, shift), Add(tl, shift)]
    else [Add(br, shift), Add(bl, shift), Add(tl, shift), Add(tr, shift)]
  }

  method Face(maths: Maths, l: real, d: nat, axis: nat, positive: bool, sky: bool) returns (m: MeshBuffers.Mesh)
    requires d >= 1
    ensures |m.vertices| == |m.texcoords| == (d + 1) * (d + 1) && |m.normals| == 1
    ensures |m.vIndices| == 6 * d * d && InRange(m.vIndices, 0, (d + 1) * (d + 1))
  {
    var c := FaceCorners(l, axis, positive, sky);
    m := PlaneAux(maths, d, c[0], c[1], c[2], c[3]);
  }

  /** box (sky false) and skybox (sky true): the six faces x+, x−, y+,
      y−, z+, z− merged; 6(d+1)² vertices, 6 normals, 36d² indices each
      naming a merged vertex, and face k's entries naming normal k. */
  method Box(maths: Maths, length: real, d: nat, sky: bool) returns (m: MeshBuffers.Mesh)
    requires d >= 1
    ensures |m.vertices| == |m.texcoords| == 6 * ((d + 1) * (d + 1)) && |m.normals| == 6
    ensures |m.vIndices| == 6 * (6 * d * d) && InRange(m.vIndices, 0, |m.vertices|)
    ensures m.vnIndices == FaceNumbers(6, 6 * d * d) && m.vtIndices == m.vIndices
  {
    var xp := Face(maths, length, d, 0, true, sky);
    var xn := Face(maths, length, d, 0, false, sky);
    var yp := Face(maths, length, d, 1, true, sky);
    var yn := Face(maths, length, d, 1, false, sky);
    var zp := Face(maths, length, d, 2, true, sky);
    var zn := Face(maths, length, d, 2, false, sky);
    var faces := [xp, xn, yp, yn, zp, zn];
    m := Merge(faces);
    MergeUniform(faces, (d + 1) * (d + 1), 6 * d * d);
    TexcoordsCount(faces, (d + 1) * (d + 1));
  }

  lemma {:induction false} TexcoordsCount(faces: seq<MeshBuffers.Mesh>, perFace: nat)
    requires forall f :: 0 <= f < |faces| ==> |faces[f].texcoords| == perFace
    ensures |TexcoordsOf(faces)| == |faces| * perFace
    decreases |faces|
  {
    if faces != [] {
      var front := faces[..|faces| - 1];
      assert forall f :: 0 <= f < |front| ==> front[f] == faces[f];
      TexcoordsCount(front, perFace);
      assert (|faces| - 1) * perFace + perFace == |faces| * perFace;
    }
  }

  // ----- sphere and cone -----

  /** The index loops of sphere and cone: per slice the bottom fan, then
      `bands` side cells of which the last (the top triangle) ends the
      slice with a break. */
  method FanLoop(s: Scheme, slices: nat, bands: nat) returns (v: seq<nat>, vn: seq<nat>, vt: seq<nat>)
    ensures v == Cells(s, Positions, slices, bands + 1) && vn == Cells(s, Normals, slices, bands + 1)
    ensures vt == Cells(s, Texcoords, slices, bands + 1)
  {
    v, vn, vt := [], [], [];
    var slice := 0;
    while slice < slices
      invariant slice <= slices
      invariant v == Cells(s, Positions, slice, bands + 1) && vn == Cells(s, Normals, slice, bands + 1)
      invariant vt == Cells(s, Texcoords, slice, bands + 1)
    {
      var rv, rvn, rvt := FanSlice(s, slice, bands);
      v, vn, vt := v + rv, vn + rvn, vt + rvt;
      slice := slice + 1;
    }
  }

  /** One slice of FanLoop. */
  method FanSlice(s: Scheme, slice: nat, bands: nat) returns (v: seq<nat>, vn: seq<nat>, vt: seq<nat>)
    ensures v == CellRow(s, Positions, slice, bands + 1) && vn == CellRow(s, Normals, slice, bands + 1)
    ensures vt == CellRow(s, Texcoords, slice, bands + 1)
  {
    v, vn, vt := Cell(s, Positions, slice, 0), Cell(s, Normals, slice, 0), Cell(s, Texcoords, slice, 0);
    RowPrefixFirst(s, slice);
    var stack := 0;
    while stack < bands
      invariant stack <= bands
      invariant RowPrefix(s, slice, stack + 1, v, vn, vt)
    {
      var j := stack + 1;
      RowPrefixStep(s, slice, j, v, vn, vt);
      v, vn, vt := v + Cell(s, Positions, slice, j), vn + Cell(s, Normals, slice, j), vt + Cell(s, Texcoords, slice, j);
      if stack == bands - 1 {
        break;
      }
      stack := stack + 1;
    }
  }

  /** The three index lists hold the first j cells of row i. */
  predicate RowPrefix(s: Scheme, i: nat, j: nat, v: seq<nat>, vn: seq<nat>, vt: seq<nat>) {
    v == CellRow(s, Positions, i, j) && vn == CellRow(s, Normals, i, j) && vt == CellRow(s, Texcoords, i, j)
  }

  lemma RowPrefixFirst(s: Scheme, i: nat)
    ensures RowPrefix(s, i, 1, Cell(s, Positions, i, 0), Cell(s, Normals, i, 0), Cell(s, Texcoords, i, 0))
  {
    assert [] + Cell(s, Positions, i, 0) == Cell(s, Positions, i, 0);
    assert [] + Cell(s, Normals, i, 0) == Cell(s, Normals, i, 0);
    assert [] + Cell(s, Texcoords, i, 0) == Cell(s, Texcoords, i, 0);
  }

  lemma RowPrefixStep(s: Scheme, i: nat, j: nat, v: seq<nat>, vn: seq<nat>, vt: seq<nat>)
    requires RowPrefix(s, i, j, v, vn, vt)
    ensures RowPrefix(s, i, j + 1, v + Cell(s, Positions, i, j), vn + Cell(s, Normals, i, j), vt + Cell(s, Texcoords, i, j))
  {
  }

  /** genVerts::cartesian: the point at `radius` in the direction given by
      pitch and yaw (both in radians, whatever the parameter names say). */
  function SurfacePoint(maths: Maths, pitch: real, yaw: real, radius: real): Vec3 {
    Scale(radius, Vec3(maths.cos(pitch) * maths.sin(yaw), maths.sin(pitch), maths.cos(pitch) * maths.cos(yaw)))
  }

  /** The sphere point of slice `slice`, stack `stack`: pitch from −90° in
      steps of 180/stacks, yaw in steps of 360/slices. */
  function SpherePoint(maths: Maths, radius: real, stacks: nat, slices: nat, slice: nat, stack: nat): Vec3
    requires stacks >= 1 && slices >= 1
  {
    var pitch := Radians(-90.0 + (stack as real) * (180.0 / (stacks as real)));
    var yaw := Radians((slice as real) * (360.0 / (slices as real)));
    SurfacePoint(maths, pitch, yaw, radius)
  }

  function SphereTexcoord(stacks: nat, slices: nat, slice: nat, stack: nat): Vec2
    requires stacks >= 1 && slices >= 1
  {
    Vec2((slice as real) / (slices as real), (stack as real) / (stacks as real))
  }

  /** Ring point (i, j) of the vertex loop: slice i, stack j + 1 (the
      stacks of the poles, 0 and `stacks`, are not in the rings). */
  function RingPoint(maths: Maths, radius: real, stacks: nat, slices: nat, i: nat, j: nat): Vec3 {
    if stacks >= 1 && slices >= 1 then SpherePoint(maths, radius, stacks, slices, i, j + 1) else Origin
  }

  function RingTexcoord(stacks: nat, slices: nat, i: nat, j: nat): Vec2 {
    if stacks >= 1 && slices >= 1 then SphereTexcoord(stacks, slices, i, j + 1) else Vec2(0.0, 0.0)
  }

  /** The generators of the ring part of sphere's vertex loop. */
  function RingPoints(maths: Maths, radius: real, stacks: nat, slices: nat): (nat, nat) -> Vec3 {
    (i: nat, j: nat) => RingPoint(maths, radius, stacks, slices, i, j)
  }

  function RingTexcoords(stacks: nat, slices: nat): (nat, nat) -> Vec2 {
    (i: nat, j: nat) => RingTexcoord(stacks, slices, i, j)
  }

  /** The sphere's vertices, normals and texture coordinates: the two
      poles, then the rings in loop order. */
  function SphereVertexList(maths: Maths, radius: real, stacks: nat, slices: nat): (r: seq<Vec3>)
    requires stacks >= 1
    ensures |r| == 2 + (slices + 1) * (stacks - 1)
  {
    [Vec3(0.0, -radius, 0.0), Vec3(0.0, radius, 0.0)] + Lattice(slices + 1, stacks - 1, RingPoints(maths, radius, stacks, slices))
  }

  function SphereNormalList(maths: Maths, stacks: nat, slices: nat): (r: seq<Vec3>)
    requires stacks >= 1
    ensures |r| == 2 + (slices + 1) * (stacks - 1)
  {
    [Vec3(0.0, -1.0, 0.0), Vec3(0.0, 1.0, 0.0)] + Lattice(slices + 1, stacks - 1, RingPoints(maths, 1.0, stacks, slices))
  }

  function SphereTexcoordList(stacks: nat, slices: nat): (r: seq<Vec2>)
    requires stacks >= 1
    ensures |r| == 2 + (slices + 1) * (stacks - 1)
  {
    [Vec2(0.5, 0.0), Vec2(0.5, 1.0)] + Lattice(slices + 1, stacks - 1, RingTexcoords(stacks, slices))
  }

  /** Ring point (i, j) sits after the poles at i·(stacks − 1) + j, with its
      normal and texture coordinate at the same place. */
  lemma SphereVertexAt(maths: Maths, radius: real, stacks: nat, slices: nat, i: nat, j: nat)
    requires stacks >= 1 && i <= slices && j < stacks - 1
    ensures var k := 2 + GridIndex(slices + 1, stacks - 1, i, j);
      SphereVertexList(maths, radius, stacks, slices)[k] == RingPoint(maths, radius, stacks, slices, i, j)
      && SphereNormalList(maths, stacks, slices)[k] == RingPoint(maths, 1.0, stacks, slices, i, j)
      && SphereTexcoordList(stacks, slices)[k] == RingTexcoord(stacks, slices, i, j)
  {
    PrefixedLatticeAt([Vec3(0.0, -radius, 0.0), Vec3(0.0, radius, 0.0)], slices + 1, stacks - 1, RingPoints(maths, radius, stacks, slices), i, j);
    PrefixedLatticeAt([Vec3(0.0, -1.0, 0.0), Vec3(0.0, 1.0, 0.0)], slices + 1, stacks - 1, RingPoints(maths, 1.0, stacks, slices), i, j);
    PrefixedLatticeAt([Vec2(0.5, 0.0), Vec2(0.5, 1.0)], slices + 1, stacks - 1, RingTexcoords(stacks, slices), i, j);
  }

  /** Every vertex of the sphere, poles included, is its normal scaled by
      the radius. */
  lemma SphereScaled(maths: Maths, radius: real, stacks: nat, slices: nat)
    requires stacks >= 1 && slices >= 1
    ensures var vs, ns := SphereVertexList(maths, radius, stacks, slices), SphereNormalList(maths, stacks, slices);
      forall k :: 0 <= k < |vs| ==> vs[k] == Scale(radius, ns[k])
  {
    var pos, nrm := RingPoints(maths, radius, stacks, slices), RingPoints(maths, 1.0, stacks, slices);
    forall i: nat, j: nat ensures pos(i, j) == Scale(radius, nrm(i, j)) {
      SurfaceScaled(maths, radius, stacks, slices, i, j + 1);
    }
    LatticeScaled(slices + 1, stacks - 1, pos, nrm, radius);
    var vs, ns := SphereVertexList(maths, radius, stacks, slices), SphereNormalList(maths, stacks, slices);
    forall k | 0 <= k < |vs| ensures vs[k] == Scale(radius, ns[k]) {
      if k >= 2 {
        assert vs[k] == Lattice(slices + 1, stacks - 1, pos)[k - 2];
        assert ns[k] == Lattice(slices + 1, stacks - 1, nrm)[k - 2];
      }
    }
  }

  /** The vertex loop of sphere. */
  method SphereVertices(maths: Maths, radius: real, stacks: nat, slices: nat)
    returns (vertices: seq<Vec3>, normals: seq<Vec3>, texcoords: seq<Vec2>)
    requires stacks >= 1 && slices >= 1
    ensures vertices == SphereVertexList(maths, radius, stacks, slices)
    ensures normals == SphereNormalList(maths, stacks, slices)
    ensures texcoords == SphereTexcoordList(stacks, slices)
  {
    var vs, ns, ts := Grid(slices + 1, stacks - 1, RingPoints(maths, radius, stacks, slices),
      RingPoints(maths, 1.0, stacks, slices), RingTexcoords(stacks, slices), true);
    vertices := [Vec3(0.0, -radius, 0.0), Vec3(0.0, radius, 0.0)] + vs;
    normals := [Vec3(0.0, -1.0, 0.0), Vec3(0.0, 1.0, 0.0)] + ns;
    texcoords := [Vec2(0.5, 0.0), Vec2(0.5, 1.0)] + ts;
  }

  /** sphere: its vertices, and the sphere's cells in all three index
      lists; with two or more stacks every index names a vertex. */
  method Sphere(maths: Maths, radius: real, stacks: nat, slices: nat) returns (m: MeshBuffers.Mesh)
    requires stacks >= 1 && slices >= 1
    ensures m.vertices == SphereVertexList(maths, radius, stacks, slices)
    ensures m.normals == SphereNormalList(maths, stacks, slices) && m.texcoords == SphereTexcoordList(stacks, slices)
    ensures |m.vertices| == |m.normals| == |m.texcoords| == 2 + (slices + 1) * (stacks - 1)
    ensures forall k :: 0 <= k < |m.vertices| ==> m.vertices[k] == Scale(radius, m.normals[k])
    ensures m.vIndices == Cells(SphereCells(stacks), Positions, slices, stacks)
    ensures m.vnIndices == m.vIndices && m.vtIndices == m.vIndices
    ensures stacks >= 2 ==> |m.vIndices| == 6 * slices * (stacks - 1) && InRange(m.vIndices, 0, |m.vertices|)
  {
    var vertices, normals, texcoords := SphereVertices(maths, radius, stacks, slices);
    SphereScaled(maths, radius, stacks, slices);
    var v, vn, vt := FanLoop(SphereCells(stacks), slices, stacks - 1);
    CellsAgree(SphereCells(stacks), Normals, Positions, slices, stacks);
    CellsAgree(SphereCells(stacks), Texcoords, Positions, slices, stacks);
    if stacks >= 2 {
      SphereIndices(stacks, slices);
    }
    m := MeshBuffers.MeshOf(vertices, normals, texcoords, v, vn, vt);
  }

  /** Cone ring point (i, j): slice i, stack j, at height v·height and
      radius radius·(1 − v) where v = j/stacks. */
  function ConePoint(maths: Maths, radius: real, height: real, stacks: nat, slices: nat, i: nat, j: nat): Vec3 {
    if stacks >= 1 && slices >= 1 then
      var v, u := (j as real) / (stacks as real), (i as real) / (slices as real);
      var yaw := Radians(360.0 * u);
      var r := radius * (1.0 - v);
      Vec3(r * maths.sin(yaw), v * height, r * maths.cos(yaw))
    else Origin
  }

  /** Its normal: the slope radius/height leans the horizontal direction up. */
  function ConeNormal(maths: Maths, radius: real, height: real, stacks: nat, slices: nat, i: nat, j: nat): Vec3 {
    if stacks >= 1 && slices >= 1 && height != 0.0 then
      var yaw := Radians(360.0 * ((i as real) / (slices as real)));
      maths.normalize(Vec3(maths.sin(yaw), radius / height, maths.cos(yaw)))
    else Origin
  }

  function ConeTexcoord(stacks: nat, slices: nat, i: nat, j: nat): Vec2 {
    if stacks >= 1 && slices >= 1 then Vec2((i as real) / (slices as real), (j as real) / (stacks as real)) else Vec2(0.0, 0.0)
  }

  function ConePoints(maths: Maths, radius: real, height: real, stacks: nat, slices: nat): (nat, nat) -> Vec3 {
    (i: nat, j: nat) => ConePoint(maths, radius, height, stacks, slices, i, j)
  }

  function ConeNormals(maths: Maths, radius: real, height: real, stacks: nat, slices: nat): (nat, nat) -> Vec3 {
    (i: nat, j: nat) => ConeNormal(maths, radius, height, stacks, slices, i, j)
  }

  function ConeTexcoords(stacks: nat, slices: nat): (nat, nat) -> Vec2 {
    (i: nat, j: nat) => ConeTexcoord(stacks, slices, i, j)
  }

  /** The cone's vertices: the centre of the base, the apex, then the
      rings in loop order. */
  function ConeVertexList(maths: Maths, radius: real, height: real, stacks: nat, slices: nat): (r: seq<Vec3>)
    ensures |r| == 2 + (slices + 1) * stacks
  {
    [Origin, Vec3(0.0, height, 0.0)] + Lattice(slices + 1, stacks, ConePoints(maths, radius, height, stacks, slices))
  }

  function ConeNormalList(maths: Maths, radius: real, height: real, stacks: nat, slices: nat): (r: seq<Vec3>)
    ensures |r| == 2 + (slices + 1) * stacks
  {
    [Vec3(0.0, -1.0, 0.0), Vec3(0.0, 1.0, 0.0)] + Lattice(slices + 1, stacks, ConeNormals(maths, radius, height, stacks, slices))
  }

  /** The engine puts the base's texture coordinate at (0.5, 1); the
      generator at (0.5, 0). */
  function ConeTexcoordList(stacks: nat, slices: nat, generator: bool): (r: seq<Vec2>)
    ensures |r| == 2 + (slices + 1) * stacks
  {
    [Vec2(0.5, if generator then 0.0 else 1.0), Vec2(0.5, 1.0)] + Lattice(slices + 1, stacks, ConeTexcoords(stacks, slices))
  }

  /** Ring point (i, j) sits after the base centre and the apex at
      i·stacks + j, with its normal at the same place. */
  lemma ConeVertexAt(maths: Maths, radius: real, height: real, stacks: nat, slices: nat, i: nat, j: nat)
    requires i <= slices && j < stacks
    ensures var k := 2 + GridIndex(slices + 1, stacks, i, j);
      ConeVertexList(maths, radius, height, stacks, slices)[k] == ConePoint(maths, radius, height, stacks, slices, i, j)
      && ConeNormalList(maths, radius, height, stacks, slices)[k] == ConeNormal(maths, radius, height, stacks, slices, i, j)
  {
    PrefixedLatticeAt([Origin, Vec3(0.0, height, 0.0)], slices + 1, stacks, ConePoints(maths, radius, height, stacks, slices), i, j);
    PrefixedLatticeAt([Vec3(0.0, -1.0, 0.0), Vec3(0.0, 1.0, 0.0)], slices + 1, stacks, ConeNormals(maths, radius, height, stacks, slices), i, j);
  }

  /** Every ring point lies on the cone: at height h its distance from the
      axis is radius·(1 − h/height), along its slice's yaw. */
  lemma ConeOnSurface(maths: Maths, radius: real, height: real, stacks: nat, slices: nat, i: nat, j: nat)
    requires stacks >= 1 && slices >= 1 && height != 0.0
    ensures var p := ConePoint(maths, radius, height, stacks, slices, i, j);
      var yaw := Radians(360.0 * ((i as real) / (slices as real)));
      p.y == (j as real) / (stacks as real) * height
      && p.x == radius * (1.0 - p.y / height) * maths.sin(yaw)
      && p.z == radius * (1.0 - p.y / height) * maths.cos(yaw)
  {
    var v := (j as real) / (stacks as real);
    assert v * height / height == v;
  }

  /** The vertex loop of cone. */
  method ConeVertices(maths: Maths, radius: real, height: real, stacks: nat, slices: nat, generator: bool)
    returns (vertices: seq<Vec3>, normals: seq<Vec3>, texcoords: seq<Vec2>)
    ensures vertices == ConeVertexList(maths, radius, height, stacks, slices)
    ensures normals == ConeNormalList(maths, radius, height, stacks, slices)
    ensures texcoords == ConeTexcoordList(stacks, slices, generator)
  {
    var vs, ns, ts := Grid(slices + 1, stacks, ConePoints(maths, radius, height, stacks, slices),
      ConeNormals(maths, radius, height, stacks, slices), ConeTexcoords(stacks, slices), true);
    vertices := [Origin, Vec3(0.0, height, 0.0)] + vs;
    normals := [Vec3(0.0, -1.0, 0.0), Vec3(0.0, 1.0, 0.0)] + ns;
    texcoords := [Vec2(0.5, if generator then 0.0 else 1.0), Vec2(0.5, 1.0)] + ts;
  }

  /** cone (engine) and cone (generator, `generator` true): its vertices,
      and the cone's cells; 6·slices·stacks entries per index list, every
      vertex and normal index naming a vertex and a normal, the base fan's
      normals all the base normal, and the generator's base fan taking its
      first texture coordinate from the apex. */
  method Cone(maths: Maths, radius: real, height: real, slices: nat, stacks: nat, generator: bool) returns (m: MeshBuffers.Mesh)
    requires stacks >= 1 && slices >= 1
    ensures m.vertices == ConeVertexList(maths, radius, height, stacks, slices)
    ensures m.normals == ConeNormalList(maths, radius, height, stacks, slices)
    ensures m.texcoords == ConeTexcoordList(stacks, slices, generator)
    ensures m.vIndices == Cells(ConeCells(stacks, generator), Positions, slices, stacks + 1)
    ensures m.vnIndices == Cells(ConeCells(stacks, generator), Normals, slices, stacks + 1)
    ensures m.vtIndices == Cells(ConeCells(stacks, generator), Texcoords, slices, stacks + 1)
    ensures |m.vIndices| == |m.vnIndices| == 6 * slices * stacks
    ensures InRange(m.vIndices, 0, |m.vertices|) && InRange(m.vnIndices, 0, |m.normals|)
  {
    var vertices, normals, texcoords := ConeVertices(maths, radius, height, stacks, slices, generator);
    var v, vn, vt := FanLoop(ConeCells(stacks, generator), slices, stacks);
    ConeIndices(stacks, slices, generator);
    m := MeshBuffers.MeshOf(vertices, normals, texcoords, v, vn, vt);
  }

  // ----- tube -----

  datatype TubeShape = TubeShape(iradius: real, oradius: real, height: real, slices: nat)

  /** Slice `slice` of the tube: the yaw, its sine and cosine, and u. */
  function TubeYaw(t: TubeShape, slice: nat): real
    requires t.slices >= 1
  {
    (slice as real) * Radians(360.0 / (t.slices as real))
  }

  /** The 8 vertices one slice pushes: outer wall bottom and top, inner
      wall bottom and top, top cap outer and inner, bottom cap outer and
      inner. */
  function TubeSliceVertices(maths: Maths, t: TubeShape, slice: nat): (r: seq<Vec3>)
    requires t.slices >= 1
    ensures |r| == 8
  {
    var h2 := t.height / 2.0;
    var ob, ot := TubeRim(maths, t, slice, t.oradius, -h2), TubeRim(maths, t, slice, t.oradius, h2);
    var ib, it := TubeRim(maths, t, slice, t.iradius, -h2), TubeRim(maths, t, slice, t.iradius, h2);
    [ob, ot, ib, it, ot, it, ob, ib]
  }

  /** The point of slice `slice` at distance `radius` from the axis and height `y`. */
  function TubeRim(maths: Maths, t: TubeShape, slice: nat, radius: real, y: real): Vec3
    requires t.slices >= 1
  {
    Vec3(radius * maths.sin(TubeYaw(t, slice)), y, radius * maths.cos(TubeYaw(t, slice)))
  }

  /** Its 4 normals: outwards, inwards, up, down. */
  function TubeSliceNormals(maths: Maths, t: TubeShape, slice: nat): (r: seq<Vec3>)
    requires t.slices >= 1
    ensures |r| == 4
  {
    var sy, cy := maths.sin(TubeYaw(t, slice)), maths.cos(TubeYaw(t, slice));
    [Vec3(sy, 0.0, cy), Vec3(-sy, 0.0, -cy), Vec3(0.0, 1.0, 0.0), Vec3(0.0, -1.0, 0.0)]
  }

  function TubeSliceTexcoords(t: TubeShape, slice: nat): (r: seq<Vec2>)
    requires t.slices >= 1
    ensures |r| == 8
  {
    var u := (slice as real) / (t.slices as real);
    [Vec2(u, 0.0), Vec2(u, 1.0), Vec2(1.0 - u, 0.0), Vec2(1.0 - u, 1.0),
     Vec2(u, 0.0), Vec2(u, 1.0), Vec2(1.0 - u, 0.0), Vec2(1.0 - u, 1.0)]
  }

  function TubeVertexList(maths: Maths, t: TubeShape, n: nat): (r: seq<Vec3>)
    requires t.slices >= 1
    ensures |r| == 8 * n
  {
    if n == 0 then [] else TubeVertexList(maths, t, n - 1) + TubeSliceVertices(maths, t, n - 1)
  }

  function TubeNormalList(maths: Maths, t: TubeShape, n: nat): (r: seq<Vec3>)
    requires t.slices >= 1
    ensures |r| == 4 * n
  {
    if n == 0 then [] else TubeNormalList(maths, t, n - 1) + TubeSliceNormals(maths, t, n - 1)
  }

  function TubeTexcoordList(t: TubeShape, n: nat): (r: seq<Vec2>)
    requires t.slices >= 1
    ensures |r| == 8 * n
  {
    if n == 0 then [] else TubeTexcoordList(t, n - 1) + TubeSliceTexcoords(t, n - 1)
  }

  /** Vertex k of slice s is at 8s + k. */
  lemma {:induction false} TubeVertexAt(maths: Maths, t: TubeShape, n: nat, s: nat, k: nat)
    requires t.slices >= 1 && s < n && k < 8
    ensures TubeVertexList(maths, t, n)[8 * s + k] == TubeSliceVertices(maths, t, s)[k]
    decreases n
  {
    if s < n - 1 {
      TubeVertexAt(maths, t, n - 1, s, k);
    }
  }

  /** The caps share the walls' rims: the top cap's vertices are the tops
      of the outer and inner walls, the bottom cap's their bottoms; the
      inner wall's normal is the outer wall's reversed. */
  lemma TubeCapsMeetWalls(maths: Maths, t: TubeShape, n: nat, s: nat)
    requires t.slices >= 1 && s < n
    ensures var vs := TubeVertexList(maths, t, n);
      vs[8 * s + 4] == vs[8 * s + 1] && vs[8 * s + 5] == vs[8 * s + 3]
      && vs[8 * s + 6] == vs[8 * s] && vs[8 * s + 7] == vs[8 * s + 2]
    ensures var ns := TubeSliceNormals(maths, t, s); ns[1] == Neg(ns[0])
  {
    TubeVertexAt(maths, t, n, s, 0);
    TubeVertexAt(maths, t, n, s, 1);
    TubeVertexAt(maths, t, n, s, 2);
    TubeVertexAt(maths, t, n, s, 3);
    TubeVertexAt(maths, t, n, s, 4);
    TubeVertexAt(maths, t, n, s, 5);
    TubeVertexAt(maths, t, n, s, 6);
    TubeVertexAt(maths, t, n, s, 7);
  }

  /** The vertex loop of tube. */
  method TubeVertices(maths: Maths, t: TubeShape) returns (vertices: seq<Vec3>, normals: seq<Vec3>, texcoords: seq<Vec2>)
    requires t.slices >= 1
    ensures vertices == TubeVertexList(maths, t, t.slices + 1)
    ensures normals == TubeNormalList(maths, t, t.slices + 1)
    ensures texcoords == TubeTexcoordList(t, t.slices + 1)
  {
    vertices, normals, texcoords := [], [], [];
    var h2 := t.height / 2.0;
    var slice := 0;
    while slice <= t.slices
      invariant slice <= t.slices + 1
      invariant vertices == TubeVertexList(maths, t, slice) && normals == TubeNormalList(maths, t, slice)
      invariant texcoords == TubeTexcoordList(t, slice)
    {
      ghost var vertices0, normals0, texcoords0 := vertices, normals, texcoords;
      var u := (slice as real) / (t.slices as real);
      var yaw := TubeYaw(t, slice);
      var sy, cy := maths.sin(yaw), maths.cos(yaw);
      var ob, ot := TubeRim(maths, t, slice, t.oradius, -h2), TubeRim(maths, t, slice, t.oradius, h2);
      var ib, it := TubeRim(maths, t, slice, t.iradius, -h2), TubeRim(maths, t, slice, t.iradius, h2);
      // outer wall
      vertices := vertices + [ob, ot];
      normals := normals + [Vec3(sy, 0.0, cy)];
      texcoords := texcoords + [Vec2(u, 0.0), Vec2(u, 1.0)];
      // inner wall
      vertices := vertices + [ib, it];
      normals := normals + [Vec3(-sy, 0.0, -cy)];
      texcoords := texcoords + [Vec2(1.0 - u, 0.0), Vec2(1.0 - u, 1.0)];
      // top cap
      vertices := vertices + [ot, it];
      normals := normals + [Vec3(0.0, 1.0, 0.0)];
      texcoords := texcoords + [Vec2(u, 0.0), Vec2(u, 1.0)];
      // bottom cap
      vertices := vertices + [ob, ib];
      normals := normals + [Vec3(0.0, -1.0, 0.0)];
      texcoords := texcoords + [Vec2(1.0 - u, 0.0), Vec2(1.0 - u, 1.0)];
      assert TubeSliceVertices(maths, t, slice) == [ob, ot, ib, it, ot, it, ob, ib];
      assert vertices == vertices0 + [ob, ot, ib, it, ot, it, ob, ib];
      assert normals == normals0 + TubeSliceNormals(maths, t, slice);
      assert texcoords == texcoords0 + TubeSliceTexcoords(t, slice);
      slice := slice + 1;
    }
  }

  /** The index loop of tube: four cells per slice. */
  method TubeIndexLoop(slices: nat) returns (v: seq<nat>, vn: seq<nat>, vt: seq<nat>)
    ensures v == Cells(TubeCells, Positions, slices, 4) && vn == Cells(TubeCells, Normals, slices, 4)
    ensures vt == Cells(TubeCells, Texcoords, slices, 4)
  {
    v, vn, vt := [], [], [];
    var slice := 0;
    while slice < slices
      invariant slice <= slices
      invariant v == Cells(TubeCells, Positions, slice, 4) && vn == Cells(TubeCells, Normals, slice, 4)
      invariant vt == Cells(TubeCells, Texcoords, slice, 4)
    {
      var rv, rvn, rvt := TubeSlice(slice);
      v, vn, vt := v + rv, vn + rvn, vt + rvt;
      slice := slice + 1;
    }
  }

  /** One slice of the index loop: outer wall, inner wall, top cap, bottom cap. */
  method TubeSlice(slice: nat) returns (v: seq<nat>, vn: seq<nat>, vt: seq<nat>)
    ensures v == CellRow(TubeCells, Positions, slice, 4) && vn == CellRow(TubeCells, Normals, slice, 4)
    ensures vt == CellRow(TubeCells, Texcoords, slice, 4)
  {
    v := TubeCell(Positions, slice, 0) + TubeCell(Positions, slice, 1) + TubeCell(Positions, slice, 2) + TubeCell(Positions, slice, 3);
    vn := TubeCell(Normals, slice, 0) + TubeCell(Normals, slice, 1) + TubeCell(Normals, slice, 2) + TubeCell(Normals, slice, 3);
    vt := TubeCell(Texcoords, slice, 0) + TubeCell(Texcoords, slice, 1) + TubeCell(Texcoords, slice, 2) + TubeCell(Texcoords, slice, 3);
    TubeRow(Positions, slice);
    TubeRow(Normals, slice);
    TubeRow(Texcoords, slice);
  }

  lemma TubeRow(ch: Channel, slice: nat)
    ensures CellRow(TubeCells, ch, slice, 4)
      == TubeCell(ch, slice, 0) + TubeCell(ch, slice, 1) + TubeCell(ch, slice, 2) + TubeCell(ch, slice, 3)
  {
    assert CellRow(TubeCells, ch, slice, 1) == TubeCell(ch, slice, 0);
    assert CellRow(TubeCells, ch, slice, 2) == TubeCell(ch, slice, 0) + TubeCell(ch, slice, 1);
    assert CellRow(TubeCells, ch, slice, 3) == TubeCell(ch, slice, 0) + TubeCell(ch, slice, 1) + TubeCell(ch, slice, 2);
  }

  /** tube: 8 vertices and 4 normals per slice boundary, 24 entries per
      slice in each index list, every index naming an existing vertex or
      normal, texture indices equal to vertex indices. */
  method Tube(maths: Maths, iradius: real, oradius: real, height: real, slices: nat) returns (m: MeshBuffers.Mesh)
    requires slices >= 1
    ensures var t := TubeShape(iradius, oradius, height, slices);
      m.vertices == TubeVertexList(maths, t, slices + 1) && m.normals == TubeNormalList(maths, t, slices + 1)
      && m.texcoords == TubeTexcoordList(t, slices + 1)
    ensures m.vIndices == Cells(TubeCells, Positions, slices, 4) && m.vnIndices == Cells(TubeCells, Normals, slices, 4)
    ensures |m.vIndices| == |m.vnIndices| == 24 * slices && m.vtIndices == m.vIndices
    ensures InRange(m.vIndices, 0, |m.vertices|) && InRange(m.vnIndices, 0, |m.normals|)
  {
    var t := TubeShape(iradius, oradius, height, slices);
    var vertices, normals, texcoords := TubeVertices(maths, t);
    var v, vn, vt := TubeIndexLoop(slices);
    TubeIndices(slices);
    m := MeshBuffers.MeshOf(vertices, normals, texcoords, v, vn, vt);
  }

  // ----- bezier -----

  /** readBezierFile with transposition: index j of a patch as read goes
      to slot (j mod 4)·4 + j div 4, swapping the rows and columns of the
      4×4 control grid. */
  function TransposedSlot(j: nat): (k: nat)
    requires j < 16
    ensures k < 16
  {
    (j % 4) * 4 + j / 4
  }

  /** Transposing twice gives the slot back, so no two indices share a slot. */
  lemma TransposedSlotInvolution(j: nat)
    requires j < 16
    ensures TransposedSlot(TransposedSlot(j)) == j
  {
    var r, c := j / 4, j % 4;
    assert j == r * 4 + c;
    assert TransposedSlot(j) == c * 4 + r;
  }

  function Transposed(patch: seq<nat>): (r: seq<nat>)
    requires |patch| == 16
    ensures |r| == 16
  {
    seq(16, k requires 0 <= k < 16 => patch[TransposedSlot(k)])
  }

  lemma TransposedTwice(patch: seq<nat>)
    requires |patch| == 16
    ensures Transposed(Transposed(patch)) == patch
  {
    forall k | 0 <= k < 16 ensures Transposed(Transposed(patch))[k] == patch[k] {
      TransposedSlotInvolution(k);
    }
  }

  /** A bezier file once its numbers are read: the patches' control-point
      indices, 16 per patch in file order, and the control points. */
  datatype BezierInput = BezierInput(patches: seq<seq<nat>>, controlPoints: seq<Vec3>)

  predicate Sixteen(patches: seq<seq<nat>>) {
    forall p :: 0 <= p < |patches| ==> |patches[p]| == 16
  }

  /** Every index names a control point. */
  predicate WellIndexed(b: BezierInput) {
    Sixteen(b.patches)
    && forall p, k :: 0 <= p < |b.patches| && 0 <= k < 16 ==> b.patches[p][k] < |b.controlPoints|
  }

  /** The file with every patch transposed. Transposition only moves
      indices between slots, so every index still names a control point. */
  function TransposedInput(input: BezierInput): (r: BezierInput)
    requires Sixteen(input.patches)
    ensures |r.patches| == |input.patches| && r.controlPoints == input.controlPoints
    ensures WellIndexed(input) ==> WellIndexed(r)
  {
    BezierInput(seq(|input.patches|, p requires 0 <= p < |input.patches| => Transposed(input.patches[p])), input.controlPoints)
  }

  /** The patch loop of readBezierFile: each patch's 16 indices placed in
      their (possibly transposed) slots of a fresh 16-entry vector. */
  method ReadPatches(raw: seq<seq<nat>>, transpose: bool) returns (patches: seq<seq<nat>>)
    requires Sixteen(raw)
    ensures |patches| == |raw|
    ensures forall p :: 0 <= p < |raw| ==> patches[p] == if transpose then Transposed(raw[p]) else raw[p]
  {
    patches := [];
    var i := 0;
    while i < |raw|
      invariant i <= |raw| && |patches| == i
      invariant forall p :: 0 <= p < i ==> patches[p] == if transpose then Transposed(raw[p]) else raw[p]
    {
      var slots := PlacePatch(raw[i], transpose);
      patches := patches + [slots];
      i := i + 1;
    }
  }

  /** One patch: its 16 indices placed in their (possibly transposed)
      slots of a fresh 16-entry vector. */
  method PlacePatch(patch: seq<nat>, transpose: bool) returns (placed: seq<nat>)
    requires |patch| == 16
    ensures placed == if transpose then Transposed(patch) else patch
  {
    var slots := new nat[16](_ => 0);
    var j := 0;
    while j < 16
      invariant j <= 16
      invariant forall q :: 0 <= q < j ==> slots[if transpose then TransposedSlot(q) else q] == patch[q]
    {
      var slot := if transpose then TransposedSlot(j) else j;
      forall q | 0 <= q < j ensures (if transpose then TransposedSlot(q) else q) != slot {
        TransposedSlotInvolution(q);
        TransposedSlotInvolution(j);
      }
      slots[slot] := patch[j];
      j := j + 1;
    }
    forall k | 0 <= k < 16 ensures slots[k] == (if transpose then Transposed(patch) else patch)[k] {
      TransposedSlotInvolution(k);
    }
    placed := slots[..];
  }

  /** readBezierFile: a file that cannot be opened gives no patches and no
      control points; otherwise the patches transposed and the control
      points as read. Transposition keeps every index naming a control
      point. */
  method ReadBezierFile(file: Option<BezierInput>) returns (b: BezierInput)
    requires file.Some? ==> Sixteen(file.value.patches)
    ensures file.None? ==> b == BezierInput([], [])
    ensures file.Some? ==> b == TransposedInput(file.value)
  {
    if file.None? {
      return BezierInput([], []);
    }
    var patches := ReadPatches(file.value.patches, true);
    b := BezierInput(patches, file.value.controlPoints);
  }

  /** The 16 control points of patch p. */
  function ControlPoints(b: BezierInput, p: nat): (cps: seq<Vec3>)
    requires WellIndexed(b) && p < |b.patches|
    ensures |cps| == 16
  {
    seq(16, k requires 0 <= k < 16 => b.controlPoints[b.patches[p][k]])
  }

  /** The control-point loop of bezier. */
  method LoadControlPoints(b: BezierInput, p: nat) returns (cps: seq<Vec3>)
    requires WellIndexed(b) && p < |b.patches|
    ensures cps == ControlPoints(b, p)
  {
    cps := [];
    var k := 0;
    while k < 16
      invariant k <= 16 && |cps| == k
      invariant forall q :: 0 <= q < k ==> cps[q] == b.controlPoints[b.patches[p][q]]
    {
      cps := cps + [b.controlPoints[b.patches[p][k]]];
      k := k + 1;
    }
  }

  function PatchSize(tess: nat): nat { (tess + 1) * (tess + 1) }

  /** Grid point (u, v) of a patch tessellated `tess` times: the surface at
      (u/tess, v/tess), its normal, and the texture coordinate
      (1 − u/tess, 1 − v/tess). */
  function PatchPoints(maths: Maths, p: BezierPatch.Patch, tess: nat): (nat, nat) -> Vec3 {
    (u: nat, v: nat) => if tess == 0 then Origin else BezierPatch.Evaluate(maths, p, (u as real) / (tess as real), (v as real) / (tess as real)).pos
  }

  function PatchNormals(maths: Maths, p: BezierPatch.Patch, tess: nat): (nat, nat) -> Vec3 {
    (u: nat, v: nat) => if tess == 0 then Origin else BezierPatch.Evaluate(maths, p, (u as real) / (tess as real), (v as real) / (tess as real)).normal
  }

  function PatchTexcoords(tess: nat): (nat, nat) -> Vec2 {
    (u: nat, v: nat) => if tess == 0 then Vec2(0.0, 0.0) else Vec2(1.0 - (u as real) / (tess as real), 1.0 - (v as real) / (tess as real))
  }

  /** The flat normal of quad (u, v) of the patch starting at `offset`:
      the normal of its first triangle (v00, v10, v11). */
  function QuadNormal(maths: Maths, vertices: seq<Vec3>, tess: nat, offset: nat, u: nat, v: nat): Vec3
    requires offset + PatchSize(tess) <= |vertices| && u < tess && v < tess
  {
    var q := Quad(tess + 1, offset, u, v);
    QuadInPatch(tess, offset, u, v);
    VNormal(maths, vertices[q[0]], vertices[q[1]], vertices[q[2]], true)
  }

  lemma QuadInPatch(tess: nat, offset: nat, u: nat, v: nat)
    requires u < tess && v < tess
    ensures var q := Quad(tess + 1, offset, u, v);
      q[0] < q[1] < q[2] < offset + PatchSize(tess)
  {
    MulLe(u + 1, tess, tess + 1);
  }

  function FlatNormalRow(maths: Maths, vertices: seq<Vec3>, tess: nat, offset: nat, u: nat, cols: nat): (r: seq<Vec3>)
    requires offset + PatchSize(tess) <= |vertices| && u < tess && cols <= tess
    ensures |r| == cols
  {
    if cols == 0 then [] else FlatNormalRow(maths, vertices, tess, offset, u, cols - 1) + [QuadNormal(maths, vertices, tess, offset, u, cols - 1)]
  }

  /** The flat normals of a patch's quads, in loop order. */
  function FlatNormals(maths: Maths, vertices: seq<Vec3>, tess: nat, offset: nat, rows: nat): (r: seq<Vec3>)
    requires offset + PatchSize(tess) <= |vertices| && rows <= tess
    ensures |r| == rows * tess
  {
    if rows == 0 then [] else FlatNormals(maths, vertices, tess, offset, rows - 1) + FlatNormalRow(maths, vertices, tess, offset, rows - 1, tess)
  }

  /** One row of bezier's index loop. */
  method BezierQuadRow(maths: Maths, vertices: seq<Vec3>, normals: seq<Vec3>, tess: nat, offset: nat, normalBase: nat, smooth: bool, u: nat)
    returns (v: seq<nat>, vn: seq<nat>, vt: seq<nat>, normalsOut: seq<Vec3>)
    requires offset + PatchSize(tess) <= |vertices| && u < tess
    requires !smooth ==> |normals| == normalBase + u * tess
    ensures var s := BezierCells(tess, offset, normalBase, smooth);
      v == CellRow(s, Positions, u, tess) && vn == CellRow(s, Normals, u, tess) && vt == CellRow(s, Texcoords, u, tess)
    ensures normalsOut == normals + if smooth then [] else FlatNormalRow(maths, vertices, tess, offset, u, tess)
  {
    v, vn, vt, normalsOut := [], [], [], normals;
    var w := 0;
    while w < tess
      invariant w <= tess
      invariant RowSoFar(maths, vertices, normals, tess, offset, normalBase, smooth, u, w, v, vn, vt, normalsOut)
    {
      v, vn, vt, normalsOut := BezierQuadStep(maths, vertices, normals, tess, offset, normalBase, smooth, u, w, v, vn, vt, normalsOut);
      w := w + 1;
    }
  }

  /** What bezier's inner index loop has built after the first w quads
      of row u. */
  predicate RowSoFar(maths: Maths, vertices: seq<Vec3>, normals: seq<Vec3>, tess: nat, offset: nat, normalBase: nat, smooth: bool, u: nat, w: nat,
                     v: seq<nat>, vn: seq<nat>, vt: seq<nat>, normalsOut: seq<Vec3>)
    requires offset + PatchSize(tess) <= |vertices| && u < tess && w <= tess
  {
    var s := BezierCells(tess, offset, normalBase, smooth);
    v == CellRow(s, Positions, u, w) && vn == CellRow(s, Normals, u, w) && vt == CellRow(s, Texcoords, u, w)
    && normalsOut == normals + if smooth then [] else FlatNormalRow(maths, vertices, tess, offset, u, w)
  }

  /** The body of bezier's inner index loop: quad (u, w) appended to what
      the row has so far. */
  method BezierQuadStep(maths: Maths, vertices: seq<Vec3>, normals: seq<Vec3>, tess: nat, offset: nat, normalBase: nat, smooth: bool, u: nat, w: nat,
                        v: seq<nat>, vn: seq<nat>, vt: seq<nat>, normalsOut: seq<Vec3>)
    returns (v': seq<nat>, vn': seq<nat>, vt': seq<nat>, normalsOut': seq<Vec3>)
    requires offset + PatchSize(tess) <= |vertices| && u < tess && w < tess
    requires !smooth ==> |normals| == normalBase + u * tess
    requires RowSoFar(maths, vertices, normals, tess, offset, normalBase, smooth, u, w, v, vn, vt, normalsOut)
    ensures RowSoFar(maths, vertices, normals, tess, offset, normalBase, smooth, u, w + 1, v', vn', vt', normalsOut')
  {
    var quad, normalCell, grown := BezierQuadCell(maths, vertices, normalsOut, tess, offset, normalBase, smooth, u, w);
    if !smooth {
      ghost var row := FlatNormalRow(maths, vertices, tess, offset, u, w);
      ghost var n := QuadNormal(maths, vertices, tess, offset, u, w);
      assert FlatNormalRow(maths, vertices, tess, offset, u, w + 1) == row + [n];
      assert grown == normals + (row + [n]);
    }
    v', vn', vt', normalsOut' := v + quad, vn + normalCell, vt + quad, grown;
  }

  /** One quad of bezier's index loop: its six position and texture
      indices, and its normal indices (in flat shading, six times the
      index of the normal it pushes). */
  method BezierQuadCell(maths: Maths, vertices: seq<Vec3>, normals: seq<Vec3>, tess: nat, offset: nat, normalBase: nat, smooth: bool, u: nat, w: nat)
    returns (quad: seq<nat>, normalCell: seq<nat>, normalsOut: seq<Vec3>)
    requires offset + PatchSize(tess) <= |vertices| && u < tess && w < tess
    requires !smooth ==> |normals| == normalBase + u * tess + w
    ensures var s := BezierCells(tess, offset, normalBase, smooth);
      quad == Cell(s, Positions, u, w) && quad == Cell(s, Texcoords, u, w) && normalCell == Cell(s, Normals, u, w)
    ensures normalsOut == normals + if smooth then [] else [QuadNormal(maths, vertices, tess, offset, u, w)]
  {
    var q := Quad(tess + 1, offset, u, w);
    quad := BezierQuad(tess, offset, u, w);
    if smooth {
      normalCell, normalsOut := quad, normals;
    } else {
      QuadInPatch(tess, offset, u, w);
      normalsOut := normals + [VNormal(maths, vertices[q[0]], vertices[q[1]], vertices[q[2]], true)];
      normalCell := Repeat(|normals|, 6);
    }
  }

  /** The index loop of one patch: 6 entries per quad; flat shading also
      pushes one normal per quad, named by all six normal entries. */
  method BezierQuads(maths: Maths, vertices: seq<Vec3>, normals: seq<Vec3>, tess: nat, offset: nat, smooth: bool)
    returns (v: seq<nat>, vn: seq<nat>, vt: seq<nat>, normalsOut: seq<Vec3>)
    requires offset + PatchSize(tess) <= |vertices|
    ensures var s := BezierCells(tess, offset, |normals|, smooth);
      v == Cells(s, Positions, tess, tess) && vn == Cells(s, Normals, tess, tess) && vt == Cells(s, Texcoords, tess, tess)
    ensures normalsOut == normals + if smooth then [] else FlatNormals(maths, vertices, tess, offset, tess)
  {
    var s := BezierCells(tess, offset, |normals|, smooth);
    v, vn, vt, normalsOut := [], [], [], normals;
    var u := 0;
    while u < tess
      invariant u <= tess
      invariant v == Cells(s, Positions, u, tess) && vn == Cells(s, Normals, u, tess) && vt == Cells(s, Texcoords, u, tess)
      invariant smooth ==> normalsOut == normals
      invariant !smooth ==> normalsOut == normals + FlatNormals(maths, vertices, tess, offset, u)
    {
      var rv, rvn, rvt, n2 := BezierQuadRow(maths, vertices, normalsOut, tess, offset, |normals|, smooth, u);
      BezierRowStep(s, u, tess, v, vn, vt, rv, rvn, rvt);
      if !smooth {
        FlatNormalsStep(maths, vertices, normals, tess, offset, u);
      }
      v, vn, vt := v + rv, vn + rvn, vt + rvt;
      normalsOut := n2;
      u := u + 1;
    }
  }

  lemma BezierRowStep(s: Scheme, u: nat, cols: nat, v: seq<nat>, vn: seq<nat>, vt: seq<nat>, rv: seq<nat>, rvn: seq<nat>, rvt: seq<nat>)
    requires v == Cells(s, Positions, u, cols) && vn == Cells(s, Normals, u, cols) && vt == Cells(s, Texcoords, u, cols)
    requires rv == CellRow(s, Positions, u, cols) && rvn == CellRow(s, Normals, u, cols) && rvt == CellRow(s, Texcoords, u, cols)
    ensures v + rv == Cells(s, Positions, u + 1, cols) && vn + rvn == Cells(s, Normals, u + 1, cols)
    ensures vt + rvt == Cells(s, Texcoords, u + 1, cols)
  {
  }

  lemma FlatNormalsStep(maths: Maths, vertices: seq<Vec3>, normals: seq<Vec3>, tess: nat, offset: nat, u: nat)
    requires offset + PatchSize(tess) <= |vertices| && u < tess
    ensures normals + FlatNormals(maths, vertices, tess, offset, u) + FlatNormalRow(maths, vertices, tess, offset, u, tess)
      == normals + FlatNormals(maths, vertices, tess, offset, u + 1)
  {
  }

  // ----- bezier: every patch -----

  /** The patch built from patch p's control points. */
  function InputPatch(b: BezierInput, p: nat): BezierPatch.Patch
    requires WellIndexed(b) && p < |b.patches|
  {
    BezierPatch.PatchOf(ControlPoints(b, p))
  }

  /** The positions of the first n patches, (tess+1)² per patch. */
  function BezierVertexList(maths: Maths, b: BezierInput, tess: nat, n: nat): (r: seq<Vec3>)
    requires WellIndexed(b) && n <= |b.patches|
    ensures |r| == n * PatchSize(tess)
  {
    if n == 0 then []
    else
      assert (n - 1) * PatchSize(tess) + PatchSize(tess) == n * PatchSize(tess);
      BezierVertexList(maths, b, tess, n - 1) + Lattice(tess + 1, tess + 1, PatchPoints(maths, InputPatch(b, n - 1), tess))
  }

  function BezierTexcoordList(tess: nat, n: nat): (r: seq<Vec2>)
    ensures |r| == n * PatchSize(tess)
  {
    if n == 0 then []
    else
      assert (n - 1) * PatchSize(tess) + PatchSize(tess) == n * PatchSize(tess);
      BezierTexcoordList(tess, n - 1) + Lattice(tess + 1, tess + 1, PatchTexcoords(tess))
  }

  /** The normals of the first n patches: one per grid point in smooth
      shading, one per quad in flat shading. */
  function BezierNormalList(maths: Maths, b: BezierInput, tess: nat, smooth: bool, n: nat): (r: seq<Vec3>)
    requires WellIndexed(b) && n <= |b.patches|
    ensures |r| == n * if smooth then PatchSize(tess) else tess * tess
  {
    if n == 0 then []
    else
      var size := if smooth then PatchSize(tess) else tess * tess;
      assert (n - 1) * size + size == n * size;
      assert (n - 1) * PatchSize(tess) + PatchSize(tess) == n * PatchSize(tess);
      var prev := BezierNormalList(maths, b, tess, smooth, n - 1);
      if smooth then prev + Lattice(tess + 1, tess + 1, PatchNormals(maths, InputPatch(b, n - 1), tess))
      else prev + FlatNormals(maths, BezierVertexList(maths, b, tess, n), tess, (n - 1) * PatchSize(tess), tess)
  }

  /** The index scheme of patch p: its vertices start at p·(tess+1)², and
      its flat normals after the tess² normals of each earlier patch. */
  function PatchScheme(tess: nat, smooth: bool, p: nat): Scheme {
    BezierCells(tess, p * PatchSize(tess), if smooth then (p + 1) * PatchSize(tess) else p * (tess * tess), smooth)
  }

  function BezierIndexList(tess: nat, smooth: bool, ch: Channel, n: nat): seq<nat> {
    if n == 0 then [] else BezierIndexList(tess, smooth, ch, n - 1) + Cells(PatchScheme(tess, smooth, n - 1), ch, tess, tess)
  }

  lemma MulSucc(p: nat, k: nat)
    ensures p * k + k == (p + 1) * k
  {
  }

  lemma InRangeJoin(a: seq<nat>, b: seq<nat>, lo: nat, mid: nat, hi: nat)
    requires InRange(a, lo, mid) && InRange(b, mid, hi) && lo <= mid <= hi
    ensures InRange(a + b, lo, hi)
  {
    forall k | |a| <= k < |a + b| ensures lo <= (a + b)[k] < hi {
      assert (a + b)[k] == b[k - |a|];
    }
  }

  /** Over n patches: 6·tess² indices of each kind per patch, all naming
      an existing vertex (and, in flat shading, an existing normal);
      texture indices equal vertex indices, and so do normal indices in
      smooth shading. */
  lemma {:induction false} BezierIndices(tess: nat, smooth: bool, n: nat)
    ensures var v := BezierIndexList(tess, smooth, Positions, n);
      |v| == n * (6 * tess * tess) && InRange(v, 0, n * PatchSize(tess))
    ensures BezierIndexList(tess, smooth, Texcoords, n) == BezierIndexList(tess, smooth, Positions, n)
    ensures |BezierIndexList(tess, smooth, Normals, n)| == n * (6 * tess * tess)
    ensures smooth ==> BezierIndexList(tess, smooth, Normals, n) == BezierIndexList(tess, smooth, Positions, n)
    ensures !smooth ==> InRange(BezierIndexList(tess, smooth, Normals, n), 0, n * (tess * tess))
  {
    if n > 0 {
      var p := n - 1;
      BezierIndices(tess, smooth, p);
      var s := PatchScheme(tess, smooth, p);
      BezierPatchIndices(tess, p * PatchSize(tess), if smooth then (p + 1) * PatchSize(tess) else p * (tess * tess), smooth);
      MulSucc(p, PatchSize(tess));
      MulSucc(p, 6 * tess * tess);
      MulLe(p, n, PatchSize(tess));
      InRangeJoin(BezierIndexList(tess, smooth, Positions, p), Cells(s, Positions, tess, tess), 0, p * PatchSize(tess), n * PatchSize(tess));
      if !smooth {
        MulSucc(p, tess * tess);
        MulLe(p, n, tess * tess);
        InRangeJoin(BezierIndexList(tess, smooth, Normals, p), Cells(s, Normals, tess, tess), 0, p * (tess * tess), n * (tess * tess));
      }
    }
  }

  /** What readBezierFile gives bezier: no patches when the file cannot
      be opened, otherwise the file transposed. */
  function BezierInputOf(file: Option<BezierInput>): (b: BezierInput)
    requires file.Some? ==> WellIndexed(file.value)
    ensures WellIndexed(b) && |b.patches| == if file.Some? then |file.value.patches| else 0
  {
    if file.Some? then TransposedInput(file.value) else BezierInput([], [])
  }

  /** The model bezier builds from the first n patches of b. */
  function BezierMesh(maths: Maths, b: BezierInput, tess: nat, smooth: bool, n: nat): MeshBuffers.Mesh
    requires WellIndexed(b) && n <= |b.patches|
  {
    MeshBuffers.MeshOf(BezierVertexList(maths, b, tess, n), BezierNormalList(maths, b, tess, smooth, n), BezierTexcoordList(tess, n),
      BezierIndexList(tess, smooth, Positions, n), BezierIndexList(tess, smooth, Normals, n), BezierIndexList(tess, smooth, Texcoords, n))
  }

  /** The first half of a pass of bezier's patch loop: the control
      points and the grid of points, texture coordinates and (smooth)
      normals. */
  method BezierGridStep(maths: Maths, b: BezierInput, tess: nat, smooth: bool, p: nat,
                        vertices: seq<Vec3>, texcoords: seq<Vec2>, normals: seq<Vec3>)
    returns (vertices': seq<Vec3>, texcoords': seq<Vec2>, normals': seq<Vec3>)
    requires WellIndexed(b) && p < |b.patches|
    requires vertices == BezierVertexList(maths, b, tess, p) && texcoords == BezierTexcoordList(tess, p)
    ensures vertices' == BezierVertexList(maths, b, tess, p + 1) && texcoords' == BezierTexcoordList(tess, p + 1)
    ensures normals' == normals + if smooth then Lattice(tess + 1, tess + 1, PatchNormals(maths, InputPatch(b, p), tess)) else []
  {
    var cps := LoadControlPoints(b, p);
    var patch := BezierPatch.PatchOf(cps);
    assert patch == InputPatch(b, p);
    var gv, gn, gt := Grid(tess + 1, tess + 1, PatchPoints(maths, patch, tess), PatchNormals(maths, patch, tess), PatchTexcoords(tess), smooth);
    vertices', texcoords', normals' := vertices + gv, texcoords + gt, normals + gn;
  }

  /** One pass of bezier's patch loop: the control points, the grid of
      points, texture coordinates and (smooth) normals, then the quads. */
  method BezierStep(maths: Maths, b: BezierInput, tess: nat, smooth: bool, p: nat, m: MeshBuffers.Mesh) returns (m': MeshBuffers.Mesh)
    requires WellIndexed(b) && p < |b.patches|
    requires m == BezierMesh(maths, b, tess, smooth, p)
    ensures m' == BezierMesh(maths, b, tess, smooth, p + 1)
  {
    var normals, v, vn, vt := m.normals, m.vIndices, m.vnIndices, m.vtIndices;
    var vertices', texcoords', withGrid := BezierGridStep(maths, b, tess, smooth, p, m.vertices, m.texcoords, normals);
    var normals', v', vn', vt';
    var offset := |vertices'| - PatchSize(tess);
    MulSucc(p, PatchSize(tess));
    assert offset == p * PatchSize(tess);
    assert |withGrid| == if smooth then (p + 1) * PatchSize(tess) else p * (tess * tess);
    var s := PatchScheme(tess, smooth, p);
    assert BezierCells(tess, offset, |withGrid|, smooth) == s;
    var qv, qvn, qvt;
    qv, qvn, qvt, normals' := BezierQuads(maths, vertices', withGrid, tess, offset, smooth);
    v', vn', vt' := v + qv, vn + qvn, vt + qvt;
    assert BezierIndexList(tess, smooth, Positions, p + 1) == v + Cells(s, Positions, tess, tess);
    assert BezierIndexList(tess, smooth, Normals, p + 1) == vn + Cells(s, Normals, tess, tess);
    assert BezierIndexList(tess, smooth, Texcoords, p + 1) == vt + Cells(s, Texcoords, tess, tess);
    if smooth {
      assert withGrid == normals + Lattice(tess + 1, tess + 1, PatchNormals(maths, InputPatch(b, p), tess));
    } else {
      assert withGrid == normals;
      assert BezierNormalList(maths, b, tess, smooth, p + 1) == normals + FlatNormals(maths, vertices', tess, offset, tess);
    }
    m' := MeshBuffers.MeshOf(vertices', normals', texcoords', v', vn', vt');
  }

  /** The model of n patches has (tess+1)² vertices and texture coordinates
      and 6·tess² indices of each kind per patch; every vertex index names
      a vertex and every normal index a normal; texture indices equal
      vertex indices, and so do normal indices in smooth shading. */
  lemma BezierMeshShape(maths: Maths, b: BezierInput, tess: nat, smooth: bool, n: nat)
    requires WellIndexed(b) && n <= |b.patches|
    ensures var m := BezierMesh(maths, b, tess, smooth, n);
      |m.vertices| == |m.texcoords| == n * PatchSize(tess)
      && |m.normals| == n * (if smooth then PatchSize(tess) else tess * tess)
      && |m.vIndices| == |m.vnIndices| == n * (6 * tess * tess)
      && InRange(m.vIndices, 0, |m.vertices|) && InRange(m.vnIndices, 0, |m.normals|)
      && m.vtIndices == m.vIndices && (smooth ==> m.vnIndices == m.vIndices)
  {
    BezierIndices(tess, smooth, n);
  }

  /** bezier: the patches of a bezier file (its numbers given as read),
      each tessellated into a (tess+1)² grid and 2·tess² triangles. */
  method Bezier(maths: Maths, file: Option<BezierInput>, tess: nat, smooth: bool) returns (m: MeshBuffers.Mesh)
    requires file.Some? ==> WellIndexed(file.value)
    ensures var b := BezierInputOf(file); m == BezierMesh(maths, b, tess, smooth, |b.patches|)
  {
    var b := ReadBezierFile(file);
    m := MeshBuffers.MeshOf([], [], [], [], [], []);
    var p := 0;
    while p < |b.patches|
      invariant p <= |b.patches|
      invariant m == BezierMesh(maths, b, tess, smooth, p)
    {
      m := BezierStep(maths, b, tess, smooth, p, m);
      p := p + 1;
    }
  }

  lemma SurfaceScaled(maths: Maths, radius: real, stacks: nat, slices: nat, slice: nat, stack: nat)
    requires stacks >= 1 && slices >= 1
    ensures SpherePoint(maths, radius, stacks, slices, slice, stack) == Scale(radius, SpherePoint(maths, 1.0, stacks, slices, slice, stack))
  {
  }

  /** Points given as `radius` times their normals stay so in the lattice. */
  lemma {:induction false} LatticeScaled(rows: nat, cols: nat, pos: (nat, nat) -> Vec3, nrm: (nat, nat) -> Vec3, radius: real)
    requires forall i: nat, j: nat :: pos(i, j) == Scale(radius, nrm(i, j))
    ensures forall k :: 0 <= k < rows * cols ==> Lattice(rows, cols, pos)[k] == Scale(radius, Lattice(rows, cols, nrm)[k])
  {
    forall k | 0 <= k < rows * cols ensures Lattice(rows, cols, pos)[k] == Scale(radius, Lattice(rows, cols, nrm)[k]) {
      var i, j := k / cols, k % cols;
      assert k == i * cols + j;
      if i >= rows {
        MulLe(rows, i, cols);
      }
      LatticeAt(rows, cols, pos, i, j);
      LatticeAt(rows, cols, nrm, i, j);
    }
  }
}
