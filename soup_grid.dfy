/**
 * The shape of every triangle-soup generator: nested row and column loops
 * that append a fixed run of vertices (or of floats) per cell. A cell is a
 * function of its row and column; the output is the cells concatenated in
 * loop order.
 */
module SoupGrid {
  import opened Vectors
  import opened TriangleObj

  /** part(0) + part(1) + ... + part(n - 1) */
  function Concat<T>(n: nat, part: nat -> seq<T>): seq<T> {
    if n == 0 then [] else Concat(n - 1, part) + part(n - 1)
  }

  /** The cells of one row, in column order. */
  function CellsOf<T>(cell: (nat, nat) -> seq<T>, row: nat): nat -> seq<T> {
    (c: nat) => cell(row, c)
  }

  function RowsOf<T>(cols: nat, cell: (nat, nat) -> seq<T>): nat -> seq<T> {
    (r: nat) => Concat(cols, CellsOf(cell, r))
  }

  /** The cells of rows × cols, row by row. */
  function Grid<T>(rows: nat, cols: nat, cell: (nat, nat) -> seq<T>): seq<T> {
    Concat(rows, RowsOf(cols, cell))
  }

  /** Every element satisfies P. */
  predicate All<T>(s: seq<T>, P: T -> bool) {
    forall j :: 0 <= j < |s| ==> P(s[j])
  }

  lemma MulSucc(p: nat, k: nat)
    ensures p * k + k == (p + 1) * k
  {
  }

  /** Parts of k elements each make n · k elements. */
  lemma {:induction false} ConcatUniform<T>(n: nat, part: nat -> seq<T>, k: nat)
    requires forall i: nat :: i < n ==> |part(i)| == k
    ensures |Concat(n, part)| == n * k
  {
    if n > 0 {
      ConcatUniform(n - 1, part, k);
      MulSucc(n - 1, k);
    }
  }

  lemma MulLe(a: nat, b: nat, k: nat)
    requires a <= b
    ensures a * k <= b * k
  {
  }

  /** With parts of k elements each, part i occupies elements i·k up to
      (i + 1)·k. */
  lemma {:induction false} ConcatBlock<T>(n: nat, part: nat -> seq<T>, k: nat, i: nat)
    requires forall j: nat :: j < n ==> |part(j)| == k
    requires i < n
    ensures |Concat(n, part)| == n * k
    ensures (i + 1) * k <= n * k && Concat(n, part)[i * k .. (i + 1) * k] == part(i)
  {
    var front := Concat(n - 1, part);
    assert Concat(n, part) == front + part(n - 1);
    ConcatUniform(n - 1, part, k);
    MulSucc(n - 1, k);
    MulSucc(i, k);
    if i < n - 1 {
      ConcatBlock(n - 1, part, k, i);
      PrefixSlice(front, part(n - 1), i * k, (i + 1) * k);
    } else {
      SuffixSlice(front, part(n - 1));
    }
  }

  lemma PrefixSlice<T>(a: seq<T>, b: seq<T>, x: nat, y: nat)
    requires x <= y <= |a|
    ensures (a + b)[x..y] == a[x..y]
  {
  }

  lemma SuffixSlice<T>(a: seq<T>, b: seq<T>)
    ensures (a + b)[|a|..|a| + |b|] == b
  {
  }

  /** Part of a slice is a slice of the whole. */
  lemma SliceOfSlice<T>(s: seq<T>, i: nat, j: nat, a: nat, b: nat)
    requires i <= j <= |s| && a <= b <= j - i
    ensures s[i + a .. i + b] == s[i..j][a..b]
  {
    forall x | 0 <= x < b - a
      ensures s[i + a .. i + b][x] == s[i..j][a..b][x]
    {
      assert s[i..j][a..b][x] == s[i..j][a + x] == s[i + a + x];
    }
  }

  lemma SliceFirst<T>(s: seq<T>, i: nat, j: nat)
    requires i < j <= |s|
    ensures s[i..j][0] == s[i]
  {
  }

  /** With non-empty parts of k elements each, part i starts at i·k. */
  lemma ConcatRunFirst<T>(n: nat, part: nat -> seq<T>, k: nat, i: nat)
    requires forall j: nat :: j < n ==> |part(j)| == k
    requires i < n && k > 0
    ensures |Concat(n, part)| == n * k
    ensures i * k < |Concat(n, part)| && Concat(n, part)[i * k] == part(i)[0]
  {
    ConcatBlock(n, part, k, i);
    SliceFirst(Concat(n, part), i * k, (i + 1) * k);
  }

  /** Cells of k elements each make rows · cols · k elements. */
  lemma GridUniform<T>(rows: nat, cols: nat, cell: (nat, nat) -> seq<T>, k: nat)
    requires forall r: nat, c: nat :: r < rows && c < cols ==> |cell(r, c)| == k
    ensures |Grid(rows, cols, cell)| == rows * cols * k
  {
    forall r: nat | r < rows
      ensures |RowsOf(cols, cell)(r)| == cols * k
    {
      ConcatUniform(cols, CellsOf(cell, r), k);
    }
    ConcatUniform(rows, RowsOf(cols, cell), cols * k);
  }

  /** A first part of s elements followed by parts of 2·s elements:
      n parts make 2·s·n − s elements. */
  lemma {:induction false} ShortFirstPart<T>(n: nat, part: nat -> seq<T>, s: nat)
    requires n >= 1 && |part(0)| == s
    requires forall i: nat :: 0 < i < n ==> |part(i)| == 2 * s
    ensures |Concat(n, part)| == 2 * (n * s) - s
  {
    if n > 1 {
      ShortFirstPart(n - 1, part, s);
      MulSucc(n - 1, s);
    }
  }

  lemma AllAppend<T>(a: seq<T>, b: seq<T>, P: T -> bool)
    requires All(a, P) && All(b, P)
    ensures All(a + b, P)
  {
    forall j | 0 <= j < |a + b|
      ensures P((a + b)[j])
    {
      if j >= |a| {
        assert (a + b)[j] == b[j - |a|];
      }
    }
  }

  /** What holds of every element of every part holds of the whole. */
  lemma {:induction false} ConcatAll<T>(n: nat, part: nat -> seq<T>, P: T -> bool)
    requires forall i: nat :: i < n ==> All(part(i), P)
    ensures All(Concat(n, part), P)
  {
    if n > 0 {
      ConcatAll(n - 1, part, P);
      AllAppend(Concat(n - 1, part), part(n - 1), P);
    }
  }

  lemma GridAll<T>(rows: nat, cols: nat, cell: (nat, nat) -> seq<T>, P: T -> bool)
    requires forall r: nat, c: nat :: r < rows && c < cols ==> All(cell(r, c), P)
    ensures All(Grid(rows, cols, cell), P)
  {
    forall r: nat | r < rows
      ensures All(RowsOf(cols, cell)(r), P)
    {
      ConcatAll(cols, CellsOf(cell, r), P);
    }
    ConcatAll(rows, RowsOf(cols, cell), P);
  }

  /** Every triangle, read as consecutive triples from the start,
      satisfies Q. */
  predicate EveryTriangle<T>(s: seq<T>, Q: (T, T, T) -> bool) {
    |s| % 3 == 0 && forall i :: 0 <= i < |s| - 2 && i % 3 == 0 ==> Q(s[i], s[i + 1], s[i + 2])
  }

  lemma TwoTriangles<T>(s: seq<T>, Q: (T, T, T) -> bool)
    requires |s| == 6 && Q(s[0], s[1], s[2]) && Q(s[3], s[4], s[5])
    ensures EveryTriangle(s, Q)
  {
    forall i | 0 <= i < |s| - 2 && i % 3 == 0
      ensures Q(s[i], s[i + 1], s[i + 2])
    {
      assert i == 0 || i == 3;
    }
  }

  lemma TrianglesAppend<T>(a: seq<T>, b: seq<T>, Q: (T, T, T) -> bool)
    requires EveryTriangle(a, Q) && EveryTriangle(b, Q)
    ensures EveryTriangle(a + b, Q)
  {
    forall i | 0 <= i < |a + b| - 2 && i % 3 == 0
      ensures Q((a + b)[i], (a + b)[i + 1], (a + b)[i + 2])
    {
      if i >= |a| {
        var k := i - |a|;
        assert (a + b)[i] == b[k] && (a + b)[i + 1] == b[k + 1] && (a + b)[i + 2] == b[k + 2];
      }
    }
  }

  lemma {:induction false} ConcatTriangles<T>(n: nat, part: nat -> seq<T>, Q: (T, T, T) -> bool)
    requires forall i: nat :: i < n ==> EveryTriangle(part(i), Q)
    ensures EveryTriangle(Concat(n, part), Q)
  {
    if n > 0 {
      ConcatTriangles(n - 1, part, Q);
      TrianglesAppend(Concat(n - 1, part), part(n - 1), Q);
    }
  }

  lemma GridTriangles<T>(rows: nat, cols: nat, cell: (nat, nat) -> seq<T>, Q: (T, T, T) -> bool)
    requires forall r: nat, c: nat :: r < rows && c < cols ==> EveryTriangle(cell(r, c), Q)
    ensures EveryTriangle(Grid(rows, cols, cell), Q)
  {
    forall r: nat | r < rows
      ensures EveryTriangle(RowsOf(cols, cell)(r), Q)
    {
      ConcatTriangles(cols, CellsOf(cell, r), Q);
    }
    ConcatTriangles(rows, RowsOf(cols, cell), Q);
  }

  // ----- evenly spaced coordinates -----

  /** length/d, the side of a cell; unused when d is 0, since then no cell
      is made. */
  function Step(length: real, d: nat): real {
    if d == 0 then 0.0 else length / d as real
  }

  /** The i-th of the d + 1 evenly spaced coordinates -length/2 + i·step. */
  function Coord(length: real, d: nat, i: nat): real {
    -(length / 2.0) + Step(length, d) * i as real
  }

  /** Each coordinate is one step after the previous one. */
  lemma CoordNext(length: real, d: nat, i: nat)
    ensures Coord(length, d, i + 1) == Coord(length, d, i) + Step(length, d)
  {
  }

  /** The coordinates run from -length/2 to length/2. */
  lemma CoordEnds(length: real, d: nat)
    requires d > 0
    ensures Coord(length, d, 0) == -(length / 2.0) && Coord(length, d, d) == length / 2.0
  {
    assert Step(length, d) * (d as real) == length;
  }

  /** For a non-negative length every coordinate lies in [-length/2, length/2]. */
  lemma CoordWithin(length: real, d: nat, i: nat)
    requires length >= 0.0 && i <= d
    ensures -(length / 2.0) <= Coord(length, d, i) <= length / 2.0
  {
    if d > 0 {
      var s := Step(length, d);
      assert s * (d as real) == length;
      MulMonotone(s, i as real, d as real);
    }
  }

  /** The index after i. Cells refer to their far grid line as
      coord(Next(i)) rather than coord(i + 1): arithmetic inside a lambda's
      application is expensive for the verifier. */
  function Next(i: nat): nat {
    i + 1
  }

  /** The coordinates as a function of their index. */
  function Coords(length: real, d: nat): nat -> real {
    (i: nat) => Coord(length, d, i)
  }

  /** The first d + 1 coordinates lie within [-h, h]. */
  ghost predicate Bounded(coord: nat -> real, d: nat, h: real) {
    forall i: nat :: i <= d ==> -h <= coord(i) <= h
  }

  lemma CoordsWithin(length: real, d: nat)
    requires length >= 0.0
    ensures Bounded(Coords(length, d), d, length / 2.0)
  {
    forall i: nat | i <= d
      ensures -(length / 2.0) <= Coords(length, d)(i) <= length / 2.0
    {
      CoordWithin(length, d, i);
    }
  }

  lemma MulMonotone(s: real, a: real, b: real)
    requires s >= 0.0 && 0.0 <= a <= b
    ensures 0.0 <= s * a <= s * b
  {
  }

  // ----- properties of single vertices -----

  function AtHeight(h: real): Vec3 -> bool {
    (v: Vec3) => v.y == h
  }

  /** x and z within [-h, h]. */
  function WithinSquare(h: real): Vec3 -> bool {
    (v: Vec3) => -h <= v.x <= h && -h <= v.z <= h
  }

  /** All three coordinates within [-h, h]. */
  function WithinCube(h: real): Vec3 -> bool {
    (v: Vec3) => -h <= v.x <= h && -h <= v.y <= h && -h <= v.z <= h
  }

  // ----- quads -----

  /** The two triangles of the quad v1 v2 v3 v4 (corners in order around
      it), sharing the diagonal v1-v3: (v1, v2, v3) and (v1, v3, v4) when
      facing the viewer, (v1, v3, v2) and (v1, v4, v3) when facing away. */
  function Quad(v1: Vec3, v2: Vec3, v3: Vec3, v4: Vec3, front: bool): seq<Vec3> {
    if front then [v1, v2, v3, v1, v3, v4] else [v1, v3, v2, v1, v4, v3]
  }

  /** The normal of the triangle (a, b, c) by the right-hand rule. */
  function Normal(a: Vec3, b: Vec3, c: Vec3): Vec3 {
    Cross(Sub(b, a), Sub(c, a))
  }

  /** The back-facing quad is the front-facing one with the last two
      vertices of each triangle swapped, so every triangle turns the other
      way: its normal is the front triangle's, negated. */
  lemma QuadWinding(v1: Vec3, v2: Vec3, v3: Vec3, v4: Vec3)
    ensures var f, b := Quad(v1, v2, v3, v4, true), Quad(v1, v2, v3, v4, false);
      |f| == |b| == 6 && b[0] == f[0] && b[1] == f[2] && b[2] == f[1] && b[3] == f[3] && b[4] == f[5] && b[5] == f[4]
    ensures var f, b := Quad(v1, v2, v3, v4, true), Quad(v1, v2, v3, v4, false);
      Normal(b[0], b[1], b[2]) == Neg(Normal(f[0], f[1], f[2])) && Normal(b[3], b[4], b[5]) == Neg(Normal(f[3], f[4], f[5]))
  {
  }

  // ----- positions written out as floats -----

  lemma {:induction false} FlattenAppend(a: seq<Vec3>, b: seq<Vec3>)
    ensures Flatten(a + b) == Flatten(a) + Flatten(b)
    decreases |b|
  {
    if b != [] {
      var front := b[..|b| - 1];
      assert (a + b)[..|a + b| - 1] == a + front;
      FlattenAppend(a, front);
    } else {
      assert a + b == a;
    }
  }

  /** Reading the floats back as triplets gives the positions again. */
  lemma {:induction false} TripletsFlatten(vs: seq<Vec3>)
    ensures Triplets(Flatten(vs)) == vs
  {
    if vs != [] {
      var front := vs[..|vs| - 1];
      TripletsFlatten(front);
      var fs := Flatten(vs);
      assert fs[..|fs| - 3] == Flatten(front);
    }
  }

  function FlatCells(cell: (nat, nat) -> seq<Vec3>): (nat, nat) -> seq<real> {
    (r: nat, c: nat) => Flatten(cell(r, c))
  }

  function FlatParts(part: nat -> seq<Vec3>): nat -> seq<real> {
    (i: nat) => Flatten(part(i))
  }

  lemma {:induction false} FlattenConcat(n: nat, part: nat -> seq<Vec3>)
    ensures Concat(n, FlatParts(part)) == Flatten(Concat(n, part))
  {
    if n > 0 {
      FlattenConcat(n - 1, part);
      FlattenAppend(Concat(n - 1, part), part(n - 1));
    }
  }

  /** Appending each cell's floats gives the floats of all the cells. */
  lemma FlattenGrid(rows: nat, cols: nat, cell: (nat, nat) -> seq<Vec3>)
    ensures Grid(rows, cols, FlatCells(cell)) == Flatten(Grid(rows, cols, cell))
  {
    var flatRows := RowsOf(cols, FlatCells(cell));
    var rowsFlat := FlatParts(RowsOf(cols, cell));
    forall r: nat
      ensures flatRows(r) == rowsFlat(r)
    {
      FlattenConcat(cols, CellsOf(cell, r));
      ConcatSame(cols, CellsOf(FlatCells(cell), r), FlatParts(CellsOf(cell, r)));
    }
    ConcatSame(rows, flatRows, rowsFlat);
    FlattenConcat(rows, RowsOf(cols, cell));
  }

  /** Parts that agree make the same concatenation. */
  lemma {:induction false} ConcatSame<T>(n: nat, p: nat -> seq<T>, q: nat -> seq<T>)
    requires forall i: nat :: i < n ==> p(i) == q(i)
    ensures Concat(n, p) == Concat(n, q)
  {
    if n > 0 {
      ConcatSame(n - 1, p, q);
    }
  }

  // ----- the loops -----

  lemma EmptyAppend<T>(s: seq<T>)
    ensures [] + s == s
  {
  }

  /** The nested row and column loops of a generator: each cell's
      elements are appended in row-major order. */
  method AppendGrid<T>(out: seq<T>, rows: nat, cols: nat, cell: (nat, nat) -> seq<T>) returns (r: seq<T>)
    ensures r == out + Grid(rows, cols, cell)
  {
    r := out;
    var row := 0;
    while row < rows
      invariant row <= rows
      invariant r == out + Concat(row, RowsOf(cols, cell))
    {
      var col := 0;
      while col < cols
        invariant col <= cols
        invariant r == out + Concat(row, RowsOf(cols, cell)) + Concat(col, CellsOf(cell, row))
      {
        r := r + cell(row, col);
        col := col + 1;
      }
      row := row + 1;
    }
  }

  /** The row and column loops of a generator that writes floats: each
      cell's vertices are appended as x, y, z triplets. */
  method AppendFlatGrid(out: seq<real>, rows: nat, cols: nat, cell: (nat, nat) -> seq<Vec3>) returns (r: seq<real>)
    ensures r == out + Flatten(Grid(rows, cols, cell))
  {
    r := AppendGrid(out, rows, cols, FlatCells(cell));
    FlattenGrid(rows, cols, cell);
  }

  /** A single loop that appends one part per step. */
  method AppendEach<T>(out: seq<T>, n: nat, part: nat -> seq<T>) returns (r: seq<T>)
    ensures r == out + Concat(n, part)
  {
    r := out;
    var i := 0;
    while i < n
      invariant i <= n
      invariant r == out + Concat(i, part)
    {
      r := r + part(i);
      i := i + 1;
    }
  }
}
