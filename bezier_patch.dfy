/**
 * Bicubic Bézier patches (namespace bezier2): the geometry matrices Px, Py, Pz
 * built from sixteen control points, the precomputed products M·P·Mᵀ, and
 * evaluation of a position as U·(M·P·Mᵀ)·V with U = (u³, u², u, 1).
 *
 * Matrices are written the mathematical way, row by row; glm stores them
 * column by column, so the source's `Px[j][i]` is row i, column j here.
 */
module BezierPatch {
  import opened Vectors

  datatype Vec4 = Vec4(c0: real, c1: real, c2: real, c3: real)

  /** A 4x4 matrix given by its rows. */
  datatype Mat4 = Mat4(r0: Vec4, r1: Vec4, r2: Vec4, r3: Vec4)

  function Comp(v: Vec4, j: int): real
    requires 0 <= j < 4
  {
    if j == 0 then v.c0 else if j == 1 then v.c1 else if j == 2 then v.c2 else v.c3
  }

  function Row(m: Mat4, i: int): Vec4
    requires 0 <= i < 4
  {
    if i == 0 then m.r0 else if i == 1 then m.r1 else if i == 2 then m.r2 else m.r3
  }

  /** Entry in row i, column j. */
  function At(m: Mat4, i: int, j: int): real
    requires 0 <= i < 4 && 0 <= j < 4
  {
    Comp(Row(m, i), j)
  }

  function Col(m: Mat4, j: int): Vec4
    requires 0 <= j < 4
  {
    Vec4(At(m, 0, j), At(m, 1, j), At(m, 2, j), At(m, 3, j))
  }

  function Dot4(a: Vec4, b: Vec4): real {
    a.c0 * b.c0 + a.c1 * b.c1 + a.c2 * b.c2 + a.c3 * b.c3
  }

  /** Row vector times matrix (glm's `vec4 * mat4`). */
  function VecMat(v: Vec4, m: Mat4): Vec4 {
    Vec4(Dot4(v, Col(m, 0)), Dot4(v, Col(m, 1)), Dot4(v, Col(m, 2)), Dot4(v, Col(m, 3)))
  }

  function Mul(a: Mat4, b: Mat4): Mat4 {
    Mat4(VecMat(a.r0, b), VecMat(a.r1, b), VecMat(a.r2, b), VecMat(a.r3, b))
  }

  function Transpose(m: Mat4): Mat4 {
    Mat4(Col(m, 0), Col(m, 1), Col(m, 2), Col(m, 3))
  }

  /** The cubic Bézier basis matrix (symmetric, so row and column order agree). */
  const M: Mat4 := Mat4(
    Vec4(-1.0, 3.0, -3.0, 1.0),
    Vec4(3.0, -6.0, 3.0, 0.0),
    Vec4(-3.0, 3.0, 0.0, 0.0),
    Vec4(1.0, 0.0, 0.0, 0.0))

  /** bezier2::MPMt */
  function MPMt(p: Mat4): Mat4 {
    Mul(Mul(M, p), Transpose(M))
  }

  /** One coordinate of the sixteen control points, laid out as Pxyz does. */
  function Coord(p: Vec3, axis: int): real
    requires 0 <= axis < 3
  {
    if axis == 0 then p.x else if axis == 1 then p.y else p.z
  }

  function Geometry(cp: seq<Vec3>, axis: int): (g: Mat4)
    requires |cp| >= 16 && 0 <= axis < 3
    ensures forall i, j :: 0 <= i < 4 && 0 <= j < 4 ==> At(g, i, j) == Coord(cp[i * 4 + j], axis)
  {
    Mat4(
      Vec4(Coord(cp[0], axis), Coord(cp[1], axis), Coord(cp[2], axis), Coord(cp[3], axis)),
      Vec4(Coord(cp[4], axis), Coord(cp[5], axis), Coord(cp[6], axis), Coord(cp[7], axis)),
      Vec4(Coord(cp[8], axis), Coord(cp[9], axis), Coord(cp[10], axis), Coord(cp[11], axis)),
      Vec4(Coord(cp[12], axis), Coord(cp[13], axis), Coord(cp[14], axis), Coord(cp[15], axis)))
  }

  /** The three geometry matrices of bezier2::Pxyz. */
  datatype Geometries = Geometries(px: Mat4, py: Mat4, pz: Mat4)

  /** bezier2::Pxyz: control point i·4+j lands in row i, column j of each matrix. */
  function Pxyz(cp: seq<Vec3>): (g: Geometries)
    requires |cp| >= 16
    ensures forall i, j :: 0 <= i < 4 && 0 <= j < 4 ==>
      Vec3(At(g.px, i, j), At(g.py, i, j), At(g.pz, i, j)) == cp[i * 4 + j]
  {
    Geometries(Geometry(cp, 0), Geometry(cp, 1), Geometry(cp, 2))
  }

  /** A patch keeps M·P·Mᵀ for each coordinate. */
  datatype Patch = Patch(mx: Mat4, my: Mat4, mz: Mat4)

  /** The Patch constructor. */
  function PatchOf(cp: seq<Vec3>): Patch
    requires |cp| >= 16
  {
    var g := Pxyz(cp);
    Patch(MPMt(g.px), MPMt(g.py), MPMt(g.pz))
  }

  function Powers(u: real): Vec4 { Vec4(u * u * u, u * u, u, 1.0) }

  function PowersDeriv(u: real): Vec4 { Vec4(3.0 * u * u, 2.0 * u, 1.0, 0.0) }

  /** glm::dot(A * m, B) */
  function Bilinear(a: Vec4, m: Mat4, b: Vec4): real { Dot4(VecMat(a, m), b) }

  /** The position half of Patch::evaluate. */
  function Position(p: Patch, u: real, v: real): Vec3 {
    var uu := Powers(u);
    var vv := Powers(v);
    Vec3(Bilinear(uu, p.mx, vv), Bilinear(uu, p.my, vv), Bilinear(uu, p.mz, vv))
  }

  /** The partial derivatives ∂/∂u and ∂/∂v Patch::evaluate forms. */
  function DerivU(p: Patch, u: real, v: real): Vec3 {
    var du := PowersDeriv(u);
    var vv := Powers(v);
    Vec3(Bilinear(du, p.mx, vv), Bilinear(du, p.my, vv), Bilinear(du, p.mz, vv))
  }

  function DerivV(p: Patch, u: real, v: real): Vec3 {
    var uu := Powers(u);
    var dv := PowersDeriv(v);
    Vec3(Bilinear(uu, p.mx, dv), Bilinear(uu, p.my, dv), Bilinear(uu, p.mz, dv))
  }

  /** Patch::evaluate: the position and the normalised cross product of the
      two partial derivatives. */
  datatype Surface = Surface(pos: Vec3, normal: Vec3)

  function Evaluate(maths: Maths, p: Patch, u: real, v: real): (s: Surface)
    ensures s.pos == Position(p, u, v)
    ensures s.normal == maths.normalize(Cross(DerivU(p, u, v), DerivV(p, u, v)))
  {
    Surface(Position(p, u, v), maths.normalize(Cross(DerivU(p, u, v), DerivV(p, u, v))))
  }

  /** The corners of M·P·Mᵀ seen through U and V: (0,0), (0,1), (1,0) and
      (1,1) pick the geometry matrix's entries (0,0), (0,3), (3,0) and (3,3). */
  lemma CornerEntries(p: Mat4)
    ensures Bilinear(Powers(0.0), MPMt(p), Powers(0.0)) == At(p, 0, 0)
    ensures Bilinear(Powers(0.0), MPMt(p), Powers(1.0)) == At(p, 0, 3)
    ensures Bilinear(Powers(1.0), MPMt(p), Powers(0.0)) == At(p, 3, 0)
    ensures Bilinear(Powers(1.0), MPMt(p), Powers(1.0)) == At(p, 3, 3)
  {
  }

  /** A patch interpolates its four corner control points: (u, v) = (0, 0),
      (0, 1), (1, 0) and (1, 1) give control points 0, 3, 12 and 15. */
  lemma {:induction false} PatchCorners(cp: seq<Vec3>)
    requires |cp| >= 16
    ensures Position(PatchOf(cp), 0.0, 0.0) == cp[0]
    ensures Position(PatchOf(cp), 0.0, 1.0) == cp[3]
    ensures Position(PatchOf(cp), 1.0, 0.0) == cp[12]
    ensures Position(PatchOf(cp), 1.0, 1.0) == cp[15]
  {
    var g := Pxyz(cp);
    CornerEntries(g.px);
    CornerEntries(g.py);
    CornerEntries(g.pz);
    assert Vec3(At(g.px, 0, 0), At(g.py, 0, 0), At(g.pz, 0, 0)) == cp[0 * 4 + 0];
    assert Vec3(At(g.px, 0, 3), At(g.py, 0, 3), At(g.pz, 0, 3)) == cp[0 * 4 + 3];
    assert Vec3(At(g.px, 3, 0), At(g.py, 3, 0), At(g.pz, 3, 0)) == cp[3 * 4 + 0];
    assert Vec3(At(g.px, 3, 3), At(g.py, 3, 3), At(g.pz, 3, 3)) == cp[3 * 4 + 3];
  }
}
