/**
 * The indexed mesh of the fourth release's engine and the interleaved
 * vertex buffer it uploads: for every entry of the vertex index list, the
 * position, the normal (or a default) and the texture coordinate (or a
 * default), eight floats in all, with sequential element indices.
 */
module MeshBuffers {
  import opened Vectors

  /** A model as loaded from an OBJ file, with its buffer bookkeeping. The
      buffer names are the ones the graphics library generated (0 = none). */
  datatype Mesh = Mesh(
    vertices: seq<Vec3>, normals: seq<Vec3>, texcoords: seq<Vec2>,
    vIndices: seq<nat>, vnIndices: seq<nat>, vtIndices: seq<nat>,
    vertexBuffer: nat, indexBuffer: nat, buffersInitialised: bool)

  /** A mesh with the given geometry and no buffers yet. */
  function MeshOf(vertices: seq<Vec3>, normals: seq<Vec3>, texcoords: seq<Vec2>,
                  vIndices: seq<nat>, vnIndices: seq<nat>, vtIndices: seq<nat>): (m: Mesh)
    ensures !m.buffersInitialised && m.vertexBuffer == 0 && m.indexBuffer == 0
  {
    Mesh(vertices, normals, texcoords, vIndices, vnIndices, vtIndices, 0, 0, false)
  }

  const DefaultNormal: Vec3 := Vec3(0.0, 1.0, 0.0)
  const DefaultTexcoord: Vec2 := Vec2(0.0, 0.0)

  /** Floats per interleaved vertex: 3 position, 3 normal, 2 texture. */
  const Stride: nat := 8

  /** Every vertex index names a vertex: the buffer builder reads the
      position without a check. */
  predicate PositionsExist(m: Mesh) {
    forall i :: 0 <= i < |m.vIndices| ==> m.vIndices[i] < |m.vertices|
  }

  /** The normal of the i-th index entry, or (0, 1, 0) when the entry has
      no normal index or the normal index is out of range. */
  function NormalAt(m: Mesh, i: nat): (n: Vec3)
    ensures i < |m.vnIndices| && m.vnIndices[i] < |m.normals| ==> n == m.normals[m.vnIndices[i]]
    ensures !(i < |m.vnIndices| && m.vnIndices[i] < |m.normals|) ==> n == DefaultNormal
  {
    if i < |m.vnIndices| && m.vnIndices[i] < |m.normals| then m.normals[m.vnIndices[i]] else DefaultNormal
  }

  /** The texture coordinate of the i-th index entry, or (0, 0). */
  function TexcoordAt(m: Mesh, i: nat): (t: Vec2)
    ensures i < |m.vtIndices| && m.vtIndices[i] < |m.texcoords| ==> t == m.texcoords[m.vtIndices[i]]
    ensures !(i < |m.vtIndices| && m.vtIndices[i] < |m.texcoords|) ==> t == DefaultTexcoord
  {
    if i < |m.vtIndices| && m.vtIndices[i] < |m.texcoords| then m.texcoords[m.vtIndices[i]] else DefaultTexcoord
  }

  /** The eight floats of the i-th index entry. */
  function Record(m: Mesh, i: nat): (r: seq<real>)
    requires PositionsExist(m) && i < |m.vIndices|
    ensures |r| == Stride
  {
    var v, n, t := m.vertices[m.vIndices[i]], NormalAt(m, i), TexcoordAt(m, i);
    [v.x, v.y, v.z, n.x, n.y, n.z, t.u, t.v]
  }

  /** The records of the first k index entries, in order. */
  function Interleaved(m: Mesh, k: nat): (r: seq<real>)
    requires PositionsExist(m) && k <= |m.vIndices|
    ensures |r| == Stride * k
  {
    if k == 0 then [] else Interleaved(m, k - 1) + Record(m, k - 1)
  }

  /** Entry i's record sits at floats 8i .. 8i+8 of the buffer. */
  lemma {:induction false} RecordAt(m: Mesh, k: nat, i: nat)
    requires PositionsExist(m) && k <= |m.vIndices| && i < k
    ensures Interleaved(m, k)[Stride * i .. Stride * i + Stride] == Record(m, i)
  {
    if i < k - 1 {
      RecordAt(m, k - 1, i);
      assert Interleaved(m, k)[..Stride * (k - 1)] == Interleaved(m, k - 1);
    }
  }

  /** The buffer read float by float: position, then normal, then texture
      coordinate of the entry the float belongs to. */
  lemma BufferContents(m: Mesh, j: nat)
    requires PositionsExist(m) && j < Stride * |m.vIndices|
    ensures var i, v := j / Stride, m.vertices[m.vIndices[j / Stride]];
      var n, t := NormalAt(m, i), TexcoordAt(m, i);
      Interleaved(m, |m.vIndices|)[j] == [v.x, v.y, v.z, n.x, n.y, n.z, t.u, t.v][j % Stride]
  {
    var i := j / Stride;
    RecordAt(m, |m.vIndices|, i);
    assert Interleaved(m, |m.vIndices|)[j] == Interleaved(m, |m.vIndices|)[Stride * i .. Stride * i + Stride][j % Stride];
  }

  /** interleavedData: the attribute buffer and the sequential element
      indices 0 .. n-1. */
  method InterleavedData(m: Mesh) returns (attribs: seq<real>, elements: seq<nat>)
    requires PositionsExist(m)
    ensures attribs == Interleaved(m, |m.vIndices|)
    ensures |attribs| == Stride * |m.vIndices|
    ensures |elements| == |m.vIndices| && forall i :: 0 <= i < |elements| ==> elements[i] == i
  {
    attribs := [];
    var i := 0;
    while i < |m.vIndices|
      invariant 0 <= i <= |m.vIndices|
      invariant attribs == Interleaved(m, i)
    {
      var vertex := m.vertices[m.vIndices[i]];
      attribs := attribs + [vertex.x, vertex.y, vertex.z];
      var normal := DefaultNormal;
      if i < |m.vnIndices| && m.vnIndices[i] < |m.normals| {
        normal := m.normals[m.vnIndices[i]];
      }
      attribs := attribs + [normal.x, normal.y, normal.z];
      var texcoord := DefaultTexcoord;
      if i < |m.vtIndices| && m.vtIndices[i] < |m.texcoords| {
        texcoord := m.texcoords[m.vtIndices[i]];
      }
      attribs := attribs + [texcoord.u, texcoord.v];
      i := i + 1;
    }
    elements := [];
    var k := 0;
    while k < |m.vIndices|
      invariant 0 <= k <= |m.vIndices|
      invariant |elements| == k && forall j :: 0 <= j < k ==> elements[j] == j
    {
      elements := elements + [k];
      k := k + 1;
    }
  }

  /** initBuffers with the buffer names the graphics library hands out: a
      second call changes nothing. */
  function WithBuffers(m: Mesh, vertexName: nat, indexName: nat): (r: Mesh)
    ensures r.buffersInitialised
    ensures m.buffersInitialised ==> r == m
    ensures !m.buffersInitialised ==> r.vertexBuffer == vertexName && r.indexBuffer == indexName
    ensures r.vertices == m.vertices && r.vIndices == m.vIndices && r.vnIndices == m.vnIndices && r.vtIndices == m.vtIndices
      && r.normals == m.normals && r.texcoords == m.texcoords
  {
    if m.buffersInitialised then m else m.(vertexBuffer := vertexName, indexBuffer := indexName, buffersInitialised := true)
  }

  /** cleanupBuffers: both names back to 0 and the flag cleared. */
  function WithoutBuffers(m: Mesh): (r: Mesh)
    ensures !r.buffersInitialised && r.vertexBuffer == 0 && r.indexBuffer == 0
    ensures r.vertices == m.vertices && r.vIndices == m.vIndices && r.vnIndices == m.vnIndices && r.vtIndices == m.vtIndices
      && r.normals == m.normals && r.texcoords == m.texcoords
  {
    m.(vertexBuffer := 0, indexBuffer := 0, buffersInitialised := false)
  }

  /** Initialising twice is initialising once, and cleaning up after an
      initialisation gives back the mesh as it was before any buffers. */
  lemma BufferLifecycle(m: Mesh, a: nat, b: nat, c: nat, d: nat)
    ensures WithBuffers(WithBuffers(m, a, b), c, d) == WithBuffers(m, a, b)
    ensures !m.buffersInitialised && m.vertexBuffer == 0 && m.indexBuffer == 0 ==>
      WithoutBuffers(WithBuffers(m, a, b)) == m
  {
  }
}
