/**
 * The filename-keyed resource stores: texture names and loaded meshes of the
 * fourth release (process-wide maps), and the model store with vertex
 * buffer bookkeeping of the third release. A filename is loaded at most
 * once; drawing a name that is not in a store draws nothing.
 */
module Stores {
  import opened Wrappers
  import opened Vectors
  import opened MeshBuffers

  /** The lighting material of a model reference. */
  datatype Material = Material(diffuse: Vec3, ambient: Vec3, specular: Vec3, emissive: Vec3, shininess: real)

  const DefaultMaterial: Material := Material(
    Vec3(200.0 / 255.0, 200.0 / 255.0, 200.0 / 255.0),
    Vec3(50.0 / 255.0, 50.0 / 255.0, 50.0 / 255.0),
    Origin, Origin, 0.0)

  /** The OpenGL minification filter constants. */
  const GlNearest: int := 0x2600
  const GlLinear: int := 0x2601

  /** The fourth release's texture table: file name to texture name, and
      the filtering settings applied to every texture. */
  class TextureRegistry {
    var ids: map<string, nat>
    var minFilter: int
    var anisotropy: bool

    constructor()
      ensures ids == map[] && minFilter == GlNearest && !anisotropy
    {
      ids, minFilter, anisotropy := map[], GlNearest, false;
    }

    /** Texture::id: the texture name of a file, 0 (no texture) when the
        file was never loaded. */
    function Id(filename: string): (id: nat)
      reads this
      ensures filename in ids ==> id == ids[filename]
      ensures filename !in ids ==> id == 0
    {
      if filename in ids then ids[filename] else 0
    }

    /** Texture::load: only a file not yet present is recorded; a second
        load of the same file keeps the first texture name. */
    method Load(filename: string, id: nat)
      modifies this
      ensures filename in old(ids) ==> ids == old(ids)
      ensures filename !in old(ids) ==> ids == old(ids)[filename := id]
      ensures Id(filename) == if filename in old(ids) then old(ids)[filename] else id
      ensures minFilter == old(minFilter) && anisotropy == old(anisotropy)
    {
      if filename !in ids {
        ids := ids[filename := id];
      }
    }

    method SetFilter(newFilter: int)
      modifies this
      ensures minFilter == newFilter && ids == old(ids) && anisotropy == old(anisotropy)
    {
      minFilter := newFilter;
    }

    method SetAnisotropy(enabled: bool)
      modifies this
      ensures anisotropy == enabled && ids == old(ids) && minFilter == old(minFilter)
    {
      anisotropy := enabled;
    }
  }

  /** The insertion rule both stores share: a key already present keeps its value. */
  function InsertAbsent<V>(m: map<string, V>, key: string, value: V): (r: map<string, V>)
    ensures r.Keys == m.Keys + {key}
    ensures key in m ==> r[key] == m[key]
    ensures key !in m ==> r[key] == value
    ensures forall k :: k in m ==> r[k] == m[k]
  {
    if key in m then m else m[key := value]
  }

  /** Loading is at most once: a second insertion of the same key is a no-op. */
  lemma InsertAbsentTwice<V>(m: map<string, V>, key: string, a: V, b: V)
    ensures InsertAbsent(InsertAbsent(m, key, a), key, b) == InsertAbsent(m, key, a)
  {
  }

  /** One model drawn by the fourth release: its file, the texture name
      bound (0 when textures are switched off) and the material. */
  datatype MeshDraw = MeshDraw(filename: string, texture: nat, material: Material, elementCount: nat)

  /** The fourth release's model table, and the display switch for
      textures that every model's draw consults. */
  class MeshRegistry {
    var models: map<string, Mesh>
    var showTexture: bool

    constructor()
      ensures models == map[] && showTexture
    {
      models, showTexture := map[], true;
    }

    /** ModelStorage::load */
    method Load(filename: string, mesh: Mesh)
      modifies this
      ensures models == InsertAbsent(old(models), filename, mesh)
      ensures showTexture == old(showTexture)
    {
      if filename !in models {
        models := models[filename := mesh];
      }
    }

    /** ModelStorage::draw: an unknown file draws nothing and changes
        nothing; a known one gets its buffers on first draw (with the
        names the graphics library hands out) and is drawn with all its
        index entries. */
    method Draw(filename: string, textureID: nat, material: Material, vertexName: nat, indexName: nat)
      returns (drawn: Option<MeshDraw>)
      modifies this
      ensures filename !in old(models) ==> drawn == None && models == old(models)
      ensures filename in old(models) ==>
        models == old(models)[filename := WithBuffers(old(models)[filename], vertexName, indexName)]
        && drawn == Some(MeshDraw(filename, if showTexture then textureID else 0, material, |old(models)[filename].vIndices|))
      ensures showTexture == old(showTexture)
    {
      if filename in models {
        var model := models[filename];
        if !model.buffersInitialised {
          model := model.(vertexBuffer := vertexName, indexBuffer := indexName, buffersInitialised := true);
        }
        models := models[filename := model];
        drawn := Some(MeshDraw(filename, if showTexture then textureID else 0, material, |model.vIndices|));
      } else {
        drawn := None;
      }
    }

    /** ModelStorage::initBuffers over every model; `names` stands for the
        buffer names the graphics library hands out to each file. */
    method InitBuffers(names: string -> (nat, nat))
      modifies this
      ensures models.Keys == old(models).Keys
      ensures forall f :: f in models ==> models[f] == WithBuffers(old(models)[f], names(f).0, names(f).1)
      ensures showTexture == old(showTexture)
    {
      models := map f | f in models :: WithBuffers(models[f], names(f).0, names(f).1);
    }

    /** ModelStorage::cleanupBuffers over every model. */
    method CleanupBuffers()
      modifies this
      ensures models.Keys == old(models).Keys
      ensures forall f :: f in models ==> models[f] == WithoutBuffers(old(models)[f])
      ensures showTexture == old(showTexture)
    {
      models := map f | f in models :: WithoutBuffers(models[f]);
    }

    method ToggleTextures()
      modifies this
      ensures showTexture == !old(showTexture) && models == old(models)
    {
      showTexture := !showTexture;
    }
  }

  // ----- the third release's model store -----

  /** A loaded model: its flat x, y, z float list, the vertex count its
      buffer was created with and its buffer name (0 = none). */
  datatype VboModel = VboModel(filename: string, vertices: seq<real>, vertexCount: nat, vboID: nat)

  /** initializeVBO with the buffer name handed out. */
  function VboInitialized(m: VboModel, id: nat): (r: VboModel)
    ensures r.vertexCount == |m.vertices| / 3 && r.vboID == id
    ensures r.filename == m.filename && r.vertices == m.vertices
  {
    m.(vboID := id, vertexCount := |m.vertices| / 3)
  }

  /** deleteVBO: the name is released once and left at 0. */
  function VboDeleted(m: VboModel): (r: VboModel)
    ensures r.vboID == 0 && r.vertexCount == m.vertexCount
    ensures r.filename == m.filename && r.vertices == m.vertices
  {
    if m.vboID != 0 then m.(vboID := 0) else m
  }

  lemma VboDeleteIdempotent(m: VboModel)
    ensures VboDeleted(VboDeleted(m)) == VboDeleted(m)
  {
  }

  /** The store a list of files gives when loaded in order into `m`: the
      first load that throws ends it with that error. `load` stands for
      reading a model file (loadModelVertices). */
  function LoadAll(m: map<string, VboModel>, filenames: seq<string>, load: string -> Result<seq<real>>): Result<map<string, VboModel>>
    decreases |filenames|
  {
    if filenames == [] then Ok(m)
    else
      var f := filenames[0];
      if f in m then LoadAll(m, filenames[1..], load)
      else match load(f)
        case Failure(e) => Failure(e)
        case Ok(vertices) => LoadAll(m[f := VboModel(f, vertices, 0, 0)], filenames[1..], load)
  }

  /** Loading a list succeeds exactly when every listed file not already
      present can be read, and then the keys are the old keys plus the
      listed files, with the models already present untouched. */
  lemma {:induction false} LoadAllOutcome(m: map<string, VboModel>, filenames: seq<string>, load: string -> Result<seq<real>>)
    ensures LoadAll(m, filenames, load).Ok? <==>
      forall f :: f in filenames && f !in m ==> load(f).Ok?
    ensures LoadAll(m, filenames, load).Ok? ==>
      var r := LoadAll(m, filenames, load).value;
      r.Keys == m.Keys + (set f | f in filenames)
      && (forall f :: f in m ==> f in r && r[f] == m[f])
      && (forall f :: f in r && f !in m ==> load(f).Ok? && r[f] == VboModel(f, load(f).value, 0, 0))
    decreases |filenames|
  {
    if filenames != [] {
      var f := filenames[0];
      var rest := filenames[1..];
      assert forall g :: g in filenames <==> g == f || g in rest;
      assert (set g | g in filenames) == {f} + set g | g in rest;
      if f in m {
        LoadAllOutcome(m, rest, load);
      } else if load(f).Ok? {
        var m' := m[f := VboModel(f, load(f).value, 0, 0)];
        LoadAllOutcome(m', rest, load);
        assert m'.Keys == m.Keys + {f};
      }
    }
  }

  /** The models among `filenames` that the store holds, in list order. */
  function Present(store: map<string, VboModel>, filenames: seq<string>): (r: seq<VboModel>)
    ensures |r| <= |filenames|
    ensures forall i :: 0 <= i < |r| ==> r[i] in store.Values
  {
    if filenames == [] then []
    else
      var last := filenames[|filenames| - 1];
      var front := Present(store, filenames[..|filenames| - 1]);
      if last in store then front + [store[last]] else front
  }

  /** Every name of the list that the store holds is drawn once per
      occurrence, in order; names it does not hold are skipped. */
  lemma {:induction false} PresentAllKnown(store: map<string, VboModel>, filenames: seq<string>)
    requires forall f :: f in filenames ==> f in store
    ensures Present(store, filenames) == seq(|filenames|, i requires 0 <= i < |filenames| => store[filenames[i]])
  {
    if filenames != [] {
      var init := filenames[..|filenames| - 1];
      assert forall f :: f in init ==> f in filenames;
      PresentAllKnown(store, init);
    }
  }

  lemma {:induction false} PresentNoneKnown(store: map<string, VboModel>, filenames: seq<string>)
    requires forall f :: f in filenames ==> f !in store
    ensures Present(store, filenames) == []
  {
    if filenames != [] {
      var init := filenames[..|filenames| - 1];
      assert forall f :: f in init ==> f in filenames;
      PresentNoneKnown(store, init);
    }
  }

  class VboStore {
    var byFilename: map<string, VboModel>

    constructor()
      ensures byFilename == map[]
    {
      byFilename := map[];
    }

    predicate Contains(filename: string)
      reads this
    {
      filename in byFilename
    }

    /** get: the stored model, or the out-of-range error of `at`. */
    method Get(filename: string) returns (r: Result<VboModel>)
      ensures Contains(filename) <==> r.Ok?
      ensures r.Ok? ==> r.value == byFilename[filename]
    {
      if filename in byFilename {
        r := Ok(byFilename[filename]);
      } else {
        r := Failure("unordered_map::at");
      }
    }

    /** tryLoad: a file already present is not read again; a file that
        cannot be read leaves the store as it was and reports the error. */
    method TryLoad(filename: string, load: string -> Result<seq<real>>) returns (err: Option<string>)
      modifies this
      ensures filename in old(byFilename) ==> err == None && byFilename == old(byFilename)
      ensures filename !in old(byFilename) && load(filename).Failure? ==>
        err == Some(load(filename).error) && byFilename == old(byFilename)
      ensures filename !in old(byFilename) && load(filename).Ok? ==>
        err == None && byFilename == old(byFilename)[filename := VboModel(filename, load(filename).value, 0, 0)]
    {
      err := None;
      if filename !in byFilename {
        match load(filename)
        case Failure(e) => err := Some(e);
        case Ok(vertices) => byFilename := byFilename[filename := VboModel(filename, vertices, 0, 0)];
      }
    }

    /** The list constructor: tryLoad on every file in order; the first
        error escapes the constructor. */
    static method FromFilenames(filenames: seq<string>, load: string -> Result<seq<real>>) returns (r: Result<VboStore>)
      ensures r.Ok? <==> LoadAll(map[], filenames, load).Ok?
      ensures r.Ok? ==> fresh(r.value) && r.value.byFilename == LoadAll(map[], filenames, load).value
      ensures r.Failure? ==> r.error == LoadAll(map[], filenames, load).error
    {
      var store := new VboStore();
      var i := 0;
      while i < |filenames|
        invariant 0 <= i <= |filenames|
        invariant LoadAll(store.byFilename, filenames[i..], load) == LoadAll(map[], filenames, load)
        modifies store
      {
        assert filenames[i..][1..] == filenames[i + 1..];
        var err := store.TryLoad(filenames[i], load);
        if err.Some? {
          return Failure(err.value);
        }
        i := i + 1;
      }
      r := Ok(store);
    }

    /** drawAll: the stored models among the names, in list order (drawn
        from their buffer or vertex by vertex, as `withVBO` says). */
    method DrawAll(withVBO: bool, filenames: seq<string>) returns (drawn: seq<VboModel>)
      ensures drawn == Present(byFilename, filenames)
    {
      drawn := [];
      var i := 0;
      while i < |filenames|
        invariant 0 <= i <= |filenames|
        invariant drawn == Present(byFilename, filenames[..i])
      {
        assert filenames[..i + 1][..i] == filenames[..i];
        if filenames[i] in byFilename {
          drawn := drawn + [byFilename[filenames[i]]];
        }
        i := i + 1;
      }
      assert filenames[..|filenames|] == filenames;
    }

    /** initializeAllVBOs with the buffer name handed out for each file. */
    method InitializeAllVBOs(names: string -> nat)
      modifies this
      ensures byFilename.Keys == old(byFilename).Keys
      ensures forall f :: f in byFilename ==> byFilename[f] == VboInitialized(old(byFilename)[f], names(f))
    {
      byFilename := map f | f in byFilename :: VboInitialized(byFilename[f], names(f));
    }

    method CleanupAllVBOs()
      modifies this
      ensures byFilename.Keys == old(byFilename).Keys
      ensures forall f :: f in byFilename ==> byFilename[f] == VboDeleted(old(byFilename)[f])
    {
      byFilename := map f | f in byFilename :: VboDeleted(byFilename[f]);
    }
  }
}
