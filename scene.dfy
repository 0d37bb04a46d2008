/** The imported assimp scene as the loader in `Model.cpp` sees it, the pure
    helpers the loader uses (matrix conversion, directory extraction, texture
    path dispatch, pixel format choice), and the specification functions that
    say what `processNode`, `processMesh` and `loadMaterialTextures` compute. */
module SceneImport {
  import opened Wrappers
  import opened Geometry
  import opened Meshes

  /** aiMatrix4x4, stored as its four rows a, b, c, d; `a.x` is `a1`. */
  datatype AiMatrix = AiMatrix(a: Vec4, b: Vec4, c: Vec4, d: Vec4) {
    function Row(r: nat): Vec4
      requires r < 4
    {
      if r == 0 then a else if r == 1 then b else if r == 2 then c else d
    }

    /** The scalar in row `row`, column `col`. */
    function Entry(row: nat, col: nat): real
      requires row < 4 && col < 4
    {
      Row(row).Get(col)
    }
  }

  /** `aiMatrix4x4ToGlm`: glm's constructor takes columns, so column j is
      (a_j, b_j, c_j, d_j) and every (row, column) entry keeps its place. */
  function ToGlm(m: AiMatrix): (g: Mat4)
    ensures forall row: nat, col: nat | row < 4 && col < 4 :: g.At(col, row) == m.Entry(row, col)
  {
    Mat4(Vec4(m.a.x, m.b.x, m.c.x, m.d.x), Vec4(m.a.y, m.b.y, m.c.y, m.d.y),
         Vec4(m.a.z, m.b.z, m.c.z, m.d.z), Vec4(m.a.w, m.b.w, m.c.w, m.d.w))
  }

  /** aiNode: a local transform, indices into the scene's meshes, children. */
  datatype Node = Node(local: AiMatrix, meshIds: seq<nat>, children: seq<Node>)

  /** aiMesh. An absent attribute array is `None`; `texCoords` is channel 0
      (only x and y are read). `faces` hold vertex indices local to the mesh. */
  datatype AiMesh = AiMesh(
    positions: seq<Vec3>,
    normals: Option<seq<Vec3>>,
    texCoords: Option<seq<Vec3>>,
    tangents: Option<seq<Vec3>>,
    bitangents: Option<seq<Vec3>>,
    faces: seq<seq<nat>>,
    materialIndex: nat)
  {
    /** aiMesh::HasTangentsAndBitangents. */
    predicate HasTangentsAndBitangents() {
      tangents.Some? && bitangents.Some?
    }

    /** Every present attribute array has one entry per vertex. */
    predicate WellFormed() {
      && (normals.Some? ==> |normals.value| == |positions|)
      && (texCoords.Some? ==> |texCoords.value| == |positions|)
      && (tangents.Some? ==> |tangents.value| == |positions|)
      && (bitangents.Some? ==> |bitangents.value| == |positions|)
    }
  }

  /** aiMaterial: the texture paths it lists for each texture type the
      loader asks for; `GetTextureCount(type)` is the length of the list. */
  datatype Material = Material(diffuse: seq<string>, specular: seq<string>, height: seq<string>, ambient: seq<string>)

  /** aiScene. `incomplete` is AI_SCENE_FLAGS_INCOMPLETE; a missing root node
      is `None`. */
  datatype Scene = Scene(incomplete: bool, root: Option<Node>, meshes: seq<AiMesh>, materials: seq<Material>)

  /** Every mesh reference of the subtree names a mesh of the scene. */
  predicate NodeOk(node: Node, meshCount: nat)
    decreases node
  {
    && (forall i :: 0 <= i < |node.meshIds| ==> node.meshIds[i] < meshCount)
    && (forall k :: 0 <= k < |node.children| ==> NodeOk(node.children[k], meshCount))
  }

  /** What the importer guarantees about the scene it returns. */
  predicate SceneOk(scene: Scene) {
    && (forall i :: 0 <= i < |scene.meshes| ==>
          scene.meshes[i].WellFormed() && scene.meshes[i].materialIndex < |scene.materials|)
    && (scene.root.Some? ==> NodeOk(scene.root.value, |scene.meshes|))
  }

  /** The condition under which `loadModel` logs an error and returns. */
  predicate ImportFailed(imported: Option<Scene>) {
    imported.None? || imported.value.incomplete || imported.value.root.None?
  }

  // ---------------------------------------------------------------- vertices

  /** The vertex `processMesh` builds for position `i`, with the defaults for
      missing attributes. */
  function VertexAt(m: AiMesh, i: nat): Vertex
    requires m.WellFormed() && i < |m.positions|
  {
    Vertex(
      m.positions[i],
      if m.normals.Some? then m.normals.value[i] else Vec3(0.0, 1.0, 0.0),
      if m.texCoords.Some? then Vec2(m.texCoords.value[i].x, m.texCoords.value[i].y) else Vec2(0.0, 0.0),
      if m.HasTangentsAndBitangents() then m.tangents.value[i] else Vec3(1.0, 0.0, 0.0),
      if m.HasTangentsAndBitangents() then m.bitangents.value[i] else Vec3(0.0, 0.0, 1.0))
  }

  function VerticesOf(m: AiMesh): (vs: seq<Vertex>)
    requires m.WellFormed()
    ensures |vs| == |m.positions|
  {
    seq(|m.positions|, i requires 0 <= i < |m.positions| => VertexAt(m, i))
  }

  /** A missing normal is (0, 1, 0), missing texture coordinates are (0, 0),
      and without both tangent arrays the frame is (1, 0, 0) / (0, 0, 1);
      positions are always copied. */
  lemma MissingAttributeDefaults(m: AiMesh, i: nat)
    requires m.WellFormed() && i < |m.positions|
    ensures VerticesOf(m)[i].position == m.positions[i]
    ensures m.normals.None? ==> VerticesOf(m)[i].normal == Vec3(0.0, 1.0, 0.0)
    ensures m.texCoords.None? ==> VerticesOf(m)[i].texCoords == Vec2(0.0, 0.0)
    ensures !m.HasTangentsAndBitangents() ==>
              VerticesOf(m)[i].tangent == Vec3(1.0, 0.0, 0.0) && VerticesOf(m)[i].bitangent == Vec3(0.0, 0.0, 1.0)
  {
  }

  /** The face indices, face after face. */
  function FaceIndices(faces: seq<seq<nat>>): seq<nat> {
    if faces == [] then [] else FaceIndices(faces[..|faces| - 1]) + faces[|faces| - 1]
  }

  /** Each index moved by `offset`, as `face.mIndices[j] + vertexOffset`. */
  function Shifted(indices: seq<nat>, offset: nat): seq<int> {
    if indices == [] then [] else Shifted(indices[..|indices| - 1], offset) + [indices[|indices| - 1] + offset]
  }

  lemma {:induction false} ShiftedAt(indices: seq<nat>, offset: nat, i: nat)
    requires i < |indices|
    ensures |Shifted(indices, offset)| == |indices|
    ensures Shifted(indices, offset)[i] == indices[i] + offset
  {
    var n := |indices|;
    ShiftedLength(indices[..n - 1], offset);
    if i < n - 1 {
      ShiftedAt(indices[..n - 1], offset, i);
      assert indices[..n - 1][i] == indices[i];
    }
  }

  lemma {:induction false} ShiftedLength(indices: seq<nat>, offset: nat)
    ensures |Shifted(indices, offset)| == |indices|
  {
    if indices != [] {
      ShiftedLength(indices[..|indices| - 1], offset);
    }
  }

  lemma ShiftedSnoc(indices: seq<nat>, x: nat, offset: nat)
    ensures Shifted(indices + [x], offset) == Shifted(indices, offset) + [x + offset]
  {
    assert (indices + [x])[..|indices|] == indices;
  }

  lemma FaceIndicesSnoc(faces: seq<seq<nat>>, i: nat)
    requires i < |faces|
    ensures FaceIndices(faces[..i + 1]) == FaceIndices(faces[..i]) + faces[i]
  {
    assert faces[..i + 1][..i] == faces[..i];
  }

  /** The offset `processMesh` adds: the number of floats already flattened,
      divided by 3 and rounded down. */
  function VertexOffset(flatVertices: seq<real>): nat {
    |flatVertices| / 3
  }

  // ---------------------------------------------------------------- textures

  /** Where `TextureFromFile` reads a texture from. */
  datatype TextureSource = Embedded(indexText: string) | External(file: string)

  /** A path whose first character is '*' names an embedded texture by the
      number after the star; any other path, the empty one included, is a file
      under `directory`. */
  function SourceOf(path: string, directory: string): (s: TextureSource)
    ensures s.Embedded? <==> |path| > 0 && path[0] == '*'
    ensures s.Embedded? ==> "*" + s.indexText == path
    ensures s.External? ==> s.file == directory + "/" + path
  {
    if |path| > 0 && path[0] == '*' then Embedded(path[1..]) else External(directory + "/" + path)
  }

  datatype PixelFormat = Red | Rgb | Rgba

  /** The GL format for an image with `channels` components. */
  function FormatFor(channels: int): (f: PixelFormat)
    ensures f == Red <==> channels == 1
    ensures f == Rgb <==> channels == 3
    ensures f == Rgba <==> channels != 1 && channels != 3
  {
    if channels == 1 then Red else if channels == 3 then Rgb else Rgba
  }

  /** The index of the last `c` in `s`, if any (`find_last_of`). */
  function LastIndexOf(s: string, c: char): (r: Option<nat>)
    ensures r.Some? ==> r.value < |s| && s[r.value] == c && c !in s[r.value + 1..]
    ensures r.None? ==> c !in s
  {
    if s == [] then None
    else if s[|s| - 1] == c then Some(|s| - 1)
    else LastIndexOf(s[..|s| - 1], c)
  }

  /** `path.substr(0, path.find_last_of('/'))`: everything before the last
      '/', or the whole path when it has none. */
  function DirectoryOf(path: string): (dir: string)
    ensures dir <= path
    ensures '/' !in path ==> dir == path
    ensures '/' in path ==> |dir| < |path| && path[|dir|] == '/' && '/' !in path[|dir| + 1..]
  {
    match LastIndexOf(path, '/')
    case None => path
    case Some(k) => path[..k]
  }

  /** The cache of loaded textures together with the texture names handed
      out so far and the loads `TextureFromFile` was asked to do. */
  datatype TextureCache = TextureCache(loaded: seq<Texture>, nextName: nat, requests: seq<TextureSource>)

  predicate DistinctPaths(ts: seq<Texture>) {
    forall i, j :: 0 <= i < j < |ts| ==> ts[i].path != ts[j].path
  }

  /** The first cached texture whose path equals `path`, searching from `from`. */
  function FindPath(cache: seq<Texture>, path: string, from: nat): (r: Option<nat>)
    requires from <= |cache|
    ensures r.Some? ==> from <= r.value < |cache| && cache[r.value].path == path
                        && forall k :: from <= k < r.value ==> cache[k].path != path
    ensures r.None? ==> forall k :: from <= k < |cache| ==> cache[k].path != path
    decreases |cache| - from
  {
    if from == |cache| then None
    else if cache[from].path == path then Some(from)
    else FindPath(cache, path, from + 1)
  }

  /** One iteration of `loadMaterialTextures`: a cached path is reused as the
      first cached entry with that path; an unseen one gets a new texture
      name, is loaded from its source and is appended to the cache. */
  function ResolveOne(cache: TextureCache, path: string, typeName: string, directory: string): (r: (TextureCache, Texture))
    ensures r.1.path == path
    ensures (exists k :: 0 <= k < |cache.loaded| && cache.loaded[k].path == path) ==>
              r.0 == cache && r.1 in cache.loaded
              && exists k :: 0 <= k < |cache.loaded| && r.1 == cache.loaded[k]
                             && forall j :: 0 <= j < k ==> cache.loaded[j].path != path
    ensures (forall k :: 0 <= k < |cache.loaded| ==> cache.loaded[k].path != path) ==>
              r.1 == Texture(cache.nextName, typeName, path)
              && r.0 == TextureCache(cache.loaded + [r.1], cache.nextName + 1,
                                     cache.requests + [SourceOf(path, directory)])
  {
    match FindPath(cache.loaded, path, 0)
    case Some(j) => (cache, cache.loaded[j])
    case None =>
      var t := Texture(cache.nextName, typeName, path);
      (TextureCache(cache.loaded + [t], cache.nextName + 1, cache.requests + [SourceOf(path, directory)]), t)
  }

  datatype Resolution = Resolution(cache: TextureCache, textures: seq<Texture>)

  /** `loadMaterialTextures` over the texture paths of one type, in order. */
  function Resolve(cache: TextureCache, paths: seq<string>, typeName: string, directory: string): Resolution {
    if paths == [] then Resolution(cache, [])
    else
      var r := Resolve(cache, paths[..|paths| - 1], typeName, directory);
      var one := ResolveOne(r.cache, paths[|paths| - 1], typeName, directory);
      Resolution(one.0, r.textures + [one.1])
  }

  lemma ResolveSnoc(cache: TextureCache, paths: seq<string>, i: nat, typeName: string, directory: string)
    requires i < |paths|
    ensures Resolve(cache, paths[..i + 1], typeName, directory) ==
              var r := Resolve(cache, paths[..i], typeName, directory);
              var one := ResolveOne(r.cache, paths[i], typeName, directory);
              Resolution(one.0, r.textures + [one.1])
  {
    assert paths[..i + 1][..i] == paths[..i];
  }

  /** One texture per requested path, in order, carrying that path. */
  lemma {:induction false} ResolveTextures(cache: TextureCache, paths: seq<string>, typeName: string, directory: string)
    ensures var r := Resolve(cache, paths, typeName, directory);
            |r.textures| == |paths| && forall i :: 0 <= i < |paths| ==> r.textures[i].path == paths[i]
  {
    if paths != [] {
      ResolveTextures(cache, paths[..|paths| - 1], typeName, directory);
    }
  }

  /** The cache only grows, and never gains a second entry for a path. */
  lemma {:induction false} ResolveCache(cache: TextureCache, paths: seq<string>, typeName: string, directory: string)
    ensures var r := Resolve(cache, paths, typeName, directory);
            cache.loaded <= r.cache.loaded && (DistinctPaths(cache.loaded) ==> DistinctPaths(r.cache.loaded))
  {
    if paths != [] {
      var p := paths[..|paths| - 1];
      ResolveCache(cache, p, typeName, directory);
    }
  }

  /** Every texture the cache gains comes from one of the requested paths. */
  lemma {:induction false} ResolveCacheOrigin(cache: TextureCache, paths: seq<string>, typeName: string, directory: string)
    ensures var r := Resolve(cache, paths, typeName, directory);
            forall t :: t in r.cache.loaded ==> t in cache.loaded || t.path in paths
  {
    if paths != [] {
      var p := paths[..|paths| - 1];
      ResolveCacheOrigin(cache, p, typeName, directory);
      assert forall x :: x in p ==> x in paths;
    }
  }
}
