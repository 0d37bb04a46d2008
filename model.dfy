/** `Model` (`Model.h`, `Model.cpp`): loads an imported scene into a list of
    meshes and into the flattened vertex and index arrays kept for soft-body
    physics, caches textures by path, and holds the model's world transform
    and material scalars. */
module Models {
  import opened Wrappers
  import opened Geometry
  import opened Meshes
  import opened SceneImport
  import opened Loading

  /** The records of the meshes, in order. */
  function Records(ms: seq<Mesh>): seq<MeshRecord>
    reads ms
  {
    if ms == [] then [] else Records(ms[..|ms| - 1]) + [ms[|ms| - 1].Record()]
  }

  lemma RecordsSnoc(ms: seq<Mesh>, m: Mesh)
    ensures Records(ms + [m]) == Records(ms) + [m.Record()]
  {
    assert (ms + [m])[..|ms|] == ms;
  }

  class Model {
    var texturesLoaded: seq<Texture>
    var meshes: seq<Mesh>
    var directory: string
    var flatVertices: seq<real>
    var flatIndices: seq<int>
    var transform: Mat4
    var ambient: Vec3
    var shininess: real
    const gammaCorrection: bool
    /** The driver side of texture creation: the next name `glGenTextures`
        hands out, and the images `TextureFromFile` was asked to load. */
    var nextTextureName: nat
    var textureRequests: seq<TextureSource>

    /** Every mesh owns its own GPU vertex buffer, sized for its vertices, and
        the texture cache holds each path once. */
    predicate Valid()
      reads this
    {
      && (forall i, j :: 0 <= i < j < |meshes| ==> meshes[i].vertexBuffer != meshes[j].vertexBuffer)
      && (forall i :: 0 <= i < |meshes| ==> meshes[i].vertexBuffer.Length == VertexFloats * |meshes[i].vertices|)
      && DistinctPaths(texturesLoaded)
    }

    /** The meshes from index `from` on hold in their GPU vertex buffer
        exactly their own flattened vertices, as `setupMesh` uploaded them. */
    predicate UploadedFrom(from: nat)
      reads this, set i | 0 <= i < |meshes| :: meshes[i].vertexBuffer
    {
      forall i :: from <= i < |meshes| ==> meshes[i].vertexBuffer[..] == Flatten(meshes[i].vertices)
    }

    function Cache(): TextureCache
      reads this
    {
      TextureCache(texturesLoaded, nextTextureName, textureRequests)
    }

    function Accumulators(): Buffers
      reads this
    {
      Buffers(flatVertices, flatIndices, Cache())
    }

    /** What loading has produced: the mesh records and the accumulators. */
    function State(): Loaded
      reads this, meshes
    {
      Loaded(Records(meshes), Accumulators())
    }

    /** The fields loading does not touch. */
    function Settings(): (string, Mat4, Vec3, real)
      reads this
    {
      (directory, transform, ambient, shininess)
    }

    /** `Model(bool gamma)`: nothing loaded, identity transform, ambient 0.2
        and shininess 32. */
    constructor(gamma: bool)
      ensures meshes == [] && texturesLoaded == [] && flatVertices == [] && flatIndices == []
      ensures directory == "" && nextTextureName == 1 && textureRequests == []
      ensures transform == Identity && ambient == Vec3(0.2, 0.2, 0.2) && shininess == 32.0
      ensures gammaCorrection == gamma
      ensures Valid()
    {
      meshes, texturesLoaded, flatVertices, flatIndices := [], [], [], [];
      directory, nextTextureName, textureRequests := "", 1, [];
      transform, ambient, shininess := Identity, Vec3(0.2, 0.2, 0.2), 32.0;
      gammaCorrection := gamma;
    }

    /** `Model(path, gamma)`: the same initial state, then `loadModel(path)`
        on what the importer returned for `path`. */
    constructor Load(path: string, gamma: bool, imported: Option<Scene>)
      requires imported.Some? ==> SceneOk(imported.value)
      ensures transform == Identity && ambient == Vec3(0.2, 0.2, 0.2) && shininess == 32.0
      ensures gammaCorrection == gamma
      ensures Valid()
      ensures ImportFailed(imported) ==> meshes == [] && flatVertices == [] && flatIndices == []
      ensures !ImportFailed(imported) ==>
                && directory == DirectoryOf(path)
                && Shapes(Records(meshes)) == Expected(SceneGeometry(imported.value), PreOrder(imported.value.root.value, []))
                && flatVertices == Flatten(AllVertices(Records(meshes)))
      ensures UploadedFrom(0)
    {
      meshes, texturesLoaded, flatVertices, flatIndices := [], [], [], [];
      directory, nextTextureName, textureRequests := "", 1, [];
      transform, ambient, shininess := Identity, Vec3(0.2, 0.2, 0.2), 32.0;
      gammaCorrection := gamma;
      new;
      LoadModel(path, imported);
    }

    /** `loadModel`: on a failed import (no scene, an incomplete one, or no
        root node) nothing changes; otherwise the directory is taken from the
        path and the tree is walked from the root with the identity. */
    method LoadModel(path: string, imported: Option<Scene>)
      requires Valid()
      requires imported.Some? ==> SceneOk(imported.value)
      modifies this
      ensures Valid()
      ensures ImportFailed(imported) ==> unchanged(this)
      ensures !ImportFailed(imported) ==>
                && directory == DirectoryOf(path)
                && (transform, ambient, shininess) == old((transform, ambient, shininess))
                && State() == NodeWalk(Processor(imported.value, directory), old(State()), imported.value.root.value, Identity)
      ensures !ImportFailed(imported) ==>
                Shapes(Records(meshes))
                == old(Shapes(Records(meshes))) + Expected(SceneGeometry(imported.value), PreOrder(imported.value.root.value, []))
      ensures !ImportFailed(imported) && old(flatVertices == Flatten(AllVertices(Records(meshes)))) ==>
                flatVertices == Flatten(AllVertices(Records(meshes)))
      ensures old(meshes) <= meshes && UploadedFrom(old(|meshes|))
    {
      if imported.None? || imported.value.incomplete || imported.value.root.None? {
        return;
      }
      var scene := imported.value;
      var root := scene.root.value;
      directory := DirectoryOf(path);
      ghost var start := State();
      assert start.records == old(Records(meshes));
      ProcessNode(scene, root, Identity);
      ProcessorKeepsGeometry(scene, directory);
      NodeWalkFollowsPreOrder(Processor(scene, directory), SceneGeometry(scene), start, root, []);
      ProcessorAppendsFlattened(scene, directory);
      if old(flatVertices == Flatten(AllVertices(Records(meshes)))) {
        NodeWalkKeepsFlat(Processor(scene, directory), start, root, Identity);
      }
    }

    /** `processNode`: the node's transform is `parentTransform` times its
        own; each of its meshes is processed and given that transform, then
        each child is processed with it. */
    method ProcessNode(scene: Scene, node: Node, parentTransform: Mat4)
      requires SceneOk(scene) && NodeOk(node, |scene.meshes|) && Valid()
      modifies this
      ensures Valid()
      ensures Settings() == old(Settings())
      ensures State() == NodeWalk(Processor(scene, directory), old(State()), node, parentTransform)
      ensures old(meshes) <= meshes && UploadedFrom(old(|meshes|))
      decreases node
    {
      var nodeTransform := Mul(parentTransform, ToGlm(node.local));
      ghost var process := Processor(scene, directory);
      ProcessNodeMeshes(scene, node, nodeTransform);
      ghost var mid := State();
      for i := 0 to |node.children|
        invariant Valid() && Settings() == old(Settings())
        invariant State() == ChildrenWalk(process, mid, node.children, i, nodeTransform)
        invariant old(meshes) <= meshes && UploadedFrom(old(|meshes|))
      {
        ChildrenWalkStep(process, mid, node.children, i, nodeTransform);
        ProcessNode(scene, node.children[i], nodeTransform);
      }
    }

    /** The first loop of `processNode`: each of the node's meshes, in
        order, processed and given the node's transform. */
    method ProcessNodeMeshes(scene: Scene, node: Node, nodeTransform: Mat4)
      requires SceneOk(scene) && NodeOk(node, |scene.meshes|) && Valid()
      modifies this
      ensures Valid()
      ensures Settings() == old(Settings())
      ensures State() == MeshesWalk(Processor(scene, directory), old(State()), node.meshIds, |node.meshIds|, nodeTransform)
      ensures old(meshes) <= meshes && UploadedFrom(old(|meshes|))
    {
      ghost var process := Processor(scene, directory);
      ghost var start := State();
      for i := 0 to |node.meshIds|
        invariant Valid() && Settings() == old(Settings())
        invariant State() == MeshesWalk(process, start, node.meshIds, i, nodeTransform)
        invariant old(meshes) <= meshes && UploadedFrom(old(|meshes|))
      {
        AddNodeMesh(scene, node.meshIds, i, nodeTransform, start);
      }
    }

    /** One iteration of that loop: `processMesh` on the referenced mesh, the
        node's transform set on the result, and the result pushed. */
    method AddNodeMesh(scene: Scene, ids: seq<nat>, i: nat, nodeTransform: Mat4, ghost start: Loaded)
      requires i < |ids| && Processable(scene, ids[i]) && Valid()
      requires State() == MeshesWalk(Processor(scene, directory), start, ids, i, nodeTransform)
      modifies this
      ensures Valid()
      ensures Settings() == old(Settings())
      ensures State() == MeshesWalk(Processor(scene, directory), start, ids, i + 1, nodeTransform)
      ensures old(meshes) <= meshes && UploadedFrom(old(|meshes|))
    {
      var mesh := scene.meshes[ids[i]];
      ghost var pm := Processor(scene, directory)(Accumulators(), ids[i]);
      MeshesWalkStep(Processor(scene, directory), start, ids, i, nodeTransform);
      var processedMesh := ProcessMesh(scene, mesh);
      assert (processedMesh.Record(), Accumulators()) == pm;
      PushMesh(processedMesh, nodeTransform);
    }

    /** The end of that iteration: the new mesh gets the node's transform and
        is pushed. */
    method PushMesh(processedMesh: Mesh, nodeTransform: Mat4)
      requires Valid() && processedMesh !in meshes
      requires processedMesh.vertexBuffer.Length == VertexFloats * |processedMesh.vertices|
      requires forall k :: 0 <= k < |meshes| ==> meshes[k].vertexBuffer != processedMesh.vertexBuffer
      modifies this, processedMesh
      ensures Valid()
      ensures Settings() == old(Settings()) && Accumulators() == old(Accumulators())
      ensures Records(meshes) == old(Records(meshes)) + [old(processedMesh.Record()).(transform := nodeTransform)]
      ensures meshes == old(meshes) + [processedMesh]
    {
      ghost var records := Records(meshes);
      ghost var r := processedMesh.Record().(transform := nodeTransform);
      processedMesh.transform := nodeTransform;
      assert processedMesh.Record() == r;
      assert Records(meshes) == records;
      assert Records(meshes + [processedMesh]) == records + [r] by {
        RecordsSnoc(meshes, processedMesh);
      }
      meshes := meshes + [processedMesh];
    }

    /** `processMesh`: the mesh's vertices, with defaults for missing
        attributes, each also flattened into `flatVertices`; its face indices,
        each also shifted by `vertexOffset` into `flatIndices`; and the
        textures of its material. */
    method ProcessMesh(scene: Scene, mesh: AiMesh) returns (m: Mesh)
      requires mesh.WellFormed() && mesh.materialIndex < |scene.materials|
      requires DistinctPaths(texturesLoaded)
      modifies this
      ensures fresh(m) && fresh(m.vertexBuffer) && m.vertexBuffer.Length == VertexFloats * |m.vertices|
      ensures m.vertexBuffer[..] == Flatten(m.vertices)
      ensures (m.Record(), Accumulators()) == ProcessedMesh(old(Accumulators()), scene, mesh, directory)
      ensures meshes == old(meshes) && Settings() == old(Settings())
      ensures DistinctPaths(texturesLoaded)
    {
      var vertexOffset := |flatVertices| / 3;
      var vertices := ProcessVertices(mesh);
      var indices := ProcessFaces(mesh, vertexOffset);
      var textures := ProcessMaterial(scene.materials[mesh.materialIndex]);
      m := new Mesh(vertices, indices, textures);
      FlattenLength(vertices);
    }

    /** The vertex loop of `processMesh`. */
    method ProcessVertices(mesh: AiMesh) returns (vertices: seq<Vertex>)
      requires mesh.WellFormed()
      modifies this
      ensures vertices == VerticesOf(mesh)
      ensures flatVertices == old(flatVertices) + Flatten(vertices)
      ensures flatIndices == old(flatIndices) && Cache() == old(Cache())
      ensures meshes == old(meshes) && Settings() == old(Settings())
    {
      vertices := [];
      ghost var expected := VerticesOf(mesh);
      ghost var kept := (flatIndices, Cache(), meshes, Settings());
      for i := 0 to |mesh.positions|
        invariant vertices == expected[..i]
        invariant flatVertices == old(flatVertices) + Flatten(vertices)
        invariant (flatIndices, Cache(), meshes, Settings()) == kept
      {
        ghost var before := Flatten(vertices);
        var vertex := AppendVertex(mesh, i);
        ghost var added := Components(vertex);
        assert Flatten(vertices + [vertex]) == before + added by {
          FlattenSnoc(vertices, vertex);
        }
        assert (old(flatVertices) + before) + added == old(flatVertices) + (before + added);
        assert expected[..i + 1] == vertices + [vertex] by {
          assert expected[i] == vertex;
          assert expected[..i + 1] == expected[..i] + [expected[i]];
        }
        vertices := vertices + [vertex];
      }
      assert expected[..|mesh.positions|] == expected;
    }

    /** One iteration of the vertex loop: the vertex at position `i`, with
        the defaults for missing attributes, pushed as 14 floats. */
    method AppendVertex(mesh: AiMesh, i: nat) returns (vertex: Vertex)
      requires mesh.WellFormed() && i < |mesh.positions|
      modifies this
      ensures vertex == VertexAt(mesh, i)
      ensures flatVertices == old(flatVertices) + Components(vertex)
      ensures flatIndices == old(flatIndices) && Cache() == old(Cache())
      ensures meshes == old(meshes) && Settings() == old(Settings())
    {
      var position := mesh.positions[i];
      var normal, texCoords, tangent, bitangent;
      if mesh.normals.Some? {
        normal := mesh.normals.value[i];
      } else {
        normal := Vec3(0.0, 1.0, 0.0);
      }
      if mesh.texCoords.Some? {
        texCoords := Vec2(mesh.texCoords.value[i].x, mesh.texCoords.value[i].y);
      } else {
        texCoords := Vec2(0.0, 0.0);
      }
      if mesh.HasTangentsAndBitangents() {
        tangent := mesh.tangents.value[i];
        bitangent := mesh.bitangents.value[i];
      } else {
        tangent := Vec3(1.0, 0.0, 0.0);
        bitangent := Vec3(0.0, 0.0, 1.0);
      }
      vertex := Vertex(position, normal, texCoords, tangent, bitangent);
      flatVertices := flatVertices + [position.x, position.y, position.z,
                                      normal.x, normal.y, normal.z,
                                      texCoords.x, texCoords.y,
                                      tangent.x, tangent.y, tangent.z,
                                      bitangent.x, bitangent.y, bitangent.z];
    }

    /** The face loop of `processMesh`. */
    method ProcessFaces(mesh: AiMesh, vertexOffset: nat) returns (indices: seq<nat>)
      modifies this
      ensures indices == FaceIndices(mesh.faces)
      ensures flatIndices == old(flatIndices) + Shifted(indices, vertexOffset)
      ensures flatVertices == old(flatVertices) && Cache() == old(Cache())
      ensures meshes == old(meshes) && Settings() == old(Settings())
    {
      indices := [];
      ghost var kept := (flatVertices, Cache(), meshes, Settings());
      for i := 0 to |mesh.faces|
        invariant indices == FaceIndices(mesh.faces[..i])
        invariant flatIndices == old(flatIndices) + Shifted(indices, vertexOffset)
        invariant (flatVertices, Cache(), meshes, Settings()) == kept
      {
        indices := AppendFace(old(flatIndices), indices, mesh.faces[i], vertexOffset);
        FaceIndicesSnoc(mesh.faces, i);
      }
      assert mesh.faces[..|mesh.faces|] == mesh.faces;
    }

    /** The inner loop over one face's indices: each goes to `indices` as is
        and to `flatIndices` shifted by `vertexOffset`. */
    method AppendFace(ghost base: seq<int>, indices: seq<nat>, face: seq<nat>, vertexOffset: nat) returns (extended: seq<nat>)
      requires flatIndices == base + Shifted(indices, vertexOffset)
      modifies this
      ensures extended == indices + face
      ensures flatIndices == base + Shifted(extended, vertexOffset)
      ensures flatVertices == old(flatVertices) && Cache() == old(Cache())
      ensures meshes == old(meshes) && Settings() == old(Settings())
    {
      extended := indices;
      ghost var kept := (flatVertices, Cache(), meshes, Settings());
      for j := 0 to |face|
        invariant extended == indices + face[..j]
        invariant flatIndices == base + Shifted(extended, vertexOffset)
        invariant (flatVertices, Cache(), meshes, Settings()) == kept
      {
        ShiftedSnoc(extended, face[j], vertexOffset);
        assert face[..j + 1] == face[..j] + [face[j]];
        extended := extended + [face[j]];
        flatIndices := flatIndices + [face[j] + vertexOffset];
      }
      assert face[..|face|] == face;
    }

    /** The material part of `processMesh`: diffuse, specular, HEIGHT and
        AMBIENT textures, in that order. */
    method ProcessMaterial(material: Material) returns (textures: seq<Texture>)
      requires DistinctPaths(texturesLoaded)
      modifies this
      ensures Resolution(Cache(), textures) == MaterialTextures(old(Cache()), material, directory)
      ensures flatVertices == old(flatVertices) && flatIndices == old(flatIndices)
      ensures meshes == old(meshes) && Settings() == old(Settings())
      ensures DistinctPaths(texturesLoaded)
    {
      var diffuseMaps := LoadMaterialTextures(material.diffuse, DiffuseKind);
      var specularMaps := LoadMaterialTextures(material.specular, SpecularKind);
      var normalMaps := LoadMaterialTextures(material.height, "texture_normal");
      var heightMaps := LoadMaterialTextures(material.ambient, "texture_height");
      textures := [] + diffuseMaps + specularMaps + normalMaps + heightMaps;
      assert [] + diffuseMaps == diffuseMaps;
    }

    /** `loadMaterialTextures`: each path is looked up in the cache; a hit
        reuses the first cached texture with that path, a miss creates a new
        texture under `typeName` and appends it to the cache. */
    method LoadMaterialTextures(paths: seq<string>, typeName: string) returns (textures: seq<Texture>)
      requires DistinctPaths(texturesLoaded)
      modifies this
      ensures Resolution(Cache(), textures) == Resolve(old(Cache()), paths, typeName, directory)
      ensures flatVertices == old(flatVertices) && flatIndices == old(flatIndices)
      ensures meshes == old(meshes) && Settings() == old(Settings())
      ensures DistinctPaths(texturesLoaded)
    {
      textures := [];
      ghost var kept := (flatVertices, flatIndices, meshes, Settings());
      for i := 0 to |paths|
        invariant Resolution(Cache(), textures) == Resolve(old(Cache()), paths[..i], typeName, directory)
        invariant (flatVertices, flatIndices, meshes, Settings()) == kept
        invariant DistinctPaths(texturesLoaded)
      {
        ResolveSnoc(old(Cache()), paths, i, typeName, directory);
        var texture := LoadTexture(paths[i], typeName);
        textures := textures + [texture];
      }
      assert paths[..|paths|] == paths;
    }

    /** One iteration of `loadMaterialTextures`: the search of
        `textures_loaded` for the path, then either the cached texture or a
        new one, which is also cached. */
    method LoadTexture(path: string, typeName: string) returns (texture: Texture)
      requires DistinctPaths(texturesLoaded)
      modifies this
      ensures (Cache(), texture) == ResolveOne(old(Cache()), path, typeName, directory)
      ensures flatVertices == old(flatVertices) && flatIndices == old(flatIndices)
      ensures meshes == old(meshes) && Settings() == old(Settings())
      ensures DistinctPaths(texturesLoaded)
    {
      var skip := false;
      var j := 0;
      while j < |texturesLoaded|
        invariant 0 <= j <= |texturesLoaded|
        invariant forall k :: 0 <= k < j ==> texturesLoaded[k].path != path
        invariant !skip
      {
        if texturesLoaded[j].path == path {
          texture := texturesLoaded[j];
          skip := true;
          break;
        }
        j := j + 1;
      }
      if !skip {
        assert FindPath(texturesLoaded, path, 0).None?;
        var id := TextureFromFile(path);
        texture := Texture(id, typeName, path);
        texturesLoaded := texturesLoaded + [texture];
      } else {
        assert FindPath(texturesLoaded, path, 0) == Some(j);
      }
    }

    /** The bookkeeping of `TextureFromFile`: a new texture name, and a load
        from the embedded texture named after a leading '*' or else from the
        file `directory + '/' + path`. */
    method TextureFromFile(path: string) returns (id: nat)
      modifies this
      ensures id == old(nextTextureName) && nextTextureName == id + 1
      ensures textureRequests == old(textureRequests) + [SourceOf(path, directory)]
      ensures texturesLoaded == old(texturesLoaded) && flatVertices == old(flatVertices) && flatIndices == old(flatIndices)
      ensures meshes == old(meshes) && Settings() == old(Settings())
    {
      id := nextTextureName;
      nextTextureName := nextTextureName + 1;
      var source;
      if |path| > 0 && path[0] == '*' {
        source := Embedded(path[1..]);
      } else {
        source := External(directory + "/" + path);
      }
      textureRequests := textureRequests + [source];
    }

    /** `syncSoftBodyVertices`: the whole of `flatVertices` is written to
        every mesh's vertex buffer from offset 0. */
    method SyncSoftBodyVertices()
      requires Valid()
      modifies set i | 0 <= i < |meshes| :: meshes[i].vertexBuffer
      ensures forall i :: 0 <= i < |meshes| ==>
                meshes[i].vertexBuffer[..] == Overwritten(old(meshes[i].vertexBuffer[..]), flatVertices)
    {
      for i := 0 to |meshes|
        invariant forall k :: 0 <= k < i ==>
                    meshes[k].vertexBuffer[..] == Overwritten(old(meshes[k].vertexBuffer[..]), flatVertices)
        invariant forall k :: i <= k < |meshes| ==> meshes[k].vertexBuffer[..] == old(meshes[k].vertexBuffer[..])
      {
        var _ := meshes[i].UpdateVertices(flatVertices);
      }
    }

    /** `setPosition`: column 3 becomes (position, 1); the rest is kept. */
    method SetPosition(position: Vec3)
      modifies this`transform
      ensures transform == old(transform).WithTranslation(position)
      ensures Valid() == old(Valid()) && State() == old(State())
    {
      transform := transform.WithTranslation(position);
      assert Records(meshes) == old(Records(meshes));
    }

    /** `setRotation`: the transform becomes the rotation matrix (built by
        glm from an angle and axis, or from a quaternion) with the old
        translation put back into column 3. */
    method SetRotation(rotation: Mat4)
      modifies this`transform
      ensures transform == rotation.WithTranslation(old(transform).c3.Xyz())
      ensures Valid() == old(Valid()) && State() == old(State())
    {
      var translation := transform.c3.Xyz();
      transform := rotation;
      transform := transform.WithTranslation(translation);
      assert Records(meshes) == old(Records(meshes));
    }

    /** `setTransform`: the transform is replaced. */
    method SetTransform(t: Mat4)
      modifies this`transform
      ensures transform == t
      ensures Valid() == old(Valid()) && State() == old(State())
    {
      transform := t;
      assert Records(meshes) == old(Records(meshes));
    }
  }

  /** Rotating after `setPosition(p)` keeps the position p. */
  lemma RotationKeepsPosition(m: Mat4, p: Vec3, rotation: Mat4)
    ensures rotation.WithTranslation(m.WithTranslation(p).c3.Xyz()).c3 == Vec4(p.x, p.y, p.z, 1.0)
  {
  }

  /** Once two meshes have vertices, writing the whole flattened array into
      one mesh's buffer runs past its end, so the write is rejected and the
      buffer keeps its contents. */
  lemma {:induction false} WholeArraySyncWritesNothing(rs: seq<MeshRecord>, buffer: seq<real>, i: nat, j: nat)
    requires i < |rs| && j < |rs| && i != j && |rs[j].vertices| > 0
    requires |buffer| == VertexFloats * |rs[i].vertices|
    ensures Overwritten(buffer, Flatten(AllVertices(rs))) == buffer
  {
    FlatOutgrowsEachMesh(rs, i, j);
    FlattenLength(rs[i].vertices);
  }
}
