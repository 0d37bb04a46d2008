/** What `Model::processNode` and `Model::processMesh` compute, as functions
    of the loader's accumulated state, and the walk's properties: records come
    out in depth-first pre-order with the product of the transforms from the
    root, and the flattened vertex array is the concatenation of the records'
    vertices. */
module Loading {
  import opened Geometry
  import opened Meshes
  import opened SceneImport

  /** The accumulators the loader shares across meshes: `flatVertices`,
      `flatIndices` and the texture cache. */
  datatype Buffers = Buffers(flatVertices: seq<real>, flatIndices: seq<int>, cache: TextureCache)

  /** What the loader has produced so far: one record per mesh, in order,
      and the shared accumulators. */
  datatype Loaded = Loaded(records: seq<MeshRecord>, buffers: Buffers)

  /** The textures of a material in the order `processMesh` gathers them:
      diffuse, specular, HEIGHT and AMBIENT, under the type names
      "texture_diffuse", "texture_specular", "texture_normal" and
      "texture_height". */
  function MaterialTextures(cache: TextureCache, material: Material, directory: string): Resolution {
    var d := Resolve(cache, material.diffuse, DiffuseKind, directory);
    var s := Resolve(d.cache, material.specular, SpecularKind, directory);
    var n := Resolve(s.cache, material.height, "texture_normal", directory);
    var h := Resolve(n.cache, material.ambient, "texture_height", directory);
    Resolution(h.cache, d.textures + s.textures + n.textures + h.textures)
  }

  /** `processMesh`: the mesh's record (with an identity transform) and the
      accumulators after it. */
  function ProcessedMesh(b: Buffers, scene: Scene, mesh: AiMesh, directory: string): (MeshRecord, Buffers)
    requires mesh.WellFormed() && mesh.materialIndex < |scene.materials|
  {
    var vertices := VerticesOf(mesh);
    var indices := FaceIndices(mesh.faces);
    var textures := MaterialTextures(b.cache, scene.materials[mesh.materialIndex], directory);
    (MeshRecord(vertices, indices, textures.textures, Identity),
     Buffers(b.flatVertices + Flatten(vertices),
             b.flatIndices + Shifted(indices, VertexOffset(b.flatVertices)),
             textures.cache))
  }

  /** The flattened arrays grow by exactly the new mesh: 14 floats per vertex
      in vertex order, and one entry per face index, each the local index plus
      the offset taken from the float count before the mesh. */
  lemma ProcessedMeshAppends(b: Buffers, scene: Scene, mesh: AiMesh, directory: string)
    requires mesh.WellFormed() && mesh.materialIndex < |scene.materials|
    ensures var pm := ProcessedMesh(b, scene, mesh, directory);
            && |pm.1.flatVertices| == |b.flatVertices| + VertexFloats * |mesh.positions|
            && pm.1.flatVertices[..|b.flatVertices|] == b.flatVertices
            && |pm.1.flatIndices| == |b.flatIndices| + |pm.0.indices|
            && pm.1.flatIndices[..|b.flatIndices|] == b.flatIndices
            && forall k :: 0 <= k < |pm.0.indices| ==>
                 pm.1.flatIndices[|b.flatIndices| + k] == pm.0.indices[k] + |b.flatVertices| / 3
  {
    var pm := ProcessedMesh(b, scene, mesh, directory);
    FlattenLength(VerticesOf(mesh));
    var indices := FaceIndices(mesh.faces);
    ShiftedLength(indices, VertexOffset(b.flatVertices));
    forall k | 0 <= k < |indices|
      ensures pm.1.flatIndices[|b.flatIndices| + k] == indices[k] + |b.flatVertices| / 3
    {
      ShiftedAt(indices, VertexOffset(b.flatVertices), k);
    }
  }

  /** The offset is not the number of vertices already flattened: after `k`
      earlier vertices (14 k floats) the first index of the next mesh is moved
      by floor(14 k / 3), which is more than `k` once `k` is positive. For two
      triangles the second one's indices 0, 1, 2 become 14, 15, 16. */
  lemma ProcessedMeshOffsetOvershoots(b: Buffers, scene: Scene, mesh: AiMesh, directory: string, k: nat)
    requires mesh.WellFormed() && mesh.materialIndex < |scene.materials|
    requires |b.flatVertices| == VertexFloats * k && 0 < k
    requires FaceIndices(mesh.faces) != []
    ensures var pm := ProcessedMesh(b, scene, mesh, directory);
            pm.1.flatIndices[|b.flatIndices|] == pm.0.indices[0] + VertexFloats * k / 3
            && pm.1.flatIndices[|b.flatIndices|] > pm.0.indices[0] + k
            && (k == 3 ==> pm.1.flatIndices[|b.flatIndices|] == pm.0.indices[0] + 14)
  {
    ProcessedMeshAppends(b, scene, mesh, directory);
  }

  // ---------------------------------------------------------------- the walk

  /** How one mesh reference is turned into a record and new accumulators. */
  type MeshProcessor = (Buffers, nat) -> (MeshRecord, Buffers)

  /** `processMesh` applied to mesh `id` of the scene. A reference the
      importer never produces (no such mesh) yields an empty record. */
  function Processor(scene: Scene, directory: string): MeshProcessor {
    (b: Buffers, id: nat) =>
      if Processable(scene, id) then ProcessedMesh(b, scene, scene.meshes[id], directory)
      else (MeshRecord([], [], [], Identity), b)
  }

  /** The first `n` mesh references of a node, each processed and given the
      node's transform (`processedMesh.transform = nodeTransform`). */
  function MeshesWalk(process: MeshProcessor, st: Loaded, ids: seq<nat>, n: nat, transform: Mat4): Loaded
    requires n <= |ids|
  {
    if n == 0 then st
    else
      var prev := MeshesWalk(process, st, ids, n - 1, transform);
      var pm := process(prev.buffers, ids[n - 1]);
      Loaded(prev.records + [pm.0.(transform := transform)], pm.1)
  }

  lemma MeshesWalkStep(process: MeshProcessor, st: Loaded, ids: seq<nat>, n: nat, transform: Mat4)
    requires n < |ids|
    ensures var prev := MeshesWalk(process, st, ids, n, transform);
            var pm := process(prev.buffers, ids[n]);
            MeshesWalk(process, st, ids, n + 1, transform) == Loaded(prev.records + [pm.0.(transform := transform)], pm.1)
  {
  }

  /** `processNode`: the node's transform is the parent's times its own local
      transform; its own meshes come first, then each child's subtree. */
  function NodeWalk(process: MeshProcessor, st: Loaded, node: Node, parent: Mat4): Loaded
    decreases node, 1
  {
    var t := Mul(parent, ToGlm(node.local));
    ChildrenWalk(process, MeshesWalk(process, st, node.meshIds, |node.meshIds|, t), node.children, |node.children|, t)
  }

  /** The subtrees of the first `n` children, in order. */
  function ChildrenWalk(process: MeshProcessor, st: Loaded, children: seq<Node>, n: nat, parent: Mat4): Loaded
    requires n <= |children|
    decreases children, n
  {
    if n == 0 then st else NodeWalk(process, ChildrenWalk(process, st, children, n - 1, parent), children[n - 1], parent)
  }

  lemma ChildrenWalkStep(process: MeshProcessor, st: Loaded, children: seq<Node>, n: nat, parent: Mat4)
    requires n < |children|
    ensures ChildrenWalk(process, st, children, n + 1, parent)
            == NodeWalk(process, ChildrenWalk(process, st, children, n, parent), children[n], parent)
  {
  }

  // ---------------------------------------------------------------- reference

  /** The product of the local transforms along a root-to-node path, parent
      first, starting from the identity. */
  function PathTransform(path: seq<AiMatrix>): Mat4 {
    if path == [] then Identity else Mul(PathTransform(path[..|path| - 1]), ToGlm(path[|path| - 1]))
  }

  /** One mesh reference met by the walk, with the local transforms of the
      nodes from the root down to the node holding it. */
  datatype Placement = Placement(meshId: nat, path: seq<AiMatrix>)

  /** A node's own mesh references, in `mMeshes` order. */
  function Own(ids: seq<nat>, path: seq<AiMatrix>): seq<Placement> {
    seq(|ids|, i requires 0 <= i < |ids| => Placement(ids[i], path))
  }

  /** The mesh references of a subtree in depth-first pre-order: the node's
      own, in order, then each child's subtree, children in order. */
  function PreOrder(node: Node, ancestors: seq<AiMatrix>): seq<Placement>
    decreases node, 1
  {
    var path := ancestors + [node.local];
    Own(node.meshIds, path) + PreOrderChildren(node.children, |node.children|, path)
  }

  function PreOrderChildren(children: seq<Node>, n: nat, ancestors: seq<AiMatrix>): seq<Placement>
    requires n <= |children|
    decreases children, n
  {
    if n == 0 then [] else PreOrderChildren(children, n - 1, ancestors) + PreOrder(children[n - 1], ancestors)
  }

  /** The part of a mesh record the walk decides without the texture cache. */
  datatype Shape = Shape(vertices: seq<Vertex>, indices: seq<nat>, transform: Mat4)

  function Shapes(rs: seq<MeshRecord>): seq<Shape> {
    seq(|rs|, i requires 0 <= i < |rs| => Shape(rs[i].vertices, rs[i].indices, rs[i].transform))
  }

  /** The vertices and indices each mesh reference should get. */
  type GeometryMap = nat -> (seq<Vertex>, seq<nat>)

  /** Whether `processMesh` can run on mesh `id` of the scene. */
  predicate Processable(scene: Scene, id: nat) {
    id < |scene.meshes| && scene.meshes[id].WellFormed() && scene.meshes[id].materialIndex < |scene.materials|
  }

  /** The vertices and indices `processMesh` gives each mesh of the scene. */
  function SceneGeometry(scene: Scene): GeometryMap {
    (id: nat) => if Processable(scene, id) then (VerticesOf(scene.meshes[id]), FaceIndices(scene.meshes[id].faces)) else ([], [])
  }

  /** The record the walk must produce for one placement. */
  function ShapeOf(geometry: GeometryMap, p: Placement): Shape {
    Shape(geometry(p.meshId).0, geometry(p.meshId).1, PathTransform(p.path))
  }

  /** The records the walk must produce for these placements. */
  function Expected(geometry: GeometryMap, ps: seq<Placement>): seq<Shape> {
    seq(|ps|, i requires 0 <= i < |ps| => ShapeOf(geometry, ps[i]))
  }

  /** A processor that gives every mesh reference the expected vertices and
      indices. */
  ghost predicate KeepsGeometry(process: MeshProcessor, geometry: GeometryMap) {
    forall b: Buffers, id: nat :: KeepsGeometryAt(process, geometry, b, id)
  }

  /** The record made for mesh `id` from accumulators `b` has the expected
      vertices and indices. */
  ghost predicate KeepsGeometryAt(process: MeshProcessor, geometry: GeometryMap, b: Buffers, id: nat) {
    process(b, id).0.vertices == geometry(id).0 && process(b, id).0.indices == geometry(id).1
  }

  lemma ProcessorKeepsGeometry(scene: Scene, directory: string)
    ensures KeepsGeometry(Processor(scene, directory), SceneGeometry(scene))
  {
  }

  lemma ShapesSnoc(rs: seq<MeshRecord>, r: MeshRecord)
    ensures Shapes(rs + [r]) == Shapes(rs) + [Shape(r.vertices, r.indices, r.transform)]
  {
  }

  lemma ExpectedSnoc(geometry: GeometryMap, ps: seq<Placement>, p: Placement)
    ensures Expected(geometry, ps + [p]) == Expected(geometry, ps) + [ShapeOf(geometry, p)]
  {
  }

  lemma ExpectedAppend(geometry: GeometryMap, a: seq<Placement>, b: seq<Placement>)
    ensures Expected(geometry, a + b) == Expected(geometry, a) + Expected(geometry, b)
  {
  }

  lemma OwnSnoc(ids: seq<nat>, n: nat, path: seq<AiMatrix>)
    requires 0 < n <= |ids|
    ensures Own(ids[..n], path) == Own(ids[..n - 1], path) + [Placement(ids[n - 1], path)]
  {
    assert ids[..n][..n - 1] == ids[..n - 1];
  }

  /** Two appends in a row, regrouped. */
  lemma AppendChain<T>(whole: seq<T>, prev: seq<T>, rs: seq<T>, e1: seq<T>, e2: seq<T>, e: seq<T>)
    requires whole == prev + e2 && prev == rs + e1 && e == e1 + e2
    ensures whole == rs + e
  {
    assert (rs + e1) + e2 == rs + (e1 + e2);
  }

  /** One more mesh of the node: one more record, shaped as its placement. */
  lemma MeshesWalkSnoc(process: MeshProcessor, geometry: GeometryMap, st: Loaded, ids: seq<nat>, n: nat, path: seq<AiMatrix>)
    requires KeepsGeometry(process, geometry) && 0 < n <= |ids|
    ensures Shapes(MeshesWalk(process, st, ids, n, PathTransform(path)).records)
            == Shapes(MeshesWalk(process, st, ids, n - 1, PathTransform(path)).records)
               + [ShapeOf(geometry, Placement(ids[n - 1], path))]
  {
    var prev := MeshesWalk(process, st, ids, n - 1, PathTransform(path));
    var pm := process(prev.buffers, ids[n - 1]);
    assert KeepsGeometryAt(process, geometry, prev.buffers, ids[n - 1]);
    ShapesSnoc(prev.records, pm.0.(transform := PathTransform(path)));
  }

  /** Processing the first `n` meshes of a node appends their records, in
      order, each with the node's path transform. */
  lemma {:induction false} MeshesWalkFollowsOwn(process: MeshProcessor, geometry: GeometryMap, st: Loaded, ids: seq<nat>, n: nat, path: seq<AiMatrix>)
    requires KeepsGeometry(process, geometry) && n <= |ids|
    ensures Shapes(MeshesWalk(process, st, ids, n, PathTransform(path)).records)
            == Shapes(st.records) + Expected(geometry, Own(ids[..n], path))
  {
    if n > 0 {
      var t := PathTransform(path);
      var own, p := Own(ids[..n - 1], path), Placement(ids[n - 1], path);
      MeshesWalkFollowsOwn(process, geometry, st, ids, n - 1, path);
      MeshesWalkSnoc(process, geometry, st, ids, n, path);
      OwnSnoc(ids, n, path);
      ExpectedSnoc(geometry, own, p);
      AppendChain(Shapes(MeshesWalk(process, st, ids, n, t).records), Shapes(MeshesWalk(process, st, ids, n - 1, t).records),
                  Shapes(st.records), Expected(geometry, own), [ShapeOf(geometry, p)], Expected(geometry, Own(ids[..n], path)));
    }
  }

  /** The walk from `node` appends one record per placement of
      `PreOrder(node, ancestors)`, in that order, with the vertices and
      indices of the referenced mesh and the transform of the placement's
      path. */
  lemma {:induction false} NodeWalkFollowsPreOrder(process: MeshProcessor, geometry: GeometryMap, st: Loaded, node: Node, ancestors: seq<AiMatrix>)
    requires KeepsGeometry(process, geometry)
    ensures Shapes(NodeWalk(process, st, node, PathTransform(ancestors)).records)
            == Shapes(st.records) + Expected(geometry, PreOrder(node, ancestors))
    decreases node, 1
  {
    var path := ancestors + [node.local];
    var ids, children := node.meshIds, node.children;
    var t := PathTransform(path);
    assert t == Mul(PathTransform(ancestors), ToGlm(node.local)) by {
      assert path[..|path| - 1] == ancestors;
    }
    var mid := MeshesWalk(process, st, ids, |ids|, t);
    var own, kids := Own(ids, path), PreOrderChildren(children, |children|, path);
    assert ids[..|ids|] == ids;
    MeshesWalkFollowsOwn(process, geometry, st, ids, |ids|, path);
    ChildrenWalkFollowsPreOrder(process, geometry, mid, children, |children|, path);
    ExpectedAppend(geometry, own, kids);
    AppendChain(Shapes(ChildrenWalk(process, mid, children, |children|, t).records), Shapes(mid.records),
                Shapes(st.records), Expected(geometry, own), Expected(geometry, kids), Expected(geometry, own + kids));
  }

  lemma {:induction false} ChildrenWalkFollowsPreOrder(process: MeshProcessor, geometry: GeometryMap, st: Loaded, children: seq<Node>, n: nat, ancestors: seq<AiMatrix>)
    requires KeepsGeometry(process, geometry) && n <= |children|
    ensures Shapes(ChildrenWalk(process, st, children, n, PathTransform(ancestors)).records)
            == Shapes(st.records) + Expected(geometry, PreOrderChildren(children, n, ancestors))
    decreases children, n
  {
    if n > 0 {
      var t := PathTransform(ancestors);
      var prev := ChildrenWalk(process, st, children, n - 1, t);
      var a, b := PreOrderChildren(children, n - 1, ancestors), PreOrder(children[n - 1], ancestors);
      ChildrenWalkFollowsPreOrder(process, geometry, st, children, n - 1, ancestors);
      NodeWalkFollowsPreOrder(process, geometry, prev, children[n - 1], ancestors);
      ExpectedAppend(geometry, a, b);
      AppendChain(Shapes(NodeWalk(process, prev, children[n - 1], t).records), Shapes(prev.records),
                  Shapes(st.records), Expected(geometry, a), Expected(geometry, b), Expected(geometry, a + b));
    }
  }

  // ---------------------------------------------------------------- flat vertices

  /** The vertices of the records, record after record. */
  function AllVertices(rs: seq<MeshRecord>): seq<Vertex> {
    if rs == [] then [] else AllVertices(rs[..|rs| - 1]) + rs[|rs| - 1].vertices
  }

  /** `flatVertices` holds exactly the flattened vertices of the records. */
  predicate FlatCoherent(st: Loaded) {
    st.buffers.flatVertices == Flatten(AllVertices(st.records))
  }

  /** A processor that appends the flattened vertices of the record it makes. */
  ghost predicate AppendsFlattened(process: MeshProcessor) {
    forall b: Buffers, id: nat :: AppendsFlattenedAt(process, b, id)
  }

  ghost predicate AppendsFlattenedAt(process: MeshProcessor, b: Buffers, id: nat) {
    process(b, id).1.flatVertices == b.flatVertices + Flatten(process(b, id).0.vertices)
  }

  lemma ProcessorAppendsFlattened(scene: Scene, directory: string)
    ensures AppendsFlattened(Processor(scene, directory))
  {
    forall b: Buffers, id: nat
      ensures AppendsFlattenedAt(Processor(scene, directory), b, id)
    {
      if !Processable(scene, id) {
        assert b.flatVertices + Flatten([]) == b.flatVertices;
      }
    }
  }

  lemma AllVerticesSnoc(rs: seq<MeshRecord>, r: MeshRecord)
    ensures AllVertices(rs + [r]) == AllVertices(rs) + r.vertices
  {
    assert (rs + [r])[..|rs|] == rs;
  }

  lemma {:induction false} MeshesWalkKeepsFlat(process: MeshProcessor, st: Loaded, ids: seq<nat>, n: nat, transform: Mat4)
    requires AppendsFlattened(process) && FlatCoherent(st) && n <= |ids|
    ensures FlatCoherent(MeshesWalk(process, st, ids, n, transform))
  {
    if n > 0 {
      var prev := MeshesWalk(process, st, ids, n - 1, transform);
      MeshesWalkKeepsFlat(process, st, ids, n - 1, transform);
      var pm := process(prev.buffers, ids[n - 1]);
      assert AppendsFlattenedAt(process, prev.buffers, ids[n - 1]);
      var r := pm.0.(transform := transform);
      AllVerticesSnoc(prev.records, r);
      FlattenAppend(AllVertices(prev.records), r.vertices);
    }
  }

  /** The flattened vertex array stays the concatenation of the records'
      vertices across the whole walk. */
  lemma {:induction false} NodeWalkKeepsFlat(process: MeshProcessor, st: Loaded, node: Node, parent: Mat4)
    requires AppendsFlattened(process) && FlatCoherent(st)
    ensures FlatCoherent(NodeWalk(process, st, node, parent))
    decreases node, 1
  {
    var t := Mul(parent, ToGlm(node.local));
    MeshesWalkKeepsFlat(process, st, node.meshIds, |node.meshIds|, t);
    ChildrenWalkKeepsFlat(process, MeshesWalk(process, st, node.meshIds, |node.meshIds|, t), node.children, |node.children|, t);
  }

  lemma {:induction false} ChildrenWalkKeepsFlat(process: MeshProcessor, st: Loaded, children: seq<Node>, n: nat, parent: Mat4)
    requires AppendsFlattened(process) && FlatCoherent(st) && n <= |children|
    ensures FlatCoherent(ChildrenWalk(process, st, children, n, parent))
    decreases children, n
  {
    if n > 0 {
      ChildrenWalkKeepsFlat(process, st, children, n - 1, parent);
      NodeWalkKeepsFlat(process, ChildrenWalk(process, st, children, n - 1, parent), children[n - 1], parent);
    }
  }

  /** With a second record that has vertices, the flattened array is longer
      than any one record's flattened vertices. */
  lemma {:induction false} FlatOutgrowsEachMesh(rs: seq<MeshRecord>, i: nat, j: nat)
    requires i < |rs| && j < |rs| && i != j && |rs[j].vertices| > 0
    ensures |Flatten(rs[i].vertices)| < |Flatten(AllVertices(rs))|
  {
    var n := |rs|;
    var front := rs[..n - 1];
    assert rs == front + [rs[n - 1]];
    AllVerticesSnoc(front, rs[n - 1]);
    FlattenAppend(AllVertices(front), rs[n - 1].vertices);
    FlattenLength(rs[n - 1].vertices);
    if i == n - 1 {
      assert j < n - 1;
      VerticesContain(front, j);
      FlattenLength(rs[j].vertices);
      FlattenLength(AllVertices(front));
    } else if j == n - 1 {
      VerticesContain(front, i);
    } else {
      FlatOutgrowsEachMesh(front, i, j);
    }
  }

  /** A record's vertices are no more than all the vertices. */
  lemma {:induction false} VerticesContain(rs: seq<MeshRecord>, i: nat)
    requires i < |rs|
    ensures |Flatten(rs[i].vertices)| <= |Flatten(AllVertices(rs))|
  {
    var n := |rs|;
    var front := rs[..n - 1];
    assert rs == front + [rs[n - 1]];
    AllVerticesSnoc(front, rs[n - 1]);
    FlattenAppend(AllVertices(front), rs[n - 1].vertices);
    if i < n - 1 {
      VerticesContain(front, i);
    }
  }
}
