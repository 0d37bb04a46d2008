# shader-engine core in Dafny

This project models the engine core of shader-engine, a small C++ OpenGL
renderer. It covers five parts:

- **Model loader** (`Model`). It imports an assimp scene and walks the node tree depth first. Each node's transform is the product of the transforms on the path from the root. One mesh record is made per mesh reference. Vertices and indices are also flattened into the shared `flatVertices`/`flatIndices` arrays used for soft bodies. Texture paths are resolved through a cache, so each path is loaded once. The loader also has the transform setters and the soft-body vertex sync.
- **Mesh and vertex array** (`Mesh`, `VertexArray`). A mesh uploads its buffers at construction. Drawing binds its textures under numbered sampler names (`material.texture_diffuse1`, …) and issues the draw call. A vertex update overwrites the vertex buffer from offset 0. `VertexArray::AddBuffer` describes an interleaved float layout, accumulating its stride and offsets in a 32-bit `GLuint`.
- **Shader** (`Shader`). It splits a single-file source into its `#shader vertex` and `#shader fragment` sections. It also models the `usable`/`ID` life cycle of the program and the memoised uniform locations.
- **Physics** (`Physics`, `RigidBody.h`). This is the Bullet world wrapper: the five context objects, gravity, the `dynamic_cast` shape dispatch that builds a primitive rigid body, convex hulls, and the release order.
- **Camera** (`Camera`, `ProgramValues::KeyEvents`). This is the fly camera: the ESC lock-in toggle and its debounce, the eight held-key flags, mouse look with clamped pitch, zoom with clamped field of view, and movement with sprint.

The driver, SDL and assimp are not modelled as code. What they return (the imported scene, compile results, link status, uniform locations, handles returned by `new`) becomes a parameter. OpenGL commands issued are returned as a sequence of `GlCall` values, and GPU buffers are arrays of floats.

Modules, one per file: `Wrappers`, `Geometry` (glm vectors and matrices), `Text`, `GlCalls`, `VertexArrays`, `Meshes`, `SceneImport` (the assimp scene and the loader's pure helpers), `Loading` (what the loader computes, as functions, and the properties of the walk), `Models` (the `Model` class), `PhysicsWorld`, `Shaders`, `Cameras`.

Where the code does something other than what its comments and names suggest, the model follows the code:

- **Index offset.** `processMesh` offsets a mesh's flattened indices by `flatVertices.size() / 3`. That is the float count divided by three, not the number of vertices already flattened (14 floats per vertex). The model keeps that expression. `Loading.ProcessedMeshOffsetOvershoots` shows that after k > 0 earlier vertices the offset is 14k/3 rounded down, not k.
- **Soft-body sync.** `syncSoftBodyVertices` writes the whole flattened array into every mesh's buffer from offset 0. Once two meshes have vertices, that array is longer than any single mesh's buffer. OpenGL then rejects the write, which is shown by `Models.WholeArraySyncWritesNothing`.
- **Requested gravity.** `Physics::init` applies gravity only when the argument equals the default. Any other request is logged and never applied, so the world keeps Bullet's own gravity (`PhysicsWorld.RequestedGravityIgnored`).
- **Initial shader ID.** The C++ `Shader` constructor leaves `ID` uninitialised. The model starts it at 0.
- **Texture names.** The names `glGenTextures` returns come from a counter that starts at 1. A texture found in the cache keeps the type name it was first loaded under, even when it is requested under another type.

## Model

| member | source | states |
|---|---|---|
| Geometry.Mat4.WithTranslation | source/src/Core/Engine/Model/Model.cpp:203-205 | `m[3] = vec4(p, 1)`: columns 0-2 are kept, and column 3 becomes (p, 1) |
| Geometry.MulIdentity | source/src/Core/Engine/Model/Model.cpp:47-55 | the identity the walk starts from is neutral, so the root's transform is its own local transform |
| Geometry.MulTranslations | source/src/Core/Engine/Model/Model.cpp:54-55 | composing a parent and a child translation translates by the sum of the offsets |
| Text.NatToString | source/src/Core/Engine/Mesh/Mesh.cpp:72-75 | `std::to_string` of a texture ordinal: at least one digit, a single digit exactly below 10, and its last digit is n mod 10 |
| Text.DigitChar | source/src/Core/Engine/Mesh/Mesh.cpp:72-75 | the digit character of a value below 10 is one of '0'..'9' |
| Text.NatToStringInjective | source/src/Core/Engine/Mesh/Mesh.cpp:72-76 | different ordinals print differently |
| Text.JoinAppend | source/src/Core/Engine/Shader/Shader.cpp:53-57 | writing `line << '\n'` for two runs of lines gives the two outputs one after the other |
| VertexArrays.VertexArray.constructor | source/src/Core/Engine/VertexArray/VertexArray.cpp:5 | the array keeps the name `glGenVertexArrays` returned |
| VertexArrays.VertexArray.AddBuffer | source/src/Core/Engine/VertexArray/VertexArray.cpp:13-35 | binds the array and the buffer; enables then points every attribute in order, with the common stride and its own offset, both wrapped to 32 bits; unbinds the buffer and the array |
| VertexArrays.WrapAdd | source/src/Core/Engine/VertexArray/VertexArray.cpp:18-31 | adding to a wrapped `GLuint` accumulator wraps the exact sum, so the running stride and offset equal the wrapped prefix sums |
| VertexArrays.AttribCallsAt | source/src/Core/Engine/VertexArray/VertexArray.cpp:24-31 | call 2i enables attribute i; call 2i+1 points it at `layout[i]` floats with the stride and its prefix-sum offset; there are 2n calls |
| VertexArrays.AttribCallsLength | source/src/Core/Engine/VertexArray/VertexArray.cpp:24-31 | two calls per attribute |
| VertexArrays.SumPrefixBounds | source/src/Core/Engine/VertexArray/VertexArray.cpp:20-22 | with positive counts, longer prefixes of the layout hold strictly more floats |
| VertexArrays.OffsetsIncrease | source/src/Core/Engine/VertexArray/VertexArray.cpp:24-31 | in a layout of positive counts whose vertex fits in 32 bits, attribute offsets strictly increase |
| VertexArrays.LastAttributeEndsAtStride | source/src/Core/Engine/VertexArray/VertexArray.cpp:18-31 | in such a layout the first offset is 0 and the last attribute ends exactly at the stride |
| VertexArrays.MeshVertexLayout | source/src/Core/Engine/Mesh/Mesh.cpp:34-52 | the layout 3,3,2,3,3 gives stride 56 and offsets 0, 12, 24, 32, 44, the `sizeof`/`offsetof` values `setupMesh` passes for `Vertex` |
| Meshes.Components | source/include/Core/Engine/Mesh.h:9-15 | a `Vertex` is 14 floats |
| Meshes.FlattenLength | source/src/Core/Engine/Model/Model.cpp:120-138 | flattening pushes 14 floats per vertex |
| Meshes.FlattenAt | source/src/Core/Engine/Model/Model.cpp:120-138 | float k of vertex i lands at position 14i + k, in member order |
| Meshes.FlattenAppend | source/src/Core/Engine/Model/Model.cpp:120-138 | flattening two runs of vertices concatenates their floats |
| Meshes.CountKindMonotone | source/src/Core/Engine/Mesh/Mesh.cpp:64-78 | the per-kind counters never decrease along the texture list |
| Meshes.OrdinalsIncrease | source/src/Core/Engine/Mesh/Mesh.cpp:64-78 | textures of one kind are numbered from 1 upwards, in list order |
| Meshes.UniformNamesDistinct | source/src/Core/Engine/Mesh/Mesh.cpp:70-76 | two diffuse (or two specular) textures never get the same sampler uniform name |
| Meshes.TextureCallsAt | source/src/Core/Engine/Mesh/Mesh.cpp:68-78 | texture i is bound to unit i and its uniform `material.<type><number>` is set to i |
| Meshes.TextureCallsLength | source/src/Core/Engine/Mesh/Mesh.cpp:68-78 | three calls per texture |
| Meshes.Mesh.constructor | source/src/Core/Engine/Mesh/Mesh.cpp:6-32 | keeps the data with an identity transform; the vertex buffer holds the flattened vertices and the element buffer the indices, each only when its data is non-empty |
| Meshes.Mesh.Draw | source/src/Core/Engine/Mesh/Mesh.cpp:57-91 | without indices nothing is issued; otherwise the texture bindings, `u_Model = model * transform`, ambient, shininess, the draw of all indices, the unbind and the reset to unit 0, in that order |
| Meshes.Mesh.UpdateVertices | source/src/Core/Engine/Mesh/Mesh.cpp:94-99 | the buffer's prefix is replaced by the new floats when they fit, and nothing changes when they do not |
| Meshes.Overwritten | source/src/Core/Engine/Mesh/Mesh.cpp:94-99 | a write from offset 0 keeps the buffer length, replaces exactly the first floats when the data fits, and is rejected otherwise |
| Meshes.OverwriteIdempotent | source/src/Core/Engine/Model/Model.cpp:28-32 | syncing the same vertices twice is the same as syncing them once |
| SceneImport.ToGlm | source/src/Core/Engine/Model/Model.cpp:305-309 | the glm matrix is the transpose of the assimp storage order: column c, row r holds entry (r, c) |
| SceneImport.VerticesOf | source/src/Core/Engine/Model/Model.cpp:78-143 | one vertex per position of the mesh |
| SceneImport.MissingAttributeDefaults | source/src/Core/Engine/Model/Model.cpp:82-118 | positions are copied; a missing normal is (0,1,0), missing texture coordinates are (0,0), and a missing tangent frame is (1,0,0)/(0,0,1) |
| SceneImport.ShiftedAt | source/src/Core/Engine/Model/Model.cpp:145-151 | every flattened index is the face index plus the offset, one per index |
| SceneImport.ShiftedLength | source/src/Core/Engine/Model/Model.cpp:145-151 | one flattened index per face index |
| SceneImport.FaceIndicesSnoc | source/src/Core/Engine/Model/Model.cpp:145-151 | each face appends its indices, in order, after those of the faces before it |
| SceneImport.SourceOf | source/src/Core/Engine/Model/Model.cpp:232-275 | a path starting with '*' is an embedded texture numbered by the rest of the path; any other path is the file `directory + '/' + path` |
| SceneImport.FormatFor | source/src/Core/Engine/Model/Model.cpp:280-282 | 1 channel is RED, 3 is RGB, any other count is RGBA |
| SceneImport.LastIndexOf | source/src/Core/Engine/Model/Model.cpp:46 | `find_last_of`: the index holds the character and no later position does; none means the character is absent |
| SceneImport.DirectoryOf | source/src/Core/Engine/Model/Model.cpp:46 | the directory is the prefix before the last '/', or the whole path when it has none |
| SceneImport.FindPath | source/src/Core/Engine/Model/Model.cpp:184-190 | the first cached texture with an equal path, or none when no cached texture has that path |
| SceneImport.ResolveOne | source/src/Core/Engine/Model/Model.cpp:183-198 | a cached path returns the first cached texture with that path and leaves the cache as it is; an unseen path gets the next texture name and the requested type, is loaded from its source and is appended to the cache |
| SceneImport.ResolveSnoc | source/src/Core/Engine/Model/Model.cpp:178-200 | each loop iteration continues from the cache the previous ones left |
| SceneImport.ResolveTextures | source/src/Core/Engine/Model/Model.cpp:178-200 | one texture per path of the material, in order, each carrying its path |
| SceneImport.ResolveCache | source/src/Core/Engine/Model/Model.cpp:184-198 | `textures_loaded` only grows and never gets two entries with the same path |
| SceneImport.ResolveCacheOrigin | source/src/Core/Engine/Model/Model.cpp:191-198 | every texture the cache gains was requested |
| Loading.ProcessedMeshAppends | source/src/Core/Engine/Model/Model.cpp:69-151 | `processMesh` appends 14 floats per vertex and keeps the earlier floats; it appends one index per face index, each shifted by the float count before the mesh divided by 3 |
| Loading.ProcessedMeshOffsetOvershoots | source/src/Core/Engine/Model/Model.cpp:70-72 | after k > 0 earlier vertices the offset is 14k/3 rounded down, more than k (for k = 3 it is 14) |
| Loading.ProcessorKeepsGeometry | source/src/Core/Engine/Model/Model.cpp:69-171 | the record for mesh i has that mesh's vertices and face indices, whatever the accumulators |
| Loading.ProcessorAppendsFlattened | source/src/Core/Engine/Model/Model.cpp:78-143 | processing a mesh appends exactly its record's flattened vertices |
| Loading.MeshesWalkStep | source/src/Core/Engine/Model/Model.cpp:57-62 | one more iteration of the mesh loop processes the next reference with the accumulators left so far and pushes its record with the node transform |
| Loading.ChildrenWalkStep | source/src/Core/Engine/Model/Model.cpp:64-66 | one more iteration of the child loop walks the next child from the state the previous children left |
| Loading.MeshesWalkSnoc | source/src/Core/Engine/Model/Model.cpp:57-62 | each processed reference adds one record with the expected geometry and the node transform |
| Loading.MeshesWalkFollowsOwn | source/src/Core/Engine/Model/Model.cpp:57-62 | a node's mesh loop appends one record per reference, in `mMeshes` order, each with the node's transform |
| Loading.NodeWalkFollowsPreOrder | source/src/Core/Engine/Model/Model.cpp:52-67 | `processNode` appends the records of the subtree in depth-first pre-order, each with the product of the local transforms from the root |
| Loading.ChildrenWalkFollowsPreOrder | source/src/Core/Engine/Model/Model.cpp:64-66 | the children's subtrees are appended one after another, in child order |
| Loading.MeshesWalkKeepsFlat | source/src/Core/Engine/Model/Model.cpp:57-62 | `flatVertices` stays the flattening of all records' vertices through a node's mesh loop |
| Loading.NodeWalkKeepsFlat | source/src/Core/Engine/Model/Model.cpp:52-67 | the same through a whole subtree |
| Loading.ChildrenWalkKeepsFlat | source/src/Core/Engine/Model/Model.cpp:64-66 | the same through the child loop |
| Loading.FlatOutgrowsEachMesh | source/src/Core/Engine/Model/Model.cpp:28-32 | once another mesh has vertices, the flattened array is longer than any one mesh's flattened vertices |
| Loading.VerticesContain | source/src/Core/Engine/Model/Model.cpp:28-32 | each mesh's flattened vertices are no longer than the whole flattened array |
| Models.Model.constructor | source/src/Core/Engine/Model/Model.cpp:18-20 | identity transform, ambient 0.2, shininess 32, the gamma flag; nothing loaded |
| Models.Model.Load | source/src/Core/Engine/Model/Model.cpp:12-16 | on a failed import nothing is loaded; otherwise the directory comes from the path, the records are the scene's meshes in pre-order with their accumulated transforms, and `flatVertices` flattens them all; every mesh's GPU vertex buffer holds exactly its own flattened vertices |
| Models.Model.LoadModel | source/src/Core/Engine/Model/Model.cpp:34-50 | a missing, incomplete or rootless scene changes nothing; otherwise the directory is set, the tree is walked from the root with the identity, and the records gained follow pre-order; the meshes already there are kept as a prefix and every new mesh's GPU vertex buffer holds exactly its flattened vertices |
| Models.Model.ProcessNode | source/src/Core/Engine/Model/Model.cpp:52-67 | the new state is the walk of the node: own meshes first with `parent * local`, then each child with that transform; earlier meshes stay a prefix and each new mesh's vertex buffer holds its flattened vertices |
| Models.Model.ProcessNodeMeshes | source/src/Core/Engine/Model/Model.cpp:57-62 | the new state is every mesh reference of the node processed and pushed, in order; each pushed mesh's vertex buffer holds its flattened vertices |
| Models.Model.AddNodeMesh | source/src/Core/Engine/Model/Model.cpp:58-61 | one iteration of the mesh loop moves the state one step along the walk and appends one mesh whose vertex buffer holds its flattened vertices |
| Models.Model.PushMesh | source/src/Core/Engine/Model/Model.cpp:60-61 | the processed mesh gets the node transform and is appended to `meshes` and nothing else is added; the accumulators are untouched |
| Models.Model.ProcessMesh | source/src/Core/Engine/Model/Model.cpp:69-171 | the new mesh and accumulators are what `ProcessedMesh` gives; its vertex buffer holds exactly its flattened vertices (14 floats per vertex) and `meshes` is untouched |
| Models.Model.ProcessVertices | source/src/Core/Engine/Model/Model.cpp:78-143 | the mesh's vertices, with `flatVertices` grown by exactly their floats |
| Models.Model.AppendVertex | source/src/Core/Engine/Model/Model.cpp:79-142 | vertex i with its defaults, its 14 floats appended to `flatVertices` |
| Models.Model.ProcessFaces | source/src/Core/Engine/Model/Model.cpp:145-151 | the face indices in order, and `flatIndices` grown by the same indices shifted by the offset |
| Models.Model.AppendFace | source/src/Core/Engine/Model/Model.cpp:146-150 | one face's indices appended to the local list and, shifted, to `flatIndices` |
| Models.Model.ProcessMaterial | source/src/Core/Engine/Model/Model.cpp:153-168 | the textures of the diffuse, specular, HEIGHT and AMBIENT lists in that order, with the cache threaded through |
| Models.Model.LoadMaterialTextures | source/src/Core/Engine/Model/Model.cpp:173-201 | the textures and cache are what `Resolve` gives for the paths, and no path is cached twice |
| Models.Model.LoadTexture | source/src/Core/Engine/Model/Model.cpp:183-198 | one path resolved against the cache as `ResolveOne` says |
| Models.Model.TextureFromFile | source/src/Core/Engine/Model/Model.cpp:225-303 | hands out the next texture name and records the load of the path's source, embedded or external |
| Models.Model.SyncSoftBodyVertices | source/src/Core/Engine/Model/Model.cpp:28-32 | every mesh's vertex buffer becomes the old one overwritten from offset 0 by the whole `flatVertices` |
| Models.Model.SetPosition | source/src/Core/Engine/Model/Model.cpp:203-205 | the transform's column 3 becomes (position, 1) and the rest is kept; only the transform changes, so the loaded meshes and their validity are kept |
| Models.Model.SetRotation | source/src/Core/Engine/Model/Model.cpp:207-219 | the transform becomes the rotation with the old translation put back; only the transform changes, so the loaded meshes and their validity are kept |
| Models.Model.SetTransform | source/src/Core/Engine/Model/Model.cpp:221-223 | the transform is replaced; only the transform changes, so the loaded meshes and their validity are kept |
| Models.RotationKeepsPosition | source/src/Core/Engine/Model/Model.cpp:203-219 | rotating after `setPosition(p)` keeps the position p |
| Models.WholeArraySyncWritesNothing | source/src/Core/Engine/Model/Model.cpp:28-32 | once another mesh has vertices, syncing a mesh leaves its buffer unchanged |
| PhysicsWorld.InfoOf | source/src/Core/Engine/Physics/Physics.cpp:154-162 | the construction info carries the body's mass, shape, inertia, initial rotation and position |
| PhysicsWorld.CreatedRecognised | source/src/Core/Engine/Physics/Physics.cpp:105-146 | each of the six recognised classes is rebuilt as the same class from the body's own parameters (an X- or Z-axis capsule, cylinder or cone, which `dynamic_cast` accepts as its base class, is rebuilt along Y), and the body is initialized with a Bullet body made from its final info |
| PhysicsWorld.CreatedForgetsAxis | source/src/Core/Engine/Physics/Physics.cpp:119-138 | the axis of a capsule, cylinder or cone is lost: bodies differing only in that axis come out identical |
| PhysicsWorld.CreatedInertia | source/src/Core/Engine/Physics/Physics.cpp:105-146 | local inertia is computed for every recognised class but the static plane |
| PhysicsWorld.CreatedUnrecognised | source/src/Core/Engine/Physics/Physics.cpp:105-146 | a null shape or one no `dynamic_cast` test accepts (a convex hull, say) leaves the body untouched and uninitialized |
| PhysicsWorld.Physics.constructor | source/src/Core/Engine/Physics/Physics.cpp:19-21 | every context pointer null and no bodies |
| PhysicsWorld.Physics.Init | source/src/Core/Engine/Physics/Physics.cpp:30-59 | bodies reset, the five objects stored, gravity as `InitialGravity` says, and the result is true exactly when none of the five is null |
| PhysicsWorld.InitialGravity | source/src/Core/Engine/Physics/Physics.cpp:42-49 | the default request sets the default gravity; any other leaves the world's own gravity |
| PhysicsWorld.RequestedGravityIgnored | source/src/Core/Engine/Physics/Physics.cpp:42-49 | the gravity after `init` equals the request exactly when the request is the default or already the world's gravity |
| PhysicsWorld.Physics.SetGravity | source/src/Core/Engine/Physics/Physics.cpp:61-63 | on a live world (not null, not yet released by `free`), the world's gravity becomes the argument and nothing else changes |
| PhysicsWorld.Physics.GetGravity | source/src/Core/Engine/Physics/Physics.cpp:93 | on a live world, returns the world's gravity |
| PhysicsWorld.Physics.AddPrimitiveRigidBody | source/src/Core/Engine/Physics/Physics.cpp:65-73 | the body goes through the dispatch, and one copy is registered exactly when it ends up initialized; only the registry and the body change |
| PhysicsWorld.Physics.CreateRigidBody | source/src/Core/Engine/Physics/Physics.cpp:105-146 | the body becomes `Created` of its old state |
| PhysicsWorld.Physics.AddConvexHullRigidBody | source/src/Core/Engine/Physics/Physics.cpp:75-91 | the hull holds exactly the given points, in order |
| PhysicsWorld.Physics.Free | source/src/Core/Engine/Physics/Physics.cpp:95-103 | releases world, solver, broadphase, dispatcher and configuration, in that order; the pointers keep their values (dangling), so a second `free` releases the same handles again |
| Shaders.NextSection | source/src/Core/Engine/Shader/Shader.cpp:46-51 | a `#shader` line containing "vertex" selects the vertex section, else one containing "fragment" selects the fragment section, else the section is kept; other lines keep it |
| Shaders.EmittedSnoc | source/src/Core/Engine/Shader/Shader.cpp:45-58 | a line joins a section's code exactly when it is not a marker and that section is in force |
| Shaders.SectionAfterAppend | source/src/Core/Engine/Shader/Shader.cpp:45-51 | the section in force after two parts of a file is reached by reading the second from where the first ended |
| Shaders.EmittedAppend | source/src/Core/Engine/Shader/Shader.cpp:45-58 | repeated sections of the same type concatenate in file order |
| Shaders.MarkersNeverEmitted | source/src/Core/Engine/Shader/Shader.cpp:46-52 | no `#shader` line is part of any code |
| Shaders.EmittedLinesComeFromFile | source/src/Core/Engine/Shader/Shader.cpp:45-58 | a section's code has no more lines than the file, each of them from the file |
| Shaders.NoMarkerKeepsSection | source/src/Core/Engine/Shader/Shader.cpp:46-51 | lines without a marker leave the section in force |
| Shaders.PreambleDropped | source/src/Core/Engine/Shader/Shader.cpp:41-58 | lines before the first marker belong to no section |
| Shaders.EmptyWhileUntyped | source/src/Core/Engine/Shader/Shader.cpp:41-58 | while no section is in force no code is produced |
| Shaders.SingleVertexSection | source/src/Core/Engine/Shader/Shader.cpp:41-61 | a file with one `#shader vertex` line on top gives all the rest as vertex code and empty fragment code |
| Shaders.AllEmittedInSection | source/src/Core/Engine/Shader/Shader.cpp:52-57 | without markers every line goes to the section in force |
| Shaders.EmittedElsewhereEmpty | source/src/Core/Engine/Shader/Shader.cpp:52-57 | without markers no other section grows |
| Shaders.JoinOne | source/src/Core/Engine/Shader/Shader.cpp:54-56 | one more line appends the line and a newline |
| Shaders.Lookup | source/src/Core/Engine/Shader/Shader.cpp:117-128 | a cached name returns its location and keeps the cache; an uncached one returns the driver's answer and caches it, −1 included |
| Shaders.LookupIdempotent | source/src/Core/Engine/Shader/Shader.cpp:117-128 | a second lookup of a name returns the first answer and changes nothing, so the driver is asked once per name |
| Shaders.LookupKeepsCache | source/src/Core/Engine/Shader/Shader.cpp:117-128 | a lookup adds only its name and never changes a cached entry |
| Shaders.Shader.constructor | source/src/Core/Engine/Shader/Shader.cpp:8 | not usable, nothing cached |
| Shaders.Shader.ParseShaderSource | source/src/Core/Engine/Shader/Shader.cpp:33-62 | an unreadable file gives ""; otherwise the vertex code for `Vertex` and the fragment code for any other type |
| Shaders.Shader.Init | source/src/Core/Engine/Shader/Shader.cpp:12-31 | when either compile fails nothing changes; otherwise the program is created and validated |
| Shaders.Shader.CreateProgram | source/src/Core/Engine/Shader/Shader.cpp:91-102 | the new program becomes `ID` and is validated |
| Shaders.Shader.ValidateProgram | source/src/Core/Engine/Shader/Shader.cpp:104-115 | a successful link sets `usable`, and a failed one leaves it |
| Shaders.Shader.GetUniformLocation | source/src/Core/Engine/Shader/Shader.cpp:117-128 | the location and new cache are what `Lookup` gives with the driver's answer for this program |
| Shaders.Shader.Bind | source/src/Core/Engine/Shader/Shader.cpp:130-141 | a usable program is made current; an unusable one stops the game and issues nothing |
| Shaders.Shader.Free | source/src/Core/Engine/Shader/Shader.cpp:166-183 | a usable program is unbound and deleted; an unusable one with a name is deleted; both reset `ID` and the cache; with no program nothing happens |
| Cameras.HeldKeyTouchesOnlyItsFlag | source/src/Core/Engine/Camera/Camera.cpp:51-108 | key-down on a held key sets exactly its flag, key-up clears exactly its flag, and the lock-in flags are kept |
| Cameras.OtherEventsKeepFlags | source/src/Core/Engine/Camera/Camera.cpp:35-113 | unknown keys and non-key events change no flag |
| Cameras.EscapeDebounce | source/src/Core/Engine/Camera/Camera.cpp:38-50 | ESC down toggles the lock only when ESC was not already down; ESC up re-arms it |
| Cameras.HeldEscapeTogglesOnce | source/src/Core/Engine/Camera/Camera.cpp:38-50 | holding ESC through any number of repeats toggles the lock once |
| Cameras.EscapeTwiceRestoresLock | source/src/Core/Engine/Camera/Camera.cpp:38-84 | two presses and releases of ESC restore the lock state |
| Cameras.ClampPitch | source/src/Core/Engine/Camera/Camera.cpp:116-129 | pitch ends in [−89, 89] and is unchanged when already inside |
| Cameras.ClampFov | source/src/Core/Engine/Camera/Camera.cpp:135-147 | fov ends in [1, 100] and is unchanged when already inside |
| Cameras.MouseEffects | source/src/Core/Engine/Camera/Camera.cpp:115-148 | while locked in, motion changes yaw and clamped pitch, and the wheel changes clamped fov (five times faster with fast zoom); unlocked, nothing moves |
| Cameras.ForwardBackwardCancel | source/src/Core/Engine/Camera/Camera.cpp:158-169 | forward and backward together cancel |
| Cameras.LeftRightCancel | source/src/Core/Engine/Camera/Camera.cpp:158-169 | left and right together cancel |
| Cameras.UpDownCancel | source/src/Core/Engine/Camera/Camera.cpp:166-169 | up and down together cancel |
| Cameras.SprintIgnoredVertically | source/src/Core/Engine/Camera/Camera.cpp:155-169 | sprinting does not speed up vertical movement |
| Cameras.SprintTriplesHorizontally | source/src/Core/Engine/Camera/Camera.cpp:155-165 | sprinting moves along front and side like walking at three times the speed |
| Cameras.KeyEvents.constructor | source/src/Core/Engine/Camera/Camera.cpp:6-19 | locked in, every other flag clear |
| Cameras.Camera.constructor | source/src/Core/Engine/Camera/Camera.cpp:21-29 | speed 0.05, sensitivity 0.1, fov 45, and the orientation vectors computed from the starting yaw and pitch |
| Cameras.Camera.ProcessKeyboard | source/src/Core/Engine/Camera/Camera.cpp:35-113 | the flags become `AfterKeyboard` of the old flags; the mouse is warped to the window centre exactly when ESC unlocks the camera |
| Cameras.Camera.ProcessMouseMotion | source/src/Core/Engine/Camera/Camera.cpp:115-148 | yaw, pitch and fov become `AfterMouse` of the old ones, and nothing else changes |
| Cameras.Camera.Update | source/src/Core/Engine/Camera/Camera.cpp:150-173 | relative mouse mode follows the lock; while locked in, the position moves as `Moved` says and the vectors are recomputed; unlocked, nothing changes |
| Cameras.Camera.UpdateCameraVectors | source/src/Core/Engine/Camera/Camera.cpp:175-184 | front, right and up are recomputed from yaw, pitch and world up, and nothing else changes |

## Left out

- `Model::Draw` is left out. It is a loop calling `Mesh::Draw` with the model's transform, ambient and shininess, and `Meshes.Mesh.Draw` covers one such call.
- `Camera::getViewMatrix` and `getFOV` are left out: `glm::lookAt` is floating-point library arithmetic.
- Cameras.Camera.UpdateCameraVectors: the trigonometry and normalisation are a function parameter (`orient`). The normalised cross product in `update` is one too (`side`). Only where their results go is stated.
- Cameras.Camera.ProcessKeyboard: `SDL_WarpMouseInWindow` is returned as a value, and `SDL_SetRelativeMouseMode` in `update` as the returned mode. Window sizes are parameters.
- Cameras.Camera.constructor: the initial front (0, 0, −1) is not kept, because the constructor's own `updateCameraVectors` call overwrites it.
- The eight held-key booleans of `ProgramValues::KeyEvents` are modelled as the set of keys whose flag is set.
- Floating-point arithmetic is modelled as exact real arithmetic throughout: glm vectors, camera movement, clamping and Bullet values.
- `Shader::compileShader`, the attach/link/validate GL calls and `glDeleteShader` are left out. The driver's answers are parameters: a compile result (0 for failure), the program name and the link status.
- The `Shader` destructor, `unbind` and the `set*` uniform wrappers are left out; they are one GL call each around `getUniformLocation`. The destructors of `Mesh`, `VertexArray` and `Physics` are left out too.
- `VertexArray::Bind`/`Unbind` are left out as separate members. `AddBuffer`'s calls to them appear in its command list.
- `Game` is reduced to its running flag. The rest of the game loop is outside this core.
- Logging (`spdlog`, `Logger`) is left out. It has no effect on state.
- Meshes.Mesh.constructor: the `glVertexAttribPointer` calls of `setupMesh` are not part of its result. Their offsets and stride are stated by `VertexArrays.MeshVertexLayout`.
- Models.Model.TextureFromFile: pixel decoding (`stb_image`), the `std::stoi` of an embedded index and the GL texture upload are left out. Only the new name and the source read are recorded. `glGenTextures` is modelled as a counter starting at 1.
- Models.Model.LoadModel: the assimp import is a parameter (`None` when `ReadFile` fails), and post-processing flags are not modelled. The importer's guarantees are a precondition: every mesh reference names a mesh of the scene, and attribute arrays have one entry per vertex.
- Models.Model.ProcessNode: `unsigned int` index widths are not modelled. Indices and offsets are unbounded naturals, so a `vertexOffset` beyond `int` is not captured.
- PhysicsWorld.Physics.Init: the handles returned by `new` are parameters. The model does not capture the null world being dereferenced before the null check (lines 45 and 51-58), because it stores gravity without a world. The `false` result cannot happen in C++, where a failed `new` throws `std::bad_alloc` instead of returning null; it is kept because the source tests for it.
- PhysicsWorld.Physics.AddPrimitiveRigidBody: `calcLocalInertia` is a parameter (`localInertia`). `createDefaultMotionState` is folded into `BodyInfo`. Adding the body to the Bullet world is not modelled.
- PhysicsWorld.Physics.AddConvexHullRigidBody: the `!hull` check after `new` is dead code in C++ and is not modelled.
- `RigidBody.h` declares the rigid-body structs without initialisers, so in C++ their fields are indeterminate until the caller sets them. The Dafny `PrimitiveRigidBody` constructor takes every field as a parameter, and reading a field that was never set is not captured.
- `ConvexHullRigidBody` keeps only `collisionShape`: `addConvexHullRigidBody` (Physics.cpp:75-91) touches no other inherited field.
- `collisionGroup` and `collisionMask` are `short` in C++ and unbounded `int` here; their 16-bit range is not modelled.
- Models.Model.SetRotation: the argument is the rotation matrix. It stands for both C++ overloads at Model.cpp:207-219, `glm::rotate(angle, axis)` and `glm::mat4_cast(quaternion)`, whose floating-point construction is left out.
- Cameras.Camera.constructor: the default arguments of Camera.h:27-29 (position (0, 0, 3), up (0, 1, 0), yaw −90, pitch 0) are not modelled; every argument is passed explicitly.
- Shaders.Shader.ParseShaderSource: the file is given as its lines (`None` when it cannot be opened). Line splitting by `getline` is not modelled.
