/** One drawable mesh (`Mesh.h`, `Mesh.cpp`): its vertex, index and texture
    data, its own transform, and the GPU vertex buffer it uploads at
    construction and overwrites for soft-body updates. */
module Meshes {
  import opened Geometry
  import opened GlCalls
  import opened Text

  datatype Vertex = Vertex(position: Vec3, normal: Vec3, texCoords: Vec2, tangent: Vec3, bitangent: Vec3)

  /** sizeof(Vertex) / sizeof(float): the struct is 14 tightly packed floats. */
  const VertexFloats: nat := 14

  /** The floats of one vertex in memory order. */
  function Components(v: Vertex): (c: seq<real>)
    ensures |c| == VertexFloats
  {
    [v.position.x, v.position.y, v.position.z,
     v.normal.x, v.normal.y, v.normal.z,
     v.texCoords.x, v.texCoords.y,
     v.tangent.x, v.tangent.y, v.tangent.z,
     v.bitangent.x, v.bitangent.y, v.bitangent.z]
  }

  /** The floats of a run of vertices, one vertex after another. */
  function Flatten(vs: seq<Vertex>): seq<real> {
    if vs == [] then [] else Flatten(vs[..|vs| - 1]) + Components(vs[|vs| - 1])
  }

  lemma {:induction false} FlattenLength(vs: seq<Vertex>)
    ensures |Flatten(vs)| == VertexFloats * |vs|
  {
    if vs != [] {
      FlattenLength(vs[..|vs| - 1]);
    }
  }

  /** Float `k` of vertex `i` sits at position 14 i + k. */
  lemma {:induction false} FlattenAt(vs: seq<Vertex>, i: nat, k: nat)
    requires i < |vs| && k < VertexFloats
    ensures |Flatten(vs)| == VertexFloats * |vs|
    ensures Flatten(vs)[VertexFloats * i + k] == Components(vs[i])[k]
  {
    FlattenLength(vs);
    var n := |vs|;
    FlattenLength(vs[..n - 1]);
    if i < n - 1 {
      FlattenAt(vs[..n - 1], i, k);
    }
  }

  lemma FlattenSnoc(vs: seq<Vertex>, v: Vertex)
    ensures Flatten(vs + [v]) == Flatten(vs) + Components(v)
  {
    assert (vs + [v])[..|vs|] == vs;
  }

  lemma {:induction false} FlattenAppend(a: seq<Vertex>, b: seq<Vertex>)
    ensures Flatten(a + b) == Flatten(a) + Flatten(b)
    decreases |b|
  {
    if b == [] {
      assert a + b == a;
    } else {
      var b' := b[..|b| - 1];
      assert a + b == (a + b') + [b[|b| - 1]];
      FlattenSnoc(a + b', b[|b| - 1]);
      FlattenAppend(a, b');
      FlattenSnoc(b', b[|b| - 1]);
      assert b' + [b[|b| - 1]] == b;
    }
  }

  datatype Texture = Texture(id: nat, kind: string, path: string)

  const DiffuseKind: string := "texture_diffuse"
  const SpecularKind: string := "texture_specular"

  /** How many textures of `kind` the list holds. */
  function CountKind(ts: seq<Texture>, kind: string): nat {
    if ts == [] then 0
    else CountKind(ts[..|ts| - 1], kind) + (if ts[|ts| - 1].kind == kind then 1 else 0)
  }

  /** The 1-based number of texture `i` among the textures of its own kind. */
  function Ordinal(ts: seq<Texture>, i: nat): nat
    requires i < |ts|
  {
    CountKind(ts[..i + 1], ts[i].kind)
  }

  /** The sampler uniform that texture `i` is bound to: diffuse and specular
      textures are numbered separately from 1, any other kind is not numbered. */
  function UniformName(ts: seq<Texture>, i: nat): string
    requires i < |ts|
  {
    var kind := ts[i].kind;
    "material." + kind + (if kind == DiffuseKind || kind == SpecularKind then NatToString(Ordinal(ts, i)) else "")
  }

  lemma {:induction false} CountKindMonotone(ts: seq<Texture>, kind: string, i: nat, j: nat)
    requires i <= j <= |ts|
    ensures CountKind(ts[..i], kind) <= CountKind(ts[..j], kind)
    decreases j - i
  {
    if i < j {
      assert ts[..j][..j - 1] == ts[..j - 1];
      CountKindMonotone(ts, kind, i, j - 1);
    }
  }

  /** Textures of one kind get the numbers 1, 2, 3, ... in list order. */
  lemma OrdinalsIncrease(ts: seq<Texture>, i: nat, j: nat)
    requires i < j < |ts| && ts[i].kind == ts[j].kind
    ensures 1 <= Ordinal(ts, i) < Ordinal(ts, j)
  {
    assert ts[..i + 1][..i] == ts[..i];
    assert ts[..j + 1][..j] == ts[..j];
    CountKindMonotone(ts, ts[i].kind, i + 1, j);
  }

  /** Two numbered textures of the same kind never share a uniform name. */
  lemma UniformNamesDistinct(ts: seq<Texture>, i: nat, j: nat)
    requires i < j < |ts| && ts[i].kind == ts[j].kind
    requires ts[i].kind == DiffuseKind || ts[i].kind == SpecularKind
    ensures UniformName(ts, i) != UniformName(ts, j)
  {
    OrdinalsIncrease(ts, i, j);
    var prefix := "material." + ts[i].kind;
    var a, b := NatToString(Ordinal(ts, i)), NatToString(Ordinal(ts, j));
    if UniformName(ts, i) == UniformName(ts, j) {
      assert (prefix + a)[|prefix|..] == a;
      assert (prefix + b)[|prefix|..] == b;
      NatToStringInjective(Ordinal(ts, i), Ordinal(ts, j));
    }
  }

  /** The commands that bind the first `n` textures: texture i goes to unit i
      and its unit number is stored in its sampler uniform. */
  function TextureCalls(ts: seq<Texture>, n: nat): seq<GlCall>
    requires n <= |ts|
  {
    if n == 0 then []
    else TextureCalls(ts, n - 1)
         + [ActiveTexture(n - 1), SetInt(UniformName(ts, n - 1), n - 1), BindTexture(ts[n - 1].id)]
  }

  /** Texture i is bound to unit i, under its numbered uniform name. */
  lemma {:induction false} TextureCallsAt(ts: seq<Texture>, n: nat, i: nat)
    requires i < n <= |ts|
    ensures |TextureCalls(ts, n)| == 3 * n
    ensures TextureCalls(ts, n)[3 * i] == ActiveTexture(i)
    ensures TextureCalls(ts, n)[3 * i + 1] == SetInt(UniformName(ts, i), i)
    ensures TextureCalls(ts, n)[3 * i + 2] == BindTexture(ts[i].id)
  {
    TextureCallsLength(ts, n - 1);
    if i < n - 1 {
      TextureCallsAt(ts, n - 1, i);
    }
  }

  lemma {:induction false} TextureCallsLength(ts: seq<Texture>, n: nat)
    requires n <= |ts|
    ensures |TextureCalls(ts, n)| == 3 * n
  {
    if n > 0 {
      TextureCallsLength(ts, n - 1);
    }
  }

  /** The data of one mesh as the loader leaves it. */
  datatype MeshRecord = MeshRecord(vertices: seq<Vertex>, indices: seq<nat>, textures: seq<Texture>, transform: Mat4)

  class Mesh {
    const vertices: seq<Vertex>
    const indices: seq<nat>
    const textures: seq<Texture>
    var transform: Mat4

    /** The contents of the GL_ARRAY_BUFFER, as floats. */
    const vertexBuffer: array<real>
    /** The contents of the GL_ELEMENT_ARRAY_BUFFER. */
    const elementBuffer: seq<nat>
    /** Whether `setupMesh` issued the vertex and the index upload. */
    const vertexDataUploaded: bool
    const indexDataUploaded: bool

    function Record(): MeshRecord
      reads this
    {
      MeshRecord(vertices, indices, textures, transform)
    }

    /** Stores the data with an identity transform and runs `setupMesh`: each
        buffer is filled only when its data is non-empty. */
    constructor(verts: seq<Vertex>, inds: seq<nat>, texs: seq<Texture>)
      ensures vertices == verts && indices == inds && textures == texs
      ensures transform == Identity
      ensures fresh(vertexBuffer)
      ensures vertexDataUploaded == (|verts| > 0) && indexDataUploaded == (|inds| > 0)
      ensures vertexBuffer[..] == if vertexDataUploaded then Flatten(verts) else []
      ensures elementBuffer == if indexDataUploaded then inds else []
    {
      vertices, indices, textures := verts, inds, texs;
      transform := Identity;
      var data := if |verts| > 0 then Flatten(verts) else [];
      vertexBuffer := new real[|data|](i requires 0 <= i < |data| => data[i]);
      vertexDataUploaded := |verts| > 0;
      elementBuffer := if |inds| > 0 then inds else [];
      indexDataUploaded := |inds| > 0;
      new;
      assert vertexBuffer[..] == data;
    }

    /** Binds every texture and uploads `model * transform` and the material
        scalars before drawing the indices; a mesh without indices issues
        nothing. */
    method Draw(model: Mat4, ambient: Vec3, shininess: real) returns (calls: seq<GlCall>)
      ensures |indices| == 0 ==> calls == []
      ensures |indices| > 0 ==>
                calls == TextureCalls(textures, |textures|)
                         + [SetMat4("u_Model", Mul(model, transform)),
                            SetVec3("material.ambient", ambient),
                            SetFloat("material.shininess", shininess),
                            BindOwnVertexArray, DrawElements(|indices|), BindVertexArray(0), ActiveTexture(0)]
    {
      if |indices| == 0 {
        return [];
      }
      var diffuseNum := 0;
      var specularNum := 0;
      var bound := [];
      for i := 0 to |textures|
        invariant bound == TextureCalls(textures, i)
        invariant diffuseNum == CountKind(textures[..i], DiffuseKind)
        invariant specularNum == CountKind(textures[..i], SpecularKind)
      {
        assert textures[..i + 1][..i] == textures[..i];
        var name := textures[i].kind;
        var number := "";
        if name == DiffuseKind {
          diffuseNum := diffuseNum + 1;
          number := NatToString(diffuseNum);
        } else if name == SpecularKind {
          specularNum := specularNum + 1;
          number := NatToString(specularNum);
        }
        bound := bound + [ActiveTexture(i), SetInt("material." + name + number, i), BindTexture(textures[i].id)];
      }
      calls := bound + [SetMat4("u_Model", Mul(model, transform)),
                        SetVec3("material.ambient", ambient),
                        SetFloat("material.shininess", shininess),
                        BindOwnVertexArray, DrawElements(|indices|), BindVertexArray(0), ActiveTexture(0)];
    }

    /** `glBufferSubData` at offset 0 with the whole of `newVertices`. */
    method UpdateVertices(newVertices: seq<real>) returns (written: bool)
      modifies vertexBuffer
      ensures written == (|newVertices| <= vertexBuffer.Length)
      ensures vertexBuffer[..] == Overwritten(old(vertexBuffer[..]), newVertices)
    {
      written := |newVertices| <= vertexBuffer.Length;
      if written {
        forall i | 0 <= i < |newVertices| {
          vertexBuffer[i] := newVertices[i];
        }
        assert vertexBuffer[..] == newVertices + old(vertexBuffer[..])[|newVertices|..];
      }
    }
  }

  /** A buffer after a write of `data` from offset 0: the first |data| floats
      are replaced and the rest kept. OpenGL rejects a write that runs past the
      end of the buffer (GL_INVALID_VALUE) and then changes nothing. */
  function Overwritten(buffer: seq<real>, data: seq<real>): (r: seq<real>)
    ensures |r| == |buffer|
    ensures |data| <= |buffer| ==> r[..|data|] == data && r[|data|..] == buffer[|data|..]
    ensures |data| > |buffer| ==> r == buffer
  {
    if |data| <= |buffer| then data + buffer[|data|..] else buffer
  }

  /** Writing the same data twice leaves what writing it once does. */
  lemma OverwriteIdempotent(buffer: seq<real>, data: seq<real>)
    ensures Overwritten(Overwritten(buffer, data), data) == Overwritten(buffer, data)
  {
  }
}
