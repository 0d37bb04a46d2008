/** `VertexArray::AddBuffer`: describing an interleaved float vertex layout to
    OpenGL. A layout lists the number of floats of each attribute; the stride is
    the byte size of one whole vertex and each attribute starts at the byte size
    of the attributes before it. Both are accumulated in a 32-bit `GLuint`. */
module VertexArrays {
  import opened GlCalls

  /** sizeof(float). */
  const FloatSize: int := 4

  /** Values of a 32-bit unsigned integer (`GLuint`) wrap modulo this. */
  const GlUintRange: int := 0x1_0000_0000

  function Sum(layout: seq<int>): int {
    if layout == [] then 0 else Sum(layout[..|layout| - 1]) + layout[|layout| - 1]
  }

  /** The stride `AddBuffer` passes for every attribute. */
  function Stride(layout: seq<int>): nat {
    (FloatSize * Sum(layout)) % GlUintRange
  }

  /** The byte offset `AddBuffer` passes for attribute `i`. */
  function AttribOffset(layout: seq<int>, i: nat): nat
    requires i <= |layout|
  {
    (FloatSize * Sum(layout[..i])) % GlUintRange
  }

  lemma SumSnoc(layout: seq<int>, k: nat)
    requires k < |layout|
    ensures Sum(layout[..k + 1]) == Sum(layout[..k]) + layout[k]
  {
    assert layout[..k + 1][..k] == layout[..k];
  }

  /** Adding to a wrapped 32-bit accumulator wraps the exact sum. */
  lemma WrapAdd(a: int, b: int)
    ensures (a % GlUintRange + b) % GlUintRange == (a + b) % GlUintRange
  {
    var q := a / GlUintRange;
    assert a == GlUintRange * q + a % GlUintRange;
    assert a + b == (a % GlUintRange + b) + GlUintRange * q;
    ShiftMod(a % GlUintRange + b, q);
  }

  lemma ShiftMod(x: int, q: int)
    ensures (x + GlUintRange * q) % GlUintRange == x % GlUintRange
  {
  }

  class VertexArray {
    /** The name `glGenVertexArrays` returned for this array. */
    const rendererID: nat

    constructor(name: nat)
      ensures rendererID == name
    {
      rendererID := name;
    }

    /** Binds this array and `buffer`, describes every attribute of `layout`
        in order, and unbinds both. */
    method AddBuffer(buffer: nat, layout: seq<int>) returns (calls: seq<GlCall>)
      ensures calls == [BindVertexArray(rendererID), BindArrayBuffer(buffer)]
                       + AttribCalls(layout, |layout|)
                       + [BindArrayBuffer(0), BindVertexArray(0)]
    {
      var offset: nat := 0;
      var stride: nat := 0;
      for k := 0 to |layout|
        invariant stride == (FloatSize * Sum(layout[..k])) % GlUintRange
      {
        SumSnoc(layout, k);
        WrapAdd(FloatSize * Sum(layout[..k]), layout[k] * FloatSize);
        stride := (stride + layout[k] * FloatSize) % GlUintRange;
      }
      assert layout[..|layout|] == layout;
      var attribs := [];
      for i := 0 to |layout|
        invariant attribs == AttribCalls(layout, i)
        invariant offset == AttribOffset(layout, i)
      {
        var count := layout[i];
        attribs := attribs + [EnableVertexAttribArray(i), VertexAttribPointer(i, count, stride, offset)];
        SumSnoc(layout, i);
        WrapAdd(FloatSize * Sum(layout[..i]), count * FloatSize);
        offset := (offset + count * FloatSize) % GlUintRange;
      }
      calls := [BindVertexArray(rendererID), BindArrayBuffer(buffer)] + attribs
               + [BindArrayBuffer(0), BindVertexArray(0)];
    }
  }

  /** The commands for the first `n` attributes: enable attribute i, then point
      it at `layout[i]` floats with the common stride and its own offset. */
  function AttribCalls(layout: seq<int>, n: nat): seq<GlCall>
    requires n <= |layout|
  {
    if n == 0 then []
    else AttribCalls(layout, n - 1)
         + [EnableVertexAttribArray(n - 1),
            VertexAttribPointer(n - 1, layout[n - 1], Stride(layout), AttribOffset(layout, n - 1))]
  }

  /** Exactly the indices 0 .. n-1 are enabled, in order, each with its own
      component count, the stride of the whole layout and its prefix-sum offset. */
  lemma {:induction false} AttribCallsAt(layout: seq<int>, n: nat, i: nat)
    requires i < n <= |layout|
    ensures |AttribCalls(layout, n)| == 2 * n
    ensures AttribCalls(layout, n)[2 * i] == EnableVertexAttribArray(i)
    ensures AttribCalls(layout, n)[2 * i + 1] ==
              VertexAttribPointer(i, layout[i], Stride(layout), AttribOffset(layout, i))
  {
    AttribCallsLength(layout, n - 1);
    if i < n - 1 {
      AttribCallsAt(layout, n - 1, i);
    }
  }

  lemma {:induction false} AttribCallsLength(layout: seq<int>, n: nat)
    requires n <= |layout|
    ensures |AttribCalls(layout, n)| == 2 * n
  {
    if n > 0 {
      AttribCallsLength(layout, n - 1);
    }
  }

  /** Every attribute has at least one float and a whole vertex fits in 32 bits,
      so nothing wraps. */
  predicate PlainLayout(layout: seq<int>) {
    (forall i :: 0 <= i < |layout| ==> layout[i] > 0) && FloatSize * Sum(layout) < GlUintRange
  }

  lemma {:induction false} SumPrefixBounds(layout: seq<int>, i: nat, j: nat)
    requires forall k :: 0 <= k < |layout| ==> layout[k] > 0
    requires i < j <= |layout|
    ensures 0 <= Sum(layout[..i]) < Sum(layout[..j])
    decreases j
  {
    SumSnoc(layout, j - 1);
    if i < j - 1 {
      SumPrefixBounds(layout, i, j - 1);
    } else if i > 0 {
      SumPrefixBounds(layout, 0, i);
    } else {
      assert layout[..0] == [];
    }
  }

  /** In a plain layout the offsets strictly increase, the first is 0, and the
      last attribute ends exactly at the stride. */
  lemma OffsetsIncrease(layout: seq<int>, i: nat, j: nat)
    requires PlainLayout(layout)
    requires i < j < |layout|
    ensures AttribOffset(layout, i) < AttribOffset(layout, j)
  {
    SumPrefixBounds(layout, i, j);
    SumPrefixBounds(layout, j, |layout|);
    assert layout[..|layout|] == layout;
  }

  lemma LastAttributeEndsAtStride(layout: seq<int>)
    requires PlainLayout(layout) && |layout| > 0
    ensures AttribOffset(layout, 0) == 0
    ensures AttribOffset(layout, |layout| - 1) + FloatSize * layout[|layout| - 1] == Stride(layout)
  {
    var n := |layout|;
    assert layout[..0] == [];
    assert layout[..n] == layout;
    SumSnoc(layout, n - 1);
    if n > 1 {
      SumPrefixBounds(layout, n - 1, n);
    } else {
      assert layout[..n - 1] == [];
    }
  }

  /** The engine's vertex layout (position 3, normal 3, texture coordinates 2,
      tangent 3, bitangent 3 floats) gives the byte offsets of the members of the
      `Vertex` struct and a stride of `sizeof(Vertex)`, the values `Mesh`
      passes to OpenGL by hand. */
  lemma MeshVertexLayout()
    ensures Stride([3, 3, 2, 3, 3]) == 56
    ensures AttribOffset([3, 3, 2, 3, 3], 0) == 0
    ensures AttribOffset([3, 3, 2, 3, 3], 1) == 12
    ensures AttribOffset([3, 3, 2, 3, 3], 2) == 24
    ensures AttribOffset([3, 3, 2, 3, 3], 3) == 32
    ensures AttribOffset([3, 3, 2, 3, 3], 4) == 44
  {
    var l := [3, 3, 2, 3, 3];
    assert l[..0] == [];
    SumSnoc(l, 0);
    SumSnoc(l, 1);
    SumSnoc(l, 2);
    SumSnoc(l, 3);
    SumSnoc(l, 4);
    assert l[..5] == l;
  }
}
