/** The glm vector and matrix values the engine manipulates, over the reals.
    A `Mat4` is stored the way glm stores it: as four columns. */
module Geometry {

  datatype Vec2 = Vec2(x: real, y: real)

  datatype Vec3 = Vec3(x: real, y: real, z: real) {
    function Plus(o: Vec3): Vec3 {
      Vec3(x + o.x, y + o.y, z + o.z)
    }

    function Minus(o: Vec3): Vec3 {
      Vec3(x - o.x, y - o.y, z - o.z)
    }

    /** `k * v`. */
    function Scale(k: real): Vec3 {
      Vec3(k * x, k * y, k * z)
    }
  }

  datatype Vec4 = Vec4(x: real, y: real, z: real, w: real) {
    /** Component `i`, in the order x, y, z, w. */
    function Get(i: nat): real
      requires i < 4
    {
      if i == 0 then x else if i == 1 then y else if i == 2 then z else w
    }

    /** glm::vec3(v): the first three components. */
    function Xyz(): Vec3 {
      Vec3(x, y, z)
    }
  }

  /** glm::mat4, column-major: `c3` is `m[3]`, the translation column. */
  datatype Mat4 = Mat4(c0: Vec4, c1: Vec4, c2: Vec4, c3: Vec4) {
    function Column(c: nat): Vec4
      requires c < 4
    {
      if c == 0 then c0 else if c == 1 then c1 else if c == 2 then c2 else c3
    }

    /** The scalar in column `col`, row `row`. */
    function At(col: nat, row: nat): real
      requires col < 4 && row < 4
    {
      Column(col).Get(row)
    }

    /** This matrix times the column vector `v`. */
    function Apply(v: Vec4): Vec4 {
      Vec4(c0.x * v.x + c1.x * v.y + c2.x * v.z + c3.x * v.w,
           c0.y * v.x + c1.y * v.y + c2.y * v.z + c3.y * v.w,
           c0.z * v.x + c1.z * v.y + c2.z * v.z + c3.z * v.w,
           c0.w * v.x + c1.w * v.y + c2.w * v.z + c3.w * v.w)
    }

    /** `m[3] = glm::vec4(p, 1.0f)`. */
    function WithTranslation(p: Vec3): (r: Mat4)
      ensures r.c0 == c0 && r.c1 == c1 && r.c2 == c2
      ensures r.c3.Xyz() == p && r.c3.w == 1.0
    {
      Mat4(c0, c1, c2, Vec4(p.x, p.y, p.z, 1.0))
    }
  }

  /** glm::mat4(1.0f). */
  const Identity: Mat4 :=
    Mat4(Vec4(1.0, 0.0, 0.0, 0.0), Vec4(0.0, 1.0, 0.0, 0.0),
         Vec4(0.0, 0.0, 1.0, 0.0), Vec4(0.0, 0.0, 0.0, 1.0))

  /** A pure translation by `p`. */
  function Translation(p: Vec3): Mat4 {
    Identity.WithTranslation(p)
  }

  /** glm's `a * b`: column `j` of the product is `a` applied to column `j` of `b`. */
  function Mul(a: Mat4, b: Mat4): Mat4 {
    Mat4(a.Apply(b.c0), a.Apply(b.c1), a.Apply(b.c2), a.Apply(b.c3))
  }

  lemma MulIdentity(m: Mat4)
    ensures Mul(Identity, m) == m && Mul(m, Identity) == m
  {
  }

  /** Composing two translations translates by the sum of the offsets. */
  lemma MulTranslations(p: Vec3, q: Vec3)
    ensures Mul(Translation(p), Translation(q)) == Translation(p.Plus(q))
  {
  }
}
