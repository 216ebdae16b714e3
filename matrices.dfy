/**
 * The fixed-size matrices the transform classes store: `CMSISMat<3, 1>` as a sequence of three
 * reals and `CMSISMat<3, 3>` as a sequence of nine reals in row-major order, the layout of the
 * matrix's `data` array. Copying a matrix copies its values, as CMSISMat's copy constructor does.
 */
module Matrices {
  type Vec3 = s: seq<real> | |s| == 3 witness [0.0, 0.0, 0.0]
  type Mat3 = m: seq<real> | |m| == 9 witness [0.0, 0.0, 0.0, 0.0, 0.0, 0.0, 0.0, 0.0, 0.0]

  /** Entry `(i, j)`, stored at `data[3 * i + j]`. */
  function At(m: Mat3, i: nat, j: nat): real
    requires i < 3 && j < 3
  {
    m[3 * i + j]
  }

  /** Row `i` of `a` times column `j` of `b`. */
  function Dot(a: Mat3, b: Mat3, i: nat, j: nat): real
    requires i < 3 && j < 3
  {
    At(a, i, 0) * At(b, 0, j) + At(a, i, 1) * At(b, 1, j) + At(a, i, 2) * At(b, 2, j)
  }

  /** The matrix product `a * b`. */
  function Mul(a: Mat3, b: Mat3): (c: Mat3)
    ensures forall i: nat, j: nat :: i < 3 && j < 3 ==> At(c, i, j) == Dot(a, b, i, j)
  {
    [Dot(a, b, 0, 0), Dot(a, b, 0, 1), Dot(a, b, 0, 2),
     Dot(a, b, 1, 0), Dot(a, b, 1, 1), Dot(a, b, 1, 2),
     Dot(a, b, 2, 0), Dot(a, b, 2, 1), Dot(a, b, 2, 2)]
  }

  /** `transpose()`. */
  function Transpose(m: Mat3): (t: Mat3)
    ensures forall i: nat, j: nat :: i < 3 && j < 3 ==> At(t, i, j) == At(m, j, i)
  {
    [m[0], m[3], m[6], m[1], m[4], m[7], m[2], m[5], m[8]]
  }

  const Identity: Mat3 := [1.0, 0.0, 0.0, 0.0, 1.0, 0.0, 0.0, 0.0, 1.0]

  const Zero: Mat3 := [0.0, 0.0, 0.0, 0.0, 0.0, 0.0, 0.0, 0.0, 0.0]

  /** Entrywise sum. */
  function Add(a: Mat3, b: Mat3): (c: Mat3)
    ensures forall n :: 0 <= n < 9 ==> c[n] == a[n] + b[n]
  {
    seq(9, n requires 0 <= n < 9 => a[n] + b[n])
  }

  /** Every entry times `k`. */
  function Scale(k: real, a: Mat3): (c: Mat3)
    ensures forall n :: 0 <= n < 9 ==> c[n] == k * a[n]
  {
    seq(9, n requires 0 <= n < 9 => k * a[n])
  }

  /**
   * One entry of `(a * b) * c` and of `a * (b * c)`, over reals: `p` is row `a` times `b`,
   * `q` is `b` times column `c`.
   */
  lemma AssociativeEntry(a0: real, a1: real, a2: real,
                         b00: real, b01: real, b02: real, b10: real, b11: real, b12: real,
                         b20: real, b21: real, b22: real, c0: real, c1: real, c2: real,
                         p0: real, p1: real, p2: real, q0: real, q1: real, q2: real)
    requires p0 == a0 * b00 + a1 * b10 + a2 * b20
    requires p1 == a0 * b01 + a1 * b11 + a2 * b21
    requires p2 == a0 * b02 + a1 * b12 + a2 * b22
    requires q0 == b00 * c0 + b01 * c1 + b02 * c2
    requires q1 == b10 * c0 + b11 * c1 + b12 * c2
    requires q2 == b20 * c0 + b21 * c1 + b22 * c2
    ensures p0 * c0 + p1 * c1 + p2 * c2 == a0 * q0 + a1 * q1 + a2 * q2
  {
  }

  /** Entry `(0, 0)` of `(a * b) * c` is that of `a * (b * c)`. */
  lemma AssociativeAt00(a: Mat3, b: Mat3, c: Mat3)
    ensures Mul(Mul(a, b), c)[0] == Mul(a, Mul(b, c))[0]
  {
    var ab, bc := Mul(a, b), Mul(b, c);
    AssociativeEntry(a[0], a[1], a[2], b[0], b[1], b[2], b[3], b[4], b[5], b[6], b[7], b[8],
      c[0], c[3], c[6], ab[0], ab[1], ab[2], bc[0], bc[3], bc[6]);
  }

  /** Entry `(0, 1)` of `(a * b) * c` is that of `a * (b * c)`. */
  lemma AssociativeAt01(a: Mat3, b: Mat3, c: Mat3)
    ensures Mul(Mul(a, b), c)[1] == Mul(a, Mul(b, c))[1]
  {
    var ab, bc := Mul(a, b), Mul(b, c);
    AssociativeEntry(a[0], a[1], a[2], b[0], b[1], b[2], b[3], b[4], b[5], b[6], b[7], b[8],
      c[1], c[4], c[7], ab[0], ab[1], ab[2], bc[1], bc[4], bc[7]);
  }

  /** Entry `(0, 2)` of `(a * b) * c` is that of `a * (b * c)`. */
  lemma AssociativeAt02(a: Mat3, b: Mat3, c: Mat3)
    ensures Mul(Mul(a, b), c)[2] == Mul(a, Mul(b, c))[2]
  {
    var ab, bc := Mul(a, b), Mul(b, c);
    AssociativeEntry(a[0], a[1], a[2], b[0], b[1], b[2], b[3], b[4], b[5], b[6], b[7], b[8],
      c[2], c[5], c[8], ab[0], ab[1], ab[2], bc[2], bc[5], bc[8]);
  }

  /** Entry `(1, 0)` of `(a * b) * c` is that of `a * (b * c)`. */
  lemma AssociativeAt10(a: Mat3, b: Mat3, c: Mat3)
    ensures Mul(Mul(a, b), c)[3] == Mul(a, Mul(b, c))[3]
  {
    var ab, bc := Mul(a, b), Mul(b, c);
    AssociativeEntry(a[3], a[4], a[5], b[0], b[1], b[2], b[3], b[4], b[5], b[6], b[7], b[8],
      c[0], c[3], c[6], ab[3], ab[4], ab[5], bc[0], bc[3], bc[6]);
  }

  /** Entry `(1, 1)` of `(a * b) * c` is that of `a * (b * c)`. */
  lemma AssociativeAt11(a: Mat3, b: Mat3, c: Mat3)
    ensures Mul(Mul(a, b), c)[4] == Mul(a, Mul(b, c))[4]
  {
    var ab, bc := Mul(a, b), Mul(b, c);
    AssociativeEntry(a[3], a[4], a[5], b[0], b[1], b[2], b[3], b[4], b[5], b[6], b[7], b[8],
      c[1], c[4], c[7], ab[3], ab[4], ab[5], bc[1], bc[4], bc[7]);
  }

  /** Entry `(1, 2)` of `(a * b) * c` is that of `a * (b * c)`. */
  lemma AssociativeAt12(a: Mat3, b: Mat3, c: Mat3)
    ensures Mul(Mul(a, b), c)[5] == Mul(a, Mul(b, c))[5]
  {
    var ab, bc := Mul(a, b), Mul(b, c);
    AssociativeEntry(a[3], a[4], a[5], b[0], b[1], b[2], b[3], b[4], b[5], b[6], b[7], b[8],
      c[2], c[5], c[8], ab[3], ab[4], ab[5], bc[2], bc[5], bc[8]);
  }

  /** Entry `(2, 0)` of `(a * b) * c` is that of `a * (b * c)`. */
  lemma AssociativeAt20(a: Mat3, b: Mat3, c: Mat3)
    ensures Mul(Mul(a, b), c)[6] == Mul(a, Mul(b, c))[6]
  {
    var ab, bc := Mul(a, b), Mul(b, c);
    AssociativeEntry(a[6], a[7], a[8], b[0], b[1], b[2], b[3], b[4], b[5], b[6], b[7], b[8],
      c[0], c[3], c[6], ab[6], ab[7], ab[8], bc[0], bc[3], bc[6]);
  }

  /** Entry `(2, 1)` of `(a * b) * c` is that of `a * (b * c)`. */
  lemma AssociativeAt21(a: Mat3, b: Mat3, c: Mat3)
    ensures Mul(Mul(a, b), c)[7] == Mul(a, Mul(b, c))[7]
  {
    var ab, bc := Mul(a, b), Mul(b, c);
    AssociativeEntry(a[6], a[7], a[8], b[0], b[1], b[2], b[3], b[4], b[5], b[6], b[7], b[8],
      c[1], c[4], c[7], ab[6], ab[7], ab[8], bc[1], bc[4], bc[7]);
  }

  /** Entry `(2, 2)` of `(a * b) * c` is that of `a * (b * c)`. */
  lemma AssociativeAt22(a: Mat3, b: Mat3, c: Mat3)
    ensures Mul(Mul(a, b), c)[8] == Mul(a, Mul(b, c))[8]
  {
    var ab, bc := Mul(a, b), Mul(b, c);
    AssociativeEntry(a[6], a[7], a[8], b[0], b[1], b[2], b[3], b[4], b[5], b[6], b[7], b[8],
      c[2], c[5], c[8], ab[6], ab[7], ab[8], bc[2], bc[5], bc[8]);
  }

  /** The matrix product is associative, so `compose` is. */
  lemma MulAssociative(a: Mat3, b: Mat3, c: Mat3)
    ensures Mul(Mul(a, b), c) == Mul(a, Mul(b, c))
  {
    AssociativeAt00(a, b, c); AssociativeAt01(a, b, c); AssociativeAt02(a, b, c);
    AssociativeAt10(a, b, c); AssociativeAt11(a, b, c); AssociativeAt12(a, b, c);
    AssociativeAt20(a, b, c); AssociativeAt21(a, b, c); AssociativeAt22(a, b, c);
    var l, r := Mul(Mul(a, b), c), Mul(a, Mul(b, c));
    assert forall n :: 0 <= n < 9 ==> l[n] == r[n] by {
      assert l[0] == r[0] && l[1] == r[1] && l[2] == r[2] && l[3] == r[3] && l[4] == r[4];
      assert l[5] == r[5] && l[6] == r[6] && l[7] == r[7] && l[8] == r[8];
    }
  }

  /** The identity matrix is a unit for the product on both sides. */
  lemma MulIdentity(a: Mat3)
    ensures Mul(Identity, a) == a && Mul(a, Identity) == a
  {
    var l, r := Mul(Identity, a), Mul(a, Identity);
    assert l[0] == a[0] && l[1] == a[1] && l[2] == a[2] && l[3] == a[3] && l[4] == a[4]
      && l[5] == a[5] && l[6] == a[6] && l[7] == a[7] && l[8] == a[8];
    assert r[0] == a[0] && r[1] == a[1] && r[2] == a[2] && r[3] == a[3] && r[4] == a[4]
      && r[5] == a[5] && r[6] == a[6] && r[7] == a[7] && r[8] == a[8];
  }

  /** Transposing twice gives the matrix back. */
  lemma TransposeInvolutive(m: Mat3)
    ensures Transpose(Transpose(m)) == m
  {
  }
}
