/** 4x4 matrices as Imath's M44d stores them: sixteen entries in row-major
    order, entry (r, c) at index 4 * r + c, multiplied as
    (a * b)[r][c] == a[r][0] * b[0][c] + ... + a[r][3] * b[3][c].
    Exact reals stand for the doubles of the source. */
module Matrices {

  type Mat4 = m: seq<real> | |m| == 16
    witness [0.0, 0.0, 0.0, 0.0,  0.0, 0.0, 0.0, 0.0,  0.0, 0.0, 0.0, 0.0,  0.0, 0.0, 0.0, 0.0]

  /** The all-zero matrix (a value-initialised Matrix4x4f). */
  function Zero(): Mat4 {
    [0.0, 0.0, 0.0, 0.0,  0.0, 0.0, 0.0, 0.0,  0.0, 0.0, 0.0, 0.0,  0.0, 0.0, 0.0, 0.0]
  }

  /** The identity, which is what a default-constructed M44d holds. */
  function Identity(): Mat4 {
    [1.0, 0.0, 0.0, 0.0,  0.0, 1.0, 0.0, 0.0,  0.0, 0.0, 1.0, 0.0,  0.0, 0.0, 0.0, 1.0]
  }

  /** Row r of a times column c of b. */
  function Dot(a: Mat4, b: Mat4, r: nat, c: nat): real
    requires r < 4 && c < 4
  {
    a[4 * r] * b[c] + a[4 * r + 1] * b[4 + c] + a[4 * r + 2] * b[8 + c] + a[4 * r + 3] * b[12 + c]
  }

  function Mul(a: Mat4, b: Mat4): (p: Mat4)
    ensures forall r, c :: 0 <= r < 4 && 0 <= c < 4 ==> p[4 * r + c] == Dot(a, b, r, c)
  {
    [Dot(a, b, 0, 0), Dot(a, b, 0, 1), Dot(a, b, 0, 2), Dot(a, b, 0, 3),
     Dot(a, b, 1, 0), Dot(a, b, 1, 1), Dot(a, b, 1, 2), Dot(a, b, 1, 3),
     Dot(a, b, 2, 0), Dot(a, b, 2, 1), Dot(a, b, 2, 2), Dot(a, b, 2, 3),
     Dot(a, b, 3, 0), Dot(a, b, 3, 1), Dot(a, b, 3, 2), Dot(a, b, 3, 3)]
  }

  /** The same sixteen numbers read in the other order: what a row-major
      buffer means when it is read as column-major. */
  function Transpose(m: Mat4): (t: Mat4)
    ensures forall r, c :: 0 <= r < 4 && 0 <= c < 4 ==> t[4 * r + c] == m[4 * c + r]
  {
    [m[0], m[4], m[8], m[12],
     m[1], m[5], m[9], m[13],
     m[2], m[6], m[10], m[14],
     m[3], m[7], m[11], m[15]]
  }

  lemma MulIdentityLeft(a: Mat4)
    ensures Mul(Identity(), a) == a
  {
    var p := Mul(Identity(), a);
    forall k | 0 <= k < 16 ensures p[k] == a[k] {
      assert p[4 * (k / 4) + k % 4] == Dot(Identity(), a, k / 4, k % 4);
    }
  }

  lemma MulIdentityRight(a: Mat4)
    ensures Mul(a, Identity()) == a
  {
    var p := Mul(a, Identity());
    forall k | 0 <= k < 16 ensures p[k] == a[k] {
      assert p[4 * (k / 4) + k % 4] == Dot(a, Identity(), k / 4, k % 4);
    }
  }

  /** Sixteen equal entries make two matrices equal. */
  lemma Entrywise(p: Mat4, q: Mat4)
    requires p[0] == q[0] && p[1] == q[1] && p[2] == q[2] && p[3] == q[3] &&
             p[4] == q[4] && p[5] == q[5] && p[6] == q[6] && p[7] == q[7] &&
             p[8] == q[8] && p[9] == q[9] && p[10] == q[10] && p[11] == q[11] &&
             p[12] == q[12] && p[13] == q[13] && p[14] == q[14] && p[15] == q[15]
    ensures p == q
  {
    forall k | 0 <= k < 16 ensures p[k] == q[k] {
      if k < 4 {} else if k < 8 {} else if k < 12 {} else {}
    }
  }

  lemma SumTimes(x0: real, x1: real, x2: real, x3: real, y: real)
    ensures (x0 + x1 + x2 + x3) * y == x0 * y + x1 * y + x2 * y + x3 * y
  {
  }

  lemma TimesSum(x: real, y0: real, y1: real, y2: real, y3: real)
    ensures x * (y0 + y1 + y2 + y3) == x * y0 + x * y1 + x * y2 + x * y3
  {
  }

  lemma Regroup(x: real, y: real, z: real)
    ensures (x * y) * z == x * (y * z)
  {
  }

  /** A row of a, the matrix b and a column of c, multiplied grouped either way. */
  lemma RowTimesColumn(
    a0: real, a1: real, a2: real, a3: real, b00: real, b01: real, b02: real, b03: real,
    b10: real, b11: real, b12: real, b13: real, b20: real, b21: real, b22: real, b23: real,
    b30: real, b31: real, b32: real, b33: real, c0: real, c1: real, c2: real, c3: real)
    ensures (a0 * b00 + a1 * b10 + a2 * b20 + a3 * b30) * c0 + (a0 * b01 + a1 * b11 + a2 * b21 + a3 * b31) * c1 + (a0 * b02 + a1 * b12 + a2 * b22 + a3 * b32) * c2 + (a0 * b03 + a1 * b13 + a2 * b23 + a3 * b33) * c3
         == a0 * (b00 * c0 + b01 * c1 + b02 * c2 + b03 * c3) + a1 * (b10 * c0 + b11 * c1 + b12 * c2 + b13 * c3) + a2 * (b20 * c0 + b21 * c1 + b22 * c2 + b23 * c3) + a3 * (b30 * c0 + b31 * c1 + b32 * c2 + b33 * c3)
  {
    SumTimes(a0 * b00, a1 * b10, a2 * b20, a3 * b30, c0);
    SumTimes(a0 * b01, a1 * b11, a2 * b21, a3 * b31, c1);
    SumTimes(a0 * b02, a1 * b12, a2 * b22, a3 * b32, c2);
    SumTimes(a0 * b03, a1 * b13, a2 * b23, a3 * b33, c3);
    TimesSum(a0, b00 * c0, b01 * c1, b02 * c2, b03 * c3);
    TimesSum(a1, b10 * c0, b11 * c1, b12 * c2, b13 * c3);
    TimesSum(a2, b20 * c0, b21 * c1, b22 * c2, b23 * c3);
    TimesSum(a3, b30 * c0, b31 * c1, b32 * c2, b33 * c3);
    Regroup(a0, b00, c0);
    Regroup(a0, b01, c1);
    Regroup(a0, b02, c2);
    Regroup(a0, b03, c3);
    Regroup(a1, b10, c0);
    Regroup(a1, b11, c1);
    Regroup(a1, b12, c2);
    Regroup(a1, b13, c3);
    Regroup(a2, b20, c0);
    Regroup(a2, b21, c1);
    Regroup(a2, b22, c2);
    Regroup(a2, b23, c3);
    Regroup(a3, b30, c0);
    Regroup(a3, b31, c1);
    Regroup(a3, b32, c2);
    Regroup(a3, b33, c3);
  }

  /** Row r of a * b, times column s of c, written out entry by entry. */
  lemma DotOfLeftProduct(a: Mat4, b: Mat4, c: Mat4, r: nat, s: nat)
    requires r < 4 && s < 4
    ensures Dot(Mul(a, b), c, r, s)
         == (a[4 * r] * b[0] + a[4 * r + 1] * b[4] + a[4 * r + 2] * b[8] + a[4 * r + 3] * b[12]) * c[s]
          + (a[4 * r] * b[1] + a[4 * r + 1] * b[5] + a[4 * r + 2] * b[9] + a[4 * r + 3] * b[13]) * c[4 + s]
          + (a[4 * r] * b[2] + a[4 * r + 1] * b[6] + a[4 * r + 2] * b[10] + a[4 * r + 3] * b[14]) * c[8 + s]
          + (a[4 * r] * b[3] + a[4 * r + 1] * b[7] + a[4 * r + 2] * b[11] + a[4 * r + 3] * b[15]) * c[12 + s]
  {
    var ab := Mul(a, b);
    assert ab[4 * r + 0] == Dot(a, b, r, 0);
    assert ab[4 * r + 1] == Dot(a, b, r, 1);
    assert ab[4 * r + 2] == Dot(a, b, r, 2);
    assert ab[4 * r + 3] == Dot(a, b, r, 3);
  }

  /** Row r of a, times column s of b * c, written out entry by entry. */
  lemma DotOfRightProduct(a: Mat4, b: Mat4, c: Mat4, r: nat, s: nat)
    requires r < 4 && s < 4
    ensures Dot(a, Mul(b, c), r, s)
         == a[4 * r] * (b[0] * c[s] + b[1] * c[4 + s] + b[2] * c[8 + s] + b[3] * c[12 + s])
          + a[4 * r + 1] * (b[4] * c[s] + b[5] * c[4 + s] + b[6] * c[8 + s] + b[7] * c[12 + s])
          + a[4 * r + 2] * (b[8] * c[s] + b[9] * c[4 + s] + b[10] * c[8 + s] + b[11] * c[12 + s])
          + a[4 * r + 3] * (b[12] * c[s] + b[13] * c[4 + s] + b[14] * c[8 + s] + b[15] * c[12 + s])
  {
    var bc := Mul(b, c);
    assert bc[4 * 0 + s] == Dot(b, c, 0, s);
    assert bc[4 * 1 + s] == Dot(b, c, 1, s);
    assert bc[4 * 2 + s] == Dot(b, c, 2, s);
    assert bc[4 * 3 + s] == Dot(b, c, 3, s);
  }

  lemma DotAssociative(a: Mat4, b: Mat4, c: Mat4, r: nat, s: nat)
    requires r < 4 && s < 4
    ensures Dot(Mul(a, b), c, r, s) == Dot(a, Mul(b, c), r, s)
  {
    DotOfLeftProduct(a, b, c, r, s);
    DotOfRightProduct(a, b, c, r, s);
    RowTimesColumn(a[4 * r], a[4 * r + 1], a[4 * r + 2], a[4 * r + 3],
      b[0], b[1], b[2], b[3], b[4], b[5], b[6], b[7], b[8], b[9], b[10], b[11], b[12], b[13], b[14], b[15],
      c[s], c[4 + s], c[8 + s], c[12 + s]);
  }

  lemma MulAssociative(a: Mat4, b: Mat4, c: Mat4)
    ensures Mul(Mul(a, b), c) == Mul(a, Mul(b, c))
  {
    var p, q := Mul(Mul(a, b), c), Mul(a, Mul(b, c));
    DotAssociative(a, b, c, 0, 0);
    DotAssociative(a, b, c, 0, 1);
    DotAssociative(a, b, c, 0, 2);
    DotAssociative(a, b, c, 0, 3);
    DotAssociative(a, b, c, 1, 0);
    DotAssociative(a, b, c, 1, 1);
    DotAssociative(a, b, c, 1, 2);
    DotAssociative(a, b, c, 1, 3);
    DotAssociative(a, b, c, 2, 0);
    DotAssociative(a, b, c, 2, 1);
    DotAssociative(a, b, c, 2, 2);
    DotAssociative(a, b, c, 2, 3);
    DotAssociative(a, b, c, 3, 0);
    DotAssociative(a, b, c, 3, 1);
    DotAssociative(a, b, c, 3, 2);
    DotAssociative(a, b, c, 3, 3);
    Entrywise(p, q);
  }

  lemma SumCommutes(x0: real, x1: real, x2: real, x3: real, y0: real, y1: real, y2: real, y3: real)
    ensures x0 * y0 + x1 * y1 + x2 * y2 + x3 * y3 == y0 * x0 + y1 * x1 + y2 * x2 + y3 * x3
  {
  }

  lemma TransposeAt(m: Mat4, r: nat, c: nat)
    requires r < 4 && c < 4
    ensures Transpose(m)[4 * r + c] == m[4 * c + r]
  {
  }

  lemma DotSwap(a: Mat4, b: Mat4, p: Mat4, q: Mat4, r: nat, s: nat)
    requires r < 4 && s < 4
    requires p[4 * r] == b[r] && p[4 * r + 1] == b[4 + r] && p[4 * r + 2] == b[8 + r] && p[4 * r + 3] == b[12 + r]
    requires q[s] == a[4 * s] && q[4 + s] == a[4 * s + 1] && q[8 + s] == a[4 * s + 2] && q[12 + s] == a[4 * s + 3]
    ensures Dot(p, q, r, s) == Dot(a, b, s, r)
  {
    SumCommutes(a[4 * s], a[4 * s + 1], a[4 * s + 2], a[4 * s + 3], b[r], b[4 + r], b[8 + r], b[12 + r]);
  }

  lemma DotTransposed(a: Mat4, b: Mat4, r: nat, s: nat)
    requires r < 4 && s < 4
    ensures Dot(Transpose(b), Transpose(a), r, s) == Dot(a, b, s, r)
  {
    TransposeAt(b, r, 0);
    TransposeAt(b, r, 1);
    TransposeAt(b, r, 2);
    TransposeAt(b, r, 3);
    TransposeAt(a, 0, s);
    TransposeAt(a, 1, s);
    TransposeAt(a, 2, s);
    TransposeAt(a, 3, s);
    DotSwap(a, b, Transpose(b), Transpose(a), r, s);
  }

  /** Reading a product column-major reverses it: (a * b)^T == b^T * a^T. */
  lemma TransposeMul(a: Mat4, b: Mat4)
    ensures Transpose(Mul(a, b)) == Mul(Transpose(b), Transpose(a))
  {
    var p, q := Transpose(Mul(a, b)), Mul(Transpose(b), Transpose(a));
    DotTransposed(a, b, 0, 0);
    DotTransposed(a, b, 0, 1);
    DotTransposed(a, b, 0, 2);
    DotTransposed(a, b, 0, 3);
    DotTransposed(a, b, 1, 0);
    DotTransposed(a, b, 1, 1);
    DotTransposed(a, b, 1, 2);
    DotTransposed(a, b, 1, 3);
    DotTransposed(a, b, 2, 0);
    DotTransposed(a, b, 2, 1);
    DotTransposed(a, b, 2, 2);
    DotTransposed(a, b, 2, 3);
    DotTransposed(a, b, 3, 0);
    DotTransposed(a, b, 3, 1);
    DotTransposed(a, b, 3, 2);
    DotTransposed(a, b, 3, 3);
    Entrywise(p, q);
  }

  lemma TransposeIdentity()
    ensures Transpose(Identity()) == Identity()
  {
  }
}
