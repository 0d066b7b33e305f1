/** combine_xform: the local-to-world matrix of a node from the list of
    transform matrices met on the way down from the archive's top. */
module Xforms {
  import opened Matrices

  /** xs[n-1] * ... * xs[1] * xs[0]: the leaf-most matrix on the left.
      This is the specification of CombineXform. */
  function Compose(xs: seq<Mat4>): Mat4
    decreases |xs|
  {
    if xs == [] then Identity() else Mul(xs[|xs| - 1], Compose(xs[..|xs| - 1]))
  }

  /** The naive left-to-right product xs[0] * xs[1] * ... * xs[n-1]. */
  function LeftToRight(xs: seq<Mat4>): Mat4
    decreases |xs|
  {
    if xs == [] then Identity() else Mul(xs[0], LeftToRight(xs[1..]))
  }

  function Reverse(xs: seq<Mat4>): (r: seq<Mat4>)
    ensures |r| == |xs|
    ensures forall i :: 0 <= i < |xs| ==> r[i] == xs[|xs| - 1 - i]
    decreases |xs|
  {
    if xs == [] then [] else Reverse(xs[1..]) + [xs[0]]
  }

  function TransposeAll(xs: seq<Mat4>): (r: seq<Mat4>)
    ensures |r| == |xs|
    ensures forall i :: 0 <= i < |xs| ==> r[i] == Transpose(xs[i])
  {
    seq(|xs|, i requires 0 <= i < |xs| => Transpose(xs[i]))
  }

  /** The loop of combine_xform: m starts as the identity and each matrix in
      turn is multiplied onto the left, m := xforms[i] * m. */
  method CombineXform(xforms: seq<Mat4>) returns (m: Mat4)
    ensures m == Compose(xforms)
  {
    m := Identity();
    var i := 0;
    while i < |xforms|
      invariant 0 <= i <= |xforms|
      invariant m == Compose(xforms[..i])
    {
      assert xforms[..i + 1][..i] == xforms[..i];
      m := Mul(xforms[i], m);
      i := i + 1;
    }
    assert xforms[..|xforms|] == xforms;
  }

  /** Pushing a matrix on the list multiplies it onto the left. */
  lemma ComposeSnoc(xs: seq<Mat4>, x: Mat4)
    ensures Compose(xs + [x]) == Mul(x, Compose(xs))
  {
    assert (xs + [x])[..|xs|] == xs;
  }

  /** No transform leaves the identity, one leaves that transform. */
  lemma ComposeSingle(x: Mat4)
    ensures Compose([]) == Identity()
    ensures Compose([x]) == x
  {
    assert [x][..0] == [];
    MulIdentityRight(x);
  }

  lemma LeftToRightSnoc(xs: seq<Mat4>, x: Mat4)
    ensures LeftToRight(xs + [x]) == Mul(LeftToRight(xs), x)
    decreases |xs|
  {
    if xs == [] {
      assert [x][1..] == [];
      MulIdentityRight(x);
      MulIdentityLeft(x);
    } else {
      assert (xs + [x])[1..] == xs[1..] + [x];
      LeftToRightSnoc(xs[1..], x);
      MulAssociative(xs[0], LeftToRight(xs[1..]), x);
    }
  }

  /** The composition is the left-to-right product of the reversed list. */
  lemma {:induction false} ComposeIsReversedProduct(xs: seq<Mat4>)
    ensures Compose(xs) == LeftToRight(Reverse(xs))
    decreases |xs|
  {
    if xs != [] {
      var n := |xs|;
      var front := xs[..n - 1];
      ComposeIsReversedProduct(front);
      assert Reverse(xs) == [xs[n - 1]] + Reverse(front);
      assert ([xs[n - 1]] + Reverse(front))[1..] == Reverse(front);
    }
  }

  lemma TransposeAllSnoc(xs: seq<Mat4>, x: Mat4)
    ensures TransposeAll(xs + [x]) == TransposeAll(xs) + [Transpose(x)]
  {
    var l, r := TransposeAll(xs + [x]), TransposeAll(xs) + [Transpose(x)];
    assert forall i :: 0 <= i < |l| ==> l[i] == r[i];
  }

  /** The Matrix4x4f fields hold Imath's row-major numbers but are read
      column-major; read that way, the combined matrix is the chain of
      (equally re-read) matrices multiplied from the top down,
      xforms[0] * xforms[1] * ... * xforms[n-1]. */
  lemma {:induction false} ComposeReadColumnMajor(xs: seq<Mat4>)
    ensures Transpose(Compose(xs)) == LeftToRight(TransposeAll(xs))
    decreases |xs|
  {
    if xs == [] {
      TransposeIdentity();
    } else {
      var n := |xs|;
      var front := xs[..n - 1];
      ComposeReadColumnMajor(front);
      TransposeMul(xs[n - 1], Compose(front));
      assert xs == front + [xs[n - 1]];
      TransposeAllSnoc(front, xs[n - 1]);
      LeftToRightSnoc(TransposeAll(front), Transpose(xs[n - 1]));
    }
  }

  /** A translation by one along x, in Imath's row-vector layout. */
  function TranslateX(): Mat4 {
    [1.0, 0.0, 0.0, 0.0,  0.0, 1.0, 0.0, 0.0,  0.0, 0.0, 1.0, 0.0,  1.0, 0.0, 0.0, 1.0]
  }

  /** A quarter turn about z, in Imath's row-vector layout. */
  function QuarterTurnZ(): Mat4 {
    [0.0, 1.0, 0.0, 0.0,  -1.0, 0.0, 0.0, 0.0,  0.0, 0.0, 1.0, 0.0,  0.0, 0.0, 0.0, 1.0]
  }

  /** For a translation under a rotation the order matters: the leaf-first
      composition differs from the naive left-to-right product. */
  lemma ComposeIsNotLeftToRight()
    ensures Compose([TranslateX(), QuarterTurnZ()]) != LeftToRight([TranslateX(), QuarterTurnZ()])
  {
    var t, q := TranslateX(), QuarterTurnZ();
    ComposeSnoc([t], q);
    ComposeSingle(t);
    assert [t, q] == [t] + [q];
    assert [t, q][1..] == [q];
    assert [q][1..] == [];
    MulIdentityRight(q);
    assert Mul(q, t)[12] == 1.0;
    assert Mul(t, q)[12] == 0.0;
  }
}
