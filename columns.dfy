/** The attribute columns: one typed, read-only view over one attribute's
    values, backed either directly by the sample's scalars or by an index
    array into a pool of distinct values. */
module Columns {

  datatype Kind = IntKind | FloatKind | StringKind | Vector2Kind | Vector3Kind | Vector4Kind

  /** The component count of a direct vector column. */
  type Dim = d: int | 2 <= d <= 4 witness 2

  function VectorKind(d: Dim): Kind {
    if d == 2 then Vector2Kind else if d == 3 then Vector3Kind else Vector4Kind
  }

  datatype Column =
    /** AttributeStraightforwardFloatColumn: the sample's element count and floats. */
    | FloatColumn(size: nat, floats: seq<real>)
    /** AttributeStraightforwardVector{2,3,4}Column: the row count worked out
        by the decoder and the sample's floats, dim per row. */
    | VectorColumn(dim: Dim, size: nat, floats: seq<real>)
    /** AttributeStraightforwardIntColumn. */
    | IntColumn(size: nat, ints: seq<int>)
    /** AttributeStraightforwardStringColumn. */
    | StringColumn(size: nat, strings: seq<string>)
    /** AttributeIndexedStringColumn: the .indices sample and the .vals pool. */
    | IndexedStringColumn(size: nat, indices: seq<nat>, pool: seq<string>)
    /** AttributeIndexedVector2Column: the .indices sample and the .vals pool
        flattened, two coordinates per pool entry. */
    | IndexedVector2Column(size: nat, indices: seq<nat>, coords: seq<real>)

  /** The abstract column class the value is an instance of. */
  function KindOf(c: Column): Kind {
    match c
    case FloatColumn(_, _) => FloatKind
    case VectorColumn(d, _, _) => VectorKind(d)
    case IntColumn(_, _) => IntKind
    case StringColumn(_, _) => StringKind
    case IndexedStringColumn(_, _, _) => StringKind
    case IndexedVector2Column(_, _, _) => Vector2Kind
  }

  /** rowCount(): the element count of the sample behind the column (of the
      index array for an indexed column), or the decoder's row count for a
      direct vector column. */
  function RowCount(c: Column): nat {
    c.size
  }

  predicate IsIndexed(c: Column) {
    c.IndexedStringColumn? || c.IndexedVector2Column?
  }

  /** get(index) reads only memory that is there. The source checks nothing:
      this is the caller's obligation. */
  predicate Readable(c: Column, i: nat) {
    match c
    case FloatColumn(_, fs) => i < |fs|
    case VectorColumn(d, _, fs) => i * d + d <= |fs|
    case IntColumn(_, ns) => i < |ns|
    case StringColumn(_, ss) => i < |ss|
    case IndexedStringColumn(_, ix, pool) => i < |ix| && ix[i] < |pool|
    case IndexedVector2Column(_, ix, pool) => i < |ix| && 2 * ix[i] + 1 < |pool|
  }

  datatype Value = FloatValue(x: real) | IntValue(n: int) | StringValue(s: string) | VectorValue(xs: seq<real>)

  /** The number of components a vector kind carries. */
  function Width(k: Kind): nat {
    match k
    case Vector2Kind => 2
    case Vector3Kind => 3
    case Vector4Kind => 4
    case _ => 1
  }

  predicate HasKind(v: Value, k: Kind) {
    match v
    case FloatValue(_) => k == FloatKind
    case IntValue(_) => k == IntKind
    case StringValue(_) => k == StringKind
    case VectorValue(xs) => k in {Vector2Kind, Vector3Kind, Vector4Kind} && |xs| == Width(k)
  }

  /** get(index) of each column class. */
  function Get(c: Column, i: nat): (v: Value)
    requires Readable(c, i)
    ensures HasKind(v, KindOf(c))
  {
    match c
    case FloatColumn(_, fs) => FloatValue(fs[i])
    case VectorColumn(d, _, fs) => VectorValue(fs[i * d .. i * d + d])
    case IntColumn(_, ns) => IntValue(ns[i])
    case StringColumn(_, ss) => StringValue(ss[i])
    case IndexedStringColumn(_, ix, pool) => StringValue(pool[ix[i]])
    case IndexedVector2Column(_, ix, pool) => VectorValue([pool[2 * ix[i]], pool[2 * ix[i] + 1]])
  }

  /** A direct column holds a scalar for every one of its rows. Nothing is
      said of an index array's entries: those only the data can vouch for. */
  predicate Backed(c: Column) {
    match c
    case FloatColumn(n, fs) => n <= |fs|
    case VectorColumn(d, n, fs) => n * d <= |fs|
    case IntColumn(n, ns) => n <= |ns|
    case StringColumn(n, ss) => n <= |ss|
    case IndexedStringColumn(_, _, _) => true
    case IndexedVector2Column(_, _, _) => true
  }

  lemma MulMonotone(i: nat, n: nat, d: nat)
    requires i < n
    ensures i * d + d <= n * d
  {
    assert i * d + d == (i + 1) * d;
    assert (i + 1) * d <= n * d by {
      assert n * d == (i + 1) * d + (n - i - 1) * d;
    }
  }

  /** In a backed direct column every row below rowCount can be read. */
  lemma BackedRowReadable(c: Column, i: nat)
    requires Backed(c) && !IsIndexed(c) && i < RowCount(c)
    ensures Readable(c, i)
  {
    if c.VectorColumn? {
      MulMonotone(i, c.size, c.dim);
    }
  }

  /** Row i, component k of a direct vector column is floats[i * D + k]. */
  lemma DirectVectorComponent(c: Column, i: nat, k: nat)
    requires c.VectorColumn? && Readable(c, i) && k < c.dim
    ensures Get(c, i).xs[k] == c.floats[i * c.dim + k]
  {
  }

  /** Rows 0 .. n-1 of a direct vector column laid end to end. */
  function Concat(c: Column, n: nat): seq<real>
    requires c.VectorColumn? && n * c.dim <= |c.floats|
  {
    if n == 0 then []
    else
      assert (n - 1) * c.dim + c.dim == n * c.dim;
      Concat(c, n - 1) + Get(c, n - 1).xs
  }

  /** The rows of a direct vector column are the consecutive dim-tuples of
      its floats: laid end to end they give back the buffer they came from. */
  lemma {:induction false} ConcatIsPrefix(c: Column, n: nat)
    requires c.VectorColumn? && n * c.dim <= |c.floats|
    ensures Concat(c, n) == c.floats[..n * c.dim]
  {
    if n > 0 {
      var d := c.dim;
      assert (n - 1) * d + d == n * d;
      ConcatIsPrefix(c, n - 1);
      assert c.floats[..n * d] == c.floats[..(n - 1) * d] + c.floats[(n - 1) * d .. n * d];
    }
  }

  /** The two rows of an indexed column are the pool entries the indices
      name, whatever the pool's size. */
  lemma IndexedRow(c: Column, i: nat)
    requires IsIndexed(c) && Readable(c, i)
    ensures c.IndexedStringColumn? ==> Get(c, i) == StringValue(c.pool[c.indices[i]])
    ensures c.IndexedVector2Column? ==> Get(c, i).xs == [c.coords[2 * c.indices[i]], c.coords[2 * c.indices[i] + 1]]
  {
  }

  /** The get(index, float *xs) of the two vector column classes: the direct
      one copies its D components in a loop, the indexed one copies x and y
      of the pool entry. Nothing else in xs changes. */
  method GetVector(c: Column, index: nat, xs: array<real>)
    requires (c.VectorColumn? || c.IndexedVector2Column?) && Readable(c, index)
    requires Width(KindOf(c)) <= xs.Length
    modifies xs
    ensures xs[..Width(KindOf(c))] == Get(c, index).xs
    ensures xs[Width(KindOf(c))..] == old(xs[Width(KindOf(c))..])
  {
    if c.VectorColumn? {
      var src := index * c.dim;
      var i := 0;
      while i < c.dim
        invariant 0 <= i <= c.dim
        invariant forall k :: 0 <= k < i ==> xs[k] == c.floats[src + k]
        invariant forall k :: c.dim <= k < xs.Length ==> xs[k] == old(xs[k])
      {
        xs[i] := c.floats[src + i];
        i := i + 1;
      }
      assert xs[..c.dim] == c.floats[src .. src + c.dim];
    } else {
      var j := c.indices[index];
      xs[0] := c.coords[2 * j];
      xs[1] := c.coords[2 * j + 1];
    }
  }
}
