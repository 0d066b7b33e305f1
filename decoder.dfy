/** The single-attribute decoder: given one property of a geometry
    parameter compound, either the column that views it or "unsupported",
    together with its geometry scope. */
module Decoder {
  import opened Wrappers
  import opened Failures
  import opened Properties
  import opened CText
  import opened Columns

  /** getArrayExtent: the arrayExtent metadata read with atoi, 1 when absent. */
  function GetArrayExtent(metadata: map<string, string>): int {
    var s := MetaGet(metadata, "arrayExtent");
    if s == "" then 1 else Atoi(s)
  }

  /** Whatever numeral the exporter wrote is read back, and no entry means 1. */
  lemma ArrayExtentOfNumeral(metadata: map<string, string>, n: nat)
    ensures MetaGet(metadata, "arrayExtent") == "" ==> GetArrayExtent(metadata) == 1
    ensures MetaGet(metadata, "arrayExtent") == Decimal(n) ==> GetArrayExtent(metadata) == n
  {
    if MetaGet(metadata, "arrayExtent") == Decimal(n) {
      AtoiOfDecimal(n);
    }
  }

  /** The geoScope metadata, "" when there is none. */
  function GeoScope(p: Property): string {
    MetaGet(p.metadata, "geoScope")
  }

  /** The flat float branch: the component width is the data type's extent
      times the array extent; the row count is the element count divided by
      the array extent when that exceeds 1. Widths other than 1 to 4 are
      unsupported. */
  function FloatArrayColumn(extent: nat, size: nat, floats: seq<real>, arrayExtent: int): Option<Column> {
    var width := extent * arrayExtent;
    var rows := if 1 < arrayExtent then size / arrayExtent else size;
    if width == 1 then Some(FloatColumn(size, floats))
    else if 2 <= width <= 4 then Some(VectorColumn(width, rows, floats))
    else None
  }

  predicate IsIndexedString(p: Property) {
    p.body.CompoundBody? && MetaGet(p.metadata, "podName") == "string"
  }

  predicate IsIndexedVector2(p: Property) {
    p.body.CompoundBody? && MetaGet(p.metadata, "podName") == "float32_t" && MetaGet(p.metadata, "podExtent") == "2"
  }

  /** parse_attributes(parent, key, ...): the branches are tried in the
      source's order. Ok(None) is the source's "return false"; an Err is an
      exception of the archive library while fetching a compound's parts. */
  function DecodeAttribute(p: Property): Result<Option<Column>, Failure> {
    if IsIndexedString(p) then
      var vals :- FetchStringArray(p.body.children, ".vals");
      var indices :- FetchUInt32Array(p.body.children, ".indices");
      Ok(Some(IndexedStringColumn(indices.size, indices.values, vals.values)))
    else if IsIndexedVector2(p) then
      var indices :- FetchUInt32Array(p.body.children, ".indices");
      var vals :- FetchV2fArray(p.body.children, ".vals");
      Ok(Some(IndexedVector2Column(indices.size, indices.values, vals.values)))
    else if IsV2fArray(p) then
      Ok(None)
    else if IsFloatArray(p) then
      Ok(FloatArrayColumn(p.body.extent, p.body.size, p.body.data.floats, GetArrayExtent(p.metadata)))
    else if IsInt32Array(p) then
      Ok(Some(IntColumn(p.body.size, p.body.data.ints)))
    else if IsStringArray(p) then
      Ok(Some(StringColumn(p.body.size, p.body.data.strings)))
    else
      Ok(None)
  }

  /** The component width of the flat float branch is one, two, three or four. */
  predicate SupportedWidth(p: Property) {
    p.body.ArrayBody? && 1 <= p.body.extent * GetArrayExtent(p.metadata) <= 4
  }

  /** Only a compound's parts can be missing or of the wrong type; a flat
      property always decodes. */
  lemma FlatNeverFails(p: Property)
    requires !p.body.CompoundBody?
    ensures DecodeAttribute(p).Ok?
  {
  }

  /** A compound fails exactly when one of its two parts cannot be fetched,
      and the failure names the first part that the source fetches. */
  lemma IndexedFailures(p: Property)
    requires IsIndexedString(p) || IsIndexedVector2(p)
    ensures IsIndexedString(p) ==>
      (DecodeAttribute(p).Err? <==>
        FetchStringArray(p.body.children, ".vals").Err? || FetchUInt32Array(p.body.children, ".indices").Err?)
    ensures IsIndexedString(p) && FetchStringArray(p.body.children, ".vals").Err? ==>
      DecodeAttribute(p) == Err(FetchStringArray(p.body.children, ".vals").error)
    ensures !IsIndexedString(p) ==>
      (DecodeAttribute(p).Err? <==>
        FetchUInt32Array(p.body.children, ".indices").Err? || FetchV2fArray(p.body.children, ".vals").Err?)
    ensures !IsIndexedString(p) && FetchUInt32Array(p.body.children, ".indices").Err? ==>
      DecodeAttribute(p) == Err(FetchUInt32Array(p.body.children, ".indices").error)
    ensures DecodeAttribute(p).Ok? ==> DecodeAttribute(p).value.Some? && IsIndexed(DecodeAttribute(p).value.value)
  {
  }

  /** When parse_attributes returns false: a flat V2f array, a flat float
      array of an unsupported width, or a property none of the typed tests
      admits. A compound of either indexed form is never unsupported. */
  lemma UnsupportedExactly(p: Property)
    ensures DecodeAttribute(p) == Ok(None) <==>
      !IsIndexedString(p) && !IsIndexedVector2(p) &&
      (IsV2fArray(p) || (IsFloatArray(p) && !SupportedWidth(p)) ||
       (!IsFloatArray(p) && !IsInt32Array(p) && !IsStringArray(p)))
  {
  }

  /** The kind of the decoded column follows from the property's type: int32
      gives an Int column, strings a String column, a float array a Float
      column at width 1 and a VectorW column at widths 2 to 4. */
  lemma DecodedKind(p: Property)
    requires DecodeAttribute(p).Ok? && DecodeAttribute(p).value.Some?
    ensures var k := KindOf(DecodeAttribute(p).value.value);
      && (IsIndexedString(p) ==> k == StringKind)
      && (!IsIndexedString(p) && IsIndexedVector2(p) ==> k == Vector2Kind)
      && (!p.body.CompoundBody? && IsFloatArray(p) ==>
            var w := p.body.extent * GetArrayExtent(p.metadata);
            k == (if w == 1 then FloatKind else if w == 2 then Vector2Kind else if w == 3 then Vector3Kind else Vector4Kind))
      && (IsInt32Array(p) ==> k == IntKind)
      && (IsStringArray(p) ==> k == StringKind)
  {
  }

  /** rowCount of a decoded column: the element count of the sample behind
      it (of the index array for an indexed column), except for a direct
      vector column, whose count is divided by the array extent when that
      exceeds 1. */
  lemma DecodedRowCount(p: Property)
    requires DecodeAttribute(p).Ok? && DecodeAttribute(p).value.Some?
    ensures var c := DecodeAttribute(p).value.value;
      && (IsIndexedString(p) ==> RowCount(c) == FetchUInt32Array(p.body.children, ".indices").value.size)
      && (!IsIndexedString(p) && IsIndexedVector2(p) ==> RowCount(c) == FetchUInt32Array(p.body.children, ".indices").value.size)
      && (!p.body.CompoundBody? && !c.VectorColumn? ==> RowCount(c) == p.body.size)
      && (!p.body.CompoundBody? && c.VectorColumn? ==>
            var a := GetArrayExtent(p.metadata);
            RowCount(c) == (if 1 < a then p.body.size / a else p.body.size))
  {
  }

  lemma DivTimes(size: nat, a: int, e: nat)
    requires 1 < a
    ensures (size / a) * (e * a) <= size * e
  {
    var q := size / a;
    assert q * a <= size;
    assert (q * a) * e <= size * e by {
      assert size * e == q * a * e + (size - q * a) * e;
    } 
    assert q * (e * a) == (q * a) * e;
  }

  lemma WidthFactors(e: nat, a: int)
    requires 1 <= e && 1 <= e * a
    ensures 1 <= a
  {
  }

  lemma UnitWidth(e: nat, a: int)
    requires 1 <= e && e * a == 1
    ensures e == 1 && a == 1
  {
    WidthFactors(e, a);
  }

  /** Every direct column decoded from a sample that the library vouches
      for holds a scalar for each of its rows; with BackedRowReadable, rows
      0 .. rowCount-1 can then be read. */
  lemma DecodedIsBacked(p: Property)
    requires WellFormed(p) && DecodeAttribute(p).Ok? && DecodeAttribute(p).value.Some?
    ensures Backed(DecodeAttribute(p).value.value)
  {
    var c := DecodeAttribute(p).value.value;
    if !IsIndexed(c) {
      var e := p.body.extent;
      var size := p.body.size;
      assert ScalarCount(p.body.data) == size * e;
      assert size <= size * e by {
        assert size * e == size + size * (e - 1);
      }
      if c.VectorColumn? {
        var a := GetArrayExtent(p.metadata);
        WidthFactors(e, a);
        if 1 < a {
          DivTimes(size, a, e);
        } else {
          assert c.size * c.dim == size * e;
        }
      } else if c.FloatColumn? {
        UnitWidth(e, GetArrayExtent(p.metadata));
      }
    }
  }

  /** A Houdini uv-style string attribute: the pool holds each distinct
      value once and the indices pick the row values. */
  lemma IndexedStringExample()
    ensures var vals := Property(".vals", map[], ArrayBody(1, 2, StringArray(["a", "b"])));
      var indices := Property(".indices", map[], ArrayBody(1, 3, UInt32Array([1, 0, 1])));
      var p := Property("name", map["podName" := "string"], CompoundBody([vals, indices]));
      var r := DecodeAttribute(p);
      && r.Ok? && r.value.Some?
      && RowCount(r.value.value) == 3
      && Get(r.value.value, 0) == StringValue("b")
      && Get(r.value.value, 1) == StringValue("a")
      && Get(r.value.value, 2) == StringValue("b")
  {
    var vals := Property(".vals", map[], ArrayBody(1, 2, StringArray(["a", "b"])));
    var indices := Property(".indices", map[], ArrayBody(1, 3, UInt32Array([1, 0, 1])));
    assert FindChild([vals, indices], ".indices") == Some(indices) by {
      assert [vals, indices][1..] == [indices];
    }
  }

  /** Nine floats with arrayExtent 3 are three Vector3 rows of consecutive
      triples; without the metadata they are a Float column of nine rows. */
  lemma FloatTriplesExample()
    ensures var fs := [1.0, 2.0, 3.0, 4.0, 5.0, 6.0, 7.0, 8.0, 9.0];
      var p := Property("Cd", map["arrayExtent" := "3"], ArrayBody(1, 9, Float32Array(fs)));
      var q := Property("Cd", map[], ArrayBody(1, 9, Float32Array(fs)));
      && DecodeAttribute(p) == Ok(Some(VectorColumn(3, 3, fs)))
      && Get(VectorColumn(3, 3, fs), 1) == VectorValue([4.0, 5.0, 6.0])
      && DecodeAttribute(q) == Ok(Some(FloatColumn(9, fs)))
  {
    var fs := [1.0, 2.0, 3.0, 4.0, 5.0, 6.0, 7.0, 8.0, 9.0];
    assert Atoi("3") == 3 by {
      assert DigitPrefix("3") == "3";
      assert DigitPrefix("3"[1..]) == "";
    }
    assert fs[3..6] == [4.0, 5.0, 6.0];
  }

  /** An arrayExtent with no number at its head reads as 0. */
  lemma ArrayExtentWithoutNumber(metadata: map<string, string>)
    requires MetaGet(metadata, "arrayExtent") != "" && NoLeadingNumber(MetaGet(metadata, "arrayExtent"))
    ensures GetArrayExtent(metadata) == 0
  {
    AtoiNoDigits(MetaGet(metadata, "arrayExtent"));
  }

  /** An arrayExtent that reads as 0 or less, such as one atoi cannot read
      or a negative one, leaves no supported width: the float attribute is
      dropped. */
  lemma UnreadableArrayExtent(p: Property)
    requires IsFloatArray(p) && !IsV2fArray(p)
    requires GetArrayExtent(p.metadata) <= 0
    ensures DecodeAttribute(p) == Ok(None)
  {
    assert p.body.extent * GetArrayExtent(p.metadata) <= 0;
  }
}
