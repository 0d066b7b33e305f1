/** The part of an Alembic archive the decoder sees: a property is a name,
    a metadata dictionary and either a flat array sample (its plain-old-data
    type, the extent of its data type, its element count and the scalars),
    a flat scalar, or a compound of child properties. All values are those
    of the sample that the read selected. */
module Properties {
  import opened Wrappers
  import opened Failures

  datatype PodArray =
    | Float32Array(floats: seq<real>)
    | Int32Array(ints: seq<int>)
    | UInt32Array(uints: seq<nat>)
    | StringArray(strings: seq<string>)
    | OtherPodArray(scalarCount: nat)

  function ScalarCount(d: PodArray): nat {
    match d
    case Float32Array(fs) => |fs|
    case Int32Array(ns) => |ns|
    case UInt32Array(us) => |us|
    case StringArray(ss) => |ss|
    case OtherPodArray(n) => n
  }

  datatype Body =
    | ArrayBody(extent: nat, size: nat, data: PodArray)
    | ScalarBody
    | CompoundBody(children: seq<Property>)

  datatype Property = Property(name: string, metadata: map<string, string>, body: Body)

  /** MetaData::get: the value under key, or "" when there is none. */
  function MetaGet(metadata: map<string, string>, key: string): (v: string)
    ensures key !in metadata ==> v == ""
  {
    if key in metadata then metadata[key] else ""
  }

  /** What the archive library guarantees of every sample it hands out: a
      data type's extent is at least 1, and an array of size elements holds
      size * extent scalars. */
  predicate WellFormed(p: Property)
    decreases p
  {
    match p.body
    case ArrayBody(extent, size, data) => 1 <= extent && ScalarCount(data) == size * extent
    case ScalarBody => true
    case CompoundBody(children) => forall i :: 0 <= i < |children| ==> WellFormed(children[i])
  }

  /** The typed-property tests the decoder asks of a header. A float array of
      any extent matches IFloatArrayProperty (tested without interpretation
      matching); IV2fArrayProperty wants extent 2 and the interpretation
      "vector". */
  predicate IsFloatArray(p: Property) {
    p.body.ArrayBody? && p.body.data.Float32Array?
  }

  predicate IsV2fArray(p: Property) {
    IsFloatArray(p) && p.body.extent == 2 && MetaGet(p.metadata, "interpretation") == "vector"
  }

  predicate IsInt32Array(p: Property) {
    p.body.ArrayBody? && p.body.data.Int32Array?
  }

  predicate IsUInt32Array(p: Property) {
    p.body.ArrayBody? && p.body.data.UInt32Array?
  }

  predicate IsStringArray(p: Property) {
    p.body.ArrayBody? && p.body.data.StringArray?
  }

  /** The element count of an array sample and its scalars. */
  datatype ArraySample<T> = ArraySample(size: nat, values: seq<T>)

  /** The child property under name, the first if there were several. */
  function FindChild(children: seq<Property>, name: string): (r: Option<Property>)
    ensures r.None? <==> forall i :: 0 <= i < |children| ==> children[i].name != name
    ensures r.Some? ==> r.value in children && r.value.name == name
  {
    if children == [] then None
    else if children[0].name == name then Some(children[0])
    else FindChild(children[1..], name)
  }

  /** Reading a child as IStringArrayProperty: the library throws when the
      child is missing or is not a string array. */
  function FetchStringArray(children: seq<Property>, name: string): (r: Result<ArraySample<string>, Failure>)
    ensures r.Ok? <==> FindChild(children, name).Some? && IsStringArray(FindChild(children, name).value)
    ensures r.Err? ==> r.error == (if FindChild(children, name).None? then MissingProperty(name) else MismatchedProperty(name))
    ensures r.Ok? ==> var c := FindChild(children, name).value;
      r.value == ArraySample(c.body.size, c.body.data.strings)
  {
    match FindChild(children, name)
    case None => Err(MissingProperty(name))
    case Some(c) =>
      if IsStringArray(c) then Ok(ArraySample(c.body.size, c.body.data.strings)) else Err(MismatchedProperty(name))
  }

  /** Reading a child as IUInt32ArrayProperty. */
  function FetchUInt32Array(children: seq<Property>, name: string): (r: Result<ArraySample<nat>, Failure>)
    ensures r.Ok? <==> FindChild(children, name).Some? && IsUInt32Array(FindChild(children, name).value)
    ensures r.Err? ==> r.error == (if FindChild(children, name).None? then MissingProperty(name) else MismatchedProperty(name))
    ensures r.Ok? ==> var c := FindChild(children, name).value;
      r.value == ArraySample(c.body.size, c.body.data.uints)
  {
    match FindChild(children, name)
    case None => Err(MissingProperty(name))
    case Some(c) =>
      if IsUInt32Array(c) then Ok(ArraySample(c.body.size, c.body.data.uints)) else Err(MismatchedProperty(name))
  }

  /** Reading a child as IV2fArrayProperty; the scalars come two per element. */
  function FetchV2fArray(children: seq<Property>, name: string): (r: Result<ArraySample<real>, Failure>)
    ensures r.Ok? <==> FindChild(children, name).Some? && IsV2fArray(FindChild(children, name).value)
    ensures r.Err? ==> r.error == (if FindChild(children, name).None? then MissingProperty(name) else MismatchedProperty(name))
    ensures r.Ok? ==> var c := FindChild(children, name).value;
      r.value == ArraySample(c.body.size, c.body.data.floats)
  {
    match FindChild(children, name)
    case None => Err(MissingProperty(name))
    case Some(c) =>
      if IsV2fArray(c) then Ok(ArraySample(c.body.size, c.body.data.floats)) else Err(MismatchedProperty(name))
  }
}
