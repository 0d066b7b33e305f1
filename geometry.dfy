/** The per-object readers: parse_common_property and the common part of the
    camera branch, parse_polymesh, parse_points, and the part of the camera
    branch that can fail. */
module Geometry {
  import opened Wrappers
  import opened Failures
  import opened Matrices
  import opened Xforms
  import opened Properties
  import opened Columns
  import opened SpreadSheet
  import opened SheetBuilder
  import opened ObjectTree
  import opened Scene

  /** A geometry object is visible when the object above it has no
      "visible" property, and otherwise exactly when that char is -1. */
  function Visibility(visible: Option<Int8>): bool {
    match visible
    case None => true
    case Some(v) => v == -1
  }

  lemma VisibilityCases(v: Int8)
    ensures Visibility(None)
    ensures Visibility(Some(v)) <==> v == -1
  {
  }

  /** parse_common_property: the parent's full name, the parent's
      visibility, the current transform list appended to the object's
      (empty) list, and its combination. */
  method ParseCommonProperty(obj: Common, parent: Node, xforms: seq<Mat4>) returns (c: Common)
    ensures c.name == parent.fullName
    ensures c.visible == Visibility(parent.visible)
    ensures c.xforms == obj.xforms + xforms
    ensures c.combinedXforms == Compose(xforms)
  {
    c := obj.(name := parent.fullName);
    var i := 0;
    while i < |xforms|
      invariant 0 <= i <= |xforms|
      invariant c.name == parent.fullName
      invariant c.xforms == obj.xforms + xforms[..i]
    {
      c := c.(xforms := c.xforms + [xforms[i]]);
      assert xforms[..i + 1] == xforms[..i] + [xforms[i]];
      i := i + 1;
    }
    assert xforms[..i] == xforms;
    var m := CombineXform(xforms);
    c := c.(combinedXforms := m);
    if parent.visible.Some? {
      c := c.(visible := parent.visible.value == -1);
    } else {
      c := c.(visible := true);
    }
  }

  /** The common fields a new object ends up with. */
  function CommonOf(parent: Node, xforms: seq<Mat4>): Common {
    Common(parent.fullName, Visibility(parent.visible), Compose(xforms), xforms)
  }

  /** An object starts with no transforms, so after parse_common_property
      its list is the current one, outermost first, and its combined matrix
      is their product with the innermost on the left. */
  lemma CommonOfFresh(parent: Node, xforms: seq<Mat4>)
    ensures DefaultCommon().xforms + xforms == CommonOf(parent, xforms).xforms
    ensures CommonOf(parent, xforms).combinedXforms == LeftToRight(Reverse(xforms))
  {
    ComposeIsReversedProduct(xforms);
  }

  /** The int32 to uint32 conversion of the face arrays' copy. */
  function ToUInt32(x: int): nat {
    x % 0x1_0000_0000
  }

  lemma ToUInt32Values(x: int)
    requires IsInt32(x)
    ensures 0 <= x ==> ToUInt32(x) == x
    ensures x < 0 ==> ToUInt32(x) == x + 0x1_0000_0000
  {
  }

  /** std::vector<uint32_t>(p, p + size): the sample's values, converted;
      an int32 is kept when it is not negative and wrapped by 2^32 when it
      is. */
  function CopyUInt32(xs: seq<int>): (r: seq<nat>)
    ensures |r| == |xs|
    ensures forall i :: 0 <= i < |xs| && IsInt32(xs[i]) ==>
      r[i] == (if xs[i] < 0 then xs[i] + 0x1_0000_0000 else xs[i])
  {
    seq(|xs|, i requires 0 <= i < |xs| => ToUInt32(xs[i]))
  }

  /** A valid position column: a direct Vector3 column with a triple for
      each row. */
  predicate PositionColumn(c: Column) {
    c.VectorColumn? && c.dim == 3 && Backed(c)
  }

  /** The positions read out of the P column, one per row. */
  function Positions(c: Column): (ps: seq<Vector3>)
    requires PositionColumn(c)
    ensures |ps| == Columns.RowCount(c)
  {
    seq(c.size, i requires 0 <= i < c.size => Vector3(c.floats[3 * i], c.floats[3 * i + 1], c.floats[3 * i + 2]))
  }

  /** Position i is row i of the P column. */
  lemma PositionsAreRows(c: Column, i: nat)
    requires PositionColumn(c) && i < Columns.RowCount(c)
    ensures Readable(c, i)
    ensures [Positions(c)[i].x, Positions(c)[i].y, Positions(c)[i].z] == Get(c, i).xs
  {
    BackedRowReadable(c, i);
    DirectVectorComponent(c, i, 0);
    DirectVectorComponent(c, i, 1);
    DirectVectorComponent(c, i, 2);
  }

  /** P.resize(p->rowCount()) and the loop of p->get(i, xyz). */
  method CopyPositions(c: Column) returns (ps: seq<Vector3>)
    requires PositionColumn(c)
    ensures ps == Positions(c)
  {
    var n := Columns.RowCount(c);
    var p := new Vector3[n](_ => Vector3(0.0, 0.0, 0.0));
    var xyz := new real[3];
    var i := 0;
    while i < n
      invariant 0 <= i <= n
      invariant forall k :: 0 <= k < i ==> p[k] == Positions(c)[k]
    {
      PositionsAreRows(c, i);
      GetVector(c, i, xyz);
      assert xyz[..3] == [xyz[0], xyz[1], xyz[2]];
      p[i] := Vector3(xyz[0], xyz[1], xyz[2]);
      i := i + 1;
    }
    ps := p[..];
  }

  /** column_as_vector3("P"): get_as with the Vector3 kind; a failure
      travels up as the exception it is. */
  function PositionsFrom(t: AttributeSpreadSheet): (r: Result<seq<Vector3>, Failure>)
    requires AllBacked(t.sheet)
    ensures r.Err? <==> GetAs(t, "P", Vector3Kind).Err?
    ensures r.Err? ==> r.error == SheetFailure(GetAs(t, "P", Vector3Kind).error)
    ensures r.Ok? ==> PositionColumn(Find(t.sheet, "P").value) && r.value == Positions(Find(t.sheet, "P").value)
  {
    match GetAs(t, "P", Vector3Kind)
    case Err(e) => Err(SheetFailure(e))
    case Ok(c) =>
      FindFirst(t.sheet, "P");
      Ok(Positions(c))
  }

  function FreshSheets(withVertices: bool, withPrimitives: bool): Sheets {
    Sheets(EmptySheet(),
           if withVertices then Some(EmptySheet()) else None,
           if withPrimitives then Some(EmptySheet()) else None)
  }

  /** The two parse_attributes calls: arbGeomParams first, then .geom. */
  function TwoCompounds(sh: Sheets, first: seq<Property>, second: seq<Property>): Result<Sheets, Failure> {
    var s :- BuildSheets(sh, first);
    BuildSheets(s, second)
  }

  lemma TwoCompoundsFacts(sh: Sheets, first: seq<Property>, second: seq<Property>)
    requires AllWellFormed(first) && AllWellFormed(second) && SheetsBacked(sh)
    requires TwoCompounds(sh, first, second).Ok?
    ensures var r := TwoCompounds(sh, first, second).value;
      r.vertices.Some? == sh.vertices.Some? && r.primitives.Some? == sh.primitives.Some? && SheetsBacked(r)
  {
    var s := BuildSheets(sh, first).value;
    BuildKeepsBacked(sh, first);
    BuildSheetsContents(sh, first, PointScope);
    BuildKeepsBacked(s, second);
    BuildSheetsContents(s, second, PointScope);
  }

  /** parse_polymesh. */
  function MeshShape(m: PolyMeshSample): (r: Result<Shape, Failure>)
    requires WellFormedKind(PolyMeshNode(m))
  {
    var sh :- TwoCompounds(FreshSheets(true, true), m.arbGeomParams, m.geom);
    TwoCompoundsFacts(FreshSheets(true, true), m.arbGeomParams, m.geom);
    var P :- PositionsFrom(sh.points);
    Ok(PolygonMesh(CopyUInt32(m.faceCounts), CopyUInt32(m.faceIndices), P, sh.points, sh.vertices.value, sh.primitives.value))
  }

  /** parse_points. */
  function PointsShape(c: PointsSample): (r: Result<Shape, Failure>)
    requires WellFormedKind(PointsNode(c))
  {
    var sh :- TwoCompounds(FreshSheets(false, false), c.arbGeomParams, c.geom);
    TwoCompoundsFacts(FreshSheets(false, false), c.arbGeomParams, c.geom);
    var P :- PositionsFrom(sh.points);
    Ok(PointCloud(c.ids, P, sh.points))
  }

  /** (int) of a float: truncation toward zero. */
  function Truncate(x: real): int {
    if 0.0 <= x then x.Floor else -((-x).Floor)
  }

  /** The camera's resolutions; get_typed_scalar_property throws when resx
      or resy is missing, resx being read first. */
  function CameraShape(c: CameraSample): (r: Result<Shape, Failure>)
    ensures r.Ok? <==> c.resx.Some? && c.resy.Some?
    ensures c.resx.None? ==> r == Err(MissingProperty("resx"))
    ensures c.resx.Some? && c.resy.None? ==> r == Err(MissingProperty("resy"))
    ensures r.Ok? ==> r.value == Camera(Truncate(c.resx.value), Truncate(c.resy.value))
  {
    match (c.resx, c.resy)
    case (None, _) => Err(MissingProperty("resx"))
    case (_, None) => Err(MissingProperty("resy"))
    case (Some(x), Some(y)) => Ok(Camera(Truncate(x), Truncate(y)))
  }

  /** Truncation moves toward zero by less than one. */
  lemma TruncateBounds(x: real)
    ensures 0.0 <= x ==> Truncate(x) as real <= x < Truncate(x) as real + 1.0
    ensures x < 0.0 ==> Truncate(x) as real - 1.0 < x <= Truncate(x) as real
  {
  }

  /** What a geometry node contributes besides its common fields. */
  function ShapeOf(k: NodeKind): Result<Shape, Failure>
    requires IsGeometry(k) && WellFormedKind(k)
  {
    match k
    case PolyMeshNode(m) => MeshShape(m)
    case PointsNode(c) => PointsShape(c)
    case CameraNode(c) => CameraShape(c)
  }

  /** A built mesh: the face arrays are element-for-element copies of the
      sample's int32 arrays as uint32, a negative value wrapped by 2^32. */
  lemma MeshFaces(m: PolyMeshSample)
    requires WellFormedKind(PolyMeshNode(m)) && MeshShape(m).Ok?
    ensures var s := MeshShape(m).value;
      && |s.faceCounts| == |m.faceCounts| && |s.indices| == |m.faceIndices|
      && (forall i :: 0 <= i < |m.faceCounts| ==>
            s.faceCounts[i] == (if m.faceCounts[i] < 0 then m.faceCounts[i] + 0x1_0000_0000 else m.faceCounts[i]))
      && (forall i :: 0 <= i < |m.faceIndices| ==>
            s.indices[i] == (if m.faceIndices[i] < 0 then m.faceIndices[i] + 0x1_0000_0000 else m.faceIndices[i]))
  {
  }

  /** A built mesh's positions are the rows of the P column of its point
      table, one per row. */
  lemma MeshPositions(m: PolyMeshSample)
    requires WellFormedKind(PolyMeshNode(m)) && MeshShape(m).Ok?
    ensures var s := MeshShape(m).value;
      && HasKey(s.points.sheet, "P")
      && |s.P| == Columns.RowCount(Find(s.points.sheet, "P").value)
      && (forall i :: 0 <= i < |s.P| ==> [s.P[i].x, s.P[i].y, s.P[i].z] == Get(Find(s.points.sheet, "P").value, i).xs)
  {
    var s := MeshShape(m).value;
    TwoCompoundsFacts(FreshSheets(true, true), m.arbGeomParams, m.geom);
    var c := Find(s.points.sheet, "P").value;
    assert PositionColumn(c) && s.P == Positions(c);
    forall i | 0 <= i < |s.P|
      ensures [s.P[i].x, s.P[i].y, s.P[i].z] == Get(c, i).xs
    {
      PositionsAreRows(c, i);
    }
  }

  /** A built mesh's three tables are sorted by key. */
  lemma MeshSorted(m: PolyMeshSample)
    requires WellFormedKind(PolyMeshNode(m)) && MeshShape(m).Ok?
    ensures var s := MeshShape(m).value;
      Sorted(s.points.sheet) && Sorted(s.vertices.sheet) && Sorted(s.primitives.sheet)
  {
    var blank := FreshSheets(true, true);
    TwoCompoundsFacts(blank, m.arbGeomParams, m.geom);
    var mid := BuildSheets(blank, m.arbGeomParams).value;
    BuildSheetsContents(blank, m.arbGeomParams, PointScope);
    BuildSheetsContents(mid, m.geom, PointScope);
    BuildSheetsContents(mid, m.geom, VertexScope);
    BuildSheetsContents(mid, m.geom, PrimitiveScope);
  }

  /** A built point cloud: the ids are the sample's, the positions are the
      rows of the P column of its sorted point table. */
  lemma PointsContents(c: PointsSample)
    requires WellFormedKind(PointsNode(c)) && PointsShape(c).Ok?
    ensures var s := PointsShape(c).value;
      && s.pointIds == c.ids
      && HasKey(s.points.sheet, "P")
      && |s.P| == Columns.RowCount(Find(s.points.sheet, "P").value)
      && (forall i :: 0 <= i < |s.P| ==> [s.P[i].x, s.P[i].y, s.P[i].z] == Get(Find(s.points.sheet, "P").value, i).xs)
      && Sorted(s.points.sheet)
  {
    var s := PointsShape(c).value;
    var blank := FreshSheets(false, false);
    TwoCompoundsFacts(blank, c.arbGeomParams, c.geom);
    var mid := BuildSheets(blank, c.arbGeomParams).value;
    BuildSheetsContents(mid, c.geom, PointScope);
    var col := Find(s.points.sheet, "P").value;
    assert PositionColumn(col) && s.P == Positions(col);
    forall i | 0 <= i < |s.P|
      ensures [s.P[i].x, s.P[i].y, s.P[i].z] == Get(col, i).xs
    {
      PositionsAreRows(col, i);
    }
  }

  /** A mesh whose tables hold no "P" cannot be read: the read fails with
      "key not found". */
  lemma MeshNeedsP(m: PolyMeshSample)
    requires WellFormedKind(PolyMeshNode(m))
    requires TwoCompounds(FreshSheets(true, true), m.arbGeomParams, m.geom).Ok?
    requires !HasKey(TwoCompounds(FreshSheets(true, true), m.arbGeomParams, m.geom).value.points.sheet, "P")
    ensures MeshShape(m) == Err(SheetFailure(KeyNotFound))
  {
  }

  /** parse_polymesh as the source runs it. */
  method ParsePolymesh(m: PolyMeshSample) returns (r: Result<Shape, Failure>)
    requires WellFormedKind(PolyMeshNode(m))
    ensures r == MeshShape(m)
  {
    var faceCounts := CopyUInt32(m.faceCounts);
    var indices := CopyUInt32(m.faceIndices);
    var blank := FreshSheets(true, true);
    var first := ParseAttributes(blank, m.arbGeomParams);
    if first.Err? {
      return Err(first.error);
    }
    var second := ParseAttributes(first.value, m.geom);
    if second.Err? {
      return Err(second.error);
    }
    TwoCompoundsFacts(blank, m.arbGeomParams, m.geom);
    var sh := second.value;
    var p := GetAs(sh.points, "P", Vector3Kind);
    if p.Err? {
      return Err(SheetFailure(p.error));
    }
    FindFirst(sh.points.sheet, "P");
    var P := CopyPositions(p.value);
    r := Ok(PolygonMesh(faceCounts, indices, P, sh.points, sh.vertices.value, sh.primitives.value));
  }

  /** parse_points as the source runs it. */
  method ParsePoints(c: PointsSample) returns (r: Result<Shape, Failure>)
    requires WellFormedKind(PointsNode(c))
    ensures r == PointsShape(c)
  {
    var pointIds := c.ids;
    var blank := FreshSheets(false, false);
    var first := ParseAttributes(blank, c.arbGeomParams);
    if first.Err? {
      return Err(first.error);
    }
    var second := ParseAttributes(first.value, c.geom);
    if second.Err? {
      return Err(second.error);
    }
    TwoCompoundsFacts(blank, c.arbGeomParams, c.geom);
    var sh := second.value;
    var p := GetAs(sh.points, "P", Vector3Kind);
    if p.Err? {
      return Err(SheetFailure(p.error));
    }
    FindFirst(sh.points.sheet, "P");
    var P := CopyPositions(p.value);
    r := Ok(PointCloud(pointIds, P, sh.points));
  }
}
