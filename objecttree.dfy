/** The object hierarchy of an archive as one read sees it: every object
    with its full name, its optional "visible" char property and, by its
    schema, the one sample the read's selector picks. */
module ObjectTree {
  import opened Wrappers
  import opened Matrices
  import opened Properties

  /** int8_t. */
  type Int8 = x: int | -128 <= x < 128

  predicate IsInt32(x: int) {
    -0x8000_0000 <= x < 0x8000_0000
  }

  /** The sample of an IPolyMesh: face counts and face indices (int32
      arrays), and the children of its arbGeomParams and .geom compounds. */
  datatype PolyMeshSample = PolyMeshSample(faceCounts: seq<int>, faceIndices: seq<int>,
                                           arbGeomParams: seq<Property>, geom: seq<Property>)

  /** The sample of an IPoints: the uint64 point ids and the two compounds. */
  datatype PointsSample = PointsSample(ids: seq<nat>, arbGeomParams: seq<Property>, geom: seq<Property>)

  /** The user properties resx and resy of an ICamera, when present as floats. */
  datatype CameraSample = CameraSample(resx: Option<real>, resy: Option<real>)

  datatype NodeKind =
    | XformNode(matrix: Mat4)
    | PolyMeshNode(mesh: PolyMeshSample)
    | PointsNode(cloud: PointsSample)
    | CameraNode(camera: CameraSample)
    | OtherNode

  datatype Node = Node(fullName: string, visible: Option<Int8>, kind: NodeKind, children: seq<Node>)

  predicate IsGeometry(k: NodeKind) {
    k.PolyMeshNode? || k.PointsNode? || k.CameraNode?
  }

  predicate AllWellFormed(ps: seq<Property>) {
    forall i :: 0 <= i < |ps| ==> WellFormed(ps[i])
  }

  /** What the archive library guarantees of the samples it hands out. */
  predicate WellFormedKind(k: NodeKind) {
    match k
    case PolyMeshNode(m) =>
      AllWellFormed(m.arbGeomParams) && AllWellFormed(m.geom) &&
      (forall i :: 0 <= i < |m.faceCounts| ==> IsInt32(m.faceCounts[i])) &&
      (forall i :: 0 <= i < |m.faceIndices| ==> IsInt32(m.faceIndices[i]))
    case PointsNode(c) => AllWellFormed(c.arbGeomParams) && AllWellFormed(c.geom)
    case _ => true
  }

  predicate WellFormedNode(o: Node)
    decreases o
  {
    WellFormedKind(o.kind) && forall i :: 0 <= i < |o.children| ==> WellFormedNode(o.children[i])
  }

  /** The number of geometry objects in the tree below and at o, where a
      geometry object's own children are not counted. */
  function GeometryCount(o: Node): nat
    decreases o, 1
  {
    if IsGeometry(o.kind) then 1 else ChildrenCount(o, |o.children|)
  }

  function ChildrenCount(o: Node, k: nat): nat
    requires k <= |o.children|
    decreases o, 0, k
  {
    if k == 0 then 0 else ChildrenCount(o, k - 1) + GeometryCount(o.children[k - 1])
  }
}
