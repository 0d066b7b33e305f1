/** The objects a read produces: SceneObject with its common fields, and the
    polygon mesh, point cloud and camera kinds. */
module Scene {
  import opened Matrices
  import opened SpreadSheet

  datatype Vector3 = Vector3(x: real, y: real, z: real)

  /** The fields every SceneObject has: the name of the transform above it,
      its visibility, the product of its transforms and the transforms
      themselves, outermost first. Matrices hold the sixteen numbers of the
      archive's M44d in storage order. */
  datatype Common = Common(name: string, visible: bool, combinedXforms: Mat4, xforms: seq<Mat4>)

  /** A SceneObject as constructed: empty name, visible false, an all-zero
      matrix (the object is value-initialised) and no transforms. */
  function DefaultCommon(): (c: Common)
    ensures !c.visible && c.name == "" && c.xforms == []
    ensures forall i :: 0 <= i < 16 ==> c.combinedXforms[i] == 0.0
  {
    Common("", false, Zero(), [])
  }

  datatype Shape =
    /** PolygonMeshObject: face counts and face-vertex indices as uint32,
        the positions, and the three attribute tables. */
    | PolygonMesh(faceCounts: seq<nat>, indices: seq<nat>, P: seq<Vector3>,
                  points: AttributeSpreadSheet, vertices: AttributeSpreadSheet, primitives: AttributeSpreadSheet)
    /** PointObject: point ids, the positions and the point table. */
    | PointCloud(pointIds: seq<nat>, P: seq<Vector3>, points: AttributeSpreadSheet)
    /** CameraObject, reduced to the two resolutions read from the user
        properties resx and resy. */
    | Camera(resolutionX: int, resolutionY: int)

  datatype SceneObject = SceneObject(common: Common, shape: Shape)

  datatype AlembicScene = AlembicScene(objects: seq<SceneObject>)
}
