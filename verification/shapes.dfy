/** Shape-descriptor dispatch: the translation of the framework's tagged shape
    descriptor into the engine's collision shape, or into no shape. */
module Shapes {
  import opened Wrappers
  import opened MathBridge
  import opened MeshScene

  /** The descriptor's shape kinds. `Mesh` (a generic mesh kind the bodies
      in the adapter test use) has no case in the dispatch and takes its
      default path. */
  datatype ShapeType =
    | Plane | Box | Sphere | Cylinder | Capsule | Ellipsoid
    | ConvexMesh | TriangularMesh | Heightfield | Compound | Mesh

  /** Mesh source: a file path (empty when unused) and raw arrays. */
  datatype MeshData = MeshData(filename: string, vertices: seq<real>, faces: seq<int32>)

  /** Heightfield samples. */
  datatype HeightfieldData = HeightfieldData(nWidthSamples: int, nDepthSamples: int, heights: seq<real>)

  /** The framework's shape descriptor. `children` and `childrenTfs` are only
      read for compound shapes. */
  datatype ShapeData = ShapeData(
    kind: ShapeType,
    size: TVec3,
    mesh: MeshData,
    hfield: HeightfieldData,
    children: seq<ShapeData>,
    childrenTfs: seq<TMat>)

  /** The engine's collision shapes, with the parameters each constructor receives. */
  datatype ShapeSpec =
    | PlaneShape(normal: EigenVec, offset: real)
    | BoxShape(extents: EigenVec)
    | SphereShape(radius: real)
    | CylinderShape(radius: real, height: real)
    | CapsuleShape(radius: real, height: real)
    | EllipsoidShape(diameters: EigenVec)
    | ConvexHullShape(scale: EigenVec, scene: Scene)
    | TriangleMeshShape(scale: EigenVec, scene: Scene)
    | HeightmapShape(nWidthSamples: int, nDepthSamples: int, heights: seq<real>, scaleZ: real)
    | CompoundShape(children: seq<CompoundChild>)

  /** A child of a compound shape: the child's shape (possibly none, which is
      added all the same) and its transform relative to the compound. */
  datatype CompoundChild = CompoundChild(shape: Option<ShapeSpec>, tf: Isometry)

  /** The engine's mesh loader: the scene read from a file, or none when
      loading fails. */
  type MeshLoader = string -> Option<Scene>

  /** What the dispatch reads must exist: every child of a compound has a
      4x4 transform at the same position and is itself well formed. Other
      kinds never read their children, so nothing is asked of them. */
  predicate WellFormed(d: ShapeData)
    decreases d
  {
    d.kind == Compound ==>
      && |d.childrenTfs| >= |d.children|
      && forall i :: 0 <= i < |d.children| ==>
           ValidMat(d.childrenTfs[i]) && d.childrenTfs[i].n == 4 && WellFormed(d.children[i])
  }

  /** Shape parameters have the arity the engine expects, recursively. */
  predicate ValidSpec(s: ShapeSpec)
    decreases s
  {
    match s
    case PlaneShape(normal, _) => |normal| == 3
    case BoxShape(extents) => |extents| == 3
    case EllipsoidShape(diameters) => |diameters| == 3
    case ConvexHullShape(scale, _) => |scale| == 3
    case TriangleMeshShape(scale, _) => |scale| == 3
    case CompoundShape(children) =>
      forall i :: 0 <= i < |children| ==>
        IsIsometry(children[i].tf) &&
        (children[i].shape.Some? ==> ValidSpec(children[i].shape.value))
    case _ => true
  }

  /** The engine shape constructor that belongs to each descriptor kind. */
  predicate SpecOfKind(s: ShapeSpec, kind: ShapeType) {
    match kind
    case Plane => s.PlaneShape?
    case Box => s.BoxShape?
    case Sphere => s.SphereShape?
    case Cylinder => s.CylinderShape?
    case Capsule => s.CapsuleShape?
    case Ellipsoid => s.EllipsoidShape?
    case ConvexMesh => s.ConvexHullShape?
    case TriangularMesh => s.TriangleMeshShape?
    case Heightfield => s.HeightmapShape?
    case Compound => s.CompoundShape?
    case Mesh => false
  }

  /** The mesh geometry a mesh descriptor yields, if any: a non-empty file
      name takes precedence (and a failed load is final); otherwise raw data
      is used when it is present, where a triangle mesh also needs faces. */
  function MeshSource(load: MeshLoader, d: ShapeData): Option<Scene>
    requires d.kind == ConvexMesh || d.kind == TriangularMesh
  {
    if d.mesh.filename != "" then load(d.mesh.filename)
    else if |d.mesh.vertices| > 0 && (d.kind == ConvexMesh || |d.mesh.faces| > 0) then
      Some(SceneFromVertexData(d.mesh.vertices, d.mesh.faces))
    else None
  }

  /** The dispatch. Ellipsoid sizes are doubled (the engine takes full axis
      lengths), spheres read their radius from size.x, cylinders and capsules
      read (size.x, size.y), and the plane always has normal +Z and offset 0. */
  function CreateCollisionShape(load: MeshLoader, d: ShapeData): (r: Option<ShapeSpec>)
    requires WellFormed(d)
    decreases d
    ensures r.Some? ==> SpecOfKind(r.value, d.kind) && ValidSpec(r.value)
    ensures r.None? <==> d.kind == Mesh || (d.kind in {ConvexMesh, TriangularMesh} && MeshSource(load, d).None?)
    ensures d.kind == Plane ==> r == Some(PlaneShape([0.0, 0.0, 1.0], 0.0))
    ensures d.kind == Box ==> r == Some(BoxShape([d.size.x, d.size.y, d.size.z]))
    ensures d.kind == Sphere ==> r == Some(SphereShape(d.size.x))
    ensures d.kind == Cylinder ==> r == Some(CylinderShape(d.size.x, d.size.y))
    ensures d.kind == Capsule ==> r == Some(CapsuleShape(d.size.x, d.size.y))
    ensures d.kind == Ellipsoid ==> r == Some(EllipsoidShape([2.0 * d.size.x, 2.0 * d.size.y, 2.0 * d.size.z]))
    ensures d.kind == Heightfield ==>
              r == Some(HeightmapShape(d.hfield.nWidthSamples, d.hfield.nDepthSamples, d.hfield.heights, d.size.z))
    ensures d.kind in {ConvexMesh, TriangularMesh} && r.Some? ==>
              r.value.scale == [d.size.x, d.size.y, d.size.z] && r.value.scene == MeshSource(load, d).value
    ensures d.kind == Compound ==>
              && |r.value.children| == |d.children|
              && forall i :: 0 <= i < |d.children| ==>
                   r.value.children[i] == CompoundChild(CreateCollisionShape(load, d.children[i]),
                                                        Mat4ToEigenTf(d.childrenTfs[i]))
  {
    match d.kind
    case Plane => Some(PlaneShape(Vec3ToEigen(TVec3(0.0, 0.0, 1.0)), 0.0))
    case Box => Some(BoxShape(Vec3ToEigen(d.size)))
    case Sphere => Some(SphereShape(d.size.x))
    case Cylinder => Some(CylinderShape(d.size.x, d.size.y))
    case Capsule => Some(CapsuleShape(d.size.x, d.size.y))
    case Ellipsoid =>
      var e := Vec3ToEigen(d.size);
      Some(EllipsoidShape([2.0 * e[0], 2.0 * e[1], 2.0 * e[2]]))
    case ConvexMesh =>
      if d.mesh.filename != "" then
        match load(d.mesh.filename)
        case Some(scene) => Some(ConvexHullShape(Vec3ToEigen(d.size), scene))
        case None => None
      else if |d.mesh.vertices| > 0 then
        Some(ConvexHullShape(Vec3ToEigen(d.size), SceneFromVertexData(d.mesh.vertices, d.mesh.faces)))
      else None
    case TriangularMesh =>
      if d.mesh.filename != "" then
        match load(d.mesh.filename)
        case Some(scene) => Some(TriangleMeshShape(Vec3ToEigen(d.size), scene))
        case None => None
      else if |d.mesh.vertices| > 0 && |d.mesh.faces| > 0 then
        Some(TriangleMeshShape(Vec3ToEigen(d.size), SceneFromVertexData(d.mesh.vertices, d.mesh.faces)))
      else None
    case Heightfield =>
      Some(HeightmapShape(d.hfield.nWidthSamples, d.hfield.nDepthSamples, d.hfield.heights, d.size.z))
    case Compound =>
      Some(CompoundShape(seq(|d.children|, i requires 0 <= i < |d.children| =>
        CompoundChild(CreateCollisionShape(load, d.children[i]), Mat4ToEigenTf(d.childrenTfs[i])))))
    case Mesh =>
      // No case handles this kind: the dispatch logs an error and gives no shape.
      None
  }

  /** A mesh descriptor that names a file is built from the file alone: its
      raw arrays are never consulted, whatever they hold. */
  lemma FileTakesPrecedence(load: MeshLoader, d: ShapeData, vertices: seq<real>, faces: seq<int32>)
    requires WellFormed(d) && d.kind in {ConvexMesh, TriangularMesh} && d.mesh.filename != ""
    ensures CreateCollisionShape(load, d)
            == CreateCollisionShape(load, d.(mesh := d.mesh.(vertices := vertices, faces := faces)))
    ensures CreateCollisionShape(load, d).Some? <==> load(d.mesh.filename).Some?
  {
  }

  /** A mesh built from raw arrays keeps them: its vertices and triangles,
      flattened again, are the input arrays without an incomplete trailing
      triple. */
  lemma {:induction false} RawMeshKeepsData(load: MeshLoader, d: ShapeData)
    requires WellFormed(d) && d.kind in {ConvexMesh, TriangularMesh} && d.mesh.filename == ""
    requires |d.mesh.vertices| > 0 && (d.kind == ConvexMesh || |d.mesh.faces| > 0)
    ensures var r := CreateCollisionShape(load, d);
            && r.Some?
            && FlattenVertices(r.value.scene.vertices)
               == d.mesh.vertices[..|d.mesh.vertices| - |d.mesh.vertices| % 3]
            && FlattenFaces(r.value.scene.faces)
               == d.mesh.faces[..|d.mesh.faces| - |d.mesh.faces| % 3]
  {
    VertexLayoutRoundTrip(d.mesh.vertices, d.mesh.faces);
    FaceLayoutRoundTrip(d.mesh.vertices, d.mesh.faces);
  }
}
