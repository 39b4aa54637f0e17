/** The single-body adapter: the engine-side skeleton (one joint, one body
    node) behind one framework body, with its lifecycle
    Unbuilt -> Built -> Initialized and Detached from any phase.

    The engine's shape volume is a parameter (`VolumeOf`) and its shape
    inertia is kept symbolic (`ShapeMoment`). */
module SingleBodyAdapter {
  import opened Wrappers
  import opened MathBridge
  import opened Shapes

  datatype DynamicsType = Static | Dynamic

  /** The body's user-supplied inertial data: a mass and six inertia terms. */
  datatype InertialData = InertialData(mass: real, ixx: real, iyy: real, izz: real,
                                       ixy: real, ixz: real, iyz: real)

  /** The collider's own adapter, reduced to the collision shape its Build
      produced: none when the shape dispatch gave no shape (a mesh whose file
      fails to load, or a kind without a case). That adapter is not part of
      this model. */
  datatype ColliderAdapter = ColliderAdapter(shape: Option<ShapeSpec>)

  /** A body's collider: its density and, once installed, its adapter. */
  datatype Collider = Collider(density: real, adapter: Option<ColliderAdapter>)

  /** The framework body the adapter reads. */
  datatype Body = Body(name: string, dyntype: DynamicsType, tf0: TMat,
                       inertia: InertialData, collider: Option<Collider>)

  /** The collider adapter Build consults, if the body has a collider and
      that collider has an adapter. */
  function ColliderAdapterOf(b: Body): (r: Option<ColliderAdapter>)
    ensures r.Some? <==> b.collider.Some? && b.collider.value.adapter.Some?
    ensures r.Some? ==> r == b.collider.value.adapter
  {
    if b.collider.Some? then b.collider.value.adapter else None
  }

  /** What Build reads exists: a 4x4 initial transform, and a collider shape
      whenever the inertia policy of a dynamic body needs one (for the volume
      when the mass is not positive, for the moments when the explicit terms
      are unusable). Without a shape both reads dereference a null pointer. */
  predicate ValidBody(b: Body) {
    && ValidMat(b.tf0) && b.tf0.n == 4
    && (b.dyntype == Dynamic && ColliderAdapterOf(b).Some? && ColliderAdapterOf(b).value.shape.None? ==>
          b.inertia.mass > 0.0 && ExplicitMomentsValid(b.inertia))
  }

  datatype JointKind = WeldJoint | FreeJoint

  /** The body's root joint. For a root joint, `transform` is the body's world
      transform: the free joint's configuration, or the weld joint's
      transform from its (absent) parent body node. */
  datatype Joint = Joint(kind: JointKind, name: string, transform: Isometry)

  function NumDofs(j: Joint): nat {
    match j.kind
    case WeldJoint => 0
    case FreeJoint => 6
  }

  /** Moments of inertia: six explicit terms, or the engine's inertia of a
      shape for a given mass. */
  datatype Moment =
    | Principal(ixx: real, iyy: real, izz: real, ixy: real, ixz: real, iyz: real)
    | ShapeMoment(shape: ShapeSpec, mass: real)

  datatype Inertia = Inertia(mass: real, moment: Moment)

  /** The inertia of a freshly created body node: unit mass, unit moments. */
  const DefaultInertia: Inertia := Inertia(1.0, Principal(1.0, 1.0, 1.0, 0.0, 0.0, 0.0))

  /** A shape node attached to a body node, holding the collision shape it
      was created with (none when it was created with a null shape). */
  datatype ShapeNode = ShapeNode(shape: Option<ShapeSpec>)

  /** The engine body node: its shape node (if one was created), inertia,
      velocities and the external force and torque applied at its centre of
      mass. */
  datatype BodyNode = BodyNode(name: string, shapeNode: Option<ShapeNode>, inertia: Inertia,
                               linearVelocity: EigenVec, angularVelocity: EigenVec,
                               extForce: EigenVec, extTorque: EigenVec)

  datatype Skeleton = Skeleton(name: string, joint: Joint, node: BodyNode)

  /** The engine world, reduced to the names of its registered skeletons. */
  datatype World = World(skeletons: seq<string>)

  /** The adapter's references: the body (cleared on detach), the skeleton
      (holding the joint and body node), whether a world reference is set,
      and the detached flag. */
  datatype Adapter = Adapter(body: Option<Body>, skeleton: Option<Skeleton>,
                             hasWorld: bool, detached: bool)

  datatype Phase = Unbuilt | Built | Initialized | Detached

  /** Shape volume as the engine computes it. */
  type VolumeOf = ShapeSpec -> real

  predicate ValidSkeleton(sk: Skeleton) {
    && IsIsometry(sk.joint.transform)
    && |sk.node.linearVelocity| == 3 && |sk.node.angularVelocity| == 3
    && |sk.node.extForce| == 3 && |sk.node.extTorque| == 3
  }

  /** The adapter invariant once built: a body and a well-formed skeleton
      whose joint matches the body's dynamics type. */
  predicate Consistent(a: Adapter) {
    && a.body.Some? && ValidBody(a.body.value)
    && a.skeleton.Some? && ValidSkeleton(a.skeleton.value)
    && a.skeleton.value.joint.kind == (if a.body.value.dyntype == Static then WeldJoint else FreeJoint)
  }

  /** The lifecycle phase; Initialized means the world holds the skeleton. */
  function PhaseOf(a: Adapter, w: World): Phase {
    if a.detached then Detached
    else if a.skeleton.None? then Unbuilt
    else if a.skeleton.value.name in w.skeletons then Initialized
    else Built
  }

  const Zero3: EigenVec := [0.0, 0.0, 0.0]

  // ---------------------------------------------------------------------------
  // Construction and destruction

  /** A new adapter for a (non-null) body: no engine objects, no world. */
  function New(body: Body): (a: Adapter)
    ensures a.body == Some(body) && a.skeleton.None? && !a.hasWorld && !a.detached
    ensures forall w :: PhaseOf(a, w) == Unbuilt
  {
    Adapter(Some(body), None, false, false)
  }

  /** The world reference the owning simulation installs before Initialize
      (its setter lives in the adapter's header, which is not part of this model). */
  function AttachWorld(a: Adapter): (r: Adapter)
    ensures r.hasWorld && r.body == a.body && r.skeleton == a.skeleton && r.detached == a.detached
  {
    a.(hasWorld := true)
  }

  /** Detaching marks the adapter and drops the body reference. */
  function OnDetach(a: Adapter): (r: Adapter)
    ensures forall w :: PhaseOf(r, w) == Detached
    ensures r.body.None? && r.skeleton == a.skeleton && r.hasWorld == a.hasWorld
  {
    a.(detached := true, body := None)
  }

  /** Destruction: tells the body to detach the simulation only when the body
      reference is still set, then drops every reference. The first component
      says whether the body was told. */
  function Destroy(a: Adapter): (res: (bool, Adapter))
    ensures res.0 <==> a.body.Some?
    ensures res.1.body.None? && res.1.skeleton.None? && !res.1.hasWorld
    ensures res.1.detached == a.detached
  {
    (a.body.Some?, Adapter(None, None, false, a.detached))
  }

  // ---------------------------------------------------------------------------
  // Build

  /** The mass a dynamic body with a collider receives: its own mass when
      positive, otherwise the collider shape's volume times its density. */
  function BodyMass(data: InertialData, shape: Option<ShapeSpec>, density: real, volumeOf: VolumeOf): real
    requires data.mass > 0.0 || shape.Some?
  {
    if data.mass > 0.0 then data.mass else volumeOf(shape.value) * density
  }

  /** The user's inertia terms are usable: positive diagonal, non-negative
      off-diagonal. */
  predicate ExplicitMomentsValid(data: InertialData) {
    && data.ixx > 0.0 && data.iyy > 0.0 && data.izz > 0.0
    && data.ixy >= 0.0 && data.ixz >= 0.0 && data.iyz >= 0.0
  }

  /** The inertia policy for a dynamic body with a collider adapter. The
      shape is read only where the policy needs it. */
  function BodyInertia(data: InertialData, shape: Option<ShapeSpec>, density: real, volumeOf: VolumeOf): (i: Inertia)
    requires shape.None? ==> data.mass > 0.0 && ExplicitMomentsValid(data)
    ensures data.mass > 0.0 ==> i.mass == data.mass
    ensures data.mass <= 0.0 ==> i.mass == volumeOf(shape.value) * density
    ensures i.moment.Principal? <==> ExplicitMomentsValid(data)
    ensures i.moment.Principal? ==>
              i.moment == Principal(data.ixx, data.iyy, data.izz, data.ixy, data.ixz, data.iyz)
    ensures i.moment.ShapeMoment? ==> i.moment == ShapeMoment(shape.value, i.mass)
  {
    var mass := BodyMass(data, shape, density, volumeOf);
    var moment :=
      if ExplicitMomentsValid(data) then Principal(data.ixx, data.iyy, data.izz, data.ixy, data.ixz, data.iyz)
      else ShapeMoment(shape.value, mass);
    Inertia(mass, moment)
  }

  /** The inertia the built body node ends up with: the policy for dynamic
      bodies with a collider adapter, the engine default otherwise. */
  function NodeInertia(b: Body, volumeOf: VolumeOf): Inertia
    requires ValidBody(b)
  {
    var ca := ColliderAdapterOf(b);
    if b.dyntype == Dynamic && ca.Some? then
      BodyInertia(b.inertia, ca.value.shape, b.collider.value.density, volumeOf)
    else DefaultInertia
  }

  /** Builds the skeleton: a weld joint (0 DOF) for static bodies and a free
      joint (6 DOF) otherwise, one body node carrying the collider's shape
      and the inertia policy, then applies the initial transform. */
  function Build(a: Adapter, volumeOf: VolumeOf): (r: Adapter)
    requires a.body.Some? && ValidBody(a.body.value)
    ensures Consistent(r)
    ensures var b := a.body.value; var sk := r.skeleton.value;
            && sk.name == b.name && sk.node.name == b.name
            && (b.dyntype == Static ==> sk.joint.kind == WeldJoint && NumDofs(sk.joint) == 0
                                        && sk.joint.name == b.name + "_weldjoint")
            && (b.dyntype == Dynamic ==> sk.joint.kind == FreeJoint && NumDofs(sk.joint) == 6
                                         && sk.joint.name == b.name + "_freejoint")
            && (ColliderAdapterOf(b).None? ==> sk.node.shapeNode.None?)
            && (ColliderAdapterOf(b).Some? ==> sk.node.shapeNode == Some(ShapeNode(ColliderAdapterOf(b).value.shape)))
            && (b.dyntype == Static || ColliderAdapterOf(b).None? ==> sk.node.inertia == DefaultInertia)
            && (b.dyntype == Dynamic && ColliderAdapterOf(b).Some? ==>
                  sk.node.inertia == BodyInertia(b.inertia, ColliderAdapterOf(b).value.shape,
                                                 b.collider.value.density, volumeOf))
            && sk.joint.transform == Mat4ToEigenTf(b.tf0)
            && sk.node.linearVelocity == Zero3 && sk.node.angularVelocity == Zero3
    ensures r.body == a.body && r.hasWorld == a.hasWorld && r.detached == a.detached
  {
    var b := a.body.value;
    var kind := if b.dyntype == Static then WeldJoint else FreeJoint;
    var jointName := if b.dyntype == Static then b.name + "_weldjoint" else b.name + "_freejoint";
    var joint := Joint(kind, jointName, Mat4ToEigenTf(Identity4()));
    var shapeNode := if ColliderAdapterOf(b).Some? then Some(ShapeNode(ColliderAdapterOf(b).value.shape)) else None;
    var node := BodyNode(b.name, shapeNode, NodeInertia(b, volumeOf), Zero3, Zero3, Zero3, Zero3);
    var built := a.(skeleton := Some(Skeleton(b.name, joint, node)));
    SetTransform(built, b.tf0)
  }

  /** Registers the skeleton with the world; both the world reference and
      the skeleton must exist. A skeleton the world already holds is not
      added again. */
  function Initialize(a: Adapter, w: World): (w': World)
    requires a.hasWorld && a.skeleton.Some?
    ensures a.skeleton.value.name in w'.skeletons
    ensures a.skeleton.value.name in w.skeletons ==> w' == w
    ensures a.skeleton.value.name !in w.skeletons ==>
              && |w'.skeletons| == |w.skeletons| + 1
              && w'.skeletons[..|w.skeletons|] == w.skeletons
              && w'.skeletons[|w.skeletons|] == a.skeleton.value.name
  {
    if a.skeleton.value.name in w.skeletons then w
    else World(w.skeletons + [a.skeleton.value.name])
  }

  // ---------------------------------------------------------------------------
  // Setters

  /** Sets the body's world transform. Dynamic bodies set their free joint's
      transform, static bodies their weld joint's transform from the absent
      parent; for a root joint both fix the world transform. */
  function SetTransform(a: Adapter, tf: TMat): (r: Adapter)
    requires a.skeleton.Some? && a.body.Some?
    requires a.body.value.dyntype == Dynamic ==> a.skeleton.value.joint.kind == FreeJoint
    requires ValidMat(tf) && tf.n == 4
    ensures r.skeleton.Some? && r.skeleton.value.joint.transform == Mat4ToEigenTf(tf)
    ensures r.skeleton.value.node == a.skeleton.value.node
    ensures r.skeleton.value.joint.kind == a.skeleton.value.joint.kind
    ensures r.skeleton.value.joint.name == a.skeleton.value.joint.name
    ensures r.skeleton.value.name == a.skeleton.value.name
    ensures r.body == a.body && r.hasWorld == a.hasWorld && r.detached == a.detached
  {
    var sk := a.skeleton.value;
    a.(skeleton := Some(sk.(joint := sk.joint.(transform := Mat4ToEigenTf(tf)))))
  }

  /** Replaces the body node of a built adapter. */
  function WithNode(a: Adapter, node: BodyNode): Adapter
    requires a.skeleton.Some?
  {
    a.(skeleton := Some(a.skeleton.value.(node := node)))
  }

  /** Sets the linear velocity (keeping the angular one) of a body on a
      6-DOF joint; on any other joint it only warns, naming the body. */
  function SetLinearVelocity(a: Adapter, v: TVec3): (r: Adapter)
    requires a.skeleton.Some?
    requires NumDofs(a.skeleton.value.joint) != 6 ==> a.body.Some?
    ensures NumDofs(a.skeleton.value.joint) != 6 ==> r == a
    ensures r.skeleton.Some? && r.skeleton == Some(a.skeleton.value.(node := r.skeleton.value.node))
    ensures r.body == a.body && r.hasWorld == a.hasWorld && r.detached == a.detached
    ensures NumDofs(a.skeleton.value.joint) == 6 ==>
              && r.skeleton.value.node.linearVelocity == Vec3ToEigen(v)
              && r.skeleton.value.node.(linearVelocity := a.skeleton.value.node.linearVelocity) == a.skeleton.value.node
  {
    if NumDofs(a.skeleton.value.joint) != 6 then a
    else
      var node := a.skeleton.value.node;
      WithNode(a, node.(linearVelocity := Vec3ToEigen(v)))
  }

  /** Sets the angular velocity (keeping the linear one) of a body on a
      6-DOF joint; on any other joint it only warns, naming the body. */
  function SetAngularVelocity(a: Adapter, v: TVec3): (r: Adapter)
    requires a.skeleton.Some?
    requires NumDofs(a.skeleton.value.joint) != 6 ==> a.body.Some?
    ensures NumDofs(a.skeleton.value.joint) != 6 ==> r == a
    ensures r.skeleton.Some? && r.skeleton == Some(a.skeleton.value.(node := r.skeleton.value.node))
    ensures r.body == a.body && r.hasWorld == a.hasWorld && r.detached == a.detached
    ensures NumDofs(a.skeleton.value.joint) == 6 ==>
              && r.skeleton.value.node.angularVelocity == Vec3ToEigen(v)
              && r.skeleton.value.node.(angularVelocity := a.skeleton.value.node.angularVelocity) == a.skeleton.value.node
  {
    if NumDofs(a.skeleton.value.joint) != 6 then a
    else
      var node := a.skeleton.value.node;
      WithNode(a, node.(angularVelocity := Vec3ToEigen(v)))
  }

  /** Applies an external force at the centre of mass. */
  function SetForceCOM(a: Adapter, force: TVec3): (r: Adapter)
    requires a.skeleton.Some?
    ensures r.skeleton.Some? && r.skeleton == Some(a.skeleton.value.(node := r.skeleton.value.node))
    ensures r.body == a.body && r.hasWorld == a.hasWorld && r.detached == a.detached
    ensures r.skeleton.value.node.extForce == Vec3ToEigen(force)
    ensures r.skeleton.value.node.(extForce := a.skeleton.value.node.extForce) == a.skeleton.value.node
  {
    WithNode(a, a.skeleton.value.node.(extForce := Vec3ToEigen(force)))
  }

  /** Applies an external torque at the centre of mass. */
  function SetTorqueCOM(a: Adapter, torque: TVec3): (r: Adapter)
    requires a.skeleton.Some?
    ensures r.skeleton.Some? && r.skeleton == Some(a.skeleton.value.(node := r.skeleton.value.node))
    ensures r.body == a.body && r.hasWorld == a.hasWorld && r.detached == a.detached
    ensures r.skeleton.value.node.extTorque == Vec3ToEigen(torque)
    ensures r.skeleton.value.node.(extTorque := a.skeleton.value.node.extTorque) == a.skeleton.value.node
  {
    WithNode(a, a.skeleton.value.node.(extTorque := Vec3ToEigen(torque)))
  }

  /** Reapplies the initial transform; dynamic bodies also get both
      velocities zeroed. */
  function Reset(a: Adapter): (r: Adapter)
    requires Consistent(a)
    ensures Consistent(r)
    ensures r.skeleton.value.joint.transform == Mat4ToEigenTf(a.body.value.tf0)
    ensures r.skeleton.value.name == a.skeleton.value.name
    ensures r.skeleton.value.joint.(transform := a.skeleton.value.joint.transform) == a.skeleton.value.joint
    ensures a.body.value.dyntype == Dynamic ==>
              r.skeleton.value.node == a.skeleton.value.node.(linearVelocity := Zero3, angularVelocity := Zero3)
    ensures a.body.value.dyntype == Static ==> r.skeleton.value.node == a.skeleton.value.node
    ensures r.body == a.body && r.hasWorld == a.hasWorld && r.detached == a.detached
  {
    var placed := SetTransform(a, a.body.value.tf0);
    if a.body.value.dyntype == Dynamic then
      SetAngularVelocity(SetLinearVelocity(placed, TVec3(0.0, 0.0, 0.0)), TVec3(0.0, 0.0, 0.0))
    else placed
  }

  // ---------------------------------------------------------------------------
  // Getters

  /** The body's world transform as a framework matrix. The body node of a
      root joint sits where its joint puts it, so this is the joint's
      transform. */
  function GetTransform(a: Adapter): (m: TMat)
    requires a.skeleton.Some? && ValidSkeleton(a.skeleton.value)
    ensures ValidMat(m) && m.n == 4 && HasAffineBottomRow(m)
    ensures Mat4ToEigenTf(m) == a.skeleton.value.joint.transform
  {
    EigenTfRoundTrip(a.skeleton.value.joint.transform);
    Mat4FromEigenTf(a.skeleton.value.joint.transform)
  }

  function GetLinearVelocity(a: Adapter): TVec3
    requires a.skeleton.Some? && ValidSkeleton(a.skeleton.value)
  {
    Vec3FromEigen(a.skeleton.value.node.linearVelocity)
  }

  function GetAngularVelocity(a: Adapter): TVec3
    requires a.skeleton.Some? && ValidSkeleton(a.skeleton.value)
  {
    Vec3FromEigen(a.skeleton.value.node.angularVelocity)
  }

  // ---------------------------------------------------------------------------
  // Properties

  /** After Build the body reports its initial transform: the rotation block
      and translation column agree, and the whole matrix does when the
      initial transform is a proper homogeneous one. */
  lemma BuildReportsInitialTransform(a: Adapter, volumeOf: VolumeOf)
    requires a.body.Some? && ValidBody(a.body.value)
    ensures SameRigidPart(GetTransform(Build(a, volumeOf)), a.body.value.tf0)
    ensures HasAffineBottomRow(a.body.value.tf0) ==> GetTransform(Build(a, volumeOf)) == a.body.value.tf0
  {
    var tf0 := a.body.value.tf0;
    assert GetTransform(Build(a, volumeOf)) == Mat4FromEigenTf(Mat4ToEigenTf(tf0));
    TfRoundTrip(tf0);
  }

  /** The built body's mass: the engine default 1.0 for static bodies, the
      body's own positive mass, or else volume times density for a dynamic
      body with a collider adapter. */
  lemma BuildMass(a: Adapter, volumeOf: VolumeOf)
    requires a.body.Some? && ValidBody(a.body.value)
    ensures var b := a.body.value; var mass := Build(a, volumeOf).skeleton.value.node.inertia.mass;
            && (b.dyntype == Static ==> mass == 1.0)
            && (b.dyntype == Dynamic && ColliderAdapterOf(b).Some? ==>
                  mass == (if b.inertia.mass > 0.0 then b.inertia.mass
                           else volumeOf(ColliderAdapterOf(b).value.shape.value) * b.collider.value.density))
  {
  }

  /** A collider adapter without a shape still gets a shape node, holding
      no shape; a dynamic body then keeps its own mass and explicit moments,
      the only policy that does not read the shape. */
  lemma NullColliderShapeBuild(a: Adapter, volumeOf: VolumeOf)
    requires a.body.Some? && ValidBody(a.body.value)
    requires var ca := ColliderAdapterOf(a.body.value); ca.Some? && ca.value.shape.None?
    ensures var b := a.body.value; var node := Build(a, volumeOf).skeleton.value.node;
            && node.shapeNode == Some(ShapeNode(None))
            && (b.dyntype == Dynamic ==>
                  node.inertia == Inertia(b.inertia.mass, Principal(b.inertia.ixx, b.inertia.iyy, b.inertia.izz,
                                                                    b.inertia.ixy, b.inertia.ixz, b.inertia.iyz)))
  {
  }

  /** Initializing twice registers the skeleton once. */
  lemma InitializeOnce(a: Adapter, w: World)
    requires a.hasWorld && a.skeleton.Some?
    ensures Initialize(a, Initialize(a, w)) == Initialize(a, w)
  {
  }

  /** Setting a velocity on a free body and reading it back returns it. */
  lemma VelocityRoundTrip(a: Adapter, v: TVec3)
    requires Consistent(a) && a.body.value.dyntype == Dynamic
    ensures GetLinearVelocity(SetLinearVelocity(a, v)) == v
    ensures GetAngularVelocity(SetAngularVelocity(a, v)) == v
    ensures GetAngularVelocity(SetLinearVelocity(a, v)) == GetAngularVelocity(a)
    ensures GetLinearVelocity(SetAngularVelocity(a, v)) == GetLinearVelocity(a)
  {
  }

  /** On a static body (weld joint) the velocity setters change nothing. */
  lemma StaticVelocityUnchanged(a: Adapter, v: TVec3)
    requires Consistent(a) && a.body.value.dyntype == Static
    ensures SetLinearVelocity(a, v) == a && SetAngularVelocity(a, v) == a
  {
  }

  /** A freshly built body is already in its reset state. */
  lemma ResetAfterBuildIsIdentity(a: Adapter, volumeOf: VolumeOf)
    requires a.body.Some? && ValidBody(a.body.value)
    ensures Reset(Build(a, volumeOf)) == Build(a, volumeOf)
  {
  }

  /** The lifecycle: a new adapter is Unbuilt, Build makes it Built, and
      Initialize with a world reference makes it Initialized; detaching
      afterwards means destruction no longer calls back into the body. */
  lemma Lifecycle(body: Body, w: World, volumeOf: VolumeOf)
    requires ValidBody(body) && body.name !in w.skeletons
    ensures var a0 := AttachWorld(New(body));
            var a1 := Build(a0, volumeOf);
            var w1 := Initialize(a1, w);
            && PhaseOf(a0, w) == Unbuilt
            && PhaseOf(a1, w) == Built
            && PhaseOf(a1, w1) == Initialized
            && PhaseOf(OnDetach(a1), w1) == Detached
            && !Destroy(OnDetach(a1)).0
            && Destroy(a1).0
  {
  }
}
