/** The older test harness that drove the engine directly: its shape
    dispatch, its joint-kind dispatch, mass from shape, and the name-keyed
    registries of bodies held by an agent and by the application. */
module LegacyHarness {
  import opened Wrappers
  import opened MathBridge
  import Shapes
  import opened SingleBodyAdapter

  /** The shape kinds the harness distinguishes. */
  datatype ShapeKind = Plane | Box | Sphere | Cylinder | Capsule | Mesh | NoShape

  /** The harness shape descriptor (colour and initial pose are not modelled). */
  datatype ShapeData = ShapeData(name: string, kind: ShapeKind, size: TVec3)

  datatype JointType = Free | Revolute | Prismatic | Ball | Planar | Fixed

  /** Position limits of a one-DOF joint: lower in `x`, upper in `y`. */
  datatype Limits = Limits(x: real, y: real)

  /** The harness joint descriptor. The two frame transforms are handed to
      the harness's own transform conversion, which this model does not
      interpret, so they are kept in framework form. */
  datatype JointData = JointData(kind: JointType, name: string, axis: TVec3,
                                 tfParentBody2Joint: TMat, tfThisBody2Joint: TMat, limits: Limits)

  /** The engine joint properties each joint type is created with. */
  datatype JointProps =
    | FreeProps(name: string, damping: seq<real>)
    | RevoluteProps(name: string, axis: EigenVec, tParent: TMat, tChild: TMat,
                    restPositions: seq<real>, stiffnesses: seq<real>, damping: seq<real>,
                    lower: real, upper: real, limitsEnforced: bool)
    | PrismaticProps(name: string, axis: EigenVec, tParent: TMat, tChild: TMat,
                     restPositions: seq<real>, stiffnesses: seq<real>, damping: seq<real>)
    | BallProps(name: string, tParent: TMat, tChild: TMat,
                restPositions: seq<real>, stiffnesses: seq<real>, damping: seq<real>)
    | PlanarProps(name: string, tParent: TMat, tChild: TMat)  // always in the ZX plane
    | WeldProps(name: string, tParent: TMat, tChild: TMat)
    | DefaultWeldProps                                        // the engine's default weld joint

  /** A created joint: the name of the body it hangs from (none for a root
      joint) and its properties. */
  datatype CreatedJoint = CreatedJoint(parent: Option<string>, props: JointProps)

  /** A built harness body: its name, its parent's name, its joint, the name
      its body node is created with (none when the node keeps the engine's
      default name), its collision shape and the inertia set on it (none
      keeps the engine default). */
  datatype SimBody = SimBody(name: string, parent: Option<string>, joint: CreatedJoint,
                             nodeName: Option<string>, shape: Option<Shapes.ShapeSpec>,
                             inertia: Option<Inertia>)

  /** The joint can only move inside [lower, upper]. */
  predicate EnforcesLimits(p: JointProps) {
    p.RevoluteProps? && p.limitsEnforced
  }

  /** Every rest position, stiffness and damping coefficient the properties
      carry is zero. */
  predicate Undamped(p: JointProps) {
    match p
    case FreeProps(_, damping) => forall k :: 0 <= k < |damping| ==> damping[k] == 0.0
    case RevoluteProps(_, _, _, _, rest, stiff, damping, _, _, _) =>
      rest == [0.0] && stiff == [0.0] && damping == [0.0]
    case PrismaticProps(_, _, _, _, rest, stiff, damping) =>
      rest == [0.0] && stiff == [0.0] && damping == [0.0]
    case BallProps(_, _, _, rest, stiff, damping) =>
      rest == [0.0, 0.0, 0.0] && stiff == [0.0, 0.0, 0.0] && damping == [0.0, 0.0, 0.0]
    case _ => true
  }

  // ---------------------------------------------------------------------------
  // Shapes and mass

  /** Collision shape of a harness descriptor: primitives only; meshes are
      reported as unsupported and NONE asks for no shape. */
  function CreateCollisionShape(d: ShapeData): (r: Option<Shapes.ShapeSpec>)
    ensures r.None? <==> d.kind == Mesh || d.kind == NoShape
  {
    match d.kind
    case Plane => Some(Shapes.PlaneShape([0.0, 0.0, 1.0], 0.0))
    case Box => Some(Shapes.BoxShape(Vec3ToEigen(d.size)))
    case Sphere => Some(Shapes.SphereShape(d.size.x))
    case Cylinder => Some(Shapes.CylinderShape(d.size.x, d.size.y))
    case Capsule => Some(Shapes.CapsuleShape(d.size.x, d.size.y))
    case Mesh => None
    case NoShape => None
  }

  /** The current descriptor kind that a harness primitive kind corresponds to. */
  function CurrentKind(k: ShapeKind): Shapes.ShapeType
    requires k != Mesh && k != NoShape
  {
    match k
    case Plane => Shapes.Plane
    case Box => Shapes.Box
    case Sphere => Shapes.Sphere
    case Cylinder => Shapes.Cylinder
    case Capsule => Shapes.Capsule
  }

  /** On every primitive the harness dispatch and the current dispatch build
      the same engine shape from the same size. */
  lemma AgreesWithCurrentDispatch(d: ShapeData, current: Shapes.ShapeData, load: Shapes.MeshLoader)
    requires d.kind != Mesh && d.kind != NoShape
    requires current.kind == CurrentKind(d.kind) && current.size == d.size
    requires Shapes.WellFormed(current)
    ensures CreateCollisionShape(d) == Shapes.CreateCollisionShape(load, current)
  {
  }

  /** The centre-of-mass offset of every harness shape is the origin. */
  function ComputeCOMoffset(d: ShapeData): (r: EigenVec)
    ensures r == [0.0, 0.0, 0.0]
  {
    match d.kind
    case Plane => [0.0, 0.0, 0.0]
    case Box => [0.0, 0.0, 0.0]
    case Sphere => [0.0, 0.0, 0.0]
    case Cylinder => [0.0, 0.0, 0.0]
    case Capsule => [0.0, 0.0, 0.0]
    case _ => [0.0, 0.0, 0.0]
  }

  /** Mass of a (possibly absent) shape at the harness's default density:
      zero without a shape, volume times density with one. */
  function ComputeMassFromShape(s: Option<Shapes.ShapeSpec>, volumeOf: VolumeOf, defaultDensity: real): (m: real)
    ensures s.None? ==> m == 0.0
    ensures s.Some? ==> m == volumeOf(s.value) * defaultDensity
  {
    match s
    case Some(shape) => volumeOf(shape) * defaultDensity
    case None => 0.0
  }

  // ---------------------------------------------------------------------------
  // Joints and bodies

  /** The joint the harness creates for a joint descriptor, given the name
      of the parent body (if any). */
  function BuildJoint(parent: Option<string>, jd: JointData): (j: CreatedJoint)
    ensures jd.kind == Free ==> j.parent.None? && j.props.FreeProps?
                                && j.props.damping == [0.0, 0.0, 0.0, 0.0, 0.0, 0.0]
    ensures jd.kind in {Revolute, Prismatic, Ball, Planar} ==> j.parent == parent
    ensures jd.kind == Revolute ==> j.props.RevoluteProps? && EnforcesLimits(j.props)
                                    && j.props.lower == jd.limits.x && j.props.upper == jd.limits.y
    ensures jd.kind != Revolute ==> !EnforcesLimits(j.props)
    ensures jd.kind == Fixed && parent.Some? ==>
              j == CreatedJoint(parent, WeldProps(jd.name, jd.tfParentBody2Joint, jd.tfThisBody2Joint))
    ensures jd.kind == Fixed && parent.None? ==> j == CreatedJoint(None, DefaultWeldProps)
    ensures j.props != DefaultWeldProps ==> j.props.name == jd.name
    ensures Undamped(j.props)
  {
    match jd.kind
    case Free =>
      CreatedJoint(None, FreeProps(jd.name, [0.0, 0.0, 0.0, 0.0, 0.0, 0.0]))
    case Revolute =>
      CreatedJoint(parent, RevoluteProps(jd.name, Vec3ToEigen(jd.axis), jd.tfParentBody2Joint, jd.tfThisBody2Joint,
                                         [0.0], [0.0], [0.0], jd.limits.x, jd.limits.y, true))
    case Prismatic =>
      CreatedJoint(parent, PrismaticProps(jd.name, Vec3ToEigen(jd.axis), jd.tfParentBody2Joint, jd.tfThisBody2Joint,
                                          [0.0], [0.0], [0.0]))
    case Ball =>
      CreatedJoint(parent, BallProps(jd.name, jd.tfParentBody2Joint, jd.tfThisBody2Joint,
                                     [0.0, 0.0, 0.0], [0.0, 0.0, 0.0], [0.0, 0.0, 0.0]))
    case Planar =>
      CreatedJoint(parent, PlanarProps(jd.name, jd.tfParentBody2Joint, jd.tfThisBody2Joint))
    case Fixed =>
      if parent.Some? then CreatedJoint(parent, WeldProps(jd.name, jd.tfParentBody2Joint, jd.tfThisBody2Joint))
      else CreatedJoint(None, DefaultWeldProps)
  }

  /** Builds a harness body: its joint, its collision shape, and, only when a
      shape exists, the inertia derived from that shape's mass. The body node
      is named after the shape, except for a fixed root: that pair is created
      with default properties, so neither the joint nor the node receives
      the descriptor's names. */
  function BuildSimBody(name: string, parent: Option<string>, sd: ShapeData, jd: JointData,
                        volumeOf: VolumeOf, defaultDensity: real): (b: SimBody)
    ensures b.name == name && b.parent == parent
    ensures b.nodeName.None? <==> jd.kind == Fixed && parent.None?
    ensures b.nodeName.Some? ==> b.nodeName.value == sd.name
    ensures b.joint == BuildJoint(parent, jd)
    ensures b.shape == CreateCollisionShape(sd)
    ensures b.inertia.Some? <==> b.shape.Some?
    ensures b.inertia.Some? ==>
              b.inertia.value.mass == ComputeMassFromShape(b.shape, volumeOf, defaultDensity)
              && b.inertia.value.moment == ShapeMoment(b.shape.value, b.inertia.value.mass)
  {
    var shape := CreateCollisionShape(sd);
    var inertia :=
      if shape.Some? then
        var mass := ComputeMassFromShape(shape, volumeOf, defaultDensity);
        Some(Inertia(mass, ShapeMoment(shape.value, mass)))
      else None;
    var nodeName := if jd.kind == Fixed && parent.None? then None else Some(sd.name);
    SimBody(name, parent, BuildJoint(parent, jd), nodeName, shape, inertia)
  }

  /** A name-keyed body registry: the bodies in insertion order and the map
      from name to body (a later body shadows an earlier one of the same name). */
  datatype Registry = Registry(bodies: seq<SimBody>, byName: map<string, SimBody>)

  /** Appends a body and maps it by its name; nothing else changes. */
  function Register(reg: Registry, b: SimBody): (r: Registry)
    ensures |r.bodies| == |reg.bodies| + 1 && r.bodies[..|reg.bodies|] == reg.bodies
    ensures r.bodies[|reg.bodies|] == b
    ensures r.byName.Keys == reg.byName.Keys + {b.name} && r.byName[b.name] == b
    ensures forall n :: n in reg.byName && n != b.name ==> r.byName[n] == reg.byName[n]
  {
    Registry(reg.bodies + [b], reg.byName[b.name := b])
  }

  /** An agent: one skeleton shared by all its bodies, and their registry. */
  datatype Agent = Agent(name: string, registry: Registry)

  /** Adds a body to an agent. A parent name that is not registered is
      ignored and the body is built as a root. */
  function AddBody(agent: Agent, name: string, parentName: string, sd: ShapeData, jd: JointData,
                   volumeOf: VolumeOf, defaultDensity: real): (res: (Agent, SimBody))
    ensures res.1.parent == (if parentName in agent.registry.byName then Some(parentName) else None)
    ensures res.1 == BuildSimBody(name, res.1.parent, sd, jd, volumeOf, defaultDensity)
    ensures res.0 == agent.(registry := Register(agent.registry, res.1))
  {
    var parent := if parentName in agent.registry.byName then Some(parentName) else None;
    var body := BuildSimBody(name, parent, sd, jd, volumeOf, defaultDensity);
    (agent.(registry := Register(agent.registry, body)), body)
  }

  // ---------------------------------------------------------------------------
  // The application

  /** The application state that the harness logic touches: the run flags,
      the engine world (none until start-up creates it), and the body
      registry. */
  datatype App = App(isRunning: bool, isTerminated: bool, world: Option<World>, registry: Registry)

  /** A freshly constructed application: stopped, not terminated, without a
      world, empty. */
  function NewApp(): (app: App)
    ensures !app.isRunning && !app.isTerminated && app.world.None?
    ensures app.registry.bodies == [] && app.registry.byName == map[]
  {
    App(false, false, None, Registry([], map[]))
  }

  function TogglePause(app: App): (r: App)
    ensures r.isRunning == !app.isRunning
    ensures r.(isRunning := app.isRunning) == app
  {
    app.(isRunning := !app.isRunning)
  }

  /** Start-up: the physics set-up creates a fresh, empty world and marks
      the application running, and the final toggle leaves it paused. */
  function Init(app: App): (r: App)
    ensures !r.isRunning && !r.isTerminated
    ensures r.world == Some(World([]))
    ensures r.registry == app.registry
  {
    TogglePause(app.(isRunning := true, isTerminated := false, world := Some(World([]))))
  }

  /** The joint descriptor for a single body: a free joint named "free_" +
      name, or a fixed joint named "fixed_" + name. Its remaining fields are
      not read for these two kinds at the root. */
  function SingleBodyJointData(sd: ShapeData, isFree: bool): (jd: JointData)
    ensures isFree ==> jd.kind == Free && jd.name == "free_" + sd.name
    ensures !isFree ==> jd.kind == Fixed && jd.name == "fixed_" + sd.name
  {
    var id := Identity4();
    JointData(if isFree then Free else Fixed, (if isFree then "free_" else "fixed_") + sd.name,
              TVec3(0.0, 0.0, 0.0), id, id, Limits(0.0, 0.0))
  }

  /** Creates a root body from a shape, registers its skeleton with the world
      and the body with the application. The world must exist: before
      start-up the application has none to add the skeleton to. */
  function CreateSingleBody(app: App, sd: ShapeData, isFree: bool,
                            volumeOf: VolumeOf, defaultDensity: real): (res: (App, SimBody))
    requires app.world.Some?
    ensures res.1.name == sd.name && res.1.parent.None?
    ensures res.1.joint == BuildJoint(None, SingleBodyJointData(sd, isFree))
    ensures res.0.world == Some(World(app.world.value.skeletons + [sd.name]))
    ensures res.0.registry == Register(app.registry, res.1)
    ensures res.0.isRunning == app.isRunning && res.0.isTerminated == app.isTerminated
  {
    var body := BuildSimBody(sd.name, None, sd, SingleBodyJointData(sd, isFree), volumeOf, defaultDensity);
    var world := World(app.world.value.skeletons + [sd.name]);
    (app.(world := Some(world), registry := Register(app.registry, body)), body)
  }

  /** Looks a body up by name; unknown names give none. */
  function GetBody(app: App, name: string): (r: Option<SimBody>)
    ensures r.Some? <==> name in app.registry.byName
    ensures r.Some? ==> r.value == app.registry.byName[name]
  {
    if name in app.registry.byName then Some(app.registry.byName[name]) else None
  }

  // ---------------------------------------------------------------------------
  // Properties

  /** When every shape has positive volume and the density is positive, a
      harness body has positive mass exactly when its descriptor yields a
      collision shape: MESH and NONE descriptors are massless. */
  lemma MassIffShape(sd: ShapeData, volumeOf: VolumeOf, defaultDensity: real)
    requires defaultDensity > 0.0 && forall s :: volumeOf(s) > 0.0
    ensures ComputeMassFromShape(CreateCollisionShape(sd), volumeOf, defaultDensity) > 0.0
            <==> sd.kind != Mesh && sd.kind != NoShape
  {
  }

  /** Pausing twice restores the run flag. */
  lemma TogglePauseInvolution(app: App)
    ensures TogglePause(TogglePause(app)) == app
  {
  }

  /** A free single body gets a root free joint named "free_" + name with zero
      damping and a body node named after the shape; a fixed single body gets
      the engine's default root weld joint and body node, so neither its
      "fixed_" name nor the shape's name is handed to the engine. */
  lemma SingleBodyJoint(app: App, sd: ShapeData, isFree: bool, volumeOf: VolumeOf, defaultDensity: real)
    requires app.world.Some?
    ensures var b := CreateSingleBody(app, sd, isFree, volumeOf, defaultDensity).1;
            && b.joint.parent.None?
            && (isFree ==> b.joint.props == FreeProps("free_" + sd.name, [0.0, 0.0, 0.0, 0.0, 0.0, 0.0])
                           && b.nodeName == Some(sd.name))
            && (!isFree ==> b.joint.props == DefaultWeldProps && b.nodeName.None?)
  {
  }

  /** A body created by name is found under that name afterwards, and the
      lookup of any other name is unaffected. */
  lemma CreatedBodyIsFound(app: App, sd: ShapeData, isFree: bool, volumeOf: VolumeOf,
                            defaultDensity: real, other: string)
    requires app.world.Some? && other != sd.name
    ensures var res := CreateSingleBody(app, sd, isFree, volumeOf, defaultDensity);
            && GetBody(res.0, sd.name) == Some(res.1)
            && GetBody(res.0, other) == GetBody(app, other)
  {
  }

  /** Adding a body under an unknown parent name builds it as a root, and it
      is then reachable by its own name. */
  lemma UnknownParentBuildsRoot(agent: Agent, name: string, parentName: string, sd: ShapeData,
                                jd: JointData, volumeOf: VolumeOf, defaultDensity: real)
    requires parentName !in agent.registry.byName
    ensures var res := AddBody(agent, name, parentName, sd, jd, volumeOf, defaultDensity);
            && res.1.parent.None?
            && res.1.joint == BuildJoint(None, jd)
            && name in res.0.registry.byName && res.0.registry.byName[name] == res.1
            && res.0.registry.bodies[|res.0.registry.bodies| - 1] == res.1
  {
  }

  /** Start-up discards whatever the world held: a body created right after
      it is the world's only skeleton, while the registry keeps earlier
      bodies. */
  lemma CreateAfterInit(app: App, sd: ShapeData, isFree: bool, volumeOf: VolumeOf, defaultDensity: real)
    ensures var res := CreateSingleBody(Init(app), sd, isFree, volumeOf, defaultDensity);
            && res.0.world == Some(World([sd.name]))
            && res.0.registry.bodies == app.registry.bodies + [res.1]
            && !res.0.isRunning
  {
    assert [] + [sd.name] == [sd.name];
  }
}
