# Dafny model of the DART adapter core

This project models the decision logic of an adapter layer that maps a
simulation framework's rigid bodies, shapes and math types onto the DART
physics engine. Almost all physics is delegated to DART. What remains, and
what is modelled here, is:

- **Math bridge** (`MathBridge`). Element-wise conversions between the
  framework's `TVec3`/`TVec4`/`TMat3`/`TMat4` and Eigen's vectors, matrices
  and `Isometry3d`. Framework matrices are column-major buffers and Eigen
  matrices are sequences of rows, so the round trips are real index
  arithmetic.
- **Raw mesh flattening** (`MeshScene`). The construction of an in-memory
  mesh from flat vertex and face arrays. It includes the `int` to
  `unsigned int` conversion of face indices, written as reduction modulo 2^32.
- **Shape-descriptor dispatch** (`Shapes`). The total map from a tagged
  shape descriptor to an engine collision shape or none. It covers the mesh
  source precedence rules and compound recursion.
- **Bitmask collision filter** (`CollisionFilter`). A group/mask predicate
  layered over DART's own body-level exclusion rule.
- **Single-body adapter** (`SingleBodyAdapter`). The Unbuilt → Built →
  Initialized lifecycle, with Detached reachable from any phase. It covers
  joint choice, the mass and inertia policy, velocity setters that act only
  on 6-DOF joints, `Reset`, detach handling and destruction.
- **Legacy test harness** (`LegacyHarness`). The older shape dispatch, the
  joint-kind dispatch, mass from shape, and name-keyed body registries.

All modules are pure functions over immutable datatypes. The one loop-based
algorithm, the mesh construction, is a method that is proved equal to its
functional definition.

Engine internals are parameters or symbolic values:

- shape volume is a parameter `VolumeOf`;
- shape inertia is the symbolic `ShapeMoment(shape, mass)`;
- mesh loading from a file is a parameter `MeshLoader`;
- DART's base collision filter is a parameter `BaseFilter`.

The legacy harness's `DEFAULT_DENSITY` is defined in a header that is not
part of this model, so it is a parameter as well.

Fatal assertions of the source are preconditions. Logged errors and
warnings are no-ops, or a none result where the source returns null.

The collision filter keeps a pair unless neither node's group meets the
other's mask. So a pair with group 1 / mask 0 against group 0 / mask 1 is
not separated by the bitmask layer: the first group meets the second mask
(`1 & 1 != 0`). `CollisionFilter.OneWayAffinityCollides` states this.

## Model

| member | source | states |
|---|---|---|
| MathBridge.Vec3RoundTrip | src/loco_common_dart.cpp:51-54 | `vec3_from_eigen` inverts `vec3_to_eigen` (lines 7-10) and vice versa |
| MathBridge.Vec4RoundTrip | src/loco_common_dart.cpp:56-59 | `vec4_from_eigen` inverts `vec4_to_eigen` (lines 12-15) and vice versa |
| MathBridge.MatToEigen | src/loco_common_dart.cpp:17-35 | the Eigen matrix is n×n and entry (i, j) is the framework's `mat(i, j)`, for n = 3 and n = 4 |
| MathBridge.MatFromEigen | src/loco_common_dart.cpp:61-79 | the framework matrix is n×n and `mat(i, j)` is the Eigen entry (i, j) |
| MathBridge.MatRoundTrip | src/loco_common_dart.cpp:17-79 | `mat*_from_eigen(mat*_to_eigen(m)) == m`, buffer position by buffer position |
| MathBridge.EigenMatRoundTrip | src/loco_common_dart.cpp:17-79 | `mat*_to_eigen(mat*_from_eigen(e)) == e` for every n×n Eigen matrix |
| MathBridge.Mat4ToEigenTf | src/loco_common_dart.cpp:37-49 | the result is a well-formed transform whose rotation entry (i, j) is `mat(i, j)` for i, j < 3 and whose translation is rows 0-2 of column 3; the bottom row is not read |
| MathBridge.Mat4FromEigenTf | src/loco_common_dart.cpp:81-90 | the result is a 4×4 framework matrix whose entry (i, j) for i, j < 3 is the rotation entry (i, j), whose column 3 holds the translation in rows 0-2, and whose bottom row is (0, 0, 0, 1) |
| MathBridge.TfRoundTrip | src/loco_common_dart.cpp:37-90 | the trip through the engine keeps the 3×3 rotation block and rows 0-2 of column 3; the bottom row comes back as (0,0,0,1); so the matrix is unchanged exactly when it already had that bottom row |
| MathBridge.EigenTfRoundTrip | src/loco_common_dart.cpp:37-90 | engine transform → framework → engine is the identity |
| MeshScene.ToUnsigned | src/loco_common_dart.cpp:209-211 | a face entry is stored as an `unsigned int`: non-negative entries unchanged, negative ones wrapped by 2^32 |
| MeshScene.SignedRoundTrip | src/loco_common_dart.cpp:209-211 | the wrap loses nothing: reading the stored index back as `int` gives the original entry |
| MeshScene.SceneFromVertexData | src/loco_common_dart.cpp:172-212 | there are `|vertices|/3` vertices and `|faces|/3` faces, and every face has exactly 3 indices |
| MeshScene.VertexLayoutRoundTrip | src/loco_common_dart.cpp:198-203 | flattening the built vertices gives back the coordinate array without its incomplete trailing triple, so vertex v is `(vertices[3v], vertices[3v+1], vertices[3v+2])` |
| MeshScene.FaceLayoutRoundTrip | src/loco_common_dart.cpp:204-212 | flattening the built faces, read as signed, gives back the index array without its incomplete trailing triple, so face f is `faces[3f..3f+2]` |
| MeshScene.LayoutErrorIffLoss | src/loco_common_dart.cpp:172-178 | the "3 elements per vertex/face" error is reported exactly when trailing entries are dropped; it only logs, and the scene is built anyway |
| MeshScene.CreateSceneFromVertexData | src/loco_common_dart.cpp:170-215 | the two filling loops build exactly the scene `SceneFromVertexData` describes |
| Shapes.CreateCollisionShape | src/loco_common_dart.cpp:92-168 | the result has the constructor of the descriptor's kind and well-formed parameters, recursively. It is none exactly for the kind without a case (the switch's default path) and for a mesh with no usable source. Plane normal is (0,0,1) with offset 0. Box takes the full size. Sphere radius is size.x. Cylinder and capsule take (size.x, size.y). Ellipsoid takes 2·size. A non-empty file name wins over raw data, and a failed load is final. Raw convex data needs vertices; raw triangle data needs vertices and faces. A compound has one child per descriptor child, paired with `Mat4ToEigenTf(children_tfs[i])` in order |
| Shapes.FileTakesPrecedence | src/loco_common_dart.cpp:108-141 | for a mesh descriptor with a file name, the raw vertex and face arrays make no difference to the result, and a shape exists exactly when the file loads |
| Shapes.RawMeshKeepsData | src/loco_common_dart.cpp:116-138 | a convex mesh with raw vertices, or a triangle mesh with raw vertices and faces, always yields a shape. Its scene's vertices and triangles, flattened again, are the input arrays without an incomplete trailing triple |
| CollisionFilter.IgnoresCollision | src/loco_common_dart.cpp:221-245 | the base rule's "ignore" always wins. Without group and mask entries for both nodes, only the base rule decides. Otherwise the pair is ignored iff the base rule ignores it or neither group meets the other's mask |
| CollisionFilter.SetCollisionGroup | src/loco_common_dart.cpp:247-250 | only the given node's group entry changes; the other groups and the whole mask table are unchanged |
| CollisionFilter.SetCollisionMask | src/loco_common_dart.cpp:252-255 | only the given node's mask entry changes; the other masks and the whole group table are unchanged |
| CollisionFilter.IgnoresSymmetric | src/loco_common_dart.cpp:241-244 | swapping the pair does not change the verdict when the base rule is symmetric on it |
| CollisionFilter.RegisterPairDecides | src/loco_common_dart.cpp:221-255 | after both nodes register a group and a mask, the pair is ignored iff the base rule ignores it or `(g1 & m2) == 0` and `(g2 & m1) == 0` |
| CollisionFilter.OneWayAffinityCollides | src/loco_common_dart.cpp:241-244 | group 1/mask 0 against group 0/mask 1: the bitmask layer does not ignore the pair; only the base rule can |
| CollisionFilter.DisjointSelfMasksIgnored | src/loco_common_dart.cpp:241-244 | group 1/mask 1 against group 2/mask 2: the pair is ignored |
| SingleBodyAdapter.New | src/primitives/loco_single_body_adapter_dart.cpp:7-16 | a new adapter holds its (non-null) body, no skeleton, no world reference and is not detached; it is Unbuilt in every world |
| SingleBodyAdapter.OnDetach | src/primitives/loco_single_body_adapter_dart.cpp:115-119 | sets the detached flag and clears the body reference; the skeleton is kept |
| SingleBodyAdapter.Destroy | src/primitives/loco_single_body_adapter_dart.cpp:18-28 | the body is told to detach iff the body reference is still set; afterwards every reference is null |
| SingleBodyAdapter.BodyInertia | src/primitives/loco_single_body_adapter_dart.cpp:71-86 | mass is `inertia.mass` when positive, else volume × collider density. Explicit moments are used iff ixx, iyy, izz > 0 and ixy, ixz, iyz ≥ 0; otherwise the moments are the shape's for the chosen mass |
| SingleBodyAdapter.Build | src/primitives/loco_single_body_adapter_dart.cpp:30-92 | static bodies get a 0-DOF weld joint named `name+"_weldjoint"`, others a 6-DOF free joint named `name+"_freejoint"`; skeleton and body node are named after the body. With a collider adapter the body node gets a shape node holding that adapter's shape (possibly null). Static or adapter-less bodies keep the default inertia; a dynamic body with an adapter gets `BodyInertia` of its data, that shape and the collider density. The joint holds the transform of `tf0`, velocities are zero, and the adapter invariant holds. Requires a shape wherever the dynamic inertia policy reads one, since the source dereferences it |
| SingleBodyAdapter.Initialize | src/primitives/loco_single_body_adapter_dart.cpp:94-102 | needs a world reference and a skeleton; afterwards the world holds the skeleton. A skeleton already held leaves the world unchanged; otherwise it is appended and the rest of the list is unchanged |
| SingleBodyAdapter.InitializeOnce | src/primitives/loco_single_body_adapter_dart.cpp:94-102 | initializing twice leaves the world as initializing once does |
| SingleBodyAdapter.SetTransform | src/primitives/loco_single_body_adapter_dart.cpp:121-131 | needs a built joint (a free joint for dynamic bodies); the body's world transform becomes `mat4_to_eigen_tf(transform)`, and nothing else changes |
| SingleBodyAdapter.SetLinearVelocity | src/primitives/loco_single_body_adapter_dart.cpp:133-157 | on a joint whose DOF count is not 6 the adapter is unchanged; on a 6-DOF joint only the linear velocity changes, to the given vector. The skeleton name and joint are unchanged in both cases |
| SingleBodyAdapter.SetAngularVelocity | src/primitives/loco_single_body_adapter_dart.cpp:159-183 | on a joint whose DOF count is not 6 the adapter is unchanged; on a 6-DOF joint only the angular velocity changes, to the given vector. The skeleton name and joint are unchanged in both cases |
| SingleBodyAdapter.SetForceCOM | src/primitives/loco_single_body_adapter_dart.cpp:185-191 | only the body node's external force changes, to the given vector; the skeleton name, joint, rest of the node and references are unchanged |
| SingleBodyAdapter.SetTorqueCOM | src/primitives/loco_single_body_adapter_dart.cpp:193-199 | only the body node's external torque changes, to the given vector; the skeleton name, joint, rest of the node and references are unchanged |
| SingleBodyAdapter.Reset | src/primitives/loco_single_body_adapter_dart.cpp:104-113 | the transform is `tf0` again, and the skeleton name and the joint's kind and name are unchanged. A dynamic body gets both velocities zeroed and nothing else in its node changes. A static body's node is untouched. The adapter invariant is kept |
| SingleBodyAdapter.GetTransform | src/primitives/loco_single_body_adapter_dart.cpp:201-207 | the reported matrix is a 4×4 homogeneous matrix that converts back to exactly the joint's (the body's world) transform |
| SingleBodyAdapter.BuildReportsInitialTransform | tests/cpp/dart/test_single_body_adapter_dart.cpp:94-99 | after Build, the reported transform agrees with `tf0` on the rotation block and translation column, and equals it when `tf0` is homogeneous |
| SingleBodyAdapter.BuildMass | src/primitives/loco_single_body_adapter_dart.cpp:59-87 | a static body keeps mass 1.0. A dynamic body with a collider adapter gets its own positive mass, or else volume × density |
| SingleBodyAdapter.NullColliderShapeBuild | src/primitives/loco_single_body_adapter_dart.cpp:59-86 | a collider adapter with a null shape still gets a shape node, holding no shape; a dynamic body then gets its own mass and explicit moments |
| SingleBodyAdapter.VelocityRoundTrip | src/primitives/loco_single_body_adapter_dart.cpp:140-156 | on a free body, setting a velocity and reading it back gives that velocity, and the other velocity is unaffected |
| SingleBodyAdapter.StaticVelocityUnchanged | src/primitives/loco_single_body_adapter_dart.cpp:140-145 | on a static (weld-joint) body both velocity setters leave the adapter unchanged |
| SingleBodyAdapter.ResetAfterBuildIsIdentity | src/primitives/loco_single_body_adapter_dart.cpp:104-113 | resetting a freshly built body changes nothing |
| SingleBodyAdapter.Lifecycle | src/primitives/loco_single_body_adapter_dart.cpp:7-119 | New is Unbuilt, Build gives Built, and Initialize gives Initialized. Detaching gives Detached, after which destruction does not call back into the body; without a detach it does |
| LegacyHarness.CreateCollisionShape | _legacy/tests/base/test_interface.cpp:82-122 | none exactly for MESH and NONE; a primitive shape otherwise |
| LegacyHarness.AgreesWithCurrentDispatch | _legacy/tests/base/test_interface.cpp:82-122 | on plane, box, sphere, cylinder and capsule, the legacy dispatch builds the same engine shape as the current one |
| LegacyHarness.ComputeCOMoffset | _legacy/tests/base/test_interface.cpp:124-144 | the offset is the zero vector for every shape kind |
| LegacyHarness.ComputeMassFromShape | _legacy/tests/base/test_interface.cpp:186-192 | 0 without a shape, volume × default density with one |
| LegacyHarness.MassIffShape | _legacy/tests/base/test_interface.cpp:82-192 | with positive volumes and density, a descriptor gives a positive mass exactly when it is not MESH or NONE, i.e. exactly when a collision shape exists |
| LegacyHarness.BuildJoint | _legacy/tests/base/test_interface.cpp:209-358 | FREE is always a root, whatever the parent, with six zero damping terms. REVOLUTE/PRISMATIC/BALL/PLANAR hang from the parent. Only REVOLUTE enforces limits, with lower = limits.x and upper = limits.y. FIXED is a weld to the parent when one exists, otherwise the default weld at the root. Every rest/stiffness/damping term is zero |
| LegacyHarness.BuildSimBody | _legacy/tests/base/test_interface.cpp:209-392 | the body node is named after the shape, except for a FIXED root, whose pair is created with default properties and so keeps the engine's default node name; inertia is set iff a collision shape exists, with mass from `computeMassFromShape` and the shape's moments |
| LegacyHarness.Register | _legacy/tests/base/test_interface.cpp:467-469 | appends the body to the list and maps its name to it; other names keep their bodies |
| LegacyHarness.AddBody | _legacy/tests/base/test_interface.cpp:453-472 | the parent is the named body only when that name is registered, else the body is a root; the body is the one `BuildSimBody` gives for that parent and is registered in the agent |
| LegacyHarness.UnknownParentBuildsRoot | _legacy/tests/base/test_interface.cpp:458-469 | with an unknown parent name the body is built as a root with the requested joint, appended last and mapped by name |
| LegacyHarness.NewApp | _legacy/tests/base/test_interface.cpp:485-494 | a new application is not running, not terminated, has no world and no bodies |
| LegacyHarness.Init | _legacy/tests/base/test_interface.cpp:513-548 | start-up creates a fresh, empty world; physics set-up marks the application running and the final toggle leaves it paused and not terminated; the registry is unchanged |
| LegacyHarness.TogglePause | _legacy/tests/base/test_interface.cpp:719-722 | negates the run flag and changes nothing else |
| LegacyHarness.TogglePauseInvolution | _legacy/tests/base/test_interface.cpp:719-722 | toggling twice restores the application |
| LegacyHarness.SingleBodyJointData | _legacy/tests/base/test_interface.cpp:728-739 | a free single body asks for a FREE joint named `"free_"+name`, a fixed one for a FIXED joint named `"fixed_"+name` |
| LegacyHarness.CreateSingleBody | _legacy/tests/base/test_interface.cpp:724-766 | needs the world start-up creates; the body is a root named after the shape; its skeleton is appended to the world and the body registered; run flags are unchanged |
| LegacyHarness.SingleBodyJoint | _legacy/tests/base/test_interface.cpp:724-742 | a free single body gets a root free joint named `"free_"+name` with zero damping and a body node named after the shape. A fixed one gets the engine's default root weld and body node, so neither its `"fixed_"` name nor the shape's name reaches the engine |
| LegacyHarness.GetBody | _legacy/tests/base/test_interface.cpp:805-812 | returns the body mapped to the name, and none for an unknown name |
| LegacyHarness.CreatedBodyIsFound | _legacy/tests/base/test_interface.cpp:758-761 | after creating a body, looking up its name returns it, and lookups of other names are unaffected |
| LegacyHarness.CreateAfterInit | _legacy/tests/base/test_interface.cpp:513-766 | a body created right after start-up is the world's only skeleton, is appended to the earlier registered bodies, and the application is paused |

## Left out

- Shapes.CreateCollisionShape: the heightfield's x/y scale is `size / (samples - 1)` in single-precision floats and is not modelled. The contract gives the heightmap its sample counts, heights and z scale (`size.z`).
- SingleBodyAdapter.SetLinearVelocity: the engine's spatial-velocity projection through auxiliary frames at the centre of mass is assumed exact. The model sets the body's classic linear velocity and keeps the angular one.
- SingleBodyAdapter.SetAngularVelocity: same assumption, with the roles of the two velocities swapped.
- SingleBodyAdapter.SetTransform: a free joint's `setTransform` and a root weld joint's `setTransformFromParentBodyNode` are both taken to fix the body's world transform, so the two branches have the same effect.
- SingleBodyAdapter.GetLinearVelocity and GetAngularVelocity: their only content is the conversion; VelocityRoundTrip states what they return.
- Floating point: `float` and `double` entries are both `real`, so precision loss in the conversions is not modelled.
- The default-constructed `TMat4` is taken to be the identity. That is where the bottom row of `mat4_from_eigen_tf` comes from.
- A new body node's default inertia is taken as mass 1.0, the value the adapter test expects, with unit principal moments.
- DART internals: shape volume and inertia, world stepping, skeleton COM and mesh loading are parameters or symbolic values. One loader stands for both the convex-hull and the triangle-mesh `loadMesh`.
- SingleBodyAdapter.Initialize: the engine world identifies skeletons by object and adds a different skeleton whose name clashes under a new name. Here a skeleton is identified by its name, so re-adding the same skeleton is a no-op (as in the engine), but a different skeleton with a clashing name is not added at all, where the engine would add it renamed.
- The mesh scene's allocation (material, mesh count, root node) is not modelled. Only the vertex and face layout is.
- The collider's own adapter, which builds the collision shape, is not part of this model. A body's collider adapter is represented by the shape it produced, which may be null.
- The adapter's world-reference setter lives in a header that is not part of this model. `AttachWorld` stands in for it.
- The legacy `toEigenTransform`/`fromEigenTransform` write through Eigen's `rotation()`, so their result depends on Eigen's return semantics. Joint frame transforms are therefore kept in framework form.
- Legacy placement is not modelled because it is floating-point pose arithmetic. This covers the quaternion-based `SimBody::update`, the initial `qpos` of `createSingleBody`, and `addSimAgent` (free and planar `qpos`, `PI/90`).
- The legacy 1/60 s step loop is not modelled, for the same reason.
- Legacy graphics, windowing, input handling, UI, debug drawing and `createRenderableShape` are outside the physics core.
- `collectAvailableModels` is directory I/O.
- LegacyHarness.CreateCollisionShape: the kinds are the seven the harness tests for (plane, box, sphere, cylinder, capsule, mesh, none). Any other enumerator falls through every test and also gives a null shape, like MESH and NONE.
- MathBridge.TfRoundTrip: exact only when the 3×3 block is a rotation. `mat4_from_eigen_tf` reads `tf.rotation()`, which some Eigen versions compute as the rotation factor of a polar decomposition rather than the raw linear block; the model reads the raw block.
- MathBridge.EigenTfRoundTrip: exact only when the rotation block is a rotation, for the same `rotation()` reason.
- SingleBodyAdapter.BuildReportsInitialTransform: exact only when `tf0`'s 3×3 block is a rotation. Besides `rotation()`, the free joint stores its transform through a logarithm map of the rotation, which loses any non-rotation part of the block.
- LegacyHarness.Init: the virtual hooks `_initScenario` and `_onApplicationStart` are subclass code and are not modelled, nor is the graphics set-up or the world's collision detector and time step. Init models the base class's own steps.
- Shapes.CreateCollisionShape: the shape-type enumeration is declared in a header that is not part of this model. Its kinds here are the ten with a case plus `MESH`, the one the adapter test uses; any further enumerator takes the same default path as `MESH`.
- Logging and assertion macros are not modelled. Assertions are preconditions; warnings and error logs have no effect.
