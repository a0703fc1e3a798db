# drake-ros scene markers, modelled in Dafny

This project models how `SceneMarkersSystem` in drake-ros turns a snapshot of
a Drake scene into a ROS `visualization_msgs/MarkerArray`.

A system is built once for one geometry role: illustration (the "visual"
topic) or proximity (the "collision" topic). It has a default colour. For
every geometry carrying its role, the **translator** emits markers:

- one marker for most shape kinds;
- three markers for a capsule: a cylinder body, then a cap at +length/2 along
  the capsule's own z axis, then a cap at −length/2.

Every marker has:

- the namespace `"<source name>::<geometry name>"`;
- ids numbered from 0;
- the name of the frame its geometry's pose is given in, which is `world` for anchored geometry, and a zero stamp;
- action MODIFY, a zero lifetime and frame locking on;
- the system's colour.

The translator picks the render type and scale by kind:

| shape | type | scale |
|---|---|---|
| sphere | SPHERE | (r, r, r) |
| ellipsoid | SPHERE | (a, b, c) |
| cylinder | CYLINDER | (r, r, length) |
| box | CUBE | (width, depth, height) |
| half-space | CUBE | a thin, wide slab |
| convex, mesh | MESH_RESOURCE | (s, s, s), with `mesh_resource` set to `"file://" + path` |

The **assembler** runs the translator over the snapshot's entries in order and
concatenates the results. Entries without the system's role contribute
nothing. No file modelled contains the assembler's own lines. Its rows below
cite the creation of one system per role and the evaluation of a system's
output port, which is the behaviour they constrain.

Modules:

- `Transforms`: poses as a translation plus a quaternion.
  - Drake's `RigidTransform` product is `Compose`.
  - The closed-form "move along my own z axis" is `OffsetZ`.
  - `OffsetZIsCompose` proves `OffsetZ` equal to `Compose(p, TranslateZ(d))`.
- `VisualizationMsgs`: the fields of the marker message that the system fills in.
- `Geometry`: Drake's shape kinds, roles and colours, and one snapshot entry.
- `SceneMarkersSystem`: the translator `ShapeMarkers`, the per-entry role filter `EntryMarkers` and the assembler `SceneMarkers`.
- `SceneMarkersProperties`: what the translator promises for each shape kind, and what the assembler promises about a whole snapshot:
  - concatenation;
  - the block layout of each entry's markers;
  - membership;
  - role filtering;
  - unique (namespace, id) keys.
- `SceneMarkersFixtures`: the single-geometry scenes of the test suite. Each one is stated for all shape parameters and every default colour. The capsule scene is also stated for the suite's own constants.

The unit test `drake_ros_systems/test/test_scene_markers.cpp` is the behavioural reference. The system's implementation file is not part of this model.

## Model

| member | source | states |
|---|---|---|
| `SceneMarkersSystem.Namespace` | drake_ros_systems/test/test_scene_markers.cpp:70 | The namespace is the source name, then "::", then the geometry name: its length, its prefix, its suffix and the two colons in between. |
| `SceneMarkersSystem.ShapeMarkers` | drake_ros_systems/test/test_scene_markers.cpp:65-92 | For every shape there are MarkerCount markers. Each has id equal to its position and the geometry's namespace. Each has a header naming the frame the pose is given in, with a zero stamp. Each has MODIFY, a zero lifetime, frame lock and the colour. A marker is MESH_RESOURCE exactly for convex and mesh shapes. `mesh_resource` is "file://" + path for those and empty otherwise. The first marker sits at the geometry's pose. |
| `SceneMarkersSystem.EntryMarkers` | drake_ros_systems/src/rviz_visualizer.cpp:55-57 | An entry without the system's role gives no markers. An entry with it gives exactly its shape's marker count. Every one of them carries the entry's frame name and the system's colour. |
| `SceneMarkersSystem.SceneMarkers` | drake_ros_systems/src/rviz_visualizer.cpp:71-73 | The snapshot's array has TotalCount markers for the role. Every marker has the zero stamp, MODIFY, zero lifetime, frame lock and the system's colour. |
| `SceneMarkersSystem.MarkersOutput` | drake_ros_systems/test/test_scene_markers.cpp:522-523 | The output message holds exactly the role's total marker count of markers. |
| `SceneMarkersProperties.SphereMarker` | drake_ros_systems/test/test_scene_markers.cpp:65-79 | A sphere of radius r gives one SPHERE marker, id 0, in its namespace, with scale (r, r, r) at the geometry's pose. |
| `SceneMarkersProperties.EllipsoidMarker` | drake_ros_systems/test/test_scene_markers.cpp:125-139 | An ellipsoid (a, b, c) gives one SPHERE marker, id 0, with scale (a, b, c) at the geometry's pose. |
| `SceneMarkersProperties.CylinderMarker` | drake_ros_systems/test/test_scene_markers.cpp:183-197 | A cylinder (r, length) gives one CYLINDER marker, id 0, with scale (r, r, length) at the geometry's pose. |
| `SceneMarkersProperties.BoxMarker` | drake_ros_systems/test/test_scene_markers.cpp:289-303 | A box (width, depth, height) gives one CUBE marker, id 0, with scale (width, depth, height) at the geometry's pose. |
| `SceneMarkersProperties.HalfSpaceMarker` | drake_ros_systems/test/test_scene_markers.cpp:238-251 | A half-space gives one CUBE marker, id 0. Its in-plane scales exceed 10. Its thickness is positive and smaller than both in-plane scales. |
| `SceneMarkersProperties.CapsuleMarkers` | drake_ros_systems/test/test_scene_markers.cpp:347-426 | For any pose, a capsule gives three markers in one namespace with ids 0, 1, 2 and one colour. The first is a CYLINDER (r, r, length) at the pose. The other two are SPHEREs (r, r, r) at pose * TranslateZ(+length/2) and pose * TranslateZ(−length/2). |
| `SceneMarkersProperties.CapsuleCapsAlongAxis` | drake_ros_systems/test/test_scene_markers.cpp:394-426 | The caps keep the capsule's orientation. They sit at the position ± (length/2) times the local z axis, and they mirror each other about the body's centre. |
| `SceneMarkersProperties.CapsuleCapsDistance` | drake_ros_systems/test/test_scene_markers.cpp:396-422 | For a unit orientation, the two cap centres are exactly one capsule length apart. |
| `SceneMarkersProperties.ConvexMarker` | drake_ros_systems/test/test_scene_markers.cpp:458-473 | A convex hull (path, s) gives one MESH_RESOURCE marker, id 0. It has `mesh_resource` "file://" + path, scale (s, s, s), and sits at the geometry's pose. |
| `SceneMarkersProperties.MeshMarker` | drake_ros_systems/test/test_scene_markers.cpp:530-539 | A mesh gives the same single MESH_RESOURCE marker, and exactly the same output as a convex hull of the same path and scale. |
| `SceneMarkersProperties.NamespaceInjective` | drake_ros_systems/test/test_scene_markers.cpp:70 | If source names contain no ':', equal namespaces imply the same source name and the same geometry name. |
| `SceneMarkersProperties.NamespaceCollision` | drake_ros_systems/test/test_scene_markers.cpp:70 | Without that condition, ("a:", "b") and ("a", ":b") share a namespace. |
| `SceneMarkersProperties.SceneMarkersAppend` | drake_ros_systems/test/test_scene_markers.cpp:512-523 | The markers of a concatenated snapshot are the concatenation of the two snapshots' markers. |
| `SceneMarkersProperties.SingleEntryScene` | drake_ros_systems/test/test_scene_markers.cpp:497-525 | A one-entry snapshot gives exactly that entry's markers. |
| `SceneMarkersProperties.TotalCountAppend` | drake_ros_systems/test/test_scene_markers.cpp:512-523 | Marker counts add up over concatenated snapshots. |
| `SceneMarkersProperties.SceneMarkersBlock` | drake_ros_systems/test/test_scene_markers.cpp:376-407 | The k-th marker of entry j (which carries the role) is at index TotalCount(entries before j) + k. It is the translator's k-th marker for that entry and is not renumbered. |
| `SceneMarkersProperties.SceneMarkersMembership` | drake_ros_systems/test/test_scene_markers.cpp:512-523 | A marker is in the output exactly when some entry carrying the role contributed it (both directions). |
| `SceneMarkersProperties.WithRole` | drake_ros_systems/src/rviz_visualizer.cpp:72-73 | The entries carrying a role: every one of them carries the role, all come from the snapshot, and every snapshot entry with the role is included. |
| `SceneMarkersProperties.WithRoleAppend` | drake_ros_systems/src/rviz_visualizer.cpp:71-73 | Filtering a concatenated snapshot is the concatenation of the filtered parts, in order. |
| `SceneMarkersProperties.WithRoleSingleton` | drake_ros_systems/src/rviz_visualizer.cpp:71-73 | One entry is kept exactly when it carries the role. With the append lemma this fixes the filter uniquely, including order and repeated entries. |
| `SceneMarkersProperties.SceneMarkersIgnoresOtherRoles` | drake_ros_systems/src/rviz_visualizer.cpp:56-57 | A system's output depends only on the entries carrying its role. |
| `SceneMarkersProperties.NoEntryOfRoleNoMarkers` | drake_ros_systems/src/rviz_visualizer.cpp:66-73 | A snapshot with no geometry of a role gives that role's system an empty array. |
| `SceneMarkersProperties.SceneMarkersFrames` | drake_ros_systems/test/test_scene_markers.cpp:67 | Every marker of the array has the common fields for the frame name of some entry that carries the role. |
| `SceneMarkersProperties.AnchoredSceneInWorldFrame` | drake_ros_systems/test/test_scene_markers.cpp:67 | If every entry is expressed in the world frame, as anchored geometry is, every marker's header names "world". |
| `SceneMarkersProperties.UniqueKeysConcat` | drake_ros_systems/test/test_scene_markers.cpp:380-381 | Two key-unique marker lists with disjoint namespaces concatenate to a key-unique list. |
| `SceneMarkersProperties.SceneMarkersUniqueKeys` | drake_ros_systems/test/test_scene_markers.cpp:354-407 | If the role's geometries have distinct namespaces, no two markers of the array share both namespace and id. |
| `SceneMarkersProperties.DistinctNamesGiveDistinctNamespaces` | drake_ros_systems/test/test_scene_markers.cpp:70 | Suppose that among the role's entries geometry names are unique per source and source names contain no ':'. Then their namespaces are pairwise distinct. |
| `SceneMarkersProperties.SceneMarkersUniqueKeysFromNames` | drake_ros_systems/test/test_scene_markers.cpp:354-407 | Under that same naming condition, no two markers of the array share both namespace and id. |
| `SceneMarkersFixtures.SingleGeometryScene` | drake_ros_systems/test/test_scene_markers.cpp:49-55 | A scene of one anchored illustration geometry from source "test" at the identity pose has the shape's marker count. |
| `SceneMarkersFixtures.SingleGeometrySceneIs` | drake_ros_systems/test/test_scene_markers.cpp:497-525 | That scene's array is the translator's output for the geometry at the identity pose. |
| `SceneMarkersFixtures.SingleSphereScene` | drake_ros_systems/test/test_scene_markers.cpp:65-92 | One SPHERE marker. It has frame "world", a zero stamp, namespace "test::sphere", id 0, MODIFY, a zero lifetime, frame lock, scale (r, r, r), the default colour, position (0, 0, 0) and orientation (0, 0, 0, 1). |
| `SceneMarkersFixtures.SingleEllipsoidScene` | drake_ros_systems/test/test_scene_markers.cpp:125-152 | The same checks for "test::ellipsoid": SPHERE, scale (a, b, c), identity pose. |
| `SceneMarkersFixtures.SingleCylinderScene` | drake_ros_systems/test/test_scene_markers.cpp:183-210 | The same checks for "test::cylinder": CYLINDER, scale (r, r, length), identity pose. |
| `SceneMarkersFixtures.SingleHalfSpaceScene` | drake_ros_systems/test/test_scene_markers.cpp:238-257 | The same checks for "test::hspace": CUBE, with in-plane scales above 10. |
| `SceneMarkersFixtures.SingleBoxScene` | drake_ros_systems/test/test_scene_markers.cpp:289-316 | The same checks for "test::box": CUBE, scale (width, depth, height), identity pose. |
| `SceneMarkersFixtures.CapsuleAtIdentity` | drake_ros_systems/test/test_scene_markers.cpp:347-426 | At the identity pose, the capsule's three markers meet every check of the capsule fixture. |
| `SceneMarkersFixtures.SingleCapsuleScene` | drake_ros_systems/test/test_scene_markers.cpp:347-426 | Three markers in "test::capsule" with the common fields. First, CYLINDER id 0 with scale (r, r, length) at the identity pose. Then SPHERE ids 1 and 2 with scale (r, r, r), at (0, 0, +length/2) and (0, 0, −length/2), both unrotated. |
| `SceneMarkersFixtures.SingleCapsuleSceneConstants` | drake_ros_systems/test/test_scene_markers.cpp:322-323 | With radius 0.25 and length 0.5, the caps are at z = 0.25 and z = −0.25 and the scales are the suite's literals. |
| `SceneMarkersFixtures.SingleMeshScene` | drake_ros_systems/test/test_scene_markers.cpp:458-486 | For both Convex and Mesh: one MESH_RESOURCE marker in "test::mesh" with id 0, the common fields, `mesh_resource` "file://" + path, scale (s, s, s) and the identity pose. |
| `Transforms.OffsetZIsCompose` | drake_ros_systems/test/test_scene_markers.cpp:394-400 | Moving a pose by d along its own z axis is composing it with a translation by d along z. |
| `Transforms.OffsetZFromIdentity` | drake_ros_systems/test/test_scene_markers.cpp:394-426 | From the identity pose, that move lands at (0, 0, d) with the identity orientation. |
| `Transforms.OppositeOffsetsMirror` | drake_ros_systems/test/test_scene_markers.cpp:396-422 | Moves of +d and −d keep the orientation, and their positions average to the original position. |
| `Transforms.OppositeOffsetsDistance` | drake_ros_systems/test/test_scene_markers.cpp:396-422 | For a unit orientation, the moves by +d and −d are exactly 2d apart. |

## Left out

- The implementation of `SceneMarkersSystem` is not part of this model. The translator follows the test suite's expectations line by line. Two cases the suite does not check are decided by the design: the half-space slab is kept at the geometry's pose, and the capsule caps are placed along the capsule's local z axis for any pose.
- `SceneMarkersSystem.ShapeMarkers` (half-space): the suite checks only the type, the in-plane scales being above 10, and the common fields. The slab's extent (50) and thickness (1) are chosen values, because the real constants are not in the files modelled. The marker is kept at the geometry's pose; the half-space's pose is not checked by the suite. The contracts promise only what the suite checks, plus a thickness below the extent.
- `SceneMarkersSystem.ShapeMarkers` (colour): the system's default colour is a parameter, and every geometry gets it. Per-geometry colour overrides from illustration or proximity properties, and a per-role default, are not modelled.
- Visibility and the other per-geometry properties a role may carry are not modelled.
- Colours and scales are exact `real` values. The float32 colour channels of the message, the float64 scales and the suite's 1e-6 tolerance are not modelled.
- Quaternions are not normalised. `Rotate` and `LocalZAxis` are the formulas for a unit quaternion; the distance lemmas require a unit orientation and the rest hold for any quaternion.
- Building the scene graph and querying it each cycle (`RegisterAnchoredGeometry`, `AssignRole`, the graph query port) are calls into Drake. The snapshot is a plain sequence of entries with their frame names, poses and roles.
- `SceneMarkersSystem.ShapeMarkers` (frame): each entry's frame name and its pose in that frame are inputs. The fixtures give anchored geometry the world frame. How the system names the frames of geometry attached to moving bodies, or of a registered `MultibodyPlant`'s bodies, is not modelled.
- The `RvizVisualizer` diagram is I/O plumbing: its builder wiring, ROS publishers, topic names, QoS, the optional TF broadcaster and `RegisterMultibodyPlant` forwarding. Only its creation of one system per role is used, as the reason the assembler takes a role.
- The stamp is the zero time that the suite checks. Publishing times and triggers are not modelled.
