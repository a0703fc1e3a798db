/**
 The single-geometry scenes of the scene markers tests: one anchored
 geometry, so expressed in the world frame, registered by source "test"
 at the identity pose with the
 illustration role, read by an illustration system. Each lemma states what
 the corresponding fixture expects of the marker array, for every value of
 the shape's parameters and of the system's default colour.
 */
module SceneMarkersFixtures {
  import opened Transforms
  import opened VisualizationMsgs
  import G = Geometry
  import opened SceneMarkersSystem
  import opened SceneMarkersProperties

  const SourceName: string := "test"

  /** The marker array of a scene holding one anchored illustration geometry. */
  function SingleGeometryScene(name: string, shape: G.Shape, color: G.Rgba): (ms: seq<Marker>)
    ensures |ms| == MarkerCount(shape)
  {
    var params := Params(G.Illustration, color);
    var e := G.Entry(SourceName, name, shape, WorldFrame, Identity, {G.Illustration});
    SingleEntryScene(params, e);
    SceneMarkers(params, [e])
  }

  /** The translator's output for the one geometry of such a scene. */
  lemma SingleGeometrySceneIs(name: string, shape: G.Shape, color: G.Rgba)
    ensures SingleGeometryScene(name, shape, color)
         == ShapeMarkers(shape, SourceName, name, WorldFrame, Identity, color)
  {
    SingleEntryScene(Params(G.Illustration, color),
                     G.Entry(SourceName, name, shape, WorldFrame, Identity, {G.Illustration}));
  }

  /** The header, action, lifetime, lock and colour every fixture checks. */
  predicate ExpectedCommonFields(m: Marker, color: G.Rgba) {
    && m.header.frameId == "world"
    && m.header.stamp.sec == 0 && m.header.stamp.nanosec == 0
    && m.action == Modify
    && m.lifetime.sec == 0 && m.lifetime.nanosec == 0
    && m.frameLocked
    && m.color.r == color.r && m.color.g == color.g && m.color.b == color.b && m.color.a == color.a
  }

  lemma CommonFieldsAsExpected(m: Marker, color: G.Rgba)
    requires HasCommonFields(m, WorldFrame, color)
    ensures ExpectedCommonFields(m, color)
  {
  }

  predicate AtIdentity(m: Marker) {
    && m.pose.position.x == 0.0 && m.pose.position.y == 0.0 && m.pose.position.z == 0.0
    && m.pose.orientation.x == 0.0 && m.pose.orientation.y == 0.0
    && m.pose.orientation.z == 0.0 && m.pose.orientation.w == 1.0
  }

  /** The single-marker fixtures' checks: count, header, namespace, id, type and scale. */
  predicate CheckSingleMarker(ms: seq<Marker>, color: G.Rgba, ns: string, t: MarkerType, scale: Vector3) {
    && |ms| == 1 && ExpectedCommonFields(ms[0], color)
    && ms[0].ns == ns && ms[0].id == 0 && ms[0].markerType == t && ms[0].scale == scale
  }

  lemma SingleSphereScene(radius: real, color: G.Rgba)
    ensures var ms := SingleGeometryScene("sphere", G.Sphere(radius), color);
      CheckSingleMarker(ms, color, "test::sphere", Sphere, Vector3(radius, radius, radius))
      && AtIdentity(ms[0])
  {
    SingleGeometrySceneIs("sphere", G.Sphere(radius), color);
    SphereMarker(radius, SourceName, "sphere", WorldFrame, Identity, color);
  }

  lemma SingleEllipsoidScene(a: real, b: real, c: real, color: G.Rgba)
    ensures var ms := SingleGeometryScene("ellipsoid", G.Ellipsoid(a, b, c), color);
      CheckSingleMarker(ms, color, "test::ellipsoid", Sphere, Vector3(a, b, c)) && AtIdentity(ms[0])
  {
    SingleGeometrySceneIs("ellipsoid", G.Ellipsoid(a, b, c), color);
    EllipsoidMarker(a, b, c, SourceName, "ellipsoid", WorldFrame, Identity, color);
  }

  lemma SingleCylinderScene(radius: real, length: real, color: G.Rgba)
    ensures var ms := SingleGeometryScene("cylinder", G.Cylinder(radius, length), color);
      CheckSingleMarker(ms, color, "test::cylinder", Cylinder, Vector3(radius, radius, length))
      && AtIdentity(ms[0])
  {
    SingleGeometrySceneIs("cylinder", G.Cylinder(radius, length), color);
    CylinderMarker(radius, length, SourceName, "cylinder", WorldFrame, Identity, color);
  }

  /** The half-space fixture checks only that the slab is wider than 10 in its plane. */
  lemma SingleHalfSpaceScene(color: G.Rgba)
    ensures var ms := SingleGeometryScene("hspace", G.HalfSpace, color);
      && |ms| == 1 && ExpectedCommonFields(ms[0], color)
      && ms[0].ns == "test::hspace" && ms[0].id == 0 && ms[0].markerType == Cube
      && ms[0].scale.x > 10.0 && ms[0].scale.y > 10.0
  {
    SingleGeometrySceneIs("hspace", G.HalfSpace, color);
    HalfSpaceMarker(SourceName, "hspace", WorldFrame, Identity, color);
  }

  lemma SingleBoxScene(width: real, depth: real, height: real, color: G.Rgba)
    ensures var ms := SingleGeometryScene("box", G.Box(width, depth, height), color);
      CheckSingleMarker(ms, color, "test::box", Cube, Vector3(width, depth, height)) && AtIdentity(ms[0])
  {
    SingleGeometrySceneIs("box", G.Box(width, depth, height), color);
    BoxMarker(width, depth, height, SourceName, "box", WorldFrame, Identity, color);
  }

  /**
   The capsule fixture's checks: body, upper cap and lower cap in one
   namespace with ids 0, 1, 2, the caps at z = +length/2 and z = -length/2,
   all three unrotated.
   */
  predicate CheckCapsuleMarkers(ms: seq<Marker>, radius: real, length: real, color: G.Rgba) {
    && |ms| == 3
    && (forall i :: 0 <= i < 3 ==> ExpectedCommonFields(ms[i], color) && ms[i].ns == "test::capsule")
    && ms[0].id == 0 && ms[0].markerType == Cylinder
    && ms[0].scale == Vector3(radius, radius, length) && AtIdentity(ms[0])
    && ms[1].id == 1 && ms[1].markerType == Sphere && ms[1].scale == Vector3(radius, radius, radius)
    && ms[1].pose == Pose(Vector3(0.0, 0.0, length / 2.0), IdentityRotation)
    && ms[2].id == 2 && ms[2].markerType == Sphere && ms[2].scale == Vector3(radius, radius, radius)
    && ms[2].pose == Pose(Vector3(0.0, 0.0, -length / 2.0), IdentityRotation)
  }

  lemma CapsuleAtIdentity(radius: real, length: real, color: G.Rgba)
    ensures CheckCapsuleMarkers(
              ShapeMarkers(G.Capsule(radius, length), SourceName, "capsule", WorldFrame, Identity, color),
              radius, length, color)
  {
    var ms := ShapeMarkers(G.Capsule(radius, length), SourceName, "capsule", WorldFrame, Identity, color);
    assert Namespace(SourceName, "capsule") == "test::capsule";
    forall i | 0 <= i < 3 ensures ExpectedCommonFields(ms[i], color) {
      CommonFieldsAsExpected(ms[i], color);
    }
    OffsetZFromIdentity(length / 2.0);
    OffsetZFromIdentity(-length / 2.0);
  }

  lemma SingleCapsuleScene(radius: real, length: real, color: G.Rgba)
    ensures CheckCapsuleMarkers(SingleGeometryScene("capsule", G.Capsule(radius, length), color),
                                radius, length, color)
  {
    SingleGeometrySceneIs("capsule", G.Capsule(radius, length), color);
    CapsuleAtIdentity(radius, length, color);
  }

  /** The capsule test's own parameters: radius 0.25 and length 0.5. */
  lemma SingleCapsuleSceneConstants(color: G.Rgba)
    ensures var ms := SingleGeometryScene("capsule", G.Capsule(0.25, 0.5), color);
      && |ms| == 3
      && ms[0].scale == Vector3(0.25, 0.25, 0.5) && ms[0].pose.position == Vector3(0.0, 0.0, 0.0)
      && ms[1].scale == Vector3(0.25, 0.25, 0.25) && ms[1].pose.position == Vector3(0.0, 0.0, 0.25)
      && ms[2].scale == Vector3(0.25, 0.25, 0.25) && ms[2].pose.position == Vector3(0.0, 0.0, -0.25)
  {
    SingleCapsuleScene(0.25, 0.5, color);
  }

  /** The mesh fixture, instantiated for both Convex and Mesh shapes. */
  lemma SingleMeshScene(filename: string, scale: real, color: G.Rgba, convex: bool)
    ensures var shape := if convex then G.Convex(filename, scale) else G.Mesh(filename, scale);
      var ms := SingleGeometryScene("mesh", shape, color);
      && CheckSingleMarker(ms, color, "test::mesh", MeshResource, Vector3(scale, scale, scale))
      && ms[0].meshResource == "file://" + filename && AtIdentity(ms[0])
  {
    if convex {
      SingleGeometrySceneIs("mesh", G.Convex(filename, scale), color);
      ConvexMarker(filename, scale, SourceName, "mesh", WorldFrame, Identity, color);
    } else {
      SingleGeometrySceneIs("mesh", G.Mesh(filename, scale), color);
      MeshMarker(filename, scale, SourceName, "mesh", WorldFrame, Identity, color);
    }
  }
}
