/**
 The scene markers system: it turns one snapshot of the scene into the
 marker array that a viewer draws. A system is configured once with the
 role it serves and the colour it paints every geometry with; for each
 entry carrying that role the translator `ShapeMarkers` emits one marker
 (three for a capsule) and the assembler `SceneMarkers` concatenates them
 in the order of the snapshot.
 */
module SceneMarkersSystem {
  import opened Transforms
  import opened VisualizationMsgs
  import G = Geometry

  /** The fixed name of the world frame, which anchored geometry reports. */
  const WorldFrame: string := "world"

  /** The locator of a mesh file is this prefix followed by its path. */
  const FileUriPrefix: string := "file://"

  /** A half-space is drawn as a slab: wide in its plane, thin along its normal. */
  const HalfSpaceExtent: real := 50.0
  const HalfSpaceThickness: real := 1.0

  /** A scene markers system's fixed configuration. */
  datatype Params = Params(role: G.Role, defaultColor: G.Rgba)

  /** The marker namespace of a geometry: its source name, "::", its own name. */
  function Namespace(sourceName: string, name: string): (ns: string)
    ensures |ns| == |sourceName| + 2 + |name|
    ensures ns[..|sourceName|] == sourceName && ns[|sourceName| + 2..] == name
    ensures ns[|sourceName|] == ':' && ns[|sourceName| + 1] == ':'
  {
    sourceName + "::" + name
  }

  function ColorMsg(c: G.Rgba): ColorRgba {
    ColorRgba(c.r, c.g, c.b, c.a)
  }

  /** The fields every marker the system emits shares, whatever its frame, for one colour. */
  predicate HasFixedFields(m: Marker, color: G.Rgba) {
    && m.header.stamp == ZeroTime
    && m.action == Modify
    && m.lifetime == ZeroTime
    && m.frameLocked
    && m.color.r == color.r && m.color.g == color.g && m.color.b == color.b && m.color.a == color.a
  }

  /** The fixed fields, and the header naming the frame `frameId`. */
  predicate HasCommonFields(m: Marker, frameId: string, color: G.Rgba) {
    m.header.frameId == frameId && HasFixedFields(m, color)
  }

  /** How many markers a shape kind is drawn with. */
  function MarkerCount(shape: G.Shape): nat {
    match shape
    case Capsule(_, _) => 3
    case _ => 1
  }

  predicate IsMeshKind(shape: G.Shape) {
    shape.Convex? || shape.Mesh?
  }

  /** A marker with the common fields filled in. */
  function MakeMarker(frameId: string, ns: string, id: int, t: MarkerType, pose: Pose, scale: Vector3,
                      color: G.Rgba, meshResource: string): Marker
  {
    Marker(Header(frameId, ZeroTime), ns, id, t, Modify, pose, scale, ColorMsg(color),
           ZeroTime, true, meshResource)
  }

  /**
   The translator: the markers that draw one geometry whose pose is given in
   the frame `frameId`. Sub-markers of a capsule are numbered 0, 1, 2 in the
   order body, +z cap, -z cap.
   */
  function ShapeMarkers(shape: G.Shape, sourceName: string, name: string, frameId: string, pose: Pose,
                        color: G.Rgba): (r: seq<Marker>)
    ensures |r| == MarkerCount(shape)
    ensures forall i :: 0 <= i < |r| ==>
              r[i].id == i && r[i].ns == Namespace(sourceName, name) && HasCommonFields(r[i], frameId, color)
    ensures forall i :: 0 <= i < |r| ==> (r[i].markerType == MeshResource <==> IsMeshKind(shape))
    ensures forall i :: 0 <= i < |r| ==>
              r[i].meshResource == if IsMeshKind(shape) then FileUriPrefix + shape.filename else ""
    ensures r[0].pose == pose
  {
    var ns := Namespace(sourceName, name);
    match shape
    case Sphere(radius) =>
      [MakeMarker(frameId, ns, 0, Sphere, pose, Vector3(radius, radius, radius), color, "")]
    case Ellipsoid(a, b, c) =>
      [MakeMarker(frameId, ns, 0, Sphere, pose, Vector3(a, b, c), color, "")]
    case Cylinder(radius, length) =>
      [MakeMarker(frameId, ns, 0, Cylinder, pose, Vector3(radius, radius, length), color, "")]
    case Box(width, depth, height) =>
      [MakeMarker(frameId, ns, 0, Cube, pose, Vector3(width, depth, height), color, "")]
    case HalfSpace =>
      [MakeMarker(frameId, ns, 0, Cube, pose,
                  Vector3(HalfSpaceExtent, HalfSpaceExtent, HalfSpaceThickness), color, "")]
    case Capsule(radius, length) =>
      [MakeMarker(frameId, ns, 0, Cylinder, pose, Vector3(radius, radius, length), color, ""),
       MakeMarker(frameId, ns, 1, Sphere, OffsetZ(pose, length / 2.0),
                  Vector3(radius, radius, radius), color, ""),
       MakeMarker(frameId, ns, 2, Sphere, OffsetZ(pose, -length / 2.0),
                  Vector3(radius, radius, radius), color, "")]
    case Convex(filename, scale) =>
      [MakeMarker(frameId, ns, 0, MeshResource, pose, Vector3(scale, scale, scale), color,
                  FileUriPrefix + filename)]
    case Mesh(filename, scale) =>
      [MakeMarker(frameId, ns, 0, MeshResource, pose, Vector3(scale, scale, scale), color,
                  FileUriPrefix + filename)]
  }

  /** The markers one entry contributes to a system: none unless it carries the system's role. */
  function EntryMarkers(params: Params, e: G.Entry): (r: seq<Marker>)
    ensures params.role !in e.roles ==> r == []
    ensures params.role in e.roles ==> |r| == MarkerCount(e.shape)
    ensures forall m :: m in r ==> HasCommonFields(m, e.frameName, params.defaultColor)
  {
    if params.role in e.roles then
      ShapeMarkers(e.shape, e.sourceName, e.name, e.frameName, e.pose, params.defaultColor)
    else
      []
  }

  /** The number of markers a snapshot takes for one role. */
  function TotalCount(role: G.Role, scene: seq<G.Entry>): nat {
    if scene == [] then 0
    else (if role in scene[0].roles then MarkerCount(scene[0].shape) else 0) + TotalCount(role, scene[1..])
  }

  /** The assembler: the marker array of one snapshot, entry by entry. */
  function SceneMarkers(params: Params, scene: seq<G.Entry>): (r: seq<Marker>)
    ensures |r| == TotalCount(params.role, scene)
    ensures forall i :: 0 <= i < |r| ==> HasFixedFields(r[i], params.defaultColor)
  {
    if scene == [] then [] else EntryMarkers(params, scene[0]) + SceneMarkers(params, scene[1..])
  }

  /** The whole output message of a system for one snapshot. */
  function MarkersOutput(params: Params, scene: seq<G.Entry>): (out: MarkerArray)
    ensures |out.markers| == TotalCount(params.role, scene)
  {
    MarkerArray(SceneMarkers(params, scene))
  }
}
