/**
 The viewer's marker record, after the ROS `visualization_msgs/Marker`
 message: the fields the scene markers system fills in. Scalars are
 `real`; the message's float32 colour channels and float64 scales are not
 rounded here.
 */
module VisualizationMsgs {
  import opened Transforms

  /** A time stamp or a duration: whole seconds and nanoseconds. */
  datatype Time = Time(sec: int, nanosec: nat)

  const ZeroTime: Time := Time(0, 0)

  datatype Header = Header(frameId: string, stamp: Time)

  datatype ColorRgba = ColorRgba(r: real, g: real, b: real, a: real)

  /** The render types the system emits (CUBE, SPHERE, CYLINDER, MESH_RESOURCE). */
  datatype MarkerType = Cube | Sphere | Cylinder | MeshResource

  /** The message's actions; ADD has the same value as MODIFY. */
  datatype Action = Modify | Delete | DeleteAll

  datatype Marker = Marker(
    header: Header,
    ns: string,
    id: int,
    markerType: MarkerType,
    action: Action,
    pose: Pose,
    scale: Vector3,
    color: ColorRgba,
    lifetime: Time,
    frameLocked: bool,
    meshResource: string)

  /** The message as one update cycle publishes it. */
  datatype MarkerArray = MarkerArray(markers: seq<Marker>)
}
