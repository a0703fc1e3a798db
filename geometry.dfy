/**
 The scene owner's side: Drake's closed set of geometric shapes, the roles a
 geometry can be assigned, and colours. A snapshot of the scene is a
 sequence of entries; registering geometries and assigning roles in the
 scene graph is the scene owner's business and is not modelled.
 */
module Geometry {
  import opened Transforms

  /** Drake's shape kinds with their parameters. */
  datatype Shape =
    | Sphere(radius: real)
    | Ellipsoid(a: real, b: real, c: real)
    | Cylinder(radius: real, length: real)
    | Box(width: real, depth: real, height: real)
    | HalfSpace
    | Capsule(radius: real, length: real)
    | Convex(filename: string, scale: real)
    | Mesh(filename: string, scale: real)

  /** The roles a geometry can carry; one scene markers system serves one role. */
  datatype Role = Illustration | Proximity

  /** Drake's `Rgba`: four channels. */
  datatype Rgba = Rgba(r: real, g: real, b: real, a: real)

  /**
   One geometry of a snapshot: the name of the source that registered it,
   its own name, its shape, the name of the frame its pose is expressed in
   (the world frame for anchored geometry, supplied by the caller), that
   pose, and the roles assigned to it.
   */
  datatype Entry = Entry(sourceName: string, name: string, shape: Shape, frameName: string, pose: Pose,
                         roles: set<Role>)
}
