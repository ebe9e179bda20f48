/** The vertex type shared by the mesh, the deformations and the export. */
module Geometry {
  /** A mesh position. */
  datatype Point3 = Point3(x: real, y: real, z: real)
}
