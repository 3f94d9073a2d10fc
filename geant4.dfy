/**
 * The Geant4 objects the two geometry builders create, as plain records: a solid, a
 * logical volume and a placement are kept by name and by the names of the objects they
 * refer to. Angles of tubes and spheres are given in units of pi, as the configuration
 * gives them.
 */
module Geant4 {
  import opened Common

  /** A material, known by its Geant4 name ("G4_AIR", "Vacuum", ...). */
  datatype Material = Material(name: string)

  datatype Solid =
    | Box(name: string, halfSize: Vec3)
    | Tubs(name: string, innerRadius: real, outerRadius: real, halfLength: real, startAngle: real, spanAngle: real)
    | Sphere(name: string, innerRadius: real, outerRadius: real,
             startPhi: real, spanPhi: real, startTheta: real, spanTheta: real)
    | Union(name: string, first: string, second: string)
      /** `minuend` minus `subtrahend` shifted by `offset` (unrotated). */
    | Subtraction(name: string, minuend: string, subtrahend: string, offset: Vec3)

  /** The three conventions Euler angles are read in. */
  datatype AngleConvention = ZYX | XYZ | ZXZ

  datatype Rotation = Identity | Rotated(convention: AngleConvention, angles: Vec3)

  /** A logical volume; an absent material is the null pointer a failed map lookup gives. */
  datatype LogicalVolume = LogicalVolume(name: string, solid: string, material: Option<Material>)

  /** A physical volume placed into the logical volume `mother`. */
  datatype Placement = Placement(name: string, logical: string, mother: string, position: Vec3, rotation: Rotation)

  function Half(v: Vec3): Vec3
  {
    Vec3(v.x / 2.0, v.y / 2.0, v.z / 2.0)
  }
}
