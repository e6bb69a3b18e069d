/**
  Exact real-valued stand-ins for the f32 vector types the system uses
  (Bevy's Vec2, Vec3 and Rect). Rounding is not modelled.
 */
module Vectors {

  datatype Vec2 = Vec2(x: real, y: real)

  datatype Vec3 = Vec3(x: real, y: real, z: real)

  /** An axis-aligned rectangle, as used for a texture's atlas region. */
  datatype Rect = Rect(min: Vec2, max: Vec2)

  function Add(a: Vec3, b: Vec3): Vec3 {
    Vec3(a.x + b.x, a.y + b.y, a.z + b.z)
  }
}
