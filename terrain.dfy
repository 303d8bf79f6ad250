/**
  Terrain queries. The game asks raylib to cast a ray straight down from
  height 1000 above (x, z) onto the map mesh; the mesh and the ray-triangle
  test are raylib's, so the model takes the whole cast as a function of (x, z)
  and keeps only what the game does with its answer: the fallbacks when the
  ray misses.
*/
module Terrain {
  import opened Geometry

  /** What GetRayCollisionMesh reports: whether the ray hit, where, and the surface normal there. */
  datatype RayCollision = RayCollision(hit: bool, point: Vec3, normal: Vec3)

  /** The downward ray cast onto the map at (x, z). */
  type RayCaster = (real, real) -> RayCollision

  /** getMapHeightAt: the height of the hit point, or 0 when the ray misses. */
  function HeightAt(cast: RayCaster, x: real, z: real): (h: real)
    ensures cast(x, z).hit ==> h == cast(x, z).point.y
    ensures !cast(x, z).hit ==> h == 0.0
  {
    var hit := cast(x, z);
    if hit.hit then hit.point.y else 0.0
  }

  /** getMapNormalAt: the surface normal at the hit point, or straight up when the ray misses. */
  function NormalAt(cast: RayCaster, x: real, z: real): (n: Vec3)
    ensures cast(x, z).hit ==> n == cast(x, z).normal
    ensures !cast(x, z).hit ==> n == WorldUp
  {
    var hit := cast(x, z);
    if hit.hit then hit.normal else WorldUp
  }
}
