/**
 * Values the two fur components share: what they read from their renderer,
 * their material and the platform, abstracted from the engine.
 */
module FurComponents {

  datatype Option<T> = None | Some(value: T)

  datatype Vec3 = Vec3(x: real, y: real, z: real)

  /** The largest of the three extents of a bounding box. */
  function MaxExtent(size: Vec3): (m: real)
    ensures m >= size.x && m >= size.y && m >= size.z
    ensures m == size.x || m == size.y || m == size.z
  {
    var xy := if size.x >= size.y then size.x else size.y;
    if xy >= size.z then xy else size.z
  }

  /** A fur material: whether its shader has the fur-length property, and its value. */
  datatype Material = Material(hasFurLength: bool, furLength: real)

  /** What a component reads from its renderer: visibility and world-space bounds size. */
  datatype Renderer = Renderer(isVisible: bool, boundsSize: Vec3)

  /** The platform capabilities a component tests once when it wakes up. */
  datatype SystemInfo = SystemInfo(
    supportsInstancing: bool,
    supportsComputeShaders: bool,
    maxComputeBufferInputsVertex: int
  )
}
