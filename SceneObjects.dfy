/**
 * What the engine's scene graph keeps about one game object: the prefab it
 * was instantiated from, its world pose, its parent transform and whether it
 * still exists.
 */
module SceneObjects {
  import opened Wrappers

  /** Identity of a tracked image's transform, the anchor objects are parented to. */
  type AnchorId = nat

  /** A position, with componentwise exact addition standing for vector addition. */
  datatype Vec3 = Vec3(x: real, y: real, z: real)
  {
    function Plus(other: Vec3): Vec3
    {
      Vec3(x + other.x, y + other.y, z + other.z)
    }
  }

  /** A rotation; it is only ever copied, never computed with. */
  datatype Quaternion = Quaternion(x: real, y: real, z: real, w: real)

  /** The three prefabs, in the order they are instantiated. */
  datatype Kind = Tiger | Horse | Dog

  /**
   * The observable state of one spawned object: which prefab it came from, the
   * world pose it was created with, its parent (None = detached, at the scene
   * root) and whether it still exists (false once destroyed from outside).
   */
  datatype ObjState = ObjState(kind: Kind, position: Vec3, rotation: Quaternion,
                               parent: Option<AnchorId>, alive: bool)
}
