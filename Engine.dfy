/**
 * The part of the game engine the handler touches: the scene graph, which
 * instantiates prefabs, re-parents their transforms and destroys them.
 * Game objects are referred to by the instance ids the engine hands out.
 */
module Engine {
  import opened Wrappers
  import opened SceneObjects

  /** A game object, by the engine's instance id; ids are never reused. */
  type GameObject = nat

  /** The scene graph: the transform state of every object instantiated so far. */
  class Scene {
    var objects: map<GameObject, ObjState>
    /** The id the next instantiation receives. */
    var nextId: GameObject

    ghost predicate Valid()
      reads this
    {
      forall o :: o in objects ==> o < nextId
    }

    constructor()
      ensures Valid() && objects == map[]
    {
      objects := map[];
      nextId := 0;
    }

    /** Instantiating a prefab at a world pose: a new object at the scene root; nothing else changes. */
    method Instantiate(kind: Kind, position: Vec3, rotation: Quaternion) returns (o: GameObject)
      requires Valid()
      modifies this
      ensures Valid() && o !in old(objects)
      ensures objects == old(objects)[o := ObjState(kind, position, rotation, None, true)]
    {
      o := nextId;
      objects := objects[o := ObjState(kind, position, rotation, None, true)];
      nextId := nextId + 1;
    }

    /** Re-parenting a transform (None: to the scene root); nothing else about the scene changes. */
    method SetParent(o: GameObject, p: Option<AnchorId>)
      requires Valid() && o in objects
      modifies this
      ensures Valid() && objects == old(objects)[o := old(objects)[o].(parent := p)]
    {
      objects := objects[o := objects[o].(parent := p)];
    }

    /** Destruction by someone other than the handler; afterwards the object compares equal to null. */
    method Destroy(o: GameObject)
      requires Valid() && o in objects
      modifies this
      ensures Valid() && objects == old(objects)[o := old(objects)[o].(alive := false)]
    {
      objects := objects[o := objects[o].(alive := false)];
    }
  }
}
