/**
 * The tracked-image handler itself: it owns the spawn map and reacts to the
 * tracking subsystem's change events by instantiating and re-parenting objects
 * of the engine's scene. Each method is proved against the corresponding
 * function of module `SpawnModel`.
 */
module Prefabs {
  import opened Wrappers
  import opened SceneObjects
  import opened SpawnModel
  import opened Engine
  import opened SpawnProperties

  class PrefabCreator {
    /** The configured local offsets of the tiger, horse and dog prefabs. */
    const offsets: Offsets
    /** The engine's scene graph the handler instantiates into. */
    const scene: Scene
    /** Tracked-image id to the objects spawned for it, in creation order. */
    var spawnedObjects: map<TrackableId, seq<GameObject>>

    /** Every listed object is in the scene, and no object is listed twice. */
    ghost predicate Valid()
      reads this, scene
    {
      scene.Valid() && WellFormed(Model())
    }

    /** The handler's state as a value: the spawn map and the scene it spawns into. */
    ghost function Model(): World<GameObject>
      reads this, scene
    {
      World(spawnedObjects, scene.objects)
    }

    constructor(offsets: Offsets, scene: Scene)
      requires scene.Valid()
      ensures Valid() && this.offsets == offsets && this.scene == scene
      ensures Model() == World(map[], scene.objects)
    {
      this.offsets := offsets;
      this.scene := scene;
      spawnedObjects := map[];
    }

    /**
     * Handling an added image: make the entry if it is missing, then instantiate
     * tiger, horse and dog at the anchor's position plus their offsets, parent
     * each to the anchor and append them in that order.
     */
    method CreatePrefabs(image: TrackedImage) returns (ghost tiger: GameObject, ghost horse: GameObject, ghost dog: GameObject)
      requires Valid()
      modifies this, scene
      ensures Valid() && Fresh3(old(Model()), tiger, horse, dog)
      ensures Model() == Create(old(Model()), offsets, image, tiger, horse, dog)
    {
      ghost var w := Model();
      if image.trackableId !in spawnedObjects {
        TracksNewEntry(spawnedObjects, scene.objects.Keys, image.trackableId);
        spawnedObjects := spawnedObjects[image.trackableId := []];
      }
      var t := SpawnPrefab(image, Tiger, offsets.tiger);
      assert Model() == SpawnOne(w, image, Tiger, offsets.tiger, t);
      var h := SpawnPrefab(image, Horse, offsets.horse);
      var d := SpawnPrefab(image, Dog, offsets.dog);
      tiger, horse, dog := t, h, d;
    }

    /**
     * One of the three blocks of the add handler: instantiate a prefab at the
     * anchor's position plus `offset` with the anchor's rotation, parent it to
     * the anchor and append it to the image's entry.
     */
    method SpawnPrefab(image: TrackedImage, kind: Kind, offset: Vec3) returns (o: GameObject)
      requires Valid() && image.trackableId in spawnedObjects
      modifies this, scene
      ensures Valid() && o !in old(scene.objects)
      ensures Model() == SpawnOne(old(Model()), image, kind, offset, o)
    {
      o := scene.Instantiate(kind, image.position.Plus(offset), image.rotation);
      scene.SetParent(o, Some(image.anchor));
      spawnedObjects := spawnedObjects[image.trackableId := spawnedObjects[image.trackableId] + [o]];
      TracksAppend(old(spawnedObjects), old(scene.objects.Keys), image.trackableId, o);
    }

    /**
     * Handling an updated image: nothing for an id without an entry; otherwise
     * walk its objects, skip the destroyed ones and detach every one still
     * parented to the image's anchor.
     */
    method UpdatePrefabsPosition(image: TrackedImage)
      requires Valid()
      modifies scene
      ensures Valid() && spawnedObjects == old(spawnedObjects)
      ensures Model() == Update(old(Model()), image)
    {
      if image.trackableId !in spawnedObjects {
        return;
      }

      var objects := spawnedObjects[image.trackableId];
      for i := 0 to |objects|
        invariant scene.Valid() && scene.objects == DetachAll(old(scene.objects), objects[..i], image.anchor)
      {
        assert objects[..i + 1] == objects[..i] + [objects[i]];
        assert objects[i] in old(scene.objects) by {
          assert Handle(spawnedObjects, image.trackableId, i) == objects[i];
        }
        DetachFromAnchor(objects[i], image.anchor);
      }
      assert objects[..|objects|] == objects;
    }

    /**
     * One pass of the update loop: a destroyed object is skipped, and a live one
     * still parented to `anchor` is detached.
     */
    method DetachFromAnchor(o: GameObject, anchor: AnchorId)
      requires scene.Valid() && o in scene.objects
      modifies scene
      ensures scene.Valid() && scene.objects == Detach(old(scene.objects), o, anchor)
    {
      if !scene.objects[o].alive {
        return;
      }
      if scene.objects[o].parent == Some(anchor) {
        scene.SetParent(o, None);
      }
    }

    /**
     * One pass of the first loop of the change handler: the add handler for
     * `added[i]` continues what the first `i` passes made from `w`.
     */
    method CreateNext(added: seq<TrackedImage>, i: nat, ghost w: World<GameObject>, ghost news: seq<GameObject>)
      returns (ghost tiger: GameObject, ghost horse: GameObject, ghost dog: GameObject)
      requires Valid() && i < |added| && |news| == 3 * i && Fresh(w, news)
      requires Model() == CreateAll(w, offsets, added[..i], news)
      modifies this, scene
      ensures Valid() && Fresh(w, news + [tiger, horse, dog])
      ensures Model() == CreateAll(w, offsets, added[..i + 1], news + [tiger, horse, dog])
    {
      tiger, horse, dog := CreatePrefabs(added[i]);
      CreateAllSnoc(w, offsets, added, i, news, tiger, horse, dog);
    }

    /** The first loop of the change handler: every added image in order. */
    method CreateAllPrefabs(added: seq<TrackedImage>) returns (ghost news: seq<GameObject>)
      requires Valid()
      modifies this, scene
      ensures Valid() && |news| == 3 * |added| && Fresh(old(Model()), news)
      ensures Model() == CreateAll(old(Model()), offsets, added, news)
    {
      news := [];
      ghost var w := Model();
      for i := 0 to |added|
        invariant Valid() && |news| == 3 * i && Fresh(w, news)
        invariant Model() == CreateAll(w, offsets, added[..i], news)
      {
        ghost var t, h, d := CreateNext(added, i, w, news);
        news := news + [t, h, d];
      }
      CreateAllWhole(w, offsets, added, news);
    }

    /** The second loop of the change handler: every updated image in order. */
    method UpdateAllPrefabs(updated: seq<TrackedImage>)
      requires Valid()
      modifies scene
      ensures Valid() && spawnedObjects == old(spawnedObjects)
      ensures Model() == UpdateAll(old(Model()), updated)
    {
      for j := 0 to |updated|
        invariant Valid() && spawnedObjects == old(spawnedObjects)
        invariant Model() == UpdateAll(old(Model()), updated[..j])
      {
        UpdatePrefabsPosition(updated[j]);
        assert updated[..j + 1][..j] == updated[..j];
      }
      assert updated[..|updated|] == updated;
    }

    /** Handling one change event: every added image first, then every updated image. */
    method OnTrackablesChanged(added: seq<TrackedImage>, updated: seq<TrackedImage>)
      returns (ghost news: seq<GameObject>)
      requires Valid()
      modifies this, scene
      ensures Valid() && |news| == 3 * |added| && Fresh(old(Model()), news)
      ensures Model() == Batch(old(Model()), offsets, added, updated, news)
    {
      news := CreateAllPrefabs(added);
      UpdateAllPrefabs(updated);
    }
  }

  /**
   * Another script destroying one of the objects in the scene: the handler's
   * invariant survives, and its state is `DestroyObject` of the old state.
   */
  method ExternalDestroy(c: PrefabCreator, o: GameObject)
    requires c.Valid() && o in c.scene.objects
    modifies c.scene
    ensures c.Valid() && c.Model() == DestroyObject(old(c.Model()), o)
  {
    DestroyPreservesWellFormed(c.Model(), o);
    c.scene.Destroy(o);
  }
}
