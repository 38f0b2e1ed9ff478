# Tracked-image prefab spawner, modelled in Dafny

The repository is a small AR app. Whenever the tracking subsystem reports a
newly tracked image, its `PrefabCreator` component instantiates three prefabs:
a tiger, a horse and a dog.

- Each prefab is placed at the image's position plus a configured offset.
- Each is given the image's rotation.
- Each is parented to the image's transform.
- The handler records the three objects under the image's trackable id.

When the same image is later reported as updated, the handler walks the
objects recorded for it. It skips those that were destroyed, and detaches
from the image (parent set to none) every one still parented to it. The
objects thus follow the image only until its first update, and then stay
fixed in the world.

The model has five modules, plus the utility module `Wrappers`:

- `SpawnModel` (SpawnModel.dfy) is the bookkeeping as values.
  - A `World<H>`:
    - the spawn map `spawned` (image id to its handles, in creation order);
    - the `scene`, which holds each object's kind, position, rotation, parent
      and destroyed flag.
  - The reference functions:
    - `Create` (the add handler);
    - `Detach` / `DetachAll` / `Update` (the update handler);
    - `CreateAll` / `UpdateAll` / `Batch` (handling one change event);
    - `DestroyObject` (destruction by other code).
  - Their contracts.
  - The handler's invariant `WellFormed`: every listed object is in the scene
    and no object is listed twice.
- `SpawnProperties` (SpawnProperties.dfy) holds the lemmas that relate several
  operations:
  - that the invariant is preserved;
  - that an update is idempotent;
  - that an update leaves the other images' objects alone;
  - that the `added` loop leaves the entries of other ids alone, and the
    `updated` loop leaves alone every object no updated image detaches;
  - that an update skips an object another script destroyed;
  - that the objects of the `i`-th added image are listed and placed as
    configured;
  - that an image both added and updated in one event ends with its new
    objects detached.
- `SceneObjects` (SceneObjects.dfy) holds what the engine keeps about one game
  object (`ObjState`: prefab kind, world pose, parent, destroyed flag) and the
  vector, rotation and anchor types it uses.
- `Engine` (Engine.dfy) is the part of the game engine the handler calls: a
  scene graph `Scene`. Its operations:
  - `Instantiate` hands out a new instance id;
  - `SetParent` re-parents a transform;
  - `Destroy` stands for destruction by other code.
- `Prefabs` (Prefabs.dfy) is the `PrefabCreator` class.
  - It holds `spawnedObjects: map<TrackableId, seq<GameObject>>`, and loops
    over the added and updated images and over an image's objects as the
    source does.
  - Six handler methods (`CreatePrefabs`, `SpawnPrefab`,
    `UpdatePrefabsPosition`, `CreateAllPrefabs`, `UpdateAllPrefabs`,
    `OnTrackablesChanged`) require `Valid()` and are proved to keep it. Each
    leaves `Model()` equal to the matching `SpawnModel` function (`Create`,
    `SpawnOne`, `Update`, `CreateAll`, `UpdateAll`, `Batch`) of the old
    `Model()`.
  - `CreateNext`, one pass of the `added` loop, also requires and keeps
    `Valid()`. It ties `Model()` to the state at the start of the loop instead:
    if `Model()` was `CreateAll` of the ghost start state `w` over the first
    `i` added images, it becomes `CreateAll` of `w` over the first `i + 1`.
  - The update loop's body `DetachFromAnchor` works on the scene alone. It
    requires the scene's own invariant and that the object is in the scene,
    keeps that invariant, and leaves the scene equal to `Detach` of the old
    scene.
  - The constructor establishes `Valid()` with an empty spawn map.
  - `ExternalDestroy` stands for another script destroying an object. It keeps
    `Valid()` and leaves `Model()` equal to `DestroyObject` of the old state.

`Wrappers` (Wrappers.dfy) holds the `Option` type used for parent links.

New handles are parameters of the value model. `Create` and `CreateAll`
require them to be fresh (`Fresh3`, `Fresh`). The imperative methods return
the handles `Instantiate` gave them, as ghost outputs.

## Model

| member | source | states |
|---|---|---|
| SpawnModel.Create | Assets/PrefabCreator.cs:53-71 | For a new id, the entry is exactly `[tiger, horse, dog]`. For an existing id, the entry grows by exactly 3: its old prefix is unchanged and followed by tiger, horse, dog. Other ids' entries are unchanged. The three objects join the scene at anchor position + their offset, with the anchor's rotation, parented to the anchor and alive. Every other object is unchanged. |
| SpawnProperties.SpawnOneAppends | Assets/PrefabCreator.cs:60-62 | `SpawnOne`, one Instantiate/SetParent/Add block: the image's entry exists and ends in exactly the new handle after its old contents. The new object is at anchor position + offset with the anchor's rotation, parented to the anchor and alive. No other entry and no other object changes. |
| SpawnProperties.DetachOnce | Assets/PrefabCreator.cs:82-88 | `Detach`, one pass of the update loop, changes at most that object's parent, and only from the anchor to none for a live object. Afterwards a live object is off the anchor, so a second pass changes nothing. No other object changes. |
| SpawnModel.DetachAll | Assets/PrefabCreator.cs:80-89 | The update loop keeps the set of objects. Unlisted objects are unchanged. A listed object changes at most its parent. A destroyed listed object, or one with another parent, is unchanged. A live listed object parented to the anchor ends up detached. |
| SpawnModel.Update | Assets/PrefabCreator.cs:73-90 | The spawn map never changes. An unknown id changes nothing. Objects not listed under the id are untouched. No live object listed under the id keeps the image's anchor as parent. Objects with any other parent, and destroyed ones, are unchanged. Every parent either stays or becomes none. |
| SpawnModel.CreateAll | Assets/PrefabCreator.cs:42-45 | The `added` loop keeps every existing object unchanged and adds exactly the new handles to the scene. Its keys are the old ids plus the added images' ids. Every old entry stays a prefix of its new entry. |
| SpawnModel.DestroyObject | Assets/PrefabCreator.cs:82 | Destruction by other code marks only that object destroyed, which is what the null check sees. The spawn map still lists it and no other object changes. |
| SpawnProperties.BatchFrame | Assets/PrefabCreator.cs:40-51 | `Batch`, a whole event, is the `updated` loop run after the `added` loop. Its spawn map is exactly the one the `added` loop leaves. Every added image's id has an entry, and every old entry is a prefix of its new one. Every new handle is in the scene, and every old object is unchanged or only detached. |
| SpawnModel.UpdateAll | Assets/PrefabCreator.cs:47-50 | The `updated` loop keeps the spawn map and the set of objects. Every object is either unchanged or only detached. |
| SpawnProperties.UpdateIdempotent | Assets/PrefabCreator.cs:85-87 | Updating the same image twice gives the same world as updating it once. |
| SpawnProperties.UpdateLeavesOtherImages | Assets/PrefabCreator.cs:73-89 | In a well-formed world, updating one image leaves every object listed under any other image unchanged. |
| SpawnProperties.TracksNewEntry | Assets/PrefabCreator.cs:55-58 | Inserting an empty entry for a new id keeps the invariant. |
| SpawnProperties.TracksAppend | Assets/PrefabCreator.cs:60-70 | Appending a handle not yet in the scene to one entry keeps every listed object known and listed only once. |
| SpawnProperties.CreatePreservesWellFormed | Assets/PrefabCreator.cs:53-71 | The add handler keeps the invariant. |
| SpawnProperties.UpdatePreservesWellFormed | Assets/PrefabCreator.cs:73-90 | The update handler keeps the invariant. |
| SpawnProperties.CreateAllPreservesWellFormed | Assets/PrefabCreator.cs:42-45 | The whole `added` loop keeps the invariant. |
| SpawnProperties.CreateLists | Assets/PrefabCreator.cs:62-70 | The add handler lists its three new objects under the image's id. |
| SpawnProperties.CreateKeepsListed | Assets/PrefabCreator.cs:55-70 | The add handler keeps every object already listed under any id. |
| SpawnProperties.CreateAllLists | Assets/PrefabCreator.cs:42-45 | After the `added` loop, the objects made for the `i`-th image (`news[k]`, 3i <= k < 3i+3) are listed under its id, even if later images share that id. |
| SpawnProperties.CreateAllPlaces | Assets/PrefabCreator.cs:42-45 | After the `added` loop, object `news[k]` of the `i`-th image keeps exactly the state the add handler gave it: prefab tiger/horse/dog by block, anchor position + that prefab's offset, the anchor's rotation, parented to the anchor. |
| SpawnProperties.CreateAllSpawns | Assets/PrefabCreator.cs:42-45 | Both facts together: each new object of the `i`-th added image is listed under its id and placed as configured. |
| SpawnProperties.CreateAllKeepsOtherEntries | Assets/PrefabCreator.cs:42-45 | The `added` loop leaves the entry of every id that is not among the added images exactly as it was. |
| SpawnProperties.UpdateAllKeepsUnaffected | Assets/PrefabCreator.cs:47-50 | The `updated` loop leaves an object exactly as it was when it is listed under none of the updated images, or when every updated image listing it finds it destroyed or parented elsewhere. |
| SpawnProperties.DestroyPreservesWellFormed | Assets/PrefabCreator.cs:82 | Destruction by other code keeps the handler's invariant. |
| SpawnProperties.UpdateSkipsDestroyed | Assets/PrefabCreator.cs:80-88 | After another script destroys an object, an update leaves that object as it is, and treats every other object exactly as it would have without the destroy. |
| SpawnProperties.UpdateAllDetaches | Assets/PrefabCreator.cs:47-50 | Take a live object listed under the `j`-th updated image that is either on that image's anchor or already detached. It ends the `updated` loop detached, with nothing else about it changed. |
| SpawnProperties.BatchDetachesNewObjects | Assets/PrefabCreator.cs:40-51 | In one event, an image that is both added and updated ends with each of its three new objects detached and otherwise as the add handler placed it, because all added images are handled before any updated one. |
| SpawnProperties.AddThenUpdateDetaches | Assets/PrefabCreator.cs:53-90 | Adding an image and then updating it detaches all three new objects and changes nothing else about them. |
| Engine.Scene.Instantiate | Assets/PrefabCreator.cs:60 | Instantiation yields an id not in the scene. The new object is at the given position and rotation, at the scene root and alive. No other object changes. |
| Engine.Scene.SetParent | Assets/PrefabCreator.cs:61 | Re-parenting changes that object's parent and nothing else. |
| Engine.Scene.Destroy | Assets/PrefabCreator.cs:82 | External destruction marks the object destroyed (it then compares equal to null) and changes nothing else. |
| Prefabs.PrefabCreator.constructor | Assets/PrefabCreator.cs:17 | The handler starts with an empty spawn map and satisfies its invariant. |
| Prefabs.PrefabCreator.SpawnPrefab | Assets/PrefabCreator.cs:60-62 | One block of the add handler: a new object, instantiated and parented to the anchor, appended to the image's entry. The result equals `SpawnOne` of the old state. |
| Prefabs.PrefabCreator.CreatePrefabs | Assets/PrefabCreator.cs:53-71 | The new state equals `Create` of the old state, so the prefix, +3 length, order and placement facts carry over. The three handles are new and the invariant is kept. |
| Prefabs.PrefabCreator.DetachFromAnchor | Assets/PrefabCreator.cs:82-88 | One pass of the update loop leaves the scene equal to `Detach` of the old scene. |
| Prefabs.PrefabCreator.UpdatePrefabsPosition | Assets/PrefabCreator.cs:73-90 | The new state equals `Update` of the old state. The spawn map is untouched and the invariant is kept. |
| Prefabs.PrefabCreator.CreateNext | Assets/PrefabCreator.cs:42-45 | One pass of the `added` loop extends `CreateAll` by one image and its three new handles. |
| Prefabs.PrefabCreator.CreateAllPrefabs | Assets/PrefabCreator.cs:42-45 | The new state equals `CreateAll` of the old state with the 3 × \|added\| new handles, which are new and distinct. The invariant is kept. |
| Prefabs.PrefabCreator.UpdateAllPrefabs | Assets/PrefabCreator.cs:47-50 | The new state equals `UpdateAll` of the old state. The spawn map is untouched and the invariant is kept. |
| Prefabs.ExternalDestroy | Assets/PrefabCreator.cs:82 | Another script destroying an object through the engine keeps the handler's invariant. The new state equals `DestroyObject` of the old state. |
| Prefabs.PrefabCreator.OnTrackablesChanged | Assets/PrefabCreator.cs:40-51 | The new state equals `Batch`: all added images first, then all updated ones. The invariant is kept. |

## Left out

- Assets/ModelController.cs is not part of this model. It only turns joystick input into rigid-body velocity and yaw through floating-point engine calls.
- `Awake`, `OnEnable` and `OnDisable` (Assets/PrefabCreator.cs:19-38) are not modelled. They only fetch the tracked-image manager and subscribe or unsubscribe the handler. The model calls `OnTrackablesChanged` directly with the event's `added` and `updated` lists. The event's `removed` list is ignored by the code and is not modelled either.
- Positions are exact triples of reals added componentwise, so the float rounding of the `Vector3` additions at Assets/PrefabCreator.cs:60, 64 and 68 is not captured. Rotations are copied as opaque values and never computed with.
- The engine is modelled by its effects only.
  - `Instantiate` always succeeds and returns an id that is not yet in the scene.
  - `SetParent` writes the parent field and nothing else. Whether the world pose is kept on re-parenting is not modelled, and neither is the way children follow a moving anchor.
  - Unity's overloaded `== null` is the `alive` flag.
- The scene graph is modelled as one table from instance id to object state, owned by a `Scene` object, rather than as separate heap objects per game object. The handler only reads and writes objects through their ids, so no aliasing between game objects is modelled.
- Prefab assets (Assets/PrefabCreator.cs:8-10) are modelled as the `Kind` of the object instantiated from them.
- Where trackable ids and poses come from is not modelled: each `TrackedImage` carries an id, an anchor identity, a position and a rotation.
- `TrackedImage` is more general than the engine. In the engine one trackable id is one tracked image whose transform never changes. The model lets two events with the same id carry different anchors. This is why `BatchDetachesNewObjects` requires the updated image's anchor to equal the added image's.
- A second add for an id that already has an entry is not ignored. The code has no guard against it (Assets/PrefabCreator.cs:55-70), so three more objects are appended. The model follows the code: `Create` states that the entry grows by exactly three and keeps its old prefix.
