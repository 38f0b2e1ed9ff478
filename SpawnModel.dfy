/**
 * The spawn-and-detach bookkeeping of the AR tracked-image handler, as values.
 *
 * A `World<H>` is what the handler sees: the spawn map from tracked-image id
 * to the ordered handles it spawned, and the scene state of every object in
 * the scene. `H` is the type of object handles; the imperative model in
 * module `Prefabs` instantiates it with the engine's instance ids. The functions below are
 * the reference definitions that the imperative methods are proved against.
 */
module SpawnModel {
  import opened Wrappers
  import opened SceneObjects

  /** Opaque, stable id the tracking subsystem gives a tracked image. */
  type TrackableId = nat

  /** What an added or updated event carries about one image. */
  datatype TrackedImage = TrackedImage(trackableId: TrackableId, anchor: AnchorId,
                                       position: Vec3, rotation: Quaternion)

  /** The prefab of block `j` of the add handler: tiger, then horse, then dog. */
  function Prefab(j: nat): Kind
    requires j < 3
  {
    if j == 0 then Tiger else if j == 1 then Horse else Dog
  }

  /** The configured local offset of each prefab. */
  datatype Offsets = Offsets(tiger: Vec3, horse: Vec3, dog: Vec3)
  {
    function Of(kind: Kind): Vec3
    {
      match kind
      case Tiger => tiger
      case Horse => horse
      case Dog => dog
    }
  }

  datatype World<H(==)> = World(spawned: map<TrackableId, seq<H>>, scene: map<H, ObjState>)

  /** The list spawned for `id`, empty when there is no entry. */
  function Entry<H(==)>(w: World<H>, id: TrackableId): seq<H>
  {
    if id in w.spawned then w.spawned[id] else []
  }

  /** An object instantiated for `image` at anchor position + offset, with the anchor's rotation, parented to the anchor. */
  function Spawned(image: TrackedImage, kind: Kind, offset: Vec3): ObjState
  {
    ObjState(kind, image.position.Plus(offset), image.rotation, Some(image.anchor), true)
  }

  /** The handles `hs` are new objects: none is in the scene yet, and none repeats an earlier one. */
  ghost predicate Fresh<H>(w: World<H>, hs: seq<H>)
    decreases |hs|
  {
    hs == [] || (Fresh(w, hs[..|hs| - 1]) && hs[|hs| - 1] !in w.scene && hs[|hs| - 1] !in hs[..|hs| - 1])
  }

  /** Three new objects: none in the scene yet, and no two the same. */
  ghost predicate Fresh3<H>(w: World<H>, tiger: H, horse: H, dog: H)
  {
    && tiger !in w.scene && horse !in w.scene && dog !in w.scene
    && tiger != horse && tiger != dog && horse != dog
  }

  /**
   * The handler's invariant: every listed handle is an object of the scene, and
   * no object is listed twice, neither under one image nor under two.
   */
  ghost predicate Tracks<H>(spawned: map<TrackableId, seq<H>>, objects: set<H>)
  {
    && (forall id, k :: id in spawned && 0 <= k < |spawned[id]| ==> spawned[id][k] in objects)
    && (forall id1, k1, id2, k2 {:trigger Handle(spawned, id1, k1), Handle(spawned, id2, k2)} ::
          (id1 in spawned && id2 in spawned && 0 <= k1 < |spawned[id1]| && 0 <= k2 < |spawned[id2]|
           && Handle(spawned, id1, k1) == Handle(spawned, id2, k2)) ==> id1 == id2 && k1 == k2)
  }

  /** The `k`-th handle listed under `id`; the uniqueness half of `Tracks` is stated over it. */
  ghost function Handle<H>(spawned: map<TrackableId, seq<H>>, id: TrackableId, k: nat): H
    requires id in spawned && k < |spawned[id]|
  {
    spawned[id][k]
  }

  ghost predicate WellFormed<H>(w: World<H>)
  {
    Tracks(w.spawned, w.scene.Keys)
  }

  /**
   * Handling one added image: make the entry if it is missing, then always
   * instantiate tiger, horse and dog and append them in that order. A second add
   * for the same id appends three more objects; it is not ignored.
   */
  function Create<H(==)>(w: World<H>, offsets: Offsets, image: TrackedImage,
                         tiger: H, horse: H, dog: H): (r: World<H>)
    requires Fresh3(w, tiger, horse, dog)
    ensures r.spawned.Keys == w.spawned.Keys + {image.trackableId}
    ensures forall id :: id in w.spawned && id != image.trackableId ==> r.spawned[id] == w.spawned[id]
    ensures image.trackableId !in w.spawned ==> r.spawned[image.trackableId] == [tiger, horse, dog]
    ensures |r.spawned[image.trackableId]| == |Entry(w, image.trackableId)| + 3
    ensures r.spawned[image.trackableId][..|Entry(w, image.trackableId)|] == Entry(w, image.trackableId)
    ensures r.spawned[image.trackableId][|Entry(w, image.trackableId)|..] == [tiger, horse, dog]
    ensures forall id :: id in w.spawned ==> w.spawned[id] <= r.spawned[id]
    ensures r.scene.Keys == w.scene.Keys + {tiger, horse, dog}
    ensures forall h :: h in w.scene ==> r.scene[h] == w.scene[h]
    ensures r.scene[tiger] == ObjState(Tiger, image.position.Plus(offsets.tiger), image.rotation, Some(image.anchor), true)
    ensures r.scene[horse] == ObjState(Horse, image.position.Plus(offsets.horse), image.rotation, Some(image.anchor), true)
    ensures r.scene[dog] == ObjState(Dog, image.position.Plus(offsets.dog), image.rotation, Some(image.anchor), true)
  {
    assert [tiger, horse, dog][0] == tiger && [tiger, horse, dog][1] == horse && [tiger, horse, dog][2] == dog;
    var e := Entry(w, image.trackableId);
    var w1 := SpawnOne(w, image, Tiger, offsets.tiger, tiger);
    var w2 := SpawnOne(w1, image, Horse, offsets.horse, horse);
    assert e + [tiger] + [horse] + [dog] == e + [tiger, horse, dog];
    assert (e + [tiger, horse, dog])[..|e|] == e;
    SpawnOne(w2, image, Dog, offsets.dog, dog)
  }

  /**
   * One of the three blocks of the add handler: an object instantiated for
   * `image` from the prefab `kind`, parented to the anchor and appended to the
   * image's entry (which is made if it is missing).
   */
  function SpawnOne<H(==)>(w: World<H>, image: TrackedImage, kind: Kind, offset: Vec3, h: H): World<H>
  {
    World(w.spawned[image.trackableId := Entry(w, image.trackableId) + [h]], w.scene[h := Spawned(image, kind, offset)])
  }

  /** One step of the update loop: a live object still parented to `anchor` is detached; anything else is skipped. */
  function Detach<H(==)>(scene: map<H, ObjState>, h: H, anchor: AnchorId): map<H, ObjState>
  {
    if h in scene && scene[h].alive && scene[h].parent == Some(anchor)
    then scene[h := scene[h].(parent := None)]
    else scene
  }

  /** The update loop over the handles `hs`, first to last. */
  function DetachAll<H(==)>(scene: map<H, ObjState>, hs: seq<H>, anchor: AnchorId): (r: map<H, ObjState>)
    ensures r.Keys == scene.Keys
    ensures forall h :: h in scene && h !in hs ==> r[h] == scene[h]
    ensures forall h :: h in scene && h in hs ==> r[h] == scene[h].(parent := r[h].parent)
    ensures forall h :: h in scene && h in hs && (!scene[h].alive || scene[h].parent != Some(anchor)) ==>
              r[h] == scene[h]
    ensures forall h :: h in scene && h in hs && scene[h].alive && scene[h].parent == Some(anchor) ==>
              r[h].parent == None
    decreases |hs|
  {
    if hs == [] then scene
    else
      var n := |hs| - 1;
      var prev := DetachAll(scene, hs[..n], anchor);
      assert hs == hs[..n] + [hs[n]];
      Detach(prev, hs[n], anchor)
  }

  /**
   * Handling one updated image: nothing for an id without an entry; otherwise
   * every live object of that id still parented to the image's anchor is
   * detached. The spawn map itself never changes.
   */
  function Update<H(==)>(w: World<H>, image: TrackedImage): (r: World<H>)
    ensures r.spawned == w.spawned
    ensures image.trackableId !in w.spawned ==> r == w
    ensures r.scene.Keys == w.scene.Keys
    ensures forall h :: h in w.scene && h !in Entry(w, image.trackableId) ==> r.scene[h] == w.scene[h]
    ensures forall h :: h in w.scene && h in Entry(w, image.trackableId) && r.scene[h].alive ==>
              r.scene[h].parent != Some(image.anchor)
    ensures forall h :: h in w.scene && h in Entry(w, image.trackableId) ==>
              r.scene[h] == w.scene[h].(parent := r.scene[h].parent)
    ensures forall h :: (h in w.scene && h in Entry(w, image.trackableId) &&
                         (!w.scene[h].alive || w.scene[h].parent != Some(image.anchor))) ==>
              r.scene[h] == w.scene[h]
    ensures forall h :: h in w.scene ==>
              r.scene[h].parent == w.scene[h].parent || r.scene[h].parent == None
  {
    if image.trackableId !in w.spawned then w
    else w.(scene := DetachAll(w.scene, w.spawned[image.trackableId], image.anchor))
  }

  /**
   * Another script destroying object `h`: afterwards it compares equal to null.
   * The spawn map keeps listing it, and no other object changes.
   */
  function DestroyObject<H(==)>(w: World<H>, h: H): (r: World<H>)
    requires h in w.scene
    ensures r.spawned == w.spawned && r.scene.Keys == w.scene.Keys
    ensures !r.scene[h].alive && r.scene[h] == w.scene[h].(alive := false)
    ensures forall x :: x in w.scene && x != h ==> r.scene[x] == w.scene[x]
  {
    w.(scene := w.scene[h := w.scene[h].(alive := false)])
  }

  /** A prefix of new handles is new as well. */
  lemma {:induction false} FreshPrefix<H>(w: World<H>, hs: seq<H>, m: nat)
    requires Fresh(w, hs) && m <= |hs|
    ensures Fresh(w, hs[..m])
    decreases |hs|
  {
    if m < |hs| {
      var n := |hs| - 1;
      FreshPrefix(w, hs[..n], m);
      assert hs[..n][..m] == hs[..m];
    } else {
      assert hs[..m] == hs;
    }
  }

  /** Each new handle is outside the scene and differs from every handle before it. */
  lemma FreshAt<H>(w: World<H>, hs: seq<H>, k: nat)
    requires Fresh(w, hs) && k < |hs|
    ensures hs[k] !in w.scene && hs[k] !in hs[..k]
  {
    FreshPrefix(w, hs, k + 1);
    assert hs[..k + 1][..k] == hs[..k];
  }

  /** Three more new handles keep a list of new handles new. */
  lemma FreshAppend3<H>(w: World<H>, hs: seq<H>, tiger: H, horse: H, dog: H)
    requires Fresh(w, hs) && Fresh3(w, tiger, horse, dog)
    requires tiger !in hs && horse !in hs && dog !in hs
    ensures Fresh(w, hs + [tiger, horse, dog])
  {
    var s1, s2, s3 := hs + [tiger], hs + [tiger, horse], hs + [tiger, horse, dog];
    assert s1[..|hs|] == hs;
    assert s2[..|hs| + 1] == s1;
    assert s3[..|hs| + 2] == s2;
  }

  /** After all but the last three new handles are in the scene, the last three are still fresh. */
  lemma FreshLastThree<H>(w: World<H>, prev: World<H>, news: seq<H>, m: nat)
    requires |news| == m + 3
    requires Fresh(w, news)
    requires forall h :: h in prev.scene ==> h in w.scene || h in news[..m]
    ensures Fresh3(prev, news[m], news[m + 1], news[m + 2])
  {
    FreshAt(w, news, m);
    FreshAt(w, news, m + 1);
    FreshAt(w, news, m + 2);
    assert news[..m + 1] == news[..m] + [news[m]];
    assert news[..m + 2] == news[..m] + [news[m], news[m + 1]];
  }

  /** The ids of a list of images. */
  function Ids(images: seq<TrackedImage>): set<TrackableId>
  {
    set image | image in images :: image.trackableId
  }

  lemma IdsSnoc(images: seq<TrackedImage>)
    requires images != []
    ensures Ids(images) == Ids(images[..|images| - 1]) + {images[|images| - 1].trackableId}
  {
    assert images == images[..|images| - 1] + [images[|images| - 1]];
  }

  /** The `added` loop of a batch: `news` holds the three new handles of each image, in order. */
  function CreateAll<H(==)>(w: World<H>, offsets: Offsets, added: seq<TrackedImage>, news: seq<H>): (r: World<H>)
    requires |news| == 3 * |added|
    requires Fresh(w, news)
    ensures forall h :: h in r.scene ==> h in w.scene || h in news
    ensures forall k :: 0 <= k < |news| ==> news[k] in r.scene
    ensures forall h :: h in w.scene ==> h in r.scene && r.scene[h] == w.scene[h]
    ensures r.spawned.Keys == w.spawned.Keys + Ids(added)
    ensures forall id :: id in w.spawned ==> w.spawned[id] <= r.spawned[id]
    decreases |added|
  {
    if added == [] then w
    else
      var n := |added| - 1;
      var m := 3 * n;
      FreshPrefix(w, news, m);
      var prev := CreateAll(w, offsets, added[..n], news[..m]);
      FreshLastThree(w, prev, news, m);
      assert forall k :: 0 <= k < m ==> news[k] in prev.scene by {
        assert forall k :: 0 <= k < m ==> news[..m][k] == news[k];
      }
      var r := Create(prev, offsets, added[n], news[m], news[m + 1], news[m + 2]);
      CreateAllStep(w, prev, r, added, news);
      r
  }

  /** The `added` loop is its first images' loop followed by one more call of the add handler. */
  lemma CreateAllLast<H>(w: World<H>, offsets: Offsets, added: seq<TrackedImage>, news: seq<H>, n: nat, m: nat)
    requires |news| == 3 * |added| && n == |added| - 1 && m == 3 * n
    requires Fresh(w, news)
    ensures Fresh(w, news[..m])
    ensures Fresh3(CreateAll(w, offsets, added[..n], news[..m]), news[m], news[m + 1], news[m + 2])
    ensures CreateAll(w, offsets, added, news)
            == Create(CreateAll(w, offsets, added[..n], news[..m]), offsets, added[n], news[m], news[m + 1], news[m + 2])
  {
    FreshPrefix(w, news, m);
    FreshLastThree(w, CreateAll(w, offsets, added[..n], news[..m]), news, m);
    CreateAllUnfold(w, offsets, added, news, n, m);
  }

  /** The definition of the `added` loop, unfolded once for a non-empty list. */
  lemma CreateAllUnfold<H>(w: World<H>, offsets: Offsets, added: seq<TrackedImage>, news: seq<H>, n: nat, m: nat)
    requires |news| == 3 * |added| && n == |added| - 1 && m == 3 * n
    requires Fresh(w, news)
    requires Fresh(w, news[..m])
    requires Fresh3(CreateAll(w, offsets, added[..n], news[..m]), news[m], news[m + 1], news[m + 2])
    ensures CreateAll(w, offsets, added, news)
            == Create(CreateAll(w, offsets, added[..n], news[..m]), offsets, added[n], news[m], news[m + 1], news[m + 2])
  {
    assert added != [];
  }

  /** One more pass of the `added` loop: the add handler applied to what the first `i` passes made. */
  lemma CreateAllSnoc<H>(w: World<H>, offsets: Offsets, added: seq<TrackedImage>, i: nat, news: seq<H>,
                         tiger: H, horse: H, dog: H)
    requires i < |added| && |news| == 3 * i && Fresh(w, news)
    requires Fresh3(CreateAll(w, offsets, added[..i], news), tiger, horse, dog)
    ensures Fresh(w, news + [tiger, horse, dog])
    ensures CreateAll(w, offsets, added[..i + 1], news + [tiger, horse, dog])
            == Create(CreateAll(w, offsets, added[..i], news), offsets, added[i], tiger, horse, dog)
  {
    FreshAppend3(w, news, tiger, horse, dog);
    var news' := news + [tiger, horse, dog];
    assert added[..i + 1][..i] == added[..i] && added[..i + 1][i] == added[i];
    assert news'[..|news|] == news;
    assert news'[|news|] == tiger && news'[|news| + 1] == horse && news'[|news| + 2] == dog;
    CreateAllLast(w, offsets, added[..i + 1], news', i, |news|);
  }

  /** The frame facts of one more step of the `added` loop. */
  lemma CreateAllStep<H>(w: World<H>, prev: World<H>, r: World<H>, added: seq<TrackedImage>, news: seq<H>)
    requires |added| > 0 && |news| == 3 * |added|
    requires forall h :: h in prev.scene ==> h in w.scene || h in news[..|news| - 3]
    requires forall k :: 0 <= k < |news| - 3 ==> news[k] in prev.scene
    requires forall h :: h in w.scene ==> h in prev.scene && prev.scene[h] == w.scene[h]
    requires prev.spawned.Keys == w.spawned.Keys + Ids(added[..|added| - 1])
    requires forall id :: id in w.spawned ==> w.spawned[id] <= prev.spawned[id]
    requires r.scene.Keys == prev.scene.Keys + {news[|news| - 3], news[|news| - 2], news[|news| - 1]}
    requires forall h :: h in prev.scene ==> r.scene[h] == prev.scene[h]
    requires r.spawned.Keys == prev.spawned.Keys + {added[|added| - 1].trackableId}
    requires forall id :: id in prev.spawned ==> prev.spawned[id] <= r.spawned[id]
    ensures forall h :: h in r.scene ==> h in w.scene || h in news
    ensures forall k :: 0 <= k < |news| ==> news[k] in r.scene
    ensures forall h :: h in w.scene ==> h in r.scene && r.scene[h] == w.scene[h]
    ensures r.spawned.Keys == w.spawned.Keys + Ids(added)
    ensures forall id :: id in w.spawned ==> w.spawned[id] <= r.spawned[id]
  {
    var m := |news| - 3;
    assert news == news[..m] + [news[m], news[m + 1], news[m + 2]];
    IdsSnoc(added);
  }

  /** The first loop after its last pass: the prefix of all added images is all of them. */
  lemma CreateAllWhole<H>(w: World<H>, offsets: Offsets, added: seq<TrackedImage>, news: seq<H>)
    requires |news| == 3 * |added| && Fresh(w, news)
    ensures CreateAll(w, offsets, added[..|added|], news) == CreateAll(w, offsets, added, news)
  {
    assert added[..|added|] == added;
  }

  /** The `updated` loop of a batch. */
  function UpdateAll<H(==)>(w: World<H>, updated: seq<TrackedImage>): (r: World<H>)
    ensures r.spawned == w.spawned
    ensures r.scene.Keys == w.scene.Keys
    ensures forall h :: h in w.scene ==> r.scene[h] == w.scene[h] || r.scene[h] == w.scene[h].(parent := None)
    decreases |updated|
  {
    if updated == [] then w
    else
      var n := |updated| - 1;
      Update(UpdateAll(w, updated[..n]), updated[n])
  }

  /** A whole change event: every added image first, then every updated image. */
  function Batch<H(==)>(w: World<H>, offsets: Offsets, added: seq<TrackedImage>,
                        updated: seq<TrackedImage>, news: seq<H>): World<H>
    requires |news| == 3 * |added|
    requires Fresh(w, news)
  {
    UpdateAll(CreateAll(w, offsets, added, news), updated)
  }
}
