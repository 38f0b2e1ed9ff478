/**
 * Properties of the spawn-and-detach bookkeeping that relate several
 * operations: idempotence of an update, the handler's invariant, and the
 * ordering of a change event (added images before updated ones).
 */
module SpawnProperties {
  import opened Wrappers
  import opened SceneObjects
  import opened SpawnModel

  /** A second update for the same image changes nothing: the parent check fails for every object. */
  lemma UpdateIdempotent<H>(w: World<H>, image: TrackedImage)
    ensures Update(Update(w, image), image) == Update(w, image)
  {
    var w1 := Update(w, image);
    var w2 := Update(w1, image);
    if image.trackableId in w.spawned {
      assert Entry(w1, image.trackableId) == Entry(w, image.trackableId);
      assert forall h :: h in w1.scene ==> w2.scene[h] == w1.scene[h];
      assert w2.scene == w1.scene;
    }
  }

  /** Updating one image leaves the objects spawned for every other image untouched. */
  lemma UpdateLeavesOtherImages<H>(w: World<H>, image: TrackedImage, other: TrackableId)
    requires WellFormed(w)
    requires other in w.spawned && other != image.trackableId
    ensures forall k :: 0 <= k < |w.spawned[other]| ==>
              Update(w, image).scene[w.spawned[other][k]] == w.scene[w.spawned[other][k]]
  {
    var id := image.trackableId;
    if id in w.spawned {
      forall k | 0 <= k < |w.spawned[other]|
        ensures w.spawned[other][k] !in Entry(w, id)
      {
        forall j | 0 <= j < |w.spawned[id]| ensures w.spawned[id][j] != w.spawned[other][k] {
          assert Handle(w.spawned, id, j) == w.spawned[id][j] && Handle(w.spawned, other, k) == w.spawned[other][k];
        }
      }
    }
  }

  /** Making an empty entry for a new id keeps the invariant. */
  lemma TracksNewEntry<H>(spawned: map<TrackableId, seq<H>>, objects: set<H>, id: TrackableId)
    requires Tracks(spawned, objects) && id !in spawned
    ensures Tracks(spawned[id := []], objects)
  {
    var s := spawned[id := []];
    forall i1, k1, i2, k2 | i1 in s && i2 in s && 0 <= k1 < |s[i1]| && 0 <= k2 < |s[i2]|
                            && Handle(s, i1, k1) == Handle(s, i2, k2)
      ensures i1 == i2 && k1 == k2
    {
      assert Handle(s, i1, k1) == Handle(spawned, i1, k1) && Handle(s, i2, k2) == Handle(spawned, i2, k2);
    }
  }

  /** Appending a fresh handle to one entry keeps every listed object known and listed only once. */
  lemma TracksAppend<H>(spawned: map<TrackableId, seq<H>>, objects: set<H>, id: TrackableId, h: H)
    requires Tracks(spawned, objects)
    requires h !in objects
    ensures Tracks(spawned[id := (if id in spawned then spawned[id] else []) + [h]], objects + {h})
  {
    var before := if id in spawned then spawned[id] else [];
    var s := spawned[id := before + [h]];
    forall i, k | i in s && 0 <= k < |s[i]| ensures s[i][k] in objects + {h} {
      if i != id || k < |before| {
        assert s[i][k] == spawned[i][k];
      }
    }
    forall i1, k1, i2, k2 | i1 in s && i2 in s && 0 <= k1 < |s[i1]| && 0 <= k2 < |s[i2]|
                            && Handle(s, i1, k1) == Handle(s, i2, k2)
      ensures i1 == i2 && k1 == k2
    {
      var new1, new2 := i1 == id && k1 == |before|, i2 == id && k2 == |before|;
      if !new1 && !new2 {
        assert Handle(s, i1, k1) == Handle(spawned, i1, k1) && Handle(s, i2, k2) == Handle(spawned, i2, k2);
      }
    }
  }

  /** Creating with fresh handles keeps every listed object in the scene and listed only once. */
  lemma CreatePreservesWellFormed<H>(w: World<H>, offsets: Offsets, image: TrackedImage,
                                     tiger: H, horse: H, dog: H)
    requires WellFormed(w)
    requires Fresh3(w, tiger, horse, dog)
    ensures WellFormed(Create(w, offsets, image, tiger, horse, dog))
  {
    assert [tiger, horse, dog][0] == tiger && [tiger, horse, dog][1] == horse && [tiger, horse, dog][2] == dog;
    var id := image.trackableId;
    var e := Entry(w, id);
    TracksAppend(w.spawned, w.scene.Keys, id, tiger);
    var s1 := w.spawned[id := e + [tiger]];
    TracksAppend(s1, w.scene.Keys + {tiger}, id, horse);
    var s2 := s1[id := e + [tiger] + [horse]];
    TracksAppend(s2, w.scene.Keys + {tiger, horse}, id, dog);
    assert e + [tiger] + [horse] + [dog] == e + [tiger, horse, dog];
  }

  /** Updating keeps the invariant: neither the spawn map nor the set of objects changes. */
  lemma UpdatePreservesWellFormed<H>(w: World<H>, image: TrackedImage)
    requires WellFormed(w)
    ensures WellFormed(Update(w, image))
  {
  }

  /** The whole `added` loop keeps the invariant. */
  lemma {:induction false} CreateAllPreservesWellFormed<H>(w: World<H>, offsets: Offsets,
                                                              added: seq<TrackedImage>, news: seq<H>)
    requires |news| == 3 * |added|
    requires Fresh(w, news)
    requires WellFormed(w)
    ensures WellFormed(CreateAll(w, offsets, added, news))
    decreases |added|
  {
    if added != [] {
      var n := |added| - 1;
      var m := 3 * n;
      CreateAllLast(w, offsets, added, news, n, m);
      var prev := CreateAll(w, offsets, added[..n], news[..m]);
      CreateAllPreservesWellFormed(w, offsets, added[..n], news[..m]);
      CreatePreservesWellFormed(prev, offsets, added[n], news[m], news[m + 1], news[m + 2]);
    }
  }

  /**
   * The object `news[k]` created by block `k - 3i` for the `i`-th added image
   * is listed under that image's id and placed as the block's prefab is configured.
   */
  lemma CreateAllSpawns<H>(w: World<H>, offsets: Offsets, added: seq<TrackedImage>, news: seq<H>, i: nat, k: nat)
    requires |news| == 3 * |added|
    requires Fresh(w, news)
    requires i < |added| && 3 * i <= k < 3 * i + 3
    ensures var r := CreateAll(w, offsets, added, news);
            && added[i].trackableId in r.spawned
            && news[k] in r.spawned[added[i].trackableId]
            && r.scene[news[k]] == Spawned(added[i], Prefab(k - 3 * i), offsets.Of(Prefab(k - 3 * i)))
  {
    CreateAllLists(w, offsets, added, news, i, k);
    CreateAllPlaces(w, offsets, added, news, i, k);
  }

  /** The add handler lists its three new objects under the image's id. */
  lemma CreateLists<H>(w: World<H>, offsets: Offsets, image: TrackedImage, tiger: H, horse: H, dog: H)
    requires Fresh3(w, tiger, horse, dog)
    ensures var s := Create(w, offsets, image, tiger, horse, dog).spawned[image.trackableId];
            tiger in s && horse in s && dog in s
  {
    var s := Create(w, offsets, image, tiger, horse, dog).spawned[image.trackableId];
    var e := |Entry(w, image.trackableId)|;
    assert s[e..][0] == tiger && s[e..][1] == horse && s[e..][2] == dog;
  }

  /** The add handler keeps every object already listed under any id. */
  lemma CreateKeepsListed<H>(w: World<H>, offsets: Offsets, image: TrackedImage, tiger: H, horse: H, dog: H,
                             id: TrackableId, x: H)
    requires Fresh3(w, tiger, horse, dog)
    requires id in w.spawned && x in w.spawned[id]
    ensures x in Create(w, offsets, image, tiger, horse, dog).spawned[id]
  {
    InPrefix(w.spawned[id], Create(w, offsets, image, tiger, horse, dog).spawned[id], x);
  }

  /** Whatever a list holds, every list it is a prefix of holds too. */
  lemma InPrefix<H>(a: seq<H>, b: seq<H>, x: H)
    requires a <= b && x in a
    ensures x in b
  {
    var k :| 0 <= k < |a| && a[k] == x;
    assert b[k] == x;
  }

  /** The last pass of the `added` loop lists its three new objects under the last image's id. */
  lemma CreateAllListsLast<H>(w: World<H>, offsets: Offsets, added: seq<TrackedImage>, news: seq<H>, n: nat, m: nat)
    requires |news| == 3 * |added| && n == |added| - 1 && m == 3 * n
    requires Fresh(w, news)
    ensures var r := CreateAll(w, offsets, added, news);
            && added[n].trackableId in r.spawned
            && news[m] in r.spawned[added[n].trackableId]
            && news[m + 1] in r.spawned[added[n].trackableId]
            && news[m + 2] in r.spawned[added[n].trackableId]
  {
    CreateAllLast(w, offsets, added, news, n, m);
    CreateLists(CreateAll(w, offsets, added[..n], news[..m]), offsets, added[n], news[m], news[m + 1], news[m + 2]);
  }

  /** The last pass of the `added` loop keeps every object the earlier passes listed. */
  lemma CreateAllKeepsListed<H>(w: World<H>, offsets: Offsets, added: seq<TrackedImage>, news: seq<H>,
                                n: nat, m: nat, id: TrackableId, x: H)
    requires |news| == 3 * |added| && n == |added| - 1 && m == 3 * n
    requires Fresh(w, news)
    requires Fresh(w, news[..m])
    requires var prev := CreateAll(w, offsets, added[..n], news[..m]); id in prev.spawned && x in prev.spawned[id]
    ensures var r := CreateAll(w, offsets, added, news); id in r.spawned && x in r.spawned[id]
  {
    CreateAllLast(w, offsets, added, news, n, m);
    var prev := CreateAll(w, offsets, added[..n], news[..m]);
    CreateKeepsListed(prev, offsets, added[n], news[m], news[m + 1], news[m + 2], id, x);
  }

  /** The objects created for the `i`-th added image (`news[k]`, 3i <= k < 3i + 3) are listed under its id. */
  lemma {:induction false} CreateAllLists<H>(w: World<H>, offsets: Offsets,
                                                added: seq<TrackedImage>, news: seq<H>, i: nat, k: nat)
    requires |news| == 3 * |added|
    requires Fresh(w, news)
    requires i < |added| && 3 * i <= k < 3 * i + 3
    ensures var r := CreateAll(w, offsets, added, news);
            added[i].trackableId in r.spawned && news[k] in r.spawned[added[i].trackableId]
    decreases |added|
  {
    var n := |added| - 1;
    var m := 3 * n;
    if i < n {
      FreshPrefix(w, news, m);
      CreateAllLists(w, offsets, added[..n], news[..m], i, k);
      CreateAllListsEarlier(w, offsets, added, news, n, m, i, k);
    } else {
      assert i == n && (k == m || k == m + 1 || k == m + 2);
      CreateAllListsLast(w, offsets, added, news, n, m);
    }
  }

  /** What the first passes of the `added` loop listed for an earlier image stays listed after the last pass. */
  lemma CreateAllListsEarlier<H>(w: World<H>, offsets: Offsets, added: seq<TrackedImage>, news: seq<H>,
                                 n: nat, m: nat, i: nat, k: nat)
    requires |news| == 3 * |added| && n == |added| - 1 && m == 3 * n
    requires Fresh(w, news) && Fresh(w, news[..m])
    requires i < n && 3 * i <= k < 3 * i + 3
    requires var prev := CreateAll(w, offsets, added[..n], news[..m]);
             added[..n][i].trackableId in prev.spawned && news[..m][k] in prev.spawned[added[..n][i].trackableId]
    ensures var r := CreateAll(w, offsets, added, news);
            added[i].trackableId in r.spawned && news[k] in r.spawned[added[i].trackableId]
  {
    assert added[..n][i] == added[i] && news[..m][k] == news[k];
    CreateAllKeepsListed(w, offsets, added, news, n, m, added[i].trackableId, news[k]);
  }

  /**
   * The object created by block `k - 3i` of the add handler for the `i`-th
   * added image is placed as that block's prefab is configured.
   */
  lemma {:induction false} CreateAllPlaces<H>(w: World<H>, offsets: Offsets,
                                                 added: seq<TrackedImage>, news: seq<H>, i: nat, k: nat)
    requires |news| == 3 * |added|
    requires Fresh(w, news)
    requires i < |added| && 3 * i <= k < 3 * i + 3
    ensures CreateAll(w, offsets, added, news).scene[news[k]]
            == Spawned(added[i], Prefab(k - 3 * i), offsets.Of(Prefab(k - 3 * i)))
    decreases |added|
  {
    var n := |added| - 1;
    var m := 3 * n;
    if i < n {
      FreshPrefix(w, news, m);
      CreateAllPlaces(w, offsets, added[..n], news[..m], i, k);
      assert added[..n][i] == added[i] && news[..m][k] == news[k];
      CreateAllKeepsPlaced(w, offsets, added, news, n, m, news[k]);
      assert CreateAll(w, offsets, added, news).scene[news[k]]
          == CreateAll(w, offsets, added[..n], news[..m]).scene[news[..m][k]];
    } else {
      CreateAllPlacesLast(w, offsets, added, news, i, k);
    }
  }

  /** Block `j` of the add handler places its object `hs[j]` as that block's prefab is configured. */
  lemma CreatePlaces<H>(w: World<H>, offsets: Offsets, image: TrackedImage, hs: seq<H>, j: nat)
    requires |hs| == 3 && j < 3
    requires Fresh3(w, hs[0], hs[1], hs[2])
    ensures Create(w, offsets, image, hs[0], hs[1], hs[2]).scene[hs[j]] == Spawned(image, Prefab(j), offsets.Of(Prefab(j)))
  {
    var sc := Create(w, offsets, image, hs[0], hs[1], hs[2]).scene;
    if j == 0 {
      assert sc[hs[0]] == Spawned(image, Tiger, offsets.tiger);
    } else if j == 1 {
      assert sc[hs[1]] == Spawned(image, Horse, offsets.horse);
    } else {
      assert sc[hs[2]] == Spawned(image, Dog, offsets.dog);
    }
  }

  /** The last pass of the `added` loop places its three new objects as configured. */
  lemma CreateAllPlacesLast<H>(w: World<H>, offsets: Offsets, added: seq<TrackedImage>, news: seq<H>, i: nat, k: nat)
    requires |news| == 3 * |added| && i == |added| - 1 && 3 * i <= k < 3 * i + 3
    requires Fresh(w, news)
    ensures CreateAll(w, offsets, added, news).scene[news[k]]
            == Spawned(added[i], Prefab(k - 3 * i), offsets.Of(Prefab(k - 3 * i)))
  {
    var m := 3 * i;
    CreateAllLast(w, offsets, added, news, i, m);
    var hs := news[m..];
    assert hs[0] == news[m] && hs[1] == news[m + 1] && hs[2] == news[m + 2] && hs[k - m] == news[k];
    CreatePlaces(CreateAll(w, offsets, added[..i], news[..m]), offsets, added[i], hs, k - m);
  }

  /** The last pass of the `added` loop leaves every object the earlier passes made as it was. */
  lemma CreateAllKeepsPlaced<H>(w: World<H>, offsets: Offsets, added: seq<TrackedImage>, news: seq<H>,
                                n: nat, m: nat, x: H)
    requires |news| == 3 * |added| && n == |added| - 1 && m == 3 * n
    requires Fresh(w, news)
    requires Fresh(w, news[..m])
    requires x in CreateAll(w, offsets, added[..n], news[..m]).scene
    ensures CreateAll(w, offsets, added, news).scene[x] == CreateAll(w, offsets, added[..n], news[..m]).scene[x]
  {
    CreateAllLast(w, offsets, added, news, n, m);
  }

  /** The `added` loop leaves the entry of every id it does not add exactly as it was. */
  lemma {:induction false} CreateAllKeepsOtherEntries<H>(w: World<H>, offsets: Offsets, added: seq<TrackedImage>,
                                                          news: seq<H>, id: TrackableId)
    requires |news| == 3 * |added| && Fresh(w, news)
    requires id in w.spawned && id !in Ids(added)
    ensures CreateAll(w, offsets, added, news).spawned[id] == w.spawned[id]
    decreases |added|
  {
    if added != [] {
      var n := |added| - 1;
      var m := 3 * n;
      CreateAllLast(w, offsets, added, news, n, m);
      IdsSnoc(added);
      CreateAllKeepsOtherEntries(w, offsets, added[..n], news[..m], id);
    }
  }

  /**
   * The `updated` loop leaves an object as it was when every updated image that
   * lists it finds it destroyed or parented elsewhere; in particular an object
   * listed under none of the updated images is untouched.
   */
  lemma {:induction false} UpdateAllKeepsUnaffected<H>(w: World<H>, updated: seq<TrackedImage>, h: H)
    requires h in w.scene
    requires forall j :: 0 <= j < |updated| && h in Entry(w, updated[j].trackableId) ==>
               !w.scene[h].alive || w.scene[h].parent != Some(updated[j].anchor)
    ensures UpdateAll(w, updated).scene[h] == w.scene[h]
    decreases |updated|
  {
    if updated != [] {
      var n := |updated| - 1;
      forall j | 0 <= j < n && h in Entry(w, updated[..n][j].trackableId)
        ensures !w.scene[h].alive || w.scene[h].parent != Some(updated[..n][j].anchor)
      {
        assert updated[..n][j] == updated[j];
      }
      UpdateAllKeepsUnaffected(w, updated[..n], h);
      var prev := UpdateAll(w, updated[..n]);
      assert Entry(prev, updated[n].trackableId) == Entry(w, updated[n].trackableId);
    }
  }

  /**
   * An object listed under the `j`-th updated image, alive and either still on
   * that image's anchor or already detached, ends the `updated` loop detached
   * with nothing else about it changed.
   */
  lemma {:induction false} UpdateAllDetaches<H>(w: World<H>, updated: seq<TrackedImage>, j: nat, h: H)
    requires j < |updated|
    requires h in w.scene && h in Entry(w, updated[j].trackableId)
    requires w.scene[h].alive
    requires w.scene[h].parent == Some(updated[j].anchor) || w.scene[h].parent == None
    ensures UpdateAll(w, updated).scene[h] == w.scene[h].(parent := None)
    decreases |updated|
  {
    var n := |updated| - 1;
    if j < n {
      assert updated[..n][j] == updated[j];
      UpdateAllDetaches(w, updated[..n], j, h);
      UpdateAllKeepsDetached(w, updated, h);
    } else {
      UpdateAllDetachesLast(w, updated, h);
    }
  }

  /** The last pass of the `updated` loop leaves an object the earlier passes detached as it is. */
  lemma UpdateAllKeepsDetached<H>(w: World<H>, updated: seq<TrackedImage>, h: H)
    requires |updated| > 0 && h in w.scene
    requires UpdateAll(w, updated[..|updated| - 1]).scene[h].parent == None
    ensures UpdateAll(w, updated).scene[h] == UpdateAll(w, updated[..|updated| - 1]).scene[h]
  {
    UpdateKeepsDetached(UpdateAll(w, updated[..|updated| - 1]), updated[|updated| - 1], h);
  }

  /** The last pass of the `updated` loop detaches a live object listed under its image that is on its anchor or detached. */
  lemma UpdateAllDetachesLast<H>(w: World<H>, updated: seq<TrackedImage>, h: H)
    requires |updated| > 0
    requires h in w.scene && h in Entry(w, updated[|updated| - 1].trackableId) && w.scene[h].alive
    requires w.scene[h].parent == Some(updated[|updated| - 1].anchor) || w.scene[h].parent == None
    ensures UpdateAll(w, updated).scene[h] == w.scene[h].(parent := None)
  {
    var n := |updated| - 1;
    var prev := UpdateAll(w, updated[..n]);
    assert prev.scene[h] == w.scene[h] || prev.scene[h] == w.scene[h].(parent := None);
    UpdateDetachesListed(prev, updated[n], h);
  }

  /** An update leaves an object that is already detached as it is. */
  lemma UpdateKeepsDetached<H>(w: World<H>, image: TrackedImage, h: H)
    requires h in w.scene && w.scene[h].parent == None
    ensures Update(w, image).scene[h] == w.scene[h]
  {
    var r := Update(w, image);
    assert r.scene[h].parent == None;
  }

  /** An update detaches a live object listed under the image that is on its anchor or already detached. */
  lemma UpdateDetachesListed<H>(w: World<H>, image: TrackedImage, h: H)
    requires h in w.scene && h in Entry(w, image.trackableId) && w.scene[h].alive
    requires w.scene[h].parent == Some(image.anchor) || w.scene[h].parent == None
    ensures Update(w, image).scene[h] == w.scene[h].(parent := None)
  {
    var r := Update(w, image);
    assert r.scene[h] == w.scene[h].(parent := r.scene[h].parent);
  }

  /**
   * An image that is both added and updated in one change event ends the event
   * with each of its three new objects (`news[k]`, 3i <= k < 3i + 3) detached and
   * otherwise as the add handler placed it, because every added image is handled
   * before any updated one.
   */
  lemma BatchDetachesNewObjects<H>(w: World<H>, offsets: Offsets, added: seq<TrackedImage>,
                                       updated: seq<TrackedImage>, news: seq<H>, i: nat, j: nat, k: nat)
    requires |news| == 3 * |added|
    requires Fresh(w, news)
    requires i < |added| && j < |updated| && 3 * i <= k < 3 * i + 3
    requires updated[j].trackableId == added[i].trackableId && updated[j].anchor == added[i].anchor
    ensures Batch(w, offsets, added, updated, news).scene[news[k]]
            == Spawned(added[i], Prefab(k - 3 * i), offsets.Of(Prefab(k - 3 * i))).(parent := None)
  {
    var created := CreateAll(w, offsets, added, news);
    CreateAllSpawns(w, offsets, added, news, i, k);
    UpdateAllDetaches(created, updated, j, news[k]);
  }

  /** Adding an image and then updating it detaches all three of its new objects. */
  lemma AddThenUpdateDetaches<H>(w: World<H>, offsets: Offsets, image: TrackedImage,
                                     tiger: H, horse: H, dog: H)
    requires Fresh3(w, tiger, horse, dog)
    ensures var r := Update(Create(w, offsets, image, tiger, horse, dog), image);
            && r.scene[tiger] == Spawned(image, Tiger, offsets.tiger).(parent := None)
            && r.scene[horse] == Spawned(image, Horse, offsets.horse).(parent := None)
            && r.scene[dog] == Spawned(image, Dog, offsets.dog).(parent := None)
  {
    var c := Create(w, offsets, image, tiger, horse, dog);
    var e := |Entry(w, image.trackableId)|;
    assert c.spawned[image.trackableId][e..][0] == tiger;
    assert c.spawned[image.trackableId][e..][1] == horse;
    assert c.spawned[image.trackableId][e..][2] == dog;
  }

  /** Another script destroying an object keeps the handler's invariant: nothing is listed or unlisted. */
  lemma DestroyPreservesWellFormed<H>(w: World<H>, h: H)
    requires WellFormed(w) && h in w.scene
    ensures WellFormed(DestroyObject(w, h))
  {
    assert DestroyObject(w, h).scene.Keys == w.scene.Keys;
  }

  /**
   * A stale handle: an update after another script destroyed `h` skips `h`,
   * and treats every other object exactly as it would have without the destroy.
   */
  lemma UpdateSkipsDestroyed<H>(w: World<H>, image: TrackedImage, h: H)
    requires h in w.scene
    ensures Update(DestroyObject(w, h), image).scene[h] == DestroyObject(w, h).scene[h]
    ensures forall x :: x in w.scene && x != h ==> Update(DestroyObject(w, h), image).scene[x] == Update(w, image).scene[x]
  {
    var d := DestroyObject(w, h);
    var r := Update(d, image);
    var u := Update(w, image);
    assert Entry(d, image.trackableId) == Entry(w, image.trackableId);
    forall x | x in w.scene && x != h ensures r.scene[x] == u.scene[x] {
      assert d.scene[x] == w.scene[x];
      if x in Entry(w, image.trackableId) && w.scene[x].alive && w.scene[x].parent == Some(image.anchor) {
        assert r.scene[x] == d.scene[x].(parent := r.scene[x].parent);
        assert u.scene[x] == w.scene[x].(parent := u.scene[x].parent);
      }
    }
  }

  /**
   * One block of the add handler: the image's entry (made if missing) gains
   * exactly `h` at its end, the new object is at anchor position + offset with
   * the anchor's rotation, parented and alive, and nothing else changes.
   */
  lemma SpawnOneAppends<H>(w: World<H>, image: TrackedImage, kind: Kind, offset: Vec3, h: H)
    ensures var r := SpawnOne(w, image, kind, offset, h);
            && r.spawned.Keys == w.spawned.Keys + {image.trackableId}
            && r.spawned[image.trackableId] == Entry(w, image.trackableId) + [h]
            && (forall id :: id in w.spawned && id != image.trackableId ==> r.spawned[id] == w.spawned[id])
            && r.scene.Keys == w.scene.Keys + {h}
            && r.scene[h] == ObjState(kind, image.position.Plus(offset), image.rotation, Some(image.anchor), true)
            && (forall x :: x in w.scene && x != h ==> r.scene[x] == w.scene[x])
  {
  }

  /**
   * One pass of the update loop changes at most the parent of `h`, from the
   * anchor to none; afterwards `h`, if live, is off the anchor, so a second
   * pass changes nothing.
   */
  lemma DetachOnce<H>(scene: map<H, ObjState>, h: H, anchor: AnchorId)
    ensures var r := Detach(scene, h, anchor);
            && r.Keys == scene.Keys
            && (forall x :: x in scene && x != h ==> r[x] == scene[x])
            && (h in scene ==> r[h] == scene[h].(parent := r[h].parent))
            && (h in scene && r[h].parent != scene[h].parent ==>
                  scene[h].alive && scene[h].parent == Some(anchor) && r[h].parent == None)
            && (h in scene && r[h].alive ==> r[h].parent != Some(anchor))
            && Detach(r, h, anchor) == r
  {
  }

  /**
   * A whole change event: the spawn map ends as the `added` loop left it (the
   * `updated` loop never touches it), every id of an added image has an entry,
   * every old entry is a prefix of its new one, every new handle is in the scene,
   * and every old object is unchanged or only detached.
   */
  lemma BatchFrame<H>(w: World<H>, offsets: Offsets, added: seq<TrackedImage>,
                      updated: seq<TrackedImage>, news: seq<H>)
    requires |news| == 3 * |added| && Fresh(w, news)
    ensures var r := Batch(w, offsets, added, updated, news);
            && r.spawned == CreateAll(w, offsets, added, news).spawned
            && r.spawned.Keys == w.spawned.Keys + Ids(added)
            && (forall id :: id in w.spawned ==> w.spawned[id] <= r.spawned[id])
            && (forall k :: 0 <= k < |news| ==> news[k] in r.scene)
            && (forall x :: x in w.scene ==> r.scene[x] == w.scene[x] || r.scene[x] == w.scene[x].(parent := None))
  {
    var c := CreateAll(w, offsets, added, news);
    assert forall x :: x in w.scene ==> c.scene[x] == w.scene[x];
  }
}
