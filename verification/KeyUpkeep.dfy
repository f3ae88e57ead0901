/**
 The memory store's signing keys and one replica's key cache, in the source's own imperative form
 (store/memory/oauth.go, oidcprovider/keys.go). The clock and fresh ids are parameters. Every method
 here is one uninterrupted call; KeyRotation interleaves the same steps.
 */
module KeyUpkeep {
  import opened Basics
  import opened SigningKeys

  datatype StoredKey = StoredKey(id: KeyId, at: Time, retired: Option<Time>)

  ghost predicate Distinct(keys: seq<StoredKey>) {
    forall i, j :: 0 <= i < j < |keys| ==> keys[i].id != keys[j].id
  }

  ghost function AsKeys(keys: seq<StoredKey>): Keys
    requires Distinct(keys)
  {
    map i | 0 <= i < |keys| :: keys[i].id := Key(keys[i].at, keys[i].retired)
  }

  /** What `m` must hold to be the contents of `keys`. */
  lemma AsKeysIs(keys: seq<StoredKey>, m: Keys)
    requires Distinct(keys)
    requires forall i :: 0 <= i < |keys| ==> keys[i].id in m && m[keys[i].id] == Key(keys[i].at, keys[i].retired)
    requires forall id :: id in m ==> exists i :: 0 <= i < |keys| && keys[i].id == id
    ensures AsKeys(keys) == m
  {
    var r := AsKeys(keys);
    forall id | id in r ensures id in m && r[id] == m[id] {
      var i :| 0 <= i < |keys| && keys[i].id == id;
    }
    forall id | id in m ensures id in r {
      var i :| 0 <= i < |keys| && keys[i].id == id;
      assert keys[i].id in r;
    }
  }

  lemma AsKeysUpdate(keys: seq<StoredKey>, i: nat, key: StoredKey)
    requires Distinct(keys) && i < |keys| && keys[i].id == key.id
    ensures Distinct(keys[i := key])
    ensures AsKeys(keys[i := key]) == AsKeys(keys)[key.id := Key(key.at, key.retired)]
  {
    var after := keys[i := key];
    var m := AsKeys(keys)[key.id := Key(key.at, key.retired)];
    forall id | id in m ensures exists j :: 0 <= j < |after| && after[j].id == id {
      var j :| 0 <= j < |keys| && keys[j].id == id;
      assert after[j].id == id;
    }
    AsKeysIs(after, m);
  }

  lemma AsKeysAppend(keys: seq<StoredKey>, key: StoredKey)
    requires Distinct(keys) && forall j :: 0 <= j < |keys| ==> keys[j].id != key.id
    ensures Distinct(keys + [key])
    ensures AsKeys(keys + [key]) == AsKeys(keys)[key.id := Key(key.at, key.retired)]
  {
    var after := keys + [key];
    var m := AsKeys(keys)[key.id := Key(key.at, key.retired)];
    forall id | id in m ensures exists j :: 0 <= j < |after| && after[j].id == id {
      if id == key.id {
        assert after[|keys|].id == id;
      } else {
        var j :| 0 <= j < |keys| && keys[j].id == id;
        assert after[j].id == id;
      }
    }
    AsKeysIs(after, m);
  }

  ghost function Without(keys: seq<StoredKey>, id: KeyId): (r: seq<StoredKey>)
    ensures forall j :: 0 <= j < |r| ==> r[j].id != id && r[j] in keys
    ensures forall k :: k in keys && k.id != id ==> k in r
    ensures Distinct(keys) ==> Distinct(r)
  {
    if keys == [] then []
    else
      var last := keys[|keys| - 1];
      var rest := Without(keys[..|keys| - 1], id);
      if last.id == id then rest else rest + [last]
  }

  lemma AsKeysWithout(keys: seq<StoredKey>, id: KeyId)
    requires Distinct(keys)
    ensures AsKeys(Without(keys, id)) == AsKeys(keys) - {id}
  {
    var after := Without(keys, id);
    var m := AsKeys(keys) - {id};
    forall k | k in m ensures exists j :: 0 <= j < |after| && after[j].id == k {
      var i :| 0 <= i < |keys| && keys[i].id == k;
      assert keys[i] in after;
    }
    AsKeysIs(after, m);
  }

  class KeyStore {
    var keys: seq<StoredKey>

    ghost predicate Valid() reads this {
      Distinct(keys)
    }

    ghost function Contents(): Keys
      requires Valid()
      reads this
    {
      AsKeys(keys)
    }

    constructor ()
      ensures Valid() && Contents() == map[]
    {
      keys := [];
    }

    /** One entry per id: a second key of the same id takes the first one's place. */
    method AddKey(key: StoredKey)
      requires Valid()
      modifies this
      ensures Valid() && Contents() == old(Contents())[key.id := Key(key.at, key.retired)]
    {
      for i := 0 to |keys|
        invariant keys == old(keys)
        invariant forall j :: 0 <= j < i ==> keys[j].id != key.id
      {
        if keys[i].id == key.id {
          AsKeysUpdate(keys, i, key);
          keys := keys[i := key];
          return;
        }
      }
      AsKeysAppend(keys, key);
      keys := keys + [key];
    }

    /** Only the first retirement counts. */
    method RetireKey(id: KeyId, at: Time) returns (found: bool)
      requires Valid()
      modifies this
      ensures Valid() && Contents() == Retire(old(Contents()), id, at)
      ensures var was := old(Contents());
              Contents() == if id in was && was[id].retired.None? then was[id := Key(was[id].at, Some(at))] else was
      ensures found == (id in old(Contents()))
    {
      for i := 0 to |keys|
        invariant keys == old(keys)
        invariant forall j :: 0 <= j < i ==> keys[j].id != id
      {
        if keys[i].id == id {
          if keys[i].retired.None? {
            AsKeysUpdate(keys, i, keys[i].(retired := Some(at)));
            keys := keys[i := keys[i].(retired := Some(at))];
          }
          return true;
        }
      }
      found := false;
    }

    method DeleteKey(id: KeyId)
      requires Valid()
      modifies this
      ensures Valid() && Contents() == Delete(old(Contents()), id) == old(Contents()) - {id}
    {
      var kept: seq<StoredKey> := [];
      for i := 0 to |keys|
        invariant keys == old(keys)
        invariant kept == Without(keys[..i], id)
      {
        assert keys[..i + 1][..i] == keys[..i];
        if keys[i].id != id {
          kept := kept + [keys[i]];
        }
      }
      assert keys[..|keys|] == keys;
      AsKeysWithout(keys, id);
      keys := kept;
    }
  }

  /** A single pass keeps the best key so far, in the order of signing. */
  method NewestOf(keys: seq<StoredKey>) returns (best: Option<StoredKey>)
    requires Distinct(keys)
    ensures best.None? <==> Newest(AsKeys(keys)).None?
    ensures best.Some? ==> best.value in keys && Newest(AsKeys(keys)) == Some(best.value.id)
  {
    best := None;
    for i := 0 to |keys|
      invariant best.None? ==> forall j :: 0 <= j < i ==> keys[j].retired.Some?
      invariant best.Some? ==> best.value in keys[..i] && best.value.retired.None?
      invariant best.Some? ==> forall j :: 0 <= j < i && keys[j].retired.None? && keys[j] != best.value ==>
        keys[j].at < best.value.at || (keys[j].at == best.value.at && keys[j].id < best.value.id)
    {
      var k := keys[i];
      if k.retired.None? {
        if best.None? || k.at > best.value.at || (k.at == best.value.at && k.id > best.value.id) {
          best := Some(k);
        }
      }
    }
    if best.Some? {
      NewestIsUnique(AsKeys(keys), best.value.id);
    }
  }

  /** The stored keys once the upkeep (or a first load) has added the key it needs. */
  ghost function Stocked(store: Keys, needed: bool, newId: KeyId, now: Time): Keys {
    if needed then Add(store, newId, now) else store
  }

  /** The upkeep leaves the newest key of its snapshot signing. */
  lemma UpkeepKeepsNewest(store: Keys, start: Time, grace: Time, done: set<KeyId>, cur: KeyId)
    requires Newest(store) == Some(cur)
    ensures Newest(Upkept(store, store, cur, start, grace, done)) == Some(cur)
  {
    var after := Upkept(store, store, cur, start, grace, done);
    forall k: KeyId | Active(after, k) && k != cur ensures Older(after[k], k, after[cur], cur) {
      assert Active(store, k);
    }
    NewestIsUnique(after, cur);
  }

  /** No key signs, or the one that does has signed for the rotation. */
  ghost predicate Due(keys: Keys, now: Time, rotation: Time) {
    (forall k :: !Active(keys, k)) || (rotation > 0 && exists b :: IsNewest(keys, b) && now - keys[b].at >= rotation)
  }

  /**
   What a whole upkeep makes of the keys `was`: a new one exactly when forced or due, one key signing that is
   younger than the rotation, the others retired now or as they were, and gone exactly once retired for the
   grace.
   */
  ghost predicate Rotated(was: Keys, left: Keys, newId: KeyId, force: bool, now: Time, rotation: Time, grace: Time) {
    && (newId in left <==> force || Due(was, now, rotation))
    && (newId in left ==> left[newId].at == now)
    && (exists b :: Active(left, b) && (rotation > 0 ==> now - left[b].at < rotation) && (force ==> left[b].at >= now)
                    && (forall k :: Active(left, k) ==> k == b)
                    && forall k :: Active(was, k) && k != b ==> Older(was[k], k, left[b], b))
    && (forall k :: k in left && k != newId ==>
          k in was && left[k].at == was[k].at && (left[k].retired == was[k].retired || (was[k].retired, left[k].retired) == (None, Some(now))))
    && (forall k :: k in was ==> (k !in left <==> was[k].retired.Some? && now - was[k].retired.value >= grace))
  }

  lemma UpkeepRotates(was: Keys, newId: KeyId, force: bool, now: Time, rotation: Time, grace: Time)
    requires newId !in was
    ensures var stocked := Stocked(was, NeedsKey(was, force, now, rotation), newId, now);
            && Newest(stocked).Some?
            && Rotated(was, Upkept(stocked, stocked, Newest(stocked).value, now, grace, stocked.Keys), newId, force, now, rotation, grace)
  {
    var needed := NeedsKey(was, force, now, rotation);
    NeededIsDue(was, force, now, rotation);
    var stocked := Stocked(was, needed, newId, now);
    if needed {
      assert Active(stocked, newId);
    }
    var cur := Newest(stocked).value;
    assert IsNewest(stocked, cur);
    hide NeedsKey, Due, Newest;
    var left := Upkept(stocked, stocked, cur, now, grace, stocked.Keys);
    assert Active(left, cur) && left[cur].at == stocked[cur].at;
    assert forall k :: Active(was, k) ==> Active(stocked, k) && stocked[k] == was[k];
    assert forall k :: Active(left, k) ==> k == cur;
  }

  lemma NeededIsDue(was: Keys, force: bool, now: Time, rotation: Time)
    ensures NeedsKey(was, force, now, rotation) <==> force || Due(was, now, rotation)
    ensures !NeedsKey(was, force, now, rotation) ==>
      Newest(was).Some? && (rotation > 0 ==> now - was[Newest(was).value].at < rotation)
  {
    if b :| IsNewest(was, b) {
      NewestIsUnique(was, b);
    }
  }

  /** One replica: the shared store and its cache of the keys. */
  class Replica {
    const store: KeyStore
    const rotation: Time
    const grace: Time
    var keys: seq<StoredKey>
    var keysAt: Option<Time>

    ghost predicate Valid() reads this, store {
      store.Valid() && Distinct(keys)
    }

    constructor (store: KeyStore, rotation: Time, grace: Time)
      requires store.Valid()
      ensures Valid() && this.store == store && this.rotation == rotation && this.grace == grace
      ensures keys == [] && keysAt == None
    {
      this.store, this.rotation, this.grace := store, rotation, grace;
      keys, keysAt := [], None;
    }

    /** What is stored goes into the cache; a first key is made here if need be. */
    method LoadKeys(now: Time, newId: KeyId)
      requires Valid() && newId !in store.Contents()
      modifies this, store
      ensures Valid()
      ensures store.Contents() == Stocked(old(store.Contents()), Newest(old(store.Contents())).None?, newId, now)
      ensures var was, left := old(store.Contents()), store.Contents();
              && (newId in left <==> forall k :: !Active(was, k)) && (newId in left ==> left[newId] == Key(now, None))
              && left - {newId} == was
      ensures AsKeys(keys) == store.Contents() && Newest(AsKeys(keys)).Some? && keysAt == Some(now)
    {
      var read := store.keys;
      var newest := NewestOf(read);
      if newest.None? {
        store.AddKey(StoredKey(newId, now, None));
        read := store.keys;
        assert Active(store.Contents(), newId);
      }
      keys, keysAt := read, Some(now);
    }

    /** For one caller at a time: the cache, or what the store holds once KEY_REFRESH has passed. */
    method CurrentKeys(now: Time, newId: KeyId) returns (r: seq<StoredKey>)
      requires Valid() && newId !in store.Contents()
      modifies this, store
      ensures Valid() && r == keys
      ensures old(keysAt).Some? && now - old(keysAt).value < KEY_REFRESH ==>
        keys == old(keys) && keysAt == old(keysAt) && store.keys == old(store.keys)
      ensures old(keysAt).None? || now - old(keysAt).value >= KEY_REFRESH ==>
        keysAt == Some(now) && AsKeys(r) == store.Contents() && Newest(AsKeys(r)).Some?
        && store.Contents() == Stocked(old(store.Contents()), Newest(old(store.Contents())).None?, newId, now)
    {
      r := keys;
      var stale := keysAt.None? || now - keysAt.value >= KEY_REFRESH;
      if stale {
        keysAt := Some(now);
        LoadKeys(now, newId);
        r := keys;
      }
    }

    /** Upkeep: add a key when one is needed, retire the others, delete those past the grace, reload. */
    method RotateKeys(force: bool, now: Time, newId: KeyId, spare: KeyId)
      requires Valid() && newId !in store.Contents() && spare !in store.Contents() && spare != newId
      modifies this, store
      ensures Valid()
      ensures var was := old(store.Contents());
              var stocked := Stocked(was, NeedsKey(was, force, now, rotation), newId, now);
              && Newest(stocked).Some?
              && store.Contents() == Upkept(stocked, stocked, Newest(stocked).value, now, grace, stocked.Keys)
              && Newest(store.Contents()) == Newest(stocked)
      ensures Rotated(old(store.Contents()), store.Contents(), newId, force, now, rotation, grace)
      ensures AsKeys(keys) == store.Contents() && keysAt == Some(now)
    {
      hide Upkept, Rotated, Due, IsNewest, Older;
      ghost var was := store.Contents();
      var read := store.keys;
      var cur := NewestOf(read);
      if force || cur.None? || (rotation > 0 && now - cur.value.at >= rotation) {
        store.AddKey(StoredKey(newId, now, None));
        read := store.keys;
        assert Active(store.Contents(), newId);
        cur := NewestOf(read);
      }
      assert AsKeys(read) == Stocked(was, NeedsKey(was, force, now, rotation), newId, now);
      assert Newest(AsKeys(read)) == Some(cur.value.id);
      hide NeedsKey, Stocked, Newest, Active;
      RetireAndDelete(read, cur.value, now);
      UpkeepRotates(was, newId, force, now, rotation, grace);
      UpkeepKeepsNewest(AsKeys(read), now, grace, AsKeys(read).Keys, cur.value.id);
      UpkeptAddsNone(AsKeys(read), AsKeys(read), cur.value.id, now, grace, AsKeys(read).Keys);
      LoadKeys(now, spare);
    }

    /** The upkeep's loop, over keys read earlier: other replicas may have changed the store since. */
    method RetireAndDelete(read: seq<StoredKey>, cur: StoredKey, now: Time)
      requires Valid() && Distinct(read)
      modifies store
      ensures Valid()
      ensures store.Contents() == Upkept(old(store.Contents()), AsKeys(read), cur.id, now, grace, AsKeys(read).Keys)
    {
      hide Upkept;
      ghost var was, snap := store.Contents(), AsKeys(read);
      ghost var done := {};
      UpkeptNone(was, snap, cur.id, now, grace);
      for i := 0 to |read|
        invariant store.Valid()
        invariant done == set j | 0 <= j < i :: read[j].id
        invariant store.Contents() == Upkept(was, snap, cur.id, now, grace, done)
      {
        var k := read[i];
        assert k.id in snap && snap[k.id] == Key(k.at, k.retired);
        UpkeepInAnyOrder(was, snap, cur.id, now, grace, done, k.id);
        done := done + {k.id};
        if k.retired.None? && k.id != cur.id {
          var _ := store.RetireKey(k.id, now);
        } else if k.retired.Some? && now - k.retired.value >= grace {
          store.DeleteKey(k.id);
        }
      }
      assert done == snap.Keys;
    }

    method SigningKey(now: Time, newId: KeyId) returns (key: Option<StoredKey>)
      requires Valid() && newId !in store.Contents()
      modifies this, store
      ensures Valid()
      ensures key.None? <==> Newest(AsKeys(keys)).None?
      ensures key.Some? ==> key.value in keys && Newest(AsKeys(keys)) == Some(key.value.id)
      ensures old(keysAt).None? || now - old(keysAt).value >= KEY_REFRESH ==>
        key.Some? && Newest(store.Contents()) == Some(key.value.id)
    {
      var read := CurrentKeys(now, newId);
      key := NewestOf(read);
    }
  }
}
