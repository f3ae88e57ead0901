/**
 Signing keys as values: which key signs, and what the upkeep does to the stored keys
 (oidcprovider/keys.go, store/memory/oauth.go).
 */
module SigningKeys {
  import opened Basics

  /** A key id. The source's ids are random strings compared with `>`; only their order matters. */
  type KeyId = nat

  /** A key as other code sees it: when it was created and, once it no longer signs, since when. */
  datatype Key = Key(at: Time, retired: Option<Time>)

  type Keys = map<KeyId, Key>

  const KEY_REFRESH: Time := 5 * MINUTE
  const KEY_SKEW: Time := 5 * MINUTE
  const ID_TOKEN_TTL: Time := HOUR

  /** The order of signing: by creation time, then by id. */
  predicate Older(a: Key, i: KeyId, b: Key, j: KeyId) {
    a.at < b.at || (a.at == b.at && i < j)
  }

  predicate Active(keys: Keys, id: KeyId) {
    id in keys && keys[id].retired.None?
  }

  /** `id` signs: it is active and every other active key is older. */
  ghost predicate IsNewest(keys: Keys, id: KeyId) {
    Active(keys, id) &&
    forall k :: Active(keys, k) && k != id ==> Older(keys[k], k, keys[id], id)
  }

  /** `b` is the youngest of `ids`. */
  ghost predicate IsYoungest(keys: Keys, ids: set<KeyId>, b: KeyId)
    requires ids <= keys.Keys
  {
    b in ids && forall k :: k in ids && k != b ==> Older(keys[k], k, keys[b], b)
  }

  lemma {:induction false} SomeKeyIsYoungest(keys: Keys, ids: set<KeyId>) returns (b: KeyId)
    requires ids <= keys.Keys && ids != {}
    ensures IsYoungest(keys, ids, b)
    decreases ids
  {
    var a :| a in ids;
    var rest := ids - {a};
    assert ids == rest + {a};
    if rest == {} {
      b := a;
    } else {
      var y := SomeKeyIsYoungest(keys, rest);
      b := if Older(keys[a], a, keys[y], y) then y else a;
    }
  }

  lemma SomeKeyIsNewest(keys: Keys)
    requires exists k :: Active(keys, k)
    ensures exists b :: IsNewest(keys, b)
  {
    var ids := set k | k in keys && Active(keys, k);
    var k :| Active(keys, k);
    assert k in ids;
    var b := SomeKeyIsYoungest(keys, ids);
    assert IsNewest(keys, b);
  }

  /** The key that signs, if any. */
  ghost function Newest(keys: Keys): (r: Option<KeyId>)
    ensures r.Some? ==> IsNewest(keys, r.value)
    ensures r.None? <==> forall k :: !Active(keys, k)
  {
    if exists k :: Active(keys, k) then
      SomeKeyIsNewest(keys);
      var b :| IsNewest(keys, b);
      Some(b)
    else None
  }

  lemma NewestIsUnique(keys: Keys, id: KeyId)
    requires IsNewest(keys, id)
    ensures Newest(keys) == Some(id)
  {
    var r := Newest(keys);
    assert Active(keys, id);
  }

  // --- the stored keys ---

  function Add(store: Keys, id: KeyId, at: Time): Keys {
    store[id := Key(at, None)]
  }

  /** Only an active key is stamped. */
  function Retire(store: Keys, id: KeyId, at: Time): Keys {
    if Active(store, id) then store[id := store[id].(retired := Some(at))] else store
  }

  function Delete(store: Keys, id: KeyId): Keys {
    store - {id}
  }

  // --- upkeep ---

  /** Whether the upkeep adds a key: forced, none signs, or the signing one is due. */
  ghost predicate NeedsKey(keys: Keys, force: bool, start: Time, rotation: Time) {
    force || Newest(keys).None? ||
    (rotation > 0 && start - keys[Newest(keys).value].at >= rotation)
  }

  /** A key the upkeep retires: signing in the snapshot it read, but not the newest there. */
  predicate Retires(snap: Keys, cur: KeyId, id: KeyId) {
    Active(snap, id) && id != cur
  }

  /** A key the upkeep deletes: retired, in the snapshot it read, for the grace or longer. */
  predicate Deletes(snap: Keys, start: Time, grace: Time, id: KeyId) {
    id in snap && snap[id].retired.Some? && start - snap[id].retired.value >= grace
  }

  /** What one iteration of the upkeep loop, for key `id` of the snapshot, does to the store. */
  function UpkeepOne(store: Keys, snap: Keys, cur: KeyId, start: Time, grace: Time, id: KeyId): Keys {
    if Retires(snap, cur, id) then Retire(store, id, start)
    else if Deletes(snap, start, grace, id) then Delete(store, id)
    else store
  }

  /** The store after the iterations for the keys in `done`, whatever their order. */
  function Upkept(store: Keys, snap: Keys, cur: KeyId, start: Time, grace: Time, done: set<KeyId>): Keys {
    map id | id in store && !(id in done && Deletes(snap, start, grace, id)) ::
      if id in done && Retires(snap, cur, id) && store[id].retired.None? then
        store[id].(retired := Some(start))
      else store[id]
  }

  lemma UpkeptNone(store: Keys, snap: Keys, cur: KeyId, start: Time, grace: Time)
    ensures Upkept(store, snap, cur, start, grace, {}) == store
  {
  }

  lemma UpkeptAddsNone(store: Keys, snap: Keys, cur: KeyId, start: Time, grace: Time, done: set<KeyId>)
    ensures Upkept(store, snap, cur, start, grace, done).Keys <= store.Keys
  {
  }

  /** The loop may visit the snapshot in any order: its result depends only on the keys visited. */
  lemma UpkeepInAnyOrder(store: Keys, snap: Keys, cur: KeyId, start: Time, grace: Time, done: set<KeyId>, id: KeyId)
    ensures UpkeepOne(Upkept(store, snap, cur, start, grace, done), snap, cur, start, grace, id)
         == Upkept(store, snap, cur, start, grace, done + {id})
  {
    var before := Upkept(store, snap, cur, start, grace, done);
    var after := Upkept(store, snap, cur, start, grace, done + {id});
    var step := UpkeepOne(before, snap, cur, start, grace, id);
    assert step.Keys == after.Keys;
    assert forall k :: k in step ==> step[k] == after[k];
  }
}
