/**
 The in-memory OAuth store in its own imperative form (store/memory/oauth.go): maps changed in place
 under one lock, with loops that delete while they iterate. A Go map is visited in no particular order,
 so every loop here picks its next key arbitrarily. Each method is proved against its value in
 OAuthRecords.
 */
module OAuthStore {
  import opened Basics
  import opened OAuthRecords

  function RevokedIfNamed(f: GrantFilter, gid: Id, g: Grant, at: Time): Grant {
    if g.revokedAt.None? && Names(f, gid, g) then g.(revokedAt := Some(at)) else g
  }

  /** A revocation stamps the grants its filter names and leaves every other record as it was. */
  lemma RevokesExactly(db: Db, f: GrantFilter, at: Time)
    ensures RevokeGrants(db, f, at)
            == db.(grants := map k | k in db.grants :: RevokedIfNamed(f, k, db.grants[k], at))
  {
    assert forall k :: k in db.grants ==> RevokeGrants(db, f, at).grants[k] == RevokedIfNamed(f, k, db.grants[k], at);
  }

  function Selected(db: Db, f: GrantFilter): set<Id> {
    set id | id in db.grants && f.Selects(id, db.grants[id])
  }

  lemma EmptyFilterRevokesNothing(db: Db, f: GrantFilter, at: Time)
    requires f.Empty()
    ensures RevokeGrants(db, f, at) == db && Selected(db, f) == {}
  {
    assert RevokeGrants(db, f, at).grants == db.grants;
  }

  function RevokedExcept(db: Db, f: GrantFilter, at: Time, todo: set<Id>): map<Id, Grant> {
    map id | id in db.grants ::
      if id !in todo && f.Selects(id, db.grants[id]) then db.grants[id].(revokedAt := Some(at)) else db.grants[id]
  }

  lemma RevokedSoFar(db: Db, f: GrantFilter, at: Time)
    ensures RevokedExcept(db, f, at, db.grants.Keys) == db.grants
    ensures Selected(db, f) - db.grants.Keys == {}
    ensures RevokeGrants(db, f, at) == db.(grants := RevokedExcept(db, f, at, {}))
  {
  }

  lemma RevokeOneMore(db: Db, f: GrantFilter, at: Time, todo: set<Id>, k: Id)
    requires k in todo && todo <= db.grants.Keys
    ensures var before := RevokedExcept(db, f, at, todo);
            && k in before && before[k] == db.grants[k]
            && RevokedExcept(db, f, at, todo - {k})
               == (if f.Selects(k, db.grants[k]) then before[k := db.grants[k].(revokedAt := Some(at))] else before)
    ensures |Selected(db, f) - (todo - {k})| == |Selected(db, f) - todo| + (if f.Selects(k, db.grants[k]) then 1 else 0)
  {
    if f.Selects(k, db.grants[k]) {
      assert Selected(db, f) - (todo - {k}) == (Selected(db, f) - todo) + {k};
    } else {
      assert Selected(db, f) - (todo - {k}) == Selected(db, f) - todo;
    }
  }

  function DropRecordsOf(db: Db, id: Id): Db {
    db.(clients := db.clients - {id},
        requests := map k | k in db.requests && db.requests[k].client != id :: db.requests[k])
  }

  function DropTokensOfClient(db: Db, id: Id): Db {
    db.(access := map k | k in db.access && db.access[k].client != id :: db.access[k],
        refresh := map k | k in db.refresh && db.refresh[k].client != id :: db.refresh[k])
  }

  lemma DropClientInSteps(db: Db, id: Id)
    ensures var one := DropRecordsOf(db, id);
            DropTokensOfClient(DropGrants(one, GrantsOf(one, {id})), id) == DropClients(db, {id})
  {
    var one := DropRecordsOf(db, id);
    assert GrantsOf(one, {id}) == GrantsOf(db, {id});
    var got := DropTokensOfClient(DropGrants(one, GrantsOf(one, {id})), id);
    var want := DropClients(db, {id});
    assert got.requests == want.requests;
    assert got.access == want.access;
    assert got.refresh == want.refresh;
  }

  class MemoryStore {
    var clients: map<Id, Client>
    var requests: map<Id, Request>
    var grants: map<Id, Grant>
    var access: map<Id, Access>
    var refresh: map<Id, Refresh>

    ghost function Contents(): Db reads this {
      Db(clients, requests, grants, access, refresh)
    }

    constructor ()
      ensures Contents() == EMPTY_DB
    {
      clients, requests, grants, access, refresh := map[], map[], map[], map[], map[];
    }

    /** Adds the record, unless the id is taken. */
    method CreateGrant(id: Id, g: Grant) returns (ok: bool)
      modifies this`grants
      ensures ok == (id !in old(grants))
      ensures Contents() == if ok then old(Contents()).(grants := old(grants)[id := g]) else old(Contents())
    {
      ok := id !in grants;
      if ok { grants := grants[id := g]; }
    }

    method CreateAccess(id: Id, t: Access) returns (ok: bool)
      modifies this`access
      ensures ok == (id !in old(access))
      ensures Contents() == if ok then old(Contents()).(access := old(access)[id := t]) else old(Contents())
    {
      ok := id !in access;
      if ok { access := access[id := t]; }
    }

    method CreateRefresh(h: Id, t: Refresh) returns (ok: bool)
      modifies this`refresh
      ensures ok == (h !in old(refresh))
      ensures Contents() == if ok then old(Contents()).(refresh := old(refresh)[h := t]) else old(Contents())
    {
      ok := h !in refresh;
      if ok { refresh := refresh[h := t]; }
    }

    method Touch(id: Id, at: Time)
      modifies this`clients
      ensures Contents() == TouchClient(old(Contents()), id, at)
    {
      if id in clients {
        clients := clients[id := clients[id].(lastUsedAt := Some(at))];
      }
    }

    /** The request with this code, if any. One with no code yet never matches. */
    method FindByCode(codeHash: string) returns (id: Option<Id>)
      ensures id.Some? ==> id.value in requests && requests[id.value].codeHash == codeHash && codeHash != ""
      ensures id.None? && codeHash != "" ==> forall k :: k in requests ==> requests[k].codeHash != codeHash
    {
      if codeHash == "" { return None; }
      var todo := requests.Keys;
      while todo != {}
        invariant todo <= requests.Keys
        invariant forall k :: k in requests && k !in todo ==> requests[k].codeHash != codeHash
        decreases todo
      {
        var k :| k in todo;
        if requests[k].codeHash == codeHash { return Some(k); }
        todo := todo - {k};
      }
      id := None;
    }

    /** Revokes the grants the filter selects; reports how many. */
    method Revoke(f: GrantFilter, at: Time) returns (n: nat)
      modifies this`grants
      ensures Contents() == RevokeGrants(old(Contents()), f, at)
      ensures grants == map k | k in old(grants) :: RevokedIfNamed(f, k, old(grants)[k], at)
      ensures n == |Selected(old(Contents()), f)|
    {
      hide RevokedExcept, Selected, RevokeGrants;
      ghost var db := Contents();
      RevokesExactly(db, f, at);
      if f.Empty() {
        EmptyFilterRevokesNothing(db, f, at);
        return 0;
      }
      var todo := grants.Keys;
      n := 0;
      RevokedSoFar(db, f, at);
      while todo != {}
        invariant todo <= db.grants.Keys
        invariant grants == RevokedExcept(db, f, at, todo)
        invariant n == |Selected(db, f) - todo|
        decreases todo
      {
        var k :| k in todo;
        RevokeOneMore(db, f, at, todo, k);
        todo := todo - {k};
        var g := grants[k];
        if !(g.revokedAt.Some? || (f.id != "" && k != f.id) || (f.ref != "" && g.ref != f.ref)
             || (f.client != "" && g.client != f.client) || (f.subject != "" && g.subject != f.subject)) {
          grants := grants[k := g.(revokedAt := Some(at))];
          n := n + 1;
        }
      }
      assert Selected(db, f) - {} == Selected(db, f);
    }

    /** Marks the token used: of any number of calls exactly one finds it unused. */
    method UseRefresh(h: Id, at: Time) returns (found: bool, unused: bool)
      modifies this`refresh
      ensures found == (h in old(refresh)) && unused == (found && old(refresh)[h].usedAt.None?)
      ensures Contents() == MarkUsed(old(Contents()), h, at)
      ensures refresh == if unused then old(refresh)[h := old(refresh)[h].(usedAt := Some(at))] else old(refresh)
      ensures found ==> h in refresh && refresh[h].usedAt.Some?
    {
      found := h in refresh;
      unused := found && refresh[h].usedAt.None?;
      if unused {
        refresh := refresh[h := refresh[h].(usedAt := Some(at))];
      }
    }

    /** Drops the tokens of a grant. */
    method DropTokensOf(grant: Id)
      modifies this`access, this`refresh
      ensures access == map k | k in old(access) && old(access)[k].grant != grant :: old(access)[k]
      ensures refresh == map k | k in old(refresh) && old(refresh)[k].grant != grant :: old(refresh)[k]
    {
      var todo := access.Keys;
      while todo != {}
        invariant todo <= access.Keys && refresh == old(refresh)
        invariant access == map k | k in old(access) && (k in todo || old(access)[k].grant != grant) :: old(access)[k]
        decreases todo
      {
        var k :| k in todo;
        todo := todo - {k};
        if access[k].grant == grant { access := access - {k}; }
      }
      todo := refresh.Keys;
      while todo != {}
        invariant todo <= refresh.Keys
        invariant access == map k | k in old(access) && old(access)[k].grant != grant :: old(access)[k]
        invariant refresh == map k | k in old(refresh) && (k in todo || old(refresh)[k].grant != grant) :: old(refresh)[k]
        decreases todo
      {
        var k :| k in todo;
        todo := todo - {k};
        if refresh[k].grant == grant { refresh := refresh - {k}; }
      }
    }

    /** With its tokens. */
    method DeleteGrant(id: Id)
      modifies this`grants, this`access, this`refresh
      ensures Contents() == DropGrants(old(Contents()), {id})
    {
      grants := grants - {id};
      DropTokensOf(id);
    }

    /** Drops a client's requests. */
    method DropRequestsOf(client: Id)
      modifies this`requests
      ensures requests == map k | k in old(requests) && old(requests)[k].client != client :: old(requests)[k]
    {
      var todo := requests.Keys;
      while todo != {}
        invariant todo <= requests.Keys
        invariant requests == map k | k in old(requests) && (k in todo || old(requests)[k].client != client) :: old(requests)[k]
        decreases todo
      {
        var k :| k in todo;
        todo := todo - {k};
        if requests[k].client == client { requests := requests - {k}; }
      }
    }

    /** Drops a client's grants with their tokens. */
    method DropGrantsOf(client: Id)
      modifies this`grants, this`access, this`refresh
      ensures Contents() == DropGrants(old(Contents()), GrantsOf(old(Contents()), {client}))
    {
      ghost var was := Contents();
      var todo := grants.Keys;
      ghost var gone: set<Id> := {};
      DropNothing(was);
      while todo != {}
        invariant todo <= grants.Keys && clients == old(clients) && requests == old(requests)
        invariant gone == set g | g in was.grants && g !in todo && was.grants[g].client == client
        invariant Contents() == DropGrants(was, gone)
        decreases todo
      {
        var k :| k in todo;
        todo := todo - {k};
        if grants[k].client == client {
          DeleteGrant(k);
          DropGrantsTwice(was, gone, {k});
          gone := gone + {k};
        }
      }
      assert gone == GrantsOf(was, {client});
    }

    /** Drops the other tokens naming a client. */
    method DropTokensNaming(client: Id)
      modifies this`access, this`refresh
      ensures access == map k | k in old(access) && old(access)[k].client != client :: old(access)[k]
      ensures refresh == map k | k in old(refresh) && old(refresh)[k].client != client :: old(refresh)[k]
    {
      var todo := access.Keys;
      while todo != {}
        invariant todo <= access.Keys && refresh == old(refresh)
        invariant access == map k | k in old(access) && (k in todo || old(access)[k].client != client) :: old(access)[k]
        decreases todo
      {
        var k :| k in todo;
        todo := todo - {k};
        if access[k].client == client { access := access - {k}; }
      }
      todo := refresh.Keys;
      while todo != {}
        invariant todo <= refresh.Keys
        invariant access == map k | k in old(access) && old(access)[k].client != client :: old(access)[k]
        invariant refresh == map k | k in old(refresh) && (k in todo || old(refresh)[k].client != client) :: old(refresh)[k]
        decreases todo
      {
        var k :| k in todo;
        todo := todo - {k};
        if refresh[k].client == client { refresh := refresh - {k}; }
      }
    }

    /** With its requests, its grants and every token naming it. */
    method DeleteClient(id: Id)
      modifies this
      ensures Contents() == DropClients(old(Contents()), {id})
    {
      ghost var was := Contents();
      DropClientInSteps(was, id);
      clients := clients - {id};
      DropRequestsOf(id);
      DropGrantsOf(id);
      DropTokensNaming(id);
    }

    method DropPastRequests(before: Time)
      modifies this`requests
      ensures requests == map k | k in old(requests) && !(old(requests)[k].createdAt < before) :: old(requests)[k]
    {
      var todo := requests.Keys;
      while todo != {}
        invariant todo <= requests.Keys
        invariant requests == map k | k in old(requests) && (k in todo || !(old(requests)[k].createdAt < before)) :: old(requests)[k]
        decreases todo
      {
        var k :| k in todo;
        todo := todo - {k};
        if requests[k].createdAt < before { requests := requests - {k}; }
      }
    }

    method DropPastAccess(now: Time)
      modifies this`access
      ensures access == map k | k in old(access) && !(old(access)[k].expiresAt < now) :: old(access)[k]
    {
      var todo := access.Keys;
      while todo != {}
        invariant todo <= access.Keys
        invariant access == map k | k in old(access) && (k in todo || !(old(access)[k].expiresAt < now)) :: old(access)[k]
        decreases todo
      {
        var k :| k in todo;
        todo := todo - {k};
        if access[k].expiresAt < now { access := access - {k}; }
      }
    }

    method DropPastRefresh(now: Time)
      modifies this`refresh
      ensures refresh == map k | k in old(refresh) && !(old(refresh)[k].expiresAt < now) :: old(refresh)[k]
    {
      var todo := refresh.Keys;
      while todo != {}
        invariant todo <= refresh.Keys
        invariant refresh == map k | k in old(refresh) && (k in todo || !(old(refresh)[k].expiresAt < now)) :: old(refresh)[k]
        decreases todo
      {
        var k :| k in todo;
        todo := todo - {k};
        if refresh[k].expiresAt < now { refresh := refresh - {k}; }
      }
    }

    /** Drops dead grants with their tokens. */
    method DropDead(now: Time)
      modifies this`grants, this`access, this`refresh
      ensures Contents() == DropGrants(old(Contents()), DeadGrants(old(Contents()), now))
    {
      ghost var was := Contents();
      var todo := grants.Keys;
      ghost var gone: set<Id> := {};
      DropNothing(was);
      while todo != {}
        invariant todo <= grants.Keys && clients == old(clients) && requests == old(requests)
        invariant gone == set g | g in was.grants && g !in todo && Dead(was.grants[g], now)
        invariant Contents() == DropGrants(was, gone)
        decreases todo
      {
        var k :| k in todo;
        todo := todo - {k};
        var g := grants[k];
        if (g.revokedAt.Some? && g.revokedAt.value < now) || (g.endsAt.Some? && g.endsAt.value < now) {
          DeleteGrant(k);
          DropGrantsTwice(was, gone, {k});
          gone := gone + {k};
        }
      }
      assert gone == DeadGrants(was, now);
    }

    /** Drops dynamic clients unused for long. */
    method DropStale(before: Time)
      modifies this
      ensures Contents() == DropClients(old(Contents()), StaleClients(old(Contents()), before))
    {
      ghost var was := Contents();
      var todo := clients.Keys;
      ghost var gone: set<Id> := {};
      DropNothing(was);
      while todo != {}
        invariant todo <= clients.Keys
        invariant gone == set c | c in was.clients && c !in todo && Stale(was.clients[c], before)
        invariant Contents() == DropClients(was, gone)
        decreases todo
      {
        var k :| k in todo;
        todo := todo - {k};
        var c := clients[k];
        var last := if c.lastUsedAt.None? then c.createdAt else c.lastUsedAt.value;
        if c.dynamic && last < before {
          DeleteClient(k);
          DropClientsTwice(was, gone, {k});
          gone := gone + {k};
        }
      }
      assert gone == StaleClients(was, before);
    }

    /** Requests and tokens past their time, dead grants, and stale clients with all that is theirs. */
    method DeleteExpired(now: Time, requestsBefore: Time, clientsBefore: Time)
      modifies this
      ensures Contents() == CleanUp(old(Contents()), now, requestsBefore, clientsBefore)
    {
      DropPastRequests(requestsBefore);
      DropPastAccess(now);
      DropPastRefresh(now);
      assert Contents() == DropExpired(old(Contents()), now, requestsBefore);
      DropDead(now);
      DropStale(clientsBefore);
    }
  }
}
