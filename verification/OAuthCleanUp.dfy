/**
 What the provider accepts (oidcprovider/consent.go, oidcprovider/storage.go), and what the clean-up of
 expired records changes about it (store/memory/oauth.go:398-432, store/gormstore/oauth.go:438-467).
 */
module OAuthCleanUp {
  import opened Basics
  import opened OAuthRecords

  /** How long a request may wait for its code to be exchanged, and how long the code. */
  const AUTH_REQUEST_TTL: Time := 10 * MINUTE
  const CODE_TTL: Time := MINUTE

  // --- what is accepted ---

  predicate Ended(g: Grant, now: Time) {
    g.endsAt.Some? && now > g.endsAt.value
  }

  /** A request still within its time. */
  function LiveRequest(db: Db, id: Id, now: Time): Option<Request> {
    if id in db.requests && !(now - db.requests[id].createdAt > AUTH_REQUEST_TTL) then Some(db.requests[id]) else None
  }

  /** The answer for a token that is accepted. */
  datatype Verified = Verified(
    grant: Id, client: Id, subject: string, scopes: Scopes, resources: seq<string>, ref: string, expiresAt: Time)

  /** An access token that was issued here, for this subject, has not expired, and whose grant lives. */
  function Verify(db: Db, id: Id, subject: string, now: Time): Option<Verified> {
    if id !in db.access then None
    else
      var t := db.access[id];
      if t.subject != subject || !(now < t.expiresAt) || t.grant !in db.grants then None
      else
        var g := db.grants[t.grant];
        if g.revokedAt.Some? || Ended(g, now) then None
        else Some(Verified(t.grant, t.client, subject, t.scopes, g.resources, g.ref, t.expiresAt))
  }

  /** The same, asked by one of the resources. */
  function VerifyFor(db: Db, id: Id, subject: string, resource: string, now: Time): Option<Verified> {
    var v := Verify(db, id, subject, now);
    if v.Some? && resource in v.value.resources then v else None
  }

  /** A grant that may still issue tokens, its user's standing aside. */
  predicate Live(g: Grant, now: Time) {
    g.revokedAt.None? && !Ended(g, now)
  }

  /** A refresh token that may be exchanged, its user's standing aside. */
  predicate Exchangeable(db: Db, h: Id, now: Time) {
    h in db.refresh && db.refresh[h].usedAt.None? && !(now > db.refresh[h].expiresAt)
    && db.refresh[h].grant in db.grants && Live(db.grants[db.refresh[h].grant], now)
  }

  // --- the two stores' clean-ups agree ---

  /** Tokens name the client of their grant. */
  ghost predicate Linked(db: Db) {
    && (forall k :: k in db.access && db.access[k].grant in db.grants ==>
         db.access[k].client == db.grants[db.access[k].grant].client)
    && (forall k :: k in db.refresh && db.refresh[k].grant in db.grants ==>
         db.refresh[k].client == db.grants[db.refresh[k].grant].client)
  }

  /** A token of a grant of one of `clients` names one of them. */
  ghost predicate LinkedTo(db: Db, clients: set<Id>) {
    var gs := GrantsOf(db, clients);
    && (forall k :: k in db.access && db.access[k].grant in gs ==> db.access[k].client in clients)
    && (forall k :: k in db.refresh && db.refresh[k].grant in gs ==> db.refresh[k].client in clients)
  }

  lemma DropsAgree(db: Db, ids: set<Id>)
    ensures DropClients(db, ids) == DeleteWhereClientIn(db, ids) <==> LinkedTo(db, ids)
  {
    var mem, rel := DropClients(db, ids), DeleteWhereClientIn(db, ids);
    var gs := GrantsOf(db, ids);
    if LinkedTo(db, ids) {
      assert mem.access == rel.access;
      assert mem.refresh == rel.refresh;
    }
    if mem == rel {
      forall k | k in db.access && db.access[k].grant in gs ensures db.access[k].client in ids {
        assert k !in mem.access && k !in rel.access;
      }
      forall k | k in db.refresh && db.refresh[k].grant in gs ensures db.refresh[k].client in ids {
        assert k !in mem.refresh && k !in rel.refresh;
      }
    }
  }

  /** The memory store's loops leave what the relational store's subquery deletes leave, exactly if every
      live token of a stale client's grant names a stale client. */
  lemma CleanUpsAgree(db: Db, now: Time, requestsBefore: Time, clientsBefore: Time)
    ensures var db1 := DropExpired(db, now, requestsBefore);
            var db2 := DropGrants(db1, DeadGrants(db1, now));
            CleanUp(db, now, requestsBefore, clientsBefore) == CleanUpRelational(db, now, requestsBefore, clientsBefore)
            <==> LinkedTo(db2, StaleClients(db2, clientsBefore))
  {
    var db1 := DropExpired(db, now, requestsBefore);
    var db2 := DropGrants(db1, DeadGrants(db1, now));
    hide DropClients, DeleteWhereClientIn, LinkedTo;
    DropsAgree(db2, StaleClients(db2, clientsBefore));
  }

  /** Tokens that name their grant's client are enough. */
  lemma LinkedCleanUpsAgree(db: Db, now: Time, requestsBefore: Time, clientsBefore: Time)
    requires Linked(db)
    ensures CleanUp(db, now, requestsBefore, clientsBefore) == CleanUpRelational(db, now, requestsBefore, clientsBefore)
  {
    CleanUpsAgree(db, now, requestsBefore, clientsBefore);
  }

  // --- what clean-up leaves accepted ---

  /** The client is dropped as stale, with everything issued to it. */
  predicate Dropped(db: Db, client: Id, clientsBefore: Time) {
    client in db.clients && Stale(db.clients[client], clientsBefore)
  }

  lemma CleanUpClients(db: Db, now: Time, requestsBefore: Time, clientsBefore: Time)
    ensures var db1 := DropExpired(db, now, requestsBefore);
            var db2 := DropGrants(db1, DeadGrants(db1, now));
            && db2.clients == db.clients && StaleClients(db2, clientsBefore) == StaleClients(db, clientsBefore)
            && forall c :: c in StaleClients(db, clientsBefore) <==> Dropped(db, c, clientsBefore)
  {
  }

  /** Clean-up keeps the answer of Verify for every token, unless its client or its grant's is stale. */
  lemma CleanUpKeepsVerify(db: Db, id: Id, subject: string, now: Time, requestsBefore: Time, clientsBefore: Time)
    ensures var before := Verify(db, id, subject, now);
            Verify(CleanUp(db, now, requestsBefore, clientsBefore), id, subject, now)
            == if before.Some? && (Dropped(db, before.value.client, clientsBefore)
                                   || Dropped(db, db.grants[before.value.grant].client, clientsBefore))
               then None else before
  {
    CleanUpClients(db, now, requestsBefore, clientsBefore);
  }

  /** A refresh token that may be exchanged still may, unless its client or its grant's is stale. */
  lemma CleanUpKeepsExchangeable(db: Db, h: Id, now: Time, requestsBefore: Time, clientsBefore: Time)
    ensures Exchangeable(CleanUp(db, now, requestsBefore, clientsBefore), h, now)
       <==> Exchangeable(db, h, now) && !Dropped(db, db.refresh[h].client, clientsBefore)
            && !Dropped(db, db.grants[db.refresh[h].grant].client, clientsBefore)
  {
    CleanUpClients(db, now, requestsBefore, clientsBefore);
  }

  /** A pending request stays, unless its client is stale. */
  lemma CleanUpKeepsRequests(db: Db, id: Id, now: Time, clientsBefore: Time)
    ensures var before := LiveRequest(db, id, now);
            LiveRequest(CleanUp(db, now, now - AUTH_REQUEST_TTL, clientsBefore), id, now)
            == if before.Some? && Dropped(db, before.value.client, clientsBefore) then None else before
  {
    CleanUpClients(db, now, now - AUTH_REQUEST_TTL, clientsBefore);
  }

  // --- what goes, record by record ---

  /** A dynamic client last used, or registered if it never was, before `before`. */
  predicate Lapsed(db: Db, id: Id, before: Time) {
    id in db.clients && db.clients[id].dynamic
    && match db.clients[id].lastUsedAt
       case None => db.clients[id].createdAt < before
       case Some(at) => at < before
  }

  /** A grant revoked or ended before `now`, or of a client that lapsed. */
  predicate GrantGoes(db: Db, gid: Id, now: Time, before: Time) {
    gid in db.grants
    && var g := db.grants[gid];
       (g.revokedAt.Some? && g.revokedAt.value < now) || (g.endsAt.Some? && g.endsAt.value < now) || Lapsed(db, g.client, before)
  }

  lemma CleanUpGrants(db: Db, now: Time, requestsBefore: Time, clientsBefore: Time)
    ensures var db' := CleanUp(db, now, requestsBefore, clientsBefore);
            && (forall id :: id in db'.clients <==> id in db.clients && !Lapsed(db, id, clientsBefore))
            && (forall id :: id in db'.clients ==> db'.clients[id] == db.clients[id])
            && (forall id :: id in db'.grants <==> id in db.grants && !GrantGoes(db, id, now, clientsBefore))
            && (forall id :: id in db'.grants ==> db'.grants[id] == db.grants[id])
  {
    CleanUpClients(db, now, requestsBefore, clientsBefore);
  }

  lemma CleanUpRequests(db: Db, now: Time, requestsBefore: Time, clientsBefore: Time)
    ensures var db' := CleanUp(db, now, requestsBefore, clientsBefore);
            && (forall id :: id in db'.requests <==>
                  id in db.requests && db.requests[id].createdAt >= requestsBefore && !Lapsed(db, db.requests[id].client, clientsBefore))
            && (forall id :: id in db'.requests ==> db'.requests[id] == db.requests[id])
  {
    CleanUpClients(db, now, requestsBefore, clientsBefore);
  }

  lemma CleanUpAccess(db: Db, now: Time, requestsBefore: Time, clientsBefore: Time)
    ensures var db' := CleanUp(db, now, requestsBefore, clientsBefore);
            && (forall k :: k in db'.access <==>
                  k in db.access && db.access[k].expiresAt >= now && !Lapsed(db, db.access[k].client, clientsBefore)
                  && !GrantGoes(db, db.access[k].grant, now, clientsBefore))
            && (forall k :: k in db'.access ==> db'.access[k] == db.access[k])
  {
    CleanUpClients(db, now, requestsBefore, clientsBefore);
  }

  lemma CleanUpRefresh(db: Db, now: Time, requestsBefore: Time, clientsBefore: Time)
    ensures var db' := CleanUp(db, now, requestsBefore, clientsBefore);
            && (forall h :: h in db'.refresh <==>
                  h in db.refresh && db.refresh[h].expiresAt >= now && !Lapsed(db, db.refresh[h].client, clientsBefore)
                  && !GrantGoes(db, db.refresh[h].grant, now, clientsBefore))
            && (forall h :: h in db'.refresh ==> db'.refresh[h] == db.refresh[h])
  {
    CleanUpClients(db, now, requestsBefore, clientsBefore);
  }

  /** `db'` is `db` without the clients that lapsed, requests and tokens past their time, grants that are over, and what is theirs. */
  ghost predicate KeepsExactly(db: Db, db': Db, now: Time, requestsBefore: Time, clientsBefore: Time) {
    && (forall id :: id in db'.clients <==> id in db.clients && !Lapsed(db, id, clientsBefore))
    && (forall id :: id in db'.requests <==>
          id in db.requests && db.requests[id].createdAt >= requestsBefore && !Lapsed(db, db.requests[id].client, clientsBefore))
    && (forall id :: id in db'.grants <==> id in db.grants && !GrantGoes(db, id, now, clientsBefore))
    && (forall k :: k in db'.access <==>
          k in db.access && db.access[k].expiresAt >= now && !Lapsed(db, db.access[k].client, clientsBefore)
          && !GrantGoes(db, db.access[k].grant, now, clientsBefore))
    && (forall h :: h in db'.refresh <==>
          h in db.refresh && db.refresh[h].expiresAt >= now && !Lapsed(db, db.refresh[h].client, clientsBefore)
          && !GrantGoes(db, db.refresh[h].grant, now, clientsBefore))
    && (forall id :: id in db'.clients ==> db'.clients[id] == db.clients[id])
    && (forall id :: id in db'.requests ==> db'.requests[id] == db.requests[id])
    && (forall id :: id in db'.grants ==> db'.grants[id] == db.grants[id])
    && (forall k :: k in db'.access ==> db'.access[k] == db.access[k])
    && (forall h :: h in db'.refresh ==> db'.refresh[h] == db.refresh[h])
  }

  /**
   A clean-up drops exactly the clients that lapsed, the requests past their time, the grants revoked or
   ended, the tokens past their expiry, and what is theirs. It changes nothing it keeps: a used refresh token
   in time stays, and stays used.
   */
  lemma CleanUpDropsExactly(db: Db, now: Time, requestsBefore: Time, clientsBefore: Time)
    ensures KeepsExactly(db, CleanUp(db, now, requestsBefore, clientsBefore), now, requestsBefore, clientsBefore)
  {
    hide CleanUp, Lapsed, GrantGoes;
    CleanUpGrants(db, now, requestsBefore, clientsBefore);
    CleanUpRequests(db, now, requestsBefore, clientsBefore);
    CleanUpAccess(db, now, requestsBefore, clientsBefore);
    CleanUpRefresh(db, now, requestsBefore, clientsBefore);
  }
}
