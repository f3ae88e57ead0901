/**
 The OAuth provider's records and what each store verb does to them, as values
 (oauthstore.go, store/memory/oauth.go, store/gormstore/oauth.go).
 */
module OAuthRecords {
  import opened Basics

  type Id = string
  type Scopes = seq<string>

  datatype Client = Client(dynamic: bool, mayRefresh: bool, createdAt: Time, lastUsedAt: Option<Time>) {
    /** When the client was last used; its registration if it never was. */
    function LastUse(): Time {
      if lastUsedAt.Some? then lastUsedAt.value else createdAt
    }
  }

  /** A request on its way to a grant. No code has been issued while `codeHash` is "". */
  datatype Request = Request(
    client: Id, scopes: Scopes, resources: seq<string>, subject: string, ref: string,
    endsAt: Option<Time>, authTime: Option<Time>, done: bool, codeHash: string, codeAt: Option<Time>, createdAt: Time)

  datatype Grant = Grant(
    client: Id, subject: string, scopes: Scopes, resources: seq<string>, ref: string,
    authTime: Option<Time>, createdAt: Time, endsAt: Option<Time>, revokedAt: Option<Time>)

  datatype Access = Access(grant: Id, client: Id, subject: string, scopes: Scopes, expiresAt: Time, createdAt: Time)

  datatype Refresh = Refresh(
    grant: Id, client: Id, subject: string, scopes: Scopes, expiresAt: Time, createdAt: Time, usedAt: Option<Time>)

  datatype Db = Db(
    clients: map<Id, Client>,
    requests: map<Id, Request>,
    grants: map<Id, Grant>,
    access: map<Id, Access>,
    refresh: map<Id, Refresh>)

  const EMPTY_DB: Db := Db(map[], map[], map[], map[], map[])

  /** Selects grants to revoke: every field that is set must match, and one must be set. */
  datatype GrantFilter = GrantFilter(id: Id, ref: string, client: Id, subject: string) {
    predicate Empty() {
      id == "" && ref == "" && client == "" && subject == ""
    }

    predicate Selects(gid: Id, g: Grant) {
      && !Empty()
      && g.revokedAt.None?
      && (id != "" ==> gid == id) && (ref != "" ==> g.ref == ref)
      && (client != "" ==> g.client == client) && (subject != "" ==> g.subject == subject)
    }
  }

  /** What a filter is for: it has a field set, and agrees with the grant in each that is. */
  predicate Names(f: GrantFilter, gid: Id, g: Grant) {
    && (f.id, f.ref, f.client, f.subject) != ("", "", "", "")
    && f.id in {"", gid} && f.ref in {"", g.ref} && f.client in {"", g.client} && f.subject in {"", g.subject}
  }

  // --- the verbs ---

  function TouchClient(db: Db, id: Id, at: Time): Db {
    if id in db.clients then db.(clients := db.clients[id := db.clients[id].(lastUsedAt := Some(at))]) else db
  }

  function SaveRequest(db: Db, id: Id, r: Request): Db {
    db.(requests := db.requests[id := r])
  }

  function DeleteRequest(db: Db, id: Id): Db {
    db.(requests := db.requests - {id})
  }

  function RevokeGrants(db: Db, f: GrantFilter, at: Time): Db {
    db.(grants := map id | id in db.grants ::
      if f.Selects(id, db.grants[id]) then db.grants[id].(revokedAt := Some(at)) else db.grants[id])
  }

  function MarkUsed(db: Db, h: Id, at: Time): Db {
    if h in db.refresh && db.refresh[h].usedAt.None?
    then db.(refresh := db.refresh[h := db.refresh[h].(usedAt := Some(at))]) else db
  }

  // --- clean-up ---

  /** The grants of these ids go, with their tokens. */
  function DropGrants(db: Db, ids: set<Id>): Db {
    db.(grants := db.grants - ids,
        access := map k | k in db.access && db.access[k].grant !in ids :: db.access[k],
        refresh := map k | k in db.refresh && db.refresh[k].grant !in ids :: db.refresh[k])
  }

  function GrantsOf(db: Db, clients: set<Id>): set<Id> {
    set g | g in db.grants && db.grants[g].client in clients
  }

  /** The clients of these ids go as the memory store drops them: with their requests, their grants
      and the tokens of those, and every other token naming them. */
  function DropClients(db: Db, ids: set<Id>): Db {
    var gs := GrantsOf(db, ids);
    Db(db.clients - ids,
       map k | k in db.requests && db.requests[k].client !in ids :: db.requests[k],
       db.grants - gs,
       map k | k in db.access && db.access[k].client !in ids && db.access[k].grant !in gs :: db.access[k],
       map k | k in db.refresh && db.refresh[k].client !in ids && db.refresh[k].grant !in gs :: db.refresh[k])
  }

  /** The same as the relational store's subquery deletes have it: every table by its client column. */
  function DeleteWhereClientIn(db: Db, ids: set<Id>): Db {
    Db(db.clients - ids,
       map k | k in db.requests && db.requests[k].client !in ids :: db.requests[k],
       db.grants - GrantsOf(db, ids),
       map k | k in db.access && db.access[k].client !in ids :: db.access[k],
       map k | k in db.refresh && db.refresh[k].client !in ids :: db.refresh[k])
  }

  /** Requests and tokens past their time. */
  function DropExpired(db: Db, now: Time, requestsBefore: Time): Db {
    db.(requests := map k | k in db.requests && !(db.requests[k].createdAt < requestsBefore) :: db.requests[k],
        access := map k | k in db.access && !(db.access[k].expiresAt < now) :: db.access[k],
        refresh := map k | k in db.refresh && !(db.refresh[k].expiresAt < now) :: db.refresh[k])
  }

  /** A grant revoked, or ended, before `now`. */
  predicate Dead(g: Grant, now: Time) {
    (g.revokedAt.Some? && g.revokedAt.value < now) || (g.endsAt.Some? && g.endsAt.value < now)
  }

  function DeadGrants(db: Db, now: Time): set<Id> {
    set g | g in db.grants && Dead(db.grants[g], now)
  }

  /** A dynamic client not used since `before`. */
  predicate Stale(c: Client, before: Time) {
    c.dynamic && c.LastUse() < before
  }

  function StaleClients(db: Db, before: Time): set<Id> {
    set c | c in db.clients && Stale(db.clients[c], before)
  }

  /** DeleteExpiredOAuth of the memory store. */
  function CleanUp(db: Db, now: Time, requestsBefore: Time, clientsBefore: Time): Db {
    var db1 := DropExpired(db, now, requestsBefore);
    var db2 := DropGrants(db1, DeadGrants(db1, now));
    DropClients(db2, StaleClients(db2, clientsBefore))
  }

  /** DeleteExpiredOAuth of the relational store. */
  function CleanUpRelational(db: Db, now: Time, requestsBefore: Time, clientsBefore: Time): Db {
    var db1 := DropExpired(db, now, requestsBefore);
    var db2 := DropGrants(db1, DeadGrants(db1, now));
    DeleteWhereClientIn(db2, StaleClients(db2, clientsBefore))
  }

  lemma DropGrantsTwice(db: Db, a: set<Id>, b: set<Id>)
    ensures DropGrants(DropGrants(db, a), b) == DropGrants(db, a + b)
  {
    var one, two := DropGrants(db, a + b), DropGrants(DropGrants(db, a), b);
    assert two.grants == one.grants && two.access == one.access && two.refresh == one.refresh;
  }

  lemma DropClientsTwice(db: Db, a: set<Id>, b: set<Id>)
    ensures DropClients(DropClients(db, a), b) == DropClients(db, a + b)
  {
    var one, two := DropClients(db, a + b), DropClients(DropClients(db, a), b);
    assert two.clients == one.clients && two.requests == one.requests && two.grants == one.grants;
    assert two.access == one.access && two.refresh == one.refresh;
  }

  lemma DropNothing(db: Db)
    ensures DropGrants(db, {}) == db && DropClients(db, {}) == db
  {
    assert DropGrants(db, {}).access == db.access && DropGrants(db, {}).refresh == db.refresh;
    var d := DropClients(db, {});
    assert d.requests == db.requests && d.grants == db.grants && d.access == db.access && d.refresh == db.refresh;
  }
}
