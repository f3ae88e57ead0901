/**
 What each other call on the identity store changes, and what it leaves alone: who has which credential, who
 is in which organization and group (store/memory/memory.go, store/memory/directory.go, store/memory/orgs.go).
 */
module IdentityEffects {
  import opened Basics
  import opened AsciiText
  import opened OrgRoles
  import opened IdentityRecords
  import opened IdentityRuns

  // ---- users and what is keyed to them -------------------------------------------------------------------

  /** The entries of `m'` are those of `m` that do not belong to `id`. */
  ghost predicate LosesOwner(m: map<string, Id>, m': map<string, Id>, id: Id) {
    forall k :: (k in m' <==> k in m && m[k] != id) && (k in m' ==> m'[k] == m[k])
  }

  /**
   Deleting a user takes the user and everything keyed to it, and nothing of anyone else's: every other row,
   credential, token, session, membership and place in a group stays as it was.
   */
  lemma ErasesExactly(db: Db, id: Id)
    requires id != 0
    ensures var db' := Apply(db, Erase(id)); var c, c' := db.creds, db'.creds;
            && db'.users == db.users - {id} && db'.lastUser == db.lastUser
            && c'.passwords == c.passwords - {id} && c'.totp == c.totp - {id} && c'.recovery == c.recovery - {id}
            && LosesOwner(c.passkeys, c'.passkeys, id) && LosesOwner(c.links, c'.links, id)
            && (forall t :: t in c'.tokens <==> t in c.tokens && t.owner != id)
            && db'.sessions.Keys == db.sessions.Keys
            && (forall k :: k in db.sessions ==>
                  db'.sessions[k] == if db.sessions[k].user == id then Session(id, true) else db.sessions[k])
            && db'.dir.groups == db.dir.groups && db'.dir.orgs == db.dir.orgs
            && db'.dir.memberships == db.dir.memberships - {id} && db'.dir.members.Keys == db.dir.members.Keys
            && forall o :: o in db.dir.members ==> db'.dir.members[o] == db.dir.members[o] - {id}
  {
    KeptAreOthers(db.creds.tokens, id);
  }

  /** The secret is the user's. */
  ghost predicate Has(c: Credentials, id: Id, s: Secret) {
    match s
    case Password(hash) => id in c.passwords && c.passwords[id] == hash
    case Totp(secret) => id in c.totp && c.totp[id] == secret
    case Recovery(codes) => id in c.recovery && c.recovery[id] == codes
    case Passkey(credential) => credential in c.passkeys && c.passkeys[credential] == id
    case Link(identity) => identity in c.links && c.links[identity] == id
    case Mailed(purpose, email) => Token(purpose, id, Norm(email)) in c.tokens
  }

  /** A passkey or identity that is someone's already. */
  predicate Bound(c: Credentials, s: Secret) {
    (s.Passkey? && s.credential in c.passkeys) || (s.Link? && s.identity in c.links)
  }

  /** A secret is the user's afterwards, unless it was bound; no one else gains or loses one. */
  lemma GivesExactly(db: Db, id: Id, s: Secret)
    requires id != 0
    ensures var c, c' := db.creds, Apply(db, Give(id, s)).creds;
            && (if Bound(c, s) then c' == c else Has(c', id, s))
            && (forall other, x :: other != id ==> (Has(c', other, x) <==> Has(c, other, x)))
    ensures Apply(db, Give(id, s)) == db.(creds := Apply(db, Give(id, s)).creds)
  {
    hide Norm;
  }

  /** A local user is one new row, unverified; none is made for a subject or an address that is taken. */
  lemma RegistersExactly(db: Db, sub: string, address: string, name: string)
    ensures var taken := exists i :: i in db.users && (db.users[i].sub == sub || db.users[i].email == Norm(address));
            Apply(db, Register(sub, address, name))
            == if taken then db
               else db.(users := db.users[db.lastUser + 1 := User(sub, Norm(address), name, false, false)], lastUser := db.lastUser + 1)
  {
    hide Norm;
  }

  /** The verbs on one row change that row, in that field, and nothing else. */
  lemma RowVerbsExactly(db: Db, id: Id, address: string, flag: bool)
    requires id in db.users
    ensures var taken := exists j :: j in db.users && j != id && db.users[j].email == Norm(address);
            Apply(db, ChangeEmail(id, address))
            == if taken then db else db.(users := db.users[id := db.users[id].(email := Norm(address), verified := true)])
    ensures Apply(db, MarkVerified(id, flag)) == db.(users := db.users[id := db.users[id].(verified := flag)])
    ensures Apply(db, Disable(id, flag)) == db.(users := db.users[id := db.users[id].(disabled := flag)])
  {
    hide Norm;
  }

  // ---- who is where ---------------------------------------------------------------------------------------

  /** The user's role in the organization, if it has one. */
  function RoleIn(dir: Directory, org: Id, user: Id): Option<Role> {
    if org in dir.members && user in dir.members[org] then Some(dir.members[org][user]) else None
  }

  predicate InGroup(dir: Directory, user: Id, group: Id) {
    user in dir.memberships && group in dir.memberships[user]
  }

  predicate OfOrg(dir: Directory, group: Id, org: Id) {
    group in dir.groups && dir.groups[group].org == org
  }

  /** Only the directory changed. */
  predicate OnlyDirectory(db: Db, db': Db) {
    db' == db.(dir := db'.dir)
  }

  /** Leaving an organization ends that membership and the places in its groups, and nothing else. */
  lemma LeavesExactly(db: Db, org: Id, user: Id)
    requires org != 0 && user != 0
    ensures var db' := Apply(db, Leave(org, user)); var dir, dir' := db.dir, db'.dir;
            && OnlyDirectory(db, db') && dir'.groups == dir.groups && dir'.orgs == dir.orgs
            && (forall o: Id, u: Id :: RoleIn(dir', o, u) == if o == org && u == user then None else RoleIn(dir, o, u))
            && (forall u: Id, g: Id :: InGroup(dir', u, g) <==> InGroup(dir, u, g) && !(u == user && OfOrg(dir, g, org)))
  {
  }

  /** Dropping an organization ends its memberships, its groups and the places in them, and nothing else. */
  lemma DropsOrgExactly(db: Db, org: Id)
    requires org != 0
    ensures var db' := Apply(db, DropOrg(org)); var dir, dir' := db.dir, db'.dir;
            && OnlyDirectory(db, db') && dir'.orgs == dir.orgs - {org}
            && (forall g: Id, o: Id :: OfOrg(dir', g, o) <==> OfOrg(dir, g, o) && o != org)
            && (forall g :: g in dir'.groups ==> dir'.groups[g] == dir.groups[g])
            && (forall o: Id, u: Id :: RoleIn(dir', o, u) == if o == org then None else RoleIn(dir, o, u))
            && (forall u: Id, g: Id :: InGroup(dir', u, g) <==> InGroup(dir, u, g) && !OfOrg(dir, g, org))
  {
  }

  lemma DropsGroupExactly(db: Db, group: Id)
    ensures var db' := Apply(db, DropGroup(group)); var dir, dir' := db.dir, db'.dir;
            && OnlyDirectory(db, db') && dir'.orgs == dir.orgs && dir'.groups == dir.groups - {group}
            && (forall o: Id, u: Id :: RoleIn(dir', o, u) == RoleIn(dir, o, u))
            && (forall u: Id, g: Id :: InGroup(dir', u, g) <==> InGroup(dir, u, g) && g != group)
  {
  }

  /** A user joins with this role, whatever role it had, if both exist; no one else's changes. */
  lemma JoinsExactly(db: Db, org: Id, user: Id, role: Role)
    ensures var db' := Apply(db, Join(org, user, role)); var dir, dir' := db.dir, db'.dir;
            && OnlyDirectory(db, db') && dir'.groups == dir.groups && dir'.orgs == dir.orgs && dir'.memberships == dir.memberships
            && (forall o: Id, u: Id :: RoleIn(dir', o, u)
                  == if o == org && u == user && org in dir.orgs && user in db.users then Some(role) else RoleIn(dir, o, u))
  {
  }

  lemma PlacesExactly(db: Db, user: Id, group: Id)
    requires user != 0 && group != 0
    ensures var enter, exit := Apply(db, Enter(user, group)), Apply(db, Exit(user, group));
            && OnlyDirectory(db, enter) && enter.dir == db.dir.(memberships := enter.dir.memberships)
            && OnlyDirectory(db, exit) && exit.dir == db.dir.(memberships := exit.dir.memberships)
            && (forall u: Id, g: Id :: InGroup(enter.dir, u, g) <==> InGroup(db.dir, u, g) || (u == user && g == group))
            && (forall u: Id, g: Id :: InGroup(exit.dir, u, g) <==> InGroup(db.dir, u, g) && !(u == user && g == group))
  {
  }

  /** A new organization or group has the next id and the name asked for, unless one of that name is there. */
  lemma FoundsExactly(db: Db, slug: string, org: Id, name: string)
    ensures var taken := exists o :: o in db.dir.orgs && db.dir.orgs[o] == slug;
            Apply(db, FoundOrg(slug)).dir
            == if taken then db.dir else db.dir.(orgs := db.dir.orgs[db.dir.lastOrg + 1 := slug], lastOrg := db.dir.lastOrg + 1)
    ensures var taken := exists g :: OfOrg(db.dir, g, org) && db.dir.groups[g].name == Trim(name);
            Apply(db, NewGroup(org, name)).dir
            == if taken || (org != 0 && org !in db.dir.orgs) then db.dir
               else db.dir.(groups := db.dir.groups[db.dir.lastGroup + 1 := Group(Trim(name), org)], lastGroup := db.dir.lastGroup + 1)
  {
    hide Trim;
  }
}
