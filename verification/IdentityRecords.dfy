/**
 Users, credentials, groups and organizations of the in-memory store, and what each verb does to them,
 as values (store/memory/memory.go, store/memory/directory.go, store/memory/orgs.go).
 */
module IdentityRecords {
  import opened Basics
  import opened AsciiText
  import opened OrgRoles

  /**
   Ids are the numeric keys behind the decimal strings. No id string parses to 0: verbs given one do
   nothing, and 0 stands for "no user" on a token and "no organization" on a group.
   */
  type Id = nat

  datatype User = User(sub: string, email: string, name: string, verified: bool, disabled: bool)

  type Users = map<Id, User>

  datatype Token = Token(purpose: string, owner: Id, email: string)

  /** What can be keyed to a user id. */
  datatype Credentials = Credentials(
    passwords: map<Id, string>,
    totp: map<Id, string>,
    recovery: map<Id, set<string>>,
    passkeys: map<string, Id>,
    links: map<string, Id>,
    tokens: seq<Token>)

  datatype Session = Session(user: Id, revoked: bool)

  datatype Group = Group(name: string, org: Id)

  datatype Directory = Directory(
    groups: map<Id, Group>,
    lastGroup: nat,
    memberships: map<Id, set<Id>>,
    orgs: map<Id, string>,
    lastOrg: nat,
    members: map<Id, map<Id, Role>>)

  datatype Db = Db(users: Users, lastUser: nat, creds: Credentials, sessions: map<string, Session>, dir: Directory)

  const EMPTY_DB: Db :=
    Db(map[], 0, Credentials(map[], map[], map[], map[], map[], []), map[], Directory(map[], 0, map[], map[], 0, map[]))

  /** How addresses are compared. */
  function Norm(email: string): string {
    Lower(Trim(email))
  }

  lemma NormTwice(email: string)
    ensures Norm(Norm(email)) == Norm(email)
  {
    var t := Trim(email);
    TrimTrims(email);
    TrimTrims(Lower(t));
    LowerTwice(t);
  }

  // ---- users -----------------------------------------------------------------------------------------

  /** One user per address and per subject. */
  ghost predicate Unique(users: Users) {
    && (forall i, j :: i in users && j in users && users[i].email == users[j].email ==> i == j)
    && (forall i, j :: i in users && j in users && users[i].sub == users[j].sub ==> i == j)
  }

  ghost function ByEmail(users: Users, email: string): (r: Option<Id>)
    ensures r.Some? ==> r.value in users && users[r.value].email == email
    ensures r.None? ==> forall i :: i in users ==> users[i].email != email
  {
    if exists i :: i in users && users[i].email == email then
      var i :| i in users && users[i].email == email;
      Some(i)
    else None
  }

  ghost function BySub(users: Users, sub: string): (r: Option<Id>)
    ensures r.Some? ==> r.value in users && users[r.value].sub == sub
    ensures r.None? ==> forall i :: i in users ==> users[i].sub != sub
  {
    if exists i :: i in users && users[i].sub == sub then
      var i :| i in users && users[i].sub == sub;
      Some(i)
    else None
  }

  function Without<V>(m: map<Id, map<Id, V>>, id: Id): map<Id, map<Id, V>> {
    map k | k in m :: m[k] - {id}
  }

  function Kept(tokens: seq<Token>, id: Id): seq<Token> {
    if tokens == [] then []
    else Kept(tokens[..|tokens| - 1], id) + if tokens[|tokens| - 1].owner != id then [tokens[|tokens| - 1]] else []
  }

  function Unkeyed(c: Credentials, id: Id): Credentials {
    Credentials(
      c.passwords - {id}, c.totp - {id}, c.recovery - {id},
      map k | k in c.passkeys && c.passkeys[k] != id :: c.passkeys[k],
      map k | k in c.links && c.links[k] != id :: c.links[k],
      Kept(c.tokens, id))
  }

  /** Sessions are marked, not deleted: an unknown session would no longer be known as revoked. */
  function Tombstoned(sessions: map<string, Session>, id: Id): map<string, Session> {
    map k | k in sessions :: if sessions[k].user == id then sessions[k].(revoked := true) else sessions[k]
  }

  function Forgotten(dir: Directory, id: Id): Directory {
    dir.(memberships := dir.memberships - {id}, members := Without(dir.members, id))
  }

  /** The user and everything keyed to it. */
  function Cascade(db: Db, id: Id): Db {
    Db(db.users - {id}, db.lastUser, Unkeyed(db.creds, id), Tombstoned(db.sessions, id), Forgotten(db.dir, id))
  }

  function DeleteUser(db: Db, id: Id): Db {
    if id == 0 then db else Cascade(db, id)
  }

  function Insert(db: Db, u: User): Db {
    db.(users := db.users[db.lastUser + 1 := u], lastUser := db.lastUser + 1)
  }

  predicate Bootstrap(u: User) {
    "bootstrap:" <= u.sub
  }

  /** The account-linking rule for a login; None when it is refused. */
  ghost function Login(db: Db, sub: string, address: string, name: string, verified: bool): (Db, Option<Id>) {
    var email := Norm(address);
    match BySub(db.users, sub)
    case Some(i) =>
      var u := db.users[i];
      if email != u.email && ByEmail(db.users, email).Some? then (db, None)
      else (db.(users := db.users[i := User(sub, email, name, u.verified || verified, u.disabled)]), Some(i))
    case None =>
      match ByEmail(db.users, email)
      case Some(i) =>
        var u := db.users[i];
        if Bootstrap(u) || u.verified then
          if !Bootstrap(u) && !verified then (db, None)
          else (db.(users := db.users[i := User(sub, email, name, u.verified || verified, u.disabled)]), Some(i))
        else if !verified then (db, None)
        else (Insert(Cascade(db, i), User(sub, email, name, true, false)), Some(db.lastUser + 1))
      case None => (Insert(db, User(sub, email, name, verified, false)), Some(db.lastUser + 1))
  }

  ghost function CreateLocal(db: Db, sub: string, address: string, name: string): Db {
    if ByEmail(db.users, Norm(address)).Some? then db
    else Insert(db, User(sub, Norm(address), name, false, false))
  }

  ghost function SetEmail(db: Db, id: Id, address: string): Db {
    var email := Norm(address);
    if (exists i :: i in db.users && db.users[i].email == email && i != id) || id !in db.users then db
    else db.(users := db.users[id := db.users[id].(email := email, verified := true)])
  }

  function SetVerified(db: Db, id: Id, verified: bool): Db {
    if id in db.users then db.(users := db.users[id := db.users[id].(verified := verified)]) else db
  }

  function SetDisabled(db: Db, id: Id, disabled: bool): Db {
    if id in db.users then db.(users := db.users[id := db.users[id].(disabled := disabled)]) else db
  }

  // ---- credentials: none of the setters asks whether the user exists -----------------------------------

  datatype Secret =
    | Password(hash: string)
    | Totp(secret: string)
    | Recovery(codes: set<string>)
    | Passkey(credential: string)
    | Link(identity: string)
    | Mailed(purpose: string, email: string)

  function Attach(c: Credentials, id: Id, s: Secret): Credentials {
    if id == 0 && !s.Mailed? then c
    else
      match s
      case Password(hash) => c.(passwords := c.passwords[id := hash])
      case Totp(secret) => c.(totp := c.totp[id := secret])
      case Recovery(codes) => c.(recovery := c.recovery[id := codes])
      case Passkey(credential) => if credential in c.passkeys then c else c.(passkeys := c.passkeys[credential := id])
      case Link(identity) => if identity in c.links then c else c.(links := c.links[identity := id])
      case Mailed(purpose, email) => c.(tokens := c.tokens + [Token(purpose, id, Norm(email))])
  }

  ghost predicate Keyed(c: Credentials, id: Id) {
    || id in c.passwords || id in c.totp || id in c.recovery
    || (exists k :: k in c.passkeys && c.passkeys[k] == id)
    || (exists k :: k in c.links && c.links[k] == id)
    || (exists t :: t in c.tokens && t.owner == id)
  }

  // ---- organizations and groups ----------------------------------------------------------------------------

  function MembersOf(dir: Directory, org: Id): map<Id, Role> {
    if org in dir.members then dir.members[org] else map[]
  }

  function GroupsOf(dir: Directory, user: Id): set<Id> {
    if user in dir.memberships then dir.memberships[user] else {}
  }

  predicate IsMember(dir: Directory, org: Id, user: Id) {
    user in MembersOf(dir, org)
  }

  /** The member list the store returns: those members that are users. */
  function Listed(users: Users, dir: Directory, org: Id): set<Id> {
    set u | u in MembersOf(dir, org) && u in users
  }

  function Owned(dir: Directory, org: Id): set<Id> {
    set g | g in dir.groups && dir.groups[g].org == org
  }

  ghost function CreateOrg(dir: Directory, slug: string): Directory {
    if exists o :: o in dir.orgs && dir.orgs[o] == slug then dir
    else dir.(orgs := dir.orgs[dir.lastOrg + 1 := slug], lastOrg := dir.lastOrg + 1)
  }

  /** Refused for an organization or a user that does not exist. */
  function SetMember(db: Db, org: Id, user: Id, role: Role): Db {
    if org !in db.dir.orgs || user !in db.users then db
    else db.(dir := db.dir.(members := db.dir.members[org := MembersOf(db.dir, org)[user := role]]))
  }

  /** The membership, and with it the user's place in the organization's groups. */
  function RemoveMember(dir: Directory, org: Id, user: Id): Directory {
    if org == 0 || user == 0 then dir
    else
      dir.(members := if org in dir.members then dir.members[org := dir.members[org] - {user}] else dir.members,
           memberships := if user in dir.memberships
                          then dir.memberships[user := dir.memberships[user] - Owned(dir, org)] else dir.memberships)
  }

  function Ungrouped(memberships: map<Id, set<Id>>, groups: set<Id>): map<Id, set<Id>> {
    map u | u in memberships :: memberships[u] - groups
  }

  function DeleteGroup(dir: Directory, group: Id): Directory {
    dir.(groups := dir.groups - {group}, memberships := Ungrouped(dir.memberships, {group}))
  }

  function DeleteOrg(dir: Directory, org: Id): Directory {
    if org == 0 then dir
    else
      dir.(orgs := dir.orgs - {org}, members := dir.members - {org},
           groups := dir.groups - Owned(dir, org), memberships := Ungrouped(dir.memberships, Owned(dir, org)))
  }

  ghost predicate GroupNamed(dir: Directory, org: Id, name: string) {
    exists g :: g in dir.groups && dir.groups[g].org == org && dir.groups[g].name == name
  }

  /** Names are unique per organization; organization 0 holds the global groups. */
  ghost function CreateGroup(dir: Directory, org: Id, name: string): Directory {
    if (org != 0 && org !in dir.orgs) || GroupNamed(dir, org, Trim(name)) then dir
    else dir.(groups := dir.groups[dir.lastGroup + 1 := Group(Trim(name), org)], lastGroup := dir.lastGroup + 1)
  }

  function AddToGroup(dir: Directory, user: Id, group: Id): Directory {
    if user == 0 || group == 0 then dir
    else dir.(memberships := dir.memberships[user := GroupsOf(dir, user) + {group}])
  }

  function RemoveFromGroup(dir: Directory, user: Id, group: Id): Directory {
    if user == 0 || group == 0 || user !in dir.memberships then dir
    else dir.(memberships := dir.memberships[user := dir.memberships[user] - {group}])
  }

  /** The batch forms: the single form for each id in turn. */
  function AddAll(dir: Directory, ids: seq<Id>, group: Id): Directory {
    if ids == [] then dir
    else AddToGroup(AddAll(dir, ids[..|ids| - 1], group), ids[|ids| - 1], group)
  }

  function RemoveAll(dir: Directory, ids: seq<Id>, group: Id): Directory {
    if ids == [] then dir
    else RemoveFromGroup(RemoveAll(dir, ids[..|ids| - 1], group), ids[|ids| - 1], group)
  }
}
