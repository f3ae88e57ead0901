/**
 Any sequence of calls on the identity store: who stays unique, when a subject may change, and what is
 left of a reclaimed account (store/memory/memory.go:227-238, 421-477, 611-692).
 */
module IdentityRuns {
  import opened Basics
  import opened AsciiText
  import opened OrgRoles
  import opened IdentityRecords

  datatype Event =
    | SignIn(sub: string, address: string, name: string, verified: bool)
    | Register(sub: string, address: string, name: string)
    | ChangeEmail(id: Id, address: string)
    | MarkVerified(id: Id, flag: bool)
    | Disable(id: Id, flag: bool)
    | Erase(id: Id)
    | Give(id: Id, secret: Secret)
    | Record(sid: string, id: Id)
    | FoundOrg(slug: string)
    | DropOrg(org: Id)
    | Join(org: Id, id: Id, role: Role)
    | Leave(org: Id, id: Id)
    | NewGroup(org: Id, name: string)
    | DropGroup(group: Id)
    | Enter(id: Id, group: Id)
    | Exit(id: Id, group: Id)

  /** A local user's subject is random: one that is taken does not occur. */
  ghost function Apply(db: Db, e: Event): Db {
    match e
    case SignIn(sub, address, name, verified) => Login(db, sub, address, name, verified).0
    case Register(sub, address, name) => if BySub(db.users, sub).Some? then db else CreateLocal(db, sub, address, name)
    case ChangeEmail(id, address) => SetEmail(db, id, address)
    case MarkVerified(id, flag) => SetVerified(db, id, flag)
    case Disable(id, flag) => SetDisabled(db, id, flag)
    case Erase(id) => DeleteUser(db, id)
    case Give(id, secret) => db.(creds := Attach(db.creds, id, secret))
    case Record(sid, id) => db.(sessions := db.sessions[sid := Session(id, false)])
    case FoundOrg(slug) => db.(dir := CreateOrg(db.dir, slug))
    case DropOrg(org) => db.(dir := DeleteOrg(db.dir, org))
    case Join(org, id, role) => SetMember(db, org, id, role)
    case Leave(org, id) => db.(dir := RemoveMember(db.dir, org, id))
    case NewGroup(org, name) => db.(dir := CreateGroup(db.dir, org, name))
    case DropGroup(group) => db.(dir := DeleteGroup(db.dir, group))
    case Enter(id, group) => db.(dir := AddToGroup(db.dir, id, group))
    case Exit(id, group) => db.(dir := RemoveFromGroup(db.dir, id, group))
  }

  ghost function Exec(db: Db, es: seq<Event>): Db {
    if es == [] then db else Apply(Exec(db, es[..|es| - 1]), es[|es| - 1])
  }

  lemma ExecStep(db: Db, es: seq<Event>, e: Event)
    ensures Exec(db, es + [e]) == Apply(Exec(db, es), e)
  {
    assert (es + [e])[..|es|] == es;
  }

  // ---- what every call keeps ---------------------------------------------------------------------------

  ghost predicate Rows(users: Users, lastUser: nat) {
    && Unique(users)
    && forall i :: i in users ==> 0 < i <= lastUser && users[i].email == Norm(users[i].email)
  }

  /** No organization has a member that is not a user. */
  ghost predicate MembersAreUsers(users: Users, members: map<Id, map<Id, Role>>) {
    forall o, u :: o in members && u in members[o] ==> u in users
  }

  predicate GroupIds(dir: Directory) {
    forall g :: g in dir.groups ==> 0 < g <= dir.lastGroup
  }

  ghost predicate Inv(db: Db) {
    Rows(db.users, db.lastUser) && MembersAreUsers(db.users, db.dir.members) && GroupIds(db.dir)
  }

  lemma PutRow(users: Users, lastUser: nat, i: Id, u: User)
    requires Rows(users, lastUser) && 0 < i <= lastUser && u.email == Norm(u.email)
    requires forall j :: j in users && j != i ==> users[j].email != u.email && users[j].sub != u.sub
    ensures Rows(users[i := u], lastUser)
  {
  }

  lemma InsertKeeps(db: Db, u: User)
    requires Inv(db) && u.email == Norm(u.email)
    requires forall j :: j in db.users ==> db.users[j].email != u.email && db.users[j].sub != u.sub
    ensures Inv(Insert(db, u))
  {
    hide Unique;
    assert Rows(db.users, db.lastUser + 1);
    PutRow(db.users, db.lastUser + 1, db.lastUser + 1, u);
  }

  lemma CascadeKeeps(db: Db, id: Id)
    requires Inv(db)
    ensures Inv(Cascade(db, id)) && Cascade(db, id).users == db.users - {id} && Cascade(db, id).lastUser == db.lastUser
  {
  }

  lemma LoginKeeps(db: Db, sub: string, address: string, name: string, verified: bool)
    requires Inv(db)
    ensures Inv(Login(db, sub, address, name, verified).0)
  {
    hide Cascade, Insert, Unique, Norm;
    var email := Norm(address);
    NormTwice(address);
    var known, existing := BySub(db.users, sub), ByEmail(db.users, email);
    if known.Some? {
      var i := known.value;
      var u := db.users[i];
      if email == u.email || existing.None? {
        OthersDiffer(db.users, i, u);
        PutRow(db.users, db.lastUser, i, User(sub, email, name, u.verified || verified, u.disabled));
      }
    } else if existing.Some? {
      var i := existing.value;
      var u := db.users[i];
      OthersDiffer(db.users, i, u);
      if Bootstrap(u) || u.verified {
        PutRow(db.users, db.lastUser, i, User(sub, email, name, u.verified || verified, u.disabled));
      } else if verified {
        CascadeKeeps(db, i);
        InsertKeeps(Cascade(db, i), User(sub, email, name, true, false));
      }
    } else {
      InsertKeeps(db, User(sub, email, name, verified, false));
    }
  }

  lemma OthersDiffer(users: Users, i: Id, u: User)
    requires Unique(users) && i in users && users[i] == u
    ensures forall j :: j in users && j != i ==> users[j].email != u.email && users[j].sub != u.sub
  {
  }

  lemma UsersKeep(db: Db, e: Event)
    requires Inv(db) && (e.Register? || e.ChangeEmail? || e.MarkVerified? || e.Disable? || e.Erase?)
    ensures Inv(Apply(db, e))
  {
    hide Cascade, Insert, Norm, Bootstrap, Attach, Login;
    match e
    case Register(sub, address, name) =>
      NormTwice(address);
      if BySub(db.users, sub).None? && ByEmail(db.users, Norm(address)).None? {
        InsertKeeps(db, User(sub, Norm(address), name, false, false));
      }
    case ChangeEmail(id, address) =>
      NormTwice(address);
      if id in db.users && !exists i :: i in db.users && db.users[i].email == Norm(address) && i != id {
        PutRow(db.users, db.lastUser, id, db.users[id].(email := Norm(address), verified := true));
      }
    case MarkVerified(id, flag) =>
      if id in db.users {
        PutRow(db.users, db.lastUser, id, db.users[id].(verified := flag));
      }
    case Disable(id, flag) =>
      if id in db.users {
        PutRow(db.users, db.lastUser, id, db.users[id].(disabled := flag));
      }
    case Erase(id) => CascadeKeeps(db, id);
  }

  lemma ApplyKeeps(db: Db, e: Event)
    requires Inv(db)
    ensures Inv(Apply(db, e))
  {
    hide Rows, Cascade, Login, CreateLocal, Norm, SetEmail;
    match e
    case SignIn(sub, address, name, verified) => LoginKeeps(db, sub, address, name, verified);
    case Register(_, _, _) => UsersKeep(db, e);
    case ChangeEmail(_, _) => UsersKeep(db, e);
    case MarkVerified(_, _) => UsersKeep(db, e);
    case Disable(_, _) => UsersKeep(db, e);
    case Erase(_) => UsersKeep(db, e);
    case _ =>
  }

  /** Over any sequence of calls addresses and subjects stay unique, and members of organizations are users. */
  lemma {:induction false} ExecKeeps(db: Db, es: seq<Event>)
    requires Inv(db)
    ensures Inv(Exec(db, es))
  {
    if es != [] {
      ExecKeeps(db, es[..|es| - 1]);
      ApplyKeeps(Exec(db, es[..|es| - 1]), es[|es| - 1]);
    }
  }

  // ---- when a subject changes ------------------------------------------------------------------------------

  /** A login under a subject nobody has, for the address of a row that may be bound to it. */
  ghost predicate Rebinds(db: Db, e: Event, i: Id) {
    && e.SignIn? && i in db.users
    && BySub(db.users, e.sub).None? && db.users[i].email == Norm(e.address)
    && (Bootstrap(db.users[i]) || (db.users[i].verified && e.verified))
  }

  /**
   A row that survives a call changes its subject exactly when the call is a login for its address under
   an unknown subject, and the row was seeded by the operator or both it and the login are verified.
   */
  lemma SubjectChangesExactlyWhen(db: Db, e: Event, i: Id)
    requires Inv(db) && i in db.users && i in Apply(db, e).users
    ensures Apply(db, e).users[i].sub != db.users[i].sub <==> Rebinds(db, e, i)
  {
    hide Norm, Attach, Cascade, Rows;
    if e.SignIn? {
      LoginSubjects(db, e, i);
    } else if e.Erase? {
      CascadeKeeps(db, e.id);
    } else if e.Register? {
      NewIdIsNew(db, i);
    }
  }

  /** A login touches the row of its subject or of its address, and never whether a user is disabled. */
  lemma LoginTouchesItsRow(db: Db, e: Event, i: Id)
    requires Inv(db) && e.SignIn? && i in db.users && i in Apply(db, e).users
    ensures Apply(db, e).users[i].disabled == db.users[i].disabled
    ensures Apply(db, e).users[i] != db.users[i] ==> db.users[i].sub == e.sub || db.users[i].email == Norm(e.address)
  {
    hide Norm, Cascade, Rows;
    NewIdIsNew(db, i);
    var existing := ByEmail(db.users, Norm(e.address));
    if existing.Some? {
      CascadeKeeps(db, existing.value);
    }
  }

  lemma NewIdIsNew(db: Db, i: Id)
    requires Inv(db) && i in db.users
    ensures i != db.lastUser + 1
  {
  }

  lemma LoginSubjects(db: Db, e: Event, i: Id)
    requires Inv(db) && i in db.users && e.SignIn? && i in Apply(db, e).users
    ensures Apply(db, e).users[i].sub != db.users[i].sub <==> Rebinds(db, e, i)
  {
    hide Norm, Cascade, Rows;
    NewIdIsNew(db, i);
    var email := Norm(e.address);
    var existing := ByEmail(db.users, email);
    if existing.Some? {
      CascadeKeeps(db, existing.value);
      SameEmail(db, existing.value, i);
    }
  }

  lemma SameEmail(db: Db, i: Id, j: Id)
    requires Inv(db) && i in db.users && j in db.users
    ensures db.users[i].email == db.users[j].email ==> i == j
  {
  }

  /** Over a whole run: a changed subject has such a login behind it. */
  lemma {:induction false} ChangedSubjectWasRebound(db: Db, es: seq<Event>, i: Id)
    requires Inv(db) && i in db.users && i in Exec(db, es).users
    requires Exec(db, es).users[i].sub != db.users[i].sub
    ensures exists k :: 0 <= k < |es| && Rebinds(Exec(db, es[..k]), es[k], i)
  {
    hide Apply, Rebinds, Inv;
    assert es != [];
    var rest, e := es[..|es| - 1], es[|es| - 1];
    var before := Exec(db, rest);
    ExecKeeps(db, rest);
    StillThere(db, es, i);
    if before.users[i].sub == db.users[i].sub {
      SubjectChangesExactlyWhen(before, e, i);
      assert Rebinds(Exec(db, es[..|rest|]), es[|rest|], i);
    } else {
      ChangedSubjectWasRebound(db, rest, i);
      var k :| 0 <= k < |rest| && Rebinds(Exec(db, rest[..k]), rest[k], i);
      assert rest[..k] == es[..k] && rest[k] == es[k];
    }
  }

  /** Ids are never used again: a row that is there at the end was there before the last call. */
  lemma StillThere(db: Db, es: seq<Event>, i: Id)
    requires Inv(db) && es != [] && i in db.users && i in Exec(db, es).users
    ensures i in Exec(db, es[..|es| - 1]).users
  {
    hide Apply;
    assert i <= db.lastUser;
    var before := Exec(db, es[..|es| - 1]);
    IdsGrow(db, es[..|es| - 1]);
    if i !in before.users {
      NewIdIsLast(before, es[|es| - 1], i);
    }
  }

  lemma NewIdIsLast(db: Db, e: Event, i: Id)
    requires i in Apply(db, e).users && i !in db.users
    ensures i == db.lastUser + 1
  {
    hide Norm, Attach;
  }

  lemma {:induction false} IdsGrow(db: Db, es: seq<Event>)
    ensures db.lastUser <= Exec(db, es).lastUser
  {
    if es != [] {
      IdsGrow(db, es[..|es| - 1]);
      IdsGrowStep(Exec(db, es[..|es| - 1]), es[|es| - 1]);
    }
  }

  lemma IdsGrowStep(db: Db, e: Event)
    ensures db.lastUser <= Apply(db, e).lastUser
  {
    hide Norm, Attach;
  }

  // ---- what a reclaimed account leaves -------------------------------------------------------------------------

  /** Something is keyed to the id. */
  ghost predicate Touched(db: Db, id: Id) {
    || Keyed(db.creds, id) || id in db.dir.memberships
    || (exists o :: o in db.dir.members && id in db.dir.members[o])
    || (exists k :: k in db.sessions && db.sessions[k].user == id)
  }

  /** The ids the caller passes have been issued by the store. */
  predicate PassesIssued(lastUser: nat, e: Event) {
    match e
    case Give(id, _) => id <= lastUser
    case Record(_, id) => id <= lastUser
    case Enter(id, _) => id <= lastUser
    case _ => true
  }

  ghost predicate OnlyIssued(db: Db) {
    forall id: Id :: Touched(db, id) ==> id <= db.lastUser
  }

  lemma ErasedIsBare(db: Db, id: Id)
    ensures Bare(Cascade(db, id), id)
  {
    KeptAreOthers(db.creds.tokens, id);
  }

  lemma {:induction false} KeptAreOthers(tokens: seq<Token>, id: Id)
    ensures forall t :: t in Kept(tokens, id) <==> t in tokens && t.owner != id
  {
    if tokens != [] {
      KeptAreOthers(tokens[..|tokens| - 1], id);
      assert tokens == tokens[..|tokens| - 1] + [tokens[|tokens| - 1]];
    }
  }

  lemma CascadeTouchesNothing(db: Db, id: Id, other: Id)
    ensures Touched(Cascade(db, id), other) ==> Touched(db, other)
  {
    KeptAreOthers(db.creds.tokens, id);
    var db' := Cascade(db, id);
    if k :| k in db'.sessions && db'.sessions[k].user == other {
      assert k in db.sessions && db.sessions[k].user == other;
    }
    if o :| o in db'.dir.members && other in db'.dir.members[o] {
      assert o in db.dir.members && other in db.dir.members[o];
    }
  }

  lemma AttachTouches(c: Credentials, id: Id, s: Secret, other: Id)
    ensures Keyed(Attach(c, id, s), other) ==> other == id || Keyed(c, other)
  {
    hide Norm;
    var c' := Attach(c, id, s);
    if k :| k in c'.passkeys && c'.passkeys[k] == other {
      assert other == id || (k in c.passkeys && c.passkeys[k] == other);
    }
    if k :| k in c'.links && c'.links[k] == other {
      assert other == id || (k in c.links && c.links[k] == other);
    }
  }

  /** Which ids a call can leave something on that had nothing before. */
  lemma TouchesOnly(db: Db, e: Event, other: Id)
    requires Inv(db) && PassesIssued(db.lastUser, e) && Touched(Apply(db, e), other)
    ensures other <= db.lastUser || Touched(db, other)
  {
    hide Norm, Attach, Cascade, Keyed, Unique;
    match e
    case SignIn(sub, address, _, _) =>
      var existing := ByEmail(db.users, Norm(address));
      if existing.Some? {
        CascadeTouchesNothing(db, existing.value, other);
      }
      UsersTouchNothing(db, Apply(db, e), other, existing);
    case Erase(id) => CascadeTouchesNothing(db, id, other);
    case Give(id, secret) => AttachTouches(db.creds, id, secret, other);
    case _ => DirectoryTouches(db, e, other);
  }

  lemma UsersTouchNothing(db: Db, db': Db, other: Id, gone: Option<Id>)
    requires
      || (db'.creds == db.creds && db'.sessions == db.sessions && db'.dir == db.dir)
      || (gone.Some? && var c := Cascade(db, gone.value); db'.creds == c.creds && db'.sessions == c.sessions && db'.dir == c.dir)
    requires gone.Some? && Touched(Cascade(db, gone.value), other) ==> Touched(db, other)
    ensures Touched(db', other) ==> Touched(db, other)
  {
    hide Cascade, Keyed;
  }

  lemma DirectoryTouches(db: Db, e: Event, other: Id)
    requires Inv(db) && PassesIssued(db.lastUser, e) && Touched(Apply(db, e), other)
    requires !e.SignIn? && !e.Erase? && !e.Give?
    ensures other <= db.lastUser || Touched(db, other)
  {
    hide Norm, Keyed, Unique, GroupNamed;
    var db' := Apply(db, e);
    assert db'.creds == db.creds;
    if o :| o in db'.dir.members && other in db'.dir.members[o] {
      assert (e.Join? && other == e.id) || (o in db.dir.members && other in db.dir.members[o]);
    }
    if k :| k in db'.sessions && db'.sessions[k].user == other {
      assert (e.Record? && other == e.id) || (k in db.sessions && db.sessions[k].user == other);
    }
  }

  /** Every id the caller passed on the way had been issued. */
  ghost predicate AllIssued(db: Db, es: seq<Event>) {
    forall k :: 0 <= k < |es| ==> PassesIssued(Exec(db, es[..k]).lastUser, es[k])
  }

  lemma {:induction false} OnlyIssuedAlways(db: Db, es: seq<Event>)
    requires Inv(db) && OnlyIssued(db) && AllIssued(db, es)
    ensures OnlyIssued(Exec(db, es))
  {
    hide Touched, Apply, Inv;
    if es != [] {
      var rest, e := es[..|es| - 1], es[|es| - 1];
      assert AllIssued(db, rest) by {
        forall k | 0 <= k < |rest| ensures PassesIssued(Exec(db, rest[..k]).lastUser, rest[k]) {
          assert rest[..k] == es[..k] && rest[k] == es[k];
        }
      }
      var before := Exec(db, rest);
      OnlyIssuedAlways(db, rest);
      ExecKeeps(db, rest);
      IdsGrowStep(before, e);
      assert PassesIssued(Exec(db, es[..|rest|]).lastUser, es[|rest|]);
      forall other: Id | Touched(Exec(db, es), other) ensures other <= Exec(db, es).lastUser {
        TouchesOnly(before, e, other);
      }
    }
  }

  /** A verified login takes the address of an unverified account nobody seeded. */
  ghost predicate Reclaims(db: Db, e: Event) {
    && e.SignIn? && e.verified && BySub(db.users, e.sub).None?
    && var existing := ByEmail(db.users, Norm(e.address));
       existing.Some? && !Bootstrap(db.users[existing.value]) && !db.users[existing.value].verified
  }

  /** Nothing is keyed to the id but revoked sessions. */
  ghost predicate Bare(db: Db, id: Id) {
    && !Keyed(db.creds, id) && id !in db.dir.memberships
    && (forall o :: o in db.dir.members ==> id !in db.dir.members[o])
    && (forall k :: k in db.sessions && db.sessions[k].user == id ==> db.sessions[k].revoked)
  }

  lemma ReclaimedState(db: Db, e: Event)
    requires Inv(db) && OnlyIssued(db) && Reclaims(db, e)
    ensures ByEmail(db.users, Norm(e.address)).Some?
    ensures var db', was, next := Apply(db, e), ByEmail(db.users, Norm(e.address)).value, db.lastUser + 1;
            && next !in db.users && !Touched(db', next) && Bare(db', was)
            && db'.users == (db.users - {was})[next := User(e.sub, Norm(e.address), e.name, true, false)]
  {
    hide Norm, Bootstrap, Unique, Touched, Bare, Keyed, Cascade, Reclaims;
    ReclaimIsCascade(db, e);
    var was, next := ByEmail(db.users, Norm(e.address)).value, db.lastUser + 1;
    var erased := Cascade(db, was);
    ErasedIsBare(db, was);
    CascadeKeeps(db, was);
    CascadeTouchesNothing(db, was, next);
    SameButUsers(erased, Apply(db, e), was);
    SameButUsers(erased, Apply(db, e), next);
    assert !Touched(db, next);
  }

  /**
   After any run in which callers pass only ids they were given, reclaiming an address leaves one user
   under a new id with nothing keyed to it, and nothing keyed to the old one but revoked sessions.
   */
  lemma ReclaimLeavesNothing(es: seq<Event>, e: Event)
    requires AllIssued(EMPTY_DB, es) && Reclaims(Exec(EMPTY_DB, es), e)
    ensures ByEmail(Exec(EMPTY_DB, es).users, Norm(e.address)).Some?
    ensures var db, db' := Exec(EMPTY_DB, es), Exec(EMPTY_DB, es + [e]);
            var was, next := ByEmail(db.users, Norm(e.address)).value, db.lastUser + 1;
            && next !in db.users && !Touched(db', next) && Bare(db', was)
            && db'.users == (db.users - {was})[next := User(e.sub, Norm(e.address), e.name, true, false)]
  {
    hide *;
    NothingYet();
    ExecKeeps(EMPTY_DB, es);
    OnlyIssuedAlways(EMPTY_DB, es);
    ExecStep(EMPTY_DB, es, e);
    ReclaimedState(Exec(EMPTY_DB, es), e);
  }

  lemma ReclaimIsCascade(db: Db, e: Event)
    requires Reclaims(db, e)
    ensures e.SignIn? && ByEmail(db.users, Norm(e.address)).Some?
    ensures Apply(db, e) == Insert(Cascade(db, ByEmail(db.users, Norm(e.address)).value),
                                   User(e.sub, Norm(e.address), e.name, true, false))
  {
    hide Norm, Cascade, Insert;
  }

  lemma SameButUsers(db: Db, db': Db, id: Id)
    requires db'.creds == db.creds && db'.sessions == db.sessions && db'.dir == db.dir
    ensures (Touched(db', id) <==> Touched(db, id)) && (Bare(db', id) <==> Bare(db, id))
  {
  }

  lemma NothingYet()
    ensures Inv(EMPTY_DB) && OnlyIssued(EMPTY_DB)
  {
    hide Norm;
  }

  /** It rests on the callers: a password set for an id not issued yet is inherited by the user who gets it. */
  lemma UnissuedIdIsInherited(hash: string, sub: string)
    ensures var db := Exec(EMPTY_DB, [Give(1, Password(hash)), SignIn(sub, "a@b", "", true)]);
            1 in db.users && db.users[1].sub == sub && 1 in db.creds.passwords && db.creds.passwords[1] == hash
  {
    var give, come := Give(1, Password(hash)), SignIn(sub, "a@b", "", true);
    assert [] + [give] == [give] && [give] + [come] == [give, come];
    ExecStep(EMPTY_DB, [], give);
    ExecStep(EMPTY_DB, [give], come);
  }
}
