/**
 What a login does, and what makes an account verified (store/memory/memory.go:421-440, 611-655), read off
 the stored rows before and after.
 */
module IdentityLogins {
  import opened Basics
  import opened AsciiText
  import opened IdentityRecords
  import opened IdentityRuns

  /** After the login the row has its subject and its address. */
  predicate LeavesRow(users: Users, e: Event, i: Id) {
    e.SignIn? && i in users && users[i].sub == e.sub && users[i].email == Norm(e.address)
  }

  /** Someone but `id` has the address. */
  ghost predicate Taken(users: Users, id: Id, address: string) {
    exists j :: j in users && j != id && users[j].email == Norm(address)
  }

  ghost predicate HasSub(users: Users, sub: string) {
    exists i :: i in users && users[i].sub == sub
  }

  /** A row as the operator seeds it. */
  predicate Seeded(u: User) {
    |u.sub| >= 10 && u.sub[..10] == "bootstrap:"
  }

  /** The login is refused: the address is another account's, and nothing entitles it to that account. */
  ghost predicate Refuses(users: Users, e: Event)
    requires e.SignIn?
  {
    exists i :: i in users &&
      if users[i].sub == e.sub then Taken(users, i, e.address)
      else !HasSub(users, e.sub) && users[i].email == Norm(e.address) && !Seeded(users[i]) && !e.verified
  }

  /** The account the login is for, if it is not a new one: the subject's, or the address's if it may be bound. */
  ghost predicate Enters(users: Users, e: Event, i: Id)
    requires e.SignIn?
  {
    i in users
    && (users[i].sub == e.sub
        || (!HasSub(users, e.sub) && users[i].email == Norm(e.address) && (Seeded(users[i]) || (users[i].verified && e.verified))))
  }

  /** An account of the address that nobody proved or seeded: a proven login takes the address from it. */
  ghost predicate Evicts(users: Users, e: Event, i: Id)
    requires e.SignIn?
  {
    i in users && !HasSub(users, e.sub) && users[i].email == Norm(e.address)
    && !Seeded(users[i]) && !users[i].verified && e.verified
  }

  lemma SeededIsBootstrap(u: User)
    ensures Seeded(u) <==> Bootstrap(u)
  {
    assert |"bootstrap:"| == 10;
    if Seeded(u) {
      assert u.sub == u.sub[..10] + u.sub[10..];
    }
    if Bootstrap(u) {
      assert u.sub[..10] == "bootstrap:";
    }
  }

  /** One row has the login's subject, address and name; the others stay, but an evicted one, which goes. */
  ghost predicate Lands(db: Db, users': Users, e: Event, i: Id)
    requires e.SignIn?
  {
    var users := db.users;
    && LeavesRow(users', e, i) && users'[i].name == e.name
    && (if exists j :: Enters(users, e, j) then
          Enters(users, e, i) && users'[i].verified == (users[i].verified || e.verified) && users'[i].disabled == users[i].disabled
        else i == db.lastUser + 1 && i !in users && users'[i].verified == e.verified && !users'[i].disabled)
    && (forall j :: j in users && j != i ==> if Evicts(users, e, j) then j !in users' else j in users' && users'[j] == users[j])
    && (forall j :: j in users' ==> j == i || j in users)
  }

  lemma KnownLogin(db: Db, e: Event, i: Id)
    requires Inv(db) && e.SignIn? && BySub(db.users, e.sub) == Some(i)
    ensures if Refuses(db.users, e) then Apply(db, e) == db else Lands(db, Apply(db, e).users, e, i)
  {
    hide Norm, Bootstrap, Seeded, Cascade, Inv;
    OneRow(db, i);
    if Taken(db.users, i, e.address) {
      assert Refuses(db.users, e);
    } else {
      assert Enters(db.users, e, i);
    }
  }

  lemma AddressLogin(db: Db, e: Event, i: Id)
    requires Inv(db) && e.SignIn? && BySub(db.users, e.sub).None? && ByEmail(db.users, Norm(e.address)) == Some(i)
    ensures if Refuses(db.users, e) then Apply(db, e) == db
            else Lands(db, Apply(db, e).users, e, if Seeded(db.users[i]) || db.users[i].verified then i else db.lastUser + 1)
  {
    hide Norm, Bootstrap, Seeded, Unkeyed, Tombstoned, Forgotten, Inv;
    NewIsNew(db);
    OneRow(db, i);
    SeededIsBootstrap(db.users[i]);
    if Seeded(db.users[i]) || (db.users[i].verified && e.verified) {
      assert Enters(db.users, e, i);
    } else if !e.verified {
      assert Refuses(db.users, e);
    } else {
      assert Evicts(db.users, e, i);
    }
  }

  lemma NewLogin(db: Db, e: Event)
    requires Inv(db) && e.SignIn? && BySub(db.users, e.sub).None? && ByEmail(db.users, Norm(e.address)).None?
    ensures !Refuses(db.users, e) && Lands(db, Apply(db, e).users, e, db.lastUser + 1)
  {
    hide Norm, Bootstrap, Seeded, Cascade, Inv;
    NewIsNew(db);
  }

  /**
   A login that is not refused leaves one row with its subject, address and name: the account it is for, or a
   new one. That row is verified if it was or the login is, and disabled if it was. No other row changes but
   an evicted one, which goes. A refused login changes nothing.
   */
  lemma LoginMeans(db: Db, e: Event)
    requires Inv(db) && e.SignIn?
    ensures if Refuses(db.users, e) then Apply(db, e) == db else exists i :: Lands(db, Apply(db, e).users, e, i)
  {
    hide Norm, Inv, Apply, Refuses, Lands;
    var known, existing := BySub(db.users, e.sub), ByEmail(db.users, Norm(e.address));
    if known.Some? {
      KnownLogin(db, e, known.value);
    } else if existing.Some? {
      AddressLogin(db, e, existing.value);
    } else {
      NewLogin(db, e);
    }
  }

  lemma NewIsNew(db: Db)
    requires Inv(db)
    ensures db.lastUser + 1 !in db.users
  {
  }

  /** No other row has this one's address or subject. */
  lemma OneRow(db: Db, i: Id)
    requires Inv(db) && i in db.users
    ensures forall j :: j in db.users && j != i ==> db.users[j].email != db.users[i].email && db.users[j].sub != db.users[i].sub
  {
  }

  // ---- what makes an account verified ----------------------------------------------------------------

  /** The call proves the account: a verified login of it, a change of its address, or the flag itself. */
  ghost predicate Proves(db: Db, e: Event, i: Id) {
    || (e.SignIn? && e.verified && LeavesRow(Apply(db, e).users, e, i))
    || (e.ChangeEmail? && e.id == i && i in db.users && !Taken(db.users, i, e.address))
    || (e == MarkVerified(i, true) && i in db.users)
  }

  /**
   After any call an account is verified exactly if the call proves it, or it was verified before and the call
   is not MarkVerified(i, false). A new account is verified exactly if the login that made it was.
   */
  lemma VerifiedExactlyWhen(db: Db, e: Event, i: Id)
    requires Inv(db) && i in Apply(db, e).users
    ensures Apply(db, e).users[i].verified
            <==> Proves(db, e, i) || (i in db.users && db.users[i].verified && e != MarkVerified(i, false))
  {
    hide Norm, Inv, Cascade, Attach, GroupNamed;
    if e.SignIn? {
      LoginFlag(db, e, i);
    } else if e.Erase? {
      CascadeKeeps(db, e.id);
    } else if e.Register? {
      NewIsNew(db);
    }
  }

  lemma LoginFlag(db: Db, e: Event, i: Id)
    requires Inv(db) && e.SignIn? && i in Apply(db, e).users
    ensures Apply(db, e).users[i].verified <==> Proves(db, e, i) || (i in db.users && db.users[i].verified)
  {
    var users, users' := db.users, Apply(db, e).users;
    LoginMeans(db, e);
    ApplyKeeps(db, e);
    hide Norm, Seeded, Apply;
    if Refuses(users, e) {
      RefusedLeavesNothing(db, e, i);
    } else {
      var k :| Lands(db, users', e, k);
      if i != k {
        OnlyRowWith(users', k, i);
      } else if !(exists j :: Enters(users, e, j)) {
        assert i !in users;
      }
    }
  }

  /** A refused login is no login of any row there is. */
  lemma RefusedLeavesNothing(db: Db, e: Event, i: Id)
    requires Inv(db) && e.SignIn? && Refuses(db.users, e) && i in db.users
    ensures !(LeavesRow(db.users, e, i) && e.verified && !db.users[i].verified)
  {
    hide Norm, Seeded;
    if LeavesRow(db.users, e, i) {
      OneRow(db, i);
    }
  }

  lemma OnlyRowWith(users: Users, k: Id, i: Id)
    requires Unique(users) && k in users && i in users && i != k
    ensures users[i].sub != users[k].sub
  {
  }

  /** Over a run: an account that is verified at the end, and was not at the start, was proved on the way. */
  lemma {:induction false} VerifiedWasProved(db: Db, es: seq<Event>, i: Id)
    requires Inv(db) && i in Exec(db, es).users && Exec(db, es).users[i].verified
    requires i in db.users ==> !db.users[i].verified
    ensures exists k :: 0 <= k < |es| && Proves(Exec(db, es[..k]), es[k], i)
  {
    hide Apply, Inv, Proves;
    assert es != [];
    var rest, e := es[..|es| - 1], es[|es| - 1];
    ExecKeeps(db, rest);
    VerifiedExactlyWhen(Exec(db, rest), e, i);
    if Proves(Exec(db, rest), e, i) {
      assert Proves(Exec(db, es[..|rest|]), es[|rest|], i);
    } else {
      VerifiedWasProved(db, rest, i);
      var k :| 0 <= k < |rest| && Proves(Exec(db, rest[..k]), rest[k], i);
      assert rest[..k] == es[..k] && rest[k] == es[k];
      assert Proves(Exec(db, es[..k]), es[k], i);
    }
  }
}
