/**
 Provisioning through an organization's view, store call by store call (orgdirectory.go:196-273): it looks
 the address up, logs the user in, looks the membership up and adds it, and anything may happen to the
 store in between.
 */
module OrgProvisioning {
  import opened Basics
  import opened OrgRoles
  import opened IdentityRecords
  import Runs = IdentityRuns
  import View = OrgView

  /** A provisioning that has looked the address up; `ns` is its subject in the organization's namespace. */
  datatype Request = Request(ns: string, address: string, name: string, verified: bool)

  datatype Job = LoggingIn(r: Request) | Finding(id: Id) | Joining(id: Id)

  datatype State = State(db: Db, jobs: map<nat, Job>)

  datatype Event =
    | LookUp(job: nat, sub: string, address: string, name: string, verified: bool)
    | LogIn(job: nat)
    | FindRole(job: nat)
    | Join(job: nat)
    | Calls(call: View.Call)
    | Others(event: Runs.Event)

  /** The other calls of the view are one step each; an event that is not enabled changes nothing. */
  ghost function Apply(s: State, org: Id, e: Event): State {
    match e
    case LookUp(job, sub, address, name, verified) =>
      if job !in s.jobs && View.Accepts(s.db, org, sub, address)
      then s.(jobs := s.jobs[job := LoggingIn(Request(View.NsSub(org, sub), address, name, verified))]) else s
    case LogIn(job) =>
      if job in s.jobs && s.jobs[job].LoggingIn? then
        var (db, who) := LoggedIn(s.db, s.jobs[job].r);
        State(db, if who.Some? then s.jobs[job := Finding(who.value)] else s.jobs - {job})
      else s
    case FindRole(job) =>
      if job in s.jobs && s.jobs[job].Finding? then
        s.(jobs := if View.HasRole(s.db.dir, org, s.jobs[job].id) then s.jobs - {job} else s.jobs[job := Joining(s.jobs[job].id)])
      else s
    case Join(job) =>
      if job in s.jobs && s.jobs[job].Joining? then State(SetMember(s.db, org, s.jobs[job].id, MEMBER), s.jobs - {job}) else s
    case Calls(call) => if call.Provision? then s else s.(db := View.Apply(s.db, org, call))
    case Others(event) => s.(db := Runs.Apply(s.db, event))
  }

  ghost function LoggedIn(db: Db, r: Request): (Db, Option<Id>) {
    Login(db, r.ns, r.address, r.name, r.verified)
  }

  ghost function Exec(s: State, org: Id, es: seq<Event>): State {
    if es == [] then s else Apply(Exec(s, org, es[..|es| - 1]), org, es[|es| - 1])
  }

  lemma ExecNone(s: State, org: Id)
    ensures Exec(s, org, []) == s
  {
  }

  lemma ExecStep(s: State, org: Id, es: seq<Event>, e: Event)
    ensures Exec(s, org, es + [e]) == Apply(Exec(s, org, es), org, e)
  {
    assert (es + [e])[..|es|] == es;
  }

  /** Steps that nothing interrupts are the view's call. */
  lemma ProvisioningIsRun(db: Db, org: Id, sub: string, address: string, name: string, verified: bool)
    ensures Exec(State(db, map[]), org, [LookUp(0, sub, address, name, verified), LogIn(0), FindRole(0), Join(0)])
            == State(View.Apply(db, org, View.Provision(sub, address, name, verified)), map[])
  {
    hide View.Accepts, Login, SetMember, View.HasRole, Exec, Apply;
    var s := State(db, map[]);
    FourSteps(s, org, LookUp(0, sub, address, name, verified), LogIn(0), FindRole(0), Join(0));
    if View.Accepts(db, org, sub, address) {
      StepsAre(db, org, sub, address, name, verified);
    } else {
      NothingToDo(s, org, sub, address, name, verified);
    }
  }

  lemma FourSteps(s: State, org: Id, a: Event, b: Event, c: Event, d: Event)
    ensures Exec(s, org, [a, b, c, d]) == Apply(Apply(Apply(Apply(s, org, a), org, b), org, c), org, d)
  {
    hide Apply;
    ExecStep(s, org, [], a);
    ExecStep(s, org, [a], b);
    ExecStep(s, org, [a, b], c);
    ExecStep(s, org, [a, b, c], d);
    assert [] + [a] == [a] && [a] + [b] == [a, b] && [a, b] + [c] == [a, b, c] && [a, b, c] + [d] == [a, b, c, d];
  }

  lemma NothingToDo(s: State, org: Id, sub: string, address: string, name: string, verified: bool)
    requires s.jobs == map[] && !View.Accepts(s.db, org, sub, address)
    ensures Apply(Apply(Apply(Apply(s, org, LookUp(0, sub, address, name, verified)), org, LogIn(0)), org, FindRole(0)), org, Join(0)) == s
  {
    hide View.Accepts;
  }

  lemma StepsAre(db: Db, org: Id, sub: string, address: string, name: string, verified: bool)
    requires View.Accepts(db, org, sub, address)
    ensures var r := Request(View.NsSub(org, sub), address, name, verified);
            var s1 := Apply(State(db, map[]), org, LookUp(0, sub, address, name, verified));
            Apply(Apply(Apply(s1, org, LogIn(0)), org, FindRole(0)), org, Join(0))
            == State(View.Apply(db, org, View.Provision(sub, address, name, verified)), map[])
  {
    hide View.Accepts, Login, View.HasRole, View.NsSub;
    var r := Request(View.NsSub(org, sub), address, name, verified);
    var s1 := Apply(State(db, map[]), org, LookUp(0, sub, address, name, verified));
    assert s1 == State(db, map[0 := LoggingIn(r)]);
    RefusedChangesNothing(db, r);
    var (db', who) := LoggedIn(db, r);
    var s2 := Apply(s1, org, LogIn(0));
    if who.None? {
      assert s2 == State(db, map[]);
    } else {
      assert s2 == State(db', map[0 := Finding(who.value)]);
      var s3 := Apply(s2, org, FindRole(0));
      if View.HasRole(db'.dir, org, who.value) {
        assert s3 == State(db', map[]);
      } else {
        assert s3 == State(db', map[0 := Joining(who.value)]);
        assert Apply(s3, org, Join(0)) == State(SetMember(db', org, who.value, MEMBER), map[]);
      }
    }
  }

  lemma RefusedChangesNothing(db: Db, r: Request)
    ensures LoggedIn(db, r).1.None? ==> LoggedIn(db, r).0 == db
  {
    hide Norm, Cascade;
  }

  // ---- what a login may land on --------------------------------------------------------------------------

  /** No one but the request's own subject has its address. */
  ghost predicate Free(users: Users, r: Request) {
    forall i :: i in users && users[i].email == Norm(r.address) ==> users[i].sub == r.ns
  }

  /** The login is one that takes over the account of someone outside the organization's namespace. */
  ghost predicate TakesOver(users: Users, org: Id, r: Request) {
    && (forall i :: i in users ==> users[i].sub != r.ns)
    && exists i :: i in users && users[i].email == Norm(r.address) && !(View.Prefix(org) <= users[i].sub)
                   && (Bootstrap(users[i]) || r.verified)
  }

  lemma TakesOverMeans(db: Db, org: Id, r: Request)
    requires Runs.Inv(db)
    ensures var known, existing := BySub(db.users, r.ns), ByEmail(db.users, Norm(r.address));
            TakesOver(db.users, org, r)
            <==> known.None? && existing.Some? && !(View.Prefix(org) <= db.users[existing.value].sub)
                 && (Bootstrap(db.users[existing.value]) || r.verified)
  {
    hide Norm, View.Prefix, Bootstrap;
  }

  lemma OnlyInside(users: Users, users': Users, org: Id)
    requires forall i :: i in users' && (i !in users || users'[i] != users[i]) ==> View.Prefix(org) <= users'[i].sub
    requires forall i :: i in users && (i !in users' || users'[i] != users[i]) ==> View.Prefix(org) <= users[i].sub
    ensures View.OtherUsers(users', org) == View.OtherUsers(users, org)
  {
    hide View.Prefix;
  }

  lemma OneLess(users: Users, users': Users, org: Id, i: Id)
    requires i in users && !(View.Prefix(org) <= users[i].sub) && (i in users' ==> View.Prefix(org) <= users'[i].sub)
    ensures View.OtherUsers(users', org) != View.OtherUsers(users, org)
  {
    hide View.Prefix;
    assert i in View.OtherUsers(users, org) && i !in View.OtherUsers(users', org);
  }

  lemma TakeOverChanges(db: Db, org: Id, r: Request)
    requires Runs.Inv(db) && View.Prefix(org) <= r.ns && TakesOver(db.users, org, r)
    ensures View.OtherUsers(LoggedIn(db, r).0.users, org) != View.OtherUsers(db.users, org)
  {
    hide Norm, View.Prefix, View.OtherUsers, Unkeyed, Tombstoned, Forgotten, Bootstrap, TakesOver;
    TakesOverMeans(db, org, r);
    View.NoRowYet(db);
    hide Runs.Inv;
    OneLess(db.users, LoggedIn(db, r).0.users, org, ByEmail(db.users, Norm(r.address)).value);
  }

  lemma OtherwiseStays(db: Db, org: Id, r: Request)
    requires Runs.Inv(db) && View.Prefix(org) <= r.ns && !TakesOver(db.users, org, r)
    ensures View.OtherUsers(LoggedIn(db, r).0.users, org) == View.OtherUsers(db.users, org)
  {
    hide Norm, View.Prefix, View.OtherUsers, Unkeyed, Tombstoned, Forgotten, Bootstrap, TakesOver;
    TakesOverMeans(db, org, r);
    View.NoRowYet(db);
    hide Runs.Inv;
    OnlyInside(db.users, LoggedIn(db, r).0.users, org);
  }

  /** A login leaves every user outside the namespace alone exactly when it takes no account over. */
  lemma LoginStaysExactlyWhen(db: Db, org: Id, r: Request)
    requires Runs.Inv(db) && View.Prefix(org) <= r.ns
    ensures View.OtherUsers(LoggedIn(db, r).0.users, org) == View.OtherUsers(db.users, org) <==> !TakesOver(db.users, org, r)
  {
    hide Runs.Inv, View.Prefix, View.OtherUsers, LoggedIn, TakesOver;
    if TakesOver(db.users, org, r) {
      TakeOverChanges(db, org, r);
    } else {
      OtherwiseStays(db, org, r);
    }
  }

  /** And while the address is still free, everything else outside the organization too. */
  lemma FreeLoginStays(db: Db, org: Id, r: Request)
    requires Runs.Inv(db) && View.Prefix(org) <= r.ns && Free(db.users, r)
    ensures View.SameOutside(db, LoggedIn(db, r).0, org)
  {
    hide Norm, View.Prefix, View.OtherUsers, View.SameOutside, Runs.Inv, Unkeyed, Tombstoned, Forgotten, Bootstrap;
    LoginStaysExactlyWhen(db, org, r);
    FreeTakesNothing(db.users, org, r);
    var existing := ByEmail(db.users, Norm(r.address));
    assert existing.Some? ==> BySub(db.users, r.ns).Some?;
    View.SameParts(db, LoggedIn(db, r).0, org);
  }

  lemma FreeTakesNothing(users: Users, org: Id, r: Request)
    requires Free(users, r)
    ensures !TakesOver(users, org, r)
  {
    hide Norm, View.Prefix, Bootstrap;
  }

  // ---- runs ------------------------------------------------------------------------------------------------

  ghost predicate Inv(s: State, org: Id) {
    Runs.Inv(s.db) && forall j :: j in s.jobs && s.jobs[j].LoggingIn? ==> View.Prefix(org) <= s.jobs[j].r.ns
  }

  lemma StepKeepsInv(s: State, org: Id, e: Event)
    requires Inv(s, org)
    ensures Inv(Apply(s, org, e), org)
  {
    hide Runs.Inv, Login, View.Prefix, View.Apply, Runs.Apply;
    match e
    case LookUp(_, _, _, _, _) =>
    case LogIn(job) =>
      if job in s.jobs && s.jobs[job].LoggingIn? {
        var r := s.jobs[job].r;
        Runs.LoginKeeps(s.db, r.ns, r.address, r.name, r.verified);
      }
    case FindRole(_) =>
    case Join(job) =>
      if job in s.jobs && s.jobs[job].Joining? {
        Runs.ApplyKeeps(s.db, Runs.Join(org, s.jobs[job].id, MEMBER));
        JoinIs(s.db, org, s.jobs[job].id, MEMBER);
      }
    case Calls(call) => View.CallKeepsInv(s.db, org, call);
    case Others(event) => Runs.ApplyKeeps(s.db, event);
  }

  lemma JoinIs(db: Db, org: Id, id: Id, role: Role)
    ensures Runs.Apply(db, Runs.Join(org, id, role)) == SetMember(db, org, id, role)
  {
  }

  /** The step is a login of the view that takes an account over. */
  ghost predicate Lands(s: State, org: Id, e: Event) {
    e.LogIn? && e.job in s.jobs && s.jobs[e.job].LoggingIn? && TakesOver(s.db.users, org, s.jobs[e.job].r)
  }

  /** With anything in between, a step of the view changes a user outside the namespace in this one case. */
  lemma StepStaysExactlyWhen(s: State, org: Id, e: Event)
    requires Inv(s, org) && !e.Others?
    ensures View.OtherUsers(Apply(s, org, e).db.users, org) == View.OtherUsers(s.db.users, org) <==> !Lands(s, org, e)
  {
    hide Runs.Inv, Login, View.Prefix, View.Apply, View.OtherUsers, TakesOver;
    match e
    case LogIn(job) =>
      if job in s.jobs && s.jobs[job].LoggingIn? {
        LoginStaysExactlyWhen(s.db, org, s.jobs[job].r);
      }
    case Calls(call) => View.CallStaysInside(s.db, org, call);
    case _ =>
  }

  /** Someone else comes to have the address of a provisioning that has looked it up. */
  ghost predicate TakesAddress(s: State, org: Id, e: Event) {
    exists j :: j in s.jobs && s.jobs[j].LoggingIn? && Free(s.db.users, s.jobs[j].r)
                && j in Apply(s, org, e).jobs && Apply(s, org, e).jobs[j] == s.jobs[j]
                && !Free(Apply(s, org, e).db.users, s.jobs[j].r)
  }

  ghost predicate AllFree(s: State) {
    forall j :: j in s.jobs && s.jobs[j].LoggingIn? ==> Free(s.db.users, s.jobs[j].r)
  }

  lemma StepKeepsFree(s: State, org: Id, e: Event)
    requires Inv(s, org) && AllFree(s) && !TakesAddress(s, org, e)
    ensures AllFree(Apply(s, org, e))
  {
    hide Runs.Inv, Login, View.Prefix, View.Apply, Runs.Apply, Free;
    var s' := Apply(s, org, e);
    forall j | j in s'.jobs && s'.jobs[j].LoggingIn? ensures Free(s'.db.users, s'.jobs[j].r) {
      if j in s.jobs && s.jobs[j] == s'.jobs[j] {
        assert Free(s.db.users, s.jobs[j].r);
      } else {
        assert e.LookUp? && e.job == j;
        AcceptedIsFree(s.db, org, e.sub, e.address, e.name, e.verified);
      }
    }
  }

  lemma AcceptedIsFree(db: Db, org: Id, sub: string, address: string, name: string, verified: bool)
    requires Runs.Inv(db) && View.Accepts(db, org, sub, address)
    ensures Free(db.users, Request(View.NsSub(org, sub), address, name, verified))
  {
    hide Norm, View.Prefix, View.NsSub;
  }

  lemma {:induction false} StaysFree(s: State, org: Id, es: seq<Event>, n: nat)
    requires Inv(s, org) && AllFree(s) && n <= |es|
    requires forall k :: 0 <= k < n ==> !TakesAddress(Exec(s, org, es[..k]), org, es[k])
    ensures Inv(Exec(s, org, es[..n]), org) && AllFree(Exec(s, org, es[..n]))
  {
    hide Inv, AllFree, TakesAddress, Apply;
    if n > 0 {
      StaysFree(s, org, es, n - 1);
      StepAt(s, org, es, n - 1);
      StepKeepsInv(Exec(s, org, es[..n - 1]), org, es[n - 1]);
      StepKeepsFree(Exec(s, org, es[..n - 1]), org, es[n - 1]);
    }
  }

  lemma StepAt(s: State, org: Id, es: seq<Event>, k: nat)
    requires k < |es|
    ensures Exec(s, org, es[..k + 1]) == Apply(Exec(s, org, es[..k]), org, es[k])
  {
    ExecStep(s, org, es[..k], es[k]);
    assert es[..k + 1] == es[..k] + [es[k]];
  }

  /**
   In any run in which no one comes to have an address between a provisioning's look-up and its login, no
   step of the view changes anything outside the organization.
   */
  lemma RunIsConfined(s: State, org: Id, es: seq<Event>, n: nat)
    requires Runs.Inv(s.db) && s.jobs == map[] && n < |es| && !es[n].Others?
    requires forall k :: 0 <= k < n ==> !TakesAddress(Exec(s, org, es[..k]), org, es[k])
    ensures View.SameOutside(Exec(s, org, es[..n]).db, Exec(s, org, es[..n + 1]).db, org)
  {
    hide Exec, Apply, Runs.Inv, Free, View.Prefix, View.SameOutside, TakesAddress;
    StaysFree(s, org, es, n);
    StepAt(s, org, es, n);
    FreeStepStays(Exec(s, org, es[..n]), org, es[n]);
  }

  lemma FreeStepStays(s: State, org: Id, e: Event)
    requires Inv(s, org) && AllFree(s) && !e.Others?
    ensures View.SameOutside(s.db, Apply(s, org, e).db, org)
  {
    hide Runs.Inv, Login, View.Prefix, View.Apply, View.SameOutside, SetMember, Free;
    View.SameOutsideSelf(s.db, org);
    match e
    case LogIn(job) =>
      if job in s.jobs && s.jobs[job].LoggingIn? {
        FreeLoginStays(s.db, org, s.jobs[job].r);
      }
    case Join(job) =>
      if job in s.jobs && s.jobs[job].Joining? {
        SetMemberStays(s.db, org, s.jobs[job].id);
      }
    case Calls(call) => View.CallStaysInside(s.db, org, call);
    case _ =>
  }

  lemma SetMemberStays(db: Db, org: Id, id: Id)
    ensures View.SameOutside(db, SetMember(db, org, id, MEMBER), org)
  {
    View.EnsureMemberStays(db, org, id);
    if View.HasRole(db.dir, org, id) {
      var db' := SetMember(db, org, id, MEMBER);
      assert View.OtherMembers(db'.dir, org) == View.OtherMembers(db.dir, org);
      assert View.OtherPlaces(db'.dir, org) == View.OtherPlaces(db.dir, org);
    }
  }

  /** Without that: someone signs up with the address in between, and the login makes their account the organization's. */
  lemma SplitProvisioningTakesOver(db: Db, org: Id, sub: string, address: string, other: string, name: string)
    requires Runs.Inv(db) && View.Accepts(db, org, sub, address) && !(View.Prefix(org) <= other)
    requires BySub(db.users, View.NsSub(org, sub)).None? && BySub(db.users, other).None?
    requires ByEmail(db.users, Norm(address)).None?
    ensures var s := Exec(State(db, map[]), org, [LookUp(0, sub, address, name, true), Others(Runs.SignIn(other, address, name, true))]);
            var id := db.lastUser + 1;
            && id in s.db.users && s.db.users[id] == User(other, Norm(address), name, true, false)
            && Lands(s, org, LogIn(0))
            && Apply(s, org, LogIn(0)).db == s.db.(users := s.db.users[id := User(View.NsSub(org, sub), Norm(address), name, true, false)])
  {
    hide Norm, View.Prefix, View.NsSub, View.Accepts, Bootstrap, Exec, Cascade;
    var s0, id := State(db, map[]), db.lastUser + 1;
    var a, b := LookUp(0, sub, address, name, true), Others(Runs.SignIn(other, address, name, true));
    var r := Request(View.NsSub(org, sub), address, name, true);
    ExecNone(s0, org);
    ExecStep(s0, org, [], a);
    ExecStep(s0, org, [a], b);
    assert [] + [a] == [a] && [a] + [b] == [a, b];
    var s := Exec(s0, org, [a, b]);
    View.NoRowYet(db);
    AcceptsOwn(db, org, sub, address);
    var mine := User(other, Norm(address), name, true, false);
    assert s.db == Insert(db, mine);
    assert s.jobs == map[0 := LoggingIn(r)];
    assert s.db.users[id] == mine;
    NowHeld(db, mine, r.ns);
  }

  lemma AcceptsOwn(db: Db, org: Id, sub: string, address: string)
    requires View.Accepts(db, org, sub, address)
    ensures View.Prefix(org) <= View.NsSub(org, sub)
  {
  }

  lemma NowHeld(db: Db, u: User, ns: string)
    requires BySub(db.users, ns).None? && ByEmail(db.users, u.email).None? && u.sub != ns && db.lastUser + 1 !in db.users
    ensures var users := Insert(db, u).users; BySub(users, ns).None? && ByEmail(users, u.email) == Some(db.lastUser + 1)
  {
    var users := Insert(db, u).users;
    assert users[db.lastUser + 1] == u;
  }
}
