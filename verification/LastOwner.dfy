/**
 The guard on an organization's last owner (orgs_handlers.go). The actor's role is read before the lock
 is taken and may be stale by the time the request runs; the target's role is read under the lock.

 The lock orders the self-service handlers among themselves. The tenant view (orgdirectory.go) never takes
 it, so its writes land anywhere, also between a handler's store calls.
 */
module LastOwner {
  import opened Basics
  import opened OrgRoles

  type Id = nat

  type Roles = map<Id, Role>

  datatype Outcome = Done | NotFound | Forbidden | Conflict

  function Owners(roles: Roles): set<Id> {
    set u | u in roles && roles[u].Owner?
  }

  predicate Sole(roles: Roles, u: Id) {
    Owners(roles) == {u}
  }

  /** What stops a request that touches `target`; None when nothing does. */
  function Refusal(roles: Roles, actorRole: Role, target: Id, keeps: bool, grants: bool): Option<Outcome> {
    if target !in roles then Some(NotFound)
    else if (grants || roles[target].Owner?) && !actorRole.Owner? then Some(Forbidden)
    else if roles[target].Owner? && !keeps && Sole(roles, target) then Some(Conflict)
    else None
  }

  function SetRoleResult(roles: Roles, actorRole: Role, target: Id, role: Role): (Roles, Outcome) {
    if !IsManager(actorRole) then (roles, Forbidden)
    else
      match Refusal(roles, actorRole, target, role.Owner?, role.Owner?)
      case Some(o) => (roles, o)
      case None => (roles[target := role], Done)
  }

  function RemoveResult(roles: Roles, actor: Id, actorRole: Role, target: Id): (Roles, Outcome) {
    if target != actor && !IsManager(actorRole) then (roles, Forbidden)
    else
      match Refusal(roles, actorRole, target, false, false)
      case Some(o) => (roles, o)
      case None => (roles - {target}, Done)
  }

  /** Nobody but `target` is an owner. */
  ghost predicate NoOtherOwner(roles: Roles, target: Id) {
    forall u :: u in roles && roles[u].Owner? ==> u == target
  }

  lemma SoleMeans(roles: Roles, target: Id)
    requires target in roles && roles[target].Owner?
    ensures Sole(roles, target) <==> NoOtherOwner(roles, target)
  {
    assert target in Owners(roles);
    if NoOtherOwner(roles, target) {
      assert Owners(roles) == {target};
    }
    if Sole(roles, target) {
      forall u | u in roles && roles[u].Owner? ensures u == target {
        assert u in Owners(roles);
      }
    }
  }

  /**
   A request for a role is done exactly when its actor manages the organization, its target is a member, an
   owner acts where an owner is made or unmade, and the last one is not. Then the target has exactly that role;
   otherwise no role changes.
   */
  lemma SetsRoleExactly(roles: Roles, actorRole: Role, target: Id, role: Role)
    ensures var (roles', o) := SetRoleResult(roles, actorRole, target, role);
            && (o.Done? <==>
                  && actorRole in {Owner, Admin} && target in roles
                  && (Owner in {role, roles[target]} ==> actorRole == Owner)
                  && !(roles[target] == Owner != role && NoOtherOwner(roles, target)))
            && roles' == (if o.Done? then roles[target := role] else roles)
            && (o.NotFound? <==> actorRole in {Owner, Admin} && target !in roles)
            && (o.Conflict? <==>
                  actorRole == Owner && target in roles && roles[target] == Owner != role && NoOtherOwner(roles, target))
  {
    hide Sole, NoOtherOwner;
    if target in roles && roles[target].Owner? {
      SoleMeans(roles, target);
    }
  }

  /** And a departure: anyone may leave, a manager may remove others, but nobody the last owner. */
  lemma RemovesExactly(roles: Roles, actor: Id, actorRole: Role, target: Id)
    ensures var (roles', o) := RemoveResult(roles, actor, actorRole, target);
            && (o.Done? <==>
                  && (target == actor || actorRole in {Owner, Admin}) && target in roles
                  && (roles[target] == Owner ==> actorRole == Owner)
                  && !(roles[target] == Owner && NoOtherOwner(roles, target)))
            && roles' == (if o.Done? then roles - {target} else roles)
            && (o.NotFound? <==> (target == actor || actorRole in {Owner, Admin}) && target !in roles)
            && (o.Conflict? <==>
                  actorRole == Owner && target in roles && roles[target] == Owner && NoOtherOwner(roles, target))
  {
    hide Sole, NoOtherOwner;
    if target in roles && roles[target].Owner? {
      SoleMeans(roles, target);
    }
  }

  // ---- the code --------------------------------------------------------------------------------------

  datatype Row = Row(user: Id, role: Role)

  ghost predicate Lists(rows: seq<Row>, roles: Roles) {
    && (forall i, j :: 0 <= i < j < |rows| ==> rows[i].user != rows[j].user)
    && (forall i :: 0 <= i < |rows| ==> rows[i].user in roles && roles[rows[i].user] == rows[i].role)
    && (forall u :: u in roles ==> Row(u, roles[u]) in rows)
  }

  function OwnerRows(rows: seq<Row>): set<Id> {
    set i | 0 <= i < |rows| && rows[i].role.Owner? :: rows[i].user
  }

  lemma OwnerRowsNone()
    ensures OwnerRows([]) == {}
  {
  }

  lemma OwnerRowsStep(rows: seq<Row>, roles: Roles, i: nat)
    requires i < |rows| && Lists(rows, roles)
    ensures OwnerRows(rows[..i + 1]) == OwnerRows(rows[..i]) + if rows[i].role.Owner? then {rows[i].user} else {}
    ensures rows[i].user !in OwnerRows(rows[..i])
  {
    var upTo := rows[..i + 1];
    assert upTo == rows[..i] + [rows[i]];
    if rows[i].role.Owner? {
      assert upTo[i].user in OwnerRows(upTo);
    }
    forall u | u in OwnerRows(rows[..i]) ensures u in OwnerRows(upTo) {
      var j :| 0 <= j < i && rows[..i][j].role.Owner? && rows[..i][j].user == u;
      assert upTo[j] == rows[..i][j];
    }
    forall u | u in OwnerRows(upTo) && u != rows[i].user ensures u in OwnerRows(rows[..i]) {
      var j :| 0 <= j < i + 1 && upTo[j].role.Owner? && upTo[j].user == u;
      assert rows[..i][j] == upTo[j];
    }
  }

  lemma ListedOwners(rows: seq<Row>, roles: Roles)
    requires Lists(rows, roles)
    ensures OwnerRows(rows) == Owners(roles)
  {
    forall u | u in Owners(roles) ensures u in OwnerRows(rows) {
      var i :| 0 <= i < |rows| && rows[i] == Row(u, roles[u]);
    }
  }

  lemma OnlyMember(s: set<Id>, u: Id)
    ensures s == {u} <==> u in s && |s| == 1
  {
    if u in s && |s| == 1 {
      assert |s - {u}| == 0;
    }
  }

  lemma ListOneMore(rows: seq<Row>, roles: Roles, todo: set<Id>, u: Id)
    requires u in todo && u in roles && Lists(rows, roles - todo)
    ensures Lists(rows + [Row(u, roles[u])], roles - (todo - {u}))
  {
    var rows' := rows + [Row(u, roles[u])];
    forall v | v in roles - (todo - {u}) ensures Row(v, roles[v]) in rows' {
      if v == u {
        assert rows'[|rows|] == Row(u, roles[u]);
      } else {
        assert v in roles - todo;
      }
    }
  }

  class Organization {
    var roles: Roles

    constructor (founder: Id)
      ensures roles == map[founder := Owner]
    {
      roles := map[founder := Owner];
    }

    /** The members in some order: a Go map is visited in any order, and the sort by email is not modelled. */
    method OrgMembers() returns (rows: seq<Row>)
      ensures Lists(rows, roles)
    {
      rows := [];
      var todo := roles.Keys;
      while todo != {}
        invariant todo <= roles.Keys
        invariant Lists(rows, roles - todo)
        decreases |todo|
      {
        var u :| u in todo;
        var row := Row(u, roles[u]);
        ListOneMore(rows, roles, todo, u);
        rows := rows + [row];
        todo := todo - {u};
      }
      assert roles - {} == roles;
    }

    /** Whether `user` is the organization's only owner. */
    method SoleOwner(user: Id) returns (sole: bool)
      ensures sole <==> Sole(roles, user)
    {
      hide Owners, OwnerRows, Lists;
      var members := OrgMembers();
      OwnerRowsNone();
      var owners, isOwner := 0, false;
      for i := 0 to |members|
        invariant owners == |OwnerRows(members[..i])|
        invariant isOwner <==> user in OwnerRows(members[..i])
      {
        OwnerRowsStep(members, roles, i);
        if members[i].role.Owner? {
          owners := owners + 1;
          if members[i].user == user {
            isOwner := true;
          }
        }
      }
      assert members[..|members|] == members;
      ListedOwners(members, roles);
      OnlyMember(Owners(roles), user);
      return isOwner && owners == 1;
    }

    method SetRole(actorRole: Role, target: Id, newRole: Role) returns (o: Outcome)
      modifies this
      ensures (roles, o) == SetRoleResult(old(roles), actorRole, target, newRole)
    {
      if !IsManager(actorRole) {
        return Forbidden;
      }
      if target !in roles {
        return NotFound;
      }
      var targetRole := roles[target];
      if (newRole.Owner? || targetRole.Owner?) && !actorRole.Owner? {
        return Forbidden;
      }
      if targetRole.Owner? && !newRole.Owner? {
        var sole := SoleOwner(target);
        if sole {
          return Conflict;
        }
      }
      roles := roles[target := newRole];
      return Done;
    }

    method Remove(actor: Id, actorRole: Role, target: Id) returns (o: Outcome)
      modifies this
      ensures (roles, o) == RemoveResult(old(roles), actor, actorRole, target)
    {
      var leaving := target == actor;
      if !leaving && !IsManager(actorRole) {
        return Forbidden;
      }
      if target !in roles {
        return NotFound;
      }
      var targetRole := roles[target];
      if targetRole.Owner? && !actorRole.Owner? {
        return Forbidden;
      }
      if targetRole.Owner? {
        var sole := SoleOwner(target);
        if sole {
          return Conflict;
        }
      }
      roles := roles - {target};
      return Done;
    }
  }

  // ---- interleaved requests --------------------------------------------------------------------------

  /** What a request asks for: a role for a member, or a member's departure. */
  datatype Goal = Become(target: Id, role: Role) | Go(target: Id) {
    predicate Grants() {
      Become? && role.Owner?
    }
  }

  /** A request that has read its actor's role and waits for the lock. */
  datatype Request = Request(actor: Id, role: Role)

  datatype Phase = Reading | Checking | Writing

  /** The request that holds the lock, and the store call it makes next. */
  datatype Held = Held(actor: Id, role: Role, goal: Goal, phase: Phase)

  /** A call of the tenant view that has read the target's role and is about to write. */
  datatype ViewWrite = Removal(target: Id) | Joining(target: Id)

  datatype State = State(roles: Roles, requests: map<nat, Request>, held: Option<Held>, views: map<nat, ViewWrite>)

  datatype Event =
    | Begin(job: nat, actor: Id)
    | Lock(job: nat, goal: Goal)
    | ReadTarget
    | CheckSole
    | Write
    | BeginRemoval(view: nat, target: Id)
    | BeginJoining(view: nat, target: Id)
    | EndView(view: nat)

  /** The check before the lock: only a manager may touch anyone else. */
  predicate Standing(actor: Id, role: Role, goal: Goal) {
    IsManager(role) || (goal.Go? && goal.target == actor)
  }

  function Written(roles: Roles, goal: Goal): Roles {
    match goal
    case Become(target, role) => roles[target := role]
    case Go(target) => roles - {target}
  }

  function Landed(roles: Roles, v: ViewWrite): Roles {
    match v
    case Removal(target) => roles - {target}
    case Joining(target) => roles[target := MEMBER]
  }

  function Refused(roles: Roles, h: Held): Option<Outcome> {
    if h.goal.target !in roles then Some(NotFound)
    else if (h.goal.Grants() || roles[h.goal.target].Owner?) && !h.role.Owner? then Some(Forbidden)
    else None
  }

  /** Under the lock, the target's role decides: refuse, count the owners first, or write. */
  function AfterReading(roles: Roles, h: Held): Option<Held> {
    if Refused(roles, h).Some? then None
    else if roles[h.goal.target].Owner? && !h.goal.Grants() then Some(h.(phase := Checking))
    else Some(h.(phase := Writing))
  }

  /** An event that is not enabled changes nothing. */
  function Apply(s: State, e: Event): State {
    match e
    case Begin(job, actor) =>
      if actor in s.roles && job !in s.requests then s.(requests := s.requests[job := Request(actor, s.roles[actor])]) else s
    case Lock(job, goal) =>
      if job !in s.requests || s.held.Some? then s
      else
        var r := s.requests[job];
        s.(requests := s.requests - {job},
           held := if Standing(r.actor, r.role, goal) then Some(Held(r.actor, r.role, goal, Reading)) else None)
    case ReadTarget =>
      if s.held.Some? && s.held.value.phase.Reading? then s.(held := AfterReading(s.roles, s.held.value)) else s
    case CheckSole =>
      if s.held.Some? && s.held.value.phase.Checking? then
        s.(held := if Sole(s.roles, s.held.value.goal.target) then None else Some(s.held.value.(phase := Writing)))
      else s
    case Write =>
      if s.held.Some? && s.held.value.phase.Writing?
      then s.(roles := Written(s.roles, s.held.value.goal), held := None) else s
    case BeginRemoval(view, target) =>
      if target in s.roles && !s.roles[target].Owner? && view !in s.views
      then s.(views := s.views[view := Removal(target)]) else s
    case BeginJoining(view, target) =>
      if target !in s.roles && view !in s.views then s.(views := s.views[view := Joining(target)]) else s
    case EndView(view) =>
      if view in s.views then s.(roles := Landed(s.roles, s.views[view]), views := s.views - {view}) else s
  }

  function Exec(s: State, es: seq<Event>): State {
    if es == [] then s else Apply(Exec(s, es[..|es| - 1]), es[|es| - 1])
  }

  /** The answer the request gets, if this step ends it. */
  function Reports(s: State, e: Event): seq<Outcome> {
    match e
    case Lock(job, goal) =>
      if job in s.requests && s.held.None? && !Standing(s.requests[job].actor, s.requests[job].role, goal) then [Forbidden]
      else []
    case ReadTarget =>
      if s.held.Some? && s.held.value.phase.Reading? && Refused(s.roles, s.held.value).Some?
      then [Refused(s.roles, s.held.value).value] else []
    case CheckSole =>
      if s.held.Some? && s.held.value.phase.Checking? && Sole(s.roles, s.held.value.goal.target) then [Conflict] else []
    case Write => if s.held.Some? && s.held.value.phase.Writing? then [Done] else []
    case _ => []
  }

  function Outcomes(s: State, es: seq<Event>): seq<Outcome> {
    if es == [] then []
    else Outcomes(s, es[..|es| - 1]) + Reports(Exec(s, es[..|es| - 1]), es[|es| - 1])
  }

  lemma ExecNone(s: State)
    ensures Exec(s, []) == s && Outcomes(s, []) == []
  {
  }

  lemma ExecStep(s: State, es: seq<Event>, e: Event)
    ensures Exec(s, es + [e]) == Apply(Exec(s, es), e)
    ensures Outcomes(s, es + [e]) == Outcomes(s, es) + Reports(Exec(s, es), e)
  {
    assert (es + [e])[..|es|] == es;
  }

  lemma {:induction false} ExecAppend(s: State, es: seq<Event>, more: seq<Event>)
    ensures Exec(s, es + more) == Exec(Exec(s, es), more)
  {
    if more == [] {
      assert es + more == es;
    } else {
      ExecAppend(s, es, more[..|more| - 1]);
      assert (es + more)[..|es + more| - 1] == es + more[..|more| - 1];
    }
  }

  lemma LastTwo(s: State, es: seq<Event>, e: Event, f: Event)
    ensures Exec(s, es + [e, f]) == Apply(Apply(Exec(s, es), e), f)
    ensures Outcomes(s, es + [e, f]) == Outcomes(s, es) + Reports(Exec(s, es), e) + Reports(Apply(Exec(s, es), e), f)
  {
    hide Apply, Reports, Exec, Outcomes;
    ExecStep(s, es, e);
    ExecStep(s, es + [e], f);
    assert es + [e, f] == es + [e] + [f];
  }

  lemma FirstTwo(s: State, e: Event, f: Event)
    ensures Exec(s, [e, f]) == Apply(Apply(s, e), f)
    ensures Outcomes(s, [e, f]) == Reports(s, e) + Reports(Apply(s, e), f)
  {
    hide Apply, Reports, Exec, Outcomes;
    ExecNone(s);
    LastTwo(s, [], e, f);
    assert [] + [e, f] == [e, f];
    assert [] + Reports(s, e) == Reports(s, e);
  }

  lemma FourSteps(s: State, a: Event, b: Event, c: Event, d: Event)
    ensures Exec(s, [a, b, c, d]) == Apply(Apply(Apply(Apply(s, a), b), c), d)
    ensures Outcomes(s, [a, b, c, d])
            == Reports(s, a) + Reports(Apply(s, a), b) + Reports(Apply(Apply(s, a), b), c)
               + Reports(Apply(Apply(Apply(s, a), b), c), d)
  {
    hide Apply, Reports, Exec, Outcomes;
    FirstTwo(s, a, b);
    LastTwo(s, [a, b], c, d);
    assert [a, b] + [c, d] == [a, b, c, d];
  }

  /** A handler whose steps nothing interrupts does what the methods above do, and answers once, as they do. */
  lemma HandlerIsRun(s: State, job: nat, goal: Goal)
    requires job in s.requests && s.held.None?
    ensures var es := [Lock(job, goal), ReadTarget, CheckSole, Write];
            var r, s' := s.requests[job], Exec(s, es);
            && s'.held.None? && s'.requests == s.requests - {job} && s'.views == s.views
            && (s'.roles, Outcomes(s, es)) == Answered(s.roles, r, goal)
  {
    hide Owners, Exec, Outcomes;
    var e := Lock(job, goal);
    FourSteps(s, e, ReadTarget, CheckSole, Write);
    var s1 := Apply(s, e);
    var s2 := Apply(s1, ReadTarget);
    var s3 := Apply(s2, CheckSole);
    var os := Reports(s, e) + Reports(s1, ReadTarget) + Reports(s2, CheckSole) + Reports(s3, Write);
    assert |os| == 1 && os == [os[0]];
  }

  /** What the methods above leave and answer, the one answer as a list. */
  function Answered(roles: Roles, r: Request, goal: Goal): (Roles, seq<Outcome>) {
    var (roles', o) := match goal
                       case Become(target, role) => SetRoleResult(roles, r.role, target, role)
                       case Go(target) => RemoveResult(roles, r.actor, r.role, target);
    (roles', [o])
  }

  // ---- an owner remains --------------------------------------------------------------------------------

  predicate Owned(roles: Roles) {
    Owners(roles) != {}
  }

  /** Whom the request that holds the lock is about to take the ownership from, if it has come that far. */
  function Going(s: State): set<Id> {
    if s.held.Some? && s.held.value.phase.Writing? && !s.held.value.goal.Grants() then {s.held.value.goal.target} else {}
  }

  /** There is an owner, now and once the lock holder has written. */
  predicate Secure(s: State) {
    Owned(s.roles) && Owned(Apply(s, Write).roles)
  }

  /** A view write that lands on the one owner left, the lock holder's target aside. */
  predicate Undermines(s: State, e: Event) {
    e.EndView? && e.view in s.views && Owners(s.roles) - {s.views[e.view].target} - Going(s) == {}
  }

  /** A view write that lands on an owner at all. */
  predicate LandsOnOwner(s: State, e: Event) {
    e.EndView? && e.view in s.views && s.views[e.view].target in Owners(s.roles)
  }

  lemma SetOwners(roles: Roles, target: Id, role: Role)
    ensures Owners(roles[target := role]) == if role.Owner? then Owners(roles) + {target} else Owners(roles) - {target}
    ensures Owners(roles - {target}) == Owners(roles) - {target}
  {
  }

  lemma OwnersWritten(roles: Roles, goal: Goal)
    ensures Owners(Written(roles, goal))
            == if goal.Grants() then Owners(roles) + {goal.target} else Owners(roles) - {goal.target}
  {
    hide Owners;
    SetOwners(roles, goal.target, if goal.Become? then goal.role else MEMBER);
  }

  lemma OwnersLanded(roles: Roles, v: ViewWrite)
    ensures Owners(Landed(roles, v)) == Owners(roles) - {v.target}
  {
    hide Owners;
    SetOwners(roles, v.target, MEMBER);
  }

  lemma SecureMeans(s: State)
    ensures Secure(s) <==> Owned(s.roles) && Owners(s.roles) - Going(s) != {}
  {
    hide Owners;
    if s.held.Some? {
      OwnersWritten(s.roles, s.held.value.goal);
    }
  }

  /** Exactly one kind of step endangers the last owner: a view write that undermines it. */
  lemma StepKeepsSecure(s: State, e: Event)
    requires Secure(s)
    ensures Secure(Apply(s, e)) <==> !Undermines(s, e)
  {
    hide Owners, Secure;
    var s' := Apply(s, e);
    SecureMeans(s);
    SecureMeans(s');
    if e.EndView? && e.view in s.views {
      OwnersLanded(s.roles, s.views[e.view]);
    } else if e.Write? && s.held.Some? {
      OwnersWritten(s.roles, s.held.value.goal);
    } else if e.ReadTarget? && s.held.Some? {
      NotOwner(s.roles, s.held.value.goal.target);
    }
  }

  lemma NotOwner(roles: Roles, u: Id)
    ensures u in Owners(roles) <==> u in roles && roles[u].Owner?
    ensures u !in Owners(roles) ==> Owners(roles) - {u} == Owners(roles)
  {
  }

  /** Such a write costs the last owner at once, or with the next store call of the request under the lock. */
  lemma UnderminingLosesOwner(s: State, e: Event)
    requires Secure(s) && Undermines(s, e)
    ensures !Owned(Apply(s, e).roles) || !Owned(Apply(Apply(s, e), Write).roles)
  {
    StepKeepsSecure(s, e);
  }

  lemma StepAt(s: State, es: seq<Event>, k: nat)
    requires k < |es|
    ensures Exec(s, es[..k + 1]) == Apply(Exec(s, es[..k]), es[k])
  {
    ExecStep(s, es[..k], es[k]);
    assert es[..k + 1] == es[..k] + [es[k]];
  }

  lemma {:induction false} StaysSecure(s: State, es: seq<Event>, n: nat)
    requires Secure(s) && n <= |es|
    requires forall k :: 0 <= k < n ==> !Undermines(Exec(s, es[..k]), es[k])
    ensures Secure(Exec(s, es[..n]))
  {
    hide Secure, Undermines, Apply;
    if n > 0 {
      StaysSecure(s, es, n - 1);
      StepAt(s, es, n - 1);
      StepKeepsSecure(Exec(s, es[..n - 1]), es[n - 1]);
    }
  }

  /** Over a whole run: the organization stays secure throughout exactly when no view write undermines it. */
  lemma SecureExactlyWhen(s: State, es: seq<Event>)
    requires Secure(s)
    ensures (forall k :: 0 <= k <= |es| ==> Secure(Exec(s, es[..k])))
            <==> forall k :: 0 <= k < |es| ==> !Undermines(Exec(s, es[..k]), es[k])
  {
    hide Secure, Undermines, Apply, Exec;
    if forall k :: 0 <= k <= |es| ==> Secure(Exec(s, es[..k])) {
      forall k | 0 <= k < |es| ensures !Undermines(Exec(s, es[..k]), es[k]) {
        StepAt(s, es, k);
        StepKeepsSecure(Exec(s, es[..k]), es[k]);
      }
    }
    if forall k :: 0 <= k < |es| ==> !Undermines(Exec(s, es[..k]), es[k]) {
      forall k | 0 <= k <= |es| ensures Secure(Exec(s, es[..k])) {
        StaysSecure(s, es, k);
      }
    }
  }

  /** No interleaving of handlers and view calls in which no view write lands on an owner leaves none. */
  lemma OwnerRemains(s: State, es: seq<Event>)
    requires Secure(s)
    requires forall k :: 0 <= k < |es| ==> !LandsOnOwner(Exec(s, es[..k]), es[k])
    ensures Owned(Exec(s, es).roles)
  {
    assert es[..|es|] == es;
    MissesAll(s, es, |es|);
  }

  lemma {:induction false} MissesAll(s: State, es: seq<Event>, n: nat)
    requires Secure(s) && n <= |es|
    requires forall k :: 0 <= k < n ==> !LandsOnOwner(Exec(s, es[..k]), es[k])
    ensures Secure(Exec(s, es[..n]))
  {
    hide Secure, Undermines, LandsOnOwner, Apply;
    if n > 0 {
      MissesAll(s, es, n - 1);
      StepAt(s, es, n - 1);
      MissesOwners(Exec(s, es[..n - 1]), es[n - 1]);
      StepKeepsSecure(Exec(s, es[..n - 1]), es[n - 1]);
    }
  }

  lemma MissesOwners(s: State, e: Event)
    requires Secure(s) && !LandsOnOwner(s, e)
    ensures !Undermines(s, e)
  {
    hide Owners, Secure;
    SecureMeans(s);
    if e.EndView? && e.view in s.views {
      NotOwner(s.roles, s.views[e.view].target);
    }
  }

  /** In particular the self-service handlers alone never do, however interleaved. */
  lemma SelfServiceKeepsOwner(s: State, es: seq<Event>)
    requires Secure(s) && forall e :: e in es ==> !e.EndView?
    ensures Owned(Exec(s, es).roles)
  {
    forall k | 0 <= k < |es| ensures !LandsOnOwner(Exec(s, es[..k]), es[k]) {
      assert es[k] in es;
    }
    OwnerRemains(s, es);
  }

  // ---- and how each kind of view write can cost the last one ---------------------------------------------

  function Promotion(job: nat, actor: Id, target: Id): seq<Event> {
    [Begin(job, actor), Lock(job, Become(target, Owner)), ReadTarget, Write]
  }

  lemma Promotes(s: State, job: nat, actor: Id, target: Id)
    requires s.held.None? && job !in s.requests && actor in s.roles && s.roles[actor].Owner?
    requires target in s.roles && !s.roles[target].Owner?
    ensures Exec(s, Promotion(job, actor, target)) == s.(roles := s.roles[target := Owner])
  {
    FourSteps(s, Begin(job, actor), Lock(job, Become(target, Owner)), ReadTarget, Write);
    assert s.requests[job := Request(actor, Owner)] - {job} == s.requests;
  }

  /** An owner's departure up to its write. */
  function Departure(job: nat, actor: Id): seq<Event> {
    [Begin(job, actor), Lock(job, Go(actor)), ReadTarget, CheckSole]
  }

  lemma Departs(s: State, job: nat, actor: Id, other: Id)
    requires s.held.None? && job !in s.requests && actor != other
    requires actor in s.roles && s.roles[actor].Owner? && other in s.roles && s.roles[other].Owner?
    ensures Exec(s, Departure(job, actor)) == s.(held := Some(Held(actor, Owner, Go(actor), Writing)))
  {
    FourSteps(s, Begin(job, actor), Lock(job, Go(actor)), ReadTarget, CheckSole);
    assert s.requests[job := Request(actor, Owner)] - {job} == s.requests;
    assert other in Owners(s.roles);
  }

  /** `other` is promoted and `owner` is about to leave, while view write 0 waits. */
  lemma PromotedAndLeaving(s: State, owner: Id, other: Id, v: ViewWrite)
    requires owner != other && s == State(map[owner := Owner, other := MEMBER], map[], None, map[0 := v])
    ensures Exec(s, Promotion(0, owner, other) + Departure(0, owner))
            == State(map[owner := Owner, other := Owner], map[], Some(Held(owner, Owner, Go(owner), Writing)), map[0 := v])
  {
    hide Exec, Outcomes, Reports, Promotion, Departure;
    ExecAppend(s, Promotion(0, owner, other), Departure(0, owner));
    Promotes(s, 0, owner, other);
    var s' := s.(roles := map[owner := Owner, other := Owner]);
    assert s.roles[other := Owner] == s'.roles;
    Departs(s', 0, owner, other);
  }

  /** A waiting view write on the new owner lands after the old one has left, or between its check and write. */
  lemma EitherOrderLoses(s: State, owner: Id, other: Id, v: ViewWrite)
    requires owner != other && v.target == other
    requires s == State(map[owner := Owner, other := Owner], map[], Some(Held(owner, Owner, Go(owner), Writing)), map[0 := v])
    ensures !Owned(Apply(Apply(s, Write), EndView(0)).roles)
    ensures Owned(Apply(s, EndView(0)).roles) && !Owned(Apply(Apply(s, EndView(0)), Write).roles)
  {
    var after, inside := Apply(s, Write), Apply(s, EndView(0));
    assert after.roles == map[other := Owner] && after.views == map[0 := v];
    assert Owners(Apply(after, EndView(0)).roles) == {};
    assert owner in Owners(inside.roles);
    assert Owners(Apply(inside, Write).roles) == {};
  }

  lemma RunsOn(s: State, first: Event, es: seq<Event>, e: Event, f: Event)
    ensures Exec(s, [first] + es + [e, f]) == Apply(Apply(Exec(Apply(s, first), es), e), f)
  {
    hide Apply, Exec, Outcomes;
    ExecNone(s);
    ExecStep(s, [], first);
    assert [] + [first] == [first];
    ExecAppend(s, [first], es);
    ExecStep(s, [first] + es, e);
    ExecStep(s, [first] + es + [e], f);
    assert [first] + es + [e, f] == [first] + es + [e] + [f];
  }

  /** A deprovisioning that began on a member: in both places it can take away the last owner. */
  lemma RemovalCanLoseOwner(owner: Id, other: Id)
    requires owner != other
    ensures var s := State(map[owner := Owner, other := MEMBER], map[], None, map[]);
            var es := [BeginRemoval(0, other)] + (Promotion(0, owner, other) + Departure(0, owner));
            && Secure(s) && !Owned(Exec(s, es + [Write, EndView(0)]).roles) && !Owned(Exec(s, es + [EndView(0), Write]).roles)
  {
    hide Exec, Outcomes, Reports, Promotion, Departure;
    var s := State(map[owner := Owner, other := MEMBER], map[], None, map[]);
    var s1 := State(s.roles, map[], None, map[0 := Removal(other)]);
    assert Apply(s, BeginRemoval(0, other)) == s1;
    assert owner in Owners(s.roles);
    PromotedAndLeaving(s1, owner, other, Removal(other));
    EitherOrderLoses(Exec(s1, Promotion(0, owner, other) + Departure(0, owner)), owner, other, Removal(other));
    RunsOn(s, BeginRemoval(0, other), Promotion(0, owner, other) + Departure(0, owner), Write, EndView(0));
    RunsOn(s, BeginRemoval(0, other), Promotion(0, owner, other) + Departure(0, owner), EndView(0), Write);
  }

  /** Two provisionings of one user who is not a member yet: the second one to write can demote the last owner. */
  lemma JoiningCanLoseOwner(owner: Id, other: Id)
    requires owner != other
    ensures var s := State(map[owner := Owner], map[], None, map[]);
            var both := [BeginJoining(0, other), BeginJoining(1, other), EndView(1)];
            var es := both + (Promotion(0, owner, other) + Departure(0, owner));
            && Secure(s) && !Owned(Exec(s, es + [Write, EndView(0)]).roles) && !Owned(Exec(s, es + [EndView(0), Write]).roles)
  {
    hide Exec, Outcomes, Reports, Promotion, Departure;
    var s := State(map[owner := Owner], map[], None, map[]);
    var both := [BeginJoining(0, other), BeginJoining(1, other), EndView(1)];
    var more := Promotion(0, owner, other) + Departure(0, owner);
    var s1 := State(map[owner := Owner, other := MEMBER], map[], None, map[0 := Joining(other)]);
    assert owner in Owners(s.roles);
    BothBegin(s, s1, other);
    PromotedAndLeaving(s1, owner, other, Joining(other));
    EitherOrderLoses(Exec(s1, more), owner, other, Joining(other));
    ExecAppend(s, both, more);
    LastTwo(s, both + more, Write, EndView(0));
    LastTwo(s, both + more, EndView(0), Write);
  }

  lemma ThreeSteps(s: State, a: Event, b: Event, c: Event)
    ensures Exec(s, [a, b, c]) == Apply(Apply(Apply(s, a), b), c)
  {
    hide Apply, Reports, Exec, Outcomes;
    FirstTwo(s, a, b);
    ExecStep(s, [a, b], c);
    assert [a, b] + [c] == [a, b, c];
  }

  lemma BothBegin(s: State, s1: State, other: Id)
    requires other !in s.roles && s.views == map[]
    requires s1 == s.(roles := s.roles[other := MEMBER], views := map[0 := Joining(other)])
    ensures Exec(s, [BeginJoining(0, other), BeginJoining(1, other), EndView(1)]) == s1
  {
    hide Exec, Owners;
    var a, b, c := BeginJoining(0, other), BeginJoining(1, other), EndView(1);
    ThreeSteps(s, a, b, c);
    var s2 := s.(views := map[0 := Joining(other), 1 := Joining(other)]);
    assert Apply(Apply(s, a), b) == s2;
    assert s2.views - {1} == map[0 := Joining(other)];
  }

  // ---- who changes what ----------------------------------------------------------------------------------

  /** The request under the lock passed the check before it and, once it has read its target, the gate. */
  predicate Gated(s: State) {
    s.held.Some? ==>
      var h := s.held.value;
      && Standing(h.actor, h.role, h.goal)
      && (!h.phase.Reading? && (h.goal.Grants() || h.goal.target in Owners(s.roles)) ==> h.role.Owner?)
  }

  lemma StepKeepsGated(s: State, e: Event)
    requires Gated(s)
    ensures Gated(Apply(s, e))
  {
    hide Owners;
    if e.EndView? && e.view in s.views {
      OwnersLanded(s.roles, s.views[e.view]);
    } else if e.ReadTarget? && s.held.Some? {
      NotOwner(s.roles, s.held.value.goal.target);
    }
  }

  lemma {:induction false} RunKeepsGated(s: State, es: seq<Event>)
    requires Gated(s)
    ensures Gated(Exec(s, es))
  {
    if es != [] {
      RunKeepsGated(s, es[..|es| - 1]);
      StepKeepsGated(Exec(s, es[..|es| - 1]), es[|es| - 1]);
    }
  }

  /**
   In every run, view writes between its store calls included, a handler changes no role but its target's;
   it changes someone else's only for a manager, and an owner's only for an owner.
   */
  lemma OnlyStandingChanges(s: State, es: seq<Event>, e: Event)
    requires s.held.None? && !e.EndView?
    requires Apply(Exec(s, es), e).roles != Exec(s, es).roles
    ensures var before, h := Exec(s, es), Exec(s, es).held;
            && e.Write? && h.Some?
            && Apply(before, e).roles - {h.value.goal.target} == before.roles - {h.value.goal.target}
            && (IsManager(h.value.role) || (h.value.goal.Go? && h.value.goal.target == h.value.actor))
            && (h.value.goal.target in Owners(before.roles) ==> h.value.role.Owner?)
  {
    hide Owners, Exec;
    RunKeepsGated(s, es);
  }

  /** Someone with this role began a request and has not written yet. */
  predicate Pending(s: State, r: Request) {
    (exists job :: job in s.requests && s.requests[job] == r)
    || (s.held.Some? && Request(s.held.value.actor, s.held.value.role) == r)
  }

  /** Step `k` of the run began a request for someone of this role. */
  ghost predicate BegunAs(s: State, es: seq<Event>, r: Request, k: nat) {
    && k < |es| && es[k].Begin? && es[k].actor == r.actor
    && r.actor in Exec(s, es[..k]).roles && Exec(s, es[..k]).roles[r.actor] == r.role
  }

  lemma {:induction false} RequestsReadTheirRole(s: State, es: seq<Event>, r: Request)
    requires !Pending(s, r) && Pending(Exec(s, es), r)
    ensures exists k: nat :: BegunAs(s, es, r, k)
  {
    hide Pending, Apply;
    assert es != [];
    var rest, e := es[..|es| - 1], es[|es| - 1];
    assert es[..|rest|] == rest;
    if Pending(Exec(s, rest), r) {
      RequestsReadTheirRole(s, rest, r);
      var k: nat :| BegunAs(s, rest, r, k);
      assert es[..k] == rest[..k] && es[k] == rest[k];
      assert BegunAs(s, es, r, k);
    } else {
      OnlyBeginAdds(Exec(s, rest), e, r);
      assert BegunAs(s, es, r, |rest|);
    }
  }

  lemma OnlyBeginAdds(s: State, e: Event, r: Request)
    requires !Pending(s, r) && Pending(Apply(s, e), r)
    ensures e.Begin? && e.actor == r.actor && r.actor in s.roles && s.roles[r.actor] == r.role
  {
    hide Owners;
    var s' := Apply(s, e);
    if job :| job in s'.requests && s'.requests[job] == r {
      assert job !in s.requests;
    }
  }

  lemma ViewWritesAddNoOwner(s: State, view: nat)
    ensures Owners(Apply(s, EndView(view)).roles) <= Owners(s.roles)
  {
    hide Owners;
    if view in s.views {
      OwnersLanded(s.roles, s.views[view]);
    }
  }

  lemma OnlyWritesAddOwners(s: State, e: Event, u: Id)
    requires u !in Owners(s.roles) && u in Owners(Apply(s, e).roles)
    ensures e.Write? && s.held.Some? && s.held.value.goal == Become(u, Owner)
  {
    hide Owners;
    if e.EndView? {
      ViewWritesAddNoOwner(s, e.view);
    } else if e.Write? && s.held.Some? {
      OwnersWritten(s.roles, s.held.value.goal);
    }
  }

  /** Ownership comes only from a request whose actor was an owner when it began. */
  lemma OwnershipComesFromAnOwner(s: State, es: seq<Event>, e: Event, u: Id)
    requires s.requests == map[] && s.held.None?
    requires u !in Owners(Exec(s, es).roles) && u in Owners(Apply(Exec(s, es), e).roles)
    ensures var h := Exec(s, es).held;
            && e.Write? && h.Some? && h.value.goal == Become(u, Owner)
            && exists k: nat :: BegunAs(s, es, Request(h.value.actor, Owner), k)
  {
    hide Owners, Exec;
    var before := Exec(s, es);
    RunKeepsGated(s, es);
    OnlyWritesAddOwners(before, e, u);
    var h := before.held.value;
    RequestsReadTheirRole(s, es, Request(h.actor, h.role));
  }
}
