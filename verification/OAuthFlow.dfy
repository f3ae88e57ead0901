/**
 The life of an authorization: request, approval, code, grant, access and refresh tokens, revocation
 and clean-up, with any number of handlers in flight (oidcprovider/consent.go, oidcprovider/storage.go,
 oidcprovider/requests.go).

 A handler is a job. Each of its store calls is a step, so a job works on the copy it read earlier while
 other jobs change the store. Ids, codes and tokens are fresh when created; hashes are injective, so a
 code or refresh token stands for its hash. A client that is not stored stands for one described by a
 metadata document. An event that cannot happen leaves the state unchanged, and one whose handler gives
 up ends the job.
 */
module OAuthFlow {
  import opened Basics
  import opened OAuthRecords
  import opened OAuthCleanUp

  const OPENID: string := "openid"
  const OFFLINE_ACCESS: string := "offline_access"

  datatype Config = Config(accessTTL: Time, refreshTTL: Time, unusedClientTTL: Time)

  /** A user's approval of a request: nil scopes grant all it asked. */
  datatype Decision = Decision(request: Id, subject: string, scopes: Option<Scopes>, ref: string, ends: Option<Time>)

  /** A code presented to one process. */
  datatype Mark = Mark(proc: nat, code: string)

  datatype MintStep = ToAccess | ToTouch(at: Time) | ToRefresh

  datatype Job =
    | LoggingIn(id: Id, r: Request, subject: string)
    | Approving(id: Id, r: Request, d: Decision)
    | Coding(id: Id, r: Request, code: string)
    | Presenting(mark: Mark)
    | Redeeming(id: Id, r: Request)
    | GotToken(h: Id, t: Refresh)
    | Ready(h: Id, t: Refresh, g: Grant, scopes: Scopes)
    | Used(h: Id, t: Refresh, g: Grant, scopes: Scopes)
    | Replaying(gid: Id)
    | Minting(gid: Id, g: Grant, scopes: Scopes, from: Option<Id>, refresh: bool, step: MintStep)

  /** Requests as they were asked, the decisions made on them, and the codes issued for them. */
  datatype Sources = Sources(asked: map<Id, Request>, decisions: seq<Decision>, issued: map<string, Id>)

  /** The history: the sources of authority, grants and tokens as they were created, which refresh token
      was exchanged for which, the codes presented, and the presentations accepted. */
  datatype Log = Log(
    src: Sources,
    born: map<Id, Grant>,
    accessed: map<Id, Access>,
    minted: map<Id, Refresh>,
    parent: map<Id, Id>,
    presented: set<string>,
    accepted: seq<Mark>)

  datatype State = State(now: Time, db: Db, codes: map<Mark, Time>, jobs: map<nat, Job>, log: Log)

  const INITIAL: State :=
    State(0, EMPTY_DB, map[], map[], Log(Sources(map[], [], map[]), map[], map[], map[], map[], {}, []))

  datatype Event =
    | Tick(lapse: nat)
    | NewClient(id: Id, dynamic: bool, mayRefresh: bool)
    | DropClient(id: Id)
    | NewRequest(id: Id, client: Id, mayRefresh: bool, scopes: Scopes, resources: seq<string>)
    | StartLogin(job: nat, id: Id, subject: string)
    | SaveLogin(job: nat)
    | StartApprove(job: nat, d: Decision)
    | SaveApprove(job: nat)
    | DropRequest(id: Id)
    | StartCode(job: nat, id: Id, code: string)
    | SaveCode(job: nat)
    | Present(job: nat, mark: Mark)
    | ReadCode(job: nat, id: Id)
    | CreateGrant(job: nat, gid: Id, refresh: bool, userOk: bool)
    | CreateAccess(job: nat, tid: Id)
    | TouchForMint(job: nat)
    | CreateRefresh(job: nat, h: Id)
    | LookUp(job: nat, h: Id)
    | ReadGrant(job: nat, userOk: bool)
    | Narrow(job: nat, scopes: Scopes)
    | UseToken(job: nat)
    | CheckLive(job: nat, userOk: bool)
    | AccessOnly(job: nat, userOk: bool)
    | Replay(job: nat)
    | Revoke(f: GrantFilter)
    | RevokeAccess(tid: Id)
    | Expire
    | ForgetCodes(proc: nat)
    | Abandon(job: nat)

  // --- pure parts of the handlers ---

  /** The elements of `xs` that `keep` holds of, in order. */
  function Filter(xs: Scopes, keep: string -> bool): (r: Scopes)
    ensures |r| <= |xs| && forall x :: x in r <==> x in xs && keep(x)
  {
    if xs == [] then []
    else if keep(xs[|xs| - 1]) then Filter(xs[..|xs| - 1], keep) + [xs[|xs| - 1]]
    else Filter(xs[..|xs| - 1], keep)
  }

  lemma FilterStep(xs: Scopes, x: string, keep: string -> bool)
    ensures Filter(xs + [x], keep) == Filter(xs, keep) + if keep(x) then [x] else []
  {
    assert (xs + [x])[..|xs|] == xs;
  }

  /** It keeps the order, and what occurs twice. */
  lemma {:induction false} FilterJoins(xs: Scopes, ys: Scopes, keep: string -> bool)
    ensures Filter(xs + ys, keep) == Filter(xs, keep) + Filter(ys, keep)
  {
    if ys == [] {
      assert xs + ys == xs;
    } else {
      var init, y := ys[..|ys| - 1], ys[|ys| - 1];
      hide Filter;
      FilterJoins(xs, init, keep);
      FilterStep(init, y, keep);
      FilterStep(xs + init, y, keep);
      Regrouped(xs, init, y);
      Associate(Filter(xs, keep), Filter(init, keep), if keep(y) then [y] else []);
      assert ys == init + [y];
    }
  }

  lemma Regrouped(xs: Scopes, init: Scopes, y: string)
    ensures xs + (init + [y]) == (xs + init) + [y]
  {
  }

  lemma Associate(a: Scopes, b: Scopes, c: Scopes)
    ensures (a + b) + c == a + (b + c)
  {
  }

  /** The scopes an approval grants of those asked. */
  function Granted(asked: Scopes, chosen: Option<Scopes>): Scopes {
    if chosen.None? then asked
    else Filter(asked, x => x in chosen.value || x == OFFLINE_ACCESS || x == OPENID)
  }

  /** The scopes a refresh narrows to: of those asked, the ones the token has. */
  function Narrowed(asked: Scopes, token: Scopes): Scopes {
    Filter(asked, x => x in token)
  }

  function CapTime(t: Time, limit: Option<Time>): Time {
    if limit.Some? && limit.value < t then limit.value else t
  }

  /** What a new request asks: offline_access comes with a client that may refresh. */
  function AskedScopes(scopes: Scopes, mayRefresh: bool): Scopes {
    if mayRefresh && OFFLINE_ACCESS !in scopes then scopes + [OFFLINE_ACCESS] else scopes
  }

  // --- the steps ---

  function Put(s: State, job: nat, j: Job): State {
    s.(jobs := s.jobs[job := j])
  }

  function End(s: State, job: nat): State {
    s.(jobs := s.jobs - {job})
  }

  function NewRequestStep(s: State, id: Id, client: Id, mayRefresh: bool, scopes: Scopes, resources: seq<string>): State {
    var r := Request(client, AskedScopes(scopes, mayRefresh), resources, "", "", None, None, false, "", None, s.now);
    s.(db := SaveRequest(s.db, id, r), log := s.log.(src := s.log.src.(asked := s.log.src.asked[id := r])))
  }

  function SaveApproveStep(s: State, job: nat): State
    requires job in s.jobs && s.jobs[job].Approving?
  {
    var Approving(id, r, d) := s.jobs[job];
    var r' := r.(scopes := Granted(r.scopes, d.scopes), done := true, ref := d.ref, endsAt := d.ends, authTime := Some(s.now));
    End(s.(db := SaveRequest(s.db, id, r'), log := s.log.(src := s.log.src.(decisions := s.log.src.decisions + [d]))), job)
  }

  function PresentStep(s: State, job: nat, mark: Mark): State {
    Put(s.(codes := s.codes[mark := s.now], log := s.log.(presented := s.log.presented + {mark.code})),
        job, Presenting(mark))
  }

  /** The request may still be redeemed with its code. */
  predicate CodeValid(r: Request, now: Time) {
    r.done && r.codeAt.Some? && !(now - r.codeAt.value > CODE_TTL) && !(now - r.createdAt > AUTH_REQUEST_TTL)
  }

  function ReadCodeStep(s: State, job: nat, id: Id): State
    requires job in s.jobs && s.jobs[job].Presenting? && id in s.db.requests
  {
    var r := s.db.requests[id];
    if CodeValid(r, s.now)
    then Put(s.(log := s.log.(accepted := s.log.accepted + [s.jobs[job].mark])), job, Redeeming(id, r))
    else End(s, job)
  }

  function CreateGrantStep(s: State, job: nat, gid: Id, refresh: bool, userOk: bool): State
    requires job in s.jobs && s.jobs[job].Redeeming?
  {
    var r := s.jobs[job].r;
    if !r.done || !userOk then End(s, job)
    else
      var g := Grant(r.client, r.subject, r.scopes, r.resources, r.ref, r.authTime, s.now, r.endsAt, None);
      Put(s.(db := s.db.(grants := s.db.grants[gid := g]), log := s.log.(born := s.log.born[gid := g])),
          job, Minting(gid, g, g.scopes, None, refresh, ToAccess))
  }

  function CreateAccessStep(c: Config, s: State, job: nat, tid: Id): State
    requires job in s.jobs && s.jobs[job].Minting?
  {
    var j := s.jobs[job];
    var t := Access(j.gid, j.g.client, j.g.subject, j.scopes, CapTime(s.now + c.accessTTL, j.g.endsAt), s.now);
    Put(s.(db := s.db.(access := s.db.access[tid := t]), log := s.log.(accessed := s.log.accessed[tid := t])),
        job, j.(step := ToTouch(s.now)))
  }

  function TouchStep(s: State, job: nat): State
    requires job in s.jobs && s.jobs[job].Minting? && s.jobs[job].step.ToTouch?
  {
    var j := s.jobs[job];
    var s' := s.(db := TouchClient(s.db, j.g.client, j.step.at));
    if j.refresh then Put(s', job, j.(step := ToRefresh)) else End(s', job)
  }

  function CreateRefreshStep(c: Config, s: State, job: nat, h: Id): State
    requires job in s.jobs && s.jobs[job].Minting?
  {
    var j := s.jobs[job];
    var t := Refresh(j.gid, j.g.client, j.g.subject, j.scopes, CapTime(s.now + c.refreshTTL, j.g.endsAt), s.now, None);
    var log' := s.log.(minted := s.log.minted[h := t],
                       parent := if j.from.Some? then s.log.parent[h := j.from.value] else s.log.parent);
    End(s.(db := s.db.(refresh := s.db.refresh[h := t]), log := log'), job)
  }

  /** A refresh token is looked up: one already used is a replay, one expired is refused. */
  function LookUpStep(s: State, job: nat, h: Id): State
    requires h in s.db.refresh
  {
    var t := s.db.refresh[h];
    if t.usedAt.Some? then Put(s, job, Replaying(t.grant))
    else if s.now > t.expiresAt then s
    else Put(s, job, GotToken(h, t))
  }

  function ReadGrantStep(s: State, job: nat, userOk: bool): State
    requires job in s.jobs && s.jobs[job].GotToken?
  {
    var GotToken(h, t) := s.jobs[job];
    if t.grant in s.db.grants && Live(s.db.grants[t.grant], s.now) && userOk
    then Put(s, job, Ready(h, t, s.db.grants[t.grant], t.scopes))
    else End(s, job)
  }

  /** The presented token is used up; losing the race for it is a replay too. */
  function UseTokenStep(s: State, job: nat): State
    requires job in s.jobs && s.jobs[job].Ready?
  {
    var Ready(h, t, g, scopes) := s.jobs[job];
    if h !in s.db.refresh then End(s, job)
    else if s.db.refresh[h].usedAt.Some? then Put(s, job, Replaying(t.grant))
    else Put(s.(db := MarkUsed(s.db, h, s.now)), job, Used(h, t, g, scopes))
  }

  /** The grant, as it was when the token was looked up, may still issue tokens. */
  function CheckLiveStep(s: State, job: nat, userOk: bool): State
    requires job in s.jobs && s.jobs[job].Used?
  {
    var Used(h, t, g, scopes) := s.jobs[job];
    if Live(g, s.now) && userOk then Put(s, job, Minting(t.grant, g, scopes, Some(h), true, ToAccess)) else End(s, job)
  }

  function AccessOnlyStep(s: State, job: nat, userOk: bool): State
    requires job in s.jobs && s.jobs[job].Ready?
  {
    var Ready(h, t, g, scopes) := s.jobs[job];
    if Live(g, s.now) && userOk then Put(s, job, Minting(t.grant, g, scopes, Some(h), false, ToAccess)) else End(s, job)
  }

  function ForgetStep(s: State, proc: nat): State {
    s.(codes := map m | m in s.codes && !(m.proc == proc && s.now - s.codes[m] > AUTH_REQUEST_TTL) :: s.codes[m])
  }

  function Apply(c: Config, s: State, e: Event): State {
    match e
    case Tick(lapse) => s.(now := s.now + lapse)
    case NewClient(id, dynamic, mayRefresh) =>
      if id in s.db.clients then s
      else s.(db := s.db.(clients := s.db.clients[id := Client(dynamic, mayRefresh, s.now, None)]))
    case DropClient(id) => s.(db := DropClients(s.db, {id}))
    case NewRequest(id, client, mayRefresh, scopes, resources) =>
      if id in s.log.src.asked || (client in s.db.clients && s.db.clients[client].mayRefresh != mayRefresh) then s
      else NewRequestStep(s, id, client, mayRefresh, scopes, resources)
    case StartLogin(job, id, subject) =>
      var r := LiveRequest(s.db, id, s.now);
      if job in s.jobs || r.None? || r.value.done || subject == "" then s else Put(s, job, LoggingIn(id, r.value, subject))
    case SaveLogin(job) =>
      if job !in s.jobs || !s.jobs[job].LoggingIn? then s
      else End(s.(db := SaveRequest(s.db, s.jobs[job].id, s.jobs[job].r.(subject := s.jobs[job].subject))), job)
    case StartApprove(job, d) =>
      var r := LiveRequest(s.db, d.request, s.now);
      if job in s.jobs || r.None? || r.value.done || r.value.subject == "" || r.value.subject != d.subject then s
      else Put(s, job, Approving(d.request, r.value, d))
    case SaveApprove(job) => if job !in s.jobs || !s.jobs[job].Approving? then s else SaveApproveStep(s, job)
    case DropRequest(id) => s.(db := DeleteRequest(s.db, id))
    case StartCode(job, id, code) =>
      var r := LiveRequest(s.db, id, s.now);
      if job in s.jobs || r.None? || code == "" || code in s.log.src.issued || code in s.log.presented then s
      else Put(s.(log := s.log.(src := s.log.src.(issued := s.log.src.issued[code := id]))), job, Coding(id, r.value, code))
    case SaveCode(job) =>
      if job !in s.jobs || !s.jobs[job].Coding? then s
      else End(s.(db := SaveRequest(s.db, s.jobs[job].id, s.jobs[job].r.(codeHash := s.jobs[job].code, codeAt := Some(s.now)))), job)
    case Present(job, mark) =>
      if job in s.jobs || mark.code == "" || mark in s.codes then s else PresentStep(s, job, mark)
    case ReadCode(job, id) =>
      if job !in s.jobs || !s.jobs[job].Presenting? || id !in s.db.requests
         || s.db.requests[id].codeHash != s.jobs[job].mark.code || s.jobs[job].mark.code == "" then s
      else ReadCodeStep(s, job, id)
    case CreateGrant(job, gid, refresh, userOk) =>
      if job !in s.jobs || !s.jobs[job].Redeeming? || gid in s.log.born || gid == "" then s
      else CreateGrantStep(s, job, gid, refresh, userOk)
    case CreateAccess(job, tid) =>
      if job !in s.jobs || !s.jobs[job].Minting? || s.jobs[job].step != ToAccess || tid in s.log.accessed then s
      else CreateAccessStep(c, s, job, tid)
    case TouchForMint(job) =>
      if job !in s.jobs || !s.jobs[job].Minting? || !s.jobs[job].step.ToTouch? then s else TouchStep(s, job)
    case CreateRefresh(job, h) =>
      if job !in s.jobs || !s.jobs[job].Minting? || s.jobs[job].step != ToRefresh || h in s.log.minted then s
      else CreateRefreshStep(c, s, job, h)
    case LookUp(job, h) => if job in s.jobs || h !in s.db.refresh then s else LookUpStep(s, job, h)
    case ReadGrant(job, userOk) => if job !in s.jobs || !s.jobs[job].GotToken? then s else ReadGrantStep(s, job, userOk)
    case Narrow(job, scopes) =>
      if job !in s.jobs || !s.jobs[job].Ready? then s
      else Put(s, job, Ready(s.jobs[job].h, s.jobs[job].t, s.jobs[job].g, Narrowed(scopes, s.jobs[job].t.scopes)))
    case UseToken(job) => if job !in s.jobs || !s.jobs[job].Ready? then s else UseTokenStep(s, job)
    case CheckLive(job, userOk) => if job !in s.jobs || !s.jobs[job].Used? then s else CheckLiveStep(s, job, userOk)
    case AccessOnly(job, userOk) => if job !in s.jobs || !s.jobs[job].Ready? then s else AccessOnlyStep(s, job, userOk)
    case Replay(job) =>
      if job !in s.jobs || !s.jobs[job].Replaying? then s
      else End(s.(db := RevokeGrants(s.db, GrantFilter(s.jobs[job].gid, "", "", ""), s.now)), job)
    case Revoke(f) => s.(db := RevokeGrants(s.db, f, s.now))
    case RevokeAccess(tid) => s.(db := s.db.(access := s.db.access - {tid}))
    case Expire => s.(db := CleanUp(s.db, s.now, s.now - AUTH_REQUEST_TTL, s.now - c.unusedClientTTL))
    case ForgetCodes(proc) => ForgetStep(s, proc)
    case Abandon(job) => End(s, job)
  }

  function ExecFrom(c: Config, s: State, es: seq<Event>): State {
    if es == [] then s else Apply(c, ExecFrom(c, s, es[..|es| - 1]), es[|es| - 1])
  }

  /** The state after the events, from the empty store at time 0. */
  function Exec(c: Config, es: seq<Event>): State {
    ExecFrom(c, INITIAL, es)
  }

  lemma {:induction false} ExecAppend(c: Config, s: State, es: seq<Event>, more: seq<Event>)
    ensures ExecFrom(c, s, es + more) == ExecFrom(c, ExecFrom(c, s, es), more)
  {
    if more == [] {
      assert es + more == es;
    } else {
      ExecAppend(c, s, es, more[..|more| - 1]);
      assert (es + more)[..|es + more| - 1] == es + more[..|more| - 1];
    }
  }
}
