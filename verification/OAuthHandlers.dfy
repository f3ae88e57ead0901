/**
 The provider's handlers in their own imperative form (oidcprovider/storage.go, oidcprovider/consent.go,
 oidcprovider/requests.go). Each handler here that changes the store or the process's codes is proved,
 when nothing interrupts it, to be a run of the steps of OAuthFlow: the lemmas named ...IsRun.
 */
module OAuthHandlers {
  import opened Basics
  import opened OAuthRecords
  import opened OAuthCleanUp
  import opened OAuthFlow
  import opened OAuthStore
  import Provenance = OAuthProvenance
  import Answers = OAuthAnswers

  // --- what one call leaves in the store ---

  /** The access token, the touch of its client, and the refresh token if there is one. */
  function Minted(c: Config, db: Db, now: Time, gid: Id, g: Grant, scopes: Scopes, tid: Id, h: Option<Id>): Db {
    var t := Access(gid, g.client, g.subject, scopes, CapTime(now + c.accessTTL, g.endsAt), now);
    var db' := TouchClient(db.(access := db.access[tid := t]), g.client, now);
    if h.None? then db'
    else
      var r := Refresh(gid, g.client, g.subject, scopes, CapTime(now + c.refreshTTL, g.endsAt), now, None);
      db'.(refresh := db'.refresh[h.value := r])
  }

  /** A rotation: the presented token used up, or the family ended, or new tokens. */
  function Rotated(c: Config, db: Db, now: Time, h: Id, gid: Id, g: Grant, scopes: Scopes, userOk: bool, tid: Id, h': Id): Db {
    if h !in db.refresh then db
    else if db.refresh[h].usedAt.Some? then RevokeGrants(db, GrantFilter(gid, "", "", ""), now)
    else if !(Live(g, now) && userOk) then MarkUsed(db, h, now)
    else Minted(c, MarkUsed(db, h, now), now, gid, g, scopes, tid, Some(h'))
  }

  /** A look-up of a refresh token: presenting a used one ends the family. */
  function LookedUp(db: Db, now: Time, h: Id): Db {
    if h in db.refresh && db.refresh[h].usedAt.Some?
    then RevokeGrants(db, GrantFilter(db.refresh[h].grant, "", "", ""), now) else db
  }

  /** An approval that is accepted. */
  function ApprovedRequest(r: Request, d: Decision, now: Time): Request {
    r.(scopes := Granted(r.scopes, d.scopes), done := true, ref := d.ref, endsAt := d.ends, authTime := Some(now))
  }

  /** A code put on its request. */
  function CodeSaved(db: Db, id: Id, code: string, now: Time): Db {
    var r := LiveRequest(db, id, now);
    if r.None? then db else SaveRequest(db, id, r.value.(codeHash := code, codeAt := Some(now)))
  }

  /** A grant made of an approved request, and its tokens. */
  function Redeemed(c: Config, db: Db, now: Time, r: Request, gid: Id, tid: Id, h: Option<Id>, userOk: bool): Db {
    if !r.done || !userOk then db
    else
      var g := Grant(r.client, r.subject, r.scopes, r.resources, r.ref, r.authTime, now, r.endsAt, None);
      Minted(c, db.(grants := db.grants[gid := g]), now, gid, g, g.scopes, tid, h)
  }

  /** A redeemed code's access token is accepted at once, as approved, and its refresh token can be exchanged. */
  lemma RedeemedAnswers(c: Config, db: Db, now: Time, r: Request, gid: Id, tid: Id, h: Id)
    requires r.done && c.accessTTL > 0 && c.refreshTTL >= 0 && (r.endsAt.Some? ==> now < r.endsAt.value)
    ensures var db' := Redeemed(c, db, now, r, gid, tid, Some(h), true); var v := Verify(db', tid, r.subject, now);
            && v.Some? && Answers.FirstEnd(v.value.expiresAt, now + c.accessTTL, r.endsAt)
            && v.value == Verified(gid, r.client, r.subject, r.scopes, r.resources, r.ref, v.value.expiresAt)
            && Exchangeable(db', h, now) && Answers.FirstEnd(db'.refresh[h].expiresAt, now + c.refreshTTL, r.endsAt)
            && (db'.refresh[h].grant, db'.refresh[h].client, db'.refresh[h].subject, db'.refresh[h].scopes)
               == (gid, r.client, r.subject, r.scopes)
  {
  }

  /**
   An exchange of a token that may be exchanged uses it up, and its new tokens are accepted and exchangeable
   at once, for the narrowed scopes. A token used before ends its family instead, and mints nothing.
   */
  lemma RotatedAnswers(c: Config, db: Db, now: Time, h: Id, scopes: Scopes, tid: Id, h': Id)
    requires c.accessTTL > 0 && c.refreshTTL >= 0 && tid !in db.access && h' !in db.refresh && h != h'
    requires h in db.refresh && db.refresh[h].grant in db.grants && db.refresh[h].grant != ""
    requires var g := db.grants[db.refresh[h].grant]; g.endsAt.Some? ==> now < g.endsAt.value
    ensures var t, g := db.refresh[h], db.grants[db.refresh[h].grant];
            var db' := Rotated(c, db, now, h, t.grant, g, scopes, true, tid, h');
            if t.usedAt.None? && g.revokedAt.None? then
              var v := Verify(db', tid, g.subject, now);
              && v.Some? && Answers.FirstEnd(v.value.expiresAt, now + c.accessTTL, g.endsAt)
              && v.value == Verified(t.grant, g.client, g.subject, scopes, g.resources, g.ref, v.value.expiresAt)
              && !Exchangeable(db', h, now) && Exchangeable(db', h', now) && db'.refresh[h'].scopes == scopes
            else
              tid !in db'.access && h' !in db'.refresh && (t.usedAt.Some? ==> db'.grants[t.grant].revokedAt.Some?)
  {
  }

  // --- and that it is a run of the steps ---

  lemma MintIsRun(c: Config, s: State, job: nat, tid: Id, h: Id)
    requires job in s.jobs && s.jobs[job].Minting? && s.jobs[job].step == ToAccess
    requires tid !in s.log.accessed && h !in s.log.minted
    ensures var j := s.jobs[job];
            ExecFrom(c, s, [CreateAccess(job, tid), TouchForMint(job), CreateRefresh(job, h)]).db
            == Minted(c, s.db, s.now, j.gid, j.g, j.scopes, tid, if j.refresh then Some(h) else None)
  {
    hide ExecFrom, Apply, CapTime, TouchClient;
    ThreeSteps(c, s, CreateAccess(job, tid), TouchForMint(job), CreateRefresh(job, h));
    MintSteps(c, s, job, tid, h);
    var s1 := Apply(c, s, CreateAccess(job, tid));
    MintSteps(c, s1, job, tid, h);
    MintSteps(c, Apply(c, s1, TouchForMint(job)), job, tid, h);
  }

  /** What the events of a job do. */
  lemma MintSteps(c: Config, s: State, job: nat, tid: Id, h: Id)
    ensures var mints := job in s.jobs && s.jobs[job].Minting?;
            && Apply(c, s, CreateAccess(job, tid))
               == (if mints && s.jobs[job].step == ToAccess && tid !in s.log.accessed then CreateAccessStep(c, s, job, tid) else s)
            && Apply(c, s, TouchForMint(job)) == (if mints && s.jobs[job].step.ToTouch? then TouchStep(s, job) else s)
            && Apply(c, s, CreateRefresh(job, h))
               == if mints && s.jobs[job].step == ToRefresh && h !in s.log.minted then CreateRefreshStep(c, s, job, h) else s
  {
  }

  lemma ExchangeSteps(c: Config, s: State, job: nat, userOk: bool)
    ensures Apply(c, s, UseToken(job)) == if job in s.jobs && s.jobs[job].Ready? then UseTokenStep(s, job) else s
    ensures Apply(c, s, CheckLive(job, userOk)) == if job in s.jobs && s.jobs[job].Used? then CheckLiveStep(s, job, userOk) else s
  {
  }

  lemma ReplayStep(c: Config, s: State, job: nat)
    ensures Apply(c, s, Replay(job))
            == if job in s.jobs && s.jobs[job].Replaying?
               then End(s.(db := RevokeGrants(s.db, GrantFilter(s.jobs[job].gid, "", "", ""), s.now)), job) else s
  {
  }

  lemma LookUpSteps(c: Config, s: State, job: nat, h: Id, userOk: bool)
    ensures Apply(c, s, LookUp(job, h)) == if job !in s.jobs && h in s.db.refresh then LookUpStep(s, job, h) else s
    ensures Apply(c, s, ReadGrant(job, userOk)) == if job in s.jobs && s.jobs[job].GotToken? then ReadGrantStep(s, job, userOk) else s
  {
  }

  lemma ExecOne(c: Config, s: State, es: seq<Event>, e: Event)
    ensures ExecFrom(c, s, es + [e]) == Apply(c, ExecFrom(c, s, es), e)
  {
    assert (es + [e])[..|es|] == es;
  }

  lemma ThreeSteps(c: Config, s: State, e: Event, f: Event, g: Event)
    ensures ExecFrom(c, s, [e, f, g]) == Apply(c, Apply(c, Apply(c, s, e), f), g)
  {
    hide Apply;
    ExecOne(c, s, [], e);
    ExecOne(c, s, [e], f);
    ExecOne(c, s, [e, f], g);
    assert [] + [e] == [e] && [e] + [f] == [e, f] && [e, f] + [g] == [e, f, g];
  }

  lemma RotationIsRun(c: Config, s: State, job: nat, userOk: bool, tid: Id, h': Id)
    requires job in s.jobs && s.jobs[job].Ready?
    requires tid !in s.log.accessed && h' !in s.log.minted
    ensures var Ready(h, t, g, scopes) := s.jobs[job];
            ExecFrom(c, s, [UseToken(job), Replay(job), CheckLive(job, userOk)]
                           + [CreateAccess(job, tid), TouchForMint(job), CreateRefresh(job, h')]).db
            == Rotated(c, s.db, s.now, h, t.grant, g, scopes, userOk, tid, h')
  {
    hide ExecFrom, Apply, Minted, Live, RevokeGrants, MarkUsed;
    var first := [UseToken(job), Replay(job), CheckLive(job, userOk)];
    var rest := [CreateAccess(job, tid), TouchForMint(job), CreateRefresh(job, h')];
    ExecAppend(c, s, first, rest);
    ThreeSteps(c, s, UseToken(job), Replay(job), CheckLive(job, userOk));
    var s1 := Apply(c, s, UseToken(job));
    ExchangeSteps(c, s, job, userOk);
    var s2 := Apply(c, s1, Replay(job));
    ReplayStep(c, s1, job);
    var s3 := Apply(c, s2, CheckLive(job, userOk));
    ExchangeSteps(c, s2, job, userOk);
    if job in s3.jobs {
      MintIsRun(c, s3, job, tid, h');
    } else {
      NoMintLeft(c, s3, job, tid, h');
    }
  }

  lemma NoMintLeft(c: Config, s: State, job: nat, tid: Id, h: Id)
    requires job !in s.jobs
    ensures ExecFrom(c, s, [CreateAccess(job, tid), TouchForMint(job), CreateRefresh(job, h)]) == s
  {
    hide ExecFrom, Apply;
    ThreeSteps(c, s, CreateAccess(job, tid), TouchForMint(job), CreateRefresh(job, h));
    MintSteps(c, s, job, tid, h);
  }

  lemma LookUpIsRun(c: Config, s: State, job: nat, h: Id, userOk: bool)
    requires job !in s.jobs
    ensures var s' := ExecFrom(c, s, [LookUp(job, h), Replay(job), ReadGrant(job, userOk)]);
            && s'.db == LookedUp(s.db, s.now, h)
            && (job in s'.jobs <==> Exchangeable(s.db, h, s.now) && userOk)
            && (job in s'.jobs ==>
                s'.jobs[job] == Ready(h, s.db.refresh[h], s.db.grants[s.db.refresh[h].grant], s.db.refresh[h].scopes))
  {
    hide ExecFrom, Apply, RevokeGrants;
    ThreeSteps(c, s, LookUp(job, h), Replay(job), ReadGrant(job, userOk));
    LookUpSteps(c, s, job, h, userOk);
    var s1 := Apply(c, s, LookUp(job, h));
    ReplayStep(c, s1, job);
    LookUpSteps(c, Apply(c, s1, Replay(job)), job, h, userOk);
  }

  lemma TwoSteps(c: Config, s: State, e: Event, f: Event)
    ensures ExecFrom(c, s, [e, f]) == Apply(c, Apply(c, s, e), f)
  {
    hide Apply;
    ExecOne(c, s, [], e);
    ExecOne(c, s, [e], f);
    assert [] + [e] == [e] && [e] + [f] == [e, f];
  }

  /** A request this approval may be given to: in time, open, and its user's own. */
  predicate MayApprove(db: Db, d: Decision, now: Time) {
    var r := LiveRequest(db, d.request, now);
    r.Some? && !r.value.done && r.value.subject != "" && r.value.subject == d.subject
  }

  lemma ApproveIsRun(c: Config, s: State, job: nat, d: Decision)
    requires job !in s.jobs
    ensures var s', ok := ExecFrom(c, s, [StartApprove(job, d), SaveApprove(job)]), MayApprove(s.db, d, s.now);
            && s'.jobs == s.jobs && s'.codes == s.codes
            && s'.db == (if ok then SaveRequest(s.db, d.request, ApprovedRequest(s.db.requests[d.request], d, s.now)) else s.db)
            && s'.log.src.decisions == s.log.src.decisions + if ok then [d] else []
  {
    hide ExecFrom, Granted;
    TwoSteps(c, s, StartApprove(job, d), SaveApprove(job));
    var s1 := Apply(c, s, StartApprove(job, d));
    if MayApprove(s.db, d, s.now) {
      assert s1 == Put(s, job, Approving(d.request, s.db.requests[d.request], d));
      assert s.jobs[job := s1.jobs[job]] - {job} == s.jobs;
    }
  }

  /** The marks one process keeps. */
  function CodesOf(codes: map<Mark, Time>, proc: nat): map<string, Time> {
    map m | m in codes && m.proc == proc :: m.code := codes[m]
  }

  /** A look-up by code, given the request it finds. */
  lemma CodeIsRun(c: Config, s: State, job: nat, mark: Mark, id: Option<Id>)
    requires job !in s.jobs && mark.code != ""
    requires id.Some? ==> id.value in s.db.requests && s.db.requests[id.value].codeHash == mark.code
    ensures var s' := ExecFrom(c, s, [Present(job, mark), if id.Some? then ReadCode(job, id.value) else Abandon(job)]);
            var ok := mark !in s.codes && id.Some? && CodeValid(s.db.requests[id.value], s.now);
            && s'.db == s.db
            && s'.codes == (if mark in s.codes then s.codes else s.codes[mark := s.now])
            && s'.log.accepted == s.log.accepted + (if ok then [mark] else [])
            && s'.jobs == if ok then s.jobs[job := Redeeming(id.value, s.db.requests[id.value])] else s.jobs
  {
    hide ExecFrom, Apply, CodeValid;
    var read := if id.Some? then ReadCode(job, id.value) else Abandon(job);
    TwoSteps(c, s, Present(job, mark), read);
    var s1 := Apply(c, s, Present(job, mark));
    CodeSteps(c, s, job, mark);
    if id.Some? {
      ReadStep(c, s1, job, id.value);
    } else {
      AbandonStep(c, s1, job);
    }
    assert s.jobs - {job} == s.jobs;
    if mark !in s.codes {
      assert s1.jobs - {job} == s.jobs;
    }
  }

  lemma CodeSteps(c: Config, s: State, job: nat, mark: Mark)
    ensures Apply(c, s, Present(job, mark)) == if job in s.jobs || mark.code == "" || mark in s.codes then s else PresentStep(s, job, mark)
  {
  }

  lemma ReadStep(c: Config, s: State, job: nat, id: Id)
    ensures Apply(c, s, ReadCode(job, id))
            == if job in s.jobs && s.jobs[job].Presenting? && id in s.db.requests
                  && s.db.requests[id].codeHash == s.jobs[job].mark.code && s.jobs[job].mark.code != ""
               then ReadCodeStep(s, job, id) else s
  {
  }

  lemma AbandonStep(c: Config, s: State, job: nat)
    ensures Apply(c, s, Abandon(job)) == End(s, job)
  {
  }

  /** And on the marks of its own process, which is all the handler sees. */
  lemma MarkIsOwn(codes: map<Mark, Time>, mark: Mark, at: Time, proc: nat)
    ensures mark in codes <==> mark.code in CodesOf(codes, mark.proc)
    ensures CodesOf(codes[mark := at], proc)
            == if mark.proc == proc then CodesOf(codes, proc)[mark.code := at] else CodesOf(codes, proc)
  {
    var codes' := codes[mark := at];
    assert mark.proc == proc ==> mark in codes' && mark.code in CodesOf(codes', proc);
  }

  lemma ForgetIsRun(c: Config, s: State, proc: nat, other: nat)
    requires other != proc
    ensures var s', was := ExecFrom(c, s, [ForgetCodes(proc)]), CodesOf(s.codes, proc);
            && s'.db == s.db && s'.jobs == s.jobs && CodesOf(s'.codes, other) == CodesOf(s.codes, other)
            && CodesOf(s'.codes, proc) == map k | k in was && !(s.now - was[k] > AUTH_REQUEST_TTL) :: was[k]
  {
    hide ExecFrom, CodesOf;
    ExecOne(c, s, [], ForgetCodes(proc));
    assert [] + [ForgetCodes(proc)] == [ForgetCodes(proc)];
    ExecNothing(c, s);
    var s' := ForgetStep(s, proc);
    CodesOfIs(s.codes, proc);
    CodesOfIs(s.codes, other);
    CodesOfIs(s'.codes, proc);
    CodesOfIs(s'.codes, other);
  }

  lemma CodesOfIs(codes: map<Mark, Time>, proc: nat)
    ensures forall k :: k in CodesOf(codes, proc) <==> Mark(proc, k) in codes
    ensures forall k :: k in CodesOf(codes, proc) ==> CodesOf(codes, proc)[k] == codes[Mark(proc, k)]
  {
    forall k | Mark(proc, k) in codes ensures k in CodesOf(codes, proc) {
      assert Mark(proc, k).code == k;
    }
  }

  lemma ExecNothing(c: Config, s: State)
    ensures ExecFrom(c, s, []) == s
  {
  }

  lemma SaveCodeIsRun(c: Config, s: State, job: nat, id: Id, code: string)
    requires job !in s.jobs && code != "" && code !in s.log.src.issued && code !in s.log.presented
    ensures var s' := ExecFrom(c, s, [StartCode(job, id, code), SaveCode(job)]);
            && s'.jobs == s.jobs && s'.codes == s.codes
            && s'.db == CodeSaved(s.db, id, code, s.now)
  {
    hide ExecFrom;
    TwoSteps(c, s, StartCode(job, id, code), SaveCode(job));
    var s1 := Apply(c, s, StartCode(job, id, code));
    if LiveRequest(s.db, id, s.now).Some? {
      assert s1.jobs == s.jobs[job := Coding(id, s.db.requests[id], code)];
      assert s1.jobs - {job} == s.jobs;
    }
  }

  /** Redeeming a code: the grant, then its tokens. */
  lemma RedeemIsRun(c: Config, s: State, job: nat, gid: Id, tid: Id, h: Id, refresh: bool, userOk: bool)
    requires job in s.jobs && s.jobs[job].Redeeming? && gid != "" && gid !in s.log.born
    requires tid !in s.log.accessed && h !in s.log.minted
    ensures ExecFrom(c, s, [CreateGrant(job, gid, refresh, userOk)]
                           + [CreateAccess(job, tid), TouchForMint(job), CreateRefresh(job, h)]).db
            == Redeemed(c, s.db, s.now, s.jobs[job].r, gid, tid, if refresh then Some(h) else None, userOk)
  {
    hide ExecFrom, Minted;
    var create := CreateGrant(job, gid, refresh, userOk);
    ExecAppend(c, s, [create], [CreateAccess(job, tid), TouchForMint(job), CreateRefresh(job, h)]);
    ExecNothing(c, s);
    ExecOne(c, s, [], create);
    assert [] + [create] == [create];
    var s1 := Apply(c, s, create);
    assert s1 == CreateGrantStep(s, job, gid, refresh, userOk);
    if job in s1.jobs {
      MintIsRun(c, s1, job, tid, h);
    } else {
      NoMintLeft(c, s1, job, tid, h);
    }
  }

  lemma NarrowIsRun(c: Config, s: State, job: nat, asked: Scopes)
    requires job in s.jobs && s.jobs[job].Ready?
    ensures var s', Ready(h, t, g, _) := ExecFrom(c, s, [Narrow(job, asked)]), s.jobs[job];
            s' == s.(jobs := s.jobs[job := Ready(h, t, g, Narrowed(asked, t.scopes))])
  {
    hide ExecFrom;
    ExecNothing(c, s);
    ExecOne(c, s, [], Narrow(job, asked));
    assert [] + [Narrow(job, asked)] == [Narrow(job, asked)];
  }

  // --- the code ---

  /** The scopes of `asked` the user chose, and the two that always come along. */
  method GrantScopes(asked: Scopes, chosen: Option<Scopes>) returns (granted: Scopes)
    ensures granted == Granted(asked, chosen)
  {
    if chosen.None? {
      return asked;
    }
    granted := [];
    ghost var keep := x => x in chosen.value || x == OFFLINE_ACCESS || x == OPENID;
    for i := 0 to |asked|
      invariant granted == Filter(asked[..i], keep)
    {
      assert asked[..i + 1][..i] == asked[..i];
      var s := asked[i];
      if s in chosen.value || s == OFFLINE_ACCESS || s == OPENID {
        granted := granted + [s];
      }
    }
    assert asked[..|asked|] == asked;
    FilterAgrees(asked, keep, x => x in chosen.value || x == OFFLINE_ACCESS || x == OPENID);
  }

  lemma {:induction false} FilterAgrees(xs: Scopes, p: string -> bool, q: string -> bool)
    requires forall x :: p(x) == q(x)
    ensures Filter(xs, p) == Filter(xs, q)
  {
    if xs != [] {
      FilterAgrees(xs[..|xs| - 1], p, q);
    }
  }

  class RefreshRequest {
    const token: Refresh
    const grant: Grant
    var scopes: Scopes

    constructor (token: Refresh, grant: Grant)
      ensures this.token == token && this.grant == grant && scopes == token.scopes
    {
      this.token := token;
      this.grant := grant;
      scopes := token.scopes;
    }

    /** Whatever is asked, nothing is added to what the token has. */
    method SetCurrentScopes(asked: Scopes)
      modifies this
      ensures scopes == Narrowed(asked, token.scopes)
      ensures forall x :: x in scopes <==> x in asked && x in token.scopes
    {
      var out := [];
      ghost var keep := x => x in token.scopes;
      for i := 0 to |asked|
        invariant out == Filter(asked[..i], keep)
      {
        assert asked[..i + 1][..i] == asked[..i];
        if asked[i] in token.scopes {
          out := out + [asked[i]];
        }
      }
      assert asked[..|asked|] == asked;
      FilterAgrees(asked, keep, x => x in token.scopes);
      scopes := out;
    }
  }

  /** One process. */
  class Storage {
    const store: MemoryStore
    const c: Config
    var codes: map<string, Time>

    constructor (store: MemoryStore, c: Config)
      ensures this.store == store && this.c == c && codes == map[]
    {
      this.store := store;
      this.c := c;
      codes := map[];
    }

    /** Marks the code first, and only then looks for its request. */
    method AuthRequestByCode(code: string, now: Time) returns (r: Option<Request>)
      modifies this`codes
      ensures code in old(codes) ==> codes == old(codes) && r.None?
      ensures code !in old(codes) ==> codes == old(codes)[code := now]
      ensures r.Some? ==> code != "" && r.value.codeHash == code && CodeValid(r.value, now)
      ensures r.Some? ==> exists id :: id in store.requests && store.requests[id] == r.value
      ensures code !in old(codes) && code != "" && r.None? ==>
                (forall id :: id in store.requests ==> store.requests[id].codeHash != code)
                || (exists id :: id in store.requests && store.requests[id].codeHash == code && !CodeValid(store.requests[id], now))
    {
      if code in codes {
        return None;
      }
      codes := codes[code := now];
      var id := store.FindByCode(code);
      if id.None? {
        return None;
      }
      var found := store.requests[id.value];
      if !found.done || found.codeAt.None? || now - found.codeAt.value > CODE_TTL || now - found.createdAt > AUTH_REQUEST_TTL {
        return None;
      }
      return Some(found);
    }

    /** Deletes while it iterates. */
    method ForgetCodes(now: Time)
      modifies this`codes
      ensures codes == map k | k in old(codes) && !(now - old(codes)[k] > AUTH_REQUEST_TTL) :: old(codes)[k]
    {
      var todo := codes.Keys;
      while todo != {}
        invariant todo <= codes.Keys
        invariant codes == map k | k in old(codes) && (k in todo || !(now - old(codes)[k] > AUTH_REQUEST_TTL)) :: old(codes)[k]
        decreases |todo|
      {
        var k :| k in todo;
        todo := todo - {k};
        if now - codes[k] > AUTH_REQUEST_TTL {
          codes := codes - {k};
        }
      }
    }

    method Approve(d: Decision, now: Time) returns (ok: bool)
      modifies store`requests
      ensures ok <==> MayApprove(old(store.Contents()), d, now)
      ensures ok <==> d.request in old(store.requests)
                      && var r := old(store.requests)[d.request];
                         now - r.createdAt <= 10 * MINUTE && !r.done && r.subject == d.subject != ""
      ensures ok ==> d.request in store.requests && forall x ::
                x in store.requests[d.request].scopes <==> x in old(store.requests)[d.request].scopes && Provenance.Covers(d, x)
      ensures store.Contents() == if ok then SaveRequest(old(store.Contents()), d.request,
                                                         ApprovedRequest(old(store.requests)[d.request], d, now))
                                  else old(store.Contents())
    {
      var id := d.request;
      if id !in store.requests || now - store.requests[id].createdAt > AUTH_REQUEST_TTL {
        return false;
      }
      var r := store.requests[id];
      if r.done || r.subject == "" || r.subject != d.subject {
        return false;
      }
      var granted := GrantScopes(r.scopes, d.scopes);
      store.requests := store.requests[id := r.(scopes := granted, done := true, ref := d.ref, endsAt := d.ends, authTime := Some(now))];
      return true;
    }

    method SaveAuthCode(id: Id, code: string, now: Time) returns (ok: bool)
      modifies store`requests
      ensures ok <==> id in old(store.requests) && now - old(store.requests)[id].createdAt <= 10 * MINUTE
      ensures store.Contents() == CodeSaved(old(store.Contents()), id, code, now)
    {
      if id !in store.requests || now - store.requests[id].createdAt > AUTH_REQUEST_TTL {
        return false;
      }
      store.requests := store.requests[id := store.requests[id].(codeHash := code, codeAt := Some(now))];
      return true;
    }

    /** The exchange of a code whose request was looked up before: `r` is a copy. */
    method Redeem(r: Request, gid: Id, tid: Id, h: Option<Id>, userOk: bool, now: Time) returns (ok: bool)
      requires gid !in store.grants && tid !in store.access && (h.Some? ==> h.value !in store.refresh)
      modifies store
      ensures ok <==> r.done && userOk
      ensures store.Contents() == Redeemed(c, old(store.Contents()), now, r, gid, tid, h, userOk)
    {
      if !r.done || !userOk {
        return false;
      }
      var g := Grant(r.client, r.subject, r.scopes, r.resources, r.ref, r.authTime, now, r.endsAt, None);
      var _ := store.CreateGrant(gid, g);
      CreateAccessToken(gid, g, g.scopes, tid, now);
      if h.Some? {
        var t := Refresh(gid, g.client, g.subject, g.scopes, CapTime(now + c.refreshTTL, g.endsAt), now, None);
        var _ := store.CreateRefresh(h.value, t);
      }
      return true;
    }

    /** The access token, then the touch of the client. */
    method CreateAccessToken(gid: Id, g: Grant, scopes: Scopes, tid: Id, now: Time)
      requires tid !in store.access
      modifies store`access, store`clients
      ensures store.Contents() == Minted(c, old(store.Contents()), now, gid, g, scopes, tid, None)
    {
      var t := Access(gid, g.client, g.subject, scopes, CapTime(now + c.accessTTL, g.endsAt), now);
      var _ := store.CreateAccess(tid, t);
      store.Touch(g.client, now);
    }

    /** The exchange of a refresh token looked up before: its grant `g` and scopes are copies. */
    method Rotate(h: Id, gid: Id, g: Grant, scopes: Scopes, userOk: bool, tid: Id, h': Id, now: Time) returns (ok: bool)
      requires tid !in store.access && h' !in store.refresh
      modifies store
      ensures store.Contents() == Rotated(c, old(store.Contents()), now, h, gid, g, scopes, userOk, tid, h')
      ensures ok <==> h in old(store.refresh) && old(store.refresh)[h].usedAt.None? && Live(g, now) && userOk
    {
      var found, unused := store.UseRefresh(h, now);
      if !unused {
        if found {
          var _ := store.Revoke(GrantFilter(gid, "", "", ""), now);
        }
        return false;
      }
      if g.revokedAt.Some? || (g.endsAt.Some? && now > g.endsAt.value) || !userOk {
        return false;
      }
      CreateAccessToken(gid, g, scopes, tid, now);
      var _ := store.CreateRefresh(h', Refresh(gid, g.client, g.subject, scopes, CapTime(now + c.refreshTTL, g.endsAt), now, None));
      return true;
    }

    /** The look-up that starts a refresh. */
    method TokenRequestByRefreshToken(h: Id, userOk: bool, now: Time) returns (r: Option<RefreshRequest>)
      modifies store`grants
      ensures store.Contents() == LookedUp(old(store.Contents()), now, h)
      ensures r.Some? <==> Exchangeable(old(store.Contents()), h, now) && userOk
      ensures r.Some? ==> fresh(r.value) && r.value.token == store.refresh[h] && r.value.scopes == store.refresh[h].scopes
                          && r.value.grant == store.grants[store.refresh[h].grant]
    {
      if h !in store.refresh {
        return None;
      }
      var t := store.refresh[h];
      if t.usedAt.Some? {
        var _ := store.Revoke(GrantFilter(t.grant, "", "", ""), now);
        return None;
      }
      if now > t.expiresAt || t.grant !in store.grants {
        return None;
      }
      var g := store.grants[t.grant];
      if g.revokedAt.Some? || (g.endsAt.Some? && now > g.endsAt.value) || !userOk {
        return None;
      }
      var req := new RefreshRequest(t, g);
      return Some(req);
    }
  }
}
