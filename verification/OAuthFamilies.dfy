/**
 Token families: refresh tokens of a grant form a chain, a replay ends the family, and an ended family
 stays ended (oidcprovider/storage.go:156-191, oidcprovider/storage.go:260-290,
 oidcprovider/consent.go:291-319, store/memory/oauth.go:235-269, store/memory/oauth.go:328-342).
 */
module OAuthFamilies {
  import opened Basics
  import opened OAuthRecords
  import opened OAuthCleanUp
  import opened OAuthFlow
  import opened OAuthProvenance

  // --- revocation is final ---

  /** The family of grant `gid` is over: its grant is revoked or gone. */
  ghost predicate Over(s: State, gid: Id) {
    gid in s.log.born && (gid in s.db.grants ==> s.db.grants[gid].revokedAt.Some?)
  }

  lemma OverStays(c: Config, s: State, e: Event, gid: Id)
    requires Over(s, gid)
    ensures Over(Apply(c, s, e), gid)
  {
    hide CleanUp, CapTime, Live, CodeValid, LiveRequest;
    if e.Expire? {
      CleanUpKeepsRevoked(s.db, s.now, s.now - AUTH_REQUEST_TTL, s.now - c.unusedClientTTL, gid);
    }
  }

  lemma CleanUpKeepsRevoked(db: Db, now: Time, requestsBefore: Time, clientsBefore: Time, gid: Id)
    ensures var db' := CleanUp(db, now, requestsBefore, clientsBefore);
            gid in db'.grants ==> gid in db.grants && db'.grants[gid] == db.grants[gid]
  {
  }

  lemma {:induction false} OverStaysFrom(c: Config, s: State, es: seq<Event>, gid: Id)
    requires Over(s, gid)
    ensures Over(ExecFrom(c, s, es), gid)
  {
    if es != [] {
      OverStaysFrom(c, s, es[..|es| - 1], gid);
      hide Over, Apply;
      OverStays(c, ExecFrom(c, s, es[..|es| - 1]), es[|es| - 1], gid);
    }
  }

  /** Once a family is over, no token of it is ever accepted again: neither those it had, nor those an
      exchange in flight mints later from the grant it read before, whatever clean-up deletes meanwhile. */
  lemma RevocationIsFinal(c: Config, es: seq<Event>, more: seq<Event>, gid: Id)
    requires Over(Exec(c, es), gid)
    ensures var s := Exec(c, es + more);
            && (forall tid, sub :: Verify(s.db, tid, sub, s.now).Some? ==> s.db.access[tid].grant != gid)
            && (forall tid, sub, res :: VerifyFor(s.db, tid, sub, res, s.now).Some? ==> s.db.access[tid].grant != gid)
            && (forall h :: Exchangeable(s.db, h, s.now) ==> s.db.refresh[h].grant != gid)
            && (forall j, userOk :: j in s.jobs && s.jobs[j].GotToken? && s.jobs[j].t.grant == gid ==>
                 ReadGrantStep(s, j, userOk) == End(s, j))
  {
    ExecAppend(c, INITIAL, es, more);
    OverStaysFrom(c, Exec(c, es), more, gid);
  }

  /** Every way of revoking ends the families it selects. */
  lemma RevokeEnds(c: Config, es: seq<Event>, f: GrantFilter, gid: Id)
    requires var s := Exec(c, es); gid in s.db.grants && f.Selects(gid, s.db.grants[gid])
    ensures Over(Exec(c, es + [Revoke(f)]), gid)
  {
    hide Exec, Inv;
    ExecKeeps(c, es);
    GrantIsBorn(c, Exec(c, es), gid);
    OneMore(c, es, Revoke(f));
    RevokedIsOver(c, Exec(c, es), f, gid);
  }

  lemma RevokedIsOver(c: Config, s: State, f: GrantFilter, gid: Id)
    requires gid in s.db.grants && f.Selects(gid, s.db.grants[gid]) && gid in s.log.born
    ensures Over(Apply(c, s, Revoke(f)), gid)
  {
  }

  lemma ReplayEnds(c: Config, s: State, job: nat)
    requires Inv(c, s) && job in s.jobs && s.jobs[job].Replaying?
    ensures Over(Apply(c, s, Replay(job)), s.jobs[job].gid)
  {
    hide Inv, LogOk, GrantTraced;
    LogIsOk(c, s);
    JobIsOk(c, s, job);
  }

  /** A used refresh token presented again sets out to revoke its family, and ends it, whatever happens
      between the handler's look-up and its revocation. */
  lemma ReplayEndsFamily(c: Config, es: seq<Event>, job: nat, h: Id, between: seq<Event>)
    requires var s := Exec(c, es); h in s.db.refresh && s.db.refresh[h].usedAt.Some? && job !in s.jobs
    ensures var gid := Exec(c, es).db.refresh[h].grant;
            var s1, s2 := Exec(c, es + [LookUp(job, h)]), Exec(c, es + [LookUp(job, h)] + between);
            && job in s1.jobs && s1.jobs[job] == Replaying(gid)
            && (job in s2.jobs && s2.jobs[job] == Replaying(gid) ==>
                 Over(Exec(c, es + [LookUp(job, h)] + between + [Replay(job)]), gid))
  {
    hide Inv, Exec, Over;
    var gid := Exec(c, es).db.refresh[h].grant;
    var es1 := es + [LookUp(job, h)] + between;
    OneMore(c, es, LookUp(job, h));
    OneMore(c, es1, Replay(job));
    ExecKeeps(c, es1);
    if job in Exec(c, es1).jobs && Exec(c, es1).jobs[job] == Replaying(gid) {
      ReplayEnds(c, Exec(c, es1), job);
    }
  }

  /** So does an exchange that loses the race to mark the token used, and it mints nothing. */
  lemma LostRaceEndsFamily(c: Config, es: seq<Event>, job: nat, between: seq<Event>)
    requires var s := Exec(c, es);
             && job in s.jobs && s.jobs[job].Ready? && s.jobs[job].h in s.db.refresh
             && s.db.refresh[s.jobs[job].h].usedAt.Some?
    ensures var gid := Exec(c, es).jobs[job].t.grant;
            var s1, s2 := Exec(c, es + [UseToken(job)]), Exec(c, es + [UseToken(job)] + between);
            && s1.db == Exec(c, es).db && s1.jobs == Exec(c, es).jobs[job := Replaying(gid)]
            && (job in s2.jobs && s2.jobs[job] == Replaying(gid) ==>
                 Over(Exec(c, es + [UseToken(job)] + between + [Replay(job)]), gid))
  {
    hide Inv, Exec, Over;
    var gid := Exec(c, es).jobs[job].t.grant;
    var es1 := es + [UseToken(job)] + between;
    OneMore(c, es, UseToken(job));
    OneMore(c, es1, Replay(job));
    ExecKeeps(c, es1);
    if job in Exec(c, es1).jobs && Exec(c, es1).jobs[job] == Replaying(gid) {
      ReplayEnds(c, Exec(c, es1), job);
    }
  }

  lemma OneMore(c: Config, es: seq<Event>, e: Event)
    ensures Exec(c, es + [e]) == Apply(c, Exec(c, es), e)
  {
    assert (es + [e])[..|es|] == es;
  }

  // --- the chain ---

  /** What may yet yield a usable refresh token: an unused one, or an exchange about to create one. */
  datatype Holder = ByToken(h: Id) | ByJob(job: nat)

  predicate WillMint(j: Job, gid: Id) {
    (j.Used? && j.t.grant == gid) || (j.Minting? && j.refresh && j.gid == gid)
  }

  predicate Holds(refresh: map<Id, Refresh>, jobs: map<nat, Job>, x: Holder, gid: Id) {
    match x
    case ByToken(h) => h in refresh && refresh[h].grant == gid && refresh[h].usedAt.None?
    case ByJob(j) => j in jobs && WillMint(jobs[j], gid)
  }

  ghost predicate OneHolder(refresh: map<Id, Refresh>, jobs: map<nat, Job>) {
    forall gid, x, y :: Holds(refresh, jobs, x, gid) && Holds(refresh, jobs, y, gid) ==> x == y
  }

  /** The exchange of `h` that `x` is, or is the result of. */
  predicate Succeeds(parent: map<Id, Id>, jobs: map<nat, Job>, x: Holder, h: Id) {
    match x
    case ByToken(k) => k in parent && parent[k] == h
    case ByJob(j) => j in jobs && ((jobs[j].Used? && jobs[j].h == h) || (jobs[j].Minting? && jobs[j].refresh && jobs[j].from == Some(h)))
  }

  /** A token being exchanged, or exchanged, is used up, and exchanged once. */
  ghost predicate OneSuccessor(refresh: map<Id, Refresh>, minted: map<Id, Refresh>, parent: map<Id, Id>, jobs: map<nat, Job>) {
    && (forall h, x, y :: Succeeds(parent, jobs, x, h) && Succeeds(parent, jobs, y, h) ==> x == y)
    && (forall h, x :: Succeeds(parent, jobs, x, h) ==> h in minted && (h in refresh ==> refresh[h].usedAt.Some?))
  }

  /** Access-only exchanges never reach the creation of a refresh token. */
  ghost predicate MintStepsOk(jobs: map<nat, Job>) {
    forall j :: j in jobs && jobs[j].Minting? && jobs[j].step.ToRefresh? ==> jobs[j].refresh
  }

  ghost predicate Chained(s: State) {
    OneHolder(s.db.refresh, s.jobs) && OneSuccessor(s.db.refresh, s.log.minted, s.log.parent, s.jobs)
    && MintStepsOk(s.jobs)
  }

  /** No refresh token appears or becomes unused. */
  ghost predicate FewerTokens(refresh: map<Id, Refresh>, refresh': map<Id, Refresh>) {
    forall h :: h in refresh' ==>
      h in refresh && refresh'[h].grant == refresh[h].grant && (refresh[h].usedAt.Some? ==> refresh'[h].usedAt.Some?)
  }

  /** The job creates no refresh token. */
  predicate Quiet(j: Job) {
    !j.Used? && !(j.Minting? && j.refresh)
  }

  /** `b` goes on with the exchange `a` is, for the same family and token. */
  predicate Continues(a: Job, b: Job) {
    || (a.Used? && b.Minting? && b.refresh && b.gid == a.t.grant && b.from == Some(a.h) && !b.step.ToRefresh?)
    || (a.Minting? && a.refresh && b.Minting? && b.refresh && b.gid == a.gid && b.from == a.from)
  }

  /** No exchange appears. */
  ghost predicate FewerMints(jobs: map<nat, Job>, jobs': map<nat, Job>) {
    forall j :: j in jobs' ==>
      (Quiet(jobs'[j]) && !(jobs'[j].Minting? && jobs'[j].step.ToRefresh?))
      || (j in jobs && (jobs'[j] == jobs[j] || Continues(jobs[j], jobs'[j])))
  }

  lemma FewerKeeps(s: State, s': State)
    requires Chained(s) && FewerTokens(s.db.refresh, s'.db.refresh) && FewerMints(s.jobs, s'.jobs)
    requires s'.log.minted == s.log.minted && s'.log.parent == s.log.parent
    ensures Chained(s')
  {
    forall gid, x | Holds(s'.db.refresh, s'.jobs, x, gid) ensures Holds(s.db.refresh, s.jobs, x, gid) {
    }
    forall h, x | Succeeds(s'.log.parent, s'.jobs, x, h) ensures Succeeds(s.log.parent, s.jobs, x, h) {
    }
  }

  lemma PutFewer(jobs: map<nat, Job>, job: nat, j: Job)
    requires (Quiet(j) && !(j.Minting? && j.step.ToRefresh?)) || (job in jobs && Continues(jobs[job], j))
    ensures FewerMints(jobs, jobs[job := j])
  {
  }

  lemma EndFewer(jobs: map<nat, Job>, job: nat)
    ensures FewerMints(jobs, jobs - {job})
  {
  }

  lemma HolderIsBorn(c: Config, s: State, x: Holder, gid: Id)
    requires Inv(c, s) && Holds(s.db.refresh, s.jobs, x, gid)
    ensures gid in s.log.born
  {
    match x
    case ByToken(h) => RefreshIsMinted(c, s, h);
    case ByJob(j) => JobIsOk(c, s, j);
  }

  /** A holder added for a family that has none. */
  lemma HolderAdded(refresh: map<Id, Refresh>, jobs: map<nat, Job>, job: nat, j: Job, gid: Id)
    requires OneHolder(refresh, jobs) && j.Minting? && j.gid == gid
    requires forall x :: !Holds(refresh, jobs, x, gid)
    ensures OneHolder(refresh, jobs[job := j])
  {
    var jobs' := jobs[job := j];
    forall g, x | Holds(refresh, jobs', x, g)
      ensures Holds(refresh, jobs, x, g) || (x == ByJob(job) && g == gid)
    {
    }
  }

  /** An exchange with no parent succeeds nothing. */
  lemma FreshMintSucceedsNothing(s: State, job: nat, j: Job)
    requires OneSuccessor(s.db.refresh, s.log.minted, s.log.parent, s.jobs) && j.Minting? && (j.from.None? || !j.refresh)
    ensures OneSuccessor(s.db.refresh, s.log.minted, s.log.parent, s.jobs[job := j])
  {
    var jobs' := s.jobs[job := j];
    forall h, x | Succeeds(s.log.parent, jobs', x, h) ensures Succeeds(s.log.parent, s.jobs, x, h) {
    }
  }

  /** The grant of a new code exchange has no other holder. */
  lemma CreateGrantChained(c: Config, s: State, job: nat, gid: Id, refresh: bool, userOk: bool)
    requires Inv(c, s) && Chained(s) && job in s.jobs && s.jobs[job].Redeeming? && gid !in s.log.born
    ensures Chained(CreateGrantStep(s, job, gid, refresh, userOk))
  {
    var s' := CreateGrantStep(s, job, gid, refresh, userOk);
    if s' == End(s, job) {
      FewerKeeps(s, s');
    } else {
      forall x ensures !Holds(s.db.refresh, s.jobs, x, gid) {
        if Holds(s.db.refresh, s.jobs, x, gid) { HolderIsBorn(c, s, x, gid); }
      }
      hide Inv, OneHolder, OneSuccessor, Holds;
      HolderAdded(s.db.refresh, s.jobs, job, s'.jobs[job], gid);
      FreshMintSucceedsNothing(s, job, s'.jobs[job]);
    }
  }

  /** Marking a token used hands its family from the token to the exchange. */
  lemma MarkedHolds(refresh: map<Id, Refresh>, refresh': map<Id, Refresh>, jobs: map<nat, Job>, job: nat, j: Job, h: Id, at: Time)
    requires OneHolder(refresh, jobs) && j.Used? && h in refresh && refresh[h].grant == j.t.grant && refresh[h].usedAt.None?
    requires refresh' == refresh[h := refresh[h].(usedAt := Some(at))]
    ensures OneHolder(refresh', jobs[job := j])
  {
    var gid := j.t.grant;
    var jobs' := jobs[job := j];
    assert Holds(refresh, jobs, ByToken(h), gid);
    forall g, x | Holds(refresh', jobs', x, g)
      ensures (x == ByJob(job) && g == gid) || (g != gid && Holds(refresh, jobs, x, g))
    {
      if x != ByJob(job) { assert Holds(refresh, jobs, x, g); }
    }
  }

  lemma MarkedSucceeds(s: State, refresh': map<Id, Refresh>, job: nat, j: Job, h: Id, at: Time)
    requires OneSuccessor(s.db.refresh, s.log.minted, s.log.parent, s.jobs) && j.Used? && j.h == h
    requires h in s.db.refresh && s.db.refresh[h].usedAt.None? && h in s.log.minted
    requires refresh' == s.db.refresh[h := s.db.refresh[h].(usedAt := Some(at))]
    ensures OneSuccessor(refresh', s.log.minted, s.log.parent, s.jobs[job := j])
  {
    var jobs' := s.jobs[job := j];
    forall k, x | Succeeds(s.log.parent, jobs', x, k)
      ensures (x == ByJob(job) && k == h) || (k != h && Succeeds(s.log.parent, s.jobs, x, k))
    {
      if x != ByJob(job) { assert Succeeds(s.log.parent, s.jobs, x, k); }
    }
  }

  lemma UseTokenChained(c: Config, s: State, job: nat)
    requires Inv(c, s) && Chained(s) && job in s.jobs && s.jobs[job].Ready?
    ensures Chained(UseTokenStep(s, job))
  {
    var Ready(h, t, g, scopes) := s.jobs[job];
    var s' := UseTokenStep(s, job);
    if h !in s.db.refresh || s.db.refresh[h].usedAt.Some? {
      FewerKeeps(s, s');
    } else {
      hide Inv, OneHolder, OneSuccessor;
      TokenOfJob(c, s, job);
      var j := Used(h, t, g, scopes);
      assert s'.jobs == s.jobs[job := j];
      assert s'.db.refresh == s.db.refresh[h := s.db.refresh[h].(usedAt := Some(s.now))];
      MarkedHolds(s.db.refresh, s'.db.refresh, s.jobs, job, j, h, s.now);
      MarkedSucceeds(s, s'.db.refresh, job, j, h, s.now);
    }
  }

  lemma TokenOfJob(c: Config, s: State, job: nat)
    requires Inv(c, s) && job in s.jobs && s.jobs[job].Ready? && s.jobs[job].h in s.db.refresh
    ensures var j := s.jobs[job]; s.db.refresh[j.h].grant == j.t.grant && j.h in s.log.minted
  {
    hide Inv, LogOk;
    JobIsOk(c, s, job);
    RefreshIsMinted(c, s, s.jobs[job].h);
  }

  /** A minted token takes the family over from its exchange. */
  lemma MintedHolds(refresh: map<Id, Refresh>, jobs: map<nat, Job>, job: nat, h: Id, t: Refresh)
    requires OneHolder(refresh, jobs) && job in jobs && jobs[job].Minting? && jobs[job].refresh && jobs[job].gid == t.grant
    requires h !in refresh && t.usedAt.None?
    ensures OneHolder(refresh[h := t], jobs - {job})
  {
    var gid := t.grant;
    var refresh', jobs' := refresh[h := t], jobs - {job};
    assert Holds(refresh, jobs, ByJob(job), gid);
    forall g, x | Holds(refresh', jobs', x, g)
      ensures (x == ByToken(h) && g == gid) || (g != gid && Holds(refresh, jobs, x, g))
    {
      if x != ByToken(h) { assert Holds(refresh, jobs, x, g); }
    }
  }

  lemma MintedSucceeds(s: State, job: nat, h: Id, t: Refresh)
    requires OneSuccessor(s.db.refresh, s.log.minted, s.log.parent, s.jobs) && job in s.jobs
    requires s.jobs[job].Minting? && s.jobs[job].refresh && h !in s.log.minted && h !in s.log.parent
    ensures var log' := Rotated(s.log, h, t, s.jobs[job].from);
            OneSuccessor(s.db.refresh[h := t], log'.minted, log'.parent, s.jobs - {job})
  {
    var from := s.jobs[job].from;
    var log' := Rotated(s.log, h, t, from);
    var parent', jobs', refresh' := log'.parent, s.jobs - {job}, s.db.refresh[h := t];
    if from.Some? { assert Succeeds(s.log.parent, s.jobs, ByJob(job), from.value); }
    forall k, x | Succeeds(parent', jobs', x, k)
      ensures (x == ByToken(h) && from == Some(k)) || (from != Some(k) && Succeeds(s.log.parent, s.jobs, x, k))
    {
      if x != ByToken(h) { assert Succeeds(s.log.parent, s.jobs, x, k); }
    }
    forall k, x | Succeeds(parent', jobs', x, k)
      ensures k in log'.minted && (k in refresh' ==> refresh'[k].usedAt.Some?)
    {
      assert Succeeds(s.log.parent, s.jobs, if x == ByToken(h) then ByJob(job) else x, k);
    }
  }

  lemma CreateRefreshChained(c: Config, s: State, job: nat, h: Id)
    requires Inv(c, s) && Chained(s) && job in s.jobs && s.jobs[job].Minting? && s.jobs[job].refresh
    requires h !in s.log.minted
    ensures Chained(CreateRefreshStep(c, s, job, h))
  {
    NotMintedBefore(c, s, h);
    hide Inv, OneHolder, OneSuccessor;
    var t := CreateRefreshStep(c, s, job, h).db.refresh[h];
    MintedHolds(s.db.refresh, s.jobs, job, h, t);
    MintedSucceeds(s, job, h, t);
  }

  lemma NotMintedBefore(c: Config, s: State, h: Id)
    requires Inv(c, s) && h !in s.log.minted
    ensures h !in s.db.refresh && h !in s.log.parent
  {
    if h in s.db.refresh { RefreshIsMinted(c, s, h); }
    hide GrantsBornOk, MintedOk, AccessedOk, SourcesOk, DbOk, JobsOk;
  }

  /** The other steps create no refresh token and start no exchange. */
  ghost predicate StartsNothing(s: State, s': State) {
    FewerTokens(s.db.refresh, s'.db.refresh) && FewerMints(s.jobs, s'.jobs)
    && s'.log.minted == s.log.minted && s'.log.parent == s.log.parent
  }

  lemma PutStartsNothing(s: State, s': State, job: nat, j: Job)
    requires s'.jobs == s.jobs[job := j] && s'.db.refresh == s.db.refresh
    requires s'.log.minted == s.log.minted && s'.log.parent == s.log.parent
    requires (Quiet(j) && !(j.Minting? && j.step.ToRefresh?)) || (job in s.jobs && Continues(s.jobs[job], j))
    ensures StartsNothing(s, s')
  {
    PutFewer(s.jobs, job, j);
    SameTokens(s.db.refresh);
  }

  lemma EndStartsNothing(s: State, s': State, job: nat)
    requires s'.jobs == s.jobs - {job} && s'.db.refresh == s.db.refresh
    requires s'.log.minted == s.log.minted && s'.log.parent == s.log.parent
    ensures StartsNothing(s, s')
  {
    EndFewer(s.jobs, job);
    SameTokens(s.db.refresh);
  }

  lemma StartEventFewer(c: Config, s: State, e: Event)
    requires Apply(c, s, e) != s
    requires e.StartLogin? || e.StartApprove? || e.StartCode? || e.Present? || e.LookUp?
    ensures StartsNothing(s, Apply(c, s, e))
  {
    hide StartsNothing, LiveRequest;
    var job := e.job;
    PutStartsNothing(s, Apply(c, s, e), job, Apply(c, s, e).jobs[job]);
  }

  lemma EndEventFewer(c: Config, s: State, e: Event)
    requires Apply(c, s, e) != s
    requires e.SaveLogin? || e.SaveApprove? || e.SaveCode? || e.Replay? || e.Abandon?
    ensures StartsNothing(s, Apply(c, s, e))
  {
    hide StartsNothing;
    EndStartsNothing(s, Apply(c, s, e), e.job);
  }

  lemma MidEventFewer(c: Config, s: State, e: Event)
    requires Apply(c, s, e) != s
    requires e.ReadCode? || e.CreateAccess? || e.TouchForMint? || e.ReadGrant? || e.Narrow? || e.CheckLive? || e.AccessOnly?
    ensures StartsNothing(s, Apply(c, s, e))
  {
    hide StartsNothing, Narrowed, CapTime, Live, CodeValid;
    var job, s' := e.job, Apply(c, s, e);
    assert s'.db.refresh == s.db.refresh;
    if job in s'.jobs {
      PutStartsNothing(s, s', job, s'.jobs[job]);
    } else {
      EndStartsNothing(s, s', job);
    }
  }

  lemma StoreEventFewer(c: Config, s: State, e: Event)
    requires e.Tick? || e.NewClient? || e.DropClient? || e.NewRequest? || e.DropRequest? || e.Revoke? || e.RevokeAccess?
             || e.Expire? || e.ForgetCodes?
    ensures StartsNothing(s, Apply(c, s, e))
  {
    SameMints(s.jobs);
    hide FewerMints;
  }

  lemma ApplyChained(c: Config, s: State, e: Event)
    requires Inv(c, s) && Chained(s)
    ensures Chained(Apply(c, s, e))
  {
    hide Inv, Chained, StartsNothing;
    var s' := Apply(c, s, e);
    if s' == s { return; }
    if e.CreateGrant? {
      CreateGrantChained(c, s, e.job, e.gid, e.refresh, e.userOk);
    } else if e.UseToken? {
      UseTokenChained(c, s, e.job);
    } else if e.CreateRefresh? {
      MintsRefresh(s, e.job);
      CreateRefreshChained(c, s, e.job, e.h);
    } else {
      OthersStartNothing(c, s, e);
      hide Apply;
      StartsNothingKeeps(s, s');
    }
  }

  lemma OthersStartNothing(c: Config, s: State, e: Event)
    requires Apply(c, s, e) != s && !e.CreateGrant? && !e.UseToken? && !e.CreateRefresh?
    ensures StartsNothing(s, Apply(c, s, e))
  {
    hide Apply, StartsNothing;
    if e.StartLogin? || e.StartApprove? || e.StartCode? || e.Present? || e.LookUp? {
      StartEventFewer(c, s, e);
    } else if e.SaveLogin? || e.SaveApprove? || e.SaveCode? || e.Replay? || e.Abandon? {
      EndEventFewer(c, s, e);
    } else if e.ReadCode? || e.CreateAccess? || e.TouchForMint? || e.ReadGrant? || e.Narrow? || e.CheckLive? || e.AccessOnly? {
      MidEventFewer(c, s, e);
    } else {
      StoreEventFewer(c, s, e);
    }
  }

  lemma StartsNothingKeeps(s: State, s': State)
    requires Chained(s) && StartsNothing(s, s')
    ensures Chained(s')
  {
    FewerKeeps(s, s');
  }

  lemma MintsRefresh(s: State, job: nat)
    requires Chained(s) && job in s.jobs && s.jobs[job].Minting? && s.jobs[job].step.ToRefresh?
    ensures s.jobs[job].refresh
  {
  }

  lemma SameTokens(refresh: map<Id, Refresh>)
    ensures FewerTokens(refresh, refresh)
  {
  }

  lemma SameMints(jobs: map<nat, Job>)
    ensures FewerMints(jobs, jobs)
  {
  }

  lemma {:induction false} ExecChained(c: Config, es: seq<Event>)
    ensures Chained(Exec(c, es))
  {
    if es != [] {
      var init, e := es[..|es| - 1], es[|es| - 1];
      ExecChained(c, init);
      ExecKeeps(c, init);
      hide Inv, Chained;
      OneMore(c, init, e);
      assert init + [e] == es;
      ApplyChained(c, Exec(c, init), e);
    }
  }

  // --- main results ---

  /** In every reachable state a family has at most one unused refresh token or exchange about to create
      one: the tokens of a grant form a chain. */
  lemma TokensFormChain(c: Config, es: seq<Event>, gid: Id, x: Holder, y: Holder)
    requires var s := Exec(c, es); Holds(s.db.refresh, s.jobs, x, gid) && Holds(s.db.refresh, s.jobs, y, gid)
    ensures x == y
  {
    ExecChained(c, es);
  }

  /** A refresh token is exchanged for at most one other, and is used up when it is. */
  lemma ExchangedOnce(c: Config, es: seq<Event>, k: Id, l: Id)
    requires var p := Exec(c, es).log.parent; k in p && l in p && p[k] == p[l]
    ensures k == l
    ensures var s := Exec(c, es); var h := s.log.parent[k]; h in s.db.refresh ==> s.db.refresh[h].usedAt.Some?
  {
    ExecChained(c, es);
    var s := Exec(c, es);
    var h := s.log.parent[k];
    assert Succeeds(s.log.parent, s.jobs, ByToken(k), h);
    assert Succeeds(s.log.parent, s.jobs, ByToken(l), h);
  }
}
