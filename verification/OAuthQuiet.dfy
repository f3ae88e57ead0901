/**
 When the hourly clean-up is invisible to valid credentials (oidcprovider/provider.go:251,
 oidcprovider/storage.go:235-251, store/memory/oauth.go:398-432). The tokens of one exchange and the touch
 of its client are one step here; everything else interleaves as in OAuthFlow.
 */
module OAuthQuiet {
  import opened Basics
  import opened OAuthRecords
  import opened OAuthCleanUp
  import opened OAuthFlow
  import opened OAuthProvenance
  import Issue = OAuthIssue

  datatype Step = One(e: Event) | Mint(job: nat, tid: Id, h: Id)

  /** Creates an exchange's access token, touches its client, creates its refresh token if it has one. */
  function MintStep(c: Config, s: State, job: nat, tid: Id, h: Id): State {
    var s1 := Apply(c, s, CreateAccess(job, tid));
    var s2 := Apply(c, s1, TouchForMint(job));
    var s3 := Apply(c, s2, CreateRefresh(job, h));
    Apply(c, s3, Abandon(job))
  }

  function ApplyStep(c: Config, s: State, step: Step): State {
    match step
    case One(e) => if e.CreateAccess? || e.TouchForMint? || e.CreateRefresh? then s else Apply(c, s, e)
    case Mint(job, tid, h) => MintStep(c, s, job, tid, h)
  }

  function ExecSteps(c: Config, steps: seq<Step>): State {
    if steps == [] then INITIAL else ApplyStep(c, ExecSteps(c, steps[..|steps| - 1]), steps[|steps| - 1])
  }

  /** What the hourly run makes of the store. */
  function Cleaned(c: Config, s: State): Db {
    CleanUp(s.db, s.now, s.now - AUTH_REQUEST_TTL, s.now - c.unusedClientTTL)
  }

  /** Every token is accepted after a clean-up, with the same answer, if it was before. */
  ghost predicate Invisible(c: Config, s: State) {
    && (forall tid, sub :: Verify(Cleaned(c, s), tid, sub, s.now) == Verify(s.db, tid, sub, s.now))
    && (forall h :: Exchangeable(Cleaned(c, s), h, s.now) <==> Exchangeable(s.db, h, s.now))
  }

  // --- every token's client was used since the token was created ---

  predicate UsedSince(clients: map<Id, Client>, client: Id, at: Time) {
    client in clients ==> at <= clients[client].LastUse()
  }

  ghost predicate Touched(db: Db) {
    && (forall k :: k in db.access ==> UsedSince(db.clients, db.access[k].client, db.access[k].createdAt))
    && (forall h :: h in db.refresh ==> UsedSince(db.clients, db.refresh[h].client, db.refresh[h].createdAt))
  }

  ghost predicate AtStart(jobs: map<nat, Job>) {
    forall j :: j in jobs && jobs[j].Minting? ==> jobs[j].step == ToAccess
  }

  ghost predicate QuietInv(c: Config, s: State) {
    Inv(c, s) && Touched(s.db) && AtStart(s.jobs)
  }

  /** Tokens were created by now and live no longer than their kind does. */
  ghost predicate Dated(c: Config, now: Time, db: Db) {
    && (forall k :: k in db.access ==> db.access[k].createdAt <= now && db.access[k].expiresAt <= db.access[k].createdAt + c.accessTTL)
    && (forall h :: h in db.refresh ==> db.refresh[h].createdAt <= now && db.refresh[h].expiresAt <= db.refresh[h].createdAt + c.refreshTTL)
  }

  lemma TokensAreDated(c: Config, s: State)
    requires Inv(c, s)
    ensures Dated(c, s.now, s.db)
  {
    forall h | h in s.db.refresh ensures s.db.refresh[h].createdAt <= s.now && s.db.refresh[h].expiresAt <= s.db.refresh[h].createdAt + c.refreshTTL {
      assert RefreshOk(s.log.minted, h, s.db.refresh[h]);
      assert RefreshWithin(c, s.log.born[s.log.minted[h].grant], s.log.minted[h]);
    }
    forall k | k in s.db.access ensures s.db.access[k].createdAt <= s.now && s.db.access[k].expiresAt <= s.db.access[k].createdAt + c.accessTTL {
      assert AccessWithin(c, s.log.born[s.log.accessed[k].grant], s.log.accessed[k]);
    }
  }

  lemma MintKeepsInv(c: Config, s: State, job: nat, tid: Id, h: Id)
    requires Inv(c, s)
    ensures Inv(c, MintStep(c, s, job, tid, h))
  {
    hide Inv, Apply;
    var s1 := Apply(c, s, CreateAccess(job, tid));
    ApplyKeeps(c, s, CreateAccess(job, tid));
    var s2 := Apply(c, s1, TouchForMint(job));
    ApplyKeeps(c, s1, TouchForMint(job));
    var s3 := Apply(c, s2, CreateRefresh(job, h));
    ApplyKeeps(c, s2, CreateRefresh(job, h));
    ApplyKeeps(c, s3, Abandon(job));
  }

  /** A new access token whose client is touched at once. */
  lemma TouchedWithAccess(c: Config, now: Time, db: Db, tid: Id, t: Access)
    requires Touched(db) && Dated(c, now, db) && t.createdAt == now
    ensures var db' := TouchClient(db.(access := db.access[tid := t]), t.client, now);
            Touched(db') && UsedSince(db'.clients, t.client, now)
  {
  }

  lemma TouchedWithRefresh(db: Db, h: Id, t: Refresh)
    requires Touched(db) && UsedSince(db.clients, t.client, t.createdAt)
    ensures Touched(db.(refresh := db.refresh[h := t]))
  {
  }

  lemma MintKeepsAtStart(c: Config, s: State, job: nat, tid: Id, h: Id)
    requires AtStart(s.jobs)
    ensures AtStart(MintStep(c, s, job, tid, h).jobs)
  {
    hide AtStart, Apply;
    var s1 := Apply(c, s, CreateAccess(job, tid));
    var s2 := Apply(c, s1, TouchForMint(job));
    var s3 := Apply(c, s2, CreateRefresh(job, h));
    MintStepsOwnJob(c, s, job, CreateAccess(job, tid));
    MintStepsOwnJob(c, s1, job, TouchForMint(job));
    MintStepsOwnJob(c, s2, job, CreateRefresh(job, h));
    AbandonEnds(c, s3, job);
    FewerAtStart(s.jobs, Apply(c, s3, Abandon(job)).jobs, job);
  }

  /** The steps of a mint leave every other job alone. */
  lemma MintStepsOwnJob(c: Config, s: State, job: nat, e: Event)
    requires e == TouchForMint(job) || (e.CreateAccess? && e.job == job) || (e.CreateRefresh? && e.job == job)
    ensures Apply(c, s, e).jobs - {job} == s.jobs - {job}
  {
    hide TouchClient, CapTime;
  }

  lemma AbandonEnds(c: Config, s: State, job: nat)
    ensures var s' := Apply(c, s, Abandon(job)); s'.jobs == s.jobs - {job} && s'.db == s.db && s'.now == s.now
  {
  }

  lemma FewerAtStart(jobs: map<nat, Job>, jobs': map<nat, Job>, job: nat)
    requires AtStart(jobs) && jobs' == jobs - {job}
    ensures AtStart(jobs')
  {
  }

  /** A mint in one step touches the client at the time its tokens are created. */
  lemma MintKeepsTouched(c: Config, s: State, job: nat, tid: Id, h: Id)
    requires Touched(s.db) && Dated(c, s.now, s.db) && AtStart(s.jobs)
    ensures Touched(MintStep(c, s, job, tid, h).db) && AtStart(MintStep(c, s, job, tid, h).jobs)
  {
    MintKeepsAtStart(c, s, job, tid, h);
    hide Touched, Dated, AtStart, MintStep;
    if job in s.jobs && s.jobs[job].Minting? && tid !in s.log.accessed {
      MintsAtStart(s.jobs, job);
      FullMint(c, s, job, tid, h);
    } else {
      NoMint(c, s, job, tid, h);
    }
  }

  lemma MintsAtStart(jobs: map<nat, Job>, job: nat)
    requires AtStart(jobs) && job in jobs && jobs[job].Minting?
    ensures jobs[job].step == ToAccess
  {
  }

  lemma NoMint(c: Config, s: State, job: nat, tid: Id, h: Id)
    requires AtStart(s.jobs) && !(job in s.jobs && s.jobs[job].Minting? && tid !in s.log.accessed)
    ensures MintStep(c, s, job, tid, h).db == s.db
  {
    hide Apply;
    NoMintEvents(c, s, job, tid, h);
    AbandonEnds(c, s, job);
  }

  lemma NoMintEvents(c: Config, s: State, job: nat, tid: Id, h: Id)
    requires AtStart(s.jobs) && !(job in s.jobs && s.jobs[job].Minting? && tid !in s.log.accessed)
    ensures Apply(c, s, CreateAccess(job, tid)) == Apply(c, s, TouchForMint(job)) == Apply(c, s, CreateRefresh(job, h)) == s
  {
  }

  /** The first two steps of a mint, from the start. */
  lemma MintsAccess(c: Config, s: State, job: nat, tid: Id)
    requires job in s.jobs && s.jobs[job].Minting? && s.jobs[job].step == ToAccess && tid !in s.log.accessed
    ensures var j, s2 := s.jobs[job], Apply(c, Apply(c, s, CreateAccess(job, tid)), TouchForMint(job));
            var t := Access(j.gid, j.g.client, j.g.subject, j.scopes, CapTime(s.now + c.accessTTL, j.g.endsAt), s.now);
            && s2.now == s.now && s2.db == TouchClient(s.db.(access := s.db.access[tid := t]), t.client, s.now)
            && (job in s2.jobs ==> s2.jobs[job] == j.(step := ToRefresh))
  {
    hide TouchClient, CapTime;
  }

  /** The last two. */
  lemma MintsRefresh(c: Config, s: State, job: nat, h: Id, client: Id)
    requires job in s.jobs ==> s.jobs[job].Minting? && s.jobs[job].g.client == client
    ensures var db' := Apply(c, Apply(c, s, CreateRefresh(job, h)), Abandon(job)).db;
            db' == s.db || exists t: Refresh :: t.client == client && t.createdAt == s.now && db' == s.db.(refresh := s.db.refresh[h := t])
  {
    hide CapTime;
    if job in s.jobs && s.jobs[job].step == ToRefresh && h !in s.log.minted {
      var t := CreateRefreshStep(c, s, job, h).db.refresh[h];
      assert t.client == client && t.createdAt == s.now;
    }
  }

  lemma FullMint(c: Config, s: State, job: nat, tid: Id, h: Id)
    requires Touched(s.db) && Dated(c, s.now, s.db)
    requires job in s.jobs && s.jobs[job].Minting? && s.jobs[job].step == ToAccess && tid !in s.log.accessed
    ensures Touched(MintStep(c, s, job, tid, h).db)
  {
    hide Touched, Dated, UsedSince, TouchClient, Apply, CapTime;
    var j := s.jobs[job];
    var t := Access(j.gid, j.g.client, j.g.subject, j.scopes, CapTime(s.now + c.accessTTL, j.g.endsAt), s.now);
    var s2 := Apply(c, Apply(c, s, CreateAccess(job, tid)), TouchForMint(job));
    MintsAccess(c, s, job, tid);
    TouchedWithAccess(c, s.now, s.db, tid, t);
    MintsRefresh(c, s2, job, h, j.g.client);
    var db' := MintStep(c, s, job, tid, h).db;
    if db' != s2.db {
      var r: Refresh :| r.client == j.g.client && r.createdAt == s2.now && db' == s2.db.(refresh := s2.db.refresh[h := r]);
      TouchedWithRefresh(s2.db, h, r);
    }
  }

  /** The store after records were dropped, or tokens marked. */
  ghost predicate OnlyLoses(db: Db, db': Db) {
    && (forall k :: k in db'.access ==> k in db.access && db'.access[k] == db.access[k])
    && (forall h :: h in db'.refresh ==> h in db.refresh && db'.refresh[h] == db.refresh[h].(usedAt := db'.refresh[h].usedAt))
    && (forall x :: x in db'.clients ==> x in db.clients && db'.clients[x] == db.clients[x])
  }

  lemma DropsKeepTouched(db: Db, db': Db)
    requires Touched(db) && OnlyLoses(db, db')
    ensures Touched(db')
  {
  }

  lemma NewClientTouched(c: Config, now: Time, db: Db, id: Id, k: Client)
    requires Touched(db) && Dated(c, now, db) && k.LastUse() == now
    ensures Touched(db.(clients := db.clients[id := k]))
  {
  }

  lemma StoreEventKeepsTouched(c: Config, s: State, e: Event)
    requires Touched(s.db) && Dated(c, s.now, s.db)
    requires e.NewClient? || e.DropClient? || e.RevokeAccess? || e.Expire? || e.UseToken?
    ensures Touched(Apply(c, s, e).db)
  {
    hide Touched, Dated;
    if e.NewClient? {
      NewClientTouched(c, s.now, s.db, e.id, Client(e.dynamic, e.mayRefresh, s.now, None));
    } else {
      OnlyDrops(c, s, e);
      DropsKeepTouched(s.db, Apply(c, s, e).db);
    }
  }

  lemma OnlyDrops(c: Config, s: State, e: Event)
    requires e.DropClient? || e.RevokeAccess? || e.Expire? || e.UseToken?
    ensures OnlyLoses(s.db, Apply(c, s, e).db)
  {
    hide CleanUp, DropClients, OnlyLoses;
    if e.DropClient? {
      DropClientsLoses(s.db, {e.id});
    } else if e.Expire? {
      CleanUpLoses(s.db, s.now, s.now - AUTH_REQUEST_TTL, s.now - c.unusedClientTTL);
    } else if e.RevokeAccess? {
      RevokeLoses(s.db, e.tid);
    } else {
      UseTokenLoses(c, s, e.job);
    }
  }

  lemma RevokeLoses(db: Db, tid: Id)
    ensures OnlyLoses(db, db.(access := db.access - {tid}))
  {
  }

  lemma UseTokenLoses(c: Config, s: State, job: nat)
    ensures OnlyLoses(s.db, Apply(c, s, UseToken(job)).db)
  {
  }

  lemma DropClientsLoses(db: Db, ids: set<Id>)
    ensures OnlyLoses(db, DropClients(db, ids))
  {
  }

  lemma CleanUpLoses(db: Db, now: Time, requestsBefore: Time, clientsBefore: Time)
    ensures OnlyLoses(db, CleanUp(db, now, requestsBefore, clientsBefore))
  {
    hide DropClients, DeadGrants, StaleClients;
    var db1 := DropExpired(db, now, requestsBefore);
    var db2 := DropGrants(db1, DeadGrants(db1, now));
    DropClientsLoses(db2, StaleClients(db2, clientsBefore));
  }

  /** The other steps change no client and no token. */
  lemma OtherEventsKeepTokens(c: Config, s: State, e: Event)
    requires !e.CreateAccess? && !e.TouchForMint? && !e.CreateRefresh?
    requires !e.NewClient? && !e.DropClient? && !e.RevokeAccess? && !e.Expire? && !e.UseToken?
    ensures var db := Apply(c, s, e).db; db.clients == s.db.clients && db.access == s.db.access && db.refresh == s.db.refresh
  {
  }

  lemma OneKeepsAtStart(c: Config, s: State, e: Event)
    requires AtStart(s.jobs) && !e.CreateAccess? && !e.TouchForMint? && !e.CreateRefresh?
    ensures AtStart(Apply(c, s, e).jobs)
  {
  }

  lemma OneKeepsTouched(c: Config, s: State, e: Event)
    requires Touched(s.db) && Dated(c, s.now, s.db) && AtStart(s.jobs)
    requires !e.CreateAccess? && !e.TouchForMint? && !e.CreateRefresh?
    ensures Touched(Apply(c, s, e).db) && AtStart(Apply(c, s, e).jobs)
  {
    hide Apply, AtStart, Dated;
    OneKeepsAtStart(c, s, e);
    if e.NewClient? || e.DropClient? || e.RevokeAccess? || e.Expire? || e.UseToken? {
      hide Touched;
      StoreEventKeepsTouched(c, s, e);
    } else {
      OtherEventsKeepTokens(c, s, e);
    }
  }

  lemma {:induction false} ExecStepsQuiet(c: Config, steps: seq<Step>)
    ensures QuietInv(c, ExecSteps(c, steps))
  {
    if steps != [] {
      var init, step := steps[..|steps| - 1], steps[|steps| - 1];
      ExecStepsQuiet(c, init);
      var s := ExecSteps(c, init);
      TokensAreDated(c, s);
      hide Inv, Touched, AtStart, Dated, Apply, MintStep;
      match step
      case One(e) =>
        if !e.CreateAccess? && !e.TouchForMint? && !e.CreateRefresh? {
          ApplyKeeps(c, s, e);
          OneKeepsTouched(c, s, e);
        }
      case Mint(job, tid, h) =>
        MintKeepsInv(c, s, job, tid, h);
        MintKeepsTouched(c, s, job, tid, h);
    }
  }

  /** Unused clients are kept as long as either kind of token lives, and `lag` longer. */
  predicate ClientsOutliveTokens(c: Config, lag: Time) {
    c.refreshTTL + lag <= c.unusedClientTTL && c.accessTTL + lag <= c.unusedClientTTL + 1
  }

  lemma AccessIsKept(c: Config, s: State, tid: Id, sub: string, lag: Time)
    requires ClientsOutliveTokens(c, lag) && Dated(c, s.now, s.db) && Linked(s.db)
    requires tid in s.db.access ==> UsedSince(s.db.clients, s.db.access[tid].client, s.db.access[tid].createdAt - lag)
    ensures Verify(Cleaned(c, s), tid, sub, s.now) == Verify(s.db, tid, sub, s.now)
  {
    hide Linked, CleanUp;
    CleanUpKeepsVerify(s.db, tid, sub, s.now, s.now - AUTH_REQUEST_TTL, s.now - c.unusedClientTTL);
    AccessGrantClient(s.db, tid);
  }

  lemma AccessGrantClient(db: Db, tid: Id)
    requires Linked(db)
    ensures tid in db.access && db.access[tid].grant in db.grants ==> db.access[tid].client == db.grants[db.access[tid].grant].client
  {
  }

  lemma RefreshIsKept(c: Config, s: State, h: Id, lag: Time)
    requires ClientsOutliveTokens(c, lag) && Dated(c, s.now, s.db) && Linked(s.db)
    requires h in s.db.refresh ==> UsedSince(s.db.clients, s.db.refresh[h].client, s.db.refresh[h].createdAt - lag)
    ensures Exchangeable(Cleaned(c, s), h, s.now) <==> Exchangeable(s.db, h, s.now)
  {
    hide Linked, CleanUp;
    CleanUpKeepsExchangeable(s.db, h, s.now, s.now - AUTH_REQUEST_TTL, s.now - c.unusedClientTTL);
    RefreshGrantClient(s.db, h);
  }

  lemma RefreshGrantClient(db: Db, h: Id)
    requires Linked(db)
    ensures h in db.refresh && db.refresh[h].grant in db.grants ==> db.refresh[h].client == db.grants[db.refresh[h].grant].client
  {
  }

  lemma InvisibleIfClientsOutliveTokens(c: Config, steps: seq<Step>)
    requires ClientsOutliveTokens(c, 0)
    ensures Invisible(c, ExecSteps(c, steps))
  {
    var s := ExecSteps(c, steps);
    ExecStepsQuiet(c, steps);
    TokensAreDated(c, s);
    LinkedNow(c, s);
    hide Inv, AtStart, ExecSteps, Dated, Linked, Cleaned, Verify, Exchangeable, ClientsOutliveTokens, UsedSince;
    forall tid, sub ensures Verify(Cleaned(c, s), tid, sub, s.now) == Verify(s.db, tid, sub, s.now) {
      AccessIsKept(c, s, tid, sub, 0);
    }
    forall h ensures Exchangeable(Cleaned(c, s), h, s.now) <==> Exchangeable(s.db, h, s.now) {
      RefreshIsKept(c, s, h, 0);
    }
  }

  // --- the runs that show the condition is exact ---

  function Ones(es: seq<Event>): seq<Step> {
    seq(|es|, i requires 0 <= i < |es| => One(es[i]))
  }

  lemma {:induction false} OnesAreEvents(c: Config, es: seq<Event>)
    requires forall e :: e in es ==> !Issue.OfMint(e)
    ensures ExecSteps(c, Ones(es)) == Exec(c, es)
  {
    hide Apply;
    if es != [] {
      var init, e := es[..|es| - 1], es[|es| - 1];
      OnesAreEvents(c, init);
      assert Ones(es)[..|es| - 1] == Ones(init) && e in es;
    }
  }

  lemma OneStep(c: Config, steps: seq<Step>, step: Step)
    ensures ExecSteps(c, steps + [step]) == ApplyStep(c, ExecSteps(c, steps), step)
  {
    assert (steps + [step])[..|steps|] == steps;
  }

  /** Tokens "t" and "h" of the client's grant, created at 0, and the client last used then. */
  predicate Issued(c: Config, db: Db) {
    && db.clients == map["c" := Client(true, true, 0, Some(0))] && db.grants == map["g" := Issue.G(0)]
    && db.access == map["t" := Access("g", "c", "u", [OFFLINE_ACCESS], c.accessTTL, 0)]
    && db.refresh == map["h" := Refresh("g", "c", "u", [OFFLINE_ACCESS], c.refreshTTL, 0, None)]
  }

  lemma MintFirst(c: Config, s: State)
    requires Issue.ToMint(s, 0)
    ensures MintStep(c, s, 0, "t", "h").now == 0 && Issued(c, MintStep(c, s, 0, "t", "h").db)
  {
    hide Apply;
    Issue.MintsAccess(c, s, 0, "g", 0, "t");
    var s1 := Apply(c, s, CreateAccess(0, "t"));
    Issue.Touches(c, s1, 0, "g", 0, 0);
    var s2 := Apply(c, s1, TouchForMint(0));
    Issue.MintsRefresh(c, s2, 0, "g", 0, "h");
    AbandonEnds(c, Apply(c, s2, CreateRefresh(0, "h")), 0);
  }

  /** A run after which the tokens were created `age` ago and nothing happened since. */
  lemma IssueThenWait(c: Config, age: nat) returns (steps: seq<Step>)
    ensures var s := ExecSteps(c, steps); s.now == age && Issued(c, s.db)
  {
    hide ExecSteps, Exec, Apply, MintStep, Issued;
    var es := Issue.GrantsFirst(c, 0);
    OnesAreEvents(c, es);
    steps := Ones(es);
    MintFirst(c, ExecSteps(c, steps));
    OneStep(c, steps, Mint(0, "t", "h"));
    steps := steps + [Mint(0, "t", "h")];
    Wait(c, ExecSteps(c, steps), age);
    OneStep(c, steps, One(Tick(age)));
    steps := steps + [One(Tick(age))];
  }

  lemma Wait(c: Config, s: State, age: nat)
    ensures Apply(c, s, Tick(age)) == s.(now := s.now + age)
  {
  }

  lemma IssuedIsDropped(c: Config, s: State)
    requires Issued(c, s.db) && s.now > c.unusedClientTTL
    ensures s.now < c.accessTTL ==> Verify(s.db, "t", "u", s.now).Some? && Verify(Cleaned(c, s), "t", "u", s.now).None?
    ensures s.now <= c.refreshTTL ==> Exchangeable(s.db, "h", s.now) && !Exchangeable(Cleaned(c, s), "h", s.now)
  {
    hide CleanUp;
    CleanUpKeepsVerify(s.db, "t", "u", s.now, s.now - AUTH_REQUEST_TTL, s.now - c.unusedClientTTL);
    CleanUpKeepsExchangeable(s.db, "h", s.now, s.now - AUTH_REQUEST_TTL, s.now - c.unusedClientTTL);
  }

  // --- main results ---

  /** Clean-up never costs a client a token that is still accepted, in any run, exactly if unused clients
      are kept as long as either kind of token lives. New does not enforce this. */
  lemma UnusedTTLDecides(c: Config)
    requires c.accessTTL > 0 && c.refreshTTL > 0
    ensures (forall steps :: Invisible(c, ExecSteps(c, steps))) <==> ClientsOutliveTokens(c, 0)
  {
    if ClientsOutliveTokens(c, 0) {
      forall steps ensures Invisible(c, ExecSteps(c, steps)) {
        InvisibleIfClientsOutliveTokens(c, steps);
      }
    } else {
      var age := if c.refreshTTL > c.unusedClientTTL then c.refreshTTL else c.accessTTL - 1;
      var steps := IssueThenWait(c, age);
      hide Issued, ExecSteps, Verify, Exchangeable, Cleaned;
      IssuedIsDropped(c, ExecSteps(c, steps));
      assert !Invisible(c, ExecSteps(c, steps));
    }
  }

  /** A request in time can be lost to the clean-up whatever the configuration: making a request does not
      count as using the client. */
  lemma PendingRequestCanGo(c: Config) returns (es: seq<Event>)
    requires c.unusedClientTTL >= 0
    ensures var s := Exec(c, es);
            LiveRequest(s.db, "r", s.now).Some? && LiveRequest(Cleaned(c, s), "r", s.now).None?
  {
    hide Exec, Apply, CleanUp;
    es := Issue.IssuesCode(c, c.unusedClientTTL + 1);
    var s := Exec(c, es);
    CleanUpKeepsRequests(s.db, "r", s.now, s.now - c.unusedClientTTL);
  }
}
