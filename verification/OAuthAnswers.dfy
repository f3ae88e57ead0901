/**
 What is answered for a token (oidcprovider/consent.go:291-319, oidcprovider/storage.go:260-282), in every
 reachable state: what it was issued with, until exactly one of the things that end it happens.
 */
module OAuthAnswers {
  import opened Basics
  import opened OAuthRecords
  import opened OAuthCleanUp
  import opened OAuthFlow
  import opened OAuthProvenance
  import Issue = OAuthIssue

  /** The grant has not been revoked and is not past its end. */
  predicate Stands(g: Grant, now: Time) {
    g.revokedAt.None? && (g.endsAt.None? || now <= g.endsAt.value)
  }

  /** The next clean-up finds the client unused for too long. */
  predicate Unused(c: Config, s: State, client: Id) {
    Lapsed(s.db, client, s.now - c.unusedClientTTL)
  }

  /** What ends every token of a grant: a revocation that names it, or the end of its client. */
  predicate EndsGrant(c: Config, s: State, e: Event, gid: Id, g: Grant) {
    match e
    case Tick(lapse) => g.endsAt.Some? && s.now + lapse > g.endsAt.value
    case Revoke(f) => Names(f, gid, g)
    case Replay(job) => job in s.jobs && s.jobs[job] == Replaying(gid)
    case DropClient(id) => id == g.client
    case Expire => Unused(c, s, g.client)
    case _ => false
  }

  predicate EndsAccess(c: Config, s: State, e: Event, tid: Id)
    requires tid in s.db.access && s.db.access[tid].grant in s.db.grants
  {
    var t := s.db.access[tid];
    || EndsGrant(c, s, e, t.grant, s.db.grants[t.grant])
    || e == RevokeAccess(tid) || (e.Tick? && s.now + e.lapse >= t.expiresAt)
  }

  predicate EndsRefresh(c: Config, s: State, e: Event, h: Id)
    requires h in s.db.refresh && s.db.refresh[h].grant in s.db.grants
  {
    var t := s.db.refresh[h];
    || EndsGrant(c, s, e, t.grant, s.db.grants[t.grant])
    || (e.UseToken? && e.job in s.jobs && s.jobs[e.job].Ready? && s.jobs[e.job].h == h)
    || (e.Tick? && s.now + e.lapse > t.expiresAt)
  }

  // --- one verb at a time ---

  lemma RevocationAnswers(db: Db, f: GrantFilter, at: Time, tid: Id, sub: string, now: Time)
    ensures var v := Verify(db, tid, sub, now);
            Verify(RevokeGrants(db, f, at), tid, sub, now)
            == if v.Some? && Names(f, v.value.grant, db.grants[v.value.grant]) then None else v
  {
  }

  lemma RevocationExchanges(db: Db, f: GrantFilter, at: Time, h: Id, now: Time)
    ensures Exchangeable(RevokeGrants(db, f, at), h, now)
            <==> Exchangeable(db, h, now) && !Names(f, db.refresh[h].grant, db.grants[db.refresh[h].grant])
  {
  }

  lemma DropAnswers(db: Db, id: Id, tid: Id, sub: string, now: Time)
    requires Linked(db)
    ensures var v := Verify(db, tid, sub, now);
            Verify(DropClients(db, {id}), tid, sub, now) == if v.Some? && db.grants[v.value.grant].client == id then None else v
  {
  }

  lemma DropExchanges(db: Db, id: Id, h: Id, now: Time)
    requires Linked(db)
    ensures Exchangeable(DropClients(db, {id}), h, now)
            <==> Exchangeable(db, h, now) && db.grants[db.refresh[h].grant].client != id
  {
  }

  lemma ExpiryAnswers(c: Config, s: State, tid: Id, sub: string)
    requires Linked(s.db)
    ensures var v := Verify(s.db, tid, sub, s.now);
            Verify(Apply(c, s, Expire).db, tid, sub, s.now)
            == if v.Some? && Unused(c, s, s.db.grants[v.value.grant].client) then None else v
  {
    hide CleanUp;
    CleanUpKeepsVerify(s.db, tid, sub, s.now, s.now - AUTH_REQUEST_TTL, s.now - c.unusedClientTTL);
  }

  lemma ExpiryExchanges(c: Config, s: State, h: Id)
    requires Linked(s.db)
    ensures Exchangeable(Apply(c, s, Expire).db, h, s.now)
            <==> Exchangeable(s.db, h, s.now) && !Unused(c, s, s.db.grants[s.db.refresh[h].grant].client)
  {
    hide CleanUp;
    CleanUpKeepsExchangeable(s.db, h, s.now, s.now - AUTH_REQUEST_TTL, s.now - c.unusedClientTTL);
  }

  // --- one step at a time ---

  predicate ChangesTokens(e: Event) {
    || e.Tick? || e.CreateGrant? || e.CreateAccess? || e.CreateRefresh? || e.UseToken? || e.DropClient? || e.Revoke?
    || e.RevokeAccess? || e.Replay? || e.Expire?
  }

  lemma OthersLeaveTokens(c: Config, s: State, e: Event)
    requires !ChangesTokens(e)
    ensures var s' := Apply(c, s, e);
            s'.now == s.now && s'.db.access == s.db.access && s'.db.refresh == s.db.refresh && s'.db.grants == s.db.grants
  {
    hide LiveRequest, CodeValid, Live;
  }

  predicate SameGrant(db: Db, db': Db, gid: Id) {
    (gid in db.grants <==> gid in db'.grants) && (gid in db.grants ==> db'.grants[gid] == db.grants[gid])
  }

  lemma SameAccess(db: Db, db': Db, tid: Id, sub: string, now: Time)
    requires tid in db.access <==> tid in db'.access
    requires tid in db.access ==> db'.access[tid] == db.access[tid] && SameGrant(db, db', db.access[tid].grant)
    ensures Verify(db', tid, sub, now) == Verify(db, tid, sub, now)
  {
  }

  lemma SameRefresh(db: Db, db': Db, h: Id, now: Time)
    requires h in db.refresh <==> h in db'.refresh
    requires h in db.refresh ==> db'.refresh[h] == db.refresh[h] && SameGrant(db, db', db.refresh[h].grant)
    ensures Exchangeable(db', h, now) <==> Exchangeable(db, h, now)
  {
  }

  /** Tokens are of grants that were created. */
  lemma GrantsWereBorn(c: Config, s: State, tid: Id, h: Id)
    requires Inv(c, s)
    ensures tid in s.db.access ==> s.db.access[tid].grant in s.log.born && tid in s.log.accessed
    ensures h in s.db.refresh ==> s.db.refresh[h].grant in s.log.born && h in s.log.minted
  {
    if h in s.db.refresh {
      assert RefreshOk(s.log.minted, h, s.db.refresh[h]);
    }
  }

  /** A creation adds one record, under a new id. */
  lemma CreationAdds(c: Config, s: State, e: Event)
    requires e.CreateGrant? || e.CreateAccess? || e.CreateRefresh?
    ensures var s' := Apply(c, s, e);
            && s'.now == s.now && forall gid :: gid in s.log.born ==> SameGrant(s.db, s'.db, gid)
    ensures var db, db' := s.db, Apply(c, s, e).db;
            if e.CreateAccess? then db' == db || (e.tid in db'.access && db' == db.(access := db.access[e.tid := db'.access[e.tid]]))
            else db'.access == db.access
    ensures var db, db' := s.db, Apply(c, s, e).db;
            if e.CreateRefresh? then db' == db || (e.h in db'.refresh && db' == db.(refresh := db.refresh[e.h := db'.refresh[e.h]]))
            else db'.refresh == db.refresh
  {
    hide CapTime;
  }

  lemma CreationLeavesAccess(c: Config, s: State, e: Event, tid: Id, sub: string)
    requires Inv(c, s) && (e.CreateGrant? || (e.CreateAccess? && e.tid != tid) || e.CreateRefresh?)
    ensures var s' := Apply(c, s, e); s'.now == s.now && Verify(s'.db, tid, sub, s.now) == Verify(s.db, tid, sub, s.now)
  {
    hide Inv, Apply, Verify;
    GrantsWereBorn(c, s, tid, tid);
    CreationAdds(c, s, e);
    SameAccess(s.db, Apply(c, s, e).db, tid, sub, s.now);
  }

  lemma CreationLeavesRefresh(c: Config, s: State, e: Event, h: Id)
    requires Inv(c, s) && (e.CreateGrant? || e.CreateAccess? || (e.CreateRefresh? && e.h != h))
    ensures var s' := Apply(c, s, e); s'.now == s.now && (Exchangeable(s'.db, h, s.now) <==> Exchangeable(s.db, h, s.now))
  {
    hide Inv, Apply, Exchangeable;
    GrantsWereBorn(c, s, h, h);
    CreationAdds(c, s, e);
    SameRefresh(s.db, Apply(c, s, e).db, h, s.now);
  }

  /** What the rest of the steps are to tokens. */
  lemma TokenStep(c: Config, s: State, e: Event)
    ensures e.Tick? ==> Apply(c, s, e).db == s.db && Apply(c, s, e).now == s.now + e.lapse
    ensures e.DropClient? ==> Apply(c, s, e) == s.(db := DropClients(s.db, {e.id}))
    ensures e.Revoke? ==> Apply(c, s, e) == s.(db := RevokeGrants(s.db, e.f, s.now))
    ensures e.RevokeAccess? ==> Apply(c, s, e) == s.(db := s.db.(access := s.db.access - {e.tid}))
    ensures e.Expire? ==> Apply(c, s, e).now == s.now
    ensures e.Replay? ==>
      var s' := Apply(c, s, e);
      s'.now == s.now && s'.db == if e.job in s.jobs && s.jobs[e.job].Replaying?
                                  then RevokeGrants(s.db, GrantFilter(s.jobs[e.job].gid, "", "", ""), s.now) else s.db
    ensures e.UseToken? ==>
      var s' := Apply(c, s, e);
      s'.now == s.now && s'.db == if e.job in s.jobs && s.jobs[e.job].Ready? then MarkUsed(s.db, s.jobs[e.job].h, s.now) else s.db
  {
    hide DropClients, CleanUp, RevokeGrants;
  }

  lemma RevokedFamily(c: Config, s: State, gid: Id, at: Time, tid: Id, h: Id, sub: string)
    requires gid != ""
    ensures var db', v := RevokeGrants(s.db, GrantFilter(gid, "", "", ""), at), Verify(s.db, tid, sub, s.now);
            && Verify(db', tid, sub, s.now) == (if v.Some? && v.value.grant == gid then None else v)
            && (Exchangeable(db', h, s.now) <==> Exchangeable(s.db, h, s.now) && s.db.refresh[h].grant != gid)
  {
    hide RevokeGrants;
    RevocationAnswers(s.db, GrantFilter(gid, "", "", ""), at, tid, sub, s.now);
    RevocationExchanges(s.db, GrantFilter(gid, "", "", ""), at, h, s.now);
  }

  lemma ReplayedIsBorn(c: Config, s: State, job: nat)
    requires Inv(c, s) && job in s.jobs && s.jobs[job].Replaying?
    ensures s.jobs[job].gid != ""
  {
    JobIsOk(c, s, job);
  }

  lemma TickAnswers(c: Config, s: State, lapse: nat, tid: Id, sub: string)
    ensures var v := Verify(s.db, tid, sub, s.now);
            v.Some? ==> Verify(s.db, tid, sub, s.now + lapse) == if EndsAccess(c, s, Tick(lapse), tid) then None else v
    ensures Verify(s.db, tid, sub, s.now).None? ==> Verify(s.db, tid, sub, s.now + lapse).None?
  {
  }

  /** The answer for a token after any step but its own creation: the same, or none if the step ends it. */
  lemma AccessStep(c: Config, s: State, e: Event, tid: Id, sub: string)
    requires Inv(c, s) && Linked(s.db) && !(e.CreateAccess? && e.tid == tid)
    ensures Verify(s.db, tid, sub, s.now).Some? ==> tid in s.db.access && s.db.access[tid].grant in s.db.grants
    ensures var s', v := Apply(c, s, e), Verify(s.db, tid, sub, s.now);
            Verify(s'.db, tid, sub, s'.now) == if v.Some? && EndsAccess(c, s, e, tid) then None else v
  {
    VerifiedIsStored(s.db, tid, sub, s.now);
    hide Inv, Linked, Apply, DropClients, CleanUp, RevokeGrants, Exchangeable, Verify, Names, Unused;
    TokenStep(c, s, e);
    if !ChangesTokens(e) {
      OthersLeaveTokens(c, s, e);
      SameAccess(s.db, Apply(c, s, e).db, tid, sub, s.now);
    } else {
      match e
      case DropClient(id) => DropAnswers(s.db, id, tid, sub, s.now);
      case Revoke(f) => RevocationAnswers(s.db, f, s.now, tid, sub, s.now);
      case Replay(job) =>
        if job in s.jobs && s.jobs[job].Replaying? {
          ReplayedIsBorn(c, s, job);
          RevokedFamily(c, s, s.jobs[job].gid, s.now, tid, tid, sub);
        }
      case Expire => ExpiryAnswers(c, s, tid, sub);
      case Tick(lapse) => TickAnswers(c, s, lapse, tid, sub);
      case RevokeAccess(k) =>
        if k == tid {
          GoneIsRefused(s.db, tid, sub, s.now);
        } else {
          SameAccess(s.db, Apply(c, s, e).db, tid, sub, s.now);
        }
      case UseToken(_) => SameAccess(s.db, Apply(c, s, e).db, tid, sub, s.now);
      case _ => CreationLeavesAccess(c, s, e, tid, sub);
    }
  }

  lemma GoneIsRefused(db: Db, tid: Id, sub: string, now: Time)
    ensures Verify(db.(access := db.access - {tid}), tid, sub, now).None?
  {
  }

  lemma VerifiedIsStored(db: Db, tid: Id, sub: string, now: Time)
    ensures var v := Verify(db, tid, sub, now);
            v.Some? ==> tid in db.access && db.access[tid].grant in db.grants && v.value.grant == db.access[tid].grant
  {
  }

  lemma TickExchanges(c: Config, s: State, lapse: nat, h: Id)
    ensures Exchangeable(s.db, h, s.now + lapse) <==> Exchangeable(s.db, h, s.now) && !EndsRefresh(c, s, Tick(lapse), h)
  {
  }

  lemma UseExchanges(db: Db, used: Id, at: Time, h: Id, now: Time)
    ensures Exchangeable(MarkUsed(db, used, at), h, now) <==> Exchangeable(db, h, now) && used != h
  {
  }

  /** The same for a refresh token: after any step but its creation it may be exchanged if it could before. */
  lemma RefreshStep(c: Config, s: State, e: Event, h: Id)
    requires Inv(c, s) && Linked(s.db) && !(e.CreateRefresh? && e.h == h)
    ensures Exchangeable(s.db, h, s.now) ==> h in s.db.refresh && s.db.refresh[h].grant in s.db.grants
    ensures var s' := Apply(c, s, e);
            Exchangeable(s'.db, h, s'.now) <==> Exchangeable(s.db, h, s.now) && !EndsRefresh(c, s, e, h)
  {
    ExchangeableIsStored(s.db, h, s.now);
    hide Inv, Linked, Apply, DropClients, CleanUp, RevokeGrants, MarkUsed, Exchangeable, Verify, Names, Unused;
    TokenStep(c, s, e);
    if !ChangesTokens(e) {
      OthersLeaveTokens(c, s, e);
      SameRefresh(s.db, Apply(c, s, e).db, h, s.now);
    } else {
      match e
      case DropClient(id) => DropExchanges(s.db, id, h, s.now);
      case Revoke(f) => RevocationExchanges(s.db, f, s.now, h, s.now);
      case Replay(job) =>
        if job in s.jobs && s.jobs[job].Replaying? {
          ReplayedIsBorn(c, s, job);
          RevokedFamily(c, s, s.jobs[job].gid, s.now, h, h, "");
        }
      case Expire => ExpiryExchanges(c, s, h);
      case Tick(lapse) => TickExchanges(c, s, lapse, h);
      case RevokeAccess(k) => SameRefresh(s.db, Apply(c, s, e).db, h, s.now);
      case UseToken(job) =>
        if job in s.jobs && s.jobs[job].Ready? {
          UseExchanges(s.db, s.jobs[job].h, s.now, h, s.now);
        }
      case _ => CreationLeavesRefresh(c, s, e, h);
    }
  }

  lemma ExchangeableIsStored(db: Db, h: Id, now: Time)
    ensures Exchangeable(db, h, now) ==> h in db.refresh && db.refresh[h].grant in db.grants
  {
  }

  // --- over whole runs ---

  predicate EndsAccessNow(c: Config, s: State, e: Event, tid: Id) {
    tid in s.db.access && s.db.access[tid].grant in s.db.grants && EndsAccess(c, s, e, tid)
  }

  predicate EndsRefreshNow(c: Config, s: State, e: Event, h: Id) {
    h in s.db.refresh && s.db.refresh[h].grant in s.db.grants && EndsRefresh(c, s, e, h)
  }

  /** Some step of `more`, which follows `es`, ends the token. */
  ghost predicate AccessEnds(c: Config, es: seq<Event>, more: seq<Event>, tid: Id) {
    exists k :: 0 <= k < |more| && EndsAccessNow(c, Exec(c, es + more[..k]), more[k], tid)
  }

  ghost predicate RefreshEnds(c: Config, es: seq<Event>, more: seq<Event>, h: Id) {
    exists k :: 0 <= k < |more| && EndsRefreshNow(c, Exec(c, es + more[..k]), more[k], h)
  }

  lemma AccessEndsStep(c: Config, es: seq<Event>, init: seq<Event>, e: Event, tid: Id)
    ensures AccessEnds(c, es, init + [e], tid) <==> AccessEnds(c, es, init, tid) || EndsAccessNow(c, Exec(c, es + init), e, tid)
  {
    hide Exec, EndsAccessNow;
    var more := init + [e];
    assert forall k :: 0 <= k < |init| ==> init[..k] == more[..k] && init[k] == more[k];
    assert more[..|init|] == init && more[|init|] == e;
    if AccessEnds(c, es, init, tid) {
      var k :| 0 <= k < |init| && EndsAccessNow(c, Exec(c, es + init[..k]), init[k], tid);
      assert EndsAccessNow(c, Exec(c, es + more[..k]), more[k], tid);
    }
    if EndsAccessNow(c, Exec(c, es + init), e, tid) {
      assert EndsAccessNow(c, Exec(c, es + more[..|init|]), more[|init|], tid);
    }
  }

  lemma RefreshEndsStep(c: Config, es: seq<Event>, init: seq<Event>, e: Event, h: Id)
    ensures RefreshEnds(c, es, init + [e], h) <==> RefreshEnds(c, es, init, h) || EndsRefreshNow(c, Exec(c, es + init), e, h)
  {
    hide Exec, EndsRefreshNow;
    var more := init + [e];
    assert forall k :: 0 <= k < |init| ==> init[..k] == more[..k] && init[k] == more[k];
    assert more[..|init|] == init && more[|init|] == e;
    if RefreshEnds(c, es, init, h) {
      var k :| 0 <= k < |init| && EndsRefreshNow(c, Exec(c, es + init[..k]), init[k], h);
      assert EndsRefreshNow(c, Exec(c, es + more[..k]), more[k], h);
    }
    if EndsRefreshNow(c, Exec(c, es + init), e, h) {
      assert EndsRefreshNow(c, Exec(c, es + more[..|init|]), more[|init|], h);
    }
  }

  lemma IssuedStays(c: Config, s: State, e: Event)
    ensures s.log.accessed.Keys <= Apply(c, s, e).log.accessed.Keys && s.log.minted.Keys <= Apply(c, s, e).log.minted.Keys
    ensures e.CreateAccess? && e.tid in s.log.accessed ==> Apply(c, s, e) == s
    ensures e.CreateRefresh? && e.h in s.log.minted ==> Apply(c, s, e) == s
  {
    hide Apply;
    if e.CreateAccess? || e.CreateRefresh? {
      CreationIsNew(c, s, e);
    } else {
      OthersIssueNone(c, s, e);
    }
  }

  lemma CreationIsNew(c: Config, s: State, e: Event)
    requires e.CreateAccess? || e.CreateRefresh?
    ensures s.log.accessed.Keys <= Apply(c, s, e).log.accessed.Keys && s.log.minted.Keys <= Apply(c, s, e).log.minted.Keys
    ensures e.CreateAccess? && e.tid in s.log.accessed ==> Apply(c, s, e) == s
    ensures e.CreateRefresh? && e.h in s.log.minted ==> Apply(c, s, e) == s
  {
    hide CapTime;
  }

  lemma OthersIssueNone(c: Config, s: State, e: Event)
    requires !e.CreateAccess? && !e.CreateRefresh?
    ensures Apply(c, s, e).log.accessed == s.log.accessed && Apply(c, s, e).log.minted == s.log.minted
  {
    hide TouchClient, DropClients, CleanUp, RevokeGrants, MarkUsed, LiveRequest, Live, CodeValid;
  }

  /** An accepted token keeps its answer until the first step that ends it, and is refused from then on. */
  lemma {:induction false} AnsweredUntilEnded(c: Config, es: seq<Event>, more: seq<Event>, tid: Id, sub: string)
    requires Verify(Exec(c, es).db, tid, sub, Exec(c, es).now).Some?
    ensures tid in Exec(c, es + more).log.accessed
    ensures var s, s' := Exec(c, es), Exec(c, es + more);
            Verify(s'.db, tid, sub, s'.now) == if AccessEnds(c, es, more, tid) then None else Verify(s.db, tid, sub, s.now)
  {
    hide Exec, Apply, Inv, Linked, Verify, EndsAccess, AccessEnds, RefreshEnds;
    if more == [] {
      assert es + more == es;
      NothingEnds(c, es, tid);
      ExecKeeps(c, es);
      VerifiedIsStored(Exec(c, es).db, tid, sub, Exec(c, es).now);
      GrantsWereBorn(c, Exec(c, es), tid, tid);
    } else {
      var init, e := more[..|more| - 1], more[|more| - 1];
      assert more == init + [e] && es + more == es + init + [e];
      AnsweredUntilEnded(c, es, init, tid, sub);
      AccessEndsStep(c, es, init, e, tid);
      Issue.ExecNext(c, es + init, e);
      var s := Exec(c, es + init);
      ExecKeeps(c, es + init);
      LinkedNow(c, s);
      IssuedStays(c, s, e);
      NoEndOfIssued(c, s, e, tid);
      if !(e.CreateAccess? && e.tid == tid) {
        AccessStep(c, s, e, tid, sub);
      }
    }
  }

  lemma NothingEnds(c: Config, es: seq<Event>, tid: Id)
    ensures !AccessEnds(c, es, [], tid) && !RefreshEnds(c, es, [], tid)
  {
  }

  lemma NoEndOfIssued(c: Config, s: State, e: Event, tid: Id)
    ensures e.CreateAccess? ==> !EndsAccessNow(c, s, e, tid)
    ensures e.CreateRefresh? ==> !EndsRefreshNow(c, s, e, tid)
  {
  }

  /** And a refresh token may be exchanged until then. */
  lemma {:induction false} ExchangeableUntilEnded(c: Config, es: seq<Event>, more: seq<Event>, h: Id)
    requires Exchangeable(Exec(c, es).db, h, Exec(c, es).now)
    ensures h in Exec(c, es + more).log.minted
    ensures var s' := Exec(c, es + more); Exchangeable(s'.db, h, s'.now) <==> !RefreshEnds(c, es, more, h)
  {
    hide Exec, Apply, Inv, Linked, Exchangeable, EndsRefresh, AccessEnds, RefreshEnds;
    if more == [] {
      assert es + more == es;
      NothingEnds(c, es, h);
      ExecKeeps(c, es);
      ExchangeableIsStored(Exec(c, es).db, h, Exec(c, es).now);
      GrantsWereBorn(c, Exec(c, es), h, h);
    } else {
      var init, e := more[..|more| - 1], more[|more| - 1];
      assert more == init + [e] && es + more == es + init + [e];
      ExchangeableUntilEnded(c, es, init, h);
      RefreshEndsStep(c, es, init, e, h);
      Issue.ExecNext(c, es + init, e);
      var s := Exec(c, es + init);
      ExecKeeps(c, es + init);
      LinkedNow(c, s);
      IssuedStays(c, s, e);
      NoEndOfIssued(c, s, e, h);
      if !(e.CreateRefresh? && e.h == h) {
        RefreshStep(c, s, e, h);
      }
    }
  }

  // --- what the answer is ---

  /** The earlier of the two ends. */
  predicate FirstEnd(t: Time, byLife: Time, byDecision: Option<Time>) {
    (t == byLife || byDecision == Some(t)) && t <= byLife && (byDecision.Some? ==> t <= byDecision.value)
  }

  /**
   A token is accepted exactly while it is stored, for the subject it was issued to, before the expiry it was
   issued with, and while its grant is stored and stands. The answer is its own client, subject, scopes and
   expiry, and the resources and reference of the decision behind its grant.
   */
  lemma AnswerIsIssued(c: Config, es: seq<Event>, tid: Id, sub: string)
    ensures var s := Exec(c, es); var v := Verify(s.db, tid, sub, s.now);
            && (v.Some? <==> tid in s.db.access && tid in s.log.accessed && sub == s.log.accessed[tid].subject
                             && s.now < s.log.accessed[tid].expiresAt
                             && s.log.accessed[tid].grant in s.db.grants && Stands(s.db.grants[s.log.accessed[tid].grant], s.now))
            && (v.Some? ==>
                  var t := s.log.accessed[tid];
                  && (v.value.grant, v.value.client, v.value.subject, v.value.scopes, v.value.expiresAt)
                     == (t.grant, t.client, t.subject, t.scopes, t.expiresAt)
                  && exists i :: 0 <= i < |s.log.src.decisions| && Explains(s.log.src, s.log.src.decisions[i], v.value))
  {
    ExecKeeps(c, es);
    var s := Exec(c, es);
    var v := Verify(s.db, tid, sub, s.now);
    hide Exec, Apply;
    if v.Some? {
      var gid := v.value.grant;
      assert AccessWithin(c, s.log.born[gid], s.log.accessed[tid]);
      assert GrantOk(s.log.born, gid, s.db.grants[gid]);
      var i := GrantIsBounded(s.log.src, s.log.born[gid]);
      assert Explains(s.log.src, s.log.src.decisions[i], v.value);
    }
  }

  /** The decision, and what was asked of it, are where this answer comes from. */
  ghost predicate Explains(src: Sources, d: Decision, v: Verified) {
    && d.request in src.asked && v.resources == src.asked[d.request].resources && v.ref == d.ref
    && v.client == src.asked[d.request].client && v.subject == d.subject
    && forall x :: x in v.scopes ==> x in src.asked[d.request].scopes && Covers(d, x)
  }

  /** A new access token is accepted at once if its grant still stands, with the exchange's own scopes. */
  lemma NewAccessAnswers(c: Config, s: State, job: nat, tid: Id)
    requires Inv(c, s) && job in s.jobs && s.jobs[job].Minting? && s.jobs[job].step == ToAccess && tid !in s.log.accessed
    ensures var j, db := s.jobs[job], Apply(c, s, CreateAccess(job, tid)).db; var v := Verify(db, tid, j.g.subject, s.now);
            && tid in db.access && FirstEnd(db.access[tid].expiresAt, s.now + c.accessTTL, j.g.endsAt)
            && (v.Some? <==> s.now < db.access[tid].expiresAt && j.gid in s.db.grants && Stands(s.db.grants[j.gid], s.now))
            && (v.Some? ==> v.value == Verified(j.gid, j.g.client, j.g.subject, j.scopes, j.g.resources, j.g.ref, db.access[tid].expiresAt))
  {
    hide Inv, LogOk;
    JobIsOk(c, s, job);
    if s.jobs[job].gid in s.db.grants {
      GrantIsBorn(c, s, s.jobs[job].gid);
    }
  }

  /** And a new refresh token can be exchanged at once, for the same scopes. */
  lemma NewRefreshAnswers(c: Config, s: State, job: nat, h: Id)
    requires job in s.jobs && s.jobs[job].Minting? && s.jobs[job].step == ToRefresh && h !in s.log.minted
    ensures var j, db := s.jobs[job], Apply(c, s, CreateRefresh(job, h)).db;
            && h in db.refresh && FirstEnd(db.refresh[h].expiresAt, s.now + c.refreshTTL, j.g.endsAt)
            && (db.refresh[h].grant, db.refresh[h].client, db.refresh[h].subject, db.refresh[h].scopes)
               == (j.gid, j.g.client, j.g.subject, j.scopes)
            && (Exchangeable(db, h, s.now) <==>
                  s.now <= db.refresh[h].expiresAt && j.gid in s.db.grants && Stands(s.db.grants[j.gid], s.now))
  {
  }

  // --- a used token is remembered ---

  /** What makes the store forget a refresh token. */
  predicate Forgets(c: Config, s: State, e: Event, h: Id)
    requires h in s.db.refresh
  {
    var t := s.db.refresh[h];
    || e == DropClient(t.client)
    || (e.Expire? && (s.now > t.expiresAt || Unused(c, s, t.client) || GrantGoes(s.db, t.grant, s.now, s.now - c.unusedClientTTL)))
  }

  lemma UseForgetsNothing(db: Db, used: Id, at: Time, h: Id)
    requires h in db.refresh && db.refresh[h].usedAt.Some?
    ensures var refresh := MarkUsed(db, used, at).refresh; h in refresh && refresh[h] == db.refresh[h]
  {
  }

  lemma OnlyTwoForget(c: Config, s: State, e: Event, h: Id)
    requires h in s.db.refresh && Forgets(c, s, e, h)
    ensures e.Expire? || e.DropClient?
  {
  }

  /** The other steps leave the record of a used token alone. */
  lemma OthersForgetNothing(c: Config, s: State, e: Event, h: Id)
    requires Inv(c, s) && h in s.db.refresh && s.db.refresh[h].usedAt.Some? && !e.Expire? && !e.DropClient?
    ensures var refresh := Apply(c, s, e).db.refresh; h in refresh && refresh[h] == s.db.refresh[h]
  {
    hide Inv, Apply, RevokeGrants, MarkUsed;
    GrantsWereBorn(c, s, h, h);
    TokenStep(c, s, e);
    if !ChangesTokens(e) {
      OthersLeaveTokens(c, s, e);
    } else {
      match e
      case Revoke(f) => RevocationKeepsTokens(s.db, f, s.now);
      case Replay(job) =>
        if job in s.jobs && s.jobs[job].Replaying? {
          RevocationKeepsTokens(s.db, GrantFilter(s.jobs[job].gid, "", "", ""), s.now);
        }
      case UseToken(job) =>
        if job in s.jobs && s.jobs[job].Ready? {
          UseForgetsNothing(s.db, s.jobs[job].h, s.now, h);
        }
      case Tick(_) =>
      case RevokeAccess(_) =>
      case _ =>
        CreationAdds(c, s, e);
        IssuedStays(c, s, e);
    }
  }

  /** A used token stays in the store, used since the same time, exactly until a step that forgets it. */
  lemma UsedTokenStaysExactlyWhen(c: Config, s: State, e: Event, h: Id)
    requires Inv(c, s) && Linked(s.db) && h in s.db.refresh && s.db.refresh[h].usedAt.Some?
    ensures var refresh := Apply(c, s, e).db.refresh; h in refresh <==> !Forgets(c, s, e, h)
    ensures var refresh := Apply(c, s, e).db.refresh; h in refresh ==> refresh[h] == s.db.refresh[h]
  {
    hide Inv, Linked, Apply, DropClients, CleanUp, GrantGoes, Lapsed;
    if e.DropClient? {
      LinkedRefresh(s.db, h);
      TokenStep(c, s, e);
      DropForgets(s.db, e.id, h);
    } else if e.Expire? {
      ExpiryForgets(c, s, h);
    } else {
      hide Forgets;
      OthersForgetNothing(c, s, e, h);
      if Forgets(c, s, e, h) {
        OnlyTwoForget(c, s, e, h);
      }
    }
  }

  lemma LinkedRefresh(db: Db, h: Id)
    requires Linked(db)
    ensures h in db.refresh && db.refresh[h].grant in db.grants ==> db.refresh[h].client == db.grants[db.refresh[h].grant].client
  {
  }

  lemma RevocationKeepsTokens(db: Db, f: GrantFilter, at: Time)
    ensures RevokeGrants(db, f, at).refresh == db.refresh
  {
  }

  lemma DropForgets(db: Db, id: Id, h: Id)
    requires h in db.refresh && (db.refresh[h].grant in db.grants ==> db.refresh[h].client == db.grants[db.refresh[h].grant].client)
    ensures var refresh := DropClients(db, {id}).refresh;
            (h in refresh <==> id != db.refresh[h].client) && (h in refresh ==> refresh[h] == db.refresh[h])
  {
  }

  lemma ExpiryForgets(c: Config, s: State, h: Id)
    requires h in s.db.refresh
    ensures var refresh := Apply(c, s, Expire).db.refresh;
            (h in refresh <==> !Forgets(c, s, Expire, h)) && (h in refresh ==> refresh[h] == s.db.refresh[h])
  {
    hide CleanUp, Lapsed, GrantGoes;
    CleanUpRefresh(s.db, s.now, s.now - AUTH_REQUEST_TTL, s.now - c.unusedClientTTL);
  }

  /** Over a run: if no step forgets it, a replay is noticed however late (OAuthFamilies.ReplayEndsFamily). */
  lemma {:induction false} UsedTokenIsRemembered(c: Config, es: seq<Event>, more: seq<Event>, h: Id)
    requires var s := Exec(c, es); h in s.db.refresh && s.db.refresh[h].usedAt.Some?
    requires forall k :: 0 <= k < |more| ==>
      var s := Exec(c, es + more[..k]); h in s.db.refresh ==> !Forgets(c, s, more[k], h)
    ensures h in Exec(c, es + more).db.refresh && Exec(c, es + more).db.refresh[h] == Exec(c, es).db.refresh[h]
  {
    hide Exec, Apply, Inv, Linked, Forgets;
    if more == [] {
      assert es + more == es;
    } else {
      var init, e := more[..|more| - 1], more[|more| - 1];
      assert more == init + [e] && es + more == es + init + [e];
      forall k | 0 <= k < |init|
        ensures var s := Exec(c, es + init[..k]); h in s.db.refresh ==> !Forgets(c, s, init[k], h)
      {
        assert init[..k] == more[..k] && init[k] == more[k];
      }
      UsedTokenIsRemembered(c, es, init, h);
      assert more[..|init|] == init && more[|init|] == e;
      Issue.ExecNext(c, es + init, e);
      ExecKeeps(c, es + init);
      LinkedNow(c, Exec(c, es + init));
      UsedTokenStaysExactlyWhen(c, Exec(c, es + init), e, h);
    }
  }

  // --- what is asked ---

  /**
   A new request asks what it came with, in that order, and last of all offline_access, if its client may
   refresh and it had not asked for it.
   */
  lemma NewRequestAsks(c: Config, s: State, id: Id, client: Id, mayRefresh: bool, scopes: Scopes, resources: seq<string>)
    requires id !in s.log.src.asked && (client in s.db.clients ==> s.db.clients[client].mayRefresh == mayRefresh)
    ensures var s' := Apply(c, s, NewRequest(id, client, mayRefresh, scopes, resources));
            && id in s'.db.requests && id in s'.log.src.asked
            && var r := s'.log.src.asked[id];
               && s'.db.requests[id] == r && (r.client, r.resources, r.createdAt, r.done, r.subject) == (client, resources, s.now, false, "")
               && scopes <= r.scopes
               && (forall x :: x in r.scopes <==> x in scopes || (mayRefresh && x == "offline_access"))
               && (mayRefresh && "offline_access" !in scopes ==> |r.scopes| == |scopes| + 1) && |r.scopes| <= |scopes| + 1
  {
    assert OFFLINE_ACCESS == "offline_access";
  }
}
