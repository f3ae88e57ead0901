/**
 Clean-up between the store calls of one exchange (oidcprovider/storage.go:235-251): the access token comes
 first, the touch of its client next, stamped with the token's time, and the refresh token last. A touch
 overwrites the client's last use even if that is later, so a slow one can move it back.
 */
module OAuthTouch {
  import opened Basics
  import opened OAuthRecords
  import opened OAuthCleanUp
  import opened OAuthFlow
  import opened OAuthProvenance
  import opened OAuthQuiet
  import Issue = OAuthIssue

  /** A touch comes at most `lag` after the access token it is for. */
  predicate PromptTouch(s: State, e: Event, lag: Time) {
    e.TouchForMint? && e.job in s.jobs && s.jobs[e.job].Minting? && s.jobs[e.job].step.ToTouch?
    ==> s.now <= s.jobs[e.job].step.at + lag
  }

  ghost predicate Prompt(c: Config, lag: Time, es: seq<Event>) {
    forall k :: 0 <= k < |es| ==> PromptTouch(Exec(c, es[..k]), es[k], lag)
  }

  lemma PromptNext(c: Config, lag: Time, es: seq<Event>, e: Event)
    ensures Prompt(c, lag, es + [e]) <==> Prompt(c, lag, es) && PromptTouch(Exec(c, es), e, lag)
  {
    hide Exec, PromptTouch;
    var all := es + [e];
    assert forall k :: 0 <= k < |es| ==> all[..k] == es[..k] && all[k] == es[k];
    assert all[..|es|] == es && all[|es|] == e;
    if Prompt(c, lag, all) {
      assert PromptTouch(Exec(c, all[..|es|]), all[|es|], lag);
      forall k | 0 <= k < |es| ensures PromptTouch(Exec(c, es[..k]), es[k], lag) {
        assert PromptTouch(Exec(c, all[..k]), all[k], lag);
      }
    }
  }

  // --- a touch lasts, less the lag ---

  /** Once a client was used at `u`, by then, its last use is never again more than `lag` earlier. */
  ghost predicate UsedBy(s: State, client: Id, u: Time, lag: Time) {
    u <= s.now && UsedSince(s.db.clients, client, u - lag)
  }

  lemma StepKeepsUse(c: Config, s: State, e: Event, client: Id, u: Time, lag: Time)
    requires 0 <= lag && UsedBy(s, client, u, lag) && PromptTouch(s, e, lag)
    ensures UsedBy(Apply(c, s, e), client, u, lag)
  {
    hide DropClients, CleanUp;
    if e.Expire? {
      CleanUpLoses(s.db, s.now, s.now - AUTH_REQUEST_TTL, s.now - c.unusedClientTTL);
    } else if e.DropClient? {
      DropClientsLoses(s.db, {e.id});
    }
  }

  /** The records of tokens do not change, once created. */
  predicate SameTokens(s: State, s': State) {
    && (forall k :: k in s.log.accessed ==> k in s'.log.accessed && s'.log.accessed[k] == s.log.accessed[k])
    && (forall h :: h in s.log.minted ==> h in s'.log.minted && s'.log.minted[h] == s.log.minted[h])
  }

  lemma StepKeepsTokens(c: Config, s: State, e: Event)
    ensures SameTokens(s, Apply(c, s, e))
  {
    hide CapTime, TouchClient, DropClients, CleanUp;
  }

  lemma {:induction false} UseLasts(c: Config, es: seq<Event>, more: seq<Event>, client: Id, u: Time, lag: Time)
    requires 0 <= lag && UsedBy(Exec(c, es), client, u, lag) && Prompt(c, lag, es + more)
    ensures UsedBy(Exec(c, es + more), client, u, lag)
  {
    hide Exec, Apply, UsedBy, Prompt, PromptTouch;
    if more == [] {
      assert es + more == es;
    } else {
      var init, e := more[..|more| - 1], more[|more| - 1];
      assert es + more == (es + init) + [e];
      PromptNext(c, lag, es + init, e);
      UseLasts(c, es, init, client, u, lag);
      Issue.ExecNext(c, es + init, e);
      StepKeepsUse(c, Exec(c, es + init), e, client, u, lag);
    }
  }

  lemma {:induction false} TokensLast(c: Config, es: seq<Event>, more: seq<Event>)
    ensures SameTokens(Exec(c, es), Exec(c, es + more))
  {
    hide Exec, Apply;
    if more == [] {
      assert es + more == es;
    } else {
      var init, e := more[..|more| - 1], more[|more| - 1];
      assert es + more == (es + init) + [e];
      TokensLast(c, es, init);
      Issue.ExecNext(c, es + init, e);
      StepKeepsTokens(c, Exec(c, es + init), e);
    }
  }

  /** A token stored in `s`, whose client has been used since it was created. */
  predicate TouchedAccess(s: State, tid: Id) {
    tid in s.db.access && UsedSince(s.db.clients, s.db.access[tid].client, s.db.access[tid].createdAt)
  }

  predicate TouchedRefresh(s: State, h: Id) {
    h in s.db.refresh && UsedSince(s.db.clients, s.db.refresh[h].client, s.db.refresh[h].createdAt)
  }

  /** A clean-up after `more` changes the answer for no token that had been touched by the end of `es`. */
  ghost predicate TouchedAreKept(c: Config, es: seq<Event>, more: seq<Event>) {
    var s, s' := Exec(c, es), Exec(c, es + more);
    && (forall tid, sub :: TouchedAccess(s, tid) ==> Verify(Cleaned(c, s'), tid, sub, s'.now) == Verify(s'.db, tid, sub, s'.now))
    && (forall h :: TouchedRefresh(s, h) ==> (Exchangeable(Cleaned(c, s'), h, s'.now) <==> Exchangeable(s'.db, h, s'.now)))
  }

  lemma TouchedAccessIsKept(c: Config, lag: Time, es: seq<Event>, more: seq<Event>, tid: Id, sub: string)
    requires 0 <= lag && ClientsOutliveTokens(c, lag) && Prompt(c, lag, es + more) && TouchedAccess(Exec(c, es), tid)
    ensures var s' := Exec(c, es + more); Verify(Cleaned(c, s'), tid, sub, s'.now) == Verify(s'.db, tid, sub, s'.now)
  {
    hide Exec, Prompt, ClientsOutliveTokens, Cleaned, Verify, Dated, Linked, Inv;
    var s, s' := Exec(c, es), Exec(c, es + more);
    var t := s.db.access[tid];
    ExecKeeps(c, es);
    ExecKeeps(c, es + more);
    AccessIsLogged(c, s, tid);
    AccessIsLogged(c, s', tid);
    TokensLast(c, es, more);
    UseLasts(c, es, more, t.client, t.createdAt, lag);
    TokensAreDated(c, s');
    LinkedNow(c, s');
    AccessIsKept(c, s', tid, sub, lag);
  }

  lemma AccessIsLogged(c: Config, s: State, tid: Id)
    requires Inv(c, s)
    ensures tid in s.db.access ==> tid in s.log.accessed && s.db.access[tid] == s.log.accessed[tid] && s.db.access[tid].createdAt <= s.now
  {
  }

  lemma TouchedRefreshIsKept(c: Config, lag: Time, es: seq<Event>, more: seq<Event>, h: Id)
    requires 0 <= lag && ClientsOutliveTokens(c, lag) && Prompt(c, lag, es + more) && TouchedRefresh(Exec(c, es), h)
    ensures var s' := Exec(c, es + more); Exchangeable(Cleaned(c, s'), h, s'.now) <==> Exchangeable(s'.db, h, s'.now)
  {
    hide Exec, Prompt, ClientsOutliveTokens, Cleaned, Exchangeable, Dated, Linked, Inv;
    var s, s' := Exec(c, es), Exec(c, es + more);
    var t := s.db.refresh[h];
    ExecKeeps(c, es);
    ExecKeeps(c, es + more);
    RefreshIsLogged(c, s, h);
    RefreshIsLogged(c, s', h);
    TokensLast(c, es, more);
    UseLasts(c, es, more, t.client, t.createdAt, lag);
    TokensAreDated(c, s');
    LinkedNow(c, s');
    RefreshIsKept(c, s', h, lag);
  }

  lemma RefreshIsLogged(c: Config, s: State, h: Id)
    requires Inv(c, s)
    ensures h in s.db.refresh ==>
      var t := s.db.refresh[h];
      h in s.log.minted && t == s.log.minted[h].(usedAt := t.usedAt) && t.createdAt <= s.now
  {
    if h in s.db.refresh {
      assert RefreshOk(s.log.minted, h, s.db.refresh[h]);
    }
  }

  // --- the runs that show the bound is exact ---

  /** Grants "g" and "g2" of one client wait for their tokens. */
  lemma TwoGrants(c: Config) returns (es: seq<Event>)
    ensures var s := Exec(c, es);
            && s.now == 0 && s.jobs == map[0 := Issue.Mints("g", 0, ToAccess), 1 := Issue.Mints("g2", 0, ToAccess)]
            && s.db.clients == map["c" := Issue.CLIENT] && s.db.access == map[] && s.db.refresh == map[]
            && "g2" in s.db.grants && s.db.grants["g2"] == Issue.G(0) && s.log.accessed == map[] && s.log.minted == map[]
    ensures forall e :: e in es ==> !Issue.OfMint(e)
  {
    hide Exec;
    es := Issue.GrantsFirst(c, 0);
    es := Issue.Redeems(c, es, 1, "g2");
  }

  lemma {:induction false} NoTouchIsPrompt(c: Config, lag: Time, es: seq<Event>)
    requires forall e :: e in es ==> !e.TouchForMint?
    ensures Prompt(c, lag, es)
  {
  }

  /** Job 0 creates its access token; `lag` later job 1 creates both its tokens, "t" and "h", and touches the client. */
  lemma SecondFirst(c: Config, lag: nat) returns (es: seq<Event>)
    ensures var s := Exec(c, es);
            && s.now == lag && s.jobs == map[0 := Issue.Mints("g", 0, ToTouch(0))] && Prompt(c, lag, es)
            && s.db.clients == map["c" := Issue.CLIENT.(lastUsedAt := Some(lag))]
            && "g2" in s.db.grants && s.db.grants["g2"] == Issue.G(0)
            && "t" in s.db.access && s.db.access["t"] == Access("g2", "c", "u", [OFFLINE_ACCESS], lag + c.accessTTL, lag)
            && "h" in s.db.refresh && s.db.refresh["h"] == Refresh("g2", "c", "u", [OFFLINE_ACCESS], lag + c.refreshTTL, lag, None)
  {
    hide Exec, Apply, Prompt;
    es := TwoGrants(c);
    NoTouchIsPrompt(c, lag, es);
    Issue.MintsAccess(c, Exec(c, es), 0, "g", 0, "t0");
    es := Then(c, lag, es, CreateAccess(0, "t0"));
    Wait(c, Exec(c, es), lag);
    es := Then(c, lag, es, Tick(lag));
    Issue.MintsAccess(c, Exec(c, es), 1, "g2", 0, "t");
    es := Then(c, lag, es, CreateAccess(1, "t"));
    Issue.Touches(c, Exec(c, es), 1, "g2", 0, lag);
    es := Then(c, lag, es, TouchForMint(1));
    Issue.MintsRefresh(c, Exec(c, es), 1, "g2", 0, "h");
    es := Then(c, lag, es, CreateRefresh(1, "h"));
  }

  lemma Then(c: Config, lag: Time, es: seq<Event>, e: Event) returns (es': seq<Event>)
    requires Prompt(c, lag, es) && PromptTouch(Exec(c, es), e, lag)
    ensures es' == es + [e] && Prompt(c, lag, es') && Exec(c, es') == Apply(c, Exec(c, es), e)
  {
    hide Exec, Apply, Prompt, PromptTouch;
    PromptNext(c, lag, es, e);
    Issue.ExecNext(c, es, e);
    es' := es + [e];
  }

  /** Then the slow touch moves the client's last use back to 0, and a clean-up finds it unused for too long. */
  lemma SlowTouchLoses(c: Config, lag: nat, age: nat) returns (es: seq<Event>, more: seq<Event>)
    requires lag + age > c.unusedClientTTL
    ensures Prompt(c, lag, es + more) && (age < c.accessTTL || age <= c.refreshTTL ==> !TouchedAreKept(c, es, more))
  {
    hide Exec, Apply, Prompt;
    es := SecondFirst(c, lag);
    Issue.Touches(c, Exec(c, es), 0, "g", 0, 0);
    var all := Then(c, lag, es, TouchForMint(0));
    Wait(c, Exec(c, all), age);
    all := Then(c, lag, all, Tick(age));
    more := [TouchForMint(0), Tick(age)];
    assert all == es + more;
    assert TouchedAccess(Exec(c, es), "t") && TouchedRefresh(Exec(c, es), "h");
    Loses(c, Exec(c, all), lag, age);
  }

  lemma Loses(c: Config, s: State, lag: nat, age: nat)
    requires s.now == lag + age > c.unusedClientTTL && s.db.clients == map["c" := Issue.CLIENT.(lastUsedAt := Some(0))]
    requires "g2" in s.db.grants && s.db.grants["g2"] == Issue.G(0)
    requires "t" in s.db.access && s.db.access["t"] == Access("g2", "c", "u", [OFFLINE_ACCESS], lag + c.accessTTL, lag)
    requires "h" in s.db.refresh && s.db.refresh["h"] == Refresh("g2", "c", "u", [OFFLINE_ACCESS], lag + c.refreshTTL, lag, None)
    ensures age < c.accessTTL ==> Verify(Cleaned(c, s), "t", "u", s.now) != Verify(s.db, "t", "u", s.now)
    ensures age <= c.refreshTTL ==> !Exchangeable(Cleaned(c, s), "h", s.now) && Exchangeable(s.db, "h", s.now)
  {
    hide CleanUp;
    CleanUpKeepsVerify(s.db, "t", "u", s.now, s.now - AUTH_REQUEST_TTL, s.now - c.unusedClientTTL);
    CleanUpKeepsExchangeable(s.db, "h", s.now, s.now - AUTH_REQUEST_TTL, s.now - c.unusedClientTTL);
  }

  // --- main results ---

  /**
   With every store call of every exchange a step of its own: tokens whose client was touched keep their
   answer through every clean-up, in all runs, exactly if unused clients are kept as long as either kind of
   token lives and as a touch may take.
   */
  lemma TouchLagDecides(c: Config, lag: nat)
    requires c.accessTTL > 0 && c.refreshTTL > 0
    ensures (forall es, more :: Prompt(c, lag, es + more) ==> TouchedAreKept(c, es, more)) <==> ClientsOutliveTokens(c, lag)
  {
    hide Exec, Prompt;
    if ClientsOutliveTokens(c, lag) {
      forall es, more | Prompt(c, lag, es + more) ensures TouchedAreKept(c, es, more) {
        hide TouchedAccess, TouchedRefresh, Verify, Exchangeable, Cleaned;
        forall tid, sub | TouchedAccess(Exec(c, es), tid)
          ensures var s' := Exec(c, es + more); Verify(Cleaned(c, s'), tid, sub, s'.now) == Verify(s'.db, tid, sub, s'.now)
        {
          TouchedAccessIsKept(c, lag, es, more, tid, sub);
        }
        forall h | TouchedRefresh(Exec(c, es), h)
          ensures var s' := Exec(c, es + more); Exchangeable(Cleaned(c, s'), h, s'.now) <==> Exchangeable(s'.db, h, s'.now)
        {
          TouchedRefreshIsKept(c, lag, es, more, h);
        }
      }
    } else {
      hide TouchedAreKept;
      var age := if c.refreshTTL + lag > c.unusedClientTTL then c.refreshTTL else c.accessTTL - 1;
      var es, more := SlowTouchLoses(c, lag, age);
    }
  }

  /** Before its touch nothing keeps a token: one just created goes with a client that was not used for long. */
  lemma UntouchedTokenCanGo(c: Config) returns (es: seq<Event>)
    requires c.unusedClientTTL >= 0 && c.accessTTL > 0
    ensures var s := Exec(c, es);
            && Verify(s.db, "t", "u", s.now).Some? && Verify(Cleaned(c, s), "t", "u", s.now).None?
            && "c" in s.db.clients && "c" !in Cleaned(c, s).clients
  {
    hide Exec, Apply, CleanUp;
    var at := c.unusedClientTTL + 1;
    es := Issue.GrantsFirst(c, at);
    Issue.MintsAccess(c, Exec(c, es), 0, "g", at, "t");
    Issue.ExecNext(c, es, CreateAccess(0, "t"));
    es := es + [CreateAccess(0, "t")];
    var s := Exec(c, es);
    CleanUpKeepsVerify(s.db, "t", "u", s.now, s.now - AUTH_REQUEST_TTL, s.now - c.unusedClientTTL);
    StaleGoes(s.db, "c", s.now, s.now - AUTH_REQUEST_TTL, s.now - c.unusedClientTTL);
  }

  lemma StaleGoes(db: Db, id: Id, now: Time, requestsBefore: Time, clientsBefore: Time)
    requires Dropped(db, id, clientsBefore)
    ensures id !in CleanUp(db, now, requestsBefore, clientsBefore).clients
  {
    CleanUpClients(db, now, requestsBefore, clientsBefore);
  }
}
