/**
 How long a signing key outlives the ID tokens it signed (oidcprovider/keys.go:132-196).

 A token verifies while its key is stored. Upkeep deletes a key once it has been retired for the grace,
 but a replica may sign with it for as long as its cache still holds it. So everything depends on the
 cache's age when it signs. Callers that find the cache fresh, or reload it themselves, sign within
 KEY_REFRESH of a read. A caller that arrives while another one is reloading signs with the cache as it
 was (oidcprovider/keys.go:139-141), and what bounds its age then is the replica's own upkeep, which ends
 with a reload every hour (oidcprovider/provider.go:242-256, oidcprovider/keys.go:192).
 */
module KeyExpiry {
  import opened Basics
  import opened SigningKeys
  import opened KeyRotation

  /** Until it expires, the token's key is in the store, so it verifies. */
  predicate Published(c: Config, s: State, t: Token) {
    s.now < t.iat + c.ttl ==> t.key in s.store
  }

  /** A token whose signer's keys were read long enough before the grace runs out verifies until it expires. */
  lemma YoungCacheIsSafe(c: Config, es: seq<Event>, t: Token)
    requires c.Sane() && t in Exec(c, es).tokens
    requires t.iat - t.readAt + c.ttl + c.stampLag <= c.grace
    ensures Published(c, Exec(c, es), t)
  {
    ExecKeepsInv(c, es);
    var s := Exec(c, es);
    assert TokenOk(c, s.log, t);
    assert t.key in s.store || t.key in s.deleted;
  }

  /**
   Verifiers read the list a replica publishes, which is its cache. Such a token's key is on the list of
   every replica that has read the store since the key was added, until the token expires, unless a load
   that was in flight then is committed later.
   */
  lemma YoungCacheIsPublished(
    c: Config, es: seq<Event>, mid: seq<Event>, load: nat, more: seq<Event>, replica: nat, t: Token)
    requires c.Sane() && t.key in Exec(c, es).log.born
    requires Commits(c, es, mid, load, replica) && Spared(c, es, mid + [CommitLoad(load)], more, replica)
    requires var s := Exec(c, es + (mid + [CommitLoad(load)] + more)); t in s.tokens && s.now < t.iat + c.ttl
    requires t.iat - t.readAt + c.ttl + c.stampLag <= c.grace
    ensures CacheHas(Exec(c, es + (mid + [CommitLoad(load)] + more)), replica, t.key)
  {
    var all := es + (mid + [CommitLoad(load)] + more);
    YoungCacheIsSafe(c, all, t);
    ExecKeepsInv(c, all);
    assert t.key !in Exec(c, all).deleted;
    ReloadedListHas(c, es, mid, load, more, replica, t.key);
  }

  /** A token not signed behind a reload was signed from keys read within KEY_REFRESH and the lag. */
  lemma FreshSignerIsYoung(c: Config, es: seq<Event>, t: Token)
    requires c.Sane() && t in Exec(c, es).tokens && !t.behind
    ensures 0 <= t.iat - t.readAt < c.loadLag + c.refresh
  {
    ExecKeepsInv(c, es);
    assert TokenOk(c, Exec(c, es).log, t);
  }

  /** In `more` the replica runs on, and its load reads after `es` and is committed at least `d` later. */
  ghost predicate ReloadsLater(
    c: Config, d: Time, es: seq<Event>, mid: seq<Event>, load: nat, more: seq<Event>, replica: nat, id: KeyId) {
    StoredSince(c, es, mid + [CommitLoad(load)] + more, id) && CommitsLater(c, es, mid, load, replica, d)
    && Stop(replica) !in more
  }

  ghost predicate Lists(
    c: Config, es: seq<Event>, mid: seq<Event>, load: nat, more: seq<Event>, replica: nat, id: KeyId) {
    CacheHas(Exec(c, es + (mid + [CommitLoad(load)] + more)), replica, id)
  }

  /**
   How long after a key was added a replica must reload for the key to stay on its list for as long as it
   is stored: longer than a load takes from its read to its commit, and no longer.
   */
  lemma CommitDelayDecides(c: Config, d: Time)
    requires c.Sane() && c.loadLag > 0
    ensures (forall es, mid, load, more, replica, id ::
               ReloadsLater(c, d, es, mid, load, more, replica, id) ==> Lists(c, es, mid, load, more, replica, id))
            <==> d > c.loadLag
  {
    hide Exec, Apply, CacheHas, Commits, Spared, StoredSince;
    if d > c.loadLag {
      forall es, mid, load, more, replica, id | ReloadsLater(c, d, es, mid, load, more, replica, id)
        ensures Lists(c, es, mid, load, more, replica, id)
      {
        LateCommitsAreSpared(c, es, mid, load, more, replica);
        ReloadedListHas(c, es, mid, load, more, replica, id);
      }
    } else {
      var wait: nat := Max(1, d);
      var es := ReadBeforeAdd(c);
      OlderLoadUnpublishes(c, es, wait);
      assert ReloadsLater(c, d, es, [Tick(wait), StartLoad(1, 0)], 1, [CommitLoad(0)], 0, 2);
    }
  }

  // --- upkeep bounds the age of every cache ---

  /** How often a replica's upkeep runs. */
  const UPKEEP_PERIOD: Time := HOUR

  /** No cache was read longer ago than the period and the time a load takes to commit. */
  ghost predicate Young(c: Config, period: Time, s: State) {
    forall i :: i in s.caches ==> s.now - s.caches[i].readAt <= period + c.loadLag
  }

  /**
   Throughout the run every replica's upkeep keeps reading the keys: `period` is the longest it leaves
   between the reads that reach its cache.
   */
  ghost predicate Attended(c: Config, period: Time, es: seq<Event>) {
    es == [] || (Attended(c, period, es[..|es| - 1]) && Young(c, period, Exec(c, es)))
  }

  lemma AttendedNext(c: Config, period: Time, es: seq<Event>, e: Event)
    ensures Attended(c, period, es + [e]) <==> Attended(c, period, es) && Young(c, period, Apply(c, Exec(c, es), e))
  {
    assert (es + [e])[..|es|] == es;
    ExecNext(c, es, e);
  }

  /** Then no token is signed from keys older than that, whether its signer met a reload or not. */
  lemma {:induction false} AttendedSignersAreYoung(c: Config, period: Time, es: seq<Event>, t: Token)
    requires Attended(c, period, es) && t in Exec(c, es).tokens
    ensures t.iat - t.readAt <= period + c.loadLag
  {
    hide Apply, Exec, Young;
    if es == [] {
      NoTokensYet(c);
    } else {
      var init, e := es[..|es| - 1], es[|es| - 1];
      assert es == init + [e];
      ExecNext(c, init, e);
      if t in Exec(c, init).tokens {
        AttendedSignersAreYoung(c, period, init, t);
      } else {
        NewTokenIsYoung(c, period, Exec(c, init), e, t);
      }
    }
  }

  lemma NoTokensYet(c: Config)
    ensures Exec(c, []).tokens == {} && Exec(c, []).caches == map[]
  {
  }

  lemma NewTokenIsYoung(c: Config, period: Time, s: State, e: Event, t: Token)
    requires Young(c, period, Apply(c, s, e)) && t !in s.tokens && t in Apply(c, s, e).tokens
    ensures t.iat - t.readAt <= period + c.loadLag
  {
    hide Newest, NeedsKey;
    assert e.Sign? && e.replica in Apply(c, s, e).caches;
  }

  /** While no replica has a cache there is nothing to keep young. */
  lemma {:induction false} QuietRun(c: Config, period: Time, es: seq<Event>, more: seq<Event>)
    requires Attended(c, period, es) && Exec(c, es).caches == map[] && forall e :: e in more ==> !e.CommitLoad?
    ensures Attended(c, period, es + more) && Exec(c, es + more).caches == map[]
  {
    hide Apply, Exec, Young, Attended;
    if more == [] {
      assert es + more == es;
    } else {
      var init, e := more[..|more| - 1], more[|more| - 1];
      assert es + more == es + init + [e];
      QuietRun(c, period, es, init);
      assert e in more;
      QuietStep(c, period, Exec(c, es + init), e);
      ExecNext(c, es + init, e);
      AttendedNext(c, period, es + init, e);
    }
  }

  lemma QuietStep(c: Config, period: Time, s: State, e: Event)
    requires s.caches == map[] && !e.CommitLoad?
    ensures Apply(c, s, e).caches == map[] && Young(c, period, Apply(c, s, e))
  {
    hide Newest, NeedsKey;
  }

  // --- the runs that show the bounds are exact ---

  lemma OnlyKeySigns(keys: Keys, id: KeyId)
    requires Active(keys, id) && forall k :: Active(keys, k) && k != id ==> Older(keys[k], k, keys[id], id)
    ensures Newest(keys) == Some(id)
  {
    NewestIsUnique(keys, id);
  }

  /** Run 0 adds key 1 at time 0. Run 1, started at time 0 too, goes on only `stampLag` later. */
  lemma TwoRunsStart(c: Config) returns (es: seq<Event>)
    requires c.Sane()
    ensures var s := Exec(c, es);
            && s.now == c.stampLag && s.store == map[1 := Key(0, None)] && s.caches == map[] && s.loads == map[]
            && s.log.born.Keys == {1} && s.tokens == {} && s.runs.Keys == {0, 1}
            && s.runs[1] == Run(0, true, s.store, 0, Adding)
    ensures forall e :: e in es ==> !e.CommitLoad?
  {
    ExecStep(c, INITIAL, [], StartRun(0, true));
    es := [] + [StartRun(0, true)];
    ExecStep(c, INITIAL, es, ReadForRun(0));
    es := es + [ReadForRun(0)];
    assert Exec(c, es).runs[0] == Run(0, true, map[], 0, Adding);
    ExecStep(c, INITIAL, es, AddForRun(0, 1));
    es := es + [AddForRun(0, 1)];
    ExecStep(c, INITIAL, es, StartRun(1, true));
    es := es + [StartRun(1, true)];
    ExecStep(c, INITIAL, es, ReadForRun(1));
    es := es + [ReadForRun(1)];
    ExecStep(c, INITIAL, es, Tick(c.stampLag));
    es := es + [Tick(c.stampLag)];
  }

  const ONE: Keys := map[1 := Key(0, None)]
  const BOTH: Keys := map[1 := Key(0, None), 2 := Key(0, None)]
  const RETIRED: Keys := map[1 := Key(0, Some(0)), 2 := Key(0, None)]

  /** Replica 0 reads key 1; then run 1 adds key 2. */
  lemma ReadThenAdd(c: Config, s: State)
    requires c.Sane() && s.store == ONE && s.loads == map[] && s.log.born.Keys == {1}
    requires s.runs.Keys == {0, 1} && s.runs[1] == Run(0, true, s.store, 0, Adding)
    ensures var s' := Apply(c, Apply(c, s, StartLoad(0, 0)), AddForRun(1, 2));
            && s' == s.(store := BOTH, loads := map[0 := Load(0, ONE, s.now, Ready)], log := s'.log, runs := s'.runs)
            && s'.log.born.Keys == {1, 2} && s'.runs.Keys == {0, 1} && s'.runs[1] == Run(0, true, ONE, 0, Rereading)
  {
    OnlyKeySigns(ONE, 1);
    var s1 := Apply(c, s, StartLoad(0, 0));
    assert s1.loads == map[0 := Load(0, ONE, s.now, Ready)];
    assert s1.store == ONE && s1.runs == s.runs && s1.log == s.log;
  }

  lemma ReadBeforeAdd(c: Config) returns (es: seq<Event>)
    requires c.Sane()
    ensures var s := Exec(c, es);
            && s.now == c.stampLag && s.store == BOTH && s.loads == map[0 := Load(0, ONE, s.now, Ready)]
            && s.log.born.Keys == {1, 2} && s.runs.Keys == {0, 1} && s.runs[1] == Run(0, true, ONE, 0, Rereading)
            && s.caches == map[] && s.tokens == {}
    ensures forall e :: e in es ==> !e.CommitLoad?
  {
    es := TwoRunsStart(c);
    hide Apply, Exec;
    ReadThenAdd(c, Exec(c, es));
    TwoSteps(c, es, StartLoad(0, 0), AddForRun(1, 2));
    es := es + [StartLoad(0, 0), AddForRun(1, 2)];
  }

  /** Replica 0 reads both keys in load 1 and lists both; then it commits load 0, and lists only key 1. */
  lemma OlderLoadCommits(c: Config, s: State, wait: nat)
    requires c.Sane() && wait <= c.loadLag && s.store == BOTH && s.loads == map[0 := Load(0, ONE, s.now, Ready)]
    ensures var s1 := Apply(c, Apply(c, s, Tick(wait)), StartLoad(1, 0));
            var s2 := Apply(c, s1, CommitLoad(1));
            var s3 := Apply(c, s2, CommitLoad(0));
            && s1.now == s.now + wait && 1 in s1.loads && s1.loads[1] == Load(0, BOTH, s1.now, Ready) && 1 !in s2.loads
            && s3.deleted == s.deleted && !CacheHas(s3, 0, 2)
  {
    OnlyKeySigns(BOTH, 2);
    var s1 := Apply(c, Apply(c, s, Tick(wait)), StartLoad(1, 0));
    assert s1 == s.(now := s.now + wait, loads := s.loads[1 := Load(0, BOTH, s.now + wait, Ready)]);
    var s2 := Apply(c, s1, CommitLoad(1));
    assert s2 == s1.(caches := s.caches[0 := Cache(BOTH, s1.now, s1.now, false)], loads := s1.loads - {1});
    assert s2.loads[0] == Load(0, ONE, s.now, Ready);
  }

  lemma OlderLoadUnpublishes(c: Config, es: seq<Event>, wait: nat)
    requires c.Sane() && 0 < wait <= c.loadLag
    requires var s := Exec(c, es);
             s.store == BOTH && s.loads == map[0 := Load(0, ONE, s.now, Ready)] && s.log.born.Keys == {1, 2}
    ensures ReloadsLater(c, wait, es, [Tick(wait), StartLoad(1, 0)], 1, [CommitLoad(0)], 0, 2)
    ensures !Lists(c, es, [Tick(wait), StartLoad(1, 0)], 1, [CommitLoad(0)], 0, 2)
  {
    hide Exec, Apply, CacheHas, Inv;
    var mid := [Tick(wait), StartLoad(1, 0)];
    OlderLoadCommits(c, Exec(c, es), wait);
    TwoSteps(c, es, Tick(wait), StartLoad(1, 0));
    TwoSteps(c, es + mid, CommitLoad(1), CommitLoad(0));
    ExecNext(c, es + mid, CommitLoad(1));
    assert es + (mid + [CommitLoad(1)] + [CommitLoad(0)]) == es + mid + [CommitLoad(1), CommitLoad(0)];
    ExecKeepsInv(c, es);
    NotDeleted(c, Exec(c, es), 2);
  }

  lemma NotDeleted(c: Config, s: State, id: KeyId)
    requires Inv(c, s) && id in s.store
    ensures id !in s.deleted
  {
  }

  /** Then run 1 reads the keys again and retires key 1, stamped 0. */
  lemma RereadThenRetire(c: Config, s: State)
    requires c.Sane() && s.store == BOTH && s.now <= c.stampLag
    requires s.runs.Keys == {0, 1} && s.runs[1] == Run(0, true, ONE, 0, Rereading)
    ensures var s' := Apply(c, Apply(c, s, RereadForRun(1)), SweepKey(1, 1));
            s' == s.(store := RETIRED, log := s'.log, runs := s'.runs) && s'.log.born == s.log.born && s'.runs.Keys == {0, 1}
  {
    OnlyKeySigns(BOTH, 2);
    var s1 := Apply(c, s, RereadForRun(1));
    assert s1.runs[1] == Run(0, true, BOTH, s.now, Sweeping(2, BOTH.Keys));
    assert s1.store == BOTH && s1.now == s.now && s1.log == s.log;
    assert Retires(BOTH, 2, 1) && Active(BOTH, 1);
    assert Retire(BOTH, 1, 0) == RETIRED;
  }

  /** What replica 0 read at `readAt`, committed, */
  lemma CommitFirst(c: Config, s: State, readAt: Time)
    requires s.caches == map[] && s.loads == map[0 := Load(0, ONE, readAt, Ready)] && s.now <= readAt + c.loadLag
    ensures Apply(c, s, CommitLoad(0)) == s.(caches := map[0 := Cache(ONE, readAt, s.now, false)], loads := map[])
  {
  }

  /** marked as about to be read again if it is due, */
  lemma MarkWhenDue(c: Config, s: State, readAt: Time, keysAt: Time)
    requires c.Sane() && s.caches == map[0 := Cache(ONE, readAt, keysAt, false)]
    ensures var due := s.now - keysAt >= c.refresh;
            Apply(c, s, MarkStale(0)) == s.(caches := map[0 := Cache(ONE, readAt, if due then s.now else keysAt, due)])
  {
  }

  /** and signed with as it is; then the replica stops. */
  lemma SignThenStop(c: Config, s: State, readAt: Time, keysAt: Time, marked: bool)
    requires s.caches == map[0 := Cache(ONE, readAt, keysAt, marked)] && s.now - keysAt < c.refresh
    requires s.loads == map[] && s.tokens == {}
    ensures Apply(c, s, Sign(0)) == s.(tokens := {Token(1, s.now, readAt, marked)})
    ensures Apply(c, Apply(c, s, Sign(0)), Stop(0)) == s.(tokens := {Token(1, s.now, readAt, marked)}, caches := map[])
  {
    OnlyKeySigns(ONE, 1);
    assert Apply(c, s, Sign(0)) == s.(tokens := {Token(1, s.now, readAt, marked)});
  }

  /** Run 2 adds key 3, */
  lemma AddThirdKey(c: Config, s: State)
    requires c.Sane() && s.store == RETIRED && s.log.born.Keys == {1, 2} && s.runs.Keys == {0, 1}
    ensures var s' := Apply(c, Apply(c, Apply(c, s, StartRun(2, true)), ReadForRun(2)), AddForRun(2, 3));
            && s'.now == s.now && s'.store == s.store[3 := Key(s.now, None)] && s'.tokens == s.tokens
            && 2 in s'.runs && s'.runs[2] == Run(s.now, true, s.store, s.now, Rereading)
  {
    var s1 := Apply(c, Apply(c, s, StartRun(2, true)), ReadForRun(2));
    assert s1.runs[2] == Run(s.now, true, s.store, s.now, Adding);
  }

  /** and deletes key 1, retired for the grace. */
  lemma DeleteFirstKey(c: Config, s: State)
    requires c.Sane() && s.now >= 0 && s.now >= c.grace && s.store == RETIRED[3 := Key(s.now, None)]
    requires 2 in s.runs && s.runs[2].start == s.now && s.runs[2].phase == Rereading
    ensures var s' := Apply(c, Apply(c, s, RereadForRun(2)), SweepKey(2, 1));
            s'.now == s.now && 1 !in s'.store && s'.tokens == s.tokens
  {
    OnlyKeySigns(s.store, 3);
    var s1 := Apply(c, s, RereadForRun(2));
    assert s1.runs[2] == s.runs[2].(snap := s.store, readAt := s.now, phase := Sweeping(3, s.store.Keys));
    assert s1.store == s.store && s1.now == s.now && s1.tokens == s.tokens;
  }

  lemma TwoSteps(c: Config, es: seq<Event>, e: Event, f: Event)
    ensures Exec(c, es + [e, f]) == Apply(c, Apply(c, Exec(c, es), e), f)
  {
    hide Apply, Exec;
    ExecNext(c, es, e);
    ExecNext(c, es + [e], f);
    assert es + [e, f] == es + [e] + [f];
  }

  /** Replica 0 has read key 1, which is retired by now, and commits it only now. */
  lemma ReadBehind(c: Config, wait: nat) returns (es: seq<Event>)
    requires c.Sane() && wait <= c.loadLag
    ensures var s := Exec(c, es);
            && s.now == c.stampLag + wait && s.store == RETIRED && s.log.born.Keys == {1, 2} && s.runs.Keys == {0, 1}
            && s.loads == map[0 := Load(0, ONE, c.stampLag, Ready)] && s.caches == map[] && s.tokens == {}
    ensures forall e :: e in es ==> !e.CommitLoad?
  {
    hide Apply, Exec;
    es := ReadBeforeAdd(c);
    RereadThenRetire(c, Exec(c, es));
    TwoSteps(c, es, RereadForRun(1), SweepKey(1, 1));
    es := es + [RereadForRun(1), SweepKey(1, 1)];
    TickIs(c, Exec(c, es), wait);
    ExecNext(c, es, Tick(wait));
    es := es + [Tick(wait)];
  }

  /** A replica signs with key 1, retired since, `age` after reading it, and stops. */
  lemma SignLate(c: Config, period: Time, wait: nat, age: nat) returns (es: seq<Event>)
    requires c.Sane() && wait <= c.loadLag && wait <= age <= period + c.loadLag
    ensures var s := Exec(c, es);
            && s.now == c.stampLag + age && s.store == RETIRED && s.log.born.Keys == {1, 2} && s.runs.Keys == {0, 1}
            && s.caches == map[] && s.tokens == {Token(1, s.now, c.stampLag, age - wait >= c.refresh)}
    ensures Attended(c, period, es)
  {
    es := ReadBehind(c, wait);
    NoTokensYet(c);
    assert [] + es == es;
    QuietRun(c, period, [], es);
    hide Apply, Exec, Attended;
    CommitFirst(c, Exec(c, es), c.stampLag);
    AttendedNext(c, period, es, CommitLoad(0));
    ExecNext(c, es, CommitLoad(0));
    es := es + [CommitLoad(0)];
    var late := age - wait;
    TickIs(c, Exec(c, es), late);
    AttendedNext(c, period, es, Tick(late));
    ExecNext(c, es, Tick(late));
    es := es + [Tick(late)];
    MarkWhenDue(c, Exec(c, es), c.stampLag, c.stampLag + wait);
    AttendedNext(c, period, es, MarkStale(0));
    ExecNext(c, es, MarkStale(0));
    es := es + [MarkStale(0)];
    var k := Exec(c, es).caches[0];
    SignThenStop(c, Exec(c, es), c.stampLag, k.keysAt, k.marked);
    AttendedNext(c, period, es, Sign(0));
    ExecNext(c, es, Sign(0));
    es := es + [Sign(0)];
    AttendedNext(c, period, es, Stop(0));
    ExecNext(c, es, Stop(0));
    es := es + [Stop(0)];
  }

  /** The next upkeep run deletes key 1 as soon as the grace since its stamp allows. */
  lemma DeleteEarly(c: Config, before: seq<Event>) returns (more: seq<Event>)
    requires c.Sane()
    requires var s := Exec(c, before);
             s.now >= 0 && s.store == RETIRED && s.log.born.Keys == {1, 2} && s.runs.Keys == {0, 1}
    ensures var s := Exec(c, before + more);
            && s.now == Max(Exec(c, before).now, c.grace) && 1 !in s.store && s.tokens == Exec(c, before).tokens
    ensures forall e :: e in more ==> !e.CommitLoad?
  {
    hide Apply, Exec;
    var rest := Max(0, c.grace - Exec(c, before).now);
    ExecNext(c, before, Tick(rest));
    TickIs(c, Exec(c, before), rest);
    var es := before + [Tick(rest)];
    AddThirdKey(c, Exec(c, es));
    ExecNext(c, es, StartRun(2, true));
    es := es + [StartRun(2, true)];
    TwoSteps(c, es, ReadForRun(2), AddForRun(2, 3));
    es := es + [ReadForRun(2), AddForRun(2, 3)];
    DeleteFirstKey(c, Exec(c, es));
    TwoSteps(c, es, RereadForRun(2), SweepKey(2, 1));
    more := [Tick(rest), StartRun(2, true), ReadForRun(2), AddForRun(2, 3), RereadForRun(2), SweepKey(2, 1)];
    assert before + more == es + [RereadForRun(2), SweepKey(2, 1)];
  }

  /** For every age beyond the bound there is a run in which a token of that age stops verifying early. */
  lemma OldCacheIsUnsafe(c: Config, period: Time, wait: nat, age: nat) returns (es: seq<Event>, t: Token)
    requires c.Sane() && wait <= c.loadLag && wait <= age <= period + c.loadLag && age + c.ttl + c.stampLag > c.grace
    ensures Attended(c, period, es)
    ensures t in Exec(c, es).tokens && t.iat - t.readAt == age && t.behind == (age - wait >= c.refresh)
    ensures !Published(c, Exec(c, es), t)
  {
    hide Apply, Exec;
    var before := SignLate(c, period, wait, age);
    t := Token(1, c.stampLag + age, c.stampLag, age - wait >= c.refresh);
    var more := DeleteEarly(c, before);
    QuietRun(c, period, before, more);
    es := before + more;
  }

  lemma TickIs(c: Config, s: State, d: nat)
    ensures Apply(c, s, Tick(d)) == s.(now := s.now + d)
  {
  }

  // --- main results ---

  /** Every token signed from keys read `age` before verifies until it expires, in every run whose upkeep
      allows that age, exactly if `age` and the token's life fit in the grace. */
  lemma CacheAgeDecides(c: Config, period: Time, age: nat)
    requires c.Sane() && age <= period + c.loadLag
    ensures (forall es, t :: Attended(c, period, es) && t in Exec(c, es).tokens && t.iat - t.readAt == age ==>
              Published(c, Exec(c, es), t))
       <==> age + c.ttl + c.stampLag <= c.grace
  {
    hide Attended, Exec, Published;
    if age + c.ttl + c.stampLag <= c.grace {
      forall es, t | Attended(c, period, es) && t in Exec(c, es).tokens && t.iat - t.readAt == age
        ensures Published(c, Exec(c, es), t)
      {
        YoungCacheIsSafe(c, es, t);
      }
    } else {
      var es, t := OldCacheIsUnsafe(c, period, 0, age);
      assert Attended(c, period, es) && t in Exec(c, es).tokens && t.iat - t.readAt == age && !Published(c, Exec(c, es), t);
    }
  }

  /** Every token, signed behind a reload or not, verifies until it expires, in every run with upkeep,
      exactly if the grace covers its life, the upkeep's period and the two lags. The refresh interval does
      not enter: upkeep alone bounds what is signed behind a reload. */
  lemma UpkeepDecides(c: Config, period: nat)
    requires c.Sane()
    ensures (forall es, t :: Attended(c, period, es) && t in Exec(c, es).tokens ==> Published(c, Exec(c, es), t))
       <==> c.ttl + period + c.loadLag + c.stampLag <= c.grace
  {
    hide Attended, Exec, Published;
    if c.ttl + period + c.loadLag + c.stampLag <= c.grace {
      forall es, t | Attended(c, period, es) && t in Exec(c, es).tokens ensures Published(c, Exec(c, es), t) {
        AttendedSignersAreYoung(c, period, es, t);
        YoungCacheIsSafe(c, es, t);
      }
    } else {
      var es, t := OldCacheIsUnsafe(c, period, 0, period + c.loadLag);
      assert Attended(c, period, es) && t in Exec(c, es).tokens && !Published(c, Exec(c, es), t);
    }
  }

  /** Every token not signed behind another caller's reload verifies until it expires, in every run,
      exactly if the grace covers its life, the refresh interval and the two lags. */
  lemma GraceDecides(c: Config)
    requires c.Sane()
    ensures (forall es, t :: t in Exec(c, es).tokens && !t.behind ==> Published(c, Exec(c, es), t))
       <==> c.ttl + c.refresh + c.loadLag + c.stampLag <= c.grace + 1
  {
    if c.ttl + c.refresh + c.loadLag + c.stampLag <= c.grace + 1 {
      forall es, t | t in Exec(c, es).tokens && !t.behind ensures Published(c, Exec(c, es), t) {
        FreshSignerIsYoung(c, es, t);
        YoungCacheIsSafe(c, es, t);
      }
    } else {
      var es, t := OldCacheIsUnsafe(c, c.refresh, c.loadLag, c.loadLag + c.refresh - 1);
      assert t in Exec(c, es).tokens && !t.behind && !Published(c, Exec(c, es), t);
    }
  }

  /** Where upkeep has stopped for longer than the grace, a signing behind a reload has no bound left. */
  lemma NoGraceCoversStoppedUpkeep(c: Config, period: Time) returns (es: seq<Event>, t: Token)
    requires c.Sane() && period + c.loadLag <= c.grace
    ensures t in Exec(c, es).tokens && t.behind && !Published(c, Exec(c, es), t)
    ensures t.iat - t.readAt > c.grace && !Attended(c, period, es)
  {
    hide Attended, Exec, Published;
    var age := Max(c.refresh, c.grace + 1);
    es, t := OldCacheIsUnsafe(c, age, 0, age);
    if Attended(c, period, es) {
      AttendedSignersAreYoung(c, period, es, t);
    }
  }

  /** The grace New settles on for a configured one (oidcprovider/provider.go:166-169). */
  function EnforcedGrace(configured: Time): Time {
    Max(if configured <= 0 then 24 * HOUR else configured, ID_TOKEN_TTL + KEY_SKEW)
  }

  /** The configuration New settles on. */
  function Enforced(rotation: Time, configured: Time, stampLag: Time, loadLag: Time): Config {
    Config(rotation, EnforcedGrace(configured), KEY_REFRESH, ID_TOKEN_TTL, stampLag, loadLag)
  }

  /** The floor New enforces is enough for signers that meet no reload, when the lags are negligible. */
  lemma EnforcedGraceSuffices(rotation: Time, configured: Time, es: seq<Event>, t: Token)
    requires var c := Enforced(rotation, configured, 0, 0); t in Exec(c, es).tokens && !t.behind
    ensures var c := Enforced(rotation, configured, 0, 0); Published(c, Exec(c, es), t)
  {
    GraceDecides(Enforced(rotation, configured, 0, 0));
  }

  /** For every token, under hourly upkeep with lags up to 22 hours in all, the default grace is enough and a
      configured one is exactly from two hours and the lags on: the floor of an hour and five minutes is not. */
  lemma HourlyUpkeepNeedsTwoHours(rotation: Time, configured: Time, stampLag: Time, loadLag: Time)
    requires stampLag >= 0 && loadLag >= 0 && stampLag + loadLag <= 22 * HOUR
    ensures var c := Enforced(rotation, configured, stampLag, loadLag);
            (forall es, t :: Attended(c, UPKEEP_PERIOD, es) && t in Exec(c, es).tokens ==> Published(c, Exec(c, es), t))
            <==> configured <= 0 || configured >= 2 * HOUR + stampLag + loadLag
  {
    hide Attended, Exec, Published;
    UpkeepDecides(Enforced(rotation, configured, stampLag, loadLag), UPKEEP_PERIOD);
  }
}
