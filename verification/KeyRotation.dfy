/**
 Signing-key rotation by any number of replicas sharing one store (oidcprovider/keys.go).

 A step of the machine is one store call, one locked section, or the passing of time, so upkeep runs,
 cache reloads and signings of all replicas interleave freely, each on the snapshot it read earlier.
 An event that cannot happen in a state leaves it unchanged.
 */
module KeyRotation {
  import opened Basics
  import opened SigningKeys

  /** `stampLag` bounds the time from the start of an upkeep run to its last retirement, which is
      stamped with the start; `loadLag` the time from reading the keys to committing them to the cache. */
  datatype Config = Config(rotation: Time, grace: Time, refresh: Time, ttl: Time, stampLag: Time, loadLag: Time) {
    predicate Sane() {
      refresh > 0 && ttl > 0 && stampLag >= 0 && loadLag >= 0
    }
  }

  /** A replica's cache. `readAt` is the time of the read behind it; `keysAt`, the source's
      field, is when they were committed or, if `marked`, when a caller set out to read them again. */
  datatype Cache = Cache(keys: Keys, readAt: Time, keysAt: Time, marked: bool)

  datatype LoadPhase = Empty | Added | Ready
  datatype Load = Load(replica: nat, keys: Keys, readAt: Time, phase: LoadPhase)

  datatype RunPhase = Starting | Adding | Rereading | Sweeping(cur: KeyId, todo: set<KeyId>)
  datatype Run = Run(start: Time, force: bool, snap: Keys, readAt: Time, phase: RunPhase)

  /** An ID token: the key that signed it, when, from keys read when, and whether behind a reload. */
  datatype Token = Token(key: KeyId, iat: Time, readAt: Time, behind: bool)

  /** The history of every key ever added: when it was created, and the stamp of its retirement. */
  datatype Log = Log(born: map<KeyId, Time>, stamps: map<KeyId, Time>) {
    function Stamp(id: KeyId): Option<Time> {
      if id in stamps then Some(stamps[id]) else None
    }

    /** `top` is the youngest key ever added. */
    ghost predicate IsTop(top: KeyId) {
      top in born &&
      forall k :: k in born && k != top ==> born[k] < born[top] || (born[k] == born[top] && k < top)
    }
  }

  datatype State = State(
    now: Time,
    store: Keys,
    caches: map<nat, Cache>,
    loads: map<nat, Load>,
    runs: map<nat, Run>,
    log: Log,
    deleted: map<KeyId, Time>,
    tokens: set<Token>)

  const INITIAL: State := State(0, map[], map[], map[], map[], Log(map[], map[]), map[], {})

  datatype Event =
    | Tick(d: nat)
    | StartRun(run: nat, force: bool)
    | ReadForRun(run: nat)
    | AddForRun(run: nat, id: KeyId)
    | RereadForRun(run: nat)
    | SweepKey(run: nat, id: KeyId)
    | StartLoad(load: nat, replica: nat)
    | AddForLoad(load: nat, id: KeyId, created: Time)
    | RereadForLoad(load: nat)
    | CommitLoad(load: nat)
    | MarkStale(replica: nat)
    | Sign(replica: nat)
    | Stop(replica: nat)

  // --- the steps ---

  function AddKey(s: State, id: KeyId, at: Time): State {
    s.(store := Add(s.store, id, at), log := s.log.(born := s.log.born[id := at]))
  }

  ghost function Sweep(snap: Keys): RunPhase {
    if Newest(snap).Some? then Sweeping(Newest(snap).value, snap.Keys) else Rereading
  }

  /** A run reads the clock before it reads the keys. */
  function StartedRun(s: State, run: nat, force: bool): State {
    s.(runs := s.runs[run := Run(s.now, force, map[], s.now, Starting)])
  }

  ghost function ReadRun(c: Config, s: State, run: nat): State
    requires run in s.runs && s.runs[run].phase.Starting?
  {
    var r := s.runs[run];
    var phase := if NeedsKey(s.store, r.force, r.start, c.rotation) then Adding else Sweep(s.store);
    s.(runs := s.runs[run := Run(r.start, r.force, s.store, s.now, phase)])
  }

  ghost function RereadRun(s: State, run: nat): State
    requires run in s.runs
  {
    s.(runs := s.runs[run := Run(s.runs[run].start, s.runs[run].force, s.store, s.now, Sweep(s.store))])
  }

  /** What one iteration of a run's loop does to the store, with its history. */
  function SweepEffect(c: Config, s: State, r: Run, id: KeyId): State
    requires r.phase.Sweeping?
  {
    if Retires(r.snap, r.phase.cur, id) then
      if Active(s.store, id) then
        s.(store := Retire(s.store, id, r.start), log := s.log.(stamps := s.log.stamps[id := r.start]))
      else s
    else if Deletes(r.snap, r.start, c.grace, id) && id in s.store then
      s.(store := Delete(s.store, id), deleted := s.deleted[id := s.now])
    else s
  }

  /** A run's iteration for `id`. A retirement must come within `stampLag` of the run's start. */
  function SweptKey(c: Config, s: State, run: nat, id: KeyId): State
    requires run in s.runs && s.runs[run].phase.Sweeping? && id in s.runs[run].phase.todo
  {
    var r := s.runs[run];
    if Retires(r.snap, r.phase.cur, id) && s.now > r.start + c.stampLag then s
    else SweepEffect(c, s, r, id).(runs := s.runs[run := r.(phase := r.phase.(todo := r.phase.todo - {id}))])
  }

  /** An iteration of the machine is an iteration of the upkeep loop. */
  lemma SweepIsUpkeep(c: Config, s: State, r: Run, id: KeyId)
    requires r.phase.Sweeping?
    ensures SweepEffect(c, s, r, id).store == UpkeepOne(s.store, r.snap, r.phase.cur, r.start, c.grace, id)
  {
    assert id !in s.store ==> Delete(s.store, id) == s.store;
  }

  ghost function ReadLoad(s: State, load: nat, replica: nat): State {
    s.(loads := s.loads[load := Load(replica, s.store, s.now, if Newest(s.store).Some? then Ready else Empty)])
  }

  function CommittedLoad(s: State, load: nat): State
    requires load in s.loads
  {
    var l := s.loads[load];
    s.(caches := s.caches[l.replica := Cache(l.keys, l.readAt, s.now, false)], loads := s.loads - {load})
  }

  /** The cache is too old to be used without reading the keys again. */
  predicate Stale(c: Config, s: State, replica: nat)
    requires replica in s.caches
  {
    s.now - s.caches[replica].keysAt >= c.refresh
  }

  ghost function Signed(s: State, replica: nat): State
    requires replica in s.caches && Newest(s.caches[replica].keys).Some?
  {
    var k := s.caches[replica];
    s.(tokens := s.tokens + {Token(Newest(k.keys).value, s.now, k.readAt, k.marked)})
  }

  /** A replica's process ends: its cache and its reloads in flight are gone. */
  function Stopped(s: State, replica: nat): State {
    s.(caches := s.caches - {replica}, loads := map l | l in s.loads && s.loads[l].replica != replica :: s.loads[l])
  }

  ghost function Apply(c: Config, s: State, e: Event): State {
    match e
    case Tick(d) => s.(now := s.now + d)
    case StartRun(run, force) => if run in s.runs then s else StartedRun(s, run, force)
    case ReadForRun(run) => if run in s.runs && s.runs[run].phase.Starting? then ReadRun(c, s, run) else s
    case AddForRun(run, id) =>
      if run in s.runs && s.runs[run].phase.Adding? && id !in s.log.born then
        var s' := AddKey(s, id, s.runs[run].start);
        s'.(runs := s.runs[run := s.runs[run].(phase := Rereading)])
      else s
    case RereadForRun(run) =>
      if run in s.runs && s.runs[run].phase.Rereading? then RereadRun(s, run) else s
    case SweepKey(run, id) =>
      if run in s.runs && s.runs[run].phase.Sweeping? && id in s.runs[run].phase.todo then SweptKey(c, s, run, id) else s
    case StartLoad(load, replica) => if load in s.loads then s else ReadLoad(s, load, replica)
    case AddForLoad(load, id, created) =>
      if load in s.loads && s.loads[load].phase.Empty? && s.loads[load].readAt <= created <= s.now && id !in s.log.born then
        var s' := AddKey(s, id, created);
        s'.(loads := s.loads[load := s.loads[load].(phase := Added)])
      else s
    case RereadForLoad(load) =>
      if load in s.loads && s.loads[load].phase.Added? then ReadLoad(s, load, s.loads[load].replica) else s
    case CommitLoad(load) =>
      if load in s.loads && s.loads[load].phase.Ready? && s.now <= s.loads[load].readAt + c.loadLag
      then CommittedLoad(s, load) else s
    case MarkStale(replica) =>
      if replica in s.caches && Stale(c, s, replica)
      then s.(caches := s.caches[replica := s.caches[replica].(keysAt := s.now, marked := true)]) else s
    case Sign(replica) =>
      if replica in s.caches && !Stale(c, s, replica) && Newest(s.caches[replica].keys).Some?
      then Signed(s, replica) else s
    case Stop(replica) => Stopped(s, replica)
  }

  ghost function ExecFrom(c: Config, s: State, es: seq<Event>): State {
    if es == [] then s else Apply(c, ExecFrom(c, s, es[..|es| - 1]), es[|es| - 1])
  }

  /** The state after the events, from the empty store at time 0. */
  ghost function Exec(c: Config, es: seq<Event>): State {
    ExecFrom(c, INITIAL, es)
  }

  lemma ExecStep(c: Config, s: State, es: seq<Event>, e: Event)
    ensures ExecFrom(c, s, es + [e]) == Apply(c, ExecFrom(c, s, es), e)
  {
    assert (es + [e])[..|es|] == es;
  }

  lemma ExecNext(c: Config, es: seq<Event>, e: Event)
    ensures Exec(c, es + [e]) == Apply(c, Exec(c, es), e)
  {
    ExecStep(c, INITIAL, es, e);
  }

  // --- what every step keeps ---

  /** The store is what its history says; a key is deleted only after its stamp and the grace. */
  ghost predicate Ledger(c: Config, now: Time, store: Keys, deleted: map<KeyId, Time>, log: Log) {
    && store.Keys !! deleted.Keys
    && store.Keys + deleted.Keys == log.born.Keys
    && log.stamps.Keys <= log.born.Keys
    && (forall id :: id in store ==> store[id] == Key(log.born[id], log.Stamp(id)))
    && (forall id :: id in deleted ==> id in log.stamps && log.stamps[id] + c.grace <= deleted[id] <= now)
  }

  /** A key seen active at time `r` was stamped, if at all, no earlier than `lag` before `r`. */
  ghost predicate NotStampedBefore(lag: Time, log: Log, id: KeyId, r: Time) {
    id in log.born && (id in log.stamps ==> r <= log.stamps[id] + lag)
  }

  /** `snap` is what the store held at time `r`. */
  ghost predicate SnapshotOf(lag: Time, log: Log, snap: Keys, r: Time) {
    forall id :: id in snap ==>
      && id in log.born && snap[id].at == log.born[id]
      && (snap[id].retired.Some? ==> log.Stamp(id) == snap[id].retired)
      && (snap[id].retired.None? ==> NotStampedBefore(lag, log, id, r))
  }

  ghost predicate CacheOk(c: Config, log: Log, k: Cache) {
    SnapshotOf(c.stampLag, log, k.keys, k.readAt)
    && (!k.marked ==> k.keysAt <= k.readAt + c.loadLag)
  }

  ghost predicate LoadOk(c: Config, log: Log, l: Load) {
    SnapshotOf(c.stampLag, log, l.keys, l.readAt)
  }

  /** A key a run has passed is retired or gone, unless it is the one the run keeps. */
  ghost predicate RunOk(c: Config, log: Log, r: Run) {
    && SnapshotOf(c.stampLag, log, r.snap, r.readAt)
    && r.start <= r.readAt
    && (r.phase.Sweeping? ==> Newest(r.snap) == Some(r.phase.cur))
    && (r.phase.Sweeping? ==>
         forall id :: id in r.snap && id !in r.phase.todo && id != r.phase.cur ==> id in log.stamps)
  }

  /** An ID token was signed with a key its signer read as active, from a fresh cache unless behind a reload. */
  ghost predicate TokenOk(c: Config, log: Log, t: Token) {
    && NotStampedBefore(c.stampLag, log, t.key, t.readAt)
    && (!t.behind ==> t.iat < t.readAt + c.loadLag + c.refresh)
  }

  ghost predicate CachesOk(c: Config, now: Time, log: Log, caches: map<nat, Cache>) {
    forall i :: i in caches ==> caches[i].readAt <= now && caches[i].keysAt <= now && CacheOk(c, log, caches[i])
  }

  ghost predicate LoadsOk(c: Config, now: Time, log: Log, loads: map<nat, Load>) {
    forall i :: i in loads ==> loads[i].readAt <= now && LoadOk(c, log, loads[i])
  }

  ghost predicate RunsOk(c: Config, now: Time, log: Log, runs: map<nat, Run>) {
    forall i :: i in runs ==> runs[i].readAt <= now && RunOk(c, log, runs[i])
  }

  ghost predicate TokensOk(c: Config, now: Time, log: Log, tokens: set<Token>) {
    forall t :: t in tokens ==> t.readAt <= t.iat <= now && TokenOk(c, log, t)
  }

  ghost predicate TopNeverStamped(log: Log) {
    forall k :: k in log.stamps ==> !log.IsTop(k)
  }

  ghost predicate ViewsOk(c: Config, s: State, now: Time, log: Log) {
    CachesOk(c, now, log, s.caches) && LoadsOk(c, now, log, s.loads)
    && RunsOk(c, now, log, s.runs) && TokensOk(c, now, log, s.tokens)
  }

  ghost predicate Inv(c: Config, s: State) {
    Ledger(c, s.now, s.store, s.deleted, s.log) && ViewsOk(c, s, s.now, s.log) && TopNeverStamped(s.log)
  }

  lemma StoreIsSnapshot(c: Config, s: State)
    requires c.Sane() && Ledger(c, s.now, s.store, s.deleted, s.log)
    ensures SnapshotOf(c.stampLag, s.log, s.store, s.now)
  {
  }

  /** `log'` adds to `log` new keys, and stamps no earlier than `lag` before `now`. */
  ghost predicate Extends(lag: Time, now: Time, log: Log, log': Log) {
    && (forall id :: id in log.born ==> id in log'.born && log'.born[id] == log.born[id])
    && (forall id :: id in log.stamps ==> id in log'.stamps && log'.stamps[id] == log.stamps[id])
    && (forall id :: id in log'.stamps && id !in log.stamps ==> now <= log'.stamps[id] + lag)
  }

  lemma SnapshotsLast(lag: Time, now: Time, log: Log, log': Log, snap: Keys, r: Time)
    requires Extends(lag, now, log, log') && SnapshotOf(lag, log, snap, r) && r <= now
    ensures SnapshotOf(lag, log', snap, r)
  {
  }

  /** What was seen of an earlier history stays true of a later one. */
  lemma ViewsLast(c: Config, s: State, log': Log)
    requires Extends(c.stampLag, s.now, s.log, log') && ViewsOk(c, s, s.now, s.log)
    ensures ViewsOk(c, s, s.now, log')
  {
    forall i | i in s.caches ensures CacheOk(c, log', s.caches[i]) {
      SnapshotsLast(c.stampLag, s.now, s.log, log', s.caches[i].keys, s.caches[i].readAt);
    }
    forall i | i in s.loads ensures LoadOk(c, log', s.loads[i]) {
      SnapshotsLast(c.stampLag, s.now, s.log, log', s.loads[i].keys, s.loads[i].readAt);
    }
    forall i | i in s.runs ensures RunOk(c, log', s.runs[i]) {
      SnapshotsLast(c.stampLag, s.now, s.log, log', s.runs[i].snap, s.runs[i].readAt);
    }
  }

  lemma PutRun(c: Config, s: State, i: nat, r: Run)
    requires Inv(c, s) && RunOk(c, s.log, r) && r.readAt <= s.now
    ensures Inv(c, s.(runs := s.runs[i := r]))
  {
    hide RunOk, CachesOk, LoadsOk, TokensOk, Ledger, TopNeverStamped;
  }

  lemma PutLoad(c: Config, s: State, i: nat, l: Load)
    requires Inv(c, s) && LoadOk(c, s.log, l) && l.readAt <= s.now
    ensures Inv(c, s.(loads := s.loads[i := l]))
  {
    hide LoadOk, CachesOk, RunsOk, TokensOk, Ledger, TopNeverStamped;
  }

  lemma DropLoad(c: Config, s: State, i: nat)
    requires Inv(c, s)
    ensures Inv(c, s.(loads := s.loads - {i}))
  {
    hide LoadOk, CachesOk, RunsOk, TokensOk, Ledger, TopNeverStamped;
  }

  lemma PutCache(c: Config, s: State, i: nat, k: Cache)
    requires Inv(c, s) && CacheOk(c, s.log, k) && k.readAt <= s.now && k.keysAt <= s.now
    ensures Inv(c, s.(caches := s.caches[i := k]))
  {
    hide CacheOk, LoadsOk, RunsOk, TokensOk, Ledger, TopNeverStamped;
  }

  lemma PutToken(c: Config, s: State, t: Token)
    requires Inv(c, s) && TokenOk(c, s.log, t) && t.readAt <= t.iat <= s.now
    ensures Inv(c, s.(tokens := s.tokens + {t}))
  {
    hide TokenOk, CachesOk, LoadsOk, RunsOk, Ledger, TopNeverStamped;
  }

  lemma AddKeyKeepsTop(log: Log, id: KeyId, at: Time)
    requires id !in log.born && log.stamps.Keys <= log.born.Keys && TopNeverStamped(log)
    ensures TopNeverStamped(log.(born := log.born[id := at]))
  {
    var log' := log.(born := log.born[id := at]);
    forall k | k in log'.stamps ensures !log'.IsTop(k) {
      if log'.IsTop(k) {
        assert forall j :: j in log.born ==> j in log'.born && log'.born[j] == log.born[j];
        assert log.IsTop(k);
      }
    }
  }

  lemma AddKeyKeepsLedger(c: Config, s: State, id: KeyId, at: Time)
    requires Ledger(c, s.now, s.store, s.deleted, s.log) && id !in s.log.born
    ensures Ledger(c, s.now, Add(s.store, id, at), s.deleted, s.log.(born := s.log.born[id := at]))
  {
  }

  lemma AddKeyExtends(c: Config, now: Time, log: Log, id: KeyId, at: Time)
    requires id !in log.born
    ensures Extends(c.stampLag, now, log, log.(born := log.born[id := at]))
  {
  }

  lemma AddKeyKeepsInv(c: Config, s: State, id: KeyId, at: Time)
    requires c.Sane() && Inv(c, s) && id !in s.log.born
    ensures Inv(c, AddKey(s, id, at))
  {
    assert s.log.stamps.Keys <= s.log.born.Keys;
    hide ViewsOk, Ledger, TopNeverStamped, Extends;
    AddKeyExtends(c, s.now, s.log, id, at);
    AddKeyKeepsLedger(c, s, id, at);
    ViewsLast(c, s, s.log.(born := s.log.born[id := at]));
    AddKeyKeepsTop(s.log, id, at);
  }

  lemma SweepStartsOk(c: Config, s: State, start: Time, force: bool)
    requires c.Sane() && Inv(c, s) && start <= s.now
    ensures RunOk(c, s.log, Run(start, force, s.store, s.now, Sweep(s.store)))
    ensures RunOk(c, s.log, Run(start, force, s.store, s.now, Adding))
  {
    StoreIsSnapshot(c, s);
  }

  /** A run retires only keys older than one it saw signing, so never the youngest of all. */
  lemma RetiredIsNotTop(c: Config, log: Log, r: Run, id: KeyId)
    requires RunOk(c, log, r) && r.phase.Sweeping? && Retires(r.snap, r.phase.cur, id)
    ensures !log.IsTop(id)
  {
    var keys, cur := r.snap, r.phase.cur;
    assert IsNewest(keys, cur);
    assert Active(keys, id) && id != cur;
    assert Older(keys[id], id, keys[cur], cur);
    assert SnapshotOf(c.stampLag, log, keys, r.readAt);
  }

  lemma StampKeepsTop(log: Log, id: KeyId, at: Time)
    requires TopNeverStamped(log) && !log.IsTop(id)
    ensures TopNeverStamped(log.(stamps := log.stamps[id := at]))
  {
    var log' := log.(stamps := log.stamps[id := at]);
    forall k | k in log'.stamps ensures !log'.IsTop(k) {
      if log'.IsTop(k) { assert log.IsTop(k); }
    }
  }

  lemma RetireKeepsLedger(c: Config, s: State, id: KeyId, at: Time)
    requires Ledger(c, s.now, s.store, s.deleted, s.log) && Active(s.store, id)
    ensures Ledger(c, s.now, Retire(s.store, id, at), s.deleted, s.log.(stamps := s.log.stamps[id := at]))
    ensures id !in s.log.stamps
  {
    assert s.store[id] == Key(s.log.born[id], s.log.Stamp(id));
  }

  lemma DeleteKeepsLedger(c: Config, s: State, r: Run, id: KeyId)
    requires Ledger(c, s.now, s.store, s.deleted, s.log) && RunOk(c, s.log, r) && r.readAt <= s.now
    requires Deletes(r.snap, r.start, c.grace, id) && id in s.store
    ensures Ledger(c, s.now, Delete(s.store, id), s.deleted[id := s.now], s.log)
  {
    assert s.log.Stamp(id) == r.snap[id].retired;
  }

  lemma RetireStep(c: Config, s: State, run: nat, id: KeyId)
    requires Inv(c, s) && run in s.runs && s.runs[run].phase.Sweeping?
    requires Retires(s.runs[run].snap, s.runs[run].phase.cur, id) && Active(s.store, id)
    ensures var at := s.runs[run].start; var log' := s.log.(stamps := s.log.stamps[id := at]);
            Ledger(c, s.now, Retire(s.store, id, at), s.deleted, log') && TopNeverStamped(log')
  {
    var r := s.runs[run];
    assert RunOk(c, s.log, r);
    hide RunOk, ViewsOk, Ledger, TopNeverStamped, Log.IsTop;
    RetireKeepsLedger(c, s, id, r.start);
    RetiredIsNotTop(c, s.log, r, id);
    StampKeepsTop(s.log, id, r.start);
  }

  lemma DeleteStep(c: Config, s: State, run: nat, id: KeyId)
    requires Inv(c, s) && run in s.runs
    requires Deletes(s.runs[run].snap, s.runs[run].start, c.grace, id) && id in s.store
    ensures Ledger(c, s.now, Delete(s.store, id), s.deleted[id := s.now], s.log)
  {
    var r := s.runs[run];
    assert RunOk(c, s.log, r) && r.readAt <= s.now;
    hide RunOk, ViewsOk, Ledger, TopNeverStamped, Deletes;
    DeleteKeepsLedger(c, s, r, id);
  }

  lemma SweepEffectKeepsLedger(c: Config, s: State, run: nat, id: KeyId)
    requires Inv(c, s) && run in s.runs && s.runs[run].phase.Sweeping?
    ensures var s' := SweepEffect(c, s, s.runs[run], id);
            Ledger(c, s.now, s'.store, s'.deleted, s'.log) && TopNeverStamped(s'.log)
  {
    assert Ledger(c, s.now, s.store, s.deleted, s.log) && TopNeverStamped(s.log);
    hide Inv, Ledger, TopNeverStamped, Retires, Deletes;
    var r := s.runs[run];
    if Retires(r.snap, r.phase.cur, id) {
      if Active(s.store, id) { RetireStep(c, s, run, id); }
    } else if Deletes(r.snap, r.start, c.grace, id) && id in s.store {
      DeleteStep(c, s, run, id);
    }
  }

  /** The run has passed `id`: it is retired or gone, or the one to keep. */
  lemma SweptKeyIsStamped(c: Config, s: State, r: Run, id: KeyId)
    requires Ledger(c, s.now, s.store, s.deleted, s.log) && RunOk(c, s.log, r) && r.phase.Sweeping?
    requires id in r.snap && id != r.phase.cur
    ensures id in SweepEffect(c, s, r, id).log.stamps
  {
    assert id in s.log.born;
    if id !in s.log.stamps {
      assert s.store[id] == Key(s.log.born[id], s.log.Stamp(id));
    }
  }

  lemma SweepEffectExtends(c: Config, s: State, r: Run, id: KeyId)
    requires Ledger(c, s.now, s.store, s.deleted, s.log) && r.phase.Sweeping?
    requires Retires(r.snap, r.phase.cur, id) ==> s.now <= r.start + c.stampLag
    ensures Extends(c.stampLag, s.now, s.log, SweepEffect(c, s, r, id).log)
  {
    if Active(s.store, id) { RetireKeepsLedger(c, s, id, r.start); }
    hide Ledger;
  }

  lemma SweepEffectFrame(c: Config, s: State, r: Run, id: KeyId)
    requires r.phase.Sweeping?
    ensures var s' := SweepEffect(c, s, r, id);
            s' == s.(store := s'.store, log := s'.log, deleted := s'.deleted)
  {
  }

  lemma RunAdvances(c: Config, log: Log, r: Run, id: KeyId)
    requires RunOk(c, log, r) && r.phase.Sweeping?
    requires id in r.snap && id != r.phase.cur ==> id in log.stamps
    ensures RunOk(c, log, r.(phase := r.phase.(todo := r.phase.todo - {id})))
  {
  }

  lemma SweepKeyKeepsInv(c: Config, s: State, run: nat, id: KeyId)
    requires c.Sane() && Inv(c, s)
    requires run in s.runs && s.runs[run].phase.Sweeping? && id in s.runs[run].phase.todo
    ensures Inv(c, SweptKey(c, s, run, id))
  {
    hide Ledger, TopNeverStamped, RunOk, Extends, SweepEffect, ViewsOk;
    var r := s.runs[run];
    if !(Retires(r.snap, r.phase.cur, id) && s.now > r.start + c.stampLag) {
      var s' := SweepEffect(c, s, r, id);
      RunsAreOk(c, s, run);
      SweepEffectKeepsLedger(c, s, run, id);
      SweepEffectExtends(c, s, r, id);
      ViewsLast(c, s, s'.log);
      RunLasts(c, s, s'.log, r);
      if id in r.snap && id != r.phase.cur {
        SweptKeyIsStamped(c, s, r, id);
      }
      RunAdvances(c, s'.log, r, id);
      SweepEffectFrame(c, s, r, id);
      ViewsIgnoreStore(c, s, s');
      PutRun(c, s', run, r.(phase := r.phase.(todo := r.phase.todo - {id})));
    }
  }

  lemma RunsAreOk(c: Config, s: State, run: nat)
    requires Inv(c, s) && run in s.runs
    ensures RunOk(c, s.log, s.runs[run]) && s.runs[run].start <= s.runs[run].readAt <= s.now
  {
  }

  lemma RunLasts(c: Config, s: State, log': Log, r: Run)
    requires Extends(c.stampLag, s.now, s.log, log') && RunOk(c, s.log, r) && r.readAt <= s.now
    ensures RunOk(c, log', r)
  {
    SnapshotsLast(c.stampLag, s.now, s.log, log', r.snap, r.readAt);
  }

  lemma ViewsIgnoreStore(c: Config, s: State, s': State)
    requires s' == s.(store := s'.store, log := s'.log, deleted := s'.deleted) && ViewsOk(c, s, s.now, s'.log)
    ensures ViewsOk(c, s', s'.now, s'.log)
  {
  }

  lemma StartRunKeepsInv(c: Config, s: State, run: nat, force: bool)
    requires Inv(c, s)
    ensures Inv(c, StartedRun(s, run, force))
  {
    hide Inv;
    PutRun(c, s, run, Run(s.now, force, map[], s.now, Starting));
  }

  lemma ReadRunKeepsInv(c: Config, s: State, run: nat)
    requires c.Sane() && Inv(c, s) && run in s.runs && s.runs[run].phase.Starting?
    ensures Inv(c, ReadRun(c, s, run))
  {
    hide Ledger, TopNeverStamped, RunOk, CachesOk, LoadsOk, TokensOk;
    RunsAreOk(c, s, run);
    SweepStartsOk(c, s, s.runs[run].start, s.runs[run].force);
    PutRun(c, s, run, ReadRun(c, s, run).runs[run]);
  }

  lemma RereadRunKeepsInv(c: Config, s: State, run: nat)
    requires c.Sane() && Inv(c, s) && run in s.runs
    ensures Inv(c, RereadRun(s, run))
  {
    hide Inv, RunOk;
    RunsAreOk(c, s, run);
    SweepStartsOk(c, s, s.runs[run].start, s.runs[run].force);
    PutRun(c, s, run, RereadRun(s, run).runs[run]);
  }

  lemma AddForRunKeepsInv(c: Config, s: State, run: nat, id: KeyId)
    requires c.Sane() && Inv(c, s) && run in s.runs && s.runs[run].phase.Adding? && id !in s.log.born
    ensures Inv(c, Apply(c, s, AddForRun(run, id)))
  {
    var s' := AddKey(s, id, s.runs[run].start);
    var r := s.runs[run];
    AddKeyKeepsInv(c, s, id, r.start);
    assert RunOk(c, s'.log, r) && r.readAt <= s.now;
    assert RunOk(c, s'.log, r.(phase := Rereading));
    hide Inv, RunOk;
    PutRun(c, s', run, r.(phase := Rereading));
  }

  lemma ReadLoadKeepsInv(c: Config, s: State, load: nat, replica: nat)
    requires c.Sane() && Inv(c, s)
    ensures Inv(c, ReadLoad(s, load, replica))
  {
    StoreIsSnapshot(c, s);
    hide Inv, SnapshotOf;
    PutLoad(c, s, load, ReadLoad(s, load, replica).loads[load]);
  }

  lemma AddForLoadKeepsInv(c: Config, s: State, load: nat, id: KeyId, created: Time)
    requires c.Sane() && Inv(c, s) && load in s.loads && s.loads[load].phase.Empty? && id !in s.log.born
    requires s.loads[load].readAt <= created <= s.now
    ensures Inv(c, Apply(c, s, AddForLoad(load, id, created)))
  {
    var s' := AddKey(s, id, created);
    var l := s.loads[load];
    AddKeyKeepsInv(c, s, id, created);
    assert LoadOk(c, s'.log, l) && l.readAt <= s.now;
    hide Inv, SnapshotOf;
    PutLoad(c, s', load, l.(phase := Added));
  }

  lemma CommitKeepsInv(c: Config, s: State, load: nat)
    requires c.Sane() && Inv(c, s) && load in s.loads && s.now <= s.loads[load].readAt + c.loadLag
    ensures Inv(c, CommittedLoad(s, load))
  {
    var l := s.loads[load];
    assert LoadOk(c, s.log, l) && l.readAt <= s.now;
    hide Inv, SnapshotOf;
    DropLoad(c, s, load);
    PutCache(c, s.(loads := s.loads - {load}), l.replica, Cache(l.keys, l.readAt, s.now, false));
  }

  lemma MarkKeepsInv(c: Config, s: State, replica: nat)
    requires c.Sane() && Inv(c, s) && replica in s.caches
    ensures Inv(c, s.(caches := s.caches[replica := s.caches[replica].(keysAt := s.now, marked := true)]))
  {
    var k := s.caches[replica];
    assert CacheOk(c, s.log, k) && k.readAt <= s.now;
    hide Inv, SnapshotOf;
    PutCache(c, s, replica, k.(keysAt := s.now, marked := true));
  }

  lemma SignKeepsInv(c: Config, s: State, replica: nat)
    requires c.Sane() && Inv(c, s)
    requires replica in s.caches && !Stale(c, s, replica) && Newest(s.caches[replica].keys).Some?
    ensures Inv(c, Signed(s, replica))
  {
    var k := s.caches[replica];
    assert CacheOk(c, s.log, k) && k.readAt <= s.now;
    hide Inv;
    assert IsNewest(k.keys, Newest(k.keys).value);
    assert TokenOk(c, s.log, Token(Newest(k.keys).value, s.now, k.readAt, k.marked));
    PutToken(c, s, Token(Newest(k.keys).value, s.now, k.readAt, k.marked));
  }

  lemma StopKeepsInv(c: Config, s: State, replica: nat)
    requires Inv(c, s)
    ensures Inv(c, Stopped(s, replica))
  {
    hide Ledger, TopNeverStamped, RunsOk, TokensOk, CacheOk, LoadOk;
  }

  predicate OfRun(e: Event) {
    e.StartRun? || e.ReadForRun? || e.AddForRun? || e.RereadForRun? || e.SweepKey?
  }

  lemma RunEventKeepsInv(c: Config, s: State, e: Event)
    requires c.Sane() && Inv(c, s) && OfRun(e)
    ensures Inv(c, Apply(c, s, e))
  {
    hide Inv;
    if Apply(c, s, e) == s { return; }
    match e
    case StartRun(run, force) => StartRunKeepsInv(c, s, run, force);
    case ReadForRun(run) => ReadRunKeepsInv(c, s, run);
    case AddForRun(run, id) => AddForRunKeepsInv(c, s, run, id);
    case RereadForRun(run) => RereadRunKeepsInv(c, s, run);
    case SweepKey(run, id) => SweepKeyKeepsInv(c, s, run, id);
  }

  predicate OfLoad(e: Event) {
    e.StartLoad? || e.AddForLoad? || e.RereadForLoad? || e.CommitLoad?
  }

  lemma LoadEventKeepsInv(c: Config, s: State, e: Event)
    requires c.Sane() && Inv(c, s) && OfLoad(e)
    ensures Inv(c, Apply(c, s, e))
  {
    hide Inv;
    if Apply(c, s, e) == s { return; }
    match e
    case StartLoad(load, replica) => ReadLoadKeepsInv(c, s, load, replica);
    case AddForLoad(load, id, created) => AddForLoadKeepsInv(c, s, load, id, created);
    case RereadForLoad(load) => ReadLoadKeepsInv(c, s, load, s.loads[load].replica);
    case CommitLoad(load) => CommitKeepsInv(c, s, load);
  }

  lemma ReplicaEventKeepsInv(c: Config, s: State, e: Event)
    requires c.Sane() && Inv(c, s) && !e.Tick? && !OfRun(e) && !OfLoad(e)
    ensures Inv(c, Apply(c, s, e))
  {
    hide Inv;
    if Apply(c, s, e) == s { return; }
    match e
    case MarkStale(replica) => MarkKeepsInv(c, s, replica);
    case Sign(replica) => SignKeepsInv(c, s, replica);
    case Stop(replica) => StopKeepsInv(c, s, replica);
  }

  lemma TickKeepsInv(c: Config, s: State, d: nat)
    requires Inv(c, s)
    ensures Inv(c, Apply(c, s, Tick(d)))
  {
    hide CacheOk, LoadOk, RunOk, TokenOk;
  }

  lemma ApplyKeepsInv(c: Config, s: State, e: Event)
    requires c.Sane() && Inv(c, s)
    ensures Inv(c, Apply(c, s, e))
  {
    hide Inv, Apply;
    if e.Tick? {
      TickKeepsInv(c, s, e.d);
    } else if OfRun(e) {
      RunEventKeepsInv(c, s, e);
    } else if OfLoad(e) {
      LoadEventKeepsInv(c, s, e);
    } else {
      ReplicaEventKeepsInv(c, s, e);
    }
  }

  lemma {:induction false} ExecFromKeepsInv(c: Config, s: State, es: seq<Event>)
    requires c.Sane() && Inv(c, s)
    ensures Inv(c, ExecFrom(c, s, es))
  {
    hide Inv;
    if es != [] {
      ExecFromKeepsInv(c, s, es[..|es| - 1]);
      ApplyKeepsInv(c, ExecFrom(c, s, es[..|es| - 1]), es[|es| - 1]);
    }
  }

  lemma ExecKeepsInv(c: Config, es: seq<Event>)
    requires c.Sane()
    ensures Inv(c, Exec(c, es))
  {
    assert Inv(c, INITIAL);
    ExecFromKeepsInv(c, INITIAL, es);
  }

  // --- a signing key always exists, and the replicas settle on one ---

  lemma {:induction false} SomeKeyIsTop(born: map<KeyId, Time>) returns (top: KeyId)
    requires born != map[]
    ensures Log(born, map[]).IsTop(top)
    decreases |born|
  {
    var id :| id in born;
    var rest := born - {id};
    assert rest.Keys == born.Keys - {id};
    if rest == map[] {
      assert forall k :: k in born ==> k == id || k in rest;
      top := id;
    } else {
      assert |rest.Keys| < |born.Keys|;
      var t := SomeKeyIsTop(rest);
      top := if born[t] < born[id] || (born[t] == born[id] && t < id) then id else t;
      forall k | k in born && k != top
        ensures born[k] < born[top] || (born[k] == born[top] && k < top)
      {
        assert k == id || k in rest;
      }
    }
  }

  /** A set of keys that holds the youngest key ever added, still active, has it sign. */
  lemma TopSigns(c: Config, log: Log, keys: Keys, r: Time, top: KeyId)
    requires SnapshotOf(c.stampLag, log, keys, r) && log.IsTop(top) && TopNeverStamped(log) && top in keys
    ensures Newest(keys) == Some(top)
  {
    assert top !in log.stamps;
    assert keys[top].retired.None?;
    forall k: KeyId | Active(keys, k) && k != top ensures Older(keys[k], k, keys[top], top) {
      assert k in log.born;
    }
    NewestIsUnique(keys, top);
  }

  /** In every reachable state the youngest key ever added is stored, active, and the one to sign. */
  lemma YoungestKeyAlwaysSigns(c: Config, es: seq<Event>, top: KeyId)
    requires c.Sane() && Exec(c, es).log.IsTop(top)
    ensures var s := Exec(c, es);
            && Active(s.store, top) && Newest(s.store) == Some(top) && top !in s.deleted
            && forall i :: i in s.caches && top in s.caches[i].keys ==> Newest(s.caches[i].keys) == Some(top)
  {
    ExecKeepsInv(c, es);
    var s := Exec(c, es);
    StoreIsSnapshot(c, s);
    assert top !in s.log.stamps;
    assert top in s.store;
    TopSigns(c, s.log, s.store, s.now, top);
    forall i | i in s.caches && top in s.caches[i].keys ensures Newest(s.caches[i].keys) == Some(top) {
      assert CacheOk(c, s.log, s.caches[i]);
      TopSigns(c, s.log, s.caches[i].keys, s.caches[i].readAt, top);
    }
  }

  /** Once any key was added one signs, so the upkeep's re-read finds the key it added. */
  lemma SomeKeyAlwaysSigns(c: Config, es: seq<Event>)
    requires c.Sane() && Exec(c, es).log.born != map[]
    ensures Newest(Exec(c, es).store).Some?
  {
    var top := SomeKeyIsTop(Exec(c, es).log.born);
    assert Exec(c, es).log.IsTop(top);
    YoungestKeyAlwaysSigns(c, es, top);
  }

  /** `run` has ended its loop, and no key now stored was added after it read the keys. */
  predicate CompleteRun(s: State, run: nat) {
    run in s.runs && s.runs[run].phase.Sweeping? && s.runs[run].phase.todo == {}
    && s.store.Keys <= s.runs[run].snap.Keys
  }

  /** A complete run that saw every key leaves exactly one signing: the youngest. */
  lemma CompleteRunSettles(c: Config, es: seq<Event>, run: nat, id: KeyId)
    requires c.Sane() && CompleteRun(Exec(c, es), run)
    ensures var s := Exec(c, es); Active(s.store, id) <==> s.log.IsTop(id)
  {
    ExecKeepsInv(c, es);
    var s := Exec(c, es);
    var r := s.runs[run];
    assert RunOk(c, s.log, r);
    if s.log.IsTop(id) {
      YoungestKeyAlwaysSigns(c, es, id);
    }
    if Active(s.store, id) {
      var top := SomeKeyIsTop(s.log.born);
      assert s.log.IsTop(top);
      YoungestKeyAlwaysSigns(c, es, top);
      TopSigns(c, s.log, r.snap, r.readAt, top);
      assert s.store[id] == Key(s.log.born[id], s.log.Stamp(id));
      assert id !in s.log.stamps && id in r.snap;
      assert id == top;
    }
  }

  // --- what a run has done by the time it is over ---

  /**
   Once a run has re-read the keys, one is as young as it asks for; and a key it has passed that had been
   retired for the grace is gone.
   */
  ghost predicate RunDoes(c: Config, log: Log, store: Keys, r: Run) {
    && (r.phase.Rereading? ==> exists k :: k in log.born && log.born[k] >= r.start)
    && (r.phase.Sweeping? ==>
         && r.phase.cur in log.born
         && (c.rotation > 0 ==> r.start - log.born[r.phase.cur] < c.rotation)
         && (r.force ==> log.born[r.phase.cur] >= r.start)
         && (forall id :: id in r.snap && id !in r.phase.todo && PastGrace(c, r, id) ==> id !in store && id in log.born))
  }

  predicate PastGrace(c: Config, r: Run, id: KeyId)
    requires id in r.snap
  {
    r.snap[id].retired.Some? && r.start - r.snap[id].retired.value >= c.grace
  }

  ghost predicate RunsDo(c: Config, s: State) {
    forall i :: i in s.runs ==> RunDoes(c, s.log, s.store, s.runs[i])
  }

  /** Keys are created once, and deleted for good. */
  predicate NoneReturns(s: State, s': State) {
    && (forall id :: id in s.log.born ==> id in s'.log.born && s'.log.born[id] == s.log.born[id])
    && (forall id :: id in s.log.born && id in s'.store ==> id in s.store)
  }

  lemma StepReturnsNone(c: Config, s: State, e: Event)
    ensures NoneReturns(s, Apply(c, s, e))
  {
    hide Newest, NeedsKey;
  }

  lemma RunStillDoes(c: Config, s: State, s': State, r: Run)
    requires NoneReturns(s, s') && RunDoes(c, s.log, s.store, r)
    ensures RunDoes(c, s'.log, s'.store, r)
  {
    if r.phase.Rereading? {
      var k :| k in s.log.born && s.log.born[k] >= r.start;
      assert k in s'.log.born && s'.log.born[k] >= r.start;
    }
  }

  /** The key that signs when a run has re-read the keys is the youngest there is. */
  lemma ReadsTop(c: Config, s: State) returns (top: KeyId)
    requires c.Sane() && Inv(c, s) && s.log.born != map[]
    ensures s.log.IsTop(top) && Newest(s.store) == Some(top) && s.store[top].at == s.log.born[top]
  {
    top := SomeKeyIsTop(s.log.born);
    assert s.log.IsTop(top);
    StoreIsSnapshot(c, s);
    assert top !in s.log.stamps && top in s.store.Keys + s.deleted.Keys;
    TopSigns(c, s.log, s.store, s.now, top);
  }

  lemma ReadDoes(c: Config, s: State, run: nat)
    requires c.Sane() && Inv(c, s) && run in s.runs && s.runs[run].phase.Starting?
    ensures RunDoes(c, s.log, s.store, ReadRun(c, s, run).runs[run])
  {
    hide Inv;
    if Newest(s.store).Some? {
      StoredIsBorn(c, s, Newest(s.store).value);
    }
  }

  lemma StoredIsBorn(c: Config, s: State, id: KeyId)
    requires Inv(c, s) && id in s.store
    ensures id in s.log.born && s.store[id].at == s.log.born[id]
  {
  }

  lemma RereadDoes(c: Config, s: State, run: nat)
    requires c.Sane() && Inv(c, s) && run in s.runs && s.runs[run].phase.Rereading? && RunDoes(c, s.log, s.store, s.runs[run])
    ensures RunDoes(c, s.log, s.store, RereadRun(s, run).runs[run])
  {
    hide Inv;
    var k :| k in s.log.born && s.log.born[k] >= s.runs[run].start;
    var top := ReadsTop(c, s);
    assert s.log.born[top] >= s.log.born[k];
  }

  lemma SweptDoes(c: Config, s: State, run: nat, id: KeyId)
    requires Inv(c, s) && run in s.runs && s.runs[run].phase.Sweeping? && id in s.runs[run].phase.todo
    requires RunDoes(c, s.log, s.store, s.runs[run])
    ensures var s' := SweptKey(c, s, run, id); RunDoes(c, s'.log, s'.store, s'.runs[run])
  {
    hide Inv, RunOk, SweepEffect, PastGrace, NoneReturns, RunDoes;
    var r, s' := s.runs[run], SweptKey(c, s, run, id);
    RunsAreOk(c, s, run);
    StepReturnsNone(c, s, SweepKey(run, id));
    RunStillDoes(c, s, s', r);
    if s' != s {
      SweepClears(c, s, r, id);
      OneMoreDone(c, s', r, id);
    }
  }

  lemma SweepClears(c: Config, s: State, r: Run, id: KeyId)
    requires RunOk(c, s.log, r) && r.phase.Sweeping?
    ensures var s' := SweepEffect(c, s, r, id);
            id in r.snap && PastGrace(c, r, id) ==> id !in s'.store && id in s'.log.born
  {
  }

  lemma OneMoreDone(c: Config, s: State, r: Run, id: KeyId)
    requires r.phase.Sweeping? && RunDoes(c, s.log, s.store, r)
    requires id in r.snap && PastGrace(c, r, id) ==> id !in s.store && id in s.log.born
    ensures RunDoes(c, s.log, s.store, r.(phase := r.phase.(todo := r.phase.todo - {id})))
  {
  }

  lemma StepKeepsRunsDo(c: Config, s: State, e: Event)
    requires c.Sane() && Inv(c, s) && RunsDo(c, s)
    ensures RunsDo(c, Apply(c, s, e))
  {
    hide Inv, RunDoes, NoneReturns;
    var s' := Apply(c, s, e);
    StepReturnsNone(c, s, e);
    forall i | i in s'.runs ensures RunDoes(c, s'.log, s'.store, s'.runs[i]) {
      if i in s.runs && s'.runs[i] == s.runs[i] {
        RunStillDoes(c, s, s', s.runs[i]);
      } else {
        ChangedRunDoes(c, s, e, i);
      }
    }
  }

  lemma ChangedRunDoes(c: Config, s: State, e: Event, i: nat)
    requires c.Sane() && Inv(c, s) && RunsDo(c, s)
    requires i in Apply(c, s, e).runs && (i in s.runs ==> Apply(c, s, e).runs[i] != s.runs[i])
    ensures var s' := Apply(c, s, e); RunDoes(c, s'.log, s'.store, s'.runs[i])
  {
    hide Inv, RunDoes, Newest, NeedsKey;
    match e
    case StartRun(run, force) => StartDoes(c, s, force);
    case ReadForRun(run) => ReadDoes(c, s, run);
    case AddForRun(run, id) => AddDoes(c, s, run, id);
    case RereadForRun(run) => RereadDoes(c, s, run);
    case SweepKey(run, id) => SweptDoes(c, s, run, id);
    case _ =>
  }

  lemma StartDoes(c: Config, s: State, force: bool)
    ensures RunDoes(c, s.log, s.store, Run(s.now, force, map[], s.now, Starting))
  {
  }

  lemma AddDoes(c: Config, s: State, run: nat, id: KeyId)
    requires run in s.runs && s.runs[run].phase.Adding? && id !in s.log.born
    ensures var s' := Apply(c, s, AddForRun(run, id)); RunDoes(c, s'.log, s'.store, s'.runs[run])
  {
    assert Apply(c, s, AddForRun(run, id)).log.born[id] == s.runs[run].start;
  }

  lemma {:induction false} ExecKeepsRunsDo(c: Config, es: seq<Event>)
    requires c.Sane()
    ensures RunsDo(c, Exec(c, es))
  {
    hide Apply, Inv, RunDoes;
    if es != [] {
      var init := es[..|es| - 1];
      ExecKeepsRunsDo(c, init);
      ExecKeepsInv(c, init);
      StepKeepsRunsDo(c, Exec(c, init), es[|es| - 1]);
    }
  }

  /**
   Whatever other replicas do meanwhile and later: once a run is complete the youngest key was created less
   than the rotation before its start, and not before its start if it was forced; and no key is stored that
   the run read as retired for the grace.
   */
  lemma CompleteRunRenews(c: Config, es: seq<Event>, run: nat, top: KeyId)
    requires c.Sane() && CompleteRun(Exec(c, es), run) && Exec(c, es).log.IsTop(top)
    ensures var s, start := Exec(c, es), Exec(c, es).runs[run].start;
            && (c.rotation > 0 ==> start - s.log.born[top] < c.rotation)
            && (s.runs[run].force ==> s.log.born[top] >= start)
            && forall id :: id in s.store ==>
                 var read := s.runs[run].snap;
                 id in read && (read[id].retired.Some? ==> start - read[id].retired.value < c.grace)
  {
    ExecKeepsRunsDo(c, es);
    var s := Exec(c, es);
    assert RunDoes(c, s.log, s.store, s.runs[run]);
    assert s.log.born[top] >= s.log.born[s.runs[run].phase.cur];
  }

  /** `load` was already in flight in `s0`, and has not read again since. */
  predicate InFlightSince(s0: State, s: State, load: nat) {
    load in s0.loads && load in s.loads && s.loads[load] == s0.loads[load]
  }

  /** Every load that can be committed and was not in flight in `s0` has the key. */
  predicate NewLoadsHave(s0: State, s: State, id: KeyId) {
    forall l :: l in s.loads && s.loads[l].phase.Ready? && !InFlightSince(s0, s, l) ==> id in s.loads[l].keys
  }

  /** The list the replica signs from and publishes has the key. */
  predicate CacheHas(s: State, replica: nat, id: KeyId) {
    replica in s.caches && id in s.caches[replica].keys
  }

  /** `e` stops the replica, or commits a load to it that was already in flight in `s0`. */
  predicate Reverts(c: Config, s0: State, s: State, e: Event, replica: nat) {
    e == Stop(replica)
    || (e.CommitLoad? && InFlightSince(s0, s, e.load) && s.loads[e.load].replica == replica
        && s.now <= s.loads[e.load].readAt + c.loadLag)
  }

  lemma NewLoadsKeep(c: Config, s0: State, s: State, e: Event, id: KeyId)
    requires NewLoadsHave(s0, s, id) && id in s.store
    ensures NewLoadsHave(s0, Apply(c, s, e), id)
  {
    hide NeedsKey;
  }

  lemma CacheKeeps(c: Config, s0: State, s: State, e: Event, replica: nat, id: KeyId)
    requires NewLoadsHave(s0, s, id) && CacheHas(s, replica, id) && !Reverts(c, s0, s, e, replica)
    ensures CacheHas(Apply(c, s, e), replica, id)
  {
    hide NeedsKey;
  }

  lemma ExecAppend(c: Config, es: seq<Event>, more: seq<Event>)
    ensures Exec(c, es + more) == ExecFrom(c, Exec(c, es), more)
  {
    if more == [] {
      assert es + more == es;
    } else {
      ExecAppend(c, es, more[..|more| - 1]);
      assert (es + more)[..|es + more| - 1] == es + more[..|more| - 1];
    }
  }

  lemma {:induction false} HistoryStays(c: Config, s: State, es: seq<Event>)
    ensures s.log.born.Keys <= ExecFrom(c, s, es).log.born.Keys && s.deleted.Keys <= ExecFrom(c, s, es).deleted.Keys
    ensures s.now <= ExecFrom(c, s, es).now
  {
    if es != [] {
      HistoryStays(c, s, es[..|es| - 1]);
      HistoryStaysStep(c, ExecFrom(c, s, es[..|es| - 1]), es[|es| - 1]);
    }
  }

  lemma HistoryStaysStep(c: Config, s: State, e: Event)
    ensures s.log.born.Keys <= Apply(c, s, e).log.born.Keys && s.deleted.Keys <= Apply(c, s, e).deleted.Keys
    ensures s.now <= Apply(c, s, e).now
  {
    hide Newest, NeedsKey;
  }

  /** Added in `es`, and still stored after `more`. */
  ghost predicate StoredSince(c: Config, es: seq<Event>, more: seq<Event>, id: KeyId) {
    id in Exec(c, es).log.born && id !in Exec(c, es + more).deleted
  }

  /** Then it is stored all the way. */
  lemma StoredBetween(c: Config, es: seq<Event>, init: seq<Event>, rest: seq<Event>, id: KeyId)
    requires c.Sane() && StoredSince(c, es, init + rest, id)
    ensures StoredSince(c, es, init, id) && id in Exec(c, es + init).store
  {
    hide Exec, ExecFrom, Apply, Inv;
    assert es + (init + rest) == es + init + rest;
    ExecAppend(c, es, init);
    ExecAppend(c, es + init, rest);
    HistoryStays(c, Exec(c, es), init);
    HistoryStays(c, Exec(c, es + init), rest);
    ExecKeepsInv(c, es + init);
    BornIsStored(c, Exec(c, es + init), id);
  }

  lemma BornIsStored(c: Config, s: State, id: KeyId)
    requires Inv(c, s) && id in s.log.born && id !in s.deleted
    ensures id in s.store
  {
    assert id in s.store.Keys + s.deleted.Keys;
  }

  /** After `es`, in which the key was added, every load started since has it. */
  lemma {:induction false} LaterLoadsHave(c: Config, es: seq<Event>, more: seq<Event>, id: KeyId)
    requires c.Sane() && StoredSince(c, es, more, id)
    ensures NewLoadsHave(Exec(c, es), Exec(c, es + more), id)
  {
    hide Exec, Apply, NewLoadsHave, StoredSince;
    if more == [] {
      assert es + more == es;
      NoNewLoads(Exec(c, es), id);
    } else {
      var init, e := more[..|more| - 1], more[|more| - 1];
      assert more == init + [e] && es + more == es + init + [e];
      StoredBetween(c, es, init, [e], id);
      LaterLoadsHave(c, es, init, id);
      ExecNext(c, es + init, e);
      NewLoadsKeep(c, Exec(c, es), Exec(c, es + init), e, id);
    }
  }

  lemma NoNewLoads(s: State, id: KeyId)
    ensures NewLoadsHave(s, s, id)
  {
  }

  /** A load that read after `es` is committed to `replica` after `mid`. */
  ghost predicate Commits(c: Config, es: seq<Event>, mid: seq<Event>, load: nat, replica: nat) {
    var s := Exec(c, es + mid);
    && load in s.loads && s.loads[load].replica == replica && !InFlightSince(Exec(c, es), s, load)
    && load !in Exec(c, es + mid + [CommitLoad(load)]).loads
  }

  /** In `more`, which follows `upTo`, no load that was in flight at `es` is committed to the replica. */
  ghost predicate Spared(c: Config, es: seq<Event>, upTo: seq<Event>, more: seq<Event>, replica: nat) {
    forall k :: 0 <= k < |more| ==> !Reverts(c, Exec(c, es), Exec(c, es + (upTo + more[..k])), more[k], replica)
  }

  /**
   A load that read the store after a key was added, committed at any later point of any interleaving,
   brings the key into the list its replica signs from and publishes. There it stays for as long as it is
   stored, through every later reload that was not in flight when the key was added.
   */
  lemma {:induction false} ReloadedListHas(
    c: Config, es: seq<Event>, mid: seq<Event>, load: nat, more: seq<Event>, replica: nat, id: KeyId)
    requires c.Sane() && StoredSince(c, es, mid + [CommitLoad(load)] + more, id)
    requires Commits(c, es, mid, load, replica) && Spared(c, es, mid + [CommitLoad(load)], more, replica)
    ensures CacheHas(Exec(c, es + (mid + [CommitLoad(load)] + more)), replica, id)
  {
    hide Exec, Apply, NewLoadsHave, CacheHas, StoredSince, Reverts;
    var upTo := mid + [CommitLoad(load)];
    if more == [] {
      assert upTo + more == upTo && es + upTo == es + mid + [CommitLoad(load)];
      StoredBetween(c, es, mid, [CommitLoad(load)], id);
      LaterLoadsHave(c, es, mid, id);
      ExecNext(c, es + mid, CommitLoad(load));
      CommitTakes(c, Exec(c, es), Exec(c, es + mid), load, id);
    } else {
      var init, e := more[..|more| - 1], more[|more| - 1];
      assert upTo + more == upTo + init + [e];
      assert es + (upTo + more) == es + (upTo + init) + [e];
      StoredBetween(c, es, upTo + init, [e], id);
      SparedBefore(c, es, upTo, more, replica);
      ReloadedListHas(c, es, mid, load, init, replica, id);
      LaterLoadsHave(c, es, upTo + init, id);
      ExecNext(c, es + (upTo + init), e);
      CacheKeeps(c, Exec(c, es), Exec(c, es + (upTo + init)), e, replica, id);
    }
  }

  lemma SparedBefore(c: Config, es: seq<Event>, upTo: seq<Event>, more: seq<Event>, replica: nat)
    requires Spared(c, es, upTo, more, replica) && more != []
    ensures Spared(c, es, upTo, more[..|more| - 1], replica)
    ensures !Reverts(c, Exec(c, es), Exec(c, es + (upTo + more[..|more| - 1])), more[|more| - 1], replica)
  {
    hide Exec, Reverts;
    var init := more[..|more| - 1];
    forall k | 0 <= k < |init| ensures init[..k] == more[..k] && init[k] == more[k] {
    }
  }

  lemma CommitTakes(c: Config, s0: State, s: State, load: nat, id: KeyId)
    requires NewLoadsHave(s0, s, id) && load in s.loads && !InFlightSince(s0, s, load)
    requires load !in Apply(c, s, CommitLoad(load)).loads
    ensures CacheHas(Apply(c, s, CommitLoad(load)), s.loads[load].replica, id)
  {
  }

  /** So a replica that has read the store since the youngest key was added signs with that key. */
  lemma ReloadSignsWithYoungest(
    c: Config, es: seq<Event>, mid: seq<Event>, load: nat, more: seq<Event>, replica: nat, top: KeyId)
    requires c.Sane() && top in Exec(c, es).log.born
    requires Exec(c, es + (mid + [CommitLoad(load)] + more)).log.IsTop(top)
    requires Commits(c, es, mid, load, replica) && Spared(c, es, mid + [CommitLoad(load)], more, replica)
    ensures var s := Exec(c, es + (mid + [CommitLoad(load)] + more));
            CacheHas(s, replica, top) && Newest(s.caches[replica].keys) == Some(top)
  {
    YoungestKeyAlwaysSigns(c, es + (mid + [CommitLoad(load)] + more), top);
    ReloadedListHas(c, es, mid, load, more, replica, top);
  }

  /** The load read after `es` and is committed, to `replica`, at least `d` after it. */
  ghost predicate CommitsLater(c: Config, es: seq<Event>, mid: seq<Event>, load: nat, replica: nat, d: Time) {
    var s0, s := Exec(c, es), Exec(c, es + mid);
    && s.now >= s0.now + d && load in s.loads && s.loads[load].replica == replica && s.loads[load].readAt > s0.now
    && load !in Exec(c, es + mid + [CommitLoad(load)]).loads
  }

  /** By then the loads that were in flight at `es` have been committed or never will be. */
  lemma LateCommitsAreSpared(c: Config, es: seq<Event>, mid: seq<Event>, load: nat, more: seq<Event>, replica: nat)
    requires c.Sane() && CommitsLater(c, es, mid, load, replica, c.loadLag + 1) && Stop(replica) !in more
    ensures Commits(c, es, mid, load, replica) && Spared(c, es, mid + [CommitLoad(load)], more, replica)
  {
    hide Exec, Apply, Inv;
    var upTo, s0 := mid + [CommitLoad(load)], Exec(c, es);
    ExecKeepsInv(c, es);
    LoadsWereRead(c, s0);
    forall k | 0 <= k < |more| ensures !Reverts(c, s0, Exec(c, es + (upTo + more[..k])), more[k], replica) {
      assert es + (upTo + more[..k]) == es + mid + ([CommitLoad(load)] + more[..k]);
      ExecAppend(c, es + mid, [CommitLoad(load)] + more[..k]);
      HistoryStays(c, Exec(c, es + mid), [CommitLoad(load)] + more[..k]);
    }
  }

  lemma LoadsWereRead(c: Config, s: State)
    requires Inv(c, s)
    ensures forall l :: l in s.loads ==> s.loads[l].readAt <= s.now
  {
  }

  // --- one replica alone ---

  function SweepEvents(run: nat, order: seq<KeyId>): seq<Event> {
    if order == [] then []
    else SweepEvents(run, order[..|order| - 1]) + [SweepKey(run, order[|order| - 1])]
  }

  ghost function Visited(order: seq<KeyId>): (r: set<KeyId>)
    ensures forall k :: k in r <==> k in order
  {
    if order == [] then {} else Visited(order[..|order| - 1]) + {order[|order| - 1]}
  }

  ghost predicate NoRepeats(order: seq<KeyId>) {
    forall i, j :: 0 <= i < j < |order| ==> order[i] != order[j]
  }

  /** The state of a run left alone once it has visited `done`. */
  ghost function AfterSweeping(c: Config, s: State, run: nat, done: set<KeyId>): State
    requires run in s.runs && s.runs[run].phase.Sweeping?
  {
    var r := s.runs[run];
    s.(store := Upkept(s.store, r.snap, r.phase.cur, r.start, c.grace, done),
       runs := s.runs[run := r.(phase := r.phase.(todo := r.phase.todo - done))])
  }

  lemma NothingSwept(c: Config, s: State, run: nat)
    requires run in s.runs && s.runs[run].phase.Sweeping?
    ensures AfterSweeping(c, s, run, {}) == s
  {
    var s' := AfterSweeping(c, s, run, {});
    assert s.runs[run].phase.todo - {} == s.runs[run].phase.todo;
    assert s'.runs == s.runs;
    assert s'.store == s.store;
  }

  lemma SweepOneMore(c: Config, s: State, s1: State, run: nat, done: set<KeyId>, id: KeyId)
    requires run in s.runs && s.runs[run].phase.Sweeping? && s.now <= s.runs[run].start + c.stampLag
    requires id in s.runs[run].phase.todo && id !in done
    requires s1 == AfterSweeping(c, s, run, done).(log := s1.log, deleted := s1.deleted)
    ensures var s2 := Apply(c, s1, SweepKey(run, id));
            s2 == AfterSweeping(c, s, run, done + {id}).(log := s2.log, deleted := s2.deleted)
  {
    var r, r1 := s.runs[run], s1.runs[run];
    assert r1.phase.todo - {id} == r.phase.todo - (done + {id});
    hide Upkept, UpkeepOne, Retires;
    SweepIsUpkeep(c, s1, r1, id);
    UpkeepInAnyOrder(s.store, r.snap, r.phase.cur, r.start, c.grace, done, id);
    SweepEffectFrame(c, s1, r1, id);
    hide SweepEffect;
  }

  /** A run left alone does to the store what the upkeep of one replica does, in whatever order it
      visits the keys: KeyUpkeep's RotateKeys is the machine without interleaving. */
  lemma {:induction false} SweepAlone(c: Config, s: State, run: nat, order: seq<KeyId>)
    requires run in s.runs && s.runs[run].phase.Sweeping? && s.now <= s.runs[run].start + c.stampLag
    requires NoRepeats(order) && forall k :: k in order ==> k in s.runs[run].phase.todo
    ensures var s' := ExecFrom(c, s, SweepEvents(run, order));
            s' == AfterSweeping(c, s, run, Visited(order)).(log := s'.log, deleted := s'.deleted)
  {
    if order == [] {
      NothingSwept(c, s, run);
    } else {
      var init, last := order[..|order| - 1], order[|order| - 1];
      SweepAlone(c, s, run, init);
      hide AfterSweeping, Apply;
      ExecStep(c, s, SweepEvents(run, init), SweepKey(run, last));
      SweepOneMore(c, s, ExecFrom(c, s, SweepEvents(run, init)), run, Visited(init), last);
    }
  }
}
