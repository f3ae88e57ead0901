/**
 Where authority comes from: every approved request, grant and token goes back to one decision of its
 subject, whatever handlers overwrite each other (oidcprovider/consent.go:155-180,
 oidcprovider/storage.go:195-258, oidcprovider/requests.go:62-70).
 */
module OAuthProvenance {
  import opened Basics
  import opened OAuthRecords
  import opened OAuthCleanUp
  import opened OAuthFlow

  predicate Subset(a: Scopes, b: Scopes) {
    forall x :: x in a ==> x in b
  }

  /** `limit` is an end that `t` does not pass. */
  predicate Within(t: Time, limit: Option<Time>) {
    limit.Some? ==> t <= limit.value
  }

  /** `d` approved request `id`, asked as `a`, into `r`. */
  predicate Approves(d: Decision, id: Id, a: Request, r: Request) {
    d.request == id && d.subject == r.subject && r.subject != "" && d.ref == r.ref && d.ends == r.endsAt
    && r.scopes == Granted(a.scopes, d.scopes)
  }

  /** A request as some handler holds it or the store does: as asked, or approved by one decision. */
  ghost predicate RequestOk(src: Sources, id: Id, r: Request) {
    && id in src.asked
    && r.client == src.asked[id].client && r.resources == src.asked[id].resources && r.createdAt == src.asked[id].createdAt
    && (!r.done ==> r.scopes == src.asked[id].scopes)
    && (r.done ==> exists i :: 0 <= i < |src.decisions| && Approves(src.decisions[i], id, src.asked[id], r))
    && (r.codeHash != "" ==> r.codeHash in src.issued && src.issued[r.codeHash] == id)
  }

  /** `d`, made on the request asked as `a`, is what the grant allows. */
  predicate Allows(d: Decision, a: Request, g: Grant) {
    g.client == a.client && g.resources == a.resources && g.subject == d.subject && g.ref == d.ref && g.endsAt == d.ends
    && g.scopes == Granted(a.scopes, d.scopes)
  }

  ghost predicate GrantTraced(src: Sources, g: Grant) {
    exists i :: 0 <= i < |src.decisions| && src.decisions[i].request in src.asked
                && Allows(src.decisions[i], src.asked[src.decisions[i].request], g)
  }

  predicate AccessWithin(c: Config, g: Grant, t: Access) {
    t.client == g.client && t.subject == g.subject && Subset(t.scopes, g.scopes) && Within(t.expiresAt, g.endsAt)
    && t.expiresAt <= t.createdAt + c.accessTTL
  }

  predicate RefreshWithin(c: Config, g: Grant, t: Refresh) {
    t.client == g.client && t.subject == g.subject && Subset(t.scopes, g.scopes) && Within(t.expiresAt, g.endsAt)
    && t.expiresAt <= t.createdAt + c.refreshTTL && t.usedAt.None?
  }

  // --- what every step keeps ---

  ghost predicate GrantsBornOk(src: Sources, born: map<Id, Grant>) {
    forall gid :: gid in born ==> gid != "" && born[gid].revokedAt.None? && GrantTraced(src, born[gid])
  }

  ghost predicate AccessedOk(c: Config, now: Time, born: map<Id, Grant>, accessed: map<Id, Access>) {
    forall k :: k in accessed ==>
      accessed[k].grant in born && AccessWithin(c, born[accessed[k].grant], accessed[k]) && accessed[k].createdAt <= now
  }

  ghost predicate MintedOk(c: Config, now: Time, born: map<Id, Grant>, minted: map<Id, Refresh>) {
    forall h :: h in minted ==>
      minted[h].grant in born && RefreshWithin(c, born[minted[h].grant], minted[h]) && minted[h].createdAt <= now
  }

  /** A rotation stays in its family and never widens its scopes. */
  ghost predicate ParentsOk(minted: map<Id, Refresh>, parent: map<Id, Id>) {
    forall h :: h in parent ==>
      h in minted && parent[h] in minted && minted[h].grant == minted[parent[h]].grant
      && Subset(minted[h].scopes, minted[parent[h]].scopes)
  }

  ghost predicate SourcesOk(now: Time, src: Sources) {
    && (forall code :: code in src.issued ==> src.issued[code] in src.asked)
    && (forall id :: id in src.asked ==> src.asked[id].createdAt <= now)
  }

  ghost predicate LogOk(c: Config, now: Time, log: Log) {
    GrantsBornOk(log.src, log.born) && AccessedOk(c, now, log.born, log.accessed) && MintedOk(c, now, log.born, log.minted)
    && ParentsOk(log.minted, log.parent) && SourcesOk(now, log.src)
  }

  ghost predicate GrantOk(born: map<Id, Grant>, gid: Id, g: Grant) {
    gid in born && g == born[gid].(revokedAt := g.revokedAt)
  }

  ghost predicate RefreshOk(minted: map<Id, Refresh>, h: Id, t: Refresh) {
    h in minted && t == minted[h].(usedAt := t.usedAt)
  }

  ghost predicate JobOk(log: Log, j: Job) {
    match j
    case LoggingIn(id, r, subject) => RequestOk(log.src, id, r) && !r.done
    case Approving(id, r, d) =>
      RequestOk(log.src, id, r) && !r.done && d.request == id && d.subject == r.subject && r.subject != ""
    case Coding(id, r, code) => RequestOk(log.src, id, r) && code in log.src.issued && log.src.issued[code] == id
    case Presenting(mark) => true
    case Redeeming(id, r) => RequestOk(log.src, id, r)
    case GotToken(h, t) => RefreshOk(log.minted, h, t)
    case Ready(h, t, g, scopes) => RefreshOk(log.minted, h, t) && GrantOk(log.born, t.grant, g) && Subset(scopes, t.scopes)
    case Used(h, t, g, scopes) => RefreshOk(log.minted, h, t) && GrantOk(log.born, t.grant, g) && Subset(scopes, t.scopes)
    case Replaying(gid) => gid in log.born
    case Minting(gid, g, scopes, from, refresh, step) =>
      GrantOk(log.born, gid, g) && Subset(scopes, g.scopes)
      && (from.Some? ==> from.value in log.minted && log.minted[from.value].grant == gid
                         && Subset(scopes, log.minted[from.value].scopes))
  }

  ghost predicate RequestsOk(src: Sources, requests: map<Id, Request>) {
    forall id :: id in requests ==> RequestOk(src, id, requests[id])
  }

  ghost predicate GrantsOk(born: map<Id, Grant>, grants: map<Id, Grant>) {
    forall gid :: gid in grants ==> GrantOk(born, gid, grants[gid])
  }

  ghost predicate AccessOk(accessed: map<Id, Access>, access: map<Id, Access>) {
    forall k :: k in access ==> k in accessed && access[k] == accessed[k]
  }

  ghost predicate RefreshesOk(minted: map<Id, Refresh>, refresh: map<Id, Refresh>) {
    forall h :: h in refresh ==> RefreshOk(minted, h, refresh[h])
  }

  ghost predicate JobsOk(log: Log, jobs: map<nat, Job>) {
    forall i :: i in jobs ==> JobOk(log, jobs[i])
  }

  ghost predicate DbOk(log: Log, db: Db) {
    RequestsOk(log.src, db.requests) && GrantsOk(log.born, db.grants)
    && AccessOk(log.accessed, db.access) && RefreshesOk(log.minted, db.refresh)
  }

  ghost predicate Inv(c: Config, s: State) {
    LogOk(c, s.now, s.log) && DbOk(s.log, s.db) && JobsOk(s.log, s.jobs)
  }

  // --- the history only grows ---

  ghost predicate Grows<K, V>(m: map<K, V>, m': map<K, V>) {
    forall k :: k in m ==> k in m' && m'[k] == m[k]
  }

  ghost predicate SourcesGrow(src: Sources, src': Sources) {
    Grows(src.asked, src'.asked) && src.decisions <= src'.decisions && Grows(src.issued, src'.issued)
  }

  ghost predicate Extends(log: Log, log': Log) {
    SourcesGrow(log.src, log'.src) && Grows(log.born, log'.born) && Grows(log.accessed, log'.accessed)
    && Grows(log.minted, log'.minted)
  }

  lemma RequestLasts(src: Sources, src': Sources, id: Id, r: Request)
    requires SourcesGrow(src, src') && RequestOk(src, id, r)
    ensures RequestOk(src', id, r)
  {
    if r.done {
      var i :| 0 <= i < |src.decisions| && Approves(src.decisions[i], id, src.asked[id], r);
      assert src'.decisions[i] == src.decisions[i];
    }
  }

  lemma GrantLasts(src: Sources, src': Sources, g: Grant)
    requires SourcesGrow(src, src') && GrantTraced(src, g)
    ensures GrantTraced(src', g)
  {
    var i :| 0 <= i < |src.decisions| && src.decisions[i].request in src.asked
             && Allows(src.decisions[i], src.asked[src.decisions[i].request], g);
    assert src'.decisions[i] == src.decisions[i];
  }

  lemma JobLasts(log: Log, log': Log, j: Job)
    requires Extends(log, log') && JobOk(log, j)
    ensures JobOk(log', j)
  {
    if j.LoggingIn? || j.Approving? || j.Coding? || j.Redeeming? {
      RequestLasts(log.src, log'.src, j.id, j.r);
    }
    hide RequestOk;
  }

  lemma DbLasts(log: Log, log': Log, db: Db)
    requires Extends(log, log') && DbOk(log, db)
    ensures DbOk(log', db)
  {
    forall id | id in db.requests ensures RequestOk(log'.src, id, db.requests[id]) {
      RequestLasts(log.src, log'.src, id, db.requests[id]);
    }
    hide RequestOk;
  }

  lemma JobsLast(log: Log, log': Log, jobs: map<nat, Job>)
    requires Extends(log, log') && JobsOk(log, jobs)
    ensures JobsOk(log', jobs)
  {
    hide JobOk, Extends;
    forall i | i in jobs ensures JobOk(log', jobs[i]) {
      JobLasts(log, log', jobs[i]);
    }
  }

  lemma SourcesLast(src: Sources, src': Sources, born: map<Id, Grant>)
    requires SourcesGrow(src, src') && GrantsBornOk(src, born)
    ensures GrantsBornOk(src', born)
  {
    hide SourcesGrow, GrantTraced;
    forall gid | gid in born ensures GrantTraced(src', born[gid]) {
      GrantLasts(src, src', born[gid]);
    }
  }

  // --- putting a record where its kind belongs ---

  lemma PutKeeps(c: Config, s: State, job: nat, j: Job)
    requires Inv(c, s) && JobOk(s.log, j)
    ensures Inv(c, Put(s, job, j))
  {
    hide LogOk, DbOk, JobOk;
  }

  lemma EndKeeps(c: Config, s: State, job: nat)
    requires Inv(c, s)
    ensures Inv(c, End(s, job))
  {
    hide LogOk, DbOk, JobOk;
  }

  lemma SaveKeeps(c: Config, s: State, id: Id, r: Request)
    requires Inv(c, s) && RequestOk(s.log.src, id, r)
    ensures Inv(c, s.(db := SaveRequest(s.db, id, r)))
  {
    hide LogOk, JobsOk, RequestOk, GrantsOk, AccessOk, RefreshesOk;
  }

  lemma GrantAdded(c: Config, s: State, gid: Id, g: Grant)
    requires Inv(c, s) && GrantOk(s.log.born, gid, g)
    ensures Inv(c, s.(db := s.db.(grants := s.db.grants[gid := g])))
  {
    hide LogOk, JobsOk, RequestsOk, GrantOk, AccessOk, RefreshesOk;
  }

  lemma AccessAdded(c: Config, s: State, tid: Id, t: Access)
    requires Inv(c, s) && tid in s.log.accessed && s.log.accessed[tid] == t
    ensures Inv(c, s.(db := s.db.(access := s.db.access[tid := t])))
  {
    hide LogOk, JobsOk, RequestsOk, GrantsOk, RefreshesOk;
  }

  lemma RefreshAdded(c: Config, s: State, h: Id, t: Refresh)
    requires Inv(c, s) && RefreshOk(s.log.minted, h, t)
    ensures Inv(c, s.(db := s.db.(refresh := s.db.refresh[h := t])))
  {
    hide LogOk, JobsOk, RequestsOk, GrantsOk, AccessOk, RefreshOk;
  }

  lemma CodesKeep(c: Config, s: State, codes: map<Mark, Time>)
    requires Inv(c, s)
    ensures Inv(c, s.(codes := codes))
  {
    hide LogOk, DbOk, JobsOk;
  }

  lemma LogKeeps(c: Config, s: State, log': Log)
    requires Inv(c, s) && Extends(s.log, log') && LogOk(c, s.now, log')
    ensures Inv(c, s.(log := log'))
  {
    hide LogOk, DbOk, JobsOk, Extends;
    DbLasts(s.log, log', s.db);
    JobsLast(s.log, log', s.jobs);
  }

  /** `db'` holds no record `db` does not, but for the marks a grant or refresh token carries. */
  ghost predicate Shrinks(db: Db, db': Db) {
    && (forall k :: k in db'.requests ==> k in db.requests && db'.requests[k] == db.requests[k])
    && (forall k :: k in db'.grants ==> k in db.grants && db'.grants[k] == db.grants[k].(revokedAt := db'.grants[k].revokedAt))
    && (forall k :: k in db'.access ==> k in db.access && db'.access[k] == db.access[k])
    && (forall k :: k in db'.refresh ==> k in db.refresh && db'.refresh[k] == db.refresh[k].(usedAt := db'.refresh[k].usedAt))
  }

  lemma ShrinkKeeps(c: Config, s: State, db': Db)
    requires Inv(c, s) && Shrinks(s.db, db')
    ensures Inv(c, s.(db := db'))
  {
    assert RequestsOk(s.log.src, db'.requests);
    assert GrantsOk(s.log.born, db'.grants);
    assert AccessOk(s.log.accessed, db'.access);
    assert RefreshesOk(s.log.minted, db'.refresh);
    hide LogOk, JobsOk, RequestsOk, GrantsOk, AccessOk, RefreshesOk;
  }

  lemma CleanUpShrinks(db: Db, now: Time, requestsBefore: Time, clientsBefore: Time)
    ensures Shrinks(db, CleanUp(db, now, requestsBefore, clientsBefore))
  {
  }

  lemma JobIsOk(c: Config, s: State, job: nat)
    requires Inv(c, s) && job in s.jobs
    ensures JobOk(s.log, s.jobs[job]) && LogOk(c, s.now, s.log)
  {
    hide JobOk, LogOk, DbOk;
  }

  lemma GrantIsBorn(c: Config, s: State, gid: Id)
    requires Inv(c, s) && gid in s.db.grants
    ensures GrantOk(s.log.born, gid, s.db.grants[gid])
  {
    hide GrantOk, LogOk, JobsOk, RequestsOk, AccessOk, RefreshesOk;
  }

  // --- the steps that write the history ---

  lemma SourcesKeep(c: Config, s: State, src': Sources)
    requires Inv(c, s) && SourcesGrow(s.log.src, src') && SourcesOk(s.now, src')
    ensures Inv(c, s.(log := s.log.(src := src')))
  {
    var log' := s.log.(src := src');
    assert GrantsBornOk(s.log.src, s.log.born);
    assert AccessedOk(c, s.now, s.log.born, s.log.accessed) && MintedOk(c, s.now, s.log.born, s.log.minted)
        && ParentsOk(s.log.minted, s.log.parent);
    hide Inv, GrantsBornOk, AccessedOk, MintedOk, ParentsOk, SourcesOk, SourcesGrow;
    SourcesLast(s.log.src, src', s.log.born);
    assert Extends(s.log, log');
    LogKeeps(c, s, log');
  }

  lemma AskKeeps(c: Config, s: State, id: Id, r: Request)
    requires Inv(c, s) && id !in s.log.src.asked && !r.done && r.codeHash == "" && r.createdAt == s.now
    ensures Inv(c, s.(db := SaveRequest(s.db, id, r), log := s.log.(src := s.log.src.(asked := s.log.src.asked[id := r]))))
  {
    var src := s.log.src;
    var src' := src.(asked := src.asked[id := r]);
    assert SourcesOk(s.now, src);
    hide Inv;
    assert SourcesGrow(src, src') && SourcesOk(s.now, src');
    assert RequestOk(src', id, r);
    hide SourcesGrow, SourcesOk, RequestOk;
    SourcesKeep(c, s, src');
    SaveKeeps(c, s.(log := s.log.(src := src')), id, r);
  }

  /** Saving an approval: the record is what the decision made of what was asked. */
  lemma ApproveKeeps(c: Config, s: State, job: nat)
    requires Inv(c, s) && job in s.jobs && s.jobs[job].Approving?
    ensures Inv(c, SaveApproveStep(s, job))
  {
    var Approving(id, r, d) := s.jobs[job];
    JobIsOk(c, s, job);
    assert SourcesOk(s.now, s.log.src);
    hide Inv;
    var src := s.log.src;
    var src' := src.(decisions := src.decisions + [d]);
    var r' := r.(scopes := Granted(r.scopes, d.scopes), done := true, ref := d.ref, endsAt := d.ends, authTime := Some(s.now));
    assert RequestOk(src', id, r') by {
      assert src'.decisions[|src.decisions|] == d;
      assert Approves(d, id, src'.asked[id], r');
    }
    assert SourcesGrow(src, src') && SourcesOk(s.now, src');
    hide SourcesGrow, SourcesOk, RequestOk, JobOk;
    SourcesKeep(c, s, src');
    SaveKeeps(c, s.(log := s.log.(src := src')), id, r');
    EndKeeps(c, s.(log := s.log.(src := src'), db := SaveRequest(s.db, id, r')), job);
  }

  lemma IssueKeeps(c: Config, s: State, job: nat, id: Id, r: Request, code: string)
    requires Inv(c, s) && RequestOk(s.log.src, id, r) && code !in s.log.src.issued
    ensures Inv(c, Put(s.(log := s.log.(src := s.log.src.(issued := s.log.src.issued[code := id]))), job, Coding(id, r, code)))
  {
    var src := s.log.src;
    var src' := src.(issued := src.issued[code := id]);
    assert SourcesOk(s.now, src);
    hide Inv;
    assert SourcesGrow(src, src') && SourcesOk(s.now, src');
    RequestLasts(src, src', id, r);
    hide SourcesGrow, SourcesOk, RequestOk;
    SourcesKeep(c, s, src');
    PutKeeps(c, s.(log := s.log.(src := src')), job, Coding(id, r, code));
  }

  /** Recording codes presented and accepted changes nothing else. */
  lemma NoteKeeps(c: Config, s: State, codes: map<Mark, Time>, presented: set<string>, accepted: seq<Mark>)
    requires Inv(c, s)
    ensures Inv(c, s.(codes := codes, log := s.log.(presented := presented, accepted := accepted)))
  {
    var log' := s.log.(presented := presented, accepted := accepted);
    assert LogOk(c, s.now, log') by {
      hide GrantsBornOk, AccessedOk, MintedOk, ParentsOk, SourcesOk;
    }
    hide Inv, LogOk;
    assert Extends(s.log, log');
    LogKeeps(c, s, log');
    CodesKeep(c, s.(log := log'), codes);
  }

  /** A grant made of an approved request is what its decision allows. */
  lemma RedeemedIsTraced(src: Sources, id: Id, r: Request, g: Grant)
    requires RequestOk(src, id, r) && r.done
    requires g.client == r.client && g.subject == r.subject && g.scopes == r.scopes && g.resources == r.resources
    requires g.ref == r.ref && g.endsAt == r.endsAt
    ensures GrantTraced(src, g)
  {
    var i :| 0 <= i < |src.decisions| && Approves(src.decisions[i], id, src.asked[id], r);
    assert Allows(src.decisions[i], src.asked[src.decisions[i].request], g);
  }

  lemma BornKeeps(c: Config, now: Time, log: Log, gid: Id, g: Grant)
    requires LogOk(c, now, log) && gid !in log.born && gid != "" && g.revokedAt.None? && GrantTraced(log.src, g)
    ensures LogOk(c, now, log.(born := log.born[gid := g])) && Extends(log, log.(born := log.born[gid := g]))
  {
    hide GrantTraced, AccessWithin, RefreshWithin, ParentsOk, SourcesOk;
  }

  lemma CreateGrantKeeps(c: Config, s: State, job: nat, gid: Id, refresh: bool)
    requires Inv(c, s) && job in s.jobs && s.jobs[job].Redeeming? && s.jobs[job].r.done
    requires gid !in s.log.born && gid != ""
    ensures Inv(c, CreateGrantStep(s, job, gid, refresh, true))
  {
    var Redeeming(id, r) := s.jobs[job];
    hide Inv, LogOk, Extends, GrantTraced;
    JobIsOk(c, s, job);
    var g := Grant(r.client, r.subject, r.scopes, r.resources, r.ref, r.authTime, s.now, r.endsAt, None);
    RedeemedIsTraced(s.log.src, id, r, g);
    var log' := s.log.(born := s.log.born[gid := g]);
    BornKeeps(c, s.now, s.log, gid, g);
    LogKeeps(c, s, log');
    GrantAdded(c, s.(log := log'), gid, g);
    PutKeeps(c, s.(log := log', db := s.db.(grants := s.db.grants[gid := g])), job,
             Minting(gid, g, g.scopes, None, refresh, ToAccess));
  }

  lemma AccessedKeeps(c: Config, now: Time, log: Log, tid: Id, t: Access)
    requires LogOk(c, now, log) && t.grant in log.born && AccessWithin(c, log.born[t.grant], t) && t.createdAt <= now
    requires tid !in log.accessed
    ensures var log' := log.(accessed := log.accessed[tid := t]); LogOk(c, now, log') && Extends(log, log')
  {
    hide GrantsBornOk, AccessWithin, MintedOk, ParentsOk, SourcesOk;
  }

  lemma NewAccessIsWithin(c: Config, s: State, job: nat, tid: Id)
    requires job in s.jobs && s.jobs[job].Minting? && JobOk(s.log, s.jobs[job])
    ensures var t := CreateAccessStep(c, s, job, tid).db.access[tid];
            t.grant in s.log.born && AccessWithin(c, s.log.born[t.grant], t) && t.createdAt == s.now
  {
  }

  lemma CreateAccessKeeps(c: Config, s: State, job: nat, tid: Id)
    requires Inv(c, s) && job in s.jobs && s.jobs[job].Minting? && tid !in s.log.accessed
    ensures Inv(c, CreateAccessStep(c, s, job, tid))
  {
    var j := s.jobs[job];
    var s' := CreateAccessStep(c, s, job, tid);
    var t := s'.db.access[tid];
    hide Inv, LogOk, JobOk, AccessWithin, Extends;
    JobIsOk(c, s, job);
    NewAccessIsWithin(c, s, job, tid);
    AccessedKeeps(c, s.now, s.log, tid, t);
    JobLasts(s.log, s'.log, j);
    MintStepIsOk(s'.log, j, ToTouch(s.now));
    LogKeeps(c, s, s'.log);
    AccessAdded(c, s.(log := s'.log), tid, t);
    PutKeeps(c, s.(log := s'.log, db := s'.db), job, s'.jobs[job]);
  }

  lemma MintStepIsOk(log: Log, j: Job, step: MintStep)
    requires JobOk(log, j) && j.Minting?
    ensures JobOk(log, j.(step := step))
  {
  }

  lemma MintedKeeps(c: Config, now: Time, log: Log, h: Id, t: Refresh)
    requires LogOk(c, now, log) && t.grant in log.born && RefreshWithin(c, log.born[t.grant], t) && t.createdAt <= now
    requires h !in log.minted
    ensures var log' := log.(minted := log.minted[h := t]); LogOk(c, now, log') && Extends(log, log')
  {
    hide GrantsBornOk, RefreshWithin, AccessedOk, SourcesOk, Subset;
  }

  lemma ParentKeeps(c: Config, now: Time, log: Log, h: Id, from: Id)
    requires LogOk(c, now, log) && h in log.minted && from in log.minted && log.minted[h].grant == log.minted[from].grant
    requires Subset(log.minted[h].scopes, log.minted[from].scopes)
    ensures LogOk(c, now, log.(parent := log.parent[h := from]))
  {
    hide GrantsBornOk, MintedOk, AccessedOk, SourcesOk, Subset;
  }

  lemma NewRefreshIsWithin(c: Config, s: State, job: nat, h: Id)
    requires job in s.jobs && s.jobs[job].Minting? && JobOk(s.log, s.jobs[job]) && h !in s.log.minted
    requires GrantsBornOk(s.log.src, s.log.born)
    ensures var t := CreateRefreshStep(c, s, job, h).db.refresh[h];
            t.grant in s.log.born && RefreshWithin(c, s.log.born[t.grant], t) && t.createdAt == s.now
  {
    hide GrantTraced;
  }

  lemma RotationIsOk(c: Config, now: Time, log: Log, j: Job, h: Id, t: Refresh)
    requires LogOk(c, now, log) && JobOk(log, j) && j.Minting? && j.from.Some?
    requires h in log.minted && log.minted[h] == t && t.grant == j.gid && t.scopes == j.scopes
    ensures LogOk(c, now, log.(parent := log.parent[h := j.from.value]))
  {
    hide LogOk, GrantOk, Subset;
    ParentKeeps(c, now, log, h, j.from.value);
  }

  /** The history with a new refresh token, exchanged for `from` if any. */
  function Rotated(log: Log, h: Id, t: Refresh, from: Option<Id>): Log {
    log.(minted := log.minted[h := t], parent := if from.Some? then log.parent[h := from.value] else log.parent)
  }

  lemma RotatedKeeps(c: Config, s: State, j: Job, h: Id, t: Refresh)
    requires Inv(c, s) && LogOk(c, s.now, s.log) && JobOk(s.log, j) && j.Minting? && h !in s.log.minted
    requires t.grant == j.gid && t.scopes == j.scopes && t.grant in s.log.born
    requires RefreshWithin(c, s.log.born[t.grant], t) && t.createdAt == s.now
    ensures Inv(c, s.(log := Rotated(s.log, h, t, j.from)))
  {
    hide Inv, LogOk, JobOk, RefreshWithin, Extends;
    var log1 := s.log.(minted := s.log.minted[h := t]);
    MintedKeeps(c, s.now, s.log, h, t);
    JobLasts(s.log, log1, j);
    LogKeeps(c, s, log1);
    if j.from.Some? {
      RotationIsOk(c, s.now, log1, j, h, t);
      ParentExtends(log1, log1.parent[h := j.from.value]);
      LogKeeps(c, s.(log := log1), log1.(parent := log1.parent[h := j.from.value]));
    }
  }

  lemma CreateRefreshKeeps(c: Config, s: State, job: nat, h: Id)
    requires Inv(c, s) && job in s.jobs && s.jobs[job].Minting? && h !in s.log.minted
    ensures Inv(c, CreateRefreshStep(c, s, job, h))
  {
    var j := s.jobs[job];
    var t := CreateRefreshStep(c, s, job, h).db.refresh[h];
    LogIsOk(c, s);
    hide Inv, LogOk, JobOk, RefreshWithin, GrantsBornOk;
    JobIsOk(c, s, job);
    NewRefreshIsWithin(c, s, job, h);
    RotatedKeeps(c, s, j, h, t);
    var s1 := s.(log := Rotated(s.log, h, t, j.from));
    RefreshAdded(c, s1, h, t);
    EndKeeps(c, s1.(db := s1.db.(refresh := s1.db.refresh[h := t])), job);
  }

  lemma LogIsOk(c: Config, s: State)
    requires Inv(c, s)
    ensures GrantsBornOk(s.log.src, s.log.born)
  {
    hide GrantsBornOk, MintedOk, AccessedOk, ParentsOk, SourcesOk, DbOk, JobsOk;
  }

  lemma ParentExtends(log: Log, parent: map<Id, Id>)
    ensures Extends(log, log.(parent := parent))
  {
  }

  // --- the other steps ---

  lemma LookUpKeeps(c: Config, s: State, job: nat, h: Id)
    requires Inv(c, s) && h in s.db.refresh
    ensures Inv(c, LookUpStep(s, job, h))
  {
    hide Inv, RefreshOk;
    var t := s.db.refresh[h];
    RefreshIsMinted(c, s, h);
    if t.usedAt.Some? {
      PutKeeps(c, s, job, Replaying(t.grant));
    } else {
      PutKeeps(c, s, job, GotToken(h, t));
    }
  }

  lemma RefreshIsMinted(c: Config, s: State, h: Id)
    requires Inv(c, s) && h in s.db.refresh
    ensures RefreshOk(s.log.minted, h, s.db.refresh[h]) && s.db.refresh[h].grant in s.log.born
  {
    assert RefreshOk(s.log.minted, h, s.db.refresh[h]);
    hide GrantsBornOk, AccessedOk, ParentsOk, SourcesOk, JobsOk, RequestsOk, GrantsOk, AccessOk, RefreshesOk;
  }

  lemma ReadyIsOk(log: Log, h: Id, t: Refresh, g: Grant)
    requires JobOk(log, GotToken(h, t)) && GrantOk(log.born, t.grant, g)
    ensures JobOk(log, Ready(h, t, g, t.scopes))
  {
    hide RefreshOk, GrantOk;
  }

  lemma ReadGrantKeeps(c: Config, s: State, job: nat, userOk: bool)
    requires Inv(c, s) && job in s.jobs && s.jobs[job].GotToken?
    ensures Inv(c, ReadGrantStep(s, job, userOk))
  {
    var GotToken(h, t) := s.jobs[job];
    hide Inv, LogOk, JobOk, GrantOk;
    JobIsOk(c, s, job);
    EndKeeps(c, s, job);
    if t.grant in s.db.grants {
      GrantIsBorn(c, s, t.grant);
      ReadyIsOk(s.log, h, t, s.db.grants[t.grant]);
      PutKeeps(c, s, job, Ready(h, t, s.db.grants[t.grant], t.scopes));
    }
  }

  lemma MarkUsedShrinks(db: Db, h: Id, at: Time)
    ensures Shrinks(db, MarkUsed(db, h, at))
  {
  }

  lemma UsedIsOk(c: Config, now: Time, log: Log, h: Id, t: Refresh, g: Grant, scopes: Scopes)
    requires JobOk(log, Ready(h, t, g, scopes))
    ensures JobOk(log, Used(h, t, g, scopes)) && JobOk(log, Replaying(t.grant))
  {
    hide RefreshOk;
  }

  lemma UseTokenKeeps(c: Config, s: State, job: nat)
    requires Inv(c, s) && job in s.jobs && s.jobs[job].Ready?
    ensures Inv(c, UseTokenStep(s, job))
  {
    var Ready(h, t, g, scopes) := s.jobs[job];
    hide Inv, LogOk, JobOk, Shrinks, MarkUsed;
    JobIsOk(c, s, job);
    UsedIsOk(c, s.now, s.log, h, t, g, scopes);
    MarkUsedShrinks(s.db, h, s.now);
    ShrinkKeeps(c, s, MarkUsed(s.db, h, s.now));
    EndKeeps(c, s, job);
    PutKeeps(c, s, job, Replaying(t.grant));
    PutKeeps(c, s.(db := MarkUsed(s.db, h, s.now)), job, Used(h, t, g, scopes));
  }

  /** What a refresh asked for is within its grant, token by token. */
  lemma TokenWithinGrant(c: Config, now: Time, log: Log, h: Id, t: Refresh, g: Grant, scopes: Scopes)
    requires LogOk(c, now, log) && RefreshOk(log.minted, h, t) && GrantOk(log.born, t.grant, g) && Subset(scopes, t.scopes)
    ensures Subset(scopes, g.scopes) && Subset(scopes, log.minted[h].scopes) && log.minted[h].grant == t.grant
  {
    assert RefreshWithin(c, log.born[t.grant], log.minted[h]);
  }

  lemma StartMintKeeps(c: Config, s: State, job: nat, j: Job, refresh: bool)
    requires Inv(c, s) && job in s.jobs && j == s.jobs[job] && (j.Used? || j.Ready?)
    ensures Inv(c, Put(s, job, Minting(j.t.grant, j.g, j.scopes, Some(j.h), refresh, ToAccess)))
  {
    hide Inv, LogOk;
    JobIsOk(c, s, job);
    TokenWithinGrant(c, s.now, s.log, j.h, j.t, j.g, j.scopes);
    PutKeeps(c, s, job, Minting(j.t.grant, j.g, j.scopes, Some(j.h), refresh, ToAccess));
  }

  lemma NarrowKeeps(c: Config, s: State, job: nat, scopes: Scopes)
    requires Inv(c, s) && job in s.jobs && s.jobs[job].Ready?
    ensures Inv(c, Put(s, job, Ready(s.jobs[job].h, s.jobs[job].t, s.jobs[job].g, Narrowed(scopes, s.jobs[job].t.scopes))))
  {
    var Ready(h, t, g, old_scopes) := s.jobs[job];
    hide Inv, LogOk;
    JobIsOk(c, s, job);
    PutKeeps(c, s, job, Ready(h, t, g, Narrowed(scopes, t.scopes)));
  }

  lemma TouchShrinks(db: Db, id: Id, at: Time)
    ensures Shrinks(db, TouchClient(db, id, at))
  {
  }

  lemma TouchKeeps(c: Config, s: State, job: nat)
    requires Inv(c, s) && job in s.jobs && s.jobs[job].Minting? && s.jobs[job].step.ToTouch?
    ensures Inv(c, TouchStep(s, job))
  {
    var j := s.jobs[job];
    hide Inv, LogOk, JobOk, Shrinks, TouchClient;
    JobIsOk(c, s, job);
    MintStepIsOk(s.log, j, ToRefresh);
    var s1 := s.(db := TouchClient(s.db, j.g.client, j.step.at));
    TouchShrinks(s.db, j.g.client, j.step.at);
    ShrinkKeeps(c, s, s1.db);
    EndKeeps(c, s1, job);
    PutKeeps(c, s1, job, j.(step := ToRefresh));
  }

  /** Every request in the store is as some handler may hold it. */
  lemma LiveRequestOk(c: Config, s: State, id: Id)
    requires Inv(c, s) && LiveRequest(s.db, id, s.now).Some?
    ensures RequestOk(s.log.src, id, LiveRequest(s.db, id, s.now).value)
  {
  }

  lemma RequestEventKeeps(c: Config, s: State, e: Event)
    requires Inv(c, s) && Apply(c, s, e) != s
    requires e.NewRequest? || e.StartLogin? || e.SaveLogin? || e.StartApprove? || e.SaveApprove? || e.StartCode? || e.SaveCode?
    ensures Inv(c, Apply(c, s, e))
  {
    match e
    case NewRequest(id, client, mayRefresh, scopes, resources) =>
      hide Inv;
      AskKeeps(c, s, id, NewRequestStep(s, id, client, mayRefresh, scopes, resources).db.requests[id]);
    case StartLogin(job, id, subject) =>
      LiveRequestOk(c, s, id);
      hide Inv, RequestOk;
      PutKeeps(c, s, job, LoggingIn(id, LiveRequest(s.db, id, s.now).value, subject));
    case SaveLogin(job) => SaveLoginKeeps(c, s, job);
    case StartApprove(job, d) =>
      LiveRequestOk(c, s, d.request);
      hide Inv, RequestOk;
      PutKeeps(c, s, job, Approving(d.request, LiveRequest(s.db, d.request, s.now).value, d));
    case SaveApprove(job) => ApproveKeeps(c, s, job);
    case StartCode(job, id, code) =>
      LiveRequestOk(c, s, id);
      hide Inv, RequestOk;
      IssueKeeps(c, s, job, id, LiveRequest(s.db, id, s.now).value, code);
    case SaveCode(job) => SaveCodeKeeps(c, s, job);
  }

  lemma SaveLoginKeeps(c: Config, s: State, job: nat)
    requires Inv(c, s) && job in s.jobs && s.jobs[job].LoggingIn?
    ensures Inv(c, Apply(c, s, SaveLogin(job)))
  {
    var LoggingIn(id, r, subject) := s.jobs[job];
    hide Inv, LogOk;
    JobIsOk(c, s, job);
    assert RequestOk(s.log.src, id, r.(subject := subject));
    hide RequestOk, JobOk;
    SaveKeeps(c, s, id, r.(subject := subject));
    EndKeeps(c, s.(db := SaveRequest(s.db, id, r.(subject := subject))), job);
  }

  lemma SaveCodeKeeps(c: Config, s: State, job: nat)
    requires Inv(c, s) && job in s.jobs && s.jobs[job].Coding?
    ensures Inv(c, Apply(c, s, SaveCode(job)))
  {
    var Coding(id, r, code) := s.jobs[job];
    var r' := r.(codeHash := code, codeAt := Some(s.now));
    hide Inv, LogOk;
    JobIsOk(c, s, job);
    assert RequestOk(s.log.src, id, r') by {
      if r.done {
        var i :| 0 <= i < |s.log.src.decisions| && Approves(s.log.src.decisions[i], id, s.log.src.asked[id], r);
        assert Approves(s.log.src.decisions[i], id, s.log.src.asked[id], r');
      }
    }
    hide RequestOk, JobOk;
    SaveKeeps(c, s, id, r');
    EndKeeps(c, s.(db := SaveRequest(s.db, id, r')), job);
  }

  lemma PresentingKeeps(c: Config, s: State, job: nat, mark: Mark)
    requires Inv(c, s)
    ensures Inv(c, PresentStep(s, job, mark))
  {
    hide Inv;
    NoteKeeps(c, s, s.codes[mark := s.now], s.log.presented + {mark.code}, s.log.accepted);
    PutKeeps(c, s.(codes := s.codes[mark := s.now], log := s.log.(presented := s.log.presented + {mark.code}, accepted := s.log.accepted)),
             job, Presenting(mark));
  }

  lemma GrantStepKeeps(c: Config, s: State, job: nat, gid: Id, refresh: bool, userOk: bool)
    requires Inv(c, s) && job in s.jobs && s.jobs[job].Redeeming? && gid !in s.log.born && gid != ""
    ensures Inv(c, CreateGrantStep(s, job, gid, refresh, userOk))
  {
    hide Inv;
    if !s.jobs[job].r.done || !userOk {
      EndKeeps(c, s, job);
    } else {
      CreateGrantKeeps(c, s, job, gid, refresh);
    }
  }

  lemma CodeEventKeeps(c: Config, s: State, e: Event)
    requires Inv(c, s) && Apply(c, s, e) != s
    requires e.Present? || e.ReadCode? || e.CreateGrant? || e.ForgetCodes?
    ensures Inv(c, Apply(c, s, e))
  {
    hide Inv, ReadCodeStep, CreateGrantStep, PresentStep;
    match e
    case Present(job, mark) => PresentingKeeps(c, s, job, mark);
    case ReadCode(job, id) => ReadCodeKeeps(c, s, job, id);
    case CreateGrant(job, gid, refresh, userOk) => GrantStepKeeps(c, s, job, gid, refresh, userOk);
    case ForgetCodes(proc) => CodesKeep(c, s, ForgetStep(s, proc).codes);
  }

  lemma ReadCodeKeeps(c: Config, s: State, job: nat, id: Id)
    requires Inv(c, s) && job in s.jobs && s.jobs[job].Presenting? && id in s.db.requests
    ensures Inv(c, ReadCodeStep(s, job, id))
  {
    var r := s.db.requests[id];
    assert RequestOk(s.log.src, id, r);
    hide Inv, RequestOk;
    var accepted := s.log.accepted + [s.jobs[job].mark];
    NoteKeeps(c, s, s.codes, s.log.presented, accepted);
    PutKeeps(c, s.(log := s.log.(presented := s.log.presented, accepted := accepted)), job, Redeeming(id, r));
    EndKeeps(c, s, job);
  }

  lemma TokenEventKeeps(c: Config, s: State, e: Event)
    requires Inv(c, s) && Apply(c, s, e) != s
    requires e.CreateAccess? || e.TouchForMint? || e.CreateRefresh? || e.LookUp? || e.ReadGrant? || e.Narrow? || e.UseToken?
             || e.CheckLive? || e.AccessOnly?
    ensures Inv(c, Apply(c, s, e))
  {
    hide Inv;
    match e
    case CreateAccess(job, tid) => CreateAccessKeeps(c, s, job, tid);
    case TouchForMint(job) => TouchKeeps(c, s, job);
    case CreateRefresh(job, h) => CreateRefreshKeeps(c, s, job, h);
    case LookUp(job, h) => LookUpKeeps(c, s, job, h);
    case ReadGrant(job, userOk) => ReadGrantKeeps(c, s, job, userOk);
    case Narrow(job, scopes) => NarrowKeeps(c, s, job, scopes);
    case UseToken(job) => UseTokenKeeps(c, s, job);
    case CheckLive(job, userOk) =>
      EndKeeps(c, s, job);
      StartMintKeeps(c, s, job, s.jobs[job], true);
    case AccessOnly(job, userOk) =>
      EndKeeps(c, s, job);
      StartMintKeeps(c, s, job, s.jobs[job], false);
  }

  lemma RevokeShrinks(db: Db, f: GrantFilter, at: Time)
    ensures Shrinks(db, RevokeGrants(db, f, at))
  {
  }

  lemma DropShrinks(db: Db, client: Id)
    ensures Shrinks(db, DropClients(db, {client}))
  {
  }

  /** Requests and access tokens dropped, and clients, which carry no authority, changed at will. */
  lemma SmallShrinks(db: Db, clients: map<Id, Client>, id: Id)
    ensures Shrinks(db, db.(clients := clients)) && Shrinks(db, DeleteRequest(db, id))
    ensures Shrinks(db, db.(access := db.access - {id}))
  {
  }

  lemma StoreEventKeeps(c: Config, s: State, e: Event)
    requires Inv(c, s) && Apply(c, s, e) != s
    requires e.NewClient? || e.DropClient? || e.DropRequest? || e.Replay? || e.Revoke? || e.RevokeAccess? || e.Expire? || e.Abandon?
    ensures Inv(c, Apply(c, s, e))
  {
    hide Inv, Shrinks, DropClients, RevokeGrants, CleanUp, DeleteRequest;
    match e
    case NewClient(id, dynamic, mayRefresh) =>
      SmallShrinks(s.db, Apply(c, s, e).db.clients, "");
      ShrinkKeeps(c, s, Apply(c, s, e).db);
    case DropClient(id) =>
      DropShrinks(s.db, id);
      ShrinkKeeps(c, s, DropClients(s.db, {id}));
    case DropRequest(id) =>
      SmallShrinks(s.db, map[], id);
      ShrinkKeeps(c, s, DeleteRequest(s.db, id));
    case Replay(job) =>
      var f := GrantFilter(s.jobs[job].gid, "", "", "");
      RevokeShrinks(s.db, f, s.now);
      ShrinkKeeps(c, s, RevokeGrants(s.db, f, s.now));
      EndKeeps(c, s.(db := RevokeGrants(s.db, f, s.now)), job);
    case Revoke(f) =>
      RevokeShrinks(s.db, f, s.now);
      ShrinkKeeps(c, s, RevokeGrants(s.db, f, s.now));
    case RevokeAccess(tid) =>
      SmallShrinks(s.db, map[], tid);
      ShrinkKeeps(c, s, Apply(c, s, e).db);
    case Expire =>
      CleanUpShrinks(s.db, s.now, s.now - AUTH_REQUEST_TTL, s.now - c.unusedClientTTL);
      ShrinkKeeps(c, s, CleanUp(s.db, s.now, s.now - AUTH_REQUEST_TTL, s.now - c.unusedClientTTL));
    case Abandon(job) => EndKeeps(c, s, job);
  }

  lemma TickKeeps(c: Config, s: State, lapse: nat)
    requires Inv(c, s)
    ensures Inv(c, s.(now := s.now + lapse))
  {
    hide GrantsBornOk, ParentsOk, DbOk, JobsOk, AccessWithin, RefreshWithin;
  }

  lemma ApplyKeeps(c: Config, s: State, e: Event)
    requires Inv(c, s)
    ensures Inv(c, Apply(c, s, e))
  {
    hide Inv;
    if e.Tick? {
      TickKeeps(c, s, e.lapse);
    } else if Apply(c, s, e) != s {
      if e.NewRequest? || e.StartLogin? || e.SaveLogin? || e.StartApprove? || e.SaveApprove? || e.StartCode? || e.SaveCode? {
        RequestEventKeeps(c, s, e);
      } else if e.Present? || e.ReadCode? || e.CreateGrant? || e.ForgetCodes? {
        CodeEventKeeps(c, s, e);
      } else if e.NewClient? || e.DropClient? || e.DropRequest? || e.Replay? || e.Revoke? || e.RevokeAccess? || e.Expire? || e.Abandon? {
        StoreEventKeeps(c, s, e);
      } else {
        TokenEventKeeps(c, s, e);
      }
    }
  }

  lemma {:induction false} ExecFromKeeps(c: Config, s: State, es: seq<Event>)
    requires Inv(c, s)
    ensures Inv(c, ExecFrom(c, s, es))
  {
    hide Inv;
    if es != [] {
      ExecFromKeeps(c, s, es[..|es| - 1]);
      ApplyKeeps(c, ExecFrom(c, s, es[..|es| - 1]), es[|es| - 1]);
    }
  }

  lemma ExecKeeps(c: Config, es: seq<Event>)
    ensures Inv(c, Exec(c, es))
  {
    assert Inv(c, INITIAL);
    ExecFromKeeps(c, INITIAL, es);
  }

  // --- main results ---

  /** A decision covers a scope it names, and those no decision can leave out. */
  predicate Covers(d: Decision, scope: string) {
    d.scopes.None? || scope in d.scopes.value || scope == OPENID || scope == OFFLINE_ACCESS
  }

  /** `d`, and what was asked of it, bound a credential of this client, subject and scopes. */
  ghost predicate Bounds(src: Sources, d: Decision, client: Id, subject: string, scopes: Scopes) {
    && d.request in src.asked && client == src.asked[d.request].client && subject == d.subject
    && forall x :: x in scopes ==> x in src.asked[d.request].scopes && Covers(d, x)
  }

  /** Everything asked that the decision covers is among the scopes. */
  ghost predicate GrantsAll(src: Sources, d: Decision, scopes: Scopes) {
    d.request in src.asked && forall x :: x in src.asked[d.request].scopes && Covers(d, x) ==> x in scopes
  }

  /** Every approved request in the store, in every reachable state, is what one decision of its subject
      made of what was asked. */
  lemma ApprovedRequestsAreDecided(c: Config, es: seq<Event>, id: Id)
    requires id in Exec(c, es).db.requests && Exec(c, es).db.requests[id].done
    ensures var s := Exec(c, es); var r := s.db.requests[id];
            && id in s.log.src.asked && r.client == s.log.src.asked[id].client
            && r.resources == s.log.src.asked[id].resources && r.createdAt == s.log.src.asked[id].createdAt
            && exists i :: 0 <= i < |s.log.src.decisions|
                 && Bounds(s.log.src, s.log.src.decisions[i], r.client, r.subject, r.scopes)
                 && Approves(s.log.src.decisions[i], id, s.log.src.asked[id], r)
                 && GrantsAll(s.log.src, s.log.src.decisions[i], r.scopes)
  {
    ExecKeeps(c, es);
    var s := Exec(c, es);
    var r := s.db.requests[id];
    assert RequestOk(s.log.src, id, r);
    var i :| 0 <= i < |s.log.src.decisions| && Approves(s.log.src.decisions[i], id, s.log.src.asked[id], r);
    assert Bounds(s.log.src, s.log.src.decisions[i], r.client, r.subject, r.scopes);
    assert GrantsAll(s.log.src, s.log.src.decisions[i], r.scopes);
  }

  lemma GrantIsBounded(src: Sources, g: Grant) returns (i: nat)
    requires GrantTraced(src, g)
    ensures i < |src.decisions| && Bounds(src, src.decisions[i], g.client, g.subject, g.scopes)
    ensures Allows(src.decisions[i], src.asked[src.decisions[i].request], g) && GrantsAll(src, src.decisions[i], g.scopes)
  {
    i :| 0 <= i < |src.decisions| && src.decisions[i].request in src.asked
         && Allows(src.decisions[i], src.asked[src.decisions[i].request], g);
  }

  /** So is every grant, */
  lemma GrantsAreDecided(c: Config, es: seq<Event>, gid: Id) returns (i: nat)
    requires gid in Exec(c, es).db.grants
    ensures var s := Exec(c, es); var g := s.db.grants[gid];
            && i < |s.log.src.decisions| && Bounds(s.log.src, s.log.src.decisions[i], g.client, g.subject, g.scopes)
            && Allows(s.log.src.decisions[i], s.log.src.asked[s.log.src.decisions[i].request], g)
            && GrantsAll(s.log.src, s.log.src.decisions[i], g.scopes)
  {
    ExecKeeps(c, es);
    var s := Exec(c, es);
    assert GrantOk(s.log.born, gid, s.db.grants[gid]);
    i := GrantIsBounded(s.log.src, s.log.born[gid]);
  }

  /** every access token, which ends no later than the decision says, */
  lemma AccessTokensAreDecided(c: Config, es: seq<Event>, tid: Id) returns (i: nat)
    requires tid in Exec(c, es).db.access
    ensures var s := Exec(c, es); var t := s.db.access[tid];
            && i < |s.log.src.decisions| && Bounds(s.log.src, s.log.src.decisions[i], t.client, t.subject, t.scopes)
            && Within(t.expiresAt, s.log.src.decisions[i].ends)
  {
    ExecKeeps(c, es);
    var s := Exec(c, es);
    var t := s.log.accessed[tid];
    assert AccessWithin(c, s.log.born[t.grant], t);
    i := GrantIsBounded(s.log.src, s.log.born[t.grant]);
  }

  /** and every refresh token, whose scopes only shrink from one rotation to the next. */
  lemma RefreshTokensAreDecided(c: Config, es: seq<Event>, h: Id) returns (i: nat)
    requires h in Exec(c, es).db.refresh
    ensures var s := Exec(c, es); var t := s.db.refresh[h];
            && i < |s.log.src.decisions| && Bounds(s.log.src, s.log.src.decisions[i], t.client, t.subject, t.scopes)
            && Within(t.expiresAt, s.log.src.decisions[i].ends)
            && (h in s.log.parent ==> s.log.parent[h] in s.log.minted && Subset(t.scopes, s.log.minted[s.log.parent[h]].scopes))
  {
    ExecKeeps(c, es);
    var s := Exec(c, es);
    assert RefreshOk(s.log.minted, h, s.db.refresh[h]);
    var t := s.log.minted[h];
    assert RefreshWithin(c, s.log.born[t.grant], t);
    i := GrantIsBounded(s.log.src, s.log.born[t.grant]);
  }

  lemma LinkedNow(c: Config, s: State)
    requires Inv(c, s)
    ensures Linked(s.db)
  {
    forall k | k in s.db.access && s.db.access[k].grant in s.db.grants
      ensures s.db.access[k].client == s.db.grants[s.db.access[k].grant].client
    {
      assert AccessWithin(c, s.log.born[s.db.access[k].grant], s.log.accessed[k]);
      assert GrantOk(s.log.born, s.db.access[k].grant, s.db.grants[s.db.access[k].grant]);
    }
    forall k | k in s.db.refresh && s.db.refresh[k].grant in s.db.grants
      ensures s.db.refresh[k].client == s.db.grants[s.db.refresh[k].grant].client
    {
      assert RefreshOk(s.log.minted, k, s.db.refresh[k]);
      assert RefreshWithin(c, s.log.born[s.db.refresh[k].grant], s.log.minted[k]);
      assert GrantOk(s.log.born, s.db.refresh[k].grant, s.db.grants[s.db.refresh[k].grant]);
    }
  }

  /** Tokens name the client of their grant, so the two stores' clean-ups agree in every reachable state. */
  lemma CleanUpsAlwaysAgree(c: Config, es: seq<Event>, now: Time, requestsBefore: Time, clientsBefore: Time)
    ensures Linked(Exec(c, es).db)
    ensures CleanUp(Exec(c, es).db, now, requestsBefore, clientsBefore)
         == CleanUpRelational(Exec(c, es).db, now, requestsBefore, clientsBefore)
  {
    ExecKeeps(c, es);
    var s := Exec(c, es);
    LinkedNow(c, s);
    hide Inv, Linked;
    LinkedCleanUpsAgree(s.db, now, requestsBefore, clientsBefore);
  }
}
