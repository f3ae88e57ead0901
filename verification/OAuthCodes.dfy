/**
 An authorization code is accepted at most once by a process, although the process forgets used codes
 after a while (oidcprovider/storage.go:101-130): by then the code's request is past its time.
 */
module OAuthCodes {
  import opened Basics
  import opened OAuthRecords
  import opened OAuthCleanUp
  import opened OAuthFlow
  import opened OAuthProvenance

  /** A presentation of a code: one that was accepted, or one whose request is still to be read. */
  datatype Claim = Accepted(k: nat) | Open(job: nat)

  predicate Claims(accepted: seq<Mark>, jobs: map<nat, Job>, x: Claim, m: Mark) {
    match x
    case Accepted(k) => k < |accepted| && accepted[k] == m
    case Open(j) => j in jobs && jobs[j] == Presenting(m)
  }

  /** The code's request is past its time. */
  predicate TooLate(now: Time, src: Sources, code: string) {
    code in src.issued && src.issued[code] in src.asked && now - src.asked[src.issued[code]].createdAt > AUTH_REQUEST_TTL
  }

  /** A mark was made after its code's request. */
  ghost predicate MarksOk(s: State) {
    forall m :: m in s.codes ==>
      && s.codes[m] <= s.now && m.code in s.log.presented
      && (m.code in s.log.src.issued && s.log.src.issued[m.code] in s.log.src.asked ==>
           s.log.src.asked[s.log.src.issued[m.code]].createdAt <= s.codes[m])
  }

  ghost predicate ClaimsOk(s: State) {
    forall x, m :: Claims(s.log.accepted, s.jobs, x, m) ==>
      && m.code in s.log.presented
      && (m.code in s.log.src.issued ==> m in s.codes || TooLate(s.now, s.log.src, m.code))
  }

  ghost predicate OneClaim(s: State) {
    forall x, y, m :: Claims(s.log.accepted, s.jobs, x, m) && Claims(s.log.accepted, s.jobs, y, m) && x != y ==>
      m.code in s.log.src.issued ==> TooLate(s.now, s.log.src, m.code)
  }

  ghost predicate NoRepeats(accepted: seq<Mark>) {
    forall k, l :: 0 <= k < l < |accepted| ==> accepted[k] != accepted[l]
  }

  ghost predicate CodesInv(s: State) {
    MarksOk(s) && ClaimsOk(s) && OneClaim(s) && NoRepeats(s.log.accepted)
  }

  // --- each step ---

  lemma PresentKeeps(c: Config, s: State, job: nat, mark: Mark)
    requires Inv(c, s) && CodesInv(s) && job !in s.jobs && mark !in s.codes
    ensures CodesInv(PresentStep(s, job, mark))
  {
    var s' := PresentStep(s, job, mark);
    hide Inv;
    SourcesAreOk(c, s);
    forall x, m | Claims(s'.log.accepted, s'.jobs, x, m)
      ensures Claims(s.log.accepted, s.jobs, x, m) || (x == Open(job) && m == mark)
    {
    }
  }

  lemma SourcesAreOk(c: Config, s: State)
    requires Inv(c, s)
    ensures SourcesOk(s.now, s.log.src)
  {
    hide GrantsBornOk, MintedOk, AccessedOk, ParentsOk, SourcesOk, DbOk, JobsOk;
  }

  /** A code found in the store was issued for the request it is found on. */
  lemma FoundCodeIsIssued(c: Config, s: State, id: Id)
    requires Inv(c, s) && id in s.db.requests && s.db.requests[id].codeHash != ""
    ensures var r := s.db.requests[id];
            && r.codeHash in s.log.src.issued && s.log.src.issued[r.codeHash] == id
            && id in s.log.src.asked && s.log.src.asked[id].createdAt == r.createdAt
  {
    assert RequestOk(s.log.src, id, s.db.requests[id]);
    hide LogOk, JobsOk, GrantsOk, AccessOk, RefreshesOk, RequestsOk;
  }

  /** A code whose request is in time has no other claim, so it is accepted for the first time. */
  lemma ReadCodeKeeps(c: Config, s: State, job: nat, id: Id)
    requires Inv(c, s) && CodesInv(s) && job in s.jobs && s.jobs[job].Presenting? && id in s.db.requests
    requires s.db.requests[id].codeHash == s.jobs[job].mark.code && s.jobs[job].mark.code != ""
    ensures CodesInv(ReadCodeStep(s, job, id))
  {
    var s' := ReadCodeStep(s, job, id);
    var mark := s.jobs[job].mark;
    hide Inv;
    FoundCodeIsIssued(c, s, id);
    var n := |s.log.accepted|;
    assert Claims(s.log.accepted, s.jobs, Open(job), mark);
    if CodeValid(s.db.requests[id], s.now) {
      assert !TooLate(s.now, s.log.src, mark.code);
      forall k | 0 <= k < n ensures s.log.accepted[k] != mark {
        assert Claims(s.log.accepted, s.jobs, Accepted(k), s.log.accepted[k]);
      }
      forall x, m | Claims(s'.log.accepted, s'.jobs, x, m)
        ensures (x == Accepted(n) && m == mark) || (x != Open(job) && Claims(s.log.accepted, s.jobs, x, m))
      {
      }
    } else {
      forall x, m | Claims(s'.log.accepted, s'.jobs, x, m) ensures Claims(s.log.accepted, s.jobs, x, m) {
      }
    }
  }

  /** A mark is forgotten only once its code's request is past its time. */
  lemma ForgetKeeps(c: Config, s: State, proc: nat)
    requires Inv(c, s) && CodesInv(s)
    ensures CodesInv(ForgetStep(s, proc))
  {
    var s' := ForgetStep(s, proc);
    SourcesAreOk(c, s);
    hide Inv;
    forall m | m in s.codes && m !in s'.codes && m.code in s.log.src.issued ensures TooLate(s.now, s.log.src, m.code) {
    }
    assert forall x, m :: Claims(s'.log.accepted, s'.jobs, x, m) <==> Claims(s.log.accepted, s.jobs, x, m);
  }

  /** A step that claims nothing: codes and presentations stay, and a code is issued only if never presented. */
  ghost predicate ClaimsNothing(s: State, s': State) {
    && s.now <= s'.now && s'.codes == s.codes && s'.log.presented == s.log.presented && s'.log.accepted == s.log.accepted
    && (forall j :: j in s'.jobs && s'.jobs[j].Presenting? ==> j in s.jobs && s.jobs[j] == s'.jobs[j])
    && (forall code :: code in s.log.src.issued ==> code in s'.log.src.issued && s'.log.src.issued[code] == s.log.src.issued[code])
    && (forall code :: code in s'.log.src.issued && code !in s.log.src.issued ==> code !in s.log.presented)
    && (forall id :: id in s.log.src.asked ==> id in s'.log.src.asked && s'.log.src.asked[id] == s.log.src.asked[id])
  }

  lemma ClaimsNothingKeeps(c: Config, s: State, s': State)
    requires Inv(c, s) && CodesInv(s) && ClaimsNothing(s, s')
    ensures CodesInv(s')
  {
    SourcesAreOk(c, s);
    hide Inv;
    forall x, m | Claims(s'.log.accepted, s'.jobs, x, m) ensures Claims(s.log.accepted, s.jobs, x, m) {
    }
  }

  lemma OthersClaimNothing(c: Config, s: State, e: Event)
    requires Inv(c, s) && !e.Present? && !e.ReadCode? && !e.ForgetCodes? && Apply(c, s, e) != s
    ensures ClaimsNothing(s, Apply(c, s, e))
  {
    hide Inv;
    if OfRequest(e) {
      RequestEventClaimsNothing(c, s, e);
    } else if OfExchange(e) {
      ExchangeEventClaimsNothing(c, s, e);
    }
  }

  lemma JobClaimsNothing(s: State, s': State, job: nat)
    requires s'.jobs == s.jobs - {job} || (job in s'.jobs && !s'.jobs[job].Presenting? && s'.jobs == s.jobs[job := s'.jobs[job]])
    requires s.now == s'.now && s'.codes == s.codes && s'.log.presented == s.log.presented && s'.log.accepted == s.log.accepted
    requires s'.log.src.issued == s.log.src.issued && s'.log.src.asked == s.log.src.asked
    ensures ClaimsNothing(s, s')
  {
  }

  /** The steps up to a code, and those of an exchange. */
  predicate OfRequest(e: Event) {
    e.StartLogin? || e.SaveLogin? || e.StartApprove? || e.SaveApprove? || e.SaveCode? || e.CreateGrant? || e.Abandon?
  }

  predicate OfExchange(e: Event) {
    || e.CreateAccess? || e.TouchForMint? || e.CreateRefresh? || e.LookUp? || e.ReadGrant? || e.Narrow? || e.UseToken?
    || e.CheckLive? || e.AccessOnly? || e.Replay?
  }

  lemma RequestEventClaimsNothing(c: Config, s: State, e: Event)
    requires Apply(c, s, e) != s && OfRequest(e)
    ensures ClaimsNothing(s, Apply(c, s, e))
  {
    hide LiveRequest, ClaimsNothing, Granted;
    JobClaimsNothing(s, Apply(c, s, e), e.job);
  }

  lemma ExchangeEventClaimsNothing(c: Config, s: State, e: Event)
    requires Apply(c, s, e) != s && OfExchange(e)
    ensures ClaimsNothing(s, Apply(c, s, e))
  {
    hide Live, ClaimsNothing, Narrowed, CapTime, TouchClient, RevokeGrants, MarkUsed;
    JobClaimsNothing(s, Apply(c, s, e), e.job);
  }

  lemma ApplyKeepsCodes(c: Config, s: State, e: Event)
    requires Inv(c, s) && CodesInv(s)
    ensures CodesInv(Apply(c, s, e))
  {
    hide Inv, CodesInv, ClaimsNothing;
    if Apply(c, s, e) != s {
      if e.Present? {
        PresentKeeps(c, s, e.job, e.mark);
      } else if e.ReadCode? {
        MarkHasCode(c, s, e);
      } else if e.ForgetCodes? {
        ForgetKeeps(c, s, e.proc);
      } else {
        OthersClaimNothing(c, s, e);
        hide Apply;
        ClaimsNothingKeeps(c, s, Apply(c, s, e));
      }
    }
  }

  lemma MarkHasCode(c: Config, s: State, e: Event)
    requires Inv(c, s) && CodesInv(s) && e.ReadCode? && Apply(c, s, e) != s
    ensures CodesInv(Apply(c, s, e))
  {
    hide Inv, CodesInv;
    ReadCodeKeeps(c, s, e.job, e.id);
  }

  lemma {:induction false} ExecKeepsCodes(c: Config, es: seq<Event>)
    ensures CodesInv(Exec(c, es))
  {
    if es != [] {
      var init := es[..|es| - 1];
      ExecKeepsCodes(c, init);
      ExecKeeps(c, init);
      hide Inv, CodesInv;
      ApplyKeepsCodes(c, Exec(c, init), es[|es| - 1]);
    }
  }

  /** No process accepts a code twice, in any run: not even one whose mark it has forgotten, nor one two
      presentations of which it is handling at once. */
  lemma CodeAcceptedOnce(c: Config, es: seq<Event>, k: nat, l: nat)
    requires k < l < |Exec(c, es).log.accepted|
    ensures Exec(c, es).log.accepted[k] != Exec(c, es).log.accepted[l]
  {
    ExecKeepsCodes(c, es);
  }

  // --- how long a code lasts ---

  /** The codes put on a request in the run, each with the time of it. */
  function CodesSaved(c: Config, es: seq<Event>): set<(string, Time)> {
    if es == [] then {}
    else
      var init, e := es[..|es| - 1], es[|es| - 1];
      CodesSaved(c, init) + SavedBy(Exec(c, init), e)
  }

  ghost predicate Stamped(saved: set<(string, Time)>, r: Request) {
    r.codeHash != "" ==> r.codeAt.Some? && (r.codeHash, r.codeAt.value) in saved
  }

  ghost predicate JobStamped(saved: set<(string, Time)>, j: Job) {
    match j
    case LoggingIn(_, r, _) => Stamped(saved, r)
    case Approving(_, r, _) => Stamped(saved, r)
    case Coding(_, r, _) => Stamped(saved, r)
    case Redeeming(_, r) => Stamped(saved, r)
    case _ => true
  }

  ghost predicate StampsOk(saved: set<(string, Time)>, s: State) {
    && (forall id :: id in s.db.requests ==> Stamped(saved, s.db.requests[id]))
    && (forall j :: j in s.jobs ==> JobStamped(saved, s.jobs[j]))
  }

  lemma MoreStamps(saved: set<(string, Time)>, more: set<(string, Time)>, s: State)
    requires StampsOk(saved, s)
    ensures StampsOk(saved + more, s)
  {
  }

  predicate HoldsRequest(j: Job) {
    j.LoggingIn? || j.Approving? || j.Coding? || j.Redeeming?
  }

  lemma FewerStamps(saved: set<(string, Time)>, s: State, s': State)
    requires StampsOk(saved, s)
    requires MovesNone(s, s')
    ensures StampsOk(saved, s')
  {
  }

  /** The steps that copy a request or change one. */
  predicate MovesRequest(e: Event) {
    || e.NewRequest? || e.StartLogin? || e.SaveLogin? || e.StartApprove? || e.SaveApprove? || e.StartCode? || e.SaveCode?
    || e.ReadCode?
  }

  /** Each request and each copy in `s'` is one in `s`. */
  ghost predicate MovesNone(s: State, s': State) {
    && (forall id :: id in s'.db.requests ==> id in s.db.requests && s'.db.requests[id] == s.db.requests[id])
    && (forall j :: j in s'.jobs && HoldsRequest(s'.jobs[j]) ==> j in s.jobs && s'.jobs[j] == s.jobs[j])
  }

  lemma OthersMoveNone(c: Config, s: State, e: Event)
    requires !MovesRequest(e)
    ensures MovesNone(s, Apply(c, s, e))
  {
    hide CapTime, TouchClient, Narrowed, Live, CodeValid, CleanUp, DropClients, RevokeGrants, MarkUsed, MovesNone;
    if e.Expire? {
      CleanUpRequests(s.db, s.now, s.now - AUTH_REQUEST_TTL, s.now - c.unusedClientTTL);
      DropsMoveNone(s, Apply(c, s, e));
    } else if e.DropClient? {
      DropKeepsRequests(s.db, e.id);
      DropsMoveNone(s, Apply(c, s, e));
    } else {
      RestMoveNone(c, s, e);
    }
  }

  lemma DropsMoveNone(s: State, s': State)
    requires s'.jobs == s.jobs
    requires forall id :: id in s'.db.requests ==> id in s.db.requests && s'.db.requests[id] == s.db.requests[id]
    ensures MovesNone(s, s')
  {
  }

  lemma RestMoveNone(c: Config, s: State, e: Event)
    requires !MovesRequest(e) && !e.Expire? && !e.DropClient?
    ensures MovesNone(s, Apply(c, s, e))
  {
    hide Apply, MovesNone, OwnJobOnly;
    if OfExchange(e) || e.CreateGrant? || e.Present? || e.Abandon? {
      JobMovesNone(c, s, e);
      JobsMoveNone(s, Apply(c, s, e), e.job);
    } else {
      StoreMovesNone(c, s, e);
      DropsMoveNone(s, Apply(c, s, e));
    }
  }

  /** Only this job changed, and it holds no request, if it is there at all. */
  predicate OwnJobOnly(s: State, s': State, job: nat) {
    s'.db.requests == s.db.requests
    && (s'.jobs == s.jobs || s'.jobs == s.jobs - {job}
        || (job in s'.jobs && !HoldsRequest(s'.jobs[job]) && s'.jobs == s.jobs[job := s'.jobs[job]]))
  }

  predicate OfMint(e: Event) {
    e.CreateAccess? || e.TouchForMint? || e.CreateRefresh?
  }

  lemma JobMovesNone(c: Config, s: State, e: Event)
    requires OfExchange(e) || e.CreateGrant? || e.Present? || e.Abandon?
    ensures OwnJobOnly(s, Apply(c, s, e), e.job)
  {
    hide Apply, OwnJobOnly;
    if OfMint(e) {
      MintMovesNone(c, s, e);
    } else if e.LookUp? || e.ReadGrant? || e.Narrow? {
      LookUpMovesNone(c, s, e);
    } else if OfExchange(e) {
      ExchangeMovesNone(c, s, e);
    } else {
      CodeMovesNone(c, s, e);
    }
  }

  lemma MintMovesNone(c: Config, s: State, e: Event)
    requires OfMint(e)
    ensures OwnJobOnly(s, Apply(c, s, e), e.job)
  {
    hide CapTime;
  }

  lemma LookUpMovesNone(c: Config, s: State, e: Event)
    requires e.LookUp? || e.ReadGrant? || e.Narrow?
    ensures OwnJobOnly(s, Apply(c, s, e), e.job)
  {
    hide Narrowed, Live;
  }

  lemma ExchangeMovesNone(c: Config, s: State, e: Event)
    requires e.UseToken? || e.CheckLive? || e.AccessOnly? || e.Replay?
    ensures OwnJobOnly(s, Apply(c, s, e), e.job)
  {
    hide Narrowed, Live;
  }

  lemma CodeMovesNone(c: Config, s: State, e: Event)
    requires e.CreateGrant? || e.Present? || e.Abandon?
    ensures OwnJobOnly(s, Apply(c, s, e), e.job)
  {
  }

  lemma JobsMoveNone(s: State, s': State, job: nat)
    requires OwnJobOnly(s, s', job)
    ensures MovesNone(s, s')
  {
  }

  lemma StoreMovesNone(c: Config, s: State, e: Event)
    requires e.Tick? || e.NewClient? || e.DropRequest? || e.Revoke? || e.RevokeAccess? || e.ForgetCodes?
    ensures Apply(c, s, e).jobs == s.jobs
    ensures Apply(c, s, e).db.requests == if e.DropRequest? then s.db.requests - {e.id} else s.db.requests
  {
  }

  lemma MovedIsStamped(c: Config, saved: set<(string, Time)>, s: State, e: Event)
    requires StampsOk(saved, s) && MovesRequest(e)
    requires e.SaveCode? && e.job in s.jobs && s.jobs[e.job].Coding? ==> (s.jobs[e.job].code, s.now) in saved
    ensures StampsOk(saved, Apply(c, s, e))
  {
    hide Granted, CodeValid;
  }

  function SavedBy(s: State, e: Event): set<(string, Time)> {
    if e.SaveCode? && e.job in s.jobs && s.jobs[e.job].Coding? then {(s.jobs[e.job].code, s.now)} else {}
  }

  lemma StepStamps(c: Config, saved: set<(string, Time)>, s: State, e: Event)
    requires StampsOk(saved, s)
    ensures StampsOk(saved + SavedBy(s, e), Apply(c, s, e))
  {
    hide StampsOk, Apply;
    MoreStamps(saved, SavedBy(s, e), s);
    if MovesRequest(e) {
      MovedIsStamped(c, saved + SavedBy(s, e), s, e);
    } else {
      OthersMoveNone(c, s, e);
      FewerStamps(saved + SavedBy(s, e), s, Apply(c, s, e));
    }
  }

  lemma DropKeepsRequests(db: Db, id: Id)
    ensures var db' := DropClients(db, {id});
            forall k :: k in db'.requests ==> k in db.requests && db'.requests[k] == db.requests[k]
  {
  }

  lemma {:induction false} CodesAreStamped(c: Config, es: seq<Event>)
    ensures StampsOk(CodesSaved(c, es), Exec(c, es))
  {
    hide Apply, StampsOk;
    if es == [] {
      NothingStamped(c);
    } else {
      CodesAreStamped(c, es[..|es| - 1]);
      StepStamps(c, CodesSaved(c, es[..|es| - 1]), Exec(c, es[..|es| - 1]), es[|es| - 1]);
    }
  }

  lemma NothingStamped(c: Config)
    ensures StampsOk({}, Exec(c, []))
  {
  }

  lemma RequestIsStamped(saved: set<(string, Time)>, s: State, id: Id)
    requires StampsOk(saved, s) && id in s.db.requests && s.db.requests[id].codeHash != ""
    ensures var r := s.db.requests[id]; r.codeAt.Some? && (r.codeHash, r.codeAt.value) in saved
  {
    assert Stamped(saved, s.db.requests[id]);
  }

  /** The request was approved, in the last ten minutes, and given its code in the last minute. */
  predicate InTime(r: Request, now: Time) {
    r.done && now - r.createdAt <= 10 * MINUTE && r.codeAt.Some? && now - r.codeAt.value <= MINUTE
  }

  lemma ValidIsInTime(r: Request, now: Time)
    ensures CodeValid(r, now) <==> InTime(r, now)
  {
  }

  lemma ReadsCode(c: Config, s: State, job: nat, id: Id)
    requires job in s.jobs && s.jobs[job].Presenting? && id in s.db.requests
    requires s.db.requests[id].codeHash == s.jobs[job].mark.code != ""
    ensures var s', r := Apply(c, s, ReadCode(job, id)), s.db.requests[id]; var ok := InTime(r, s.now);
            && s'.log.accepted == s.log.accepted + (if ok then [s.jobs[job].mark] else [])
            && s'.jobs == (if ok then s.jobs[job := Redeeming(id, r)] else s.jobs - {job})
  {
    hide CodeValid, InTime;
    ValidIsInTime(s.db.requests[id], s.now);
    assert Apply(c, s, ReadCode(job, id)) == ReadCodeStep(s, job, id);
    assert s.log.accepted + [] == s.log.accepted;
  }

  /**
   A presented code is accepted exactly if its request was approved, at most ten minutes old, and given the
   code at most a minute ago; and it was given the code then by a step of the run.
   */
  lemma CodeAcceptedExactlyInTime(c: Config, es: seq<Event>, job: nat, id: Id)
    requires var s := Exec(c, es);
             && job in s.jobs && s.jobs[job].Presenting? && id in s.db.requests
             && s.db.requests[id].codeHash == s.jobs[job].mark.code != ""
    ensures var s, s' := Exec(c, es), Apply(c, Exec(c, es), ReadCode(job, id)); var r := s.db.requests[id];
            var ok := InTime(r, s.now);
            && s'.log.accepted == s.log.accepted + (if ok then [s.jobs[job].mark] else [])
            && s'.jobs == (if ok then s.jobs[job := Redeeming(id, r)] else s.jobs - {job})
            && r.codeAt.Some? && (s.jobs[job].mark.code, r.codeAt.value) in CodesSaved(c, es)
  {
    hide Exec, Apply, StampsOk;
    CodesAreStamped(c, es);
    RequestIsStamped(CodesSaved(c, es), Exec(c, es), id);
    ReadsCode(c, Exec(c, es), job, id);
  }
}
