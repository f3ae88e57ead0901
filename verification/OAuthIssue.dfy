/**
 A run that ends with a client about to be given its tokens: it registers at time 0, and a given time later
 asks, is approved by user u, and redeems its code.
 */
module OAuthIssue {
  import opened Basics
  import opened OAuthRecords
  import opened OAuthFlow

  const CLIENT: Client := Client(true, true, 0, None)

  function Asked(at: Time): Request {
    Request("c", [OFFLINE_ACCESS], [], "", "", None, None, false, "", None, at)
  }

  function SignedIn(at: Time): Request {
    Asked(at).(subject := "u")
  }

  function Decided(at: Time): Request {
    SignedIn(at).(done := true, authTime := Some(at))
  }

  function Approved(at: Time): Request {
    Decided(at).(codeHash := "k", codeAt := Some(at))
  }

  const D: Decision := Decision("r", "u", None, "", None)

  function G(at: Time): Grant {
    Grant("c", "u", [OFFLINE_ACCESS], [], "", Some(at), at, None, None)
  }

  /** The job that creates this grant's tokens. */
  function Mints(gid: Id, at: Time, step: MintStep): Job {
    Minting(gid, G(at), [OFFLINE_ACCESS], None, true, step)
  }

  predicate OfMint(e: Event) {
    e.CreateAccess? || e.TouchForMint? || e.CreateRefresh?
  }

  lemma ExecNext(c: Config, es: seq<Event>, e: Event)
    ensures Exec(c, es + [e]) == Apply(c, Exec(c, es), e)
  {
    assert (es + [e])[..|es|] == es;
  }

  lemma TwoEvents(c: Config, es: seq<Event>, e: Event, f: Event)
    ensures Exec(c, es + [e, f]) == Apply(c, Apply(c, Exec(c, es), e), f)
  {
    hide Exec, Apply;
    ExecNext(c, es, e);
    ExecNext(c, es + [e], f);
    assert es + [e, f] == es + [e] + [f];
  }

  /** A dynamic client asks `at` after it registered. */
  lemma Asks(c: Config, at: nat)
    ensures var s := Apply(c, Apply(c, Apply(c, INITIAL, NewClient("c", true, true)), Tick(at)), NewRequest("r", "c", true, [], []));
            s == INITIAL.(now := at,
                          db := EMPTY_DB.(clients := map["c" := CLIENT], requests := map["r" := Asked(at)]),
                          log := INITIAL.log.(src := INITIAL.log.src.(asked := map["r" := Asked(at)])))
  {
    assert AskedScopes([], true) == [OFFLINE_ACCESS];
    var s1 := Apply(c, INITIAL, NewClient("c", true, true));
    assert s1.db.clients == map["c" := CLIENT];
  }

  /** User u signs in for its request, */
  lemma SignsIn(c: Config, s: State)
    requires s.jobs == map[] && s.db.requests == map["r" := Asked(s.now)]
    ensures Apply(c, Apply(c, s, StartLogin(0, "r", "u")), SaveLogin(0))
         == s.(db := s.db.(requests := map["r" := SignedIn(s.now)]))
  {
    var s1 := Apply(c, s, StartLogin(0, "r", "u"));
    assert s1 == s.(jobs := map[0 := LoggingIn("r", Asked(s.now), "u")]);
  }

  /** approves it, */
  lemma Approves(c: Config, s: State)
    requires s.jobs == map[] && s.db.requests == map["r" := SignedIn(s.now)]
    ensures Apply(c, Apply(c, s, StartApprove(0, D)), SaveApprove(0))
         == s.(db := s.db.(requests := map["r" := Decided(s.now)]),
               log := s.log.(src := s.log.src.(decisions := s.log.src.decisions + [D])))
  {
    var s1 := Apply(c, s, StartApprove(0, D));
    assert s1 == s.(jobs := map[0 := Approving("r", SignedIn(s.now), D)]);
  }

  /** and its code is issued. */
  lemma Issues(c: Config, s: State)
    requires s.jobs == map[] && s.db.requests == map["r" := Decided(s.now)]
    requires s.log.src.issued == map[] && s.log.presented == {}
    ensures Apply(c, Apply(c, s, StartCode(0, "r", "k")), SaveCode(0))
         == s.(db := s.db.(requests := map["r" := Approved(s.now)]), log := s.log.(src := s.log.src.(issued := map["k" := "r"])))
  {
    var s1 := Apply(c, s, StartCode(0, "r", "k"));
    assert s1 == s.(jobs := map[0 := Coding("r", Decided(s.now), "k")], log := s.log.(src := s.log.src.(issued := map["k" := "r"])));
  }

  /** The client presents the code to process `n`, */
  lemma Presents(c: Config, s: State, n: nat)
    requires n !in s.jobs && Mark(n, "k") !in s.codes && s.db.requests == map["r" := Approved(s.now)]
    ensures var s' := Apply(c, Apply(c, s, Present(n, Mark(n, "k"))), ReadCode(n, "r"));
            && s'.now == s.now && s'.db == s.db && s'.jobs == s.jobs[n := Redeeming("r", Approved(s.now))]
            && s'.codes == s.codes[Mark(n, "k") := s.now]
            && s'.log.born == s.log.born && s'.log.accessed == s.log.accessed && s'.log.minted == s.log.minted
  {
    var s1 := Apply(c, s, Present(n, Mark(n, "k")));
    assert s1.jobs == s.jobs[n := Presenting(Mark(n, "k"))] && s1.db == s.db && s1.now == s.now;
  }

  /** and its grant is created. */
  lemma Grants(c: Config, s: State, n: nat, gid: Id)
    requires n in s.jobs && s.jobs[n] == Redeeming("r", Approved(s.now)) && gid !in s.log.born && gid != ""
    ensures var s' := Apply(c, s, CreateGrant(n, gid, true, true));
            && s'.now == s.now && s'.codes == s.codes && s'.jobs == s.jobs[n := Mints(gid, s.now, ToAccess)]
            && s'.db == s.db.(grants := s.db.grants[gid := G(s.now)]) && s'.log.born == s.log.born[gid := G(s.now)]
            && s'.log.accessed == s.log.accessed && s'.log.minted == s.log.minted
  {
  }

  lemma Redeems(c: Config, es: seq<Event>, n: nat, gid: Id) returns (es': seq<Event>)
    requires var s := Exec(c, es); n !in s.jobs && Mark(n, "k") !in s.codes && gid !in s.log.born && gid != ""
    requires Exec(c, es).db.requests == map["r" := Approved(Exec(c, es).now)]
    requires forall e :: e in es ==> !OfMint(e)
    ensures var s, s' := Exec(c, es), Exec(c, es');
            && s'.now == s.now && s'.jobs == s.jobs[n := Mints(gid, s.now, ToAccess)] && s'.codes.Keys == s.codes.Keys + {Mark(n, "k")}
            && s'.db == s.db.(grants := s.db.grants[gid := G(s.now)]) && s'.log.born == s.log.born[gid := G(s.now)]
            && s'.log.accessed == s.log.accessed && s'.log.minted == s.log.minted
    ensures forall e :: e in es' ==> !OfMint(e)
  {
    hide Exec, Apply;
    Presents(c, Exec(c, es), n);
    TwoEvents(c, es, Present(n, Mark(n, "k")), ReadCode(n, "r"));
    es' := es + [Present(n, Mark(n, "k")), ReadCode(n, "r")];
    Grants(c, Exec(c, es'), n, gid);
    ExecNext(c, es', CreateGrant(n, gid, true, true));
    es' := es' + [CreateGrant(n, gid, true, true)];
  }

  /** The code "k" has been issued `at` after the client registered, and nothing has been done with it. */
  predicate CodeIssued(s: State, at: nat) {
    && s.now == at && s.jobs == map[] && s.codes == map[]
    && s.db == EMPTY_DB.(clients := map["c" := CLIENT], requests := map["r" := Approved(at)])
    && s.log.born == map[] && s.log.accessed == map[] && s.log.minted == map[]
  }

  lemma IssuesCode(c: Config, at: nat) returns (es: seq<Event>)
    ensures CodeIssued(Exec(c, es), at) && forall e :: e in es ==> !OfMint(e)
  {
    hide Exec, Apply;
    TwoEvents(c, [], NewClient("c", true, true), Tick(at));
    es := [] + [NewClient("c", true, true), Tick(at)];
    ExecNext(c, es, NewRequest("r", "c", true, [], []));
    es := es + [NewRequest("r", "c", true, [], [])];
    Empty(c);
    Asks(c, at);
    SignsIn(c, Exec(c, es));
    TwoEvents(c, es, StartLogin(0, "r", "u"), SaveLogin(0));
    es := es + [StartLogin(0, "r", "u"), SaveLogin(0)];
    Approves(c, Exec(c, es));
    TwoEvents(c, es, StartApprove(0, D), SaveApprove(0));
    es := es + [StartApprove(0, D), SaveApprove(0)];
    Issues(c, Exec(c, es));
    TwoEvents(c, es, StartCode(0, "r", "k"), SaveCode(0));
    es := es + [StartCode(0, "r", "k"), SaveCode(0)];
  }

  lemma Empty(c: Config)
    ensures Exec(c, []) == INITIAL
  {
  }

  /** And with it grant "g" has been created, in process 0. */
  predicate ToMint(s: State, at: nat) {
    && s.now == at && s.jobs == map[0 := Mints("g", at, ToAccess)] && s.codes.Keys == {Mark(0, "k")}
    && s.db == EMPTY_DB.(clients := map["c" := CLIENT], requests := map["r" := Approved(at)], grants := map["g" := G(at)])
    && s.log.born == map["g" := G(at)] && s.log.accessed == map[] && s.log.minted == map[]
  }

  lemma GrantsFirst(c: Config, at: nat) returns (es: seq<Event>)
    ensures ToMint(Exec(c, es), at) && forall e :: e in es ==> !OfMint(e)
  {
    hide Exec, Apply;
    es := IssuesCode(c, at);
    es := Redeems(c, es, 0, "g");
  }

  /** The access token and its touch. */
  lemma MintsAccess(c: Config, s: State, job: nat, gid: Id, at: Time, tid: Id)
    requires job in s.jobs && s.jobs[job] == Mints(gid, at, ToAccess) && tid !in s.log.accessed
    ensures var t := Access(gid, "c", "u", [OFFLINE_ACCESS], s.now + c.accessTTL, s.now);
            Apply(c, s, CreateAccess(job, tid))
            == s.(jobs := s.jobs[job := Mints(gid, at, ToTouch(s.now))],
                  db := s.db.(access := s.db.access[tid := t]), log := s.log.(accessed := s.log.accessed[tid := t]))
  {
  }

  lemma Touches(c: Config, s: State, job: nat, gid: Id, at: Time, when: Time)
    requires job in s.jobs && s.jobs[job] == Mints(gid, at, ToTouch(when))
    requires "c" in s.db.clients
    ensures Apply(c, s, TouchForMint(job))
            == s.(jobs := s.jobs[job := Mints(gid, at, ToRefresh)],
                  db := s.db.(clients := s.db.clients["c" := s.db.clients["c"].(lastUsedAt := Some(when))]))
  {
  }

  lemma MintsRefresh(c: Config, s: State, job: nat, gid: Id, at: Time, h: Id)
    requires job in s.jobs && s.jobs[job] == Mints(gid, at, ToRefresh) && h !in s.log.minted
    ensures var s' := Apply(c, s, CreateRefresh(job, h));
            var t := Refresh(gid, "c", "u", [OFFLINE_ACCESS], s.now + c.refreshTTL, s.now, None);
            s'.now == s.now && s'.jobs == s.jobs - {job} && s'.db == s.db.(refresh := s.db.refresh[h := t])
  {
  }
}
