/**
 How sessions came to be: each was created by a login for an identity of the configured
 issuer, on a device whose key the start of that login brought along.
 */
module AuthBirths {
  import opened AuthTables
  import opened AuthTransactions
  import opened AuthProtocol
  import opened AuthSessions
  import opened AuthSafety
  import opened AuthProvenance
  import opened AuthDeliveries

  // ---- the invariant ----

  predicate BornWith(origins: map<string, Origin>, i: Id, token: string) {
    token in origins && origins[token].session == i
  }

  ghost predicate BornSessions(sessions: set<Id>, origins: map<string, Origin>) {
    forall i :: i in sessions ==> exists token :: BornWith(origins, i, token)
  }

  predicate Issued(c: Settings, pc: Pc) {
    match pc
    case AtProvision(identity) => identity.subject.issuer == c.issuer
    case AtRegister(identity, _) => identity.subject.issuer == c.issuer
    case AtCreate(identity, _, _) => identity.subject.issuer == c.issuer
    case _ => true
  }

  ghost predicate IssuedLogins(c: Settings, logins: map<nat, Login>) {
    forall w :: w in logins ==> Issued(c, logins[w].pc)
  }

  ghost predicate IssuedOrigins(c: Settings, origins: map<string, Origin>) {
    forall token :: token in origins ==> origins[token].identity.subject.issuer == c.issuer
  }

  ghost predicate KeyedStarts(starts: map<string, Start>) {
    forall state :: state in starts ==> 8 <= |starts[state].deviceKey| <= 200
  }

  ghost predicate Born(c: Settings, s: System) {
    && BornSessions(s.db.sessions.Keys, s.log.trace.origins) && IssuedOrigins(c, s.log.trace.origins)
    && IssuedLogins(c, s.logins) && KeyedStarts(s.log.trace.starts)
  }

  // ---- what the steps do to it ----

  predicate SameSessions(s: System, s': System) {
    s'.db.sessions.Keys == s.db.sessions.Keys
  }

  lemma CallbackBears(c: Settings, s: System, w: nat, state: string, code: string)
    requires IssuedLogins(c, s.logins)
    ensures var s' := DoBeginComplete(c, s, w, state, code); IssuedLogins(c, s'.logins) && SameSessions(s, s')
  {
    hide FlowUsable, ConsumeFlow;
    var (t, flow) := ConsumeFlow(s.db, Fingerprint(state), s.clock);
    assert t.sessions == s.db.sessions by {
      FlowsOnly(s.db, Fingerprint(state), s.clock);
    }
  }

  lemma FlowsOnly(t: Tables, fp: Fingerprint, now: Time)
    ensures ConsumeFlow(t, fp, now).0.sessions == t.sessions
  {}

  lemma EarlyStepBears(c: Settings, s: System, step: Step)
    requires IssuedLogins(c, s.logins) && Ready(s, step) && (step.Exchange? || step.Provision?)
    ensures IssuedLogins(c, Act(c, s, step).logins) && SameSessions(s, Act(c, s, step))
  {
    hide ProvisionIdentity;
    if step.Provision? {
      ProvisionOnlyUsers(s.db, s.logins[step.worker].pc.identity, step.newUser);
    }
  }

  lemma RegisterBears(c: Settings, s: System, w: nat, newDevice: Id)
    requires IssuedLogins(c, s.logins) && w in s.logins && s.logins[w].pc.AtRegister?
    ensures var s' := DoRegister(s, w, newDevice); IssuedLogins(c, s'.logins) && SameSessions(s, s')
  {
    hide RegisterDevice;
    var login := s.logins[w];
    if Required(login.payload, "device_key").Some? && Required(login.payload, "platform").Some? {
      RegisterOnlyDevices(s.db, login.pc.user, Fingerprint(Required(login.payload, "device_key").value),
                          Required(login.payload, "platform").value, login.now, newDevice);
    }
    hide Required;
  }

  lemma LateStepBears(c: Settings, s: System, step: Step)
    requires IssuedLogins(c, s.logins) && Ready(s, step) && (step.Check? || step.Grant? || step.AbortLogin?)
    ensures IssuedLogins(c, Act(c, s, step).logins) && SameSessions(s, Act(c, s, step))
  {
    hide ResolveSession;
  }

  lemma RequestBears(c: Settings, s: System, step: Step)
    requires Ready(s, step)
    requires step.Authenticate? || step.Logout? || step.RevokeDevice? || step.IssueTicket? || step.ConsumeTicket?
    ensures Act(c, s, step).logins == s.logins && SameSessions(s, Act(c, s, step))
  {
    hide ResolveSession;
  }

  lemma RedemptionBears(s: System, w: nat, code: string)
    ensures DoBeginRedeem(s, w, code).logins == s.logins && SameSessions(s, DoBeginRedeem(s, w, code))
    ensures w in s.redemptions ==> DoFinishRedeem(s, w).logins == s.logins && SameSessions(s, DoFinishRedeem(s, w))
    ensures w in s.redemptions ==> FailRedeem(s, w).logins == s.logins && SameSessions(s, FailRedeem(s, w))
  {
    hide ResolveSession, Open, Required;
  }

  /** Neither the lists nor the sessions change in any step but these two. */
  lemma OthersBear(c: Settings, s: System, step: Step)
    requires IssuedLogins(c, s.logins) && Ready(s, step) && !step.StartLogin? && !step.Create?
    ensures IssuedLogins(c, Act(c, s, step).logins) && SameSessions(s, Act(c, s, step))
  {
    hide IssuedLogins, SameSessions, DoBeginComplete, DoExchange, DoProvision, DoRegister, DoCheck, DoGrant, FailLogin,
      DoBeginRedeem, DoFinishRedeem, FailRedeem, DoAuthenticate, DoIssueTicket, DoConsumeTicket;
    match step
    case BeginComplete(w, state, code) => CallbackBears(c, s, w, state, code);
    case Exchange(_, _) => EarlyStepBears(c, s, step);
    case Provision(_, _) => EarlyStepBears(c, s, step);
    case Register(w, newDevice) => RegisterBears(c, s, w, newDevice);
    case Check(_) => LateStepBears(c, s, step);
    case Grant(_, _) => LateStepBears(c, s, step);
    case AbortLogin(_) => LateStepBears(c, s, step);
    case BeginRedeem(w, code) => RedemptionBears(s, w, code);
    case FinishRedeem(w) => RedemptionBears(s, w, "");
    case AbortRedeem(w) => RedemptionBears(s, w, "");
    case _ => RequestBears(c, s, step);
  }

  lemma StartBears(c: Settings, s: System, step: Step)
    requires Born(c, s) && Ready(s, step) && step.StartLogin?
    ensures Born(c, Act(c, s, step))
  {
    hide FlowPayload, IssuedLogins, BornSessions, IssuedOrigins;
  }

  lemma BornAppend(sessions: set<Id>, origins: map<string, Origin>, i: Id, token: string, o: Origin)
    requires BornSessions(sessions, origins) && token !in origins && o.session == i
    ensures BornSessions(sessions + {i}, origins[token := o])
  {
    var origins' := origins[token := o];
    assert BornWith(origins', i, token);
    forall x | x in sessions ensures exists y :: BornWith(origins', x, y) {
      var y :| BornWith(origins, x, y);
      assert BornWith(origins', x, y);
    }
  }

  lemma CreateBears(c: Settings, s: System, w: nat, token: string, newSession: Id)
    requires Born(c, s) && w in s.logins && s.logins[w].pc.AtCreate? && token !in s.log.trace.origins
    ensures Born(c, DoCreate(c, s, w, token, newSession))
  {
    hide BornSessions, CreateSession;
    var login := s.logins[w];
    var o := Origin(login.state, login.pc.identity, login.pc.user, login.pc.device, newSession, login.now);
    CreateOnlySessions(s.db, login.pc.user, login.pc.device, Fingerprint(token), login.now + c.sessionTtl, newSession);
    BornAppend(s.db.sessions.Keys, s.log.trace.origins, newSession, token, o);
    var s' := DoCreate(c, s, w, token, newSession);
    assert s'.db.sessions.Keys == s.db.sessions.Keys || s'.db.sessions.Keys == s.db.sessions.Keys + {newSession};
  }

  lemma ActBears(c: Settings, s: System, step: Step)
    requires Born(c, s) && Drawn(s.db, s.log.trace, s.drawn) && Ready(s, step)
    ensures Born(c, Act(c, s, step))
  {
    if step.StartLogin? {
      StartBears(c, s, step);
    } else if step.Create? {
      assert step.token !in s.log.trace.origins;
      CreateBears(c, s, step.worker, step.token, step.newSession);
    } else {
      OthersBear(c, s, step);
      OthersListNothing(c, s, step);
      SameBirths(c, s, Act(c, s, step));
    }
    hide *;
  }

  lemma SameBirths(c: Settings, s: System, s': System)
    requires Born(c, s) && IssuedLogins(c, s'.logins) && SameSessions(s, s') && SameLists(s.log.trace, s'.log.trace)
    ensures Born(c, s')
  {
    hide IssuedLogins, BornSessions, IssuedOrigins, KeyedStarts;
  }

  lemma {:induction false} RunBears(c: Settings, s: System, run: seq<Timed>)
    requires Inv(s) && TracedInv(c, s) && Born(c, s) && Configured(c) && Runs(c, s, run)
    ensures Born(c, Run(c, s, run))
    decreases |run|
  {
    hide Healthy, Traced, Drawn, Act, Ready, Born;
    if run != [] {
      var e := run[0];
      StepKeeps(c, s, e);
      InvConstraints(s);
      ActTraced(c, s.(clock := e.now), e.step);
      assert Born(c, s.(clock := e.now)) by { BornAnyTime(c, s, e.now); }
      ActBears(c, s.(clock := e.now), e.step);
      RunBears(c, Next(c, s, e), run[1..]);
    }
  }

  lemma BornAnyTime(c: Settings, s: System, now: Time)
    requires Born(c, s)
    ensures Born(c, s.(clock := now))
  {}

  lemma InitialBorn(c: Settings, s: System)
    requires Initial(s)
    ensures Born(c, s)
  {
    hide Constraints;
  }

  lemma ReachableBorn(c: Settings, s: System)
    requires Reachable(c, s) && Configured(c)
    ensures Born(c, s)
  {
    hide Initial, Inv, TracedInv, Runs, Run, Born;
    var start, run :| Initial(start) && Runs(c, start, run) && Run(c, start, run) == s;
    InitialTraced(c, start);
    InitialBorn(c, start);
    RunBears(c, start, run);
  }
}
