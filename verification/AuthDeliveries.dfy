/**
 What becomes of a login in the end: the lists of starts and created sessions, where
 every session grant comes from, and that a failed login never delivers one.
 */
module AuthDeliveries {
  import opened AuthTables
  import opened AuthProtocol
  import opened AuthSessions
  import opened AuthSafety
  import opened AuthProvenance

  // ---- the lists of starts and creations ----

  /** No state is started twice and no token given to two sessions, so looking either up
      finds the only entry there is. */
  ghost predicate Listed(h: Trace) {
    && (forall i, j :: 0 <= i < j < |h.begun| ==> h.begun[i].state != h.begun[j].state)
    && (forall i, j :: 0 <= i < j < |h.created| ==> h.created[i].token != h.created[j].token)
    && (forall i :: 0 <= i < |h.begun| ==>
          h.begun[i].state in h.starts && h.starts[h.begun[i].state] == h.begun[i].start)
    && (forall i :: 0 <= i < |h.created| ==>
          h.created[i].token in h.origins && h.origins[h.created[i].token] == h.created[i].origin)
    && (forall state :: state in h.starts ==> Beginning(state, h.starts[state]) in h.begun)
    && (forall token :: token in h.origins ==> Creation(token, h.origins[token]) in h.created)
  }

  lemma StartListed(h: Trace, state: string, start: Start)
    requires Listed(h) && state !in h.starts
    ensures Listed(Started(h, state, start))
  {}

  lemma CreationListed(h: Trace, token: string, origin: Origin)
    requires Listed(h) && token !in h.origins
    ensures Listed(Created(h, token, origin))
  {}

  predicate SameLists(h: Trace, h': Trace) {
    h'.begun == h.begun && h'.created == h.created && h'.starts == h.starts && h'.origins == h.origins
  }

  /** Only these two steps write the lists. */
  lemma OthersListNothing(c: Settings, s: System, step: Step)
    requires Ready(s, step) && !step.StartLogin? && !step.Create?
    ensures SameLists(s.log.trace, Act(c, s, step).log.trace)
  {
    hide SameLists, DoBeginComplete, DoExchange, DoProvision, DoRegister, DoCheck, DoGrant, FailLogin,
      DoBeginRedeem, DoFinishRedeem, FailRedeem, DoAuthenticate, DoIssueTicket, DoConsumeTicket;
    NothingListed(s.log.trace);
    match step
    case BeginComplete(w, state, code) => FlowStepListsNothing(c, s, w, state, code);
    case Exchange(_, _) => WorkerListsNothing(c, s, step);
    case Provision(_, _) => WorkerListsNothing(c, s, step);
    case Register(_, _) => WorkerListsNothing(c, s, step);
    case Check(_) => WorkerListsNothing(c, s, step);
    case Grant(_, _) => WorkerListsNothing(c, s, step);
    case AbortLogin(_) => WorkerListsNothing(c, s, step);
    case BeginRedeem(w, code) => GrantStepListsNothing(s, w, code);
    case FinishRedeem(w) => RedemptionListsNothing(s, w);
    case AbortRedeem(w) => RedemptionListsNothing(s, w);
    case Authenticate(_) => RequestListsNothing(c, s, step);
    case IssueTicket(_, _, _) => RequestListsNothing(c, s, step);
    case ConsumeTicket(_, _) => RequestListsNothing(c, s, step);
    case _ =>
  }

  lemma NothingListed(h: Trace)
    ensures SameLists(h, h)
  {}

  lemma FlowStepListsNothing(c: Settings, s: System, w: nat, state: string, code: string)
    ensures SameLists(s.log.trace, DoBeginComplete(c, s, w, state, code).log.trace)
  {
    hide FlowUsable, ConsumeFlow;
  }

  lemma WorkerListsNothing(c: Settings, s: System, step: Step)
    requires Ready(s, step)
    requires step.Exchange? || step.Provision? || step.Register? || step.Check? || step.Grant? || step.AbortLogin?
    ensures SameLists(s.log.trace, Act(c, s, step).log.trace)
  {
    hide SameLists, DoExchange, DoProvision, DoRegister, DoCheck, DoGrant, FailLogin;
    match step
    case Exchange(_, _) => EarlyStepListsNothing(c, s, step);
    case Provision(_, _) => EarlyStepListsNothing(c, s, step);
    case Register(_, _) => EarlyStepListsNothing(c, s, step);
    case _ => LateStepListsNothing(c, s, step);
  }

  lemma EarlyStepListsNothing(c: Settings, s: System, step: Step)
    requires Ready(s, step) && (step.Exchange? || step.Provision? || step.Register?)
    ensures SameLists(s.log.trace, Act(c, s, step).log.trace)
  {
    hide ProvisionIdentity, RegisterDevice, Required;
  }

  lemma LateStepListsNothing(c: Settings, s: System, step: Step)
    requires Ready(s, step) && (step.Check? || step.Grant? || step.AbortLogin?)
    ensures SameLists(s.log.trace, Act(c, s, step).log.trace)
  {
    hide ResolveSession, PutGrant;
  }

  lemma GrantStepListsNothing(s: System, w: nat, code: string)
    ensures SameLists(s.log.trace, DoBeginRedeem(s, w, code).log.trace)
  {
    hide Open, Required, ConsumeGrant;
  }

  lemma RedemptionListsNothing(s: System, w: nat)
    requires w in s.redemptions
    ensures SameLists(s.log.trace, DoFinishRedeem(s, w).log.trace)
    ensures SameLists(s.log.trace, FailRedeem(s, w).log.trace)
  {
    hide ResolveSession;
  }

  lemma RequestListsNothing(c: Settings, s: System, step: Step)
    requires Ready(s, step) && (step.Authenticate? || step.IssueTicket? || step.ConsumeTicket?)
    ensures SameLists(s.log.trace, Act(c, s, step).log.trace)
  {
    hide ResolveSession;
  }

  lemma ActLists(c: Settings, s: System, step: Step)
    requires Listed(s.log.trace) && Drawn(s.db, s.log.trace, s.drawn) && Ready(s, step)
    ensures Listed(Act(c, s, step).log.trace)
  {
    var h := s.log.trace;
    match step
    case StartLogin(state, _, _, key, platform) =>
      StartListed(h, state, Start(key, platform, s.clock));
      hide Listed, Drawn;
    case Create(w, token, newSession) =>
      var login := s.logins[w];
      CreationListed(h, token,
                     Origin(login.state, login.pc.identity, login.pc.user, login.pc.device, newSession, login.now));
      hide Listed, Drawn, TokenTaken;
    case _ =>
      OthersListNothing(c, s, step);
      hide Act, Ready, Drawn;
  }

  lemma {:induction false} RunLists(c: Settings, s: System, run: seq<Timed>)
    requires Inv(s) && TracedInv(c, s) && Listed(s.log.trace) && Configured(c) && Runs(c, s, run)
    ensures Listed(Run(c, s, run).log.trace)
    decreases |run|
  {
    hide Healthy, Traced, Drawn, Act, Ready, Listed;
    if run != [] {
      var e := run[0];
      StepKeeps(c, s, e);
      InvConstraints(s);
      ActTraced(c, s.(clock := e.now), e.step);
      ActLists(c, s.(clock := e.now), e.step);
      RunLists(c, Next(c, s, e), run[1..]);
    }
  }

  lemma ReachableLists(c: Settings, s: System)
    requires Reachable(c, s) && Configured(c)
    ensures Listed(s.log.trace)
  {
    hide Initial, Inv, TracedInv, Runs, Run, Listed;
    var start, run :| Initial(start) && Runs(c, start, run) && Run(c, start, run) == s;
    InitialTraced(c, start);
    InitialListed(start);
    RunLists(c, start, run);
  }

  lemma InitialListed(s: System)
    requires Initial(s)
    ensures Listed(s.log.trace)
  {
    hide Constraints;
  }

  // ---- where session grants come from ----

  /** The `k`-th session grant that `exchange_login_grant` handed out comes from the
      `i`-th `start_login` by way of the `j`-th created session: its device is the one
      registered for that login's device key, its user the one provisioned from the
      claims of that login, and from the start to the exchange less time passed than the
      two time-to-live settings together. */
  ghost predicate ComesFrom(c: Settings, s: System, k: nat, i: nat, j: nat) {
    var h := s.log.trace;
    k < |h.delivered| && i < |h.begun| && j < |h.created| &&
    var d, o, start := h.delivered[k], h.created[j].origin, h.begun[i].start;
    && h.created[j].token == d.token && o.state == h.begun[i].state
    && d.principal.session == o.session && d.principal.user == o.user && d.principal.device == o.device
    && Provisioned(s.db, o.identity, o.user)
    && IsDevice(s.db, o.user, Fingerprint(start.deviceKey), o.device)
    && SessionOf(s.db, d.token, o)
    && start.at <= o.at && d.at - start.at < c.flowTtl + c.grantTtl
  }

  lemma DeliveryComesFrom(c: Settings, s: System, k: nat) returns (i: nat, j: nat)
    requires Reachable(c, s) && Configured(c) && k < |s.log.trace.delivered|
    ensures ComesFrom(c, s, k, i, j)
  {
    hide Reachable, Traced, Drawn, Listed, DeliveryTraced, OriginTraced, ComesFrom, PlacedAt, Opened;
    ReachableTraced(c, s);
    ReachableLists(c, s);
    var h := s.log.trace;
    var token := h.delivered[k].token;
    TheDelivery(c, s.db, h, s.logins, s.redemptions, k);
    i, j := Places(h, token);
    PlacedDelivery(c, s, k, token, i, j);
  }

  lemma TheDelivery(c: Settings, t: Tables, h: Trace, logins: map<nat, Login>, redemptions: map<nat, Redemption>,
                    k: nat)
    requires Traced(c, t, h, logins, redemptions) && k < |h.delivered|
    ensures DeliveryTraced(c, t, h, k, h.delivered[k]) && Opened(h, h.delivered[k].token)
    ensures OriginTraced(c, t, h, h.delivered[k].token, h.origins[h.delivered[k].token])
  {
    hide FlowTraced, LoginTraced, GrantTraced, IsDevice, SessionOf;
    assert DeliveryTraced(c, t, h, k, h.delivered[k]);
    assert OriginTraced(c, t, h, h.delivered[k].token, h.origins[h.delivered[k].token]);
  }

  predicate Opened(h: Trace, token: string) {
    token in h.origins && h.origins[token].state in h.starts
  }

  /** Where the start and the creation of a session are in the lists. */
  predicate PlacedAt(h: Trace, token: string, i: nat, j: nat)
    requires Opened(h, token)
  {
    var state := h.origins[token].state;
    && i < |h.begun| && h.begun[i] == Beginning(state, h.starts[state])
    && j < |h.created| && h.created[j] == Creation(token, h.origins[token])
  }

  lemma Places(h: Trace, token: string) returns (i: nat, j: nat)
    requires Listed(h) && Opened(h, token)
    ensures PlacedAt(h, token, i, j)
  {
    var state := h.origins[token].state;
    i :| 0 <= i < |h.begun| && h.begun[i] == Beginning(state, h.starts[state]);
    j :| 0 <= j < |h.created| && h.created[j] == Creation(token, h.origins[token]);
  }

  lemma PlacedDelivery(c: Settings, s: System, k: nat, token: string, i: nat, j: nat)
    requires k < |s.log.trace.delivered| && token == s.log.trace.delivered[k].token
    requires DeliveryTraced(c, s.db, s.log.trace, k, s.log.trace.delivered[k])
    requires Opened(s.log.trace, token) && PlacedAt(s.log.trace, token, i, j)
    requires OriginTraced(c, s.db, s.log.trace, token, s.log.trace.origins[token])
    ensures ComesFrom(c, s, k, i, j)
  {
    hide IsDevice, Provisioned;
  }

  /** Every delivery comes from exactly one start, by way of exactly one session. */
  lemma EveryDeliveryHasOneStart(c: Settings, s: System, k: nat)
    requires Reachable(c, s) && Configured(c) && k < |s.log.trace.delivered|
    ensures exists i: nat, j: nat :: ComesFrom(c, s, k, i, j)
    ensures forall i: nat, j: nat, i': nat, j': nat ::
              ComesFrom(c, s, k, i, j) && ComesFrom(c, s, k, i', j') ==> i == i' && j == j'
    ensures forall i: nat, j: nat :: ComesFrom(c, s, k, i, j) ==>
              s.log.trace.delivered[k].at - s.log.trace.begun[i].start.at < 720
  {
    var i, j := DeliveryComesFrom(c, s, k);
    ReachableLists(c, s);
    hide Reachable, Provisioned, IsDevice, SessionOf;
  }

  /** And no start leads to two session grants. */
  lemma StartsDeliverOnce(c: Settings, s: System, k: nat, k': nat, i: nat, j: nat, j': nat)
    requires Reachable(c, s) && Configured(c)
    requires ComesFrom(c, s, k, i, j) && ComesFrom(c, s, k', i, j')
    ensures k == k'
  {
    hide *;
    ReachableTraced(c, s);
    ReachableLists(c, s);
    DeliveredNow(c, s, k, i, j);
    DeliveredNow(c, s, k', i, j');
    OnePhase(s.log.trace, s.log.trace.begun[i].state, k, k');
  }

  lemma OnePhase(h: Trace, state: string, k: nat, k': nat)
    requires At(h, state, Delivered(k)) && At(h, state, Delivered(k'))
    ensures k == k'
  {}

  // ---- failed logins ----

  predicate FailedAt(h: Trace, state: string) {
    state in h.starts && state in h.phases && h.phases[state] == Failed
  }

  /** No login but this one moves. */
  ghost predicate OnlyMoves(h: Trace, h': Trace, state: string) {
    forall x :: x in h.phases && x != state ==> x in h'.phases && h'.phases[x] == h.phases[x]
  }

  lemma WorkerMoves(c: Settings, s: System, step: Step)
    requires Ready(s, step)
    requires || step.Exchange? || step.Provision? || step.Register? || step.Create? || step.Check? || step.Grant?
             || step.AbortLogin?
    ensures OnlyMoves(s.log.trace, Act(c, s, step).log.trace, s.logins[step.worker].state)
  {
    hide ProvisionIdentity, RegisterDevice, CreateSession, ResolveSession, Required, PutGrant;
  }

  lemma CallbackMoves(c: Settings, s: System, w: nat, state: string, code: string)
    ensures var s' := DoBeginComplete(c, s, w, state, code);
            if FlowLive(s.db, Fingerprint(state), s.clock) then OnlyMoves(s.log.trace, s'.log.trace, state)
            else s'.log.trace == s.log.trace
  {
    hide FlowUsable;
  }

  lemma RedemptionMoves(s: System, w: nat)
    requires w in s.redemptions
    ensures var h, token := s.log.trace, s.redemptions[w].token;
            token in h.origins ==>
              && OnlyMoves(h, DoFinishRedeem(s, w).log.trace, h.origins[token].state)
              && OnlyMoves(h, FailRedeem(s, w).log.trace, h.origins[token].state)
  {
    hide ResolveSession;
  }

  lemma GrantMoves(s: System, w: nat, code: string)
    ensures var h, h' := s.log.trace, DoBeginRedeem(s, w, code).log.trace;
            if !GrantLive(s.db, Fingerprint(code), s.clock) then h' == h
            else
              var payload := s.db.grants[Fingerprint(code)].payload.payload;
              "session_token" in payload && payload["session_token"] in h.origins ==>
                OnlyMoves(h, h', h.origins[payload["session_token"]].state)
  {}

  lemma StartMoves(c: Settings, s: System, state: string, verifier: string, nonce: string, key: string,
                   platform: string)
    ensures OnlyMoves(s.log.trace, DoStartLogin(c, s, state, verifier, nonce, key, platform).log.trace, state)
  {
    hide PutFlow, FlowPayload;
  }

  lemma RequestMoves(c: Settings, s: System, step: Step)
    requires Ready(s, step)
    requires step.Authenticate? || step.Logout? || step.RevokeDevice? || step.IssueTicket? || step.ConsumeTicket?
    ensures Act(c, s, step).log.trace == s.log.trace
  {
    hide ResolveSession;
  }

  lemma TheFlow(c: Settings, t: Tables, h: Trace, logins: map<nat, Login>, redemptions: map<nat, Redemption>,
                state: string)
    requires Traced(c, t, h, logins, redemptions) && Fingerprint(state) in t.flows
    ensures At(h, state, Pending)
  {
    hide LoginTraced, OriginTraced, GrantTraced;
    assert FlowTraced(c, h, state, t.flows[Fingerprint(state)]);
  }

  lemma StaysFailed(h: Trace, h': Trace, state: string, other: string)
    requires FailedAt(h, state) && OnlyMoves(h, h', other) && state != other && state in h'.starts
    ensures FailedAt(h', state)
  {}

  lemma StartsStay(c: Settings, s: System, step: Step, state: string)
    requires Ready(s, step) && state in s.log.trace.starts
    ensures state in Act(c, s, step).log.trace.starts
  {
    if step.StartLogin? || step.Create? {
      hide PutFlow, FlowPayload, CreateSession;
    } else {
      OthersListNothing(c, s, step);
      hide Act, Ready;
    }
  }

  lemma NotFailed(h: Trace, state: string, other: string, phase: Phase)
    requires FailedAt(h, state) && At(h, other, phase) && !phase.Failed?
    ensures state != other
  {}

  lemma FailedStaysWorker(c: Settings, s: System, step: Step, state: string)
    requires TracedInv(c, s) && Ready(s, step) && FailedAt(s.log.trace, state)
    requires || step.Exchange? || step.Provision? || step.Register? || step.Create? || step.Check? || step.Grant?
             || step.AbortLogin?
    ensures FailedAt(Act(c, s, step).log.trace, state)
  {
    hide Act, OnlyMoves, FailedAt, At, Traced, Drawn;
    var h, w := s.log.trace, step.worker;
    WorkerMoves(c, s, step);
    FailedStarted(h, state);
    StartsStay(c, s, step, state);
    TheLogin(c, s.db, h, s.logins, s.redemptions, w);
    NotFailed(h, state, s.logins[w].state, InFlight(w));
    StaysFailed(h, Act(c, s, step).log.trace, state, s.logins[w].state);
  }

  lemma FailedStaysCallback(c: Settings, s: System, w: nat, state: string, code: string, failed: string)
    requires TracedInv(c, s) && Ready(s, BeginComplete(w, state, code)) && FailedAt(s.log.trace, failed)
    ensures FailedAt(DoBeginComplete(c, s, w, state, code).log.trace, failed)
  {
    hide DoBeginComplete, OnlyMoves, FailedAt, At, Traced, Drawn;
    var h := s.log.trace;
    CallbackMoves(c, s, w, state, code);
    FailedStarted(h, failed);
    StartsStay(c, s, BeginComplete(w, state, code), failed);
    if FlowLive(s.db, Fingerprint(state), s.clock) {
      TheFlow(c, s.db, h, s.logins, s.redemptions, state);
      NotFailed(h, failed, state, Pending);
      StaysFailed(h, DoBeginComplete(c, s, w, state, code).log.trace, failed, state);
    }
  }

  lemma FailedStarted(h: Trace, state: string)
    requires FailedAt(h, state)
    ensures state in h.starts
  {}

  lemma FailedStaysGrant(c: Settings, s: System, w: nat, code: string, failed: string)
    requires TracedInv(c, s) && Ready(s, BeginRedeem(w, code)) && FailedAt(s.log.trace, failed)
    ensures FailedAt(DoBeginRedeem(s, w, code).log.trace, failed)
  {
    hide DoBeginRedeem, OnlyMoves, FailedAt, At, Traced, Drawn;
    var h := s.log.trace;
    GrantMoves(s, w, code);
    FailedStarted(h, failed);
    StartsStay(c, s, BeginRedeem(w, code), failed);
    if GrantLive(s.db, Fingerprint(code), s.clock) {
      TheGrant(c, s.db, h, s.logins, s.redemptions, code);
      var token := s.db.grants[Fingerprint(code)].payload.payload["session_token"];
      NotFailed(h, failed, h.origins[token].state, Granted(code));
      StaysFailed(h, DoBeginRedeem(s, w, code).log.trace, failed, h.origins[token].state);
    }
  }

  lemma FailedStaysRedemption(c: Settings, s: System, w: nat, failed: string)
    requires TracedInv(c, s) && w in s.redemptions && FailedAt(s.log.trace, failed)
    ensures FailedAt(DoFinishRedeem(s, w).log.trace, failed) && FailedAt(FailRedeem(s, w).log.trace, failed)
  {
    hide DoFinishRedeem, FailRedeem, OnlyMoves, FailedAt, At, Traced, Drawn, OriginTraced;
    var h, token := s.log.trace, s.redemptions[w].token;
    RedemptionMoves(s, w);
    FailedStarted(h, failed);
    StartsStay(c, s, FinishRedeem(w), failed);
    StartsStay(c, s, AbortRedeem(w), failed);
    TheRedemption(c, s.db, h, s.logins, s.redemptions, w);
    NotFailed(h, failed, h.origins[token].state, Redeeming(w));
    StaysFailed(h, DoFinishRedeem(s, w).log.trace, failed, h.origins[token].state);
    StaysFailed(h, FailRedeem(s, w).log.trace, failed, h.origins[token].state);
  }

  lemma FailedStaysStart(c: Settings, s: System, step: Step, failed: string)
    requires TracedInv(c, s) && Ready(s, step) && step.StartLogin? && FailedAt(s.log.trace, failed)
    ensures FailedAt(Act(c, s, step).log.trace, failed)
  {
    StartMoves(c, s, step.state, step.verifier, step.nonce, step.deviceKey, step.platform);
    StartsStay(c, s, step, failed);
    hide DoStartLogin, OnlyMoves, Traced;
    assert failed in s.drawn && step.state !in s.drawn;
    StaysFailed(s.log.trace, Act(c, s, step).log.trace, failed, step.state);
  }

  /** A step moves a login only out of the phase that holds what the step uses. */
  lemma FailedStays(c: Settings, s: System, step: Step, state: string)
    requires TracedInv(c, s) && Ready(s, step) && FailedAt(s.log.trace, state)
    ensures FailedAt(Act(c, s, step).log.trace, state)
  {
    hide TracedInv, FailedAt, DoStartLogin, DoBeginComplete, DoExchange, DoProvision, DoRegister, DoCreate, DoCheck,
      DoGrant, FailLogin, DoBeginRedeem, DoFinishRedeem, FailRedeem, DoAuthenticate, DoIssueTicket, DoConsumeTicket;
    match step
    case StartLogin(_, _, _, _, _) => FailedStaysStart(c, s, step, state);
    case BeginComplete(w, callback, code) => FailedStaysCallback(c, s, w, callback, code, state);
    case Exchange(_, _) => FailedStaysWorker(c, s, step, state);
    case Provision(_, _) => FailedStaysWorker(c, s, step, state);
    case Register(_, _) => FailedStaysWorker(c, s, step, state);
    case Create(_, _, _) => FailedStaysWorker(c, s, step, state);
    case Check(_) => FailedStaysWorker(c, s, step, state);
    case Grant(_, _) => FailedStaysWorker(c, s, step, state);
    case AbortLogin(_) => FailedStaysWorker(c, s, step, state);
    case BeginRedeem(w, code) => FailedStaysGrant(c, s, w, code, state);
    case FinishRedeem(w) => FailedStaysRedemption(c, s, w, state);
    case AbortRedeem(w) => FailedStaysRedemption(c, s, w, state);
    case Authenticate(_) => RequestMoves(c, s, step);
    case Logout(_) => RequestMoves(c, s, step);
    case RevokeDevice(_, _) => RequestMoves(c, s, step);
    case IssueTicket(_, _, _) => RequestMoves(c, s, step);
    case ConsumeTicket(_, _) => RequestMoves(c, s, step);
  }

  lemma {:induction false} RunKeepsFailed(c: Settings, s: System, run: seq<Timed>, state: string)
    requires Inv(s) && TracedInv(c, s) && Configured(c) && Runs(c, s, run) && FailedAt(s.log.trace, state)
    ensures FailedAt(Run(c, s, run).log.trace, state) && TracedInv(c, Run(c, s, run))
    decreases |run|
  {
    hide Healthy, Traced, Drawn, Act, Ready, FailedAt;
    if run != [] {
      var e := run[0];
      StepKeeps(c, s, e);
      InvConstraints(s);
      ActTraced(c, s.(clock := e.now), e.step);
      FailedStays(c, s.(clock := e.now), e.step, state);
      RunKeepsFailed(c, Next(c, s, e), run[1..], state);
    }
  }

  /** A login that failed never delivers a session grant, whatever runs next. */
  lemma FailedNeverDelivers(c: Settings, s: System, run: seq<Timed>, state: string, k: nat, i: nat, j: nat)
    requires Reachable(c, s) && Configured(c) && Runs(c, s, run) && FailedAt(s.log.trace, state)
    ensures FailedAt(Run(c, s, run).log.trace, state)
    ensures ComesFrom(c, Run(c, s, run), k, i, j) ==> Run(c, s, run).log.trace.begun[i].state != state
  {
    hide *;
    var s' := Run(c, s, run);
    ReachableInv(c, s);
    ReachableTraced(c, s);
    RunKeepsFailed(c, s, run, state);
    RunReaches(c, s, run);
    ReachableLists(c, s');
    if ComesFrom(c, s', k, i, j) {
      DeliveredNow(c, s', k, i, j);
      NotFailed(s'.log.trace, state, s'.log.trace.begun[i].state, Delivered(k));
    }
  }

  /** What a run reaches from a reachable state is reachable. */
  lemma RunReaches(c: Settings, s: System, run: seq<Timed>)
    requires Reachable(c, s) && Runs(c, s, run)
    ensures Reachable(c, Run(c, s, run))
  {
    hide Initial;
    var start, before :| Initial(start) && Runs(c, start, before) && Run(c, start, before) == s;
    RunConcat(c, start, before, run);
  }

  lemma {:induction false} RunConcat(c: Settings, s: System, a: seq<Timed>, b: seq<Timed>)
    requires Runs(c, s, a) && Runs(c, Run(c, s, a), b)
    ensures Runs(c, s, a + b) && Run(c, s, a + b) == Run(c, Run(c, s, a), b)
    decreases |a|
  {
    hide Enabled, Next;
    if a == [] {
      assert a + b == b;
    } else {
      assert (a + b)[0] == a[0] && (a + b)[1..] == a[1..] + b;
      RunConcat(c, Next(c, s, a[0]), a[1..], b);
    }
  }

  /** The login of a delivery stands at that delivery. */
  lemma DeliveredNow(c: Settings, s: System, k: nat, i: nat, j: nat)
    requires TracedInv(c, s) && Listed(s.log.trace) && ComesFrom(c, s, k, i, j)
    ensures k < |s.log.trace.delivered| && i < |s.log.trace.begun|
    ensures At(s.log.trace, s.log.trace.begun[i].state, Delivered(k))
  {
    hide Provisioned, IsDevice, SessionOf, FlowTraced, LoginTraced, OriginTraced, GrantTraced;
    var h := s.log.trace;
    assert DeliveryTraced(c, s.db, h, k, h.delivered[k]);
    assert h.origins[h.created[j].token] == h.created[j].origin;
  }
}
