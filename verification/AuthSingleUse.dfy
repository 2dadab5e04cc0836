/**
 Single use of OIDC states, login grants and WebSocket tickets over whole runs, and
 the exact account of all logins.
 */
module AuthSingleUse {
  import opened Options
  import opened AuthTables
  import opened AuthTransactions
  import opened AuthProtocol
  import opened AuthSafety

  // ---- the invariant ----

  function SecretOf(x: Spent): string {
    match x
    case FlowSpent(state) => state
    case GrantSpent(code) => code
    case TicketSpent(ticket) => ticket
  }

  ghost predicate NoRepeats(spent: seq<Spent>) {
    forall i, j :: 0 <= i < j < |spent| ==> spent[i] != spent[j]
  }

  /** A secret that was spent has no row any more, and every secret with a row was drawn. */
  ghost predicate SpentOnce(flows: map<Fingerprint, FlowRow>, grants: map<Fingerprint, GrantRow>,
                            tickets: map<Fingerprint, TicketRow>, spent: seq<Spent>, drawn: set<string>) {
    && NoRepeats(spent)
    && (forall x :: x in spent ==> SecretOf(x) in drawn)
    && (forall fp :: fp in flows ==> fp.secret in drawn && FlowSpent(fp.secret) !in spent)
    && (forall fp :: fp in grants ==> fp.secret in drawn && GrantSpent(fp.secret) !in spent)
    && (forall fp :: fp in tickets ==> fp.secret in drawn && TicketSpent(fp.secret) !in spent)
  }

  /** Every started login is pending, in a worker, failed or completed; every completed
      one is granted, in a worker, failed or delivered. */
  predicate Balanced(n: Tally, pending: nat, logins: nat, granted: nat, redemptions: nat, delivered: nat) {
    && n.started == pending + n.flowsSpent
    && n.flowsSpent == logins + n.loginsFailed + n.completed
    && n.completed == granted + n.grantsSpent
    && n.grantsSpent == redemptions + n.redemptionsFailed + delivered
  }

  ghost predicate Accounts(s: System) {
    && SpentOnce(s.db.flows, s.db.grants, s.db.tickets, s.log.spent, s.drawn)
    && Balanced(s.log.tally, |s.db.flows|, |s.logins|, |s.db.grants|, |s.redemptions|, |s.log.trace.delivered|)
  }

  // ---- drawing and spending ----

  /** A fresh secret that is drawn now was not spent before, whatever it is used for. */
  lemma DrawOne(flows: map<Fingerprint, FlowRow>, grants: map<Fingerprint, GrantRow>,
                tickets: map<Fingerprint, TicketRow>, spent: seq<Spent>, drawn: set<string>, secret: string)
    requires SpentOnce(flows, grants, tickets, spent, drawn) && secret !in drawn
    ensures SpentOnce(flows, grants, tickets, spent, drawn + {secret})
    ensures forall row {:trigger flows[Fingerprint(secret) := row]} ::
              SpentOnce(flows[Fingerprint(secret) := row], grants, tickets, spent, drawn + {secret})
    ensures forall row {:trigger grants[Fingerprint(secret) := row]} ::
              SpentOnce(flows, grants[Fingerprint(secret) := row], tickets, spent, drawn + {secret})
    ensures forall row {:trigger tickets[Fingerprint(secret) := row]} ::
              SpentOnce(flows, grants, tickets[Fingerprint(secret) := row], spent, drawn + {secret})
  {}

  lemma SpendFlow(flows: map<Fingerprint, FlowRow>, grants: map<Fingerprint, GrantRow>,
                  tickets: map<Fingerprint, TicketRow>, spent: seq<Spent>, drawn: set<string>, fp: Fingerprint)
    requires SpentOnce(flows, grants, tickets, spent, drawn) && fp in flows
    ensures SpentOnce(flows - {fp}, grants, tickets, spent + [FlowSpent(fp.secret)], drawn)
  {}

  lemma SpendGrant(flows: map<Fingerprint, FlowRow>, grants: map<Fingerprint, GrantRow>,
                   tickets: map<Fingerprint, TicketRow>, spent: seq<Spent>, drawn: set<string>, fp: Fingerprint)
    requires SpentOnce(flows, grants, tickets, spent, drawn) && fp in grants
    ensures SpentOnce(flows, grants - {fp}, tickets, spent + [GrantSpent(fp.secret)], drawn)
  {}

  lemma SpendTicket(flows: map<Fingerprint, FlowRow>, grants: map<Fingerprint, GrantRow>,
                    tickets: map<Fingerprint, TicketRow>, spent: seq<Spent>, drawn: set<string>, fp: Fingerprint)
    requires SpentOnce(flows, grants, tickets, spent, drawn) && fp in tickets
    ensures SpentOnce(flows, grants, tickets - {fp}, spent + [TicketSpent(fp.secret)], drawn)
  {}

  lemma OneLess<K, V>(m: map<K, V>, k: K)
    requires k in m
    ensures |m - {k}| == |m| - 1
  {
    assert (m - {k}).Keys == m.Keys - {k};
  }

  lemma OneMore<K, V>(m: map<K, V>, k: K, v: V)
    ensures |m[k := v]| == if k in m then |m| else |m| + 1
  {
    assert m[k := v].Keys == m.Keys + {k};
  }

  // ---- what the steps do to it ----

  lemma StartLoginAccounts(c: Settings, s: System, state: string, verifier: string, nonce: string, key: string,
                           platform: string)
    requires Accounts(s) && Fresh(s, state)
    ensures Accounts(DoStartLogin(c, s, state, verifier, nonce, key, platform))
  {
    hide SpentOnce;
    DrawOne(s.db.flows, s.db.grants, s.db.tickets, s.log.spent, s.drawn, state);
  }

  lemma BeginCompleteEffect(c: Settings, s: System, w: nat, state: string, code: string)
    requires w !in s.logins
    ensures var s' := DoBeginComplete(c, s, w, state, code);
            var n := s.log.tally.(flowsSpent := s.log.tally.flowsSpent + 1);
            if state == "" || code == "" || !FlowLive(s.db, Fingerprint(state), s.clock) then s' == s else
              && s'.db == s.db.(flows := s.db.flows - {Fingerprint(state)})
              && s'.drawn == s.drawn && s'.redemptions == s.redemptions
              && s'.log.spent == s.log.spent + [FlowSpent(state)]
              && s'.log.trace.delivered == s.log.trace.delivered
              && if FlowUsable(c, s.db.flows[Fingerprint(state)])
                 then |s'.logins| == |s.logins| + 1 && s'.log.tally == n
                 else s'.logins == s.logins && s'.log.tally == n.(loginsFailed := n.loginsFailed + 1)
  {
    hide FlowUsable;
    if state != "" && code != "" && FlowLive(s.db, Fingerprint(state), s.clock) {
      OneMore(s.logins, w, Login(state, s.db.flows[Fingerprint(state)].payload.payload, s.clock, AtExchange));
    }
  }

  lemma BeginCompleteAccounts(c: Settings, s: System, w: nat, state: string, code: string)
    requires Accounts(s) && w !in s.logins
    ensures Accounts(DoBeginComplete(c, s, w, state, code))
  {
    hide SpentOnce, FlowUsable, DoBeginComplete;
    BeginCompleteEffect(c, s, w, state, code);
    if FlowLive(s.db, Fingerprint(state), s.clock) {
      OneLess(s.db.flows, Fingerprint(state));
      SpendFlow(s.db.flows, s.db.grants, s.db.tickets, s.log.spent, s.drawn, Fingerprint(state));
    }
  }

  lemma FailLoginAccounts(s: System, w: nat)
    requires Accounts(s) && w in s.logins
    ensures Accounts(FailLogin(s, w))
  {
    hide SpentOnce;
  }

  lemma ExchangeAccounts(c: Settings, s: System, w: nat, claims: Option<Claims>)
    requires Accounts(s) && w in s.logins
    ensures Accounts(DoExchange(c, s, w, claims))
  {
    hide SpentOnce;
  }

  lemma ProvisionAccounts(s: System, w: nat, newUser: Id)
    requires Accounts(s) && w in s.logins && s.logins[w].pc.AtProvision?
    ensures Accounts(DoProvision(s, w, newUser))
  {
    hide SpentOnce, EmailTaken;
  }

  lemma RegisterAccounts(s: System, w: nat, newDevice: Id)
    requires Accounts(s) && w in s.logins && s.logins[w].pc.AtRegister?
    ensures Accounts(DoRegister(s, w, newDevice))
  {
    hide SpentOnce, RegisterDevice;
    var login := s.logins[w];
    if Required(login.payload, "device_key").Some? && Required(login.payload, "platform").Some? {
      RegisterOnlyDevices(s.db, login.pc.user, Fingerprint(Required(login.payload, "device_key").value),
                          Required(login.payload, "platform").value, login.now, newDevice);
    }
    hide Required;
  }

  lemma CreateAccounts(c: Settings, s: System, w: nat, token: string, newSession: Id)
    requires Accounts(s) && w in s.logins && s.logins[w].pc.AtCreate? && Fresh(s, token)
    ensures Accounts(DoCreate(c, s, w, token, newSession))
  {
    hide SpentOnce, TokenTaken;
    DrawOne(s.db.flows, s.db.grants, s.db.tickets, s.log.spent, s.drawn, token);
  }

  lemma CheckAccounts(s: System, w: nat)
    requires Accounts(s) && w in s.logins && s.logins[w].pc.AtCheck?
    ensures Accounts(DoCheck(s, w))
  {
    hide SpentOnce, ResolveSession;
  }

  lemma GrantAccounts(c: Settings, s: System, w: nat, code: string)
    requires Accounts(s) && w in s.logins && s.logins[w].pc.AtGrant? && Fresh(s, code)
    ensures Accounts(DoGrant(c, s, w, code))
  {
    hide SpentOnce;
    OneLess(s.logins, w);
    DrawOne(s.db.flows, s.db.grants, s.db.tickets, s.log.spent, s.drawn, code);
  }

  lemma RephaseKeepsDelivered(h: Trace)
    ensures forall token, phase :: Rephase(h, token, phase).delivered == h.delivered
  {}

  lemma BeginRedeemEffect(s: System, w: nat, code: string)
    requires w !in s.redemptions
    ensures var s' := DoBeginRedeem(s, w, code);
            var n := s.log.tally.(grantsSpent := s.log.tally.grantsSpent + 1);
            if code == "" || !GrantLive(s.db, Fingerprint(code), s.clock) then s' == s else
              && s'.db == s.db.(grants := s.db.grants - {Fingerprint(code)})
              && s'.drawn == s.drawn && s'.logins == s.logins
              && s'.log.spent == s.log.spent + [GrantSpent(code)]
              && s'.log.trace.delivered == s.log.trace.delivered
              && (|| (|s'.redemptions| == |s.redemptions| + 1 && s'.log.tally == n)
                  || (s'.redemptions == s.redemptions
                      && s'.log.tally == n.(redemptionsFailed := n.redemptionsFailed + 1)))
  {
    hide Rephase, Open, Required;
    RephaseKeepsDelivered(s.log.trace);
    if code != "" && GrantLive(s.db, Fingerprint(code), s.clock) {
      var payload := Open(s.db.grants[Fingerprint(code)].payload, GrantPurpose);
      if payload.Some? && Required(payload.value, "session_token").Some? {
        OneMore(s.redemptions, w, Redemption(Required(payload.value, "session_token").value, s.clock));
      }
    }
  }

  lemma BeginRedeemAccounts(s: System, w: nat, code: string)
    requires Accounts(s) && w !in s.redemptions
    ensures Accounts(DoBeginRedeem(s, w, code))
  {
    hide SpentOnce, DoBeginRedeem;
    BeginRedeemEffect(s, w, code);
    if GrantLive(s.db, Fingerprint(code), s.clock) {
      OneLess(s.db.grants, Fingerprint(code));
      SpendGrant(s.db.flows, s.db.grants, s.db.tickets, s.log.spent, s.drawn, Fingerprint(code));
    }
  }

  lemma FailRedeemAccounts(s: System, w: nat)
    requires Accounts(s) && w in s.redemptions
    ensures Accounts(FailRedeem(s, w))
  {
    hide SpentOnce;
  }

  lemma FinishRedeemAccounts(s: System, w: nat)
    requires Accounts(s) && w in s.redemptions
    ensures Accounts(DoFinishRedeem(s, w))
  {
    hide SpentOnce, ResolveSession;
  }

  lemma AuthenticateAccounts(s: System, token: string)
    requires Accounts(s)
    ensures Accounts(DoAuthenticate(s, token))
  {
    hide SpentOnce, ResolveSession;
  }

  lemma RevocationAccounts(s: System, t: Tables)
    requires Accounts(s) && t.flows == s.db.flows && t.grants == s.db.grants && t.tickets == s.db.tickets
    ensures Accounts(s.(db := t))
  {
    hide SpentOnce;
  }

  lemma IssueTicketAccounts(c: Settings, s: System, p: Principal, channel: string, ticket: string)
    requires Accounts(s) && Fresh(s, ticket)
    ensures Accounts(DoIssueTicket(c, s, p, channel, ticket))
  {
    hide SpentOnce;
    DrawOne(s.db.flows, s.db.grants, s.db.tickets, s.log.spent, s.drawn, ticket);
  }

  lemma ConsumeTicketAccounts(s: System, ticket: string, channel: string)
    requires Accounts(s)
    ensures Accounts(DoConsumeTicket(s, ticket, channel))
  {
    hide SpentOnce;
    if TicketLive(s.db, Fingerprint(ticket), channel, s.clock) {
      SpendTicket(s.db.flows, s.db.grants, s.db.tickets, s.log.spent, s.drawn, Fingerprint(ticket));
    }
  }

  lemma ActAccounts(c: Settings, s: System, step: Step)
    requires Accounts(s) && Ready(s, step)
    ensures Accounts(Act(c, s, step))
  {
    hide Accounts, DoStartLogin, DoBeginComplete, DoExchange, DoProvision, DoRegister, DoCreate, DoCheck, DoGrant,
      FailLogin,
      DoBeginRedeem, DoFinishRedeem, FailRedeem, DoAuthenticate, DoIssueTicket, DoConsumeTicket;
    match step
    case StartLogin(state, verifier, nonce, key, platform) =>
      StartLoginAccounts(c, s, state, verifier, nonce, key, platform);
    case BeginComplete(w, state, code) => BeginCompleteAccounts(c, s, w, state, code);
    case Exchange(w, claims) => ExchangeAccounts(c, s, w, claims);
    case Provision(w, newUser) => ProvisionAccounts(s, w, newUser);
    case Register(w, newDevice) => RegisterAccounts(s, w, newDevice);
    case Create(w, token, newSession) => CreateAccounts(c, s, w, token, newSession);
    case Check(w) => CheckAccounts(s, w);
    case Grant(w, code) => GrantAccounts(c, s, w, code);
    case AbortLogin(w) => FailLoginAccounts(s, w);
    case BeginRedeem(w, code) => BeginRedeemAccounts(s, w, code);
    case FinishRedeem(w) => FinishRedeemAccounts(s, w);
    case AbortRedeem(w) => FailRedeemAccounts(s, w);
    case Authenticate(token) => AuthenticateAccounts(s, token);
    case Logout(p) => RevocationAccounts(s, RevokeSession(s.db, p.session, s.clock));
    case RevokeDevice(p, d) => RevocationAccounts(s, AuthTables.RevokeDevice(s.db, p.user, d, s.clock).0);
    case IssueTicket(p, channel, ticket) => IssueTicketAccounts(c, s, p, channel, ticket);
    case ConsumeTicket(ticket, channel) => ConsumeTicketAccounts(s, ticket, channel);
  }

  // ---- whole runs ----

  /** Nothing that was spent is ever forgotten. */
  lemma ActRemembers(c: Settings, s: System, step: Step)
    requires Ready(s, step)
    ensures s.log.spent <= Act(c, s, step).log.spent
  {
    hide EmailTaken, IsDevice, TokenTaken, ResolveSession, FlowUsable;
  }

  lemma {:induction false} RunAccounts(c: Settings, s: System, run: seq<Timed>)
    requires Accounts(s) && Runs(c, s, run)
    ensures Accounts(Run(c, s, run)) && s.log.spent <= Run(c, s, run).log.spent
    decreases |run|
  {
    hide SpentOnce, Act, Ready;
    if run != [] {
      var e := run[0];
      ActAccounts(c, s.(clock := e.now), e.step);
      ActRemembers(c, s.(clock := e.now), e.step);
      RunAccounts(c, Next(c, s, e), run[1..]);
    }
  }

  lemma InitialAccounts(s: System)
    requires Initial(s)
    ensures Accounts(s)
  {
    hide Constraints;
  }

  lemma ReachableAccounts(c: Settings, s: System)
    requires Reachable(c, s)
    ensures Accounts(s)
  {
    hide Accounts, Initial;
    var start, run :| Initial(start) && Runs(c, start, run) && Run(c, start, run) == s;
    InitialAccounts(start);
    RunAccounts(c, start, run);
  }

  /** No state, grant code or ticket is consumed twice in a run. */
  lemma NothingSpentTwice(c: Settings, s: System)
    requires Reachable(c, s)
    ensures forall i, j :: 0 <= i < j < |s.log.spent| ==> s.log.spent[i] != s.log.spent[j]
  {
    ReachableAccounts(c, s);
  }

  /** Exchanges never outnumber completed logins, nor these the started ones: the
      differences are exactly the logins pending, in progress or failed. */
  lemma LoginsBalance(c: Settings, s: System)
    requires Reachable(c, s)
    ensures |s.log.trace.delivered| <= s.log.tally.completed <= s.log.tally.started
    ensures s.log.tally.started == |s.log.trace.delivered| + |s.db.flows| + |s.logins| + |s.db.grants| + |s.redemptions|
                                   + s.log.tally.loginsFailed + s.log.tally.redemptionsFailed
  {
    ReachableAccounts(c, s);
  }

  predicate Consumable(t: Tables, x: Spent, channel: string, now: Time) {
    match x
    case FlowSpent(state) => ConsumeFlow(t, Fingerprint(state), now).1.Some?
    case GrantSpent(code) => ConsumeGrant(t, Fingerprint(code), now).1.Some?
    case TicketSpent(ticket) => AuthTables.ConsumeTicket(t, Fingerprint(ticket), channel, now).1.Some?
  }

  /** What was consumed once can never be consumed again, at any time and on any channel. */
  lemma SpentStaysSpent(c: Settings, s: System, run: seq<Timed>, x: Spent, channel: string, now: Time)
    requires Reachable(c, s) && x in s.log.spent && Runs(c, s, run)
    ensures !Consumable(Run(c, s, run).db, x, channel, now)
  {
    ReachableAccounts(c, s);
    RunAccounts(c, s, run);
    hide Reachable, Runs, Run;
    var s' := Run(c, s, run);
    assert x in s'.log.spent;
  }

  /** A callback that finds its flow spends the state for good. Whatever runs afterwards,
      whether the rest of `complete_login` succeeds, fails or never happens, no later
      callback finds that flow, at any time. */
  lemma CallbackSpendsState(c: Settings, s: System, e: Timed, run: seq<Timed>, later: Time)
    requires Reachable(c, s) && Enabled(s, e) && e.step.BeginComplete?
    requires e.step.state != "" && e.step.code != "" && FlowLive(s.db, Fingerprint(e.step.state), e.now)
    requires Runs(c, Next(c, s, e), run)
    ensures ConsumeFlow(Run(c, Next(c, s, e), run).db, Fingerprint(e.step.state), later).1.None?
  {
    var state := e.step.state;
    var s' := Next(c, s, e);
    ReachableAccounts(c, s);
    hide Reachable, Runs, Run, SpentOnce, DoBeginComplete;
    BeginCompleteAccounts(c, s.(clock := e.now), e.step.worker, state, e.step.code);
    BeginCompleteEffect(c, s.(clock := e.now), e.step.worker, state, e.step.code);
    assert s'.log.spent[|s.log.spent|] == FlowSpent(state);
    SpentFlowStaysSpent(c, s', run, state, later);
  }

  lemma SpentFlowStaysSpent(c: Settings, s: System, run: seq<Timed>, state: string, later: Time)
    requires Accounts(s) && FlowSpent(state) in s.log.spent && Runs(c, s, run)
    ensures ConsumeFlow(Run(c, s, run).db, Fingerprint(state), later).1.None?
  {
    RunAccounts(c, s, run);
    hide Runs, Run;
    assert FlowSpent(state) in Run(c, s, run).log.spent;
  }
}
