/**
 The login, session, device and ticket protocol as a transition system.

 Any number of service workers run `AuthenticationService` against one database.
 A step is one database transaction (or one answer of the identity provider) of
 one worker, so the steps of different workers interleave freely. A worker that
 is inside `complete_login` or `exchange_login_grant` keeps its local variables
 between its steps, in particular the time `complete_login` read when it began.

 `log` is history: steps only write it, and no step looks at it to decide what to
 do. `drawn` holds every random token handed out so far, for `Fresh`.
 */
module AuthProtocol {
  import opened Channels
  import opened Options
  import opened AuthTables

  datatype Settings = Settings(issuer: string, redirectUri: string, sessionTtl: int, flowTtl: int,
                               grantTtl: int, ticketTtl: int)

  /** The ranges that the configuration loader enforces. */
  predicate Configured(c: Settings) {
    0 < c.sessionTtl <= 86400 && 0 < c.flowTtl <= 600 && 0 < c.grantTtl <= 120 && 0 < c.ticketTtl <= 60
  }

  const PLATFORMS: set<string> := {"macos", "windows", "linux", "ios", "android", "web"}

  /** Where a worker stands inside `complete_login`, with the locals it needs next. */
  datatype Pc =
    | AtExchange
    | AtProvision(identity: Identity)
    | AtRegister(identity: Identity, user: Id)
    | AtCreate(identity: Identity, user: Id, device: Id)
    | AtCheck(token: string)
    | AtGrant(token: string)

  datatype Login = Login(state: string, payload: map<string, string>, now: Time, pc: Pc)
  datatype Redemption = Redemption(token: string, at: Time)

  datatype Start = Start(deviceKey: string, platform: string, at: Time)
  datatype Origin = Origin(state: string, identity: Identity, user: Id, device: Id, session: Id, at: Time)
  datatype Delivery = Delivery(token: string, principal: Principal, at: Time)
  datatype Phase = Pending | InFlight(worker: nat) | Granted(code: string) | Redeeming(worker: nat)
                 | Delivered(index: nat) | Failed
  datatype Spent = FlowSpent(state: string) | GrantSpent(code: string) | TicketSpent(ticket: string)
  datatype Tally = Tally(started: nat, flowsSpent: nat, completed: nat, loginsFailed: nat,
                         grantsSpent: nat, redemptionsFailed: nat)

  datatype Beginning = Beginning(state: string, start: Start)
  datatype Creation = Creation(token: string, origin: Origin)

  /** What happened to logins. `begun` and `created` list every stored `start_login` and
      every created session in order; `starts` and `origins` look them up by state and by
      session token. `phases` says where each login is now, `delivered` lists the session
      grants handed out. */
  datatype Trace = Trace(
    begun: seq<Beginning>,
    created: seq<Creation>,
    starts: map<string, Start>,
    phases: map<string, Phase>,
    origins: map<string, Origin>,
    delivered: seq<Delivery>)

  datatype History = History(trace: Trace, resolved: set<Id>, spent: seq<Spent>, tally: Tally)

  datatype System = System(
    db: Tables,
    clock: Time,
    logins: map<nat, Login>,
    redemptions: map<nat, Redemption>,
    principals: set<Principal>,
    drawn: set<string>,
    log: History)

  datatype Claims = Claims(subject: string, email: string, displayName: string)

  datatype Step =
    | StartLogin(state: string, verifier: string, nonce: string, deviceKey: string, platform: string)
    | BeginComplete(worker: nat, state: string, code: string)
    | Exchange(worker: nat, claims: Option<Claims>)
    | Provision(worker: nat, newUser: Id)
    | Register(worker: nat, newDevice: Id)
    | Create(worker: nat, token: string, newSession: Id)
    | Check(worker: nat)
    | Grant(worker: nat, code: string)
    | AbortLogin(worker: nat)
    | BeginRedeem(worker: nat, code: string)
    | FinishRedeem(worker: nat)
    | AbortRedeem(worker: nat)
    | Authenticate(token: string)
    | Logout(principal: Principal)
    | RevokeDevice(principal: Principal, device: Id)
    | IssueTicket(principal: Principal, channel: string, ticket: string)
    | ConsumeTicket(ticket: string, channel: string)

  datatype Timed = Timed(now: Time, step: Step)

  /** `random_token`: never empty and never drawn before. */
  predicate Fresh(s: System, secret: string) {
    secret != "" && secret !in s.drawn
  }

  /** What the environment grants a step: the clock does not go back, and the step is ready. */
  predicate Enabled(s: System, e: Timed) {
    s.clock <= e.now && Ready(s.(clock := e.now), e.step)
  }

  /** New tokens are fresh, a worker is where the step needs it, and a request handler
      acts for a principal that authentication once returned. */
  predicate Ready(s: System, step: Step) {
    match step
    case StartLogin(state, verifier, nonce, _, _) => Fresh(s, state) && verifier != "" && nonce != ""
    case BeginComplete(w, _, _) => w !in s.logins
    case Exchange(w, _) => w in s.logins && s.logins[w].pc.AtExchange?
    case Provision(w, _) => w in s.logins && s.logins[w].pc.AtProvision?
    case Register(w, _) => w in s.logins && s.logins[w].pc.AtRegister?
    case Create(w, token, _) => w in s.logins && s.logins[w].pc.AtCreate? && Fresh(s, token)
    case Check(w) => w in s.logins && s.logins[w].pc.AtCheck?
    case Grant(w, code) => w in s.logins && s.logins[w].pc.AtGrant? && Fresh(s, code)
    case AbortLogin(w) => w in s.logins
    case BeginRedeem(w, _) => w !in s.redemptions
    case FinishRedeem(w) => w in s.redemptions
    case AbortRedeem(w) => w in s.redemptions
    case Authenticate(_) => true
    case Logout(p) => p in s.principals
    case RevokeDevice(p, _) => p in s.principals
    case IssueTicket(p, _, ticket) => p in s.principals && Fresh(s, ticket)
    case ConsumeTicket(_, _) => true
  }

  // ---- start_login ----

  function FlowPayload(verifier: string, nonce: string, deviceKey: string, platform: string): map<string, string> {
    map["verifier" := verifier, "nonce" := nonce, "device_key" := deviceKey, "platform" := platform]
  }

  function Started(trace: Trace, state: string, start: Start): Trace {
    trace.(begun := trace.begun + [Beginning(state, start)],
           starts := trace.starts[state := start], phases := trace.phases[state := Pending])
  }

  function MoveTo(trace: Trace, state: string, phase: Phase): Trace {
    trace.(phases := trace.phases[state := phase])
  }

  function DoStartLogin(c: Settings, s: System, state: string, verifier: string, nonce: string,
                        deviceKey: string, platform: string): System {
    if !(8 <= |deviceKey| <= 200) || platform !in PLATFORMS then s else
    var row := FlowRow(Sealed(FlowPurpose, FlowPayload(verifier, nonce, deviceKey, platform)), c.redirectUri,
                       s.clock + c.flowTtl);
    match PutFlow(s.db, Fingerprint(state), row)
    case RolledBack => s
    case Committed(t, _) =>
      s.(db := t, drawn := s.drawn + {state},
         log := s.log.(trace := Started(s.log.trace, state, Start(deviceKey, platform, s.clock)),
                       tally := s.log.tally.(started := s.log.tally.started + 1)))
  }

  // ---- complete_login ----

  function LoginFailed(h: History, state: string): History {
    h.(trace := MoveTo(h.trace, state, Failed),
       tally := h.tally.(loginsFailed := h.tally.loginsFailed + 1))
  }

  /** An exception leaves `complete_login`: the worker is gone, the database stays as it is. */
  function FailLogin(s: System, w: nat): System
    requires w in s.logins
  {
    s.(logins := s.logins - {w}, log := LoginFailed(s.log, s.logins[w].state))
  }

  function Advance(s: System, w: nat, pc: Pc): System
    requires w in s.logins
  {
    s.(logins := s.logins[w := s.logins[w].(pc := pc)])
  }

  function FlowUsed(h: History, state: string): History {
    h.(spent := h.spent + [FlowSpent(state)], tally := h.tally.(flowsSpent := h.tally.flowsSpent + 1))
  }

  /** What `complete_login` checks of a consumed flow before it calls the provider. */
  predicate FlowUsable(c: Settings, row: FlowRow) {
    && row.redirectUri == c.redirectUri
    && Open(row.payload, FlowPurpose).Some?
    && Required(row.payload.payload, "verifier").Some?
    && Required(row.payload.payload, "nonce").Some?
  }

  function DoBeginComplete(c: Settings, s: System, w: nat, state: string, code: string): System {
    if state == "" || code == "" then s else
    var (t, flow) := ConsumeFlow(s.db, Fingerprint(state), s.clock);
    if flow.None? then s else
    var h := FlowUsed(s.log, state);
    if !FlowUsable(c, flow.value) then s.(db := t, log := LoginFailed(h, state))
    else s.(db := t, log := h.(trace := MoveTo(h.trace, state, InFlight(w))),
            logins := s.logins[w := Login(state, flow.value.payload.payload, s.clock, AtExchange)])
  }

  function DoExchange(c: Settings, s: System, w: nat, claims: Option<Claims>): System
    requires w in s.logins
  {
    match claims
    case None => FailLogin(s, w)
    case Some(Claims(subject, email, displayName)) =>
      Advance(s, w, AtProvision(Identity(Subject(c.issuer, subject), email, displayName)))
  }

  ghost function DoProvision(s: System, w: nat, newUser: Id): System
    requires w in s.logins && s.logins[w].pc.AtProvision?
  {
    var identity := s.logins[w].pc.identity;
    match ProvisionIdentity(s.db, identity, newUser)
    case RolledBack => FailLogin(s, w)
    case Committed(t, user) => Advance(s.(db := t), w, AtRegister(identity, user))
  }

  ghost function DoRegister(s: System, w: nat, newDevice: Id): System
    requires w in s.logins && s.logins[w].pc.AtRegister?
  {
    var login := s.logins[w];
    var key := Required(login.payload, "device_key");
    var platform := Required(login.payload, "platform");
    if key.None? || platform.None? then FailLogin(s, w) else
    match AuthTables.RegisterDevice(s.db, login.pc.user, Fingerprint(key.value), platform.value, login.now, newDevice)
    case RolledBack => FailLogin(s, w)
    case Committed(t, device) => Advance(s.(db := t), w, AtCreate(login.pc.identity, login.pc.user, device))
  }

  function Created(trace: Trace, token: string, origin: Origin): Trace {
    trace.(created := trace.created + [Creation(token, origin)], origins := trace.origins[token := origin])
  }

  ghost function DoCreate(c: Settings, s: System, w: nat, token: string, newSession: Id): System
    requires w in s.logins && s.logins[w].pc.AtCreate?
  {
    var login := s.logins[w];
    match CreateSession(s.db, login.pc.user, login.pc.device, Fingerprint(token), login.now + c.sessionTtl, newSession)
    case RolledBack => FailLogin(s, w)
    case Committed(t, session) =>
      var origin := Origin(login.state, login.pc.identity, login.pc.user, login.pc.device, session, login.now);
      Advance(s.(db := t, drawn := s.drawn + {token}, log := s.log.(trace := Created(s.log.trace, token, origin))),
              w, AtCheck(token))
  }

  function NoteResolved(h: History, session: Id): History {
    h.(resolved := h.resolved + {session})
  }

  /** The check at the end of `complete_login` asks with the time read at its beginning. */
  ghost function DoCheck(s: System, w: nat): System
    requires w in s.logins && s.logins[w].pc.AtCheck?
  {
    var token := s.logins[w].pc.token;
    match ResolveSession(s.db, Fingerprint(token), s.logins[w].now)
    case None => FailLogin(s, w)
    case Some(p) => Advance(s.(log := NoteResolved(s.log, p.session)), w, AtGrant(token))
  }

  function GrantPayload(token: string): Sealed {
    Sealed(GrantPurpose, map["session_token" := token])
  }

  function DoGrant(c: Settings, s: System, w: nat, code: string): System
    requires w in s.logins && s.logins[w].pc.AtGrant?
  {
    var login := s.logins[w];
    match PutGrant(s.db, Fingerprint(code), GrantRow(GrantPayload(login.pc.token), login.now + c.grantTtl))
    case RolledBack => FailLogin(s, w)
    case Committed(t, _) =>
      s.(db := t, drawn := s.drawn + {code}, logins := s.logins - {w},
         log := s.log.(trace := MoveTo(s.log.trace, login.state, Granted(code)),
                       tally := s.log.tally.(completed := s.log.tally.completed + 1)))
  }

  // ---- exchange_login_grant ----

  /** Moves the login that created `token` to a new phase of its history. */
  function Rephase(trace: Trace, token: string, phase: Phase): Trace {
    if token in trace.origins then MoveTo(trace, trace.origins[token].state, phase) else trace
  }

  function GrantUsed(h: History, code: string): History {
    h.(spent := h.spent + [GrantSpent(code)], tally := h.tally.(grantsSpent := h.tally.grantsSpent + 1))
  }

  function RedemptionFailed(h: History): History {
    h.(tally := h.tally.(redemptionsFailed := h.tally.redemptionsFailed + 1))
  }

  function DoBeginRedeem(s: System, w: nat, code: string): System {
    if code == "" then s else
    var (t, sealed) := ConsumeGrant(s.db, Fingerprint(code), s.clock);
    if sealed.None? then s else
    var h := GrantUsed(s.log, code);
    var payload := Open(sealed.value, GrantPurpose);
    var token := if payload.None? then None else Required(payload.value, "session_token");
    if token.None? then s.(db := t, log := RedemptionFailed(h))
    else s.(db := t, redemptions := s.redemptions[w := Redemption(token.value, s.clock)],
            log := h.(trace := Rephase(h.trace, token.value, Redeeming(w))))
  }

  function FailRedeem(s: System, w: nat): System
    requires w in s.redemptions
  {
    s.(redemptions := s.redemptions - {w},
       log := RedemptionFailed(s.log).(trace := Rephase(s.log.trace, s.redemptions[w].token, Failed)))
  }

  ghost function DoFinishRedeem(s: System, w: nat): System
    requires w in s.redemptions
  {
    var r := s.redemptions[w];
    match ResolveSession(s.db, Fingerprint(r.token), s.clock)
    case None => FailRedeem(s, w)
    case Some(p) =>
      var trace := Rephase(s.log.trace, r.token, Delivered(|s.log.trace.delivered|));
      s.(redemptions := s.redemptions - {w},
         log := NoteResolved(s.log, p.session).(
           trace := trace.(delivered := trace.delivered + [Delivery(r.token, p, r.at)])))
  }

  // ---- requests on a session ----

  ghost function DoAuthenticate(s: System, token: string): System {
    if token == "" then s else
    match ResolveSession(s.db, Fingerprint(token), s.clock)
    case None => s
    case Some(p) => s.(principals := s.principals + {p}, log := NoteResolved(s.log, p.session))
  }

  function DoIssueTicket(c: Settings, s: System, p: Principal, channel: string, ticket: string): System {
    if channel !in CHANNELS || (channel == "system.health" && "system.health.read" !in p.permissions) then s else
    match PutTicket(s.db, Fingerprint(ticket), TicketRow(p.session, channel, s.clock + c.ticketTtl))
    case RolledBack => s
    case Committed(t, _) => s.(db := t, drawn := s.drawn + {ticket})
  }

  function DoConsumeTicket(s: System, ticket: string, channel: string): System {
    if channel !in CHANNELS then s else
    var (t, session) := AuthTables.ConsumeTicket(s.db, Fingerprint(ticket), channel, s.clock);
    if session.None? then s else s.(db := t, log := s.log.(spent := s.log.spent + [TicketSpent(ticket)]))
  }

  // ---- runs ----

  ghost function Act(c: Settings, s: System, step: Step): System
    requires Ready(s, step)
  {
    match step
    case StartLogin(state, verifier, nonce, key, platform) => DoStartLogin(c, s, state, verifier, nonce, key, platform)
    case BeginComplete(w, state, code) => DoBeginComplete(c, s, w, state, code)
    case Exchange(w, claims) => DoExchange(c, s, w, claims)
    case Provision(w, newUser) => DoProvision(s, w, newUser)
    case Register(w, newDevice) => DoRegister(s, w, newDevice)
    case Create(w, token, newSession) => DoCreate(c, s, w, token, newSession)
    case Check(w) => DoCheck(s, w)
    case Grant(w, code) => DoGrant(c, s, w, code)
    case AbortLogin(w) => FailLogin(s, w)
    case BeginRedeem(w, code) => DoBeginRedeem(s, w, code)
    case FinishRedeem(w) => DoFinishRedeem(s, w)
    case AbortRedeem(w) => FailRedeem(s, w)
    case Authenticate(token) => DoAuthenticate(s, token)
    case Logout(p) => s.(db := RevokeSession(s.db, p.session, s.clock))
    case RevokeDevice(p, device) => s.(db := AuthTables.RevokeDevice(s.db, p.user, device, s.clock).0)
    case IssueTicket(p, channel, ticket) => DoIssueTicket(c, s, p, channel, ticket)
    case ConsumeTicket(ticket, channel) => DoConsumeTicket(s, ticket, channel)
  }

  ghost function Next(c: Settings, s: System, e: Timed): System
    requires Enabled(s, e)
  {
    Act(c, s.(clock := e.now), e.step)
  }

  ghost predicate Runs(c: Settings, s: System, run: seq<Timed>)
    decreases |run|
  {
    run == [] || (Enabled(s, run[0]) && Runs(c, Next(c, s, run[0]), run[1..]))
  }

  ghost function Run(c: Settings, s: System, run: seq<Timed>): System
    requires Runs(c, s, run)
    decreases |run|
  {
    if run == [] then s else Run(c, Next(c, s, run[0]), run[1..])
  }

  /** The service starts with whatever users, identities and roles the deployment
      holds, and with no login, device, session or ticket. */
  ghost predicate Initial(s: System) {
    && Constraints(s.db)
    && s.db.flows == map[] && s.db.grants == map[] && s.db.devices == map[]
    && s.db.sessions == map[] && s.db.tickets == map[] && s.db.events == multiset{}
    && s.logins == map[] && s.redemptions == map[] && s.principals == {} && s.drawn == {}
    && s.log == History(Trace([], [], map[], map[], map[], []), {}, [], Tally(0, 0, 0, 0, 0, 0))
  }
}
