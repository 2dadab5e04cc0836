/**
 Sessions, devices and tickets on every run: the inductive invariant behind
 permanent session death, the agreement of the two liveness checks, and the
 confinement of a device revocation to its owner.
 */
module AuthSessions {
  import opened Channels
  import opened Options
  import opened AuthTables
  import opened AuthTransactions
  import opened AuthProtocol

  // ---- the invariant ----

  predicate Usable(devices: map<Id, DeviceRow>, d: Id) {
    d in devices && devices[d].revokedAt.None?
  }

  /** A session that ever resolved has an active user, and is either revoked or on a
      device that is not. */
  ghost predicate ResolvedSound(users: map<Id, UserRow>, devices: map<Id, DeviceRow>,
                                sessions: map<Id, SessionRow>, resolved: set<Id>) {
    forall i :: i in resolved ==>
      && i in sessions
      && sessions[i].user in users && users[sessions[i].user].active
      && (sessions[i].revokedAt.Some? || Usable(devices, sessions[i].device))
  }

  /** A principal in some request handler describes a session that once resolved. */
  ghost predicate PrincipalsSound(sessions: map<Id, SessionRow>, permissions: map<Id, set<string>>,
                                  resolved: set<Id>, principals: set<Principal>) {
    forall p :: p in principals ==>
      p.session in resolved && p.session in sessions && p == PrincipalOf(sessions[p.session], p.session, permissions)
  }

  predicate MayJoin(permissions: map<Id, set<string>>, user: Id, channel: string) {
    channel in CHANNELS
    && (channel == "system.health" ==> "system.health.read" in PermissionsOf(permissions, user))
  }

  /** A ticket belongs to a session that once resolved and may join the channel. */
  ghost predicate TicketsSound(tickets: map<Fingerprint, TicketRow>, sessions: map<Id, SessionRow>,
                               permissions: map<Id, set<string>>, resolved: set<Id>) {
    forall fp :: fp in tickets ==>
      && tickets[fp].session in resolved && tickets[fp].session in sessions
      && MayJoin(permissions, sessions[tickets[fp].session].user, tickets[fp].channel)
  }

  predicate Owns(devices: map<Id, DeviceRow>, user: Id, d: Id) {
    d in devices && devices[d].user == user
  }

  ghost predicate SessionsOwned(sessions: map<Id, SessionRow>, devices: map<Id, DeviceRow>) {
    forall i :: i in sessions ==> Owns(devices, sessions[i].user, sessions[i].device)
  }

  /** The part of the invariant that is about the tables, the sessions that ever
      resolved and the principals in use. */
  ghost predicate Healthy(t: Tables, resolved: set<Id>, principals: set<Principal>) {
    && Constraints(t)
    && ResolvedSound(t.users, t.devices, t.sessions, resolved)
    && PrincipalsSound(t.sessions, t.permissions, resolved, principals)
    && TicketsSound(t.tickets, t.sessions, t.permissions, resolved)
    && SessionsOwned(t.sessions, t.devices)
  }

  /** Between registering the device and creating the session, a worker remembers a
      device of the user it is about to create the session for. */
  ghost predicate LoginsOwned(devices: map<Id, DeviceRow>, logins: map<nat, Login>) {
    forall w :: w in logins && logins[w].pc.AtCreate? ==> Owns(devices, logins[w].pc.user, logins[w].pc.device)
  }

  ghost predicate Inv(s: System) {
    Healthy(s.db, s.log.resolved, s.principals) && LoginsOwned(s.db.devices, s.logins)
  }

  // ---- what the transactions do to the invariant ----

  predicate OneTimeRowsOnly(t: Tables, t': Tables) {
    t' == t.(flows := t'.flows, grants := t'.grants)
  }

  lemma HealthyUnderOneTimeRows(t: Tables, t': Tables, resolved: set<Id>, principals: set<Principal>)
    requires Healthy(t, resolved, principals) && OneTimeRowsOnly(t, t')
    ensures Healthy(t', resolved, principals) && Grows(t, t')
  {}

  ghost predicate NoDeviceRevoked(a: map<Id, DeviceRow>, b: map<Id, DeviceRow>) {
    forall d :: Usable(a, d) ==> Usable(b, d)
  }

  ghost predicate NewSessionsOwned(t: Tables, t': Tables) {
    forall i :: i in t'.sessions && i !in t.sessions ==> Owns(t'.devices, t'.sessions[i].user, t'.sessions[i].device)
  }

  lemma OwnersUnderGrowth(t: Tables, t': Tables, resolved: set<Id>, principals: set<Principal>)
    requires Healthy(t, resolved, principals) && Grows(t, t') && t'.tickets == t.tickets && NewSessionsOwned(t, t')
    ensures PrincipalsSound(t'.sessions, t'.permissions, resolved, principals)
    ensures TicketsSound(t'.tickets, t'.sessions, t'.permissions, resolved)
    ensures SessionsOwned(t'.sessions, t'.devices)
  {
    hide Constraints, ResolvedSound;
  }

  lemma HealthyUnderGrowth(t: Tables, t': Tables, resolved: set<Id>, principals: set<Principal>)
    requires Healthy(t, resolved, principals) && Constraints(t') && Grows(t, t') && t'.tickets == t.tickets
    requires NoDeviceRevoked(t.devices, t'.devices) && NewSessionsOwned(t, t')
    ensures Healthy(t', resolved, principals)
  {
    OwnersUnderGrowth(t, t', resolved, principals);
    hide Constraints, PrincipalsSound, TicketsSound, SessionsOwned;
  }

  lemma HealthyUnderProvision(t: Tables, resolved: set<Id>, principals: set<Principal>, identity: Identity, newUser: Id)
    requires Healthy(t, resolved, principals)
    ensures var r := ProvisionIdentity(t, identity, newUser);
            r.Committed? ==> Healthy(r.tables, resolved, principals) && Grows(t, r.tables)
                             && r.tables.devices == t.devices
  {
    ProvisionKeeps(t, identity, newUser);
    hide Constraints, ProvisionIdentity, Grows, ResolvedSound, PrincipalsSound, TicketsSound, SessionsOwned;
    var r := ProvisionIdentity(t, identity, newUser);
    if r.Committed? {
      HealthyUnderGrowth(t, r.tables, resolved, principals);
    }
  }

  lemma HealthyUnderRegister(t: Tables, resolved: set<Id>, principals: set<Principal>, user: Id, key: Fingerprint,
                             platform: string, now: Time, newDevice: Id)
    requires Healthy(t, resolved, principals)
    ensures var r := RegisterDevice(t, user, key, platform, now, newDevice);
            r.Committed? ==> Healthy(r.tables, resolved, principals) && Grows(t, r.tables)
                             && Owns(r.tables.devices, user, r.value)
                             && DevicesGrow(t.devices, r.tables.devices)
  {
    RegisterKeeps(t, user, key, platform, now, newDevice);
    RegisterRevokesNone(t, user, key, platform, now, newDevice);
    hide Constraints, ResolvedSound, PrincipalsSound, TicketsSound, SessionsOwned, RegisterDevice, NoDeviceRevoked;
    var r := RegisterDevice(t, user, key, platform, now, newDevice);
    if r.Committed? {
      HealthyUnderGrowth(t, r.tables, resolved, principals);
    }
  }

  lemma RegisterRevokesNone(t: Tables, user: Id, key: Fingerprint, platform: string, now: Time, newDevice: Id)
    ensures var r := RegisterDevice(t, user, key, platform, now, newDevice);
            r.Committed? ==> NoDeviceRevoked(t.devices, r.tables.devices)
  {}

  lemma HealthyUnderCreate(t: Tables, resolved: set<Id>, principals: set<Principal>, user: Id, device: Id,
                           token: Fingerprint, expiresAt: Time, newSession: Id)
    requires Healthy(t, resolved, principals) && Owns(t.devices, user, device)
    ensures var r := CreateSession(t, user, device, token, expiresAt, newSession);
            r.Committed? ==> Healthy(r.tables, resolved, principals) && Grows(t, r.tables)
                             && r.tables.devices == t.devices
  {
    CreateKeeps(t, user, device, token, expiresAt, newSession);
    hide Constraints, Grows, TokenTaken, ResolvedSound, PrincipalsSound, TicketsSound, SessionsOwned;
    var r := CreateSession(t, user, device, token, expiresAt, newSession);
    if r.Committed? {
      HealthyUnderGrowth(t, r.tables, resolved, principals);
    }
  }

  lemma HealthyUnderRevokeSession(t: Tables, resolved: set<Id>, principals: set<Principal>, i: Id, now: Time)
    requires Healthy(t, resolved, principals)
    ensures var t' := RevokeSession(t, i, now);
            Healthy(t', resolved, principals) && Grows(t, t') && t'.devices == t.devices
  {
    RevokeSessionKeeps(t, i, now);
    RevokeSessionMarks(t, i, now);
    hide Constraints, Grows, ResolvedSound, PrincipalsSound, TicketsSound, SessionsOwned, RevokeSession;
    HealthyUnderGrowth(t, RevokeSession(t, i, now), resolved, principals);
  }

  /** The cascade marks every session of the device that could still resolve. */
  lemma CascadeSound(t: Tables, resolved: set<Id>, d: Id, row: DeviceRow, now: Time)
    requires ResolvedSound(t.users, t.devices, t.sessions, resolved)
    ensures ResolvedSound(t.users, t.devices[d := row], RevokedSessions(t.sessions, d, now), resolved)
  {}

  lemma HealthyUnderRevokeDevice(t: Tables, resolved: set<Id>, principals: set<Principal>, user: Id, d: Id, now: Time)
    requires Healthy(t, resolved, principals)
    ensures var t' := AuthTables.RevokeDevice(t, user, d, now).0; Healthy(t', resolved, principals) && Grows(t, t')
  {
    hide Constraints, Grows, ResolvedSound, PrincipalsSound, TicketsSound, SessionsOwned;
    GrowsReflexive(t);
    if RevokesDevice(t, user, d) {
      var t' := AuthTables.RevokeDevice(t, user, d, now).0;
      RevokeDeviceKeeps(t, user, d, now);
      CascadeSound(t, resolved, d, t'.devices[d], now);
      OwnersUnderGrowth(t, t', resolved, principals);
    }
  }

  lemma HealthyUnderResolve(t: Tables, resolved: set<Id>, principals: set<Principal>, token: Fingerprint, now: Time)
    requires Healthy(t, resolved, principals) && ResolveSession(t, token, now).Some?
    ensures var p := ResolveSession(t, token, now).value;
            && Healthy(t, resolved + {p.session}, principals)
            && Healthy(t, resolved + {p.session}, principals + {p})
  {
    ResolvesOne(t, token, now);
    hide Healthy, ResolveSession, Constraints, Alive;
    HealthyWith(t, resolved, principals, ResolveSession(t, token, now).value, now);
  }

  lemma HealthyWith(t: Tables, resolved: set<Id>, principals: set<Principal>, p: Principal, now: Time)
    requires Healthy(t, resolved, principals) && Alive(t, p.session, now)
    requires p == PrincipalOf(t.sessions[p.session], p.session, t.permissions)
    ensures Healthy(t, resolved + {p.session}, principals)
    ensures Healthy(t, resolved + {p.session}, principals + {p})
  {
    hide Constraints, PermissionsOf, MayJoin;
  }

  lemma TicketIssued(t: Tables, resolved: set<Id>, principals: set<Principal>, p: Principal, fp: Fingerprint,
                     row: TicketRow)
    requires PrincipalsSound(t.sessions, t.permissions, resolved, principals) && p in principals
    requires TicketsSound(t.tickets, t.sessions, t.permissions, resolved)
    requires row.session == p.session && row.channel in CHANNELS
    requires row.channel == "system.health" ==> "system.health.read" in p.permissions
    ensures TicketsSound(t.tickets[fp := row], t.sessions, t.permissions, resolved)
  {}

  lemma HealthyUnderIssue(t: Tables, resolved: set<Id>, principals: set<Principal>, p: Principal, fp: Fingerprint,
                          row: TicketRow)
    requires Healthy(t, resolved, principals) && p in principals && row.session == p.session && row.channel in CHANNELS
    requires row.channel == "system.health" ==> "system.health.read" in p.permissions
    ensures var t' := t.(tickets := t.tickets[fp := row]); Healthy(t', resolved, principals) && Grows(t, t')
  {
    TicketIssued(t, resolved, principals, p, fp, row);
    hide TicketsSound, ResolvedSound, SessionsOwned;
  }

  lemma HealthyUnderConsume(t: Tables, resolved: set<Id>, principals: set<Principal>, fp: Fingerprint, channel: string,
                            now: Time)
    requires Healthy(t, resolved, principals)
    ensures var t' := AuthTables.ConsumeTicket(t, fp, channel, now).0; Healthy(t', resolved, principals) && Grows(t, t')
  {
    var t' := AuthTables.ConsumeTicket(t, fp, channel, now).0;
    assert t' == t.(tickets := t'.tickets);
    assert forall x :: x in t'.tickets ==> x in t.tickets && t'.tickets[x] == t.tickets[x];
    hide AuthTables.ConsumeTicket, TicketLive;
    HealthyWithFewerTickets(t, t', resolved, principals);
    hide Grows, Healthy;
    GrowsSameRows(t, t');
  }

  lemma HealthyWithFewerTickets(t: Tables, t': Tables, resolved: set<Id>, principals: set<Principal>)
    requires Healthy(t, resolved, principals) && t' == t.(tickets := t'.tickets)
    requires forall x :: x in t'.tickets ==> x in t.tickets && t'.tickets[x] == t.tickets[x]
    ensures Healthy(t', resolved, principals)
  {
    hide ResolvedSound, PrincipalsSound, SessionsOwned, UniqueTokens, UniqueDeviceKeys, UniqueEmails, IdentityKeys,
      DeviceKeys, SessionKeys, MayJoin;
  }

  // ---- what the steps do to the invariant ----

  ghost predicate Kept(s: System, s': System) {
    Inv(s') && Grows(s.db, s'.db)
  }

  lemma StartLoginKeeps(c: Settings, s: System, state: string, verifier: string, nonce: string, key: string,
                        platform: string)
    requires Inv(s)
    ensures Kept(s, DoStartLogin(c, s, state, verifier, nonce, key, platform))
  {
    hide Healthy, Grows;
    GrowsReflexive(s.db);
    HealthyUnderOneTimeRows(s.db, DoStartLogin(c, s, state, verifier, nonce, key, platform).db, s.log.resolved,
                            s.principals);
  }

  lemma FailLoginKeeps(s: System, w: nat)
    requires Inv(s) && w in s.logins
    ensures Kept(s, FailLogin(s, w))
  {
    hide Healthy, Grows;
    GrowsReflexive(s.db);
  }

  lemma BeginCompleteKeeps(c: Settings, s: System, w: nat, state: string, code: string)
    requires Inv(s)
    ensures Kept(s, DoBeginComplete(c, s, w, state, code))
  {
    hide Healthy, Grows, DoBeginComplete;
    BeginCompleteTouches(c, s, w, state, code);
    HealthyUnderOneTimeRows(s.db, DoBeginComplete(c, s, w, state, code).db, s.log.resolved, s.principals);
  }

  lemma BeginCompleteTouches(c: Settings, s: System, w: nat, state: string, code: string)
    ensures var s' := DoBeginComplete(c, s, w, state, code);
            && s'.db == s.db.(flows := s'.db.flows)
            && s'.log.resolved == s.log.resolved && s'.principals == s.principals
            && forall x :: x in s'.logins && s'.logins[x].pc.AtCreate? ==> x in s.logins && s'.logins[x] == s.logins[x]
  {
    var (t, flow) := ConsumeFlow(s.db, Fingerprint(state), s.clock);
    assert t == s.db.(flows := t.flows);
    hide FlowUsable, ConsumeFlow, MoveTo;
    var s' := DoBeginComplete(c, s, w, state, code);
    if s'.logins != s.logins {
      var login := Login(state, flow.value.payload.payload, s.clock, AtExchange);
      assert s'.logins == s.logins[w := login] && s'.db == t;
    }
  }

  lemma ExchangeKeeps(c: Settings, s: System, w: nat, claims: Option<Claims>)
    requires Inv(s) && w in s.logins
    ensures Kept(s, DoExchange(c, s, w, claims))
  {
    hide Healthy, Grows;
    GrowsReflexive(s.db);
  }

  lemma ProvisionStepKeeps(s: System, w: nat, newUser: Id)
    requires Inv(s) && w in s.logins && s.logins[w].pc.AtProvision?
    ensures Kept(s, DoProvision(s, w, newUser))
  {
    hide Healthy, Grows, ProvisionIdentity;
    GrowsReflexive(s.db);
    HealthyUnderProvision(s.db, s.log.resolved, s.principals, s.logins[w].pc.identity, newUser);
  }

  lemma RegisterStepKeeps(s: System, w: nat, newDevice: Id)
    requires Inv(s) && w in s.logins && s.logins[w].pc.AtRegister?
    ensures Kept(s, DoRegister(s, w, newDevice))
  {
    hide Healthy, Grows, RegisterDevice;
    GrowsReflexive(s.db);
    var login := s.logins[w];
    if Required(login.payload, "device_key").Some? && Required(login.payload, "platform").Some? {
      HealthyUnderRegister(s.db, s.log.resolved, s.principals, login.pc.user, Fingerprint(login.payload["device_key"]),
                           login.payload["platform"], login.now, newDevice);
    }
  }

  lemma CreateStepKeeps(c: Settings, s: System, w: nat, token: string, newSession: Id)
    requires Inv(s) && w in s.logins && s.logins[w].pc.AtCreate?
    ensures Kept(s, DoCreate(c, s, w, token, newSession))
  {
    hide Healthy, Grows, CreateSession;
    GrowsReflexive(s.db);
    var login := s.logins[w];
    HealthyUnderCreate(s.db, s.log.resolved, s.principals, login.pc.user, login.pc.device, Fingerprint(token),
                       login.now + c.sessionTtl, newSession);
  }

  lemma CheckKeeps(s: System, w: nat)
    requires Inv(s) && w in s.logins && s.logins[w].pc.AtCheck?
    ensures Kept(s, DoCheck(s, w))
  {
    hide Healthy, Grows, ResolveSession;
    GrowsReflexive(s.db);
    var token := Fingerprint(s.logins[w].pc.token);
    if ResolveSession(s.db, token, s.logins[w].now).Some? {
      HealthyUnderResolve(s.db, s.log.resolved, s.principals, token, s.logins[w].now);
    }
  }

  lemma GrantKeeps(c: Settings, s: System, w: nat, code: string)
    requires Inv(s) && w in s.logins && s.logins[w].pc.AtGrant?
    ensures Kept(s, DoGrant(c, s, w, code))
  {
    hide Healthy, Grows;
    GrowsReflexive(s.db);
    HealthyUnderOneTimeRows(s.db, DoGrant(c, s, w, code).db, s.log.resolved, s.principals);
  }

  lemma BeginRedeemKeeps(s: System, w: nat, code: string)
    requires Inv(s)
    ensures Kept(s, DoBeginRedeem(s, w, code))
  {
    hide Healthy, Grows;
    GrowsReflexive(s.db);
    HealthyUnderOneTimeRows(s.db, DoBeginRedeem(s, w, code).db, s.log.resolved, s.principals);
  }

  lemma FailRedeemKeeps(s: System, w: nat)
    requires Inv(s) && w in s.redemptions
    ensures Kept(s, FailRedeem(s, w))
  {
    hide Healthy, Grows;
    GrowsReflexive(s.db);
  }

  lemma FinishRedeemKeeps(s: System, w: nat)
    requires Inv(s) && w in s.redemptions
    ensures Kept(s, DoFinishRedeem(s, w))
  {
    hide Healthy, Grows, ResolveSession;
    GrowsReflexive(s.db);
    var token := Fingerprint(s.redemptions[w].token);
    if ResolveSession(s.db, token, s.clock).Some? {
      HealthyUnderResolve(s.db, s.log.resolved, s.principals, token, s.clock);
    }
  }

  lemma AuthenticateKeeps(s: System, token: string)
    requires Inv(s)
    ensures Kept(s, DoAuthenticate(s, token))
  {
    hide Healthy, Grows, ResolveSession;
    GrowsReflexive(s.db);
    if ResolveSession(s.db, Fingerprint(token), s.clock).Some? {
      HealthyUnderResolve(s.db, s.log.resolved, s.principals, Fingerprint(token), s.clock);
    }
  }

  lemma LogoutKeeps(s: System, i: Id)
    requires Inv(s)
    ensures Kept(s, s.(db := RevokeSession(s.db, i, s.clock)))
  {
    hide Healthy, Grows, RevokeSession;
    GrowsReflexive(s.db);
    HealthyUnderRevokeSession(s.db, s.log.resolved, s.principals, i, s.clock);
  }

  lemma RevokeDeviceStepKeeps(s: System, user: Id, d: Id)
    requires Inv(s)
    ensures Kept(s, s.(db := AuthTables.RevokeDevice(s.db, user, d, s.clock).0))
  {
    hide Healthy, Grows;
    GrowsReflexive(s.db);
    HealthyUnderRevokeDevice(s.db, s.log.resolved, s.principals, user, d, s.clock);
  }

  lemma IssueTicketKeeps(c: Settings, s: System, p: Principal, channel: string, ticket: string)
    requires Inv(s) && p in s.principals
    ensures Kept(s, DoIssueTicket(c, s, p, channel, ticket))
  {
    hide Healthy, Grows;
    GrowsReflexive(s.db);
    if channel in CHANNELS && (channel == "system.health" ==> "system.health.read" in p.permissions) {
      HealthyUnderIssue(s.db, s.log.resolved, s.principals, p, Fingerprint(ticket),
                        TicketRow(p.session, channel, s.clock + c.ticketTtl));
    }
  }

  lemma ConsumeTicketKeeps(s: System, ticket: string, channel: string)
    requires Inv(s)
    ensures Kept(s, DoConsumeTicket(s, ticket, channel))
  {
    hide Healthy, Grows;
    GrowsReflexive(s.db);
    HealthyUnderConsume(s.db, s.log.resolved, s.principals, Fingerprint(ticket), channel, s.clock);
  }

  lemma ActKeeps(c: Settings, s: System, step: Step)
    requires Inv(s) && Ready(s, step)
    ensures Kept(s, Act(c, s, step))
  {
    hide Inv, Kept, Fresh, DoStartLogin, DoBeginComplete, DoExchange, DoProvision, DoRegister, DoCreate,
      DoCheck, DoGrant,
      FailLogin,
      DoBeginRedeem, DoFinishRedeem, FailRedeem, DoAuthenticate, RevokeSession, AuthTables.RevokeDevice, DoIssueTicket,
      DoConsumeTicket;
    match step
    case StartLogin(state, verifier, nonce, key, platform) =>
      StartLoginKeeps(c, s, state, verifier, nonce, key, platform);
    case BeginComplete(w, state, code) => BeginCompleteKeeps(c, s, w, state, code);
    case Exchange(w, claims) => ExchangeKeeps(c, s, w, claims);
    case Provision(w, newUser) => ProvisionStepKeeps(s, w, newUser);
    case Register(w, newDevice) => RegisterStepKeeps(s, w, newDevice);
    case Create(w, token, newSession) => CreateStepKeeps(c, s, w, token, newSession);
    case Check(w) => CheckKeeps(s, w);
    case Grant(w, code) => GrantKeeps(c, s, w, code);
    case AbortLogin(w) => FailLoginKeeps(s, w);
    case BeginRedeem(w, code) => BeginRedeemKeeps(s, w, code);
    case FinishRedeem(w) => FinishRedeemKeeps(s, w);
    case AbortRedeem(w) => FailRedeemKeeps(s, w);
    case Authenticate(token) => AuthenticateKeeps(s, token);
    case Logout(p) => LogoutKeeps(s, p.session);
    case RevokeDevice(p, d) => RevokeDeviceStepKeeps(s, p.user, d);
    case IssueTicket(p, channel, ticket) => IssueTicketKeeps(c, s, p, channel, ticket);
    case ConsumeTicket(ticket, channel) => ConsumeTicketKeeps(s, ticket, channel);
  }

  lemma StepKeeps(c: Settings, s: System, e: Timed)
    requires Inv(s) && Enabled(s, e)
    ensures Kept(s, Next(c, s, e))
  {
    hide Healthy, Grows, Ready, Act;
    ActKeeps(c, s.(clock := e.now), e.step);
  }
}
