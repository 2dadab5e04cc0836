/**
 What each request of the service does, said of the rows before and after: when it has
 an effect, which rows it writes with which times, and that it leaves the rest alone.
 */
module AuthSteps {
  import opened Options
  import opened AuthTables
  import opened AuthTransactions
  import opened AuthProtocol
  import opened AuthSessions
  import opened AuthSafety
  import opened AuthProvenance

  // ---- login ----

  /** A login starts for a device key of 8 to 200 characters on one of six platforms. It
      stores one flow under the new state, sealed for flows, for the configured time. */
  lemma StartLoginDoes(c: Settings, s: System, e: Timed)
    requires Enabled(s, e) && e.step.StartLogin?
    ensures var StartLogin(state, verifier, nonce, key, platform) := e.step;
            var s' := Next(c, s, e);
            var row := FlowRow(
              Sealed(FlowPurpose,
                     map["verifier" := verifier, "nonce" := nonce, "device_key" := key, "platform" := platform]),
              c.redirectUri, e.now + c.flowTtl);
            if && 8 <= |key| <= 200 && platform in {"macos", "windows", "linux", "ios", "android", "web"}
               && Fingerprint(state) !in s.db.flows
            then
              && s'.db == s.db.(flows := s.db.flows[Fingerprint(state) := row])
              && s'.logins == s.logins && s'.redemptions == s.redemptions && s'.principals == s.principals
              && s'.log.trace.begun == s.log.trace.begun + [Beginning(state, Start(key, platform, e.now))]
              && s'.log.resolved == s.log.resolved && s'.log.spent == s.log.spent
              && s'.log.tally == s.log.tally.(started := s.log.tally.started + 1)
            else s' == s.(clock := e.now)
  {}

  /** A callback takes the flow of its state when that has not expired. The login goes on
      when the flow was made for this redirect and opens with both of its secrets. */
  lemma CallbackDoes(c: Settings, s: System, e: Timed)
    requires Enabled(s, e) && e.step.BeginComplete?
    ensures var BeginComplete(w, state, code) := e.step;
            var s' := Next(c, s, e);
            var fp := Fingerprint(state);
            if state == "" || code == "" || fp !in s.db.flows || s.db.flows[fp].expiresAt <= e.now then
              s' == s.(clock := e.now)
            else
              var flow := s.db.flows[fp];
              && s'.db == s.db.(flows := s.db.flows - {fp}) && s'.redemptions == s.redemptions
              && s'.principals == s.principals && s'.log.spent == s.log.spent + [FlowSpent(state)]
              && if && flow.redirectUri == c.redirectUri && flow.payload.purpose == FlowPurpose
                    && "verifier" in flow.payload.payload && flow.payload.payload["verifier"] != ""
                    && "nonce" in flow.payload.payload && flow.payload.payload["nonce"] != ""
                 then s'.logins == s.logins[w := Login(state, flow.payload.payload, e.now, AtExchange)]
                 else s'.logins == s.logins
  {}

  /** The identity is the configured issuer's, with the subject, email and name of the
      claims; without claims the login fails. */
  lemma ClaimsDo(c: Settings, s: System, e: Timed)
    requires Enabled(s, e) && e.step.Exchange?
    ensures var Exchange(w, claims) := e.step;
            var s' := Next(c, s, e);
            && s'.db == s.db && s'.redemptions == s.redemptions && s'.principals == s.principals
            && s'.log.spent == s.log.spent
            && match claims
               case None => s'.logins == s.logins - {w}
               case Some(Claims(subject, email, displayName)) =>
                 var identity := Identity(Subject(c.issuer, subject), email, displayName);
                 s'.logins == s.logins[w := s.logins[w].(pc := AtProvision(identity))]
  {}

  /** Provisioning goes on with the user the subject is bound to afterwards. An active
      known user gets the new email and name, an inactive one is left as it is, and an
      unknown subject gets a new active user. */
  lemma ProvisionDoes(c: Settings, s: System, e: Timed)
    requires Enabled(s, e) && e.step.Provision?
    ensures var Provision(w, newUser) := e.step;
            var s' := Next(c, s, e);
            var identity := s.logins[w].pc.identity;
            var row := UserRow(identity.email, identity.displayName, true);
            && s'.db == s.db.(users := s'.db.users, identities := s'.db.identities)
            && (w in s'.logins <==> ProvisionIdentity(s.db, identity, newUser).Committed?)
            && if w !in s'.logins then s'.db == s.db && s'.logins == s.logins - {w}
               else
                 && s'.logins[w].pc.AtRegister? && s'.logins[w].pc.identity == identity
                 && var user := s'.logins[w].pc.user;
                    && s'.logins == s.logins[w := s.logins[w].(pc := AtRegister(identity, user))]
                    && if identity.subject !in s.db.identities then
                         && user == newUser && user !in s.db.users
                         && s'.db.users == s.db.users[user := row]
                         && s'.db.identities == s.db.identities[identity.subject := user]
                       else
                         && user == s.db.identities[identity.subject] && s'.db.identities == s.db.identities
                         && s'.db.users == if user in s.db.users && s.db.users[user].active
                                           then s.db.users[user := row] else s.db.users
  {
    ProvisionWrites(s.db, s.logins[e.step.worker].pc.identity, e.step.newUser);
    hide ProvisionIdentity;
  }

  lemma ProvisionWrites(t: Tables, identity: Identity, newUser: Id)
    ensures var r := ProvisionIdentity(t, identity, newUser);
            var row := UserRow(identity.email, identity.displayName, true);
            r.Committed? ==>
              && r.tables == t.(users := r.tables.users, identities := r.tables.identities)
              && if identity.subject !in t.identities then
                   && r.value == newUser && newUser !in t.users && r.tables.users == t.users[newUser := row]
                   && r.tables.identities == t.identities[identity.subject := newUser]
                 else
                   && r.value == t.identities[identity.subject] && r.tables.identities == t.identities
                   && r.tables.users == if r.value in t.users && t.users[r.value].active
                                        then t.users[r.value := row] else t.users
  {
    if identity.subject in t.identities {
      ProvisionWritesKnown(t, identity, newUser);
    } else {
      ProvisionWritesNew(t, identity, newUser);
    }
    hide ProvisionIdentity;
  }

  lemma ProvisionWritesNew(t: Tables, identity: Identity, newUser: Id)
    requires identity.subject !in t.identities
    ensures var r := ProvisionIdentity(t, identity, newUser);
            r.Committed? ==>
              && r.value == newUser && newUser !in t.users
              && r.tables == t.(users := t.users[newUser := UserRow(identity.email, identity.displayName, true)],
                                identities := t.identities[identity.subject := newUser])
  {
    hide EmailTaken;
  }

  lemma ProvisionWritesKnown(t: Tables, identity: Identity, newUser: Id)
    requires identity.subject in t.identities
    ensures var r, user := ProvisionIdentity(t, identity, newUser), t.identities[identity.subject];
            r.Committed? ==>
              && r.value == user
              && r.tables == if user in t.users && t.users[user].active
                             then t.(users := t.users[user := UserRow(identity.email, identity.displayName, true)])
                             else t
  {
    hide EmailTaken;
  }

  /** Registering goes on with the device of this user and the key the login started
      with: seen now on its platform, not revoked, and no other device touched. */
  lemma RegisterDoes(c: Settings, s: System, e: Timed)
    requires Enabled(s, e) && e.step.Register? && Constraints(s.db)
    ensures var Register(w, newDevice) := e.step;
            var s' := Next(c, s, e);
            var login := s.logins[w];
            && s'.db == s.db.(devices := s'.db.devices)
            && (w in s'.logins <==>
                  && "device_key" in login.payload && login.payload["device_key"] != ""
                  && "platform" in login.payload && login.payload["platform"] != ""
                  && RegisterDevice(s.db, login.pc.user, Fingerprint(login.payload["device_key"]),
                                    login.payload["platform"], login.now, newDevice).Committed?)
            && if w !in s'.logins then s'.db == s.db && s'.logins == s.logins - {w}
               else
                 && s'.logins[w].pc.AtCreate? && "device_key" in login.payload && "platform" in login.payload
                 && var d := s'.logins[w].pc.device;
                    var row := DeviceRow(login.pc.user, Fingerprint(login.payload["device_key"]),
                                         login.payload["platform"], login.now, None);
                    && s'.logins == s.logins[w := login.(pc := AtCreate(login.pc.identity, login.pc.user, d))]
                    && s'.db.devices == s.db.devices[d := row]
                    && (d in s.db.devices ==>
                          s.db.devices[d].user == row.user && s.db.devices[d].deviceKey == row.deviceKey)
  {
    var login := s.logins[e.step.worker];
    if Required(login.payload, "device_key").Some? && Required(login.payload, "platform").Some? {
      RegisterWrites(s.db, login.pc.user, Fingerprint(login.payload["device_key"]), login.payload["platform"],
                     login.now, e.step.newDevice);
    }
    hide RegisterDevice, IsDevice, UniqueTokens, UniqueDeviceKeys, UniqueEmails;
  }

  /** Creating a session adds one row, of this user on this device, under the new token,
      for the configured time from the beginning of the callback. */
  lemma CreateDoes(c: Settings, s: System, e: Timed)
    requires Enabled(s, e) && e.step.Create?
    ensures var Create(w, token, i) := e.step;
            var s' := Next(c, s, e);
            var login := s.logins[w];
            var row := SessionRow(login.pc.user, login.pc.device, Fingerprint(token), login.now + c.sessionTtl, None);
            && (w in s'.logins <==>
                  CreateSession(s.db, login.pc.user, login.pc.device, row.token, row.expiresAt, i).Committed?)
            && if w !in s'.logins then s'.db == s.db && s'.logins == s.logins - {w}
            else
              && i !in s.db.sessions
              && s'.db == s.db.(sessions := s.db.sessions[i := row],
                                events := s.db.events + multiset{SessionCreated(i, login.pc.user)})
              && s'.logins == s.logins[w := login.(pc := AtCheck(token))]
              && s'.log.trace.created == s.log.trace.created + [Creation(token, Origin(
                   login.state, login.pc.identity, login.pc.user, login.pc.device, i, login.now))]
  {
    hide TokenTaken;
  }

  /** The grant of a completed login opens to its session token only, for the configured
      time from the beginning of the callback. */
  lemma GrantDoes(c: Settings, s: System, e: Timed)
    requires Enabled(s, e) && e.step.Grant?
    ensures var Grant(w, code) := e.step;
            var s' := Next(c, s, e);
            var login := s.logins[w];
            var row := GrantRow(Sealed(GrantPurpose, map["session_token" := login.pc.token]), login.now + c.grantTtl);
            && s'.logins == s.logins - {w} && s'.redemptions == s.redemptions && s'.principals == s.principals
            && s'.log.trace.delivered == s.log.trace.delivered && s'.log.spent == s.log.spent
            && if Fingerprint(code) in s.db.grants then s'.db == s.db && s'.drawn == s.drawn
               else
                 && s'.drawn == s.drawn + {code}
                 && s'.db == s.db.(grants := s.db.grants[Fingerprint(code) := row])
                 && s'.log.tally == s.log.tally.(completed := s.log.tally.completed + 1)
  {}

  /** A worker that is gone without a grant has failed its login; nothing else fails one
      that a worker holds. */
  lemma GoneIsFailed(c: Settings, s: System, e: Timed)
    requires Enabled(s, e)
    requires || e.step.Exchange? || e.step.Provision? || e.step.Register? || e.step.Create? || e.step.Check?
             || e.step.Grant? || e.step.AbortLogin?
    ensures var w, s' := e.step.worker, Next(c, s, e);
            var state := s.logins[w].state;
            if w in s'.logins then s'.log.trace.phases == s.log.trace.phases
            else state in s'.log.trace.phases
                 && s'.log.trace.phases[state]
                    == if e.step.Grant? && Fingerprint(e.step.code) !in s.db.grants then Granted(e.step.code)
                       else Failed
    ensures e.step.AbortLogin? ==> e.step.worker !in Next(c, s, e).logins && Next(c, s, e).db == s.db
  {
    hide ProvisionIdentity, RegisterDevice, CreateSession, ResolveSession, Required;
  }

  /** So has the login of an exchange that ends without a session grant. */
  lemma RefusedIsFailed(c: Settings, s: System, e: Timed)
    requires Enabled(s, e) && (e.step.FinishRedeem? || e.step.AbortRedeem?)
    requires s.redemptions[e.step.worker].token in s.log.trace.origins
    ensures var w, s' := e.step.worker, Next(c, s, e);
            var state := s.log.trace.origins[s.redemptions[w].token].state;
            && w !in s'.redemptions && s'.db == s.db && state in s'.log.trace.phases
            && s'.log.trace.phases[state] == if s'.log.trace.delivered == s.log.trace.delivered then Failed
                                             else Delivered(|s.log.trace.delivered|)
    ensures e.step.AbortRedeem? ==> Next(c, s, e).log.trace.delivered == s.log.trace.delivered
  {
    hide ResolveSession;
  }

  // ---- resolving ----

  /** In a reachable state the session that a token was given to is the only one it can
      resolve to, with that session's user, device and expiry and exactly the permissions
      stored for the user. */
  lemma TokenResolvesExactly(c: Settings, s: System, token: string, i: Id, now: Time)
    requires Reachable(c, s) && i in s.db.sessions && s.db.sessions[i].token == Fingerprint(token)
    ensures var r := ResolveSession(s.db, Fingerprint(token), now);
            var row := s.db.sessions[i];
            && (r.Some? <==> Alive(s.db, i, now))
            && (r.Some? ==>
                  && r.value.session == i && r.value.user == row.user && r.value.device == row.device
                  && r.value.expiresAt == row.expiresAt
                  && forall code :: code in r.value.permissions <==>
                       row.user in s.db.permissions && code in s.db.permissions[row.user])
  {
    ReachableInv(c, s);
    InvConstraints(s);
    hide Reachable, Inv, ResolveSession, Alive;
    ResolvesOne(s.db, Fingerprint(token), now);
    SameToken(s.db, Fingerprint(token), i, now);
  }

  lemma SameToken(t: Tables, token: Fingerprint, i: Id, now: Time)
    requires Constraints(t) && i in t.sessions && t.sessions[i].token == token
    ensures forall j :: Resolves(t, token, now, j) ==> j == i
    ensures Resolves(t, token, now, i) <==> Alive(t, i, now)
  {
    hide UniqueDeviceKeys, UniqueEmails;
  }

  /** A request with the token of a live session gets its principal, and the session
      counts as having resolved; any other request is refused without effect. */
  lemma AuthenticateDoes(c: Settings, s: System, e: Timed)
    requires Enabled(s, e) && e.step.Authenticate?
    ensures var s' := Next(c, s, e);
            var r := ResolveSession(s.db, Fingerprint(e.step.token), e.now);
            if e.step.token == "" || r.None? then s' == s.(clock := e.now)
            else s' == s.(clock := e.now, principals := s.principals + {r.value},
                          log := s.log.(resolved := s.log.resolved + {r.value.session}))
  {
    hide ResolveSession;
  }

  /** The closing check of a login passes exactly when its session is alive at the time
      the callback began. */
  lemma CheckDoes(c: Settings, s: System, e: Timed, i: Id)
    requires Reachable(c, s) && Enabled(s, e) && e.step.Check?
    requires i in s.db.sessions && s.db.sessions[i].token == Fingerprint(s.logins[e.step.worker].pc.token)
    ensures var s' := Next(c, s, e);
            var w := e.step.worker;
            var login := s.logins[w];
            && s'.db == s.db && s'.redemptions == s.redemptions && s'.principals == s.principals && s'.drawn == s.drawn
            && s'.log.trace.delivered == s.log.trace.delivered && s'.log.spent == s.log.spent
            && if Alive(s.db, i, login.now) then
                 && s'.logins == s.logins[w := login.(pc := AtGrant(login.pc.token))]
                 && s'.log.resolved == s.log.resolved + {i}
               else s'.logins == s.logins - {w} && s'.log.resolved == s.log.resolved
  {
    var login := s.logins[e.step.worker];
    TokenResolvesExactly(c, s, login.pc.token, i, login.now);
    hide Reachable, ResolveSession, Alive;
  }

  // ---- exchanging a grant ----

  /** An exchange takes the grant of its code when that has not expired, and goes on with
      the session token in it; the time of the exchange is now. */
  lemma RedeemDoes(c: Settings, s: System, e: Timed)
    requires Enabled(s, e) && e.step.BeginRedeem?
    ensures var BeginRedeem(w, code) := e.step;
            var s' := Next(c, s, e);
            var fp := Fingerprint(code);
            if code == "" || fp !in s.db.grants || s.db.grants[fp].expiresAt <= e.now then s' == s.(clock := e.now)
            else
              var grant := s.db.grants[fp].payload;
              && s'.db == s.db.(grants := s.db.grants - {fp}) && s'.logins == s.logins
              && s'.principals == s.principals && s'.drawn == s.drawn
              && s'.log.trace.delivered == s.log.trace.delivered && s'.log.spent == s.log.spent + [GrantSpent(code)]
              && if && grant.purpose == GrantPurpose && "session_token" in grant.payload
                    && grant.payload["session_token"] != ""
                 then s'.redemptions == s.redemptions[w := Redemption(grant.payload["session_token"], e.now)]
                 else s'.redemptions == s.redemptions
  {}

  /** The session of a redeemed grant. */
  function RedeemedSession(s: System, w: nat): Id
    requires w in s.redemptions && s.redemptions[w].token in s.log.trace.origins
  {
    s.log.trace.origins[s.redemptions[w].token].session
  }

  lemma RedeemedHasSession(c: Settings, s: System, w: nat)
    requires Reachable(c, s) && Configured(c) && w in s.redemptions
    ensures s.redemptions[w].token in s.log.trace.origins && RedeemedSession(s, w) in s.db.sessions
    ensures s.db.sessions[RedeemedSession(s, w)].token == Fingerprint(s.redemptions[w].token)
  {
    ReachableTraced(c, s);
    hide Reachable, Traced, Drawn, At, Provisioned, IsDevice;
    TheRedemption(c, s.db, s.log.trace, s.logins, s.redemptions, w);
  }

  /** An exchange ends with exactly one session grant if the session is alive then, and
      with none otherwise; the grant carries the redeemed token and the session's user,
      device, expiry and permissions. */
  lemma ExchangeDeliversExactly(c: Settings, s: System, e: Timed)
    requires Reachable(c, s) && Configured(c) && Enabled(s, e) && e.step.FinishRedeem?
    ensures var w := e.step.worker;
            && s.redemptions[w].token in s.log.trace.origins && RedeemedSession(s, w) in s.db.sessions
    ensures var w, s' := e.step.worker, Next(c, s, e);
            var r, i := s.redemptions[w], RedeemedSession(s, w);
            var row, before := s.db.sessions[i], s.log.trace.delivered;
            && s'.db == s.db && s'.logins == s.logins && s'.redemptions == s.redemptions - {w}
            && if Alive(s.db, i, e.now) then
                 && |s'.log.trace.delivered| == |before| + 1 && before <= s'.log.trace.delivered
                 && s'.log.resolved == s.log.resolved + {i}
                 && var d := s'.log.trace.delivered[|before|];
                    && d.token == r.token && d.at == r.at && d.principal.session == i && d.principal.user == row.user
                    && d.principal.device == row.device && d.principal.expiresAt == row.expiresAt
                    && forall code :: code in d.principal.permissions <==>
                         row.user in s.db.permissions && code in s.db.permissions[row.user]
               else s'.log.trace.delivered == before && s'.log.resolved == s.log.resolved
  {
    var w := e.step.worker;
    RedeemedHasSession(c, s, w);
    TokenResolvesExactly(c, s, s.redemptions[w].token, RedeemedSession(s, w), e.now);
    hide Reachable, ResolveSession, Alive;
  }

  // ---- logging out and revoking ----

  /** A logout revokes the principal's session at its time, if it was not revoked before,
      and touches nothing else: every other session is as alive as it was. */
  lemma LogoutStaysWithSession(c: Settings, s: System, e: Timed, j: Id, at: Time)
    requires Reachable(c, s) && Enabled(s, e) && e.step.Logout?
    ensures var i, s' := e.step.principal.session, Next(c, s, e);
            && i in s.db.sessions
            && s'.db == s.db.(sessions := s'.db.sessions, events := s'.db.events)
            && s'.db.sessions == s.db.sessions[i := if s.db.sessions[i].revokedAt.Some? then s.db.sessions[i]
                                                   else s.db.sessions[i].(revokedAt := Some(e.now))]
            && s'.logins == s.logins && s'.redemptions == s.redemptions && s'.principals == s.principals
            && s'.log == s.log
            && (j != i ==> (Alive(s'.db, j, at) <==> Alive(s.db, j, at)))
  {
    hide Reachable, Inv, AuthTables.RevokeSession, Alive;
    ReachableInv(c, s);
    PrincipalHasSession(s, e.step.principal);
    LogoutWrites(s.db, e.step.principal.session, e.now, j, at);
  }

  lemma PrincipalHasSession(s: System, p: Principal)
    requires Inv(s) && p in s.principals
    ensures p.session in s.db.sessions
  {
    hide Constraints;
  }

  lemma LogoutWrites(t: Tables, i: Id, now: Time, j: Id, at: Time)
    requires i in t.sessions
    ensures var t' := AuthTables.RevokeSession(t, i, now);
            && t' == t.(sessions := t'.sessions, events := t'.events)
            && t'.sessions == t.sessions[i := if t.sessions[i].revokedAt.Some? then t.sessions[i]
                                             else t.sessions[i].(revokedAt := Some(now))]
            && (j != i ==> (Alive(t', j, at) <==> Alive(t, j, at)))
  {}

  /** Revoking a device marks that device, if it is the principal's and not revoked, and
      its unrevoked sessions, at that time, and touches nothing else. */
  lemma RevocationDoes(c: Settings, s: System, e: Timed)
    requires Enabled(s, e) && e.step.RevokeDevice?
    ensures var RevokeDevice(p, d) := e.step;
            var s' := Next(c, s, e);
            if d !in s.db.devices || s.db.devices[d].user != p.user || s.db.devices[d].revokedAt.Some? then
              s' == s.(clock := e.now)
            else
              && s'.db == s.db.(devices := s.db.devices[d := s.db.devices[d].(revokedAt := Some(e.now))],
                                sessions := s'.db.sessions)
              && s' == s.(clock := e.now, db := s'.db)
              && s'.db.sessions.Keys == s.db.sessions.Keys
              && forall i :: i in s.db.sessions ==>
                   s'.db.sessions[i] == if s.db.sessions[i].device == d && s.db.sessions[i].revokedAt.None?
                                        then s.db.sessions[i].(revokedAt := Some(e.now)) else s.db.sessions[i]
  {}

  // ---- tickets ----

  /** A ticket is issued for a known channel, for system.health only with the permission
      for it; it stands for the principal's session on that channel for the configured
      time, and nothing else changes. */
  lemma IssueTicketDoes(c: Settings, s: System, e: Timed)
    requires Reachable(c, s) && Enabled(s, e) && e.step.IssueTicket?
    ensures var IssueTicket(p, channel, ticket) := e.step;
            var s' := Next(c, s, e);
            var fp := Fingerprint(ticket);
            if && (channel == "session.events" || (channel == "system.health" && "system.health.read" in p.permissions))
               && fp !in s.db.tickets
            then
              var row := TicketRow(p.session, channel, e.now + c.ticketTtl);
              s' == s.(clock := e.now, drawn := s.drawn + {ticket}, db := s.db.(tickets := s.db.tickets[fp := row]))
            else s' == s.(clock := e.now)
  {
    hide Reachable, Inv;
    ReachableInv(c, s);
    PrincipalHasSession(s, e.step.principal);
  }

  /** A ticket is accepted on its channel before it expires while its session is neither
      revoked nor expired; it is gone then, and spent. */
  lemma ConsumeTicketDoes(c: Settings, s: System, e: Timed)
    requires Enabled(s, e) && e.step.ConsumeTicket?
    ensures var ConsumeTicket(ticket, channel) := e.step;
            var s' := Next(c, s, e);
            var fp, t := Fingerprint(ticket), s.db;
            if && channel in {"system.health", "session.events"}
               && fp in t.tickets && t.tickets[fp].channel == channel && t.tickets[fp].expiresAt > e.now
               && t.tickets[fp].session in t.sessions && t.sessions[t.tickets[fp].session].revokedAt.None?
               && t.sessions[t.tickets[fp].session].expiresAt > e.now
            then s' == s.(clock := e.now, db := t.(tickets := t.tickets - {fp}),
                          log := s.log.(spent := s.log.spent + [TicketSpent(ticket)]))
            else s' == s.(clock := e.now)
  {}
}
