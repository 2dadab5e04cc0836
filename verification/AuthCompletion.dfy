/**
 Logins do complete: from every reachable state a person the deployment welcomes has a
 run from `start_login` to the session grant that the exchange hands out.
 */
module AuthCompletion {
  import opened Options
  import opened AuthTables
  import opened AuthProtocol
  import opened AuthSessions
  import opened AuthSafety
  import opened AuthProvenance
  import opened AuthDeliveries
  import opened AuthBirths
  import opened AuthRevival
  import opened AuthSteps

  /** A known active user, or somebody new, with an email that no other user has. */
  predicate Welcome(c: Settings, t: Tables, claims: Claims, newUser: Id) {
    var subject := Subject(c.issuer, claims.subject);
    var user := if subject in t.identities then t.identities[subject] else newUser;
    && (if subject in t.identities then user in t.users && t.users[user].active else user !in t.users)
    && forall u :: u in t.users && u != user ==> t.users[u].email != claims.email
  }

  lemma WelcomeIsProvisioned(c: Settings, t: Tables, claims: Claims, newUser: Id) returns (t': Tables, user: Id)
    requires Welcome(c, t, claims, newUser)
    ensures ProvisionIdentity(t, Who(c, claims), newUser) == Committed(t', user)
    ensures t' == t.(users := t.users[user := UserRow(claims.email, claims.displayName, true)],
                       identities := t'.identities)
    ensures Who(c, claims).subject in t'.identities && t'.identities[Who(c, claims).subject] == user
  {
    var subject := Who(c, claims).subject;
    user := if subject in t.identities then t.identities[subject] else newUser;
    t' := t.(users := t.users[user := UserRow(claims.email, claims.displayName, true)],
             identities := if subject in t.identities then t.identities else t.identities[subject := newUser]);
    assert !EmailTaken(t, claims.email, user);
  }

  lemma LeadsReaches(c: Settings, s: System, mid: System)
    requires Reachable(c, s) && Leads(c, s, mid)
    ensures Reachable(c, mid)
  {
    hide Reachable, Runs, Run;
    var run :| Runs(c, s, run) && Run(c, s, run) == mid;
    RunReaches(c, s, run);
  }

  /** One more step, at the same time. */
  lemma Steps(c: Settings, s: System, mid: System, step: Step) returns (s': System)
    requires Leads(c, s, mid) && Ready(mid, step)
    ensures Enabled(mid, Timed(mid.clock, step)) && s' == Next(c, mid, Timed(mid.clock, step)) && Leads(c, s, s')
  {
    hide Leads, Act, Ready;
    LeadsOn(c, s, mid, step);
    assert mid.(clock := mid.clock) == mid;
    s' := Act(c, mid, step);
  }

  // ---- the parts of the run ----

  /** Registers the device of the login, known or not. */
  lemma RegistersAny(c: Settings, s: System, mid: System, w: nat, key: string, platform: string)
    returns (s': System, d: Id)
    requires Leads(c, s, mid) && w in mid.logins && mid.logins[w].pc.AtRegister? && mid.logins[w].now == mid.clock
    requires mid.logins[w].payload == Payload(key, platform) && Startable(key, platform)
    requires UniqueDeviceKeys(mid.db.devices) && mid.logins[w].pc.user in mid.db.users
    ensures Leads(c, s, s')
    ensures var pc := mid.logins[w].pc;
            s' == mid.(db := mid.db.(devices := mid.db.devices[d := Registered(mid, key, platform, pc.user)]),
                       logins := mid.logins[w := mid.logins[w].(pc := AtCreate(pc.identity, pc.user, d))])
  {
    hide Leads, UniqueDeviceKeys, Payload, Startable, IsDevice;
    if x :| IsDevice(mid.db, mid.logins[w].pc.user, Fingerprint(key), x) {
      d := x;
      s' := RegistersKnown(c, s, mid, w, key, platform, d);
    } else {
      d := NewWorker(mid.db.devices.Keys);
      s' := RegistersFirst(c, s, mid, w, key, platform, d);
    }
  }

  /** No session has a token that was never drawn. */
  lemma FreshTokenIsFree(c: Settings, s: System, token: string)
    requires Reachable(c, s) && Configured(c) && token !in s.drawn
    ensures !TokenTaken(s.db, Fingerprint(token))
  {
    hide Reachable, Traced, Drawn, OriginTraced;
    ReachableTraced(c, s);
    ReachableBorn(c, s);
    var h := s.log.trace;
    OriginsDrawn(s.db, h, s.drawn);
    forall i | i in s.db.sessions ensures s.db.sessions[i].token != Fingerprint(token) {
      var born :| BornWith(h.origins, i, born);
      TheOrigin(c, s.db, h, s.logins, s.redemptions, born);
      OriginHasToken(c, s.db, h, born, h.origins[born]);
    }
  }

  lemma OriginsDrawn(t: Tables, h: Trace, drawn: set<string>)
    requires Drawn(t, h, drawn)
    ensures forall token :: token in h.origins ==> token in drawn
  {}

  lemma OriginHasToken(c: Settings, t: Tables, h: Trace, token: string, o: Origin)
    requires OriginTraced(c, t, h, token, o)
    ensures o.session in t.sessions && t.sessions[o.session].token == Fingerprint(token)
  {
    hide IsDevice, InTime;
  }

  /** Through the closing check to the stored grant. */
  lemma Completes(c: Settings, s: System, mid: System, w: nat, token: string, i: Id, code: string) returns (s': System)
    requires Configured(c) && Reachable(c, s) && Leads(c, s, mid) && Fresh(mid, code)
    requires w in mid.logins && mid.logins[w].pc == AtCheck(token) && mid.logins[w].now == mid.clock
    requires i in mid.db.sessions && mid.db.sessions[i].token == Fingerprint(token) && Alive(mid.db, i, mid.clock)
    ensures Leads(c, s, s') && s'.clock == mid.clock && s'.redemptions == mid.redemptions
    ensures s'.log.trace.delivered == mid.log.trace.delivered
    ensures var row := GrantRow(Sealed(GrantPurpose, map["session_token" := token]), mid.clock + c.grantTtl);
            s'.db == mid.db.(grants := mid.db.grants[Fingerprint(code) := row])
  {
    hide Leads, Reachable, Alive, Next;
    LeadsReaches(c, s, mid);
    var a := Steps(c, s, mid, Check(w));
    CheckDoes(c, mid, Timed(mid.clock, Check(w)), i);
    KeepsTime(c, mid, Timed(mid.clock, Check(w)));
    FreshCodeIsFree(c, mid, code);
    s' := Steps(c, s, a, Grant(w, code));
    GrantDoes(c, a, Timed(a.clock, Grant(w, code)));
    KeepsTime(c, a, Timed(a.clock, Grant(w, code)));
  }

  lemma FreshCodeIsFree(c: Settings, s: System, code: string)
    requires Reachable(c, s) && Configured(c) && code !in s.drawn
    ensures Fingerprint(code) !in s.db.grants && Fingerprint(code) !in s.db.flows
  {
    ReachableTraced(c, s);
    hide Reachable, Traced;
  }

  /** A step ends at its own time. */
  lemma KeepsTime(c: Settings, s: System, e: Timed)
    requires Enabled(s, e)
    requires e.step.Check? || e.step.Grant? || e.step.BeginRedeem? || e.step.FinishRedeem?
    ensures Next(c, s, e).clock == e.now
  {
    hide ResolveSession, Open, Required, ConsumeGrant;
  }

  /** From the stored grant to the delivered session grant. */
  lemma Redeems(c: Settings, s: System, mid: System, code: string, token: string, i: Id) returns (s': System)
    requires Configured(c) && Reachable(c, s) && Leads(c, s, mid) && code != "" && token != ""
    requires Fingerprint(code) in mid.db.grants
    requires mid.db.grants[Fingerprint(code)]
          == GrantRow(Sealed(GrantPurpose, map["session_token" := token]), mid.clock + c.grantTtl)
    requires i in mid.db.sessions && mid.db.sessions[i].token == Fingerprint(token) && Alive(mid.db, i, mid.clock)
    ensures Leads(c, s, s') && s'.clock == mid.clock && s'.db == mid.db.(grants := mid.db.grants - {Fingerprint(code)})
    ensures |s'.log.trace.delivered| == |mid.log.trace.delivered| + 1
    ensures mid.log.trace.delivered <= s'.log.trace.delivered
    ensures var d := s'.log.trace.delivered[|mid.log.trace.delivered|];
            && d.token == token && d.at == mid.clock && d.principal.session == i
            && d.principal.user == mid.db.sessions[i].user && d.principal.device == mid.db.sessions[i].device
            && d.principal.expiresAt == mid.db.sessions[i].expiresAt
  {
    hide Leads, Reachable, Alive, Next;
    var w := NewWorker(mid.redemptions.Keys);
    var begin := Timed(mid.clock, BeginRedeem(w, code));
    var a := Steps(c, s, mid, begin.step);
    RedeemDoes(c, mid, begin);
    KeepsTime(c, mid, begin);
    LeadsReaches(c, s, a);
    var finish := Timed(a.clock, FinishRedeem(w));
    s' := Steps(c, s, a, finish.step);
    ExchangeDeliversExactly(c, a, finish);
    KeepsTime(c, a, finish);
    RedeemedIs(c, a, w, i);
    SameAlive(mid.db, a.db, i, mid.clock);
  }

  lemma RedeemedIs(c: Settings, s: System, w: nat, i: Id)
    requires Configured(c) && Reachable(c, s) && w in s.redemptions && i in s.db.sessions
    requires s.db.sessions[i].token == Fingerprint(s.redemptions[w].token)
    ensures s.redemptions[w].token in s.log.trace.origins && RedeemedSession(s, w) == i
  {
    hide Reachable, Inv;
    RedeemedHasSession(c, s, w);
    ReachableInv(c, s);
    InvConstraints(s);
    OneToken(s.db, i, RedeemedSession(s, w));
  }

  lemma OneToken(t: Tables, i: Id, j: Id)
    requires Constraints(t) && i in t.sessions && j in t.sessions && t.sessions[i].token == t.sessions[j].token
    ensures i == j
  {
    hide UniqueDeviceKeys, UniqueEmails;
  }

  lemma SameAlive(t: Tables, t': Tables, i: Id, now: Time)
    requires t' == t.(grants := t'.grants)
    ensures Alive(t', i, now) <==> Alive(t, i, now)
  {}

  // ---- the whole login ----

  /** A session just created for an active user on a device just registered. */
  lemma JustAlive(c: Settings, t: Tables, i: Id, now: Time)
    requires Configured(c) && i in t.sessions && t.sessions[i].revokedAt.None?
    requires t.sessions[i].expiresAt == now + c.sessionTtl
    requires t.sessions[i].user in t.users && t.users[t.sessions[i].user].active
    requires t.sessions[i].device in t.devices && t.devices[t.sessions[i].device].revokedAt.None?
    ensures Alive(t, i, now)
  {}

  /** What a delivered session grant of a fresh login is. */
  ghost predicate DeliveredFor(c: Settings, s: System, d: Delivery, claims: Claims, key: string, platform: string) {
    var p := d.principal;
    && d.at == s.clock && p.session in s.db.sessions && Alive(s.db, p.session, s.clock)
    && s.db.sessions[p.session]
       == SessionRow(p.user, p.device, Fingerprint(d.token), s.clock + c.sessionTtl, None)
    && Subject(c.issuer, claims.subject) in s.db.identities
    && s.db.identities[Subject(c.issuer, claims.subject)] == p.user
    && p.user in s.db.users && s.db.users[p.user] == UserRow(claims.email, claims.displayName, true)
    && p.device in s.db.devices
    && s.db.devices[p.device] == DeviceRow(p.user, Fingerprint(key), platform, s.clock, None)
  }

  /** As far as the created session. */
  lemma OpensSession(c: Settings, s: System, claims: Claims, newUser: Id, key: string, platform: string)
    returns (s': System, w: nat, token: string, i: Id)
    requires Reachable(c, s) && Configured(c) && Startable(key, platform) && Welcome(c, s.db, claims, newUser)
    ensures Leads(c, s, s') && s'.clock == s.clock && s'.log.trace.delivered == s.log.trace.delivered && token != ""
    ensures w in s'.logins && s'.logins[w].pc == AtCheck(token) && s'.logins[w].now == s'.clock
    ensures i in s'.db.sessions && s'.db.sessions[i].token == Fingerprint(token) && Alive(s'.db, i, s'.clock)
    ensures var row := s'.db.sessions[i];
            DeliveredFor(c, s', Delivery(token, Principal(row.user, i, row.device, {}, row.expiresAt), s'.clock),
                         claims, key, platform)
  {
    hide Leads, Reachable, Payload, ProvisionIdentity, Constraints, UniqueDeviceKeys, TokenTaken, Alive, Inv, Who,
      Startable;
    ReachableInv(c, s);
    InvConstraints(s);
    DeviceKeysUnique(s.db);
    w := NewWorker(s.logins.Keys);
    i := NewWorker(s.db.sessions.Keys);
    var state := NewSecret(s.drawn);
    token := NewSecret(s.drawn + {state});
    FreshCodeIsFree(c, s, state);
    FreshTokenIsFree(c, s, token);
    var t, user := WelcomeIsProvisioned(c, s.db, claims, newUser);
    LeadsNowhere(c, s);
    var a := LogsIn(c, s, s, w, state, key, platform, claims, newUser, t, user);
    var b, d := RegistersAny(c, s, a, w, key, platform);
    StillFree(s.db, b.db, Fingerprint(token));
    s' := Creates(c, s, b, w, token, i);
    JustAlive(c, s'.db, i, s'.clock);
    WhoIs(c, claims);
  }

  lemma DeviceKeysUnique(t: Tables)
    requires Constraints(t)
    ensures UniqueDeviceKeys(t.devices)
  {}

  lemma StillFree(t: Tables, t': Tables, token: Fingerprint)
    requires !TokenTaken(t, token) && t'.sessions == t.sessions
    ensures !TokenTaken(t', token)
  {}

  lemma WhoIs(c: Settings, claims: Claims)
    ensures Who(c, claims).subject == Subject(c.issuer, claims.subject)
  {}

  lemma SameDelivery(c: Settings, s: System, s': System, d: Delivery, d': Delivery, claims: Claims, key: string,
                     platform: string)
    requires DeliveredFor(c, s, d, claims, key, platform)
    requires s'.clock == s.clock && s'.db == s.db.(grants := s'.db.grants)
    requires d'.token == d.token && d'.at == d.at && d'.principal.session == d.principal.session
    requires d'.principal.user == d.principal.user && d'.principal.device == d.principal.device
    ensures DeliveredFor(c, s', d', claims, key, platform)
  {}

  /** From every reachable state, whoever is welcome can log in with any device key and
      platform that a login may start with, and is handed exactly one session grant: for
      the user the claims name, on the device of that key and platform, alive now. */
  lemma LoginDelivers(c: Settings, s: System, claims: Claims, newUser: Id, key: string, platform: string)
    returns (s': System)
    requires Reachable(c, s) && Configured(c) && Welcome(c, s.db, claims, newUser)
    requires 8 <= |key| <= 200 && platform in {"macos", "windows", "linux", "ios", "android", "web"}
    ensures Leads(c, s, s') && |s'.log.trace.delivered| == |s.log.trace.delivered| + 1
    ensures s.log.trace.delivered <= s'.log.trace.delivered
    ensures DeliveredFor(c, s', s'.log.trace.delivered[|s.log.trace.delivered|], claims, key, platform)
  {
    assert Startable(key, platform);
    hide Leads, Reachable, Welcome, DeliveredFor, Alive, Startable;
    var a, w, token, i := OpensSession(c, s, claims, newUser, key, platform);
    var code := NewSecret(a.drawn);
    var b := Completes(c, s, a, w, token, i, code);
    SameAlive(a.db, b.db, i, a.clock);
    s' := Redeems(c, s, b, code, token, i);
    var row := a.db.sessions[i];
    SameDelivery(c, a, s', Delivery(token, Principal(row.user, i, row.device, {}, row.expiresAt), a.clock),
                 s'.log.trace.delivered[|s.log.trace.delivered|], claims, key, platform);
  }
}
