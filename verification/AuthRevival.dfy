/**
 How a dead session comes back: its device is revoked between the steps of the login
 that creates it, and a later login registers the same device again. From every
 reachable state the revivable sessions, and no others, have a run that revives them.
 */
module AuthRevival {
  import opened Options
  import opened AuthTables
  import opened AuthTransactions
  import opened AuthProtocol
  import opened AuthSafety
  import opened AuthProvenance
  import opened AuthBirths

  // ---- runs put together ----

  ghost predicate Leads(c: Settings, s: System, s': System) {
    exists run :: Runs(c, s, run) && Run(c, s, run) == s'
  }

  lemma LeadsNowhere(c: Settings, s: System)
    ensures Leads(c, s, s)
  {
    assert Runs(c, s, []) && Run(c, s, []) == s;
  }

  lemma {:induction false} RunAppend(c: Settings, s: System, run: seq<Timed>, e: Timed)
    requires Runs(c, s, run) && Enabled(Run(c, s, run), e)
    ensures Runs(c, s, run + [e]) && Run(c, s, run + [e]) == Next(c, Run(c, s, run), e)
    decreases |run|
  {
    hide Enabled, Next;
    if run == [] {
      assert [] + [e] == [e] && [e][1..] == [];
      assert Runs(c, Next(c, s, e), []) && Run(c, Next(c, s, e), []) == Next(c, s, e);
    } else {
      assert (run + [e])[0] == run[0] && (run + [e])[1..] == run[1..] + [e];
      RunAppend(c, Next(c, s, run[0]), run[1..], e);
    }
  }

  /** One more step, at the same time. */
  lemma LeadsOn(c: Settings, s: System, mid: System, step: Step)
    requires Leads(c, s, mid) && Ready(mid, step)
    ensures Leads(c, s, Act(c, mid, step))
  {
    hide Ready, Act, Runs, Run;
    var run :| Runs(c, s, run) && Run(c, s, run) == mid;
    var e := Timed(mid.clock, step);
    assert mid.(clock := e.now) == mid;
    RunAppend(c, s, run, e);
  }

  // ---- a login, step by step ----

  function Who(c: Settings, claims: Claims): Identity {
    Identity(Subject(c.issuer, claims.subject), claims.email, claims.displayName)
  }

  function Payload(key: string, platform: string): map<string, string> {
    FlowPayload("verifier", "nonce", key, platform)
  }

  function FlowFor(c: Settings, s: System, key: string, platform: string): FlowRow {
    FlowRow(Sealed(FlowPurpose, Payload(key, platform)), c.redirectUri, s.clock + c.flowTtl)
  }

  function Registered(s: System, key: string, platform: string, user: Id): DeviceRow {
    DeviceRow(user, Fingerprint(key), platform, s.clock, None)
  }

  /** A device key and a platform that a login may start with. */
  predicate Startable(key: string, platform: string) {
    8 <= |key| <= 200 && platform in {"macos", "windows", "linux", "ios", "android", "web"}
  }

  /** From `start_login` to a provisioned identity. */
  lemma LogsIn(c: Settings, s: System, mid: System, w: nat, state: string, key: string, platform: string,
               claims: Claims, newUser: Id, t: Tables, user: Id)
    returns (s': System)
    requires Configured(c) && Leads(c, s, mid) && w !in mid.logins
    requires Fresh(mid, state) && Fingerprint(state) !in mid.db.flows
    requires Startable(key, platform) && ProvisionIdentity(mid.db, Who(c, claims), newUser) == Committed(t, user)
    ensures Leads(c, s, s') && s'.log.resolved == mid.log.resolved && s'.log.trace.delivered == mid.log.trace.delivered
    ensures s' == mid.(db := t, drawn := mid.drawn + {state}, log := s'.log,
                       logins := mid.logins[w := Login(state, Payload(key, platform), mid.clock,
                                                       AtRegister(Who(c, claims), user))])
  {
    hide Leads, Payload, Who, ProvisionIdentity;
    var s1 := Starts(c, s, mid, state, key, platform);
    var s2 := CallsBack(c, s, mid, s1, w, state, key, platform);
    var s3 := Exchanges(c, s, s2, w, claims);
    s' := Provisions(c, s, s3, w, claims, newUser, t, user);
  }

  lemma Starts(c: Settings, s: System, mid: System, state: string, key: string, platform: string) returns (s': System)
    requires Leads(c, s, mid) && Fresh(mid, state) && Fingerprint(state) !in mid.db.flows && Startable(key, platform)
    ensures Leads(c, s, s') && s'.log.resolved == mid.log.resolved && s'.log.trace.delivered == mid.log.trace.delivered
    ensures s' == mid.(db := mid.db.(flows := mid.db.flows[Fingerprint(state) := FlowFor(c, mid, key, platform)]),
                       drawn := mid.drawn + {state}, log := s'.log)
  {
    hide Leads;
    var step := StartLogin(state, "verifier", "nonce", key, platform);
    s' := Act(c, mid, step);
    LeadsOn(c, s, mid, step);
  }

  lemma PayloadHas(key: string, platform: string)
    requires Startable(key, platform)
    ensures Required(Payload(key, platform), "verifier").Some? && Required(Payload(key, platform), "nonce").Some?
    ensures Required(Payload(key, platform), "device_key") == Some(key)
    ensures Required(Payload(key, platform), "platform") == Some(platform)
  {}

  lemma CallsBack(c: Settings, s: System, before: System, mid: System, w: nat, state: string, key: string,
                  platform: string)
    returns (s': System)
    requires Configured(c) && Leads(c, s, mid) && mid.clock == before.clock && w !in mid.logins && state != ""
    requires Startable(key, platform) && Fingerprint(state) !in before.db.flows
    requires mid.db == before.db.(flows := before.db.flows[Fingerprint(state) := FlowFor(c, before, key, platform)])
    ensures Leads(c, s, s') && s'.log.resolved == mid.log.resolved && s'.log.trace.delivered == mid.log.trace.delivered
    ensures s' == mid.(db := before.db, log := s'.log,
                       logins := mid.logins[w := Login(state, Payload(key, platform), mid.clock, AtExchange)])
  {
    PayloadHas(key, platform);
    hide Leads, Payload, Required, Startable;
    var step := BeginComplete(w, state, "code");
    s' := Act(c, mid, step);
    LeadsOn(c, s, mid, step);
    var fp := Fingerprint(state);
    assert FlowLive(mid.db, fp, mid.clock) && FlowUsable(c, mid.db.flows[fp]);
    assert mid.db.flows - {fp} == before.db.flows;
    assert mid.db.(flows := before.db.flows) == before.db;
  }

  lemma Exchanges(c: Settings, s: System, mid: System, w: nat, claims: Claims) returns (s': System)
    requires Leads(c, s, mid) && w in mid.logins && mid.logins[w].pc == AtExchange
    ensures Leads(c, s, s')
    ensures s' == mid.(logins := mid.logins[w := mid.logins[w].(pc := AtProvision(Who(c, claims)))])
  {
    hide Leads;
    s' := Act(c, mid, Exchange(w, Some(claims)));
    LeadsOn(c, s, mid, Exchange(w, Some(claims)));
  }

  lemma Provisions(c: Settings, s: System, mid: System, w: nat, claims: Claims, newUser: Id, t: Tables, user: Id)
    returns (s': System)
    requires Leads(c, s, mid) && w in mid.logins && mid.logins[w].pc == AtProvision(Who(c, claims))
    requires ProvisionIdentity(mid.db, Who(c, claims), newUser) == Committed(t, user)
    ensures Leads(c, s, s')
    ensures s' == mid.(db := t, logins := mid.logins[w := mid.logins[w].(pc := AtRegister(Who(c, claims), user))])
  {
    hide Leads, ProvisionIdentity;
    s' := Act(c, mid, Provision(w, newUser));
    LeadsOn(c, s, mid, Provision(w, newUser));
  }

  /** The identity provider says of an active user what the database says. */
  ghost predicate Known(c: Settings, t: Tables, claims: Claims, user: Id) {
    && Who(c, claims).subject in t.identities && t.identities[Who(c, claims).subject] == user
    && user in t.users && t.users[user] == UserRow(claims.email, claims.displayName, true)
    && UniqueEmails(t.users)
  }

  /** Then provisioning changes nothing. */
  lemma KnownIsProvisioned(c: Settings, t: Tables, claims: Claims, user: Id)
    requires Known(c, t, claims, user)
    ensures ProvisionIdentity(t, Who(c, claims), 0) == Committed(t, user)
  {
    var row := UserRow(claims.email, claims.displayName, true);
    assert !EmailTaken(t, claims.email, user);
    assert t.users[user := row] == t.users;
  }

  /** Registering a device that is there: the same row, not revoked. */
  lemma RegistersKnown(c: Settings, s: System, mid: System, w: nat, key: string, platform: string, d: Id)
    returns (s': System)
    requires Leads(c, s, mid) && w in mid.logins && mid.logins[w].pc.AtRegister? && mid.logins[w].now == mid.clock
    requires mid.logins[w].payload == Payload(key, platform) && Startable(key, platform)
    requires UniqueDeviceKeys(mid.db.devices) && IsDevice(mid.db, mid.logins[w].pc.user, Fingerprint(key), d)
    ensures Leads(c, s, s')
    ensures var pc := mid.logins[w].pc;
            s' == mid.(db := mid.db.(devices := mid.db.devices[d := Registered(mid, key, platform, pc.user)]),
                       logins := mid.logins[w := mid.logins[w].(pc := AtCreate(pc.identity, pc.user, d))])
  {
    PayloadHas(key, platform);
    RegisterKnown(mid.db, mid.logins[w].pc.user, Fingerprint(key), platform, mid.clock, 1, d);
    hide Leads, Payload, Required, AuthTables.RegisterDevice, IsDevice, UniqueDeviceKeys, Startable;
    s' := Act(c, mid, Register(w, 1));
    LeadsOn(c, s, mid, Register(w, 1));
  }

  /** Registering a device for the first time. */
  lemma RegistersFirst(c: Settings, s: System, mid: System, w: nat, key: string, platform: string, d: Id)
    returns (s': System)
    requires Leads(c, s, mid) && w in mid.logins && mid.logins[w].pc.AtRegister? && mid.logins[w].now == mid.clock
    requires mid.logins[w].payload == Payload(key, platform) && Startable(key, platform)
    requires forall x :: !IsDevice(mid.db, mid.logins[w].pc.user, Fingerprint(key), x)
    requires d !in mid.db.devices && mid.logins[w].pc.user in mid.db.users
    ensures Leads(c, s, s')
    ensures var pc := mid.logins[w].pc;
            s' == mid.(db := mid.db.(devices := mid.db.devices[d := Registered(mid, key, platform, pc.user)]),
                       logins := mid.logins[w := mid.logins[w].(pc := AtCreate(pc.identity, pc.user, d))])
  {
    PayloadHas(key, platform);
    RegisterNew(mid.db, mid.logins[w].pc.user, Fingerprint(key), platform, mid.clock, d);
    hide Leads, Payload, Required, AuthTables.RegisterDevice, IsDevice, Startable;
    s' := Act(c, mid, Register(w, d));
    LeadsOn(c, s, mid, Register(w, d));
  }

  lemma Creates(c: Settings, s: System, mid: System, w: nat, token: string, i: Id) returns (s': System)
    requires Leads(c, s, mid) && w in mid.logins && mid.logins[w].pc.AtCreate? && i !in mid.db.sessions
    requires Fresh(mid, token)
    requires mid.logins[w].pc.user in mid.db.users && mid.logins[w].pc.device in mid.db.devices
    requires !TokenTaken(mid.db, Fingerprint(token))
    ensures Leads(c, s, s') && s'.log.resolved == mid.log.resolved && s'.log.trace.delivered == mid.log.trace.delivered
    ensures var pc := mid.logins[w].pc;
            var row := SessionRow(pc.user, pc.device, Fingerprint(token), mid.logins[w].now + c.sessionTtl, None);
            s' == mid.(db := mid.db.(sessions := mid.db.sessions[i := row], events := s'.db.events),
                       logins := mid.logins[w := mid.logins[w].(pc := AtCheck(token))],
                       drawn := mid.drawn + {token}, log := s'.log)
  {
    hide Leads, TokenTaken;
    s' := Act(c, mid, Create(w, token, i));
    LeadsOn(c, s, mid, Create(w, token, i));
  }

  // ---- every revivable session can come back ----

  lemma {:induction false} LongerThanAll(texts: set<string>) returns (n: nat)
    ensures forall x :: x in texts ==> |x| <= n
  {
    if texts == {} {
      return 0;
    }
    var x :| x in texts;
    var rest := LongerThanAll(texts - {x});
    n := if |x| > rest then |x| else rest;
    forall y | y in texts ensures |y| <= n {
      assert y == x || y in texts - {x};
    }
  }

  lemma NewSecret(drawn: set<string>) returns (secret: string)
    ensures secret != "" && secret !in drawn
  {
    var n := LongerThanAll(drawn);
    secret := seq(n + 1, _ => 'x');
  }

  lemma {:induction false} NewWorker(busy: set<nat>) returns (w: nat)
    ensures forall x :: x in busy ==> x < w
  {
    if busy == {} {
      return 0;
    }
    var x :| x in busy;
    var rest := NewWorker(busy - {x});
    w := if x >= rest then x + 1 else rest;
    forall y | y in busy ensures y < w {
      assert y == x || y in busy - {x};
    }
  }

  /** What is known of the login that created a session. */
  lemma BirthOf(c: Settings, s: System, i: Id) returns (key: string, name: string)
    requires Reachable(c, s) && Configured(c) && i in s.db.sessions
    ensures 8 <= |key| <= 200
    ensures Subject(c.issuer, name) in s.db.identities
    ensures s.db.identities[Subject(c.issuer, name)] == s.db.sessions[i].user
    ensures IsDevice(s.db, s.db.sessions[i].user, Fingerprint(key), s.db.sessions[i].device)
  {
    hide Reachable, Traced, Drawn, OriginTraced;
    ReachableTraced(c, s);
    ReachableBorn(c, s);
    var h := s.log.trace;
    var token :| BornWith(h.origins, i, token);
    TheOrigin(c, s.db, h, s.logins, s.redemptions, token);
    var o := h.origins[token];
    OriginSays(c, s.db, h, token, o);
    key, name := h.starts[o.state].deviceKey, o.identity.subject.name;
    assert o.identity.subject == Subject(c.issuer, name);
  }

  lemma TheOrigin(c: Settings, t: Tables, h: Trace, logins: map<nat, Login>, redemptions: map<nat, Redemption>,
                  token: string)
    requires Traced(c, t, h, logins, redemptions) && token in h.origins
    ensures OriginTraced(c, t, h, token, h.origins[token])
  {
    hide OriginTraced, FlowTraced, LoginTraced, GrantTraced;
  }

  lemma OriginSays(c: Settings, t: Tables, h: Trace, token: string, o: Origin)
    requires OriginTraced(c, t, h, token, o)
    ensures o.state in h.starts && o.session in t.sessions
    ensures t.sessions[o.session].user == o.user && t.sessions[o.session].device == o.device
    ensures o.identity.subject in t.identities && t.identities[o.identity.subject] == o.user
    ensures IsDevice(t, o.user, Fingerprint(h.starts[o.state].deviceKey), o.device)
  {
    hide IsDevice, InTime;
  }

  /** From every reachable state a login of its user on its device brings a revivable
      session back. */
  lemma RevivableComesBack(c: Settings, s: System, i: Id, now: Time) returns (s': System)
    requires Reachable(c, s) && Configured(c) && Revivable(s.db, i, now)
    ensures Leads(c, s, s') && Alive(s'.db, i, now)
  {
    hide Reachable, Leads, Drawn, Payload, IsDevice, UniqueDeviceKeys, Known, Who, Constraints, ProvisionIdentity;
    var user, d := s.db.sessions[i].user, s.db.sessions[i].device;
    var key, name := BirthOf(c, s, i);
    var claims := Claims(name, s.db.users[user].email, s.db.users[user].displayName);
    var state := NewSecret(s.drawn);
    var w := NewWorker(s.logins.Keys);
    ReadyForLogin(c, s, state, claims, user);
    KnownIsProvisioned(c, s.db, claims, user);
    LeadsNowhere(c, s);
    var a := LogsIn(c, s, s, w, state, key, "macos", claims, 0, s.db, user);
    s' := RegistersKnown(c, s, a, w, key, "macos", d);
  }

  lemma ReadyForLogin(c: Settings, s: System, state: string, claims: Claims, user: Id)
    requires Reachable(c, s) && Configured(c) && state !in s.drawn
    requires user in s.db.users && s.db.users[user] == UserRow(claims.email, claims.displayName, true)
    requires Subject(c.issuer, claims.subject) in s.db.identities
    requires s.db.identities[Subject(c.issuer, claims.subject)] == user
    ensures Known(c, s.db, claims, user) && UniqueDeviceKeys(s.db.devices) && Fingerprint(state) !in s.db.flows
  {
    ReachableInv(c, s);
    ReachableTraced(c, s);
    hide Reachable, Traced;
  }

  ghost predicate Returns(c: Settings, s: System, i: Id, run: seq<Timed>, later: Time) {
    Runs(c, s, run) && Alive(Run(c, s, run).db, i, later)
  }

  /** In a reachable state a dead session can come back at some later time if and only if
      it is revivable. */
  lemma ComesBackExactly(c: Settings, s: System, i: Id, now: Time)
    requires Reachable(c, s) && Configured(c) && i in s.db.sessions && !Alive(s.db, i, now)
    ensures Revivable(s.db, i, now) <==> exists run, later :: now <= later && Returns(c, s, i, run, later)
  {
    hide Reachable, Revivable, Alive, Runs, Run;
    if Revivable(s.db, i, now) {
      var s' := RevivableComesBack(c, s, i, now);
      var run :| Runs(c, s, run) && Run(c, s, run) == s';
      assert Returns(c, s, i, run, now);
    }
    forall run, later | now <= later && Returns(c, s, i, run, later) ensures Revivable(s.db, i, now) {
      OnlyRevivableComeBack(c, s, run, i, now, later);
    }
  }

  // ---- and there are revivable sessions ----

  const KEY := "device-1"
  const CLAIMS := Claims("subject", "person@example.org", "Person")

  function Device(revokedAt: Option<Time>): map<Id, DeviceRow> {
    map[1 := DeviceRow(1, Fingerprint(KEY), "macos", 0, revokedAt)]
  }

  function Session(c: Settings, token: string, revokedAt: Option<Time>): SessionRow {
    SessionRow(1, 1, Fingerprint(token), c.sessionTtl, revokedAt)
  }

  /** One person with an identity, whatever else there is. */
  function Database(c: Settings, devices: map<Id, DeviceRow>, sessions: map<Id, SessionRow>,
                    events: multiset<Event>): Tables {
    Tables(map[], map[], map[1 := UserRow(CLAIMS.email, CLAIMS.displayName, true)], map[Who(c, CLAIMS).subject := 1],
           map[], map[], devices, sessions, map[], events)
  }

  lemma PersonIsKnown(c: Settings, t: Tables)
    requires t == Database(c, t.devices, t.sessions, t.events)
    ensures Known(c, t, CLAIMS, 1)
  {}

  function Opening(c: Settings): System {
    System(Database(c, map[], map[], multiset{}), 0, map[], map[], {}, {},
           History(Trace([], [], map[], map[], map[], []), {}, [], Tally(0, 0, 0, 0, 0, 0)))
  }

  lemma OpeningIsInitial(c: Settings)
    ensures Initial(Opening(c))
  {}

  function Holder(c: Settings): Principal {
    Principal(1, 1, 1, {}, c.sessionTtl)
  }

  /** The person logs in, on a device seen for the first time. */
  lemma FirstSession(c: Settings) returns (s: System)
    requires Configured(c)
    ensures Leads(c, Opening(c), s) && s.clock == 0 && s.principals == {} && s.drawn == {"state-0", "token-0"}
    ensures s.db == Database(c, Device(None), map[1 := Session(c, "token-0", None)], s.db.events)
    ensures 1 !in s.logins
  {
    hide Leads, Payload, Known, ProvisionIdentity;
    var start := Opening(c);
    LeadsNowhere(c, start);
    PersonIsKnown(c, start.db);
    KnownIsProvisioned(c, start.db, CLAIMS, 1);
    var a := LogsIn(c, start, start, 0, "state-0", KEY, "macos", CLAIMS, 0, start.db, 1);
    var b := RegistersFirst(c, start, a, 0, KEY, "macos", 1);
    assert b.db.devices == Device(None);
    s := Creates(c, start, b, 0, "token-0", 1);
  }

  /** And uses the session. */
  lemma FirstLogin(c: Settings) returns (s: System)
    requires Configured(c)
    ensures Leads(c, Opening(c), s) && s.clock == 0 && s.principals == {Holder(c)} && s.drawn == {"state-0", "token-0"}
    ensures s.db == Database(c, Device(None), map[1 := Session(c, "token-0", None)], s.db.events)
    ensures 1 !in s.logins
  {
    var d := FirstSession(c);
    hide Leads, Database, Device, Session;
    LeadsOn(c, Opening(c), d, Authenticate("token-0"));
    s := Act(c, d, Authenticate("token-0"));
    ResolvesFirst(c, d.db);
  }

  lemma ResolvesFirst(c: Settings, t: Tables)
    requires Configured(c) && t == Database(c, Device(None), map[1 := Session(c, "token-0", None)], t.events)
    ensures ResolveSession(t, Fingerprint("token-0"), 0) == Some(Holder(c))
  {
    assert Resolves(t, Fingerprint("token-0"), 0, 1);
  }

  lemma DeviceIsKnown(t: Tables)
    requires t.devices == Device(None)
    ensures UniqueDeviceKeys(t.devices) && IsDevice(t, 1, Fingerprint(KEY), 1)
  {}

  /** The same person logs in a second time, as far as the registration of the device. */
  lemma SecondRegistration(c: Settings) returns (s: System)
    requires Configured(c)
    ensures Leads(c, Opening(c), s) && s.clock == 0 && Holder(c) in s.principals
    ensures s.drawn == {"state-0", "token-0", "state-1"}
    ensures s.db == Database(c, Device(None), map[1 := Session(c, "token-0", None)], s.db.events)
    ensures 1 in s.logins && s.logins[1] == Login("state-1", Payload(KEY, "macos"), 0, AtCreate(Who(c, CLAIMS), 1, 1))
  {
    var a := FirstLogin(c);
    hide Leads, Payload, Session, Known, UniqueDeviceKeys, IsDevice, ProvisionIdentity;
    PersonIsKnown(c, a.db);
    KnownIsProvisioned(c, a.db, CLAIMS, 1);
    var b := LogsIn(c, Opening(c), a, 1, "state-1", KEY, "macos", CLAIMS, 0, a.db, 1);
    DeviceIsKnown(b.db);
    s := RegistersKnown(c, Opening(c), b, 1, KEY, "macos", 1);
    assert s.db.devices == Device(None);
  }

  /** Before that login goes on, the device is revoked. */
  lemma RevocationComes(c: Settings) returns (s: System)
    requires Configured(c)
    ensures Leads(c, Opening(c), s) && s.clock == 0 && s.drawn == {"state-0", "token-0", "state-1"}
    ensures s.db == Database(c, Device(Some(0)), map[1 := Session(c, "token-0", Some(0))], s.db.events)
    ensures 1 in s.logins && s.logins[1] == Login("state-1", Payload(KEY, "macos"), 0, AtCreate(Who(c, CLAIMS), 1, 1))
  {
    var d := SecondRegistration(c);
    hide Leads, Payload, AuthTables.RevokeDevice;
    var step := RevokeDevice(Holder(c), 1);
    LeadsOn(c, Opening(c), d, step);
    CascadeIs(c, d.db);
    s := Act(c, d, step);
  }

  lemma CascadeIs(c: Settings, t: Tables)
    requires t == Database(c, Device(None), map[1 := Session(c, "token-0", None)], t.events)
    ensures AuthTables.RevokeDevice(t, 1, 1, 0).0
         == Database(c, Device(Some(0)), map[1 := Session(c, "token-0", Some(0))], t.events)
  {
    assert RevokedSessions(t.sessions, 1, 0) == map[1 := Session(c, "token-0", Some(0))];
  }

  function Sessions(c: Settings): map<Id, SessionRow> {
    map[1 := Session(c, "token-0", Some(0)), 2 := Session(c, "token-1", None)]
  }

  /** It creates its session all the same. */
  lemma RevokedInBetween(c: Settings) returns (s: System)
    requires Configured(c)
    ensures Leads(c, Opening(c), s) && s.clock == 0
    ensures s.db == Database(c, Device(Some(0)), Sessions(c), s.db.events)
    ensures 1 in s.logins && s.logins[1].pc == AtCheck("token-1") && s.logins[1].now == 0
  {
    var e := RevocationComes(c);
    hide Leads, Payload;
    assert !TokenTaken(e.db, Fingerprint("token-1"));
    s := Creates(c, Opening(c), e, 1, "token-1", 2);
    assert s.db.sessions == Sessions(c);
  }

  lemma DeadForNow(c: Settings, t: Tables)
    requires Configured(c) && t == Database(c, Device(Some(0)), Sessions(c), t.events)
    ensures Revivable(t, 2, 0) && !Alive(t, 2, 0)
    ensures ResolveSession(t, Fingerprint("token-1"), 0).None?
  {
    assert forall i :: !Resolves(t, Fingerprint("token-1"), 0, i);
  }

  lemma OpeningReaches(c: Settings, s: System)
    requires Leads(c, Opening(c), s)
    ensures Reachable(c, s)
  {
    OpeningIsInitial(c);
    hide Initial, Opening, Runs, Run;
    var start := Opening(c);
    var run :| Runs(c, start, run) && Run(c, start, run) == s;
  }

  /** The closing check refuses that login, and its session stays behind, dead and
      revivable. */
  lemma RevivableIsReached(c: Settings) returns (s: System, i: Id)
    requires Configured(c)
    ensures Reachable(c, s) && Revivable(s.db, i, 0) && !Alive(s.db, i, 0) && 1 !in s.logins
  {
    var a := RevokedInBetween(c);
    hide Leads, Database, ResolveSession, Device, Sessions, Reachable;
    DeadForNow(c, a.db);
    LeadsOn(c, Opening(c), a, Check(1));
    s := Act(c, a, Check(1));
    i := 2;
    OpeningReaches(c, s);
  }
}
