/**
 Where a session grant comes from. Every login has one place in the history of the
 system at a time (a pending flow, a worker, a login grant, a worker redeeming it, a
 delivery), and everything in the tables that belongs to it points back to its start.
 */
module AuthProvenance {
  import opened Options
  import opened AuthTables
  import opened AuthTransactions
  import opened AuthProtocol
  import opened AuthSessions
  import opened AuthSafety

  // ---- the invariant ----

  predicate At(h: Trace, state: string, phase: Phase) {
    state in h.starts && state in h.phases && h.phases[state] == phase
  }

  predicate Carries(payload: map<string, string>, start: Start) {
    && "device_key" in payload && payload["device_key"] == start.deviceKey
    && "platform" in payload && payload["platform"] == start.platform
  }

  /** A login that was completed at `now` consumed its flow before the flow expired. */
  predicate InTime(c: Settings, start: Start, now: Time) {
    start.at <= now < start.at + c.flowTtl
  }

  predicate FlowTraced(c: Settings, h: Trace, state: string, row: FlowRow) {
    && At(h, state, Pending)
    && row.redirectUri == c.redirectUri && row.payload.purpose == FlowPurpose
    && Carries(row.payload.payload, h.starts[state])
    && row.expiresAt == h.starts[state].at + c.flowTtl
  }

  predicate Provisioned(t: Tables, identity: Identity, user: Id) {
    identity.subject in t.identities && t.identities[identity.subject] == user
  }

  ghost predicate PcTraced(t: Tables, h: Trace, login: Login)
    requires login.state in h.starts
  {
    match login.pc
    case AtExchange => true
    case AtProvision(_) => true
    case AtRegister(identity, user) => Provisioned(t, identity, user)
    case AtCreate(identity, user, device) =>
      Provisioned(t, identity, user) && IsDevice(t, user, Fingerprint(h.starts[login.state].deviceKey), device)
    case AtCheck(token) => CreatedBy(h, login, token)
    case AtGrant(token) => CreatedBy(h, login, token)
  }

  predicate CreatedBy(h: Trace, login: Login, token: string) {
    token in h.origins && h.origins[token].state == login.state && h.origins[token].at == login.now
  }

  ghost predicate LoginTraced(c: Settings, t: Tables, h: Trace, w: nat, login: Login) {
    && At(h, login.state, InFlight(w))
    && Carries(login.payload, h.starts[login.state])
    && InTime(c, h.starts[login.state], login.now)
    && PcTraced(t, h, login)
  }

  predicate SessionOf(t: Tables, token: string, o: Origin) {
    && o.session in t.sessions
    && t.sessions[o.session].token == Fingerprint(token)
    && t.sessions[o.session].user == o.user && t.sessions[o.session].device == o.device
  }

  ghost predicate OriginTraced(c: Settings, t: Tables, h: Trace, token: string, o: Origin) {
    && o.state in h.starts && o.state in h.phases
    && InTime(c, h.starts[o.state], o.at)
    && Provisioned(t, o.identity, o.user)
    && IsDevice(t, o.user, Fingerprint(h.starts[o.state].deviceKey), o.device)
    && SessionOf(t, token, o)
  }

  predicate TokenAt(h: Trace, token: string, phase: Phase) {
    token in h.origins && At(h, h.origins[token].state, phase)
  }

  predicate GrantTraced(c: Settings, h: Trace, code: string, row: GrantRow) {
    && row.payload.purpose == GrantPurpose
    && "session_token" in row.payload.payload
    && TokenAt(h, row.payload.payload["session_token"], Granted(code))
    && row.expiresAt == h.origins[row.payload.payload["session_token"]].at + c.grantTtl
  }

  predicate Redeemed(c: Settings, h: Trace, token: string, phase: Phase, at: Time) {
    TokenAt(h, token, phase) && at < h.origins[token].at + c.grantTtl
  }

  predicate DeliveryTraced(c: Settings, t: Tables, h: Trace, k: nat, d: Delivery) {
    && Redeemed(c, h, d.token, Delivered(k), d.at)
    && h.origins[d.token].session in t.sessions
    && d.principal == PrincipalOf(t.sessions[h.origins[d.token].session], h.origins[d.token].session, t.permissions)
  }

  ghost predicate FlowsTraced(c: Settings, h: Trace, flows: map<Fingerprint, FlowRow>) {
    forall fp :: fp in flows ==> FlowTraced(c, h, fp.secret, flows[fp])
  }

  ghost predicate LoginsTraced(c: Settings, t: Tables, h: Trace, logins: map<nat, Login>) {
    forall w :: w in logins ==> LoginTraced(c, t, h, w, logins[w])
  }

  ghost predicate OriginsTraced(c: Settings, t: Tables, h: Trace) {
    forall token :: token in h.origins ==> OriginTraced(c, t, h, token, h.origins[token])
  }

  ghost predicate GrantsTraced(c: Settings, h: Trace, grants: map<Fingerprint, GrantRow>) {
    forall fp :: fp in grants ==> GrantTraced(c, h, fp.secret, grants[fp])
  }

  ghost predicate RedemptionsTraced(c: Settings, h: Trace, redemptions: map<nat, Redemption>) {
    forall w :: w in redemptions ==> Redeemed(c, h, redemptions[w].token, Redeeming(w), redemptions[w].at)
  }

  ghost predicate DeliveriesTraced(c: Settings, t: Tables, h: Trace) {
    forall k :: 0 <= k < |h.delivered| ==> DeliveryTraced(c, t, h, k, h.delivered[k])
  }

  ghost predicate Traced(c: Settings, t: Tables, h: Trace, logins: map<nat, Login>, redemptions: map<nat, Redemption>) {
    && FlowsTraced(c, h, t.flows)
    && LoginsTraced(c, t, h, logins)
    && OriginsTraced(c, t, h)
    && GrantsTraced(c, h, t.grants)
    && RedemptionsTraced(c, h, redemptions)
    && DeliveriesTraced(c, t, h)
  }

  /** Every secret in use was drawn, so a fresh one collides with none of them. */
  ghost predicate Drawn(t: Tables, h: Trace, drawn: set<string>) {
    && (forall state :: state in h.starts ==> state in drawn)
    && (forall token :: token in h.origins ==> token in drawn)
    && (forall fp :: fp in t.flows ==> fp.secret in drawn)
    && (forall fp :: fp in t.grants ==> fp.secret in drawn)
    && (forall fp :: fp in t.tickets ==> fp.secret in drawn)
  }

  ghost predicate StartedBy(h: Trace, clock: Time) {
    forall state :: state in h.starts ==> h.starts[state].at <= clock
  }

  ghost predicate TracedInv(c: Settings, s: System) {
    && Traced(c, s.db, s.log.trace, s.logins, s.redemptions)
    && Drawn(s.db, s.log.trace, s.drawn)
    && StartedBy(s.log.trace, s.clock)
  }

  // ---- how the parts move ----

  ghost predicate SubMap<K(!new), V>(a: map<K, V>, b: map<K, V>) {
    forall k :: k in a ==> k in b && a[k] == b[k]
  }

  /** Growing tables keep what was traced in them. */
  lemma TracedUnderGrowth(c: Settings, t: Tables, t': Tables, h: Trace, logins: map<nat, Login>,
                          redemptions: map<nat, Redemption>)
    requires Traced(c, t, h, logins, redemptions)
    requires Grows(t, t') && t'.flows == t.flows && t'.grants == t.grants
    ensures Traced(c, t', h, logins, redemptions)
  {
    hide FlowsTraced, GrantsTraced, RedemptionsTraced;
  }

  /** Nothing in the tables or in a worker sits at the login's present phase any more. */
  predicate Vacated(t: Tables, logins: map<nat, Login>, redemptions: map<nat, Redemption>, state: string,
                    phase: Phase) {
    match phase
    case Pending => Fingerprint(state) !in t.flows
    case InFlight(w) => w !in logins
    case Granted(code) => Fingerprint(code) !in t.grants
    case Redeeming(w) => w !in redemptions
    case Delivered(_) => false
    case Failed => true
  }

  /** A login whose place is vacated moves on without disturbing any other login. */
  lemma Moved(c: Settings, t: Tables, h: Trace, logins: map<nat, Login>, redemptions: map<nat, Redemption>,
              state: string, phase: Phase)
    requires Traced(c, t, h, logins, redemptions)
    requires state in h.phases && Vacated(t, logins, redemptions, state, h.phases[state])
    ensures Traced(c, t, MoveTo(h, state, phase), logins, redemptions)
  {
    MovedRows(c, t, h, logins, redemptions, state, phase);
    MovedLogins(c, t, h, logins, redemptions, state, phase);
    hide FlowsTraced, LoginsTraced, OriginsTraced, GrantsTraced, RedemptionsTraced, DeliveriesTraced;
  }

  lemma MovedRows(c: Settings, t: Tables, h: Trace, logins: map<nat, Login>, redemptions: map<nat, Redemption>,
                  state: string, phase: Phase)
    requires FlowsTraced(c, h, t.flows) && GrantsTraced(c, h, t.grants)
    requires RedemptionsTraced(c, h, redemptions) && DeliveriesTraced(c, t, h)
    requires state in h.phases && Vacated(t, logins, redemptions, state, h.phases[state])
    ensures var h' := MoveTo(h, state, phase);
            && FlowsTraced(c, h', t.flows) && GrantsTraced(c, h', t.grants)
            && RedemptionsTraced(c, h', redemptions) && DeliveriesTraced(c, t, h')
  {
    hide Carries, InTime, PrincipalOf;
  }

  lemma MovedLogins(c: Settings, t: Tables, h: Trace, logins: map<nat, Login>, redemptions: map<nat, Redemption>,
                    state: string, phase: Phase)
    requires LoginsTraced(c, t, h, logins) && OriginsTraced(c, t, h)
    requires state in h.phases && Vacated(t, logins, redemptions, state, h.phases[state])
    ensures LoginsTraced(c, t, MoveTo(h, state, phase), logins) && OriginsTraced(c, t, MoveTo(h, state, phase))
  {
    hide Provisioned, IsDevice, SessionOf, Carries, InTime;
  }

  /** The history gains starts and created sessions, and no login that had a start moves. */
  ghost predicate Extends(h: Trace, h': Trace) {
    && SubMap(h.starts, h'.starts) && SubMap(h.origins, h'.origins) && h'.delivered == h.delivered
    && forall state :: state in h.starts && state in h.phases ==>
         state in h'.phases && h'.phases[state] == h.phases[state]
  }

  lemma ExtendedRows(c: Settings, t: Tables, h: Trace, h': Trace, redemptions: map<nat, Redemption>)
    requires Extends(h, h')
    requires FlowsTraced(c, h, t.flows) && GrantsTraced(c, h, t.grants)
    requires RedemptionsTraced(c, h, redemptions) && DeliveriesTraced(c, t, h)
    ensures FlowsTraced(c, h', t.flows) && GrantsTraced(c, h', t.grants)
    ensures RedemptionsTraced(c, h', redemptions) && DeliveriesTraced(c, t, h')
  {
    hide Carries, InTime, PrincipalOf;
  }

  lemma ExtendedLogins(c: Settings, t: Tables, h: Trace, h': Trace, logins: map<nat, Login>)
    requires Extends(h, h') && LoginsTraced(c, t, h, logins) && OriginsTraced(c, t, h)
    ensures LoginsTraced(c, t, h', logins)
    ensures forall token :: token in h.origins ==> OriginTraced(c, t, h', token, h.origins[token])
  {
    hide Provisioned, IsDevice, SessionOf, Carries, InTime;
  }

  lemma TheLogin(c: Settings, t: Tables, h: Trace, logins: map<nat, Login>, redemptions: map<nat, Redemption>, w: nat)
    requires Traced(c, t, h, logins, redemptions) && w in logins
    ensures LoginTraced(c, t, h, w, logins[w])
  {
    hide LoginTraced;
  }

  lemma TheRedemption(c: Settings, t: Tables, h: Trace, logins: map<nat, Login>, redemptions: map<nat, Redemption>,
                      w: nat)
    requires Traced(c, t, h, logins, redemptions) && w in redemptions
    ensures Redeemed(c, h, redemptions[w].token, Redeeming(w), redemptions[w].at)
    ensures var token := redemptions[w].token; OriginTraced(c, t, h, token, h.origins[token])
  {
    hide LoginTraced, OriginTraced;
  }

  /** Taking rows or workers away leaves the rest traced. */
  lemma Narrowed(c: Settings, t: Tables, t': Tables, h: Trace, logins: map<nat, Login>, logins': map<nat, Login>,
                 redemptions: map<nat, Redemption>, redemptions': map<nat, Redemption>)
    requires Traced(c, t, h, logins, redemptions)
    requires t' == t.(flows := t'.flows, grants := t'.grants, tickets := t'.tickets)
    requires SubMap(t'.flows, t.flows) && SubMap(t'.grants, t.grants)
    requires SubMap(logins', logins) && SubMap(redemptions', redemptions)
    ensures Traced(c, t', h, logins', redemptions')
  {
    hide FlowTraced, GrantTraced, Redeemed, At, Carries, InTime, CreatedBy;
  }

  lemma WithLogin(c: Settings, t: Tables, h: Trace, logins: map<nat, Login>, redemptions: map<nat, Redemption>,
                  w: nat, login: Login)
    requires Traced(c, t, h, logins, redemptions) && LoginTraced(c, t, h, w, login)
    ensures Traced(c, t, h, logins[w := login], redemptions)
  {
    hide FlowsTraced, OriginsTraced, GrantsTraced, RedemptionsTraced, DeliveriesTraced, LoginTraced;
  }

  lemma Begun(c: Settings, t: Tables, h: Trace, logins: map<nat, Login>, redemptions: map<nat, Redemption>,
              state: string, start: Start)
    requires Traced(c, t, h, logins, redemptions) && state !in h.starts
    ensures Traced(c, t, Started(h, state, start), logins, redemptions)
  {
    var h' := Started(h, state, start);
    ExtendedRows(c, t, h, h', redemptions);
    ExtendedLogins(c, t, h, h', logins);
    hide FlowsTraced, LoginsTraced, GrantsTraced, RedemptionsTraced, DeliveriesTraced, OriginTraced;
  }

  lemma WithFlow(c: Settings, t: Tables, h: Trace, logins: map<nat, Login>, redemptions: map<nat, Redemption>,
                 state: string, row: FlowRow)
    requires Traced(c, t, h, logins, redemptions) && FlowTraced(c, h, state, row)
    ensures Traced(c, t.(flows := t.flows[Fingerprint(state) := row]), h, logins, redemptions)
  {
    hide FlowTraced, GrantTraced, Redeemed, At, Carries, InTime, CreatedBy;
  }

  lemma WithGrant(c: Settings, t: Tables, h: Trace, logins: map<nat, Login>, redemptions: map<nat, Redemption>,
                  code: string, row: GrantRow)
    requires Traced(c, t, h, logins, redemptions) && GrantTraced(c, h, code, row)
    ensures Traced(c, t.(grants := t.grants[Fingerprint(code) := row]), h, logins, redemptions)
  {
    hide FlowTraced, GrantTraced, Redeemed, At, Carries, InTime, CreatedBy;
  }

  lemma WithRedemption(c: Settings, t: Tables, h: Trace, logins: map<nat, Login>, redemptions: map<nat, Redemption>,
                       w: nat, r: Redemption)
    requires Traced(c, t, h, logins, redemptions) && Redeemed(c, h, r.token, Redeeming(w), r.at)
    ensures Traced(c, t, h, logins, redemptions[w := r])
  {
    hide FlowsTraced, OriginsTraced, GrantsTraced, DeliveriesTraced, LoginsTraced, Redeemed;
  }

  lemma WithDelivery(c: Settings, t: Tables, h: Trace, logins: map<nat, Login>, redemptions: map<nat, Redemption>,
                     d: Delivery)
    requires Traced(c, t, h, logins, redemptions) && DeliveryTraced(c, t, h, |h.delivered|, d)
    ensures Traced(c, t, h.(delivered := h.delivered + [d]), logins, redemptions)
  {
    hide Provisioned, SessionOf, Carries, InTime;
  }

  lemma WithOrigin(c: Settings, t: Tables, h: Trace, logins: map<nat, Login>, redemptions: map<nat, Redemption>,
                   token: string, o: Origin)
    requires Traced(c, t, h, logins, redemptions) && token !in h.origins && OriginTraced(c, t, h, token, o)
    ensures Traced(c, t, Created(h, token, o), logins, redemptions)
  {
    var h' := Created(h, token, o);
    ExtendedRows(c, t, h, h', redemptions);
    ExtendedLogins(c, t, h, h', logins);
    assert OriginTraced(c, t, h', token, o);
    hide FlowsTraced, LoginsTraced, GrantsTraced, RedemptionsTraced, DeliveriesTraced, OriginTraced;
  }

  lemma DrawnNarrowed(t: Tables, t': Tables, h: Trace, h': Trace, drawn: set<string>)
    requires Drawn(t, h, drawn) && h'.starts.Keys <= h.starts.Keys && h'.origins.Keys <= h.origins.Keys
    requires t'.flows.Keys <= t.flows.Keys && t'.grants.Keys <= t.grants.Keys && t'.tickets.Keys <= t.tickets.Keys
    ensures Drawn(t', h', drawn)
  {}

  lemma DrawnWithToken(t: Tables, t': Tables, h: Trace, token: string, o: Origin, drawn: set<string>)
    requires Drawn(t, h, drawn) && t'.flows == t.flows && t'.grants == t.grants && t'.tickets == t.tickets
    ensures Drawn(t', Created(h, token, o), drawn + {token})
  {}

  // ---- what the steps do to it ----

  lemma StartLoginTraced(c: Settings, s: System, state: string, verifier: string, nonce: string, key: string,
                         platform: string)
    requires TracedInv(c, s) && Configured(c) && Fresh(s, state)
    ensures TracedInv(c, DoStartLogin(c, s, state, verifier, nonce, key, platform))
  {
    hide Traced;
    var h := Started(s.log.trace, state, Start(key, platform, s.clock));
    var row := FlowRow(Sealed(FlowPurpose, FlowPayload(verifier, nonce, key, platform)), c.redirectUri,
                       s.clock + c.flowTtl);
    Begun(c, s.db, s.log.trace, s.logins, s.redemptions, state, Start(key, platform, s.clock));
    WithFlow(c, s.db, h, s.logins, s.redemptions, state, row);
  }

  lemma FailLoginTraced(c: Settings, s: System, w: nat)
    requires TracedInv(c, s) && w in s.logins
    ensures TracedInv(c, FailLogin(s, w))
  {
    hide Traced;
    var state := s.logins[w].state;
    TheLogin(c, s.db, s.log.trace, s.logins, s.redemptions, w);
    Narrowed(c, s.db, s.db, s.log.trace, s.logins, s.logins - {w}, s.redemptions, s.redemptions);
    Moved(c, s.db, s.log.trace, s.logins - {w}, s.redemptions, state, Failed);
  }

  lemma FlowTaken(c: Settings, t: Tables, h: Trace, logins: map<nat, Login>, redemptions: map<nat, Redemption>,
                  w: nat, state: string, now: Time)
    requires Traced(c, t, h, logins, redemptions) && w !in logins && StartedBy(h, now)
    requires FlowLive(t, Fingerprint(state), now)
    ensures var t' := ConsumeFlow(t, Fingerprint(state), now).0;
            var login := Login(state, t.flows[Fingerprint(state)].payload.payload, now, AtExchange);
            && Traced(c, t', MoveTo(h, state, Failed), logins, redemptions)
            && Traced(c, t', MoveTo(h, state, InFlight(w)), logins[w := login], redemptions)
  {
    var fp := Fingerprint(state);
    var t' := t.(flows := t.flows - {fp});
    var login := Login(state, t.flows[fp].payload.payload, now, AtExchange);
    assert FlowTraced(c, h, state, t.flows[fp]);
    assert LoginTraced(c, t', MoveTo(h, state, InFlight(w)), w, login);
    hide Traced, LoginTraced;
    Narrowed(c, t, t', h, logins, logins, redemptions, redemptions);
    Moved(c, t', h, logins, redemptions, state, Failed);
    Moved(c, t', h, logins, redemptions, state, InFlight(w));
    WithLogin(c, t', MoveTo(h, state, InFlight(w)), logins, redemptions, w, login);
  }

  lemma BeginCompleteTraced(c: Settings, s: System, w: nat, state: string, code: string)
    requires TracedInv(c, s) && w !in s.logins
    ensures TracedInv(c, DoBeginComplete(c, s, w, state, code))
  {
    hide Traced, Drawn, FlowUsable;
    if FlowLive(s.db, Fingerprint(state), s.clock) {
      FlowTaken(c, s.db, s.log.trace, s.logins, s.redemptions, w, state, s.clock);
      var s' := DoBeginComplete(c, s, w, state, code);
      DrawnNarrowed(s.db, s'.db, s.log.trace, s'.log.trace, s.drawn);
    }
  }

  /** A worker that stays in `complete_login` with new locals, over grown tables. */
  lemma AdvanceTraced(c: Settings, s: System, t: Tables, w: nat, pc: Pc)
    requires TracedInv(c, s) && w in s.logins
    requires Grows(s.db, t) && t.flows == s.db.flows && t.grants == s.db.grants && t.tickets == s.db.tickets
    requires PcTraced(t, s.log.trace, s.logins[w].(pc := pc))
    ensures TracedInv(c, Advance(s.(db := t), w, pc))
  {
    var h := s.log.trace;
    TracedUnderGrowth(c, s.db, t, h, s.logins, s.redemptions);
    assert LoginTraced(c, t, h, w, s.logins[w].(pc := pc));
    hide Traced, PcTraced, Grows;
    WithLogin(c, t, h, s.logins, s.redemptions, w, s.logins[w].(pc := pc));
  }

  lemma ExchangeTraced(c: Settings, s: System, w: nat, claims: Option<Claims>)
    requires TracedInv(c, s) && w in s.logins
    ensures TracedInv(c, DoExchange(c, s, w, claims))
  {
    hide Traced, Drawn, Grows;
    FailLoginTraced(c, s, w);
    if claims.Some? {
      GrowsReflexive(s.db);
      assert s.(db := s.db) == s;
      AdvanceTraced(c, s, s.db, w, AtProvision(Identity(Subject(c.issuer, claims.value.subject), claims.value.email,
                                                        claims.value.displayName)));
    }
  }

  lemma ProvisionTraced(c: Settings, s: System, w: nat, newUser: Id)
    requires TracedInv(c, s) && Constraints(s.db) && w in s.logins && s.logins[w].pc.AtProvision?
    ensures TracedInv(c, DoProvision(s, w, newUser))
  {
    var identity := s.logins[w].pc.identity;
    var r := ProvisionIdentity(s.db, identity, newUser);
    ProvisionKeeps(s.db, identity, newUser);
    hide Traced, Drawn, Grows, Constraints, ProvisionIdentity;
    FailLoginTraced(c, s, w);
    if r.Committed? {
      AdvanceTraced(c, s, r.tables, w, AtRegister(identity, r.value));
    }
  }

  lemma RegisterTraced(c: Settings, s: System, w: nat, newDevice: Id)
    requires TracedInv(c, s) && Constraints(s.db) && w in s.logins && s.logins[w].pc.AtRegister?
    ensures TracedInv(c, DoRegister(s, w, newDevice))
  {
    hide Traced, Drawn, Grows, Constraints, RegisterDevice;
    var login := s.logins[w];
    TheLogin(c, s.db, s.log.trace, s.logins, s.redemptions, w);
    FailLoginTraced(c, s, w);
    if Required(login.payload, "device_key").Some? && Required(login.payload, "platform").Some? {
      var key := Fingerprint(login.payload["device_key"]);
      var r := RegisterDevice(s.db, login.pc.user, key, login.payload["platform"], login.now, newDevice);
      RegisterKeeps(s.db, login.pc.user, key, login.payload["platform"], login.now, newDevice);
      if r.Committed? {
        AdvanceTraced(c, s, r.tables, w, AtCreate(login.pc.identity, login.pc.user, r.value));
      }
    }
  }

  lemma OriginOfLogin(c: Settings, t: Tables, t': Tables, h: Trace, w: nat, login: Login, token: string,
                      expiresAt: Time, i: Id)
    requires LoginTraced(c, t, h, w, login) && login.pc.AtCreate? && Grows(t, t')
    requires CreateSession(t, login.pc.user, login.pc.device, Fingerprint(token), expiresAt, i) == Committed(t', i)
    ensures var o := Origin(login.state, login.pc.identity, login.pc.user, login.pc.device, i, login.now);
            && OriginTraced(c, t', h, token, o)
            && LoginTraced(c, t', Created(h, token, o), w, login.(pc := AtCheck(token)))
  {
    hide TokenTaken, Carries;
  }

  lemma SessionMade(c: Settings, t: Tables, t': Tables, h: Trace, logins: map<nat, Login>,
                    redemptions: map<nat, Redemption>,
                    w: nat, token: string, expiresAt: Time, i: Id)
    requires Traced(c, t, h, logins, redemptions) && Constraints(t)
    requires w in logins && logins[w].pc.AtCreate? && token !in h.origins
    requires CreateSession(t, logins[w].pc.user, logins[w].pc.device, Fingerprint(token), expiresAt, i)
          == Committed(t', i)
    ensures var login := logins[w];
            var o := Origin(login.state, login.pc.identity, login.pc.user, login.pc.device, i, login.now);
            Traced(c, t', Created(h, token, o), logins[w := login.(pc := AtCheck(token))], redemptions)
  {
    var login := logins[w];
    var o := Origin(login.state, login.pc.identity, login.pc.user, login.pc.device, i, login.now);
    CreateKeeps(t, login.pc.user, login.pc.device, Fingerprint(token), expiresAt, i);
    CreateTouches(t, login.pc.user, login.pc.device, Fingerprint(token), expiresAt, i);
    hide Traced, Grows, Constraints, CreateSession, LoginTraced, OriginTraced;
    TheLogin(c, t, h, logins, redemptions, w);
    OriginOfLogin(c, t, t', h, w, login, token, expiresAt, i);
    TracedUnderGrowth(c, t, t', h, logins, redemptions);
    WithOrigin(c, t', h, logins, redemptions, token, o);
    WithLogin(c, t', Created(h, token, o), logins, redemptions, w, login.(pc := AtCheck(token)));
  }

  lemma CreateTouches(t: Tables, user: Id, device: Id, token: Fingerprint, expiresAt: Time, i: Id)
    ensures var r := CreateSession(t, user, device, token, expiresAt, i);
            r.Committed? ==>
              && r.value == i && r.tables.flows == t.flows
              && r.tables.grants == t.grants && r.tables.tickets == t.tickets
  {}

  lemma CreateTraced(c: Settings, s: System, w: nat, token: string, newSession: Id)
    requires TracedInv(c, s) && Constraints(s.db) && w in s.logins && s.logins[w].pc.AtCreate? && Fresh(s, token)
    ensures TracedInv(c, DoCreate(c, s, w, token, newSession))
  {
    hide Traced, Constraints, CreateSession;
    assert token !in s.log.trace.origins;
    hide Drawn;
    FailLoginTraced(c, s, w);
    var login := s.logins[w];
    var h := s.log.trace;
    var expiresAt := login.now + c.sessionTtl;
    var r := CreateSession(s.db, login.pc.user, login.pc.device, Fingerprint(token), expiresAt, newSession);
    CreateTouches(s.db, login.pc.user, login.pc.device, Fingerprint(token), expiresAt, newSession);
    if r.Committed? {
      SessionMade(c, s.db, r.tables, h, s.logins, s.redemptions, w, token, expiresAt, newSession);
      DrawnWithToken(s.db, r.tables, h, token,
                     Origin(login.state, login.pc.identity, login.pc.user, login.pc.device, newSession,
                            login.now), s.drawn);
    }
  }

  lemma CheckTraced(c: Settings, s: System, w: nat)
    requires TracedInv(c, s) && w in s.logins && s.logins[w].pc.AtCheck?
    ensures TracedInv(c, DoCheck(s, w))
  {
    hide Traced, Drawn, ResolveSession, Grows;
    var login := s.logins[w];
    TheLogin(c, s.db, s.log.trace, s.logins, s.redemptions, w);
    FailLoginTraced(c, s, w);
    GrowsReflexive(s.db);
    AdvanceTraced(c, s, s.db, w, AtGrant(login.pc.token));
  }

  lemma GrantOfLogin(c: Settings, t: Tables, h: Trace, w: nat, login: Login, code: string)
    requires LoginTraced(c, t, h, w, login) && login.pc.AtGrant?
    ensures GrantTraced(c, MoveTo(h, login.state, Granted(code)), code,
                        GrantRow(GrantPayload(login.pc.token), login.now + c.grantTtl))
    ensures At(h, login.state, InFlight(w))
  {}

  lemma GrantMade(c: Settings, t: Tables, h: Trace, logins: map<nat, Login>, redemptions: map<nat, Redemption>,
                  w: nat, code: string)
    requires Traced(c, t, h, logins, redemptions) && w in logins && logins[w].pc.AtGrant?
    ensures var login := logins[w];
            var row := GrantRow(GrantPayload(login.pc.token), login.now + c.grantTtl);
            Traced(c, t.(grants := t.grants[Fingerprint(code) := row]), MoveTo(h, login.state, Granted(code)),
                   logins - {w}, redemptions)
  {
    hide Traced, GrantTraced, LoginTraced;
    var login := logins[w];
    var row := GrantRow(GrantPayload(login.pc.token), login.now + c.grantTtl);
    TheLogin(c, t, h, logins, redemptions, w);
    GrantOfLogin(c, t, h, w, login, code);
    Narrowed(c, t, t, h, logins, logins - {w}, redemptions, redemptions);
    Moved(c, t, h, logins - {w}, redemptions, login.state, Granted(code));
    WithGrant(c, t, MoveTo(h, login.state, Granted(code)), logins - {w}, redemptions, code, row);
  }

  lemma GrantStepTraced(c: Settings, s: System, w: nat, code: string)
    requires TracedInv(c, s) && w in s.logins && s.logins[w].pc.AtGrant? && Fresh(s, code)
    ensures TracedInv(c, DoGrant(c, s, w, code))
  {
    hide Traced;
    FailLoginTraced(c, s, w);
    GrantMade(c, s.db, s.log.trace, s.logins, s.redemptions, w, code);
  }

  lemma GrantTaken(c: Settings, t: Tables, h: Trace, logins: map<nat, Login>, redemptions: map<nat, Redemption>,
                   w: nat, code: string, now: Time)
    requires Traced(c, t, h, logins, redemptions) && w !in redemptions && GrantLive(t, Fingerprint(code), now)
    ensures var t' := ConsumeGrant(t, Fingerprint(code), now).0;
            var sealed := t.grants[Fingerprint(code)].payload;
            && sealed.purpose == GrantPurpose && "session_token" in sealed.payload
            && var token := sealed.payload["session_token"];
               && token in h.origins && Traced(c, t', h, logins, redemptions)
               && Traced(c, t', Rephase(h, token, Redeeming(w)), logins, redemptions[w := Redemption(token, now)])
  {
    var fp := Fingerprint(code);
    var t' := t.(grants := t.grants - {fp});
    TheGrant(c, t, h, logins, redemptions, code);
    var token := t.grants[fp].payload.payload["session_token"];
    var h' := Rephase(h, token, Redeeming(w));
    RedemptionBegins(c, h, code, t.grants[fp], w, now);
    hide Traced, Redeemed, GrantTraced, InTime;
    Narrowed(c, t, t', h, logins, logins, redemptions, redemptions);
    Moved(c, t', h, logins, redemptions, h.origins[token].state, Redeeming(w));
    WithRedemption(c, t', h', logins, redemptions, w, Redemption(token, now));
  }

  lemma TheGrant(c: Settings, t: Tables, h: Trace, logins: map<nat, Login>, redemptions: map<nat, Redemption>,
                 code: string)
    requires Traced(c, t, h, logins, redemptions) && Fingerprint(code) in t.grants
    ensures GrantTraced(c, h, code, t.grants[Fingerprint(code)])
  {
    hide GrantTraced;
  }

  lemma RedemptionBegins(c: Settings, h: Trace, code: string, row: GrantRow, w: nat, now: Time)
    requires GrantTraced(c, h, code, row) && now < row.expiresAt
    ensures var token := row.payload.payload["session_token"];
            && token in h.origins && At(h, h.origins[token].state, Granted(code))
            && Redeemed(c, Rephase(h, token, Redeeming(w)), token, Redeeming(w), now)
  {}

  lemma BeginRedeemTraced(c: Settings, s: System, w: nat, code: string)
    requires TracedInv(c, s) && w !in s.redemptions
    ensures TracedInv(c, DoBeginRedeem(s, w, code))
  {
    hide Traced, Drawn;
    if GrantLive(s.db, Fingerprint(code), s.clock) {
      GrantTaken(c, s.db, s.log.trace, s.logins, s.redemptions, w, code, s.clock);
      var s' := DoBeginRedeem(s, w, code);
      DrawnNarrowed(s.db, s'.db, s.log.trace, s'.log.trace, s.drawn);
    }
  }

  lemma FailRedeemTraced(c: Settings, s: System, w: nat)
    requires TracedInv(c, s) && w in s.redemptions
    ensures TracedInv(c, FailRedeem(s, w))
  {
    hide Traced, Drawn, OriginTraced;
    var h := s.log.trace;
    var token := s.redemptions[w].token;
    TheRedemption(c, s.db, h, s.logins, s.redemptions, w);
    Narrowed(c, s.db, s.db, h, s.logins, s.logins, s.redemptions, s.redemptions - {w});
    Moved(c, s.db, h, s.logins, s.redemptions - {w}, h.origins[token].state, Failed);
    DrawnNarrowed(s.db, s.db, h, FailRedeem(s, w).log.trace, s.drawn);
  }

  lemma DeliveryOfRedemption(c: Settings, t: Tables, h: Trace, w: nat, r: Redemption, now: Time)
    requires Redeemed(c, h, r.token, Redeeming(w), r.at) && Constraints(t)
    requires OriginTraced(c, t, h, r.token, h.origins[r.token])
    requires ResolveSession(t, Fingerprint(r.token), now).Some?
    ensures DeliveryTraced(c, t, Rephase(h, r.token, Delivered(|h.delivered|)), |h.delivered|,
                           Delivery(r.token, ResolveSession(t, Fingerprint(r.token), now).value, r.at))
    ensures At(h, h.origins[r.token].state, Redeeming(w))
  {
    ResolvesOne(t, Fingerprint(r.token), now);
    hide ResolveSession, UniqueDeviceKeys, UniqueEmails, IdentityKeys, DeviceKeys, SessionKeys, TicketKeys, IsDevice,
      Provisioned;
  }

  lemma Handed(c: Settings, t: Tables, h: Trace, logins: map<nat, Login>, redemptions: map<nat, Redemption>, w: nat,
               now: Time)
    requires Traced(c, t, h, logins, redemptions) && Constraints(t) && w in redemptions
    requires ResolveSession(t, Fingerprint(redemptions[w].token), now).Some?
    ensures var r := redemptions[w];
            var d := Delivery(r.token, ResolveSession(t, Fingerprint(r.token), now).value, r.at);
            var h' := Rephase(h, r.token, Delivered(|h.delivered|));
            Traced(c, t, h'.(delivered := h'.delivered + [d]), logins, redemptions - {w})
  {
    hide Traced, ResolveSession, Constraints, DeliveryTraced, OriginTraced;
    var r := redemptions[w];
    var h' := Rephase(h, r.token, Delivered(|h.delivered|));
    var d := Delivery(r.token, ResolveSession(t, Fingerprint(r.token), now).value, r.at);
    TheRedemption(c, t, h, logins, redemptions, w);
    DeliveryOfRedemption(c, t, h, w, r, now);
    Narrowed(c, t, t, h, logins, logins, redemptions, redemptions - {w});
    Moved(c, t, h, logins, redemptions - {w}, h.origins[r.token].state, Delivered(|h.delivered|));
    WithDelivery(c, t, h', logins, redemptions - {w}, d);
  }

  lemma FinishRedeemTraced(c: Settings, s: System, w: nat)
    requires TracedInv(c, s) && Constraints(s.db) && w in s.redemptions
    ensures TracedInv(c, DoFinishRedeem(s, w))
  {
    hide Traced, Drawn, Constraints, ResolveSession;
    FailRedeemTraced(c, s, w);
    if ResolveSession(s.db, Fingerprint(s.redemptions[w].token), s.clock).Some? {
      Handed(c, s.db, s.log.trace, s.logins, s.redemptions, w, s.clock);
    }
    DrawnNarrowed(s.db, s.db, s.log.trace, DoFinishRedeem(s, w).log.trace, s.drawn);
  }

  /** Steps on sessions and tickets: the tables grow, nothing of a login moves. */
  lemma SessionStepTraced(c: Settings, s: System, t: Tables, drawn: set<string>)
    requires TracedInv(c, s) && Grows(s.db, t) && t.flows == s.db.flows && t.grants == s.db.grants
    requires s.drawn <= drawn && forall fp :: fp in t.tickets ==> fp in s.db.tickets || fp.secret in drawn
    ensures Traced(c, t, s.log.trace, s.logins, s.redemptions) && Drawn(t, s.log.trace, drawn)
  {
    hide Traced, Grows;
    TracedUnderGrowth(c, s.db, t, s.log.trace, s.logins, s.redemptions);
  }

  lemma LogoutTraced(c: Settings, s: System, i: Id)
    requires TracedInv(c, s) && Constraints(s.db)
    ensures TracedInv(c, s.(db := RevokeSession(s.db, i, s.clock)))
  {
    hide Traced, Drawn, Constraints, Grows;
    RevokeSessionKeeps(s.db, i, s.clock);
    SessionStepTraced(c, s, RevokeSession(s.db, i, s.clock), s.drawn);
  }

  lemma RevokeDeviceTraced(c: Settings, s: System, user: Id, d: Id)
    requires TracedInv(c, s) && Constraints(s.db)
    ensures TracedInv(c, s.(db := AuthTables.RevokeDevice(s.db, user, d, s.clock).0))
  {
    hide Traced, Drawn, Constraints, Grows;
    RevokeDeviceKeeps(s.db, user, d, s.clock);
    SessionStepTraced(c, s, AuthTables.RevokeDevice(s.db, user, d, s.clock).0, s.drawn);
  }

  lemma IssueTicketTraced(c: Settings, s: System, p: Principal, channel: string, ticket: string)
    requires TracedInv(c, s)
    ensures TracedInv(c, DoIssueTicket(c, s, p, channel, ticket))
  {
    hide Traced, Drawn, Grows;
    var row := TicketRow(p.session, channel, s.clock + c.ticketTtl);
    var t := s.db.(tickets := s.db.tickets[Fingerprint(ticket) := row]);
    GrowsSameRows(s.db, t);
    SessionStepTraced(c, s, t, s.drawn + {ticket});
  }

  lemma ConsumeTicketTraced(c: Settings, s: System, ticket: string, channel: string)
    requires TracedInv(c, s)
    ensures TracedInv(c, DoConsumeTicket(s, ticket, channel))
  {
    hide Traced, Drawn, Grows;
    var t := s.db.(tickets := s.db.tickets - {Fingerprint(ticket)});
    GrowsSameRows(s.db, t);
    SessionStepTraced(c, s, t, s.drawn);
  }

  lemma AuthenticateTraced(c: Settings, s: System, token: string)
    requires TracedInv(c, s)
    ensures TracedInv(c, DoAuthenticate(s, token))
  {
    hide Traced, Drawn, ResolveSession;
  }

  lemma ActTraced(c: Settings, s: System, step: Step)
    requires TracedInv(c, s) && Constraints(s.db) && Configured(c) && Ready(s, step)
    ensures TracedInv(c, Act(c, s, step))
  {
    hide TracedInv, Constraints, DoStartLogin, DoBeginComplete, DoExchange, DoProvision, DoRegister, DoCreate, DoCheck,
      DoGrant, FailLogin, DoBeginRedeem, DoFinishRedeem, FailRedeem, DoAuthenticate, RevokeSession,
      AuthTables.RevokeDevice, DoIssueTicket, DoConsumeTicket;
    match step
    case StartLogin(state, verifier, nonce, key, platform) =>
      StartLoginTraced(c, s, state, verifier, nonce, key, platform);
    case BeginComplete(w, state, code) => BeginCompleteTraced(c, s, w, state, code);
    case Exchange(w, claims) => ExchangeTraced(c, s, w, claims);
    case Provision(w, newUser) => ProvisionTraced(c, s, w, newUser);
    case Register(w, newDevice) => RegisterTraced(c, s, w, newDevice);
    case Create(w, token, newSession) => CreateTraced(c, s, w, token, newSession);
    case Check(w) => CheckTraced(c, s, w);
    case Grant(w, code) => GrantStepTraced(c, s, w, code);
    case AbortLogin(w) => FailLoginTraced(c, s, w);
    case BeginRedeem(w, code) => BeginRedeemTraced(c, s, w, code);
    case FinishRedeem(w) => FinishRedeemTraced(c, s, w);
    case AbortRedeem(w) => FailRedeemTraced(c, s, w);
    case Authenticate(token) => AuthenticateTraced(c, s, token);
    case Logout(p) => LogoutTraced(c, s, p.session);
    case RevokeDevice(p, d) => RevokeDeviceTraced(c, s, p.user, d);
    case IssueTicket(p, channel, ticket) => IssueTicketTraced(c, s, p, channel, ticket);
    case ConsumeTicket(ticket, channel) => ConsumeTicketTraced(c, s, ticket, channel);
  }

  // ---- whole runs ----

  lemma {:induction false} RunTraced(c: Settings, s: System, run: seq<Timed>)
    requires Inv(s) && TracedInv(c, s) && Configured(c) && Runs(c, s, run)
    ensures TracedInv(c, Run(c, s, run))
    decreases |run|
  {
    hide Healthy, Traced, Drawn, Act, Ready;
    if run != [] {
      var e := run[0];
      StepKeeps(c, s, e);
      assert Constraints(s.db) by { InvConstraints(s); }
      ActTraced(c, s.(clock := e.now), e.step);
      RunTraced(c, Next(c, s, e), run[1..]);
    }
  }

  lemma InvConstraints(s: System)
    requires Inv(s)
    ensures Constraints(s.db)
  {}

  lemma ReachableTraced(c: Settings, s: System)
    requires Reachable(c, s) && Configured(c)
    ensures TracedInv(c, s)
  {
    hide Initial, Inv, TracedInv, Runs, Run;
    var start, run :| Initial(start) && Runs(c, start, run) && Run(c, start, run) == s;
    InitialTraced(c, start);
    RunTraced(c, start, run);
  }

  lemma InitialTraced(c: Settings, s: System)
    requires Initial(s)
    ensures Inv(s) && TracedInv(c, s)
  {
    hide UniqueTokens, UniqueDeviceKeys, UniqueEmails, IdentityKeys, DeviceKeys, SessionKeys, TicketKeys;
  }
}
