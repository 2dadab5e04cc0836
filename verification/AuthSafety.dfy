/**
 Safety of sessions, tickets and devices over whole runs: any number of workers,
 any interleaving of their transactions, any initial users and roles.
 */
module AuthSafety {
  import opened AuthTables
  import opened AuthTransactions
  import opened AuthProtocol
  import opened AuthSessions

  ghost predicate Reachable(c: Settings, s: System) {
    exists start, run :: Initial(start) && Runs(c, start, run) && Run(c, start, run) == s
  }

  lemma {:induction false} RunKeeps(c: Settings, s: System, run: seq<Timed>)
    requires Inv(s) && Runs(c, s, run)
    ensures Kept(s, Run(c, s, run))
    decreases |run|
  {
    hide Enabled, Next, Healthy, Grows;
    GrowsReflexive(s.db);
    if run != [] {
      var mid := Next(c, s, run[0]);
      StepKeeps(c, s, run[0]);
      RunKeeps(c, mid, run[1..]);
      GrowsTransitive(s.db, mid.db, Run(c, mid, run[1..]).db);
    }
  }

  lemma ReachableInv(c: Settings, s: System)
    requires Reachable(c, s)
    ensures Inv(s)
  {
    var start, run :| Initial(start) && Runs(c, start, run) && Run(c, start, run) == s;
    RunKeeps(c, start, run);
  }

  /** Death is permanent. Take a session that some request once resolved and that no
      longer resolves at `now`, whether by logout, by revocation of its device or by
      expiry. Whatever transactions run next, also ones that register the same device
      again and clear its revocation, the session does not resolve at any later time. */
  lemma DeathIsPermanent(c: Settings, s: System, run: seq<Timed>, i: Id, now: Time, later: Time)
    requires Reachable(c, s) && i in s.log.resolved && !Alive(s.db, i, now)
    requires Runs(c, s, run) && now <= later
    ensures !Alive(Run(c, s, run).db, i, later)
  {
    ReachableInv(c, s);
    RunKeeps(c, s, run);
    hide Runs, Run, Constraints;
  }

  /** What revoking a device is for: no session that is on the device then, whether it
      ever resolved or not, resolves at any later time, whatever runs next. */
  lemma RevocationIsFinal(c: Settings, s: System, e: Timed, run: seq<Timed>, i: Id, later: Time)
    requires Reachable(c, s) && Enabled(s, e) && e.step.RevokeDevice?
    requires RevokesDevice(s.db, e.step.principal.user, e.step.device)
    requires i in s.db.sessions && s.db.sessions[i].device == e.step.device
    requires Runs(c, Next(c, s, e), run)
    ensures !Alive(Run(c, Next(c, s, e), run).db, i, later)
  {
    hide Reachable, Runs, Run, Healthy, Inv;
    ReachableInv(c, s);
    StepKeeps(c, s, e);
    CascadeReaches(s.db, e.step.principal.user, e.step.device, i, e.now);
    assert Next(c, s, e).db == AuthTables.RevokeDevice(s.db, e.step.principal.user, e.step.device, e.now).0;
    hide Next, Enabled, AuthTables.RevokeDevice;
    RunKeeps(c, Next(c, s, e), run);
  }

  lemma CascadeReaches(t: Tables, user: Id, d: Id, i: Id, now: Time)
    requires RevokesDevice(t, user, d) && i in t.sessions && t.sessions[i].device == d
    ensures var t' := AuthTables.RevokeDevice(t, user, d, now).0;
            i in t'.sessions && t'.sessions[i].revokedAt.Some?
  {}

  /** And what logging out is for. */
  lemma LogoutIsFinal(c: Settings, s: System, e: Timed, run: seq<Timed>, later: Time)
    requires Reachable(c, s) && Enabled(s, e) && e.step.Logout? && Runs(c, Next(c, s, e), run)
    ensures !Alive(Run(c, Next(c, s, e), run).db, e.step.principal.session, later)
  {
    hide Reachable, Runs, Run;
    ReachableInv(c, s);
    StepKeeps(c, s, e);
    var i, s' := e.step.principal.session, Next(c, s, e);
    LoggedOut(s, e.now, e.step.principal);
    hide Next, Enabled, Healthy;
    RunKeeps(c, s', run);
  }

  lemma LoggedOut(s: System, now: Time, p: Principal)
    requires Inv(s) && p in s.principals
    ensures var t := RevokeSession(s.db, p.session, now);
            p.session in t.sessions && t.sessions[p.session].revokedAt.Some?
  {
    hide Constraints;
  }

  /** The same for the bearer of the token: once refused, always refused. */
  lemma RefusedTokenStaysRefused(c: Settings, s: System, run: seq<Timed>, token: Fingerprint, i: Id, now: Time,
                                 later: Time)
    requires Reachable(c, s) && i in s.log.resolved && i in s.db.sessions && s.db.sessions[i].token == token
    requires ResolveSession(s.db, token, now).None?
    requires Runs(c, s, run) && now <= later
    ensures ResolveSession(Run(c, s, run).db, token, later).None?
  {
    var s' := Run(c, s, run);
    ReachableInv(c, s);
    RunKeeps(c, s, run);
    ResolvesOne(s.db, token, now);
    assert !Alive(s.db, i, now) by { assert !Resolves(s.db, token, now, i); }
    DeathIsPermanent(c, s, run, i, now, later);
    ResolvesOne(s'.db, token, later);
    forall j ensures !Resolves(s'.db, token, later, j) {
      assert i in s'.db.sessions && s'.db.sessions[i].token == token;
      assert j in s'.db.sessions && s'.db.sessions[j].token == token ==> i == j;
    }
  }

  /** The one way back: an unrevoked, unexpired session of an active user on a device
      that was revoked before the session was created on it. */
  predicate Revivable(t: Tables, i: Id, now: Time) {
    && i in t.sessions
    && t.sessions[i].revokedAt.None? && t.sessions[i].expiresAt > now
    && t.sessions[i].user in t.users && t.users[t.sessions[i].user].active
    && t.sessions[i].device in t.devices && t.devices[t.sessions[i].device].revokedAt.Some?
  }

  /** Registering a device brings back exactly the revivable sessions: the right one
      makes each of them resolve, and none makes any other dead session resolve. */
  lemma RegistrationRevivesExactly(t: Tables, i: Id, now: Time)
    requires Constraints(t) && i in t.sessions && !Alive(t, i, now)
    ensures Revivable(t, i, now) <==>
            exists user, key, platform, at, newDevice ::
              RegisterDevice(t, user, key, platform, at, newDevice).Committed?
              && Alive(RegisterDevice(t, user, key, platform, at, newDevice).tables, i, now)
  {
    if Revivable(t, i, now) {
      Revives(t, i, now);
    }
    forall user, key, platform, at, newDevice |
      && RegisterDevice(t, user, key, platform, at, newDevice).Committed?
      && Alive(RegisterDevice(t, user, key, platform, at, newDevice).tables, i, now)
      ensures Revivable(t, i, now)
    {
      RevivedWasRevivable(t, i, now, user, key, platform, at, newDevice);
    }
  }

  lemma Revives(t: Tables, i: Id, now: Time)
    requires Constraints(t) && Revivable(t, i, now)
    ensures var row := t.devices[t.sessions[i].device];
            var r := RegisterDevice(t, row.user, row.deviceKey, row.platform, now, 0);
            r.Committed? && Alive(r.tables, i, now)
  {
    var d := t.sessions[i].device;
    var row := t.devices[d];
    assert IsDevice(t, row.user, row.deviceKey, d);
    RegisterWrites(t, row.user, row.deviceKey, row.platform, now, 0);
    assert RegisterDevice(t, row.user, row.deviceKey, row.platform, now, 0).Committed?;
    hide Constraints, RegisterDevice;
  }

  lemma RevivedWasRevivable(t: Tables, i: Id, now: Time, user: Id, key: Fingerprint, platform: string, at: Time,
                            newDevice: Id)
    requires Constraints(t) && i in t.sessions && !Alive(t, i, now)
    requires RegisterDevice(t, user, key, platform, at, newDevice).Committed?
    requires Alive(RegisterDevice(t, user, key, platform, at, newDevice).tables, i, now)
    ensures Revivable(t, i, now)
  {
    RegisterWrites(t, user, key, platform, at, newDevice);
    hide RegisterDevice, IsDevice, UniqueTokens, UniqueDeviceKeys, UniqueEmails;
  }

  /** And nothing else brings one back: a dead session that resolves at the end of any
      run was revivable before it. */
  lemma OnlyRevivableComeBack(c: Settings, s: System, run: seq<Timed>, i: Id, now: Time, later: Time)
    requires Reachable(c, s) && i in s.db.sessions && !Alive(s.db, i, now)
    requires Runs(c, s, run) && now <= later
    ensures Alive(Run(c, s, run).db, i, later) ==> Revivable(s.db, i, now)
  {
    ReachableInv(c, s);
    RunKeeps(c, s, run);
    hide Runs, Run, ResolvedSound, PrincipalsSound, TicketsSound, UniqueTokens, UniqueDeviceKeys, UniqueEmails;
  }

  lemma RevivableNeverResolved(c: Settings, s: System, i: Id, now: Time)
    requires Reachable(c, s) && Revivable(s.db, i, now)
    ensures i !in s.log.resolved
  {
    ReachableInv(c, s);
  }

  /** The two liveness checks agree. The ticket query looks at neither the user nor the
      device, yet it accepts exactly the matching unexpired tickets whose session
      `resolve_session` would accept at the same time. */
  lemma LivenessChecksAgree(c: Settings, s: System, fp: Fingerprint, channel: string, now: Time)
    requires Reachable(c, s)
    ensures AuthTables.ConsumeTicket(s.db, fp, channel, now).1.Some? <==>
            && fp in s.db.tickets && s.db.tickets[fp].channel == channel && s.db.tickets[fp].expiresAt > now
            && s.db.tickets[fp].session in s.db.sessions
            && ResolveSession(s.db, s.db.sessions[s.db.tickets[fp].session].token, now).Some?
  {
    ReachableInv(c, s);
    if fp in s.db.tickets {
      var i := s.db.tickets[fp].session;
      assert i in s.db.sessions && i in s.log.resolved;
      var token := s.db.sessions[i].token;
      ResolvesOne(s.db, token, now);
      assert Resolves(s.db, token, now, i) <==> Alive(s.db, i, now);
    }
  }

  /** A socket on `system.health` belongs to a user that holds the permission for it. */
  lemma HealthChannelNeedsPermission(c: Settings, s: System, fp: Fingerprint, now: Time)
    requires Reachable(c, s)
    ensures var session := AuthTables.ConsumeTicket(s.db, fp, "system.health", now).1;
            session.Some? ==>
              && session.value in s.db.sessions && session.value in s.log.resolved
              && var user := s.db.sessions[session.value].user;
                 user in s.db.permissions && "system.health.read" in s.db.permissions[user]
  {
    ReachableInv(c, s);
  }

  /** Revoking a device stays with its owner, although the cascade selects sessions by
      device alone: no session and no device of another user changes. */
  lemma RevocationStaysWithOwner(c: Settings, s: System, user: Id, d: Id, now: Time)
    requires Reachable(c, s)
    ensures var t' := AuthTables.RevokeDevice(s.db, user, d, now).0;
            && t'.sessions.Keys == s.db.sessions.Keys && t'.devices.Keys == s.db.devices.Keys
            && (forall i :: i in s.db.sessions && s.db.sessions[i].user != user ==> t'.sessions[i] == s.db.sessions[i])
            && (forall x :: x in s.db.devices && s.db.devices[x].user != user ==> t'.devices[x] == s.db.devices[x])
  {
    ReachableInv(c, s);
    hide Constraints, ResolvedSound, PrincipalsSound, TicketsSound;
  }
}
