/**
 What every transaction keeps: the schema's constraints, and the columns that no
 transaction of the service ever changes.
 */
module AuthTransactions {
  import opened Options
  import opened AuthTables

  /** Rows are never dropped from these tables, users keep their status, devices keep
      their owner and key, sessions keep their owner, device, token and expiry, and a
      revoked session stays revoked. */
  ghost predicate Grows(t: Tables, t': Tables) {
    && t.permissions == t'.permissions
    && UsersGrow(t.users, t'.users) && IdentitiesGrow(t.identities, t'.identities)
    && DevicesGrow(t.devices, t'.devices) && SessionsGrow(t.sessions, t'.sessions)
  }

  ghost predicate UsersGrow(a: map<Id, UserRow>, b: map<Id, UserRow>) {
    forall u :: u in a ==> u in b && b[u].active == a[u].active
  }

  ghost predicate IdentitiesGrow(a: map<Subject, Id>, b: map<Subject, Id>) {
    forall x :: x in a ==> x in b && b[x] == a[x]
  }

  ghost predicate DevicesGrow(a: map<Id, DeviceRow>, b: map<Id, DeviceRow>) {
    forall d :: d in a ==> d in b && SameDevice(a[d], b[d])
  }

  ghost predicate SessionsGrow(a: map<Id, SessionRow>, b: map<Id, SessionRow>) {
    forall i :: i in a ==> i in b && SameSession(a[i], b[i])
  }

  predicate SameSession(a: SessionRow, b: SessionRow) {
    && a.user == b.user && a.device == b.device && a.token == b.token && a.expiresAt == b.expiresAt
    && (a.revokedAt.Some? ==> b.revokedAt == a.revokedAt)
  }

  lemma GrowsReflexive(t: Tables)
    ensures Grows(t, t)
  {}

  lemma GrowsSameRows(t: Tables, t': Tables)
    requires t'.users == t.users && t'.identities == t.identities && t'.permissions == t.permissions
    requires t'.devices == t.devices && t'.sessions == t.sessions
    ensures Grows(t, t')
  {}

  lemma GrowsTransitive(a: Tables, b: Tables, c: Tables)
    requires Grows(a, b) && Grows(b, c)
    ensures Grows(a, c)
  {}

  // ---- provision_identity ----

  /** Writing one user row: a new one, or an update that keeps the status. */
  lemma UserWriteKeeps(t: Tables, u: Id, row: UserRow)
    requires Constraints(t) && !EmailTaken(t, row.email, u)
    requires u in t.users ==> t.users[u].active == row.active
    ensures var t' := t.(users := t.users[u := row]); Constraints(t') && Grows(t, t')
  {
    var users := t.users[u := row];
    EmailsKept(t, u, row);
    GrowsReflexive(t);
    UserKeysKept(t, users);
    hide EmailTaken, UniqueEmails, IdentityKeys, DeviceKeys, SessionKeys, IdentitiesGrow, DevicesGrow, SessionsGrow,
      UniqueTokens, UniqueDeviceKeys, TicketKeys;
  }

  lemma UserKeysKept(t: Tables, users: map<Id, UserRow>)
    requires IdentityKeys(t.identities, t.users) && DeviceKeys(t.devices, t.users)
    requires SessionKeys(t.sessions, t.users, t.devices) && t.users.Keys <= users.Keys
    ensures IdentityKeys(t.identities, users) && DeviceKeys(t.devices, users)
    ensures SessionKeys(t.sessions, users, t.devices)
  {}

  lemma EmailsKept(t: Tables, u: Id, row: UserRow)
    requires UniqueEmails(t.users) && !EmailTaken(t, row.email, u)
    ensures UniqueEmails(t.users[u := row])
  {}

  lemma IdentityWriteKeeps(t: Tables, subject: Subject, user: Id)
    requires Constraints(t) && subject !in t.identities && user in t.users
    ensures var t' := t.(identities := t.identities[subject := user]); Constraints(t') && Grows(t, t')
  {}

  lemma ProvisionKeeps(t: Tables, identity: Identity, newUser: Id)
    requires Constraints(t)
    ensures var r := ProvisionIdentity(t, identity, newUser);
            r.Committed? ==> Constraints(r.tables) && Grows(t, r.tables) && r.value in r.tables.users
                             && identity.subject in r.tables.identities
                             && r.tables.identities[identity.subject] == r.value
                             && r.tables == t.(users := r.tables.users, identities := r.tables.identities)
  {
    assert identity.subject in t.identities ==> t.identities[identity.subject] in t.users;
    hide Constraints, Grows;
    GrowsReflexive(t);
    var r := ProvisionIdentity(t, identity, newUser);
    var row := UserRow(identity.email, identity.displayName, true);
    if r.Committed? && r.tables != t {
      UserWriteKeeps(t, r.value, row);
      var t' := t.(users := t.users[r.value := row]);
      if identity.subject !in t.identities {
        IdentityWriteKeeps(t', identity.subject, newUser);
        GrowsTransitive(t, t', r.tables);
      }
    }
  }

  lemma ProvisionOnlyUsers(t: Tables, identity: Identity, newUser: Id)
    ensures var r := ProvisionIdentity(t, identity, newUser);
            r.Committed? ==> r.tables == t.(users := r.tables.users, identities := r.tables.identities)
  {
    hide EmailTaken;
  }

  // ---- register_device ----

  lemma DeviceWriteKeeps(t: Tables, d: Id, row: DeviceRow)
    requires Constraints(t) && row.user in t.users
    requires forall x :: IsDevice(t, row.user, row.deviceKey, x) ==> x == d
    requires d in t.devices ==> SameDevice(t.devices[d], row)
    ensures var t' := t.(devices := t.devices[d := row]); Constraints(t') && Grows(t, t')
  {
    DeviceKeysKept(t, d, row);
    assert DeviceKeys(t.devices[d := row], t.users);
    assert SessionKeys(t.sessions, t.users, t.devices[d := row]);
    assert DevicesGrow(t.devices, t.devices[d := row]);
  }

  lemma DeviceKeysKept(t: Tables, d: Id, row: DeviceRow)
    requires UniqueDeviceKeys(t.devices)
    requires forall x :: IsDevice(t, row.user, row.deviceKey, x) ==> x == d
    ensures UniqueDeviceKeys(t.devices[d := row])
  {
    var devices := t.devices[d := row];
    forall a, b | a in devices && b in devices && SameDevice(devices[a], devices[b]) ensures a == b {
      assert a != d ==> IsDevice(t, devices[a].user, devices[a].deviceKey, a);
      assert b != d ==> IsDevice(t, devices[b].user, devices[b].deviceKey, b);
    }
  }

  lemma OneDevice(t: Tables, user: Id, key: Fingerprint, d: Id)
    requires UniqueDeviceKeys(t.devices) && IsDevice(t, user, key, d)
    ensures forall x :: IsDevice(t, user, key, x) ==> x == d
  {}

  /** Registering writes one row, the known one for this user and key or a new one. */
  lemma RegisterWrites(t: Tables, user: Id, key: Fingerprint, platform: string, now: Time, newDevice: Id)
    requires UniqueDeviceKeys(t.devices) && DeviceKeys(t.devices, t.users)
    ensures var r := RegisterDevice(t, user, key, platform, now, newDevice);
            var row := DeviceRow(user, key, platform, now, None);
            r.Committed? ==>
              && r.tables == t.(devices := t.devices[r.value := row]) && user in t.users
              && (forall x :: IsDevice(t, user, key, x) ==> x == r.value)
              && (r.value in t.devices ==> SameDevice(t.devices[r.value], row))
  {
    if d :| IsDevice(t, user, key, d) {
      OneDevice(t, user, key, d);
    }
  }

  lemma RegisterKnown(t: Tables, user: Id, key: Fingerprint, platform: string, now: Time, newDevice: Id, d: Id)
    requires UniqueDeviceKeys(t.devices) && IsDevice(t, user, key, d)
    ensures RegisterDevice(t, user, key, platform, now, newDevice)
         == Committed(t.(devices := t.devices[d := DeviceRow(user, key, platform, now, None)]), d)
    ensures forall x :: x in t.devices && t.devices[x].user == user && t.devices[x].deviceKey == key ==> x == d
  {
    OneDevice(t, user, key, d);
  }

  lemma RegisterNew(t: Tables, user: Id, key: Fingerprint, platform: string, now: Time, newDevice: Id)
    requires forall d :: !IsDevice(t, user, key, d)
    ensures RegisterDevice(t, user, key, platform, now, newDevice)
         == if user !in t.users || newDevice in t.devices then RolledBack
            else Committed(t.(devices := t.devices[newDevice := DeviceRow(user, key, platform, now, None)]), newDevice)
  {}

  lemma RegisterKeeps(t: Tables, user: Id, key: Fingerprint, platform: string, now: Time, newDevice: Id)
    requires Constraints(t)
    ensures var r := RegisterDevice(t, user, key, platform, now, newDevice);
            r.Committed? ==> Constraints(r.tables) && Grows(t, r.tables) && IsDevice(r.tables, user, key, r.value)
                             && r.tables.devices[r.value].revokedAt.None?
                             && r.tables == t.(devices := r.tables.devices)
  {
    RegisterWrites(t, user, key, platform, now, newDevice);
    hide Constraints, Grows, RegisterDevice, SameDevice;
    var r := RegisterDevice(t, user, key, platform, now, newDevice);
    if r.Committed? {
      DeviceWriteKeeps(t, r.value, DeviceRow(user, key, platform, now, None));
    }
  }

  lemma RegisterOnlyDevices(t: Tables, user: Id, key: Fingerprint, platform: string, now: Time, newDevice: Id)
    ensures var r := RegisterDevice(t, user, key, platform, now, newDevice);
            r.Committed? ==> r.tables == t.(devices := r.tables.devices)
  {}

  // ---- sessions ----

  lemma CreateOnlySessions(t: Tables, user: Id, device: Id, token: Fingerprint, expiresAt: Time, newSession: Id)
    ensures var r := CreateSession(t, user, device, token, expiresAt, newSession);
            r.Committed? ==>
              && r.value == newSession && newSession !in t.sessions
              && r.tables == t.(sessions := r.tables.sessions, events := r.tables.events)
              && r.tables.sessions == t.sessions[newSession := SessionRow(user, device, token, expiresAt, None)]
  {}

  lemma CreateKeeps(t: Tables, user: Id, device: Id, token: Fingerprint, expiresAt: Time, newSession: Id)
    requires Constraints(t)
    ensures var r := CreateSession(t, user, device, token, expiresAt, newSession);
            r.Committed? ==> Constraints(r.tables) && Grows(t, r.tables)
  {
    var r := CreateSession(t, user, device, token, expiresAt, newSession);
    if r.Committed? {
      TokensKept(t, newSession, r.tables.sessions[newSession]);
      assert SessionKeys(r.tables.sessions, t.users, t.devices);
      assert TicketKeys(t.tickets, r.tables.sessions);
      assert SessionsGrow(t.sessions, r.tables.sessions);
    }
  }

  lemma TokensKept(t: Tables, i: Id, row: SessionRow)
    requires UniqueTokens(t.sessions) && !TokenTaken(t, row.token)
    ensures UniqueTokens(t.sessions[i := row])
  {}

  /** Setting revocation marks on session rows, and nothing else but the event log. */
  lemma RevokingKeeps(t: Tables, t': Tables)
    requires Constraints(t) && t' == t.(sessions := t'.sessions, events := t'.events)
    requires t'.sessions.Keys == t.sessions.Keys && SessionsGrow(t.sessions, t'.sessions)
    ensures Constraints(t') && Grows(t, t')
  {
    assert UniqueTokens(t'.sessions);
    assert SessionKeys(t'.sessions, t.users, t.devices);
  }

  lemma RevokeSessionMarks(t: Tables, i: Id, now: Time)
    ensures var t' := RevokeSession(t, i, now);
            && t' == t.(sessions := t'.sessions, events := t'.events)
            && t'.sessions.Keys == t.sessions.Keys && SessionsGrow(t.sessions, t'.sessions)
  {
    if i in t.sessions && t.sessions[i].revokedAt.None? {
      var row := t.sessions[i].(revokedAt := Some(now));
      assert t.sessions[i := row].Keys == t.sessions.Keys;
      hide RevokesDevice;
      assert RevokeSession(t, i, now) == t.(sessions := t.sessions[i := row],
        events := t.events + multiset{SessionRevoked(i, t.sessions[i].user)});
      OneSessionGrows(t.sessions, i, row);
      hide RevokeSession, SessionsGrow;
    }
  }

  lemma OneSessionGrows(sessions: map<Id, SessionRow>, i: Id, row: SessionRow)
    requires i in sessions ==> SameSession(sessions[i], row)
    ensures SessionsGrow(sessions, sessions[i := row])
  {}

  lemma RevokeSessionKeeps(t: Tables, i: Id, now: Time)
    requires Constraints(t)
    ensures Constraints(RevokeSession(t, i, now)) && Grows(t, RevokeSession(t, i, now))
  {
    RevokeSessionMarks(t, i, now);
    RevokingKeeps(t, RevokeSession(t, i, now));
  }

  lemma RevokeDeviceMarks(t: Tables, user: Id, device: Id, now: Time)
    requires RevokesDevice(t, user, device)
    ensures var sessions := RevokedSessions(t.sessions, device, now);
            sessions.Keys == t.sessions.Keys && SessionsGrow(t.sessions, sessions)
    ensures RevokeDevice(t, user, device, now).0
         == t.(devices := t.devices[device := t.devices[device].(revokedAt := Some(now))],
               sessions := RevokedSessions(t.sessions, device, now))
  {}

  lemma RevokeDeviceKeeps(t: Tables, user: Id, device: Id, now: Time)
    requires Constraints(t)
    ensures var t' := RevokeDevice(t, user, device, now).0; Constraints(t') && Grows(t, t')
  {
    if RevokesDevice(t, user, device) {
      var row := t.devices[device];
      RevokeDeviceMarks(t, user, device, now);
      OneDevice(t, row.user, row.deviceKey, device);
      DeviceWriteKeeps(t, device, row.(revokedAt := Some(now)));
      var mid := t.(devices := t.devices[device := row.(revokedAt := Some(now))]);
      var t' := mid.(sessions := RevokedSessions(t.sessions, device, now));
      RevokingKeeps(mid, t');
      GrowsTransitive(t, mid, t');
    }
  }

  /** A token names at most one session, so resolving answers with exactly the live one. */
  lemma ResolvesOne(t: Tables, token: Fingerprint, now: Time)
    requires Constraints(t)
    ensures ResolveSession(t, token, now).None? <==> forall i :: !Resolves(t, token, now, i)
    ensures forall i :: Resolves(t, token, now, i) ==>
              ResolveSession(t, token, now) == Some(PrincipalOf(t.sessions[i], i, t.permissions))
    ensures ResolveSession(t, token, now).Some? ==>
              Resolves(t, token, now, ResolveSession(t, token, now).value.session)
  {}
}
