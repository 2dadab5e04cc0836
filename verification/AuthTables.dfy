/**
 The identity tables of the authentication service and the SQL transactions on
 them, one function per transaction.

 Cryptography is symbolic. A keyed fingerprint is an injective constructor, so
 two secrets have the same fingerprint only when they are equal. A sealed payload
 carries the associated data it was sealed under, and opens only under that data.
 */
module AuthTables {
  import opened Channels
  import opened Options
  import opened Text

  type Id = nat
  type Time = int

  datatype Fingerprint = Fingerprint(secret: string)

  datatype Purpose = FlowPurpose | GrantPurpose
  datatype Sealed = Sealed(purpose: Purpose, payload: map<string, string>)

  /** `_open`: decryption succeeds only under the associated data of the seal. */
  function Open(sealed: Sealed, purpose: Purpose): Option<map<string, string>> {
    if sealed.purpose == purpose then Some(sealed.payload) else None
  }

  /** `_required`: a missing or empty entry is refused. */
  function Required(payload: map<string, string>, key: string): Option<string> {
    if key in payload && payload[key] != "" then Some(payload[key]) else None
  }

  datatype Subject = Subject(issuer: string, name: string)
  datatype Identity = Identity(subject: Subject, email: string, displayName: string)

  datatype FlowRow = FlowRow(payload: Sealed, redirectUri: string, expiresAt: Time)
  datatype GrantRow = GrantRow(payload: Sealed, expiresAt: Time)
  datatype UserRow = UserRow(email: string, displayName: string, active: bool)
  datatype DeviceRow = DeviceRow(user: Id, deviceKey: Fingerprint, platform: string,
                                 lastSeenAt: Time, revokedAt: Option<Time>)
  datatype SessionRow = SessionRow(user: Id, device: Id, token: Fingerprint,
                                   expiresAt: Time, revokedAt: Option<Time>)
  datatype TicketRow = TicketRow(session: Id, channel: string, expiresAt: Time)
  datatype Event = SessionCreated(session: Id, user: Id) | SessionRevoked(session: Id, user: Id)

  /** `flows`, `grants` and `tickets` are keyed by their unique fingerprint column,
      `identities` by its unique (issuer, subject) pair, the other tables by id. */
  datatype Tables = Tables(
    flows: map<Fingerprint, FlowRow>,
    grants: map<Fingerprint, GrantRow>,
    users: map<Id, UserRow>,
    identities: map<Subject, Id>,
    roles: map<Id, set<string>>,
    permissions: map<Id, set<string>>,
    devices: map<Id, DeviceRow>,
    sessions: map<Id, SessionRow>,
    tickets: map<Fingerprint, TicketRow>,
    events: multiset<Event>)

  /** What `Principal` carries beside its identifiers and permissions: `roles` in order
      of name. */
  datatype Profile = Profile(email: string, displayName: string, roles: seq<string>)
  datatype Principal = Principal(user: Id, session: Id, device: Id, permissions: set<string>,
                                 expiresAt: Time)

  /** A transaction commits with a result, or a constraint violation rolls it back. */
  datatype Commit<+T> = Committed(tables: Tables, value: T) | RolledBack

  // ---- constraints ----

  ghost predicate UniqueTokens(sessions: map<Id, SessionRow>) {
    forall a, b :: a in sessions && b in sessions && sessions[a].token == sessions[b].token ==> a == b
  }

  ghost predicate UniqueDeviceKeys(devices: map<Id, DeviceRow>) {
    forall a, b :: a in devices && b in devices && SameDevice(devices[a], devices[b]) ==> a == b
  }

  predicate SameDevice(a: DeviceRow, b: DeviceRow) {
    a.user == b.user && a.deviceKey == b.deviceKey
  }

  ghost predicate UniqueEmails(users: map<Id, UserRow>) {
    forall a, b :: a in users && b in users && users[a].email == users[b].email ==> a == b
  }

  ghost predicate IdentityKeys(identities: map<Subject, Id>, users: map<Id, UserRow>) {
    forall x :: x in identities ==> identities[x] in users
  }

  ghost predicate DeviceKeys(devices: map<Id, DeviceRow>, users: map<Id, UserRow>) {
    forall d :: d in devices ==> devices[d].user in users
  }

  ghost predicate SessionKeys(sessions: map<Id, SessionRow>, users: map<Id, UserRow>, devices: map<Id, DeviceRow>) {
    forall i :: i in sessions ==> sessions[i].user in users && sessions[i].device in devices
  }

  ghost predicate TicketKeys(tickets: map<Fingerprint, TicketRow>, sessions: map<Id, SessionRow>) {
    forall fp :: fp in tickets ==> tickets[fp].session in sessions
  }

  /** Every uniqueness and foreign-key constraint the schema puts on the modelled tables. */
  ghost predicate Constraints(t: Tables) {
    && UniqueTokens(t.sessions) && UniqueDeviceKeys(t.devices) && UniqueEmails(t.users)
    && IdentityKeys(t.identities, t.users) && DeviceKeys(t.devices, t.users)
    && SessionKeys(t.sessions, t.users, t.devices) && TicketKeys(t.tickets, t.sessions)
  }

  // ---- one-time rows ----

  function PutFlow(t: Tables, fp: Fingerprint, row: FlowRow): Commit<()> {
    if fp in t.flows then RolledBack else Committed(t.(flows := t.flows[fp := row]), ())
  }

  predicate FlowLive(t: Tables, fp: Fingerprint, now: Time) {
    fp in t.flows && t.flows[fp].expiresAt > now
  }

  function ConsumeFlow(t: Tables, fp: Fingerprint, now: Time): (Tables, Option<FlowRow>) {
    if FlowLive(t, fp, now) then (t.(flows := t.flows - {fp}), Some(t.flows[fp])) else (t, None)
  }

  function PutGrant(t: Tables, fp: Fingerprint, row: GrantRow): Commit<()> {
    if fp in t.grants then RolledBack else Committed(t.(grants := t.grants[fp := row]), ())
  }

  predicate GrantLive(t: Tables, fp: Fingerprint, now: Time) {
    fp in t.grants && t.grants[fp].expiresAt > now
  }

  function ConsumeGrant(t: Tables, fp: Fingerprint, now: Time): (Tables, Option<Sealed>) {
    if GrantLive(t, fp, now) then (t.(grants := t.grants - {fp}), Some(t.grants[fp].payload)) else (t, None)
  }

  // ---- identities and devices ----

  /** The unique email constraint, seen from a row being written for `owner`. */
  ghost predicate EmailTaken(t: Tables, email: string, owner: Id) {
    exists u :: u in t.users && u != owner && t.users[u].email == email
  }

  ghost function ProvisionIdentity(t: Tables, identity: Identity, newUser: Id): Commit<Id> {
    if identity.subject !in t.identities then
      if newUser in t.users || EmailTaken(t, identity.email, newUser) then RolledBack
      else Committed(
             t.(users := t.users[newUser := UserRow(identity.email, identity.displayName, true)],
                identities := t.identities[identity.subject := newUser]),
             newUser)
    else
      var user := t.identities[identity.subject];
      if user !in t.users || !t.users[user].active then Committed(t, user)
      else if EmailTaken(t, identity.email, user) then RolledBack
      else Committed(
             t.(users := t.users[user := UserRow(identity.email, identity.displayName, true)]),
             user)
  }

  ghost predicate IsDevice(t: Tables, user: Id, key: Fingerprint, d: Id) {
    d in t.devices && t.devices[d].user == user && t.devices[d].deviceKey == key
  }

  /** INSERT .. ON CONFLICT (user_id, device_key) DO UPDATE: a known device is seen
      again and its revocation is cleared. */
  ghost function RegisterDevice(t: Tables, user: Id, key: Fingerprint, platform: string, now: Time,
                                newDevice: Id): Commit<Id> {
    if d :| IsDevice(t, user, key, d) then
      Committed(t.(devices := t.devices[d := t.devices[d].(platform := platform, lastSeenAt := now,
                                                           revokedAt := None)]), d)
    else if user !in t.users || newDevice in t.devices then RolledBack
    else Committed(t.(devices := t.devices[newDevice := DeviceRow(user, key, platform, now, None)]), newDevice)
  }

  predicate RevokesDevice(t: Tables, user: Id, device: Id) {
    device in t.devices && t.devices[device].user == user && t.devices[device].revokedAt.None?
  }

  /** The cascade of `revoke_device`: it selects sessions by device alone. */
  function RevokedSessions(sessions: map<Id, SessionRow>, device: Id, now: Time): map<Id, SessionRow> {
    map i | i in sessions ::
      if sessions[i].device == device && sessions[i].revokedAt.None?
      then sessions[i].(revokedAt := Some(now)) else sessions[i]
  }

  function RevokeDevice(t: Tables, user: Id, device: Id, now: Time): (Tables, bool) {
    if RevokesDevice(t, user, device) then
      (t.(devices := t.devices[device := t.devices[device].(revokedAt := Some(now))],
          sessions := RevokedSessions(t.sessions, device, now)), true)
    else (t, false)
  }

  // ---- sessions ----

  ghost predicate TokenTaken(t: Tables, token: Fingerprint) {
    exists i :: i in t.sessions && t.sessions[i].token == token
  }

  ghost function CreateSession(t: Tables, user: Id, device: Id, token: Fingerprint, expiresAt: Time,
                               newSession: Id): Commit<Id> {
    if newSession in t.sessions || user !in t.users || device !in t.devices || TokenTaken(t, token) then RolledBack
    else Committed(
           t.(sessions := t.sessions[newSession := SessionRow(user, device, token, expiresAt, None)],
              events := t.events + multiset{SessionCreated(newSession, user)}),
           newSession)
  }

  /** The join of `resolve_session` on one session row: the row is live, its user is
      active, and its device, when there is one, is not revoked. */
  predicate Alive(t: Tables, i: Id, now: Time) {
    && i in t.sessions
    && t.sessions[i].revokedAt.None?
    && t.sessions[i].expiresAt > now
    && t.sessions[i].user in t.users
    && t.users[t.sessions[i].user].active
    && (t.sessions[i].device !in t.devices || t.devices[t.sessions[i].device].revokedAt.None?)
  }

  predicate Resolves(t: Tables, token: Fingerprint, now: Time, i: Id) {
    Alive(t, i, now) && t.sessions[i].token == token
  }

  /** The permission codes of a user, joined through the role tables. */
  function PermissionsOf(permissions: map<Id, set<string>>, user: Id): set<string> {
    if user in permissions then permissions[user] else {}
  }

  /** The role names of a user, joined through `user_roles`. */
  function RolesOf(roles: map<Id, set<string>>, user: Id): set<string> {
    if user in roles then roles[user] else {}
  }

  ghost predicate ProfileOf(profile: Profile, t: Tables, user: Id) {
    && user in t.users && profile.email == t.users[user].email && profile.displayName == t.users[user].displayName
    && InOrder(profile.roles, RolesOf(t.roles, user))
  }

  function PrincipalOf(row: SessionRow, i: Id, permissions: map<Id, set<string>>): Principal {
    Principal(row.user, i, row.device, PermissionsOf(permissions, row.user), row.expiresAt)
  }

  ghost function ResolveSession(t: Tables, token: Fingerprint, now: Time): Option<Principal> {
    if i :| Resolves(t, token, now, i) then Some(PrincipalOf(t.sessions[i], i, t.permissions)) else None
  }

  function RevokeSession(t: Tables, i: Id, now: Time): Tables {
    if i in t.sessions && t.sessions[i].revokedAt.None? then
      t.(sessions := t.sessions[i := t.sessions[i].(revokedAt := Some(now))],
         events := t.events + multiset{SessionRevoked(i, t.sessions[i].user)})
    else t
  }

  // ---- WebSocket tickets ----

  function PutTicket(t: Tables, fp: Fingerprint, row: TicketRow): Commit<()> {
    if fp in t.tickets || row.session !in t.sessions || row.channel !in CHANNELS then RolledBack
    else Committed(t.(tickets := t.tickets[fp := row]), ())
  }

  /** DELETE .. USING sessions: the device and the user are not part of this join. */
  predicate TicketLive(t: Tables, fp: Fingerprint, channel: string, now: Time) {
    && fp in t.tickets
    && t.tickets[fp].channel == channel
    && t.tickets[fp].expiresAt > now
    && t.tickets[fp].session in t.sessions
    && t.sessions[t.tickets[fp].session].revokedAt.None?
    && t.sessions[t.tickets[fp].session].expiresAt > now
  }

  function ConsumeTicket(t: Tables, fp: Fingerprint, channel: string, now: Time): (Tables, Option<Id>) {
    if TicketLive(t, fp, channel, now)
    then (t.(tickets := t.tickets - {fp}), Some(t.tickets[fp].session)) else (t, None)
  }
}
