/**
 `PostgresAuthRepository`: the identity tables as fields that each transaction
 updates in place. Every method says what it does to the rows, has exactly the effect
 of the transaction function of the same name in `AuthTables`, and keeps every
 constraint of the schema. What a `modifies` clause does not name stays as it is.
 */
module AuthRepository {
  import opened Channels
  import opened Options
  import opened Text
  import opened AuthTables
  import opened AuthTransactions

  class PostgresAuthRepository {
    var flows: map<Fingerprint, FlowRow>
    var grants: map<Fingerprint, GrantRow>
    var users: map<Id, UserRow>
    var identities: map<Subject, Id>
    var roles: map<Id, set<string>>
    var permissions: map<Id, set<string>>
    var devices: map<Id, DeviceRow>
    var sessions: map<Id, SessionRow>
    var tickets: map<Fingerprint, TicketRow>
    var events: multiset<Event>

    function Contents(): Tables
      reads this
    {
      Tables(flows, grants, users, identities, roles, permissions, devices, sessions, tickets, events)
    }

    /** The tables meet every uniqueness and foreign-key constraint. */
    ghost predicate Valid()
      reads this
    {
      Constraints(Contents())
    }

    /** The repository of an existing database. */
    constructor (t: Tables)
      requires Constraints(t)
      ensures Valid() && Contents() == t
    {
      flows, grants, users, identities, roles, permissions :=
        t.flows, t.grants, t.users, t.identities, t.roles, t.permissions;
      devices, sessions, tickets, events := t.devices, t.sessions, t.tickets, t.events;
    }

    method PutFlow(fp: Fingerprint, payload: Sealed, redirectUri: string, expiresAt: Time) returns (ok: bool)
      requires Valid()
      modifies this`flows
      ensures Valid()
      ensures match AuthTables.PutFlow(old(Contents()), fp, FlowRow(payload, redirectUri, expiresAt))
              case Committed(t, _) => ok && Contents() == t
              case RolledBack => !ok && Contents() == old(Contents())
      ensures ok <==> fp !in old(flows)
      ensures flows == if ok then old(flows)[fp := FlowRow(payload, redirectUri, expiresAt)] else old(flows)
    {
      ok := fp !in flows;
      if ok {
        flows := flows[fp := FlowRow(payload, redirectUri, expiresAt)];
      }
    }

    method ConsumeFlow(fp: Fingerprint, now: Time) returns (row: Option<FlowRow>)
      requires Valid()
      modifies this`flows
      ensures Valid()
      ensures (Contents(), row) == AuthTables.ConsumeFlow(old(Contents()), fp, now)
      ensures row == if fp in old(flows) && old(flows)[fp].expiresAt > now then Some(old(flows)[fp]) else None
      ensures flows == if row.Some? then old(flows) - {fp} else old(flows)
    {
      if fp in flows && flows[fp].expiresAt > now {
        row := Some(flows[fp]);
        flows := flows - {fp};
      } else {
        row := None;
      }
    }

    method PutLoginGrant(fp: Fingerprint, payload: Sealed, expiresAt: Time) returns (ok: bool)
      requires Valid()
      modifies this`grants
      ensures Valid()
      ensures match PutGrant(old(Contents()), fp, GrantRow(payload, expiresAt))
              case Committed(t, _) => ok && Contents() == t
              case RolledBack => !ok && Contents() == old(Contents())
      ensures ok <==> fp !in old(grants)
      ensures grants == if ok then old(grants)[fp := GrantRow(payload, expiresAt)] else old(grants)
    {
      ok := fp !in grants;
      if ok {
        grants := grants[fp := GrantRow(payload, expiresAt)];
      }
    }

    method ConsumeLoginGrant(fp: Fingerprint, now: Time) returns (payload: Option<Sealed>)
      requires Valid()
      modifies this`grants
      ensures Valid()
      ensures (Contents(), payload) == ConsumeGrant(old(Contents()), fp, now)
      ensures payload == if fp in old(grants) && old(grants)[fp].expiresAt > now
                         then Some(old(grants)[fp].payload) else None
      ensures grants == if payload.Some? then old(grants) - {fp} else old(grants)
    {
      if fp in grants && grants[fp].expiresAt > now {
        payload := Some(grants[fp].payload);
        grants := grants - {fp};
      } else {
        payload := None;
      }
    }

    method ProvisionIdentity(identity: Identity, newUser: Id) returns (user: Option<Id>)
      requires Valid()
      modifies this`users, this`identities
      ensures Valid()
      ensures match AuthTables.ProvisionIdentity(old(Contents()), identity, newUser)
              case Committed(t, id) => user == Some(id) && Contents() == t
              case RolledBack => user == None && Contents() == old(Contents())
      ensures user.None? ==> users == old(users) && identities == old(identities)
      ensures user.Some? && identity.subject !in old(identities) ==>
                && user.value == newUser && newUser !in old(users)
                && identities == old(identities)[identity.subject := newUser]
                && users == old(users)[newUser := UserRow(identity.email, identity.displayName, true)]
      ensures user.Some? && identity.subject in old(identities) ==>
                && user.value == old(identities)[identity.subject] && identities == old(identities)
                && users == if user.value in old(users) && old(users)[user.value].active
                            then old(users)[user.value := UserRow(identity.email, identity.displayName, true)]
                            else old(users)
      ensures user.None? <==>
                if identity.subject !in old(identities) then
                  newUser in old(users) || exists u :: u in old(users) && old(users)[u].email == identity.email
                else
                  var known := old(identities)[identity.subject];
                  && known in old(users) && old(users)[known].active
                  && exists u :: u in old(users) && u != known && old(users)[u].email == identity.email
    {
      hide Constraints, EmailTaken;
      ghost var t := Contents();
      var existing := if identity.subject in identities then identities[identity.subject] else newUser;
      var taken := EmailInUse(identity.email, existing);
      if identity.subject !in identities {
        if newUser in users || taken {
          user := None;
        } else {
          users := users[newUser := UserRow(identity.email, identity.displayName, true)];
          identities := identities[identity.subject := newUser];
          user := Some(newUser);
        }
      } else if existing !in users || !users[existing].active {
        user := Some(existing);
      } else if taken {
        user := None;
      } else {
        users := users[existing := UserRow(identity.email, identity.displayName, true)];
        user := Some(existing);
      }
      ProvisionKeeps(t, identity, newUser);
    }

    /** The unique constraint on emails, seen from the row of `owner`. */
    method EmailInUse(email: string, owner: Id) returns (taken: bool)
      ensures taken <==> EmailTaken(Contents(), email, owner)
      ensures taken <==> exists u :: u in users && u != owner && users[u].email == email
    {
      taken := exists u :: u in users && u != owner && users[u].email == email;
    }

    method RegisterDevice(user: Id, key: Fingerprint, platform: string, now: Time, newDevice: Id)
      returns (device: Option<Id>)
      requires Valid()
      modifies this`devices
      ensures Valid()
      ensures match AuthTables.RegisterDevice(old(Contents()), user, key, platform, now, newDevice)
              case Committed(t, d) => device == Some(d) && Contents() == t
              case RolledBack => device == None && Contents() == old(Contents())
      ensures forall d :: d in old(devices) && old(devices)[d].user == user && old(devices)[d].deviceKey == key ==>
                device == Some(d) && devices == old(devices)[d := DeviceRow(user, key, platform, now, None)]
      ensures (forall d :: d in old(devices) ==>
                 !(old(devices)[d].user == user && old(devices)[d].deviceKey == key)) ==>
                if user in users && newDevice !in old(devices) then
                  device == Some(newDevice)
                  && devices == old(devices)[newDevice := DeviceRow(user, key, platform, now, None)]
                else device == None && devices == old(devices)
    {
      hide Constraints, UniqueDeviceKeys, AuthTables.RegisterDevice, Grows, IsDevice;
      ghost var t := Contents();
      var known := FindDevice(user, key);
      if known.Some? {
        KeysUnique(t);
        RegisterKnown(t, user, key, platform, now, newDevice, known.value);
        var row := devices[known.value].(platform := platform, lastSeenAt := now, revokedAt := None);
        devices := devices[known.value := row];
        device := known;
      } else {
        assert t == Contents();
        RegisterNew(t, user, key, platform, now, newDevice);
        if user !in users || newDevice in devices {
          device := None;
        } else {
          devices := devices[newDevice := DeviceRow(user, key, platform, now, None)];
          device := Some(newDevice);
        }
      }
      RegisterKeeps(t, user, key, platform, now, newDevice);
    }

    /** The row that ON CONFLICT (user_id, device_key) finds. */
    method FindDevice(user: Id, key: Fingerprint) returns (device: Option<Id>)
      ensures device.None? ==> forall d :: !IsDevice(Contents(), user, key, d)
      ensures device.None? ==> forall d :: d in devices ==> !(devices[d].user == user && devices[d].deviceKey == key)
      ensures device.Some? ==>
                && IsDevice(Contents(), user, key, device.value)
                && device.value in devices
                && devices[device.value].user == user && devices[device.value].deviceKey == key
    {
      if d :| d in devices && devices[d].user == user && devices[d].deviceKey == key {
        return Some(d);
      }
      return None;
    }

    method CreateSession(user: Id, device: Id, token: Fingerprint, expiresAt: Time, newSession: Id)
      returns (session: Option<Id>)
      requires Valid()
      modifies this`sessions, this`events
      ensures Valid()
      ensures match AuthTables.CreateSession(old(Contents()), user, device, token, expiresAt, newSession)
              case Committed(t, i) => session == Some(i) && Contents() == t
              case RolledBack => session == None && Contents() == old(Contents())
      ensures session == if newSession in old(sessions) || user !in users || device !in devices
                            || exists i :: i in old(sessions) && old(sessions)[i].token == token
                         then None else Some(newSession)
      ensures sessions == if session.None? then old(sessions)
                          else old(sessions)[newSession := SessionRow(user, device, token, expiresAt, None)]
      ensures events == old(events) + if session.None? then multiset{} else multiset{SessionCreated(newSession, user)}
    {
      hide Constraints;
      ghost var t := Contents();
      var taken := exists i :: i in sessions && sessions[i].token == token;
      if newSession in sessions || user !in users || device !in devices || taken {
        session := None;
      } else {
        sessions := sessions[newSession := SessionRow(user, device, token, expiresAt, None)];
        events := events + multiset{SessionCreated(newSession, user)};
        session := Some(newSession);
      }
      CreateKeeps(t, user, device, token, expiresAt, newSession);
    }

    method ResolveSession(token: Fingerprint, now: Time) returns (principal: Option<Principal>,
                          profile: Option<Profile>)
      requires Valid()
      ensures principal == AuthTables.ResolveSession(Contents(), token, now)
      ensures profile.Some? <==> principal.Some?
      ensures principal.Some? ==> ProfileOf(profile.value, Contents(), principal.value.user)
      ensures principal.None? ==> forall i :: i in sessions && sessions[i].token == token ==>
                || sessions[i].revokedAt.Some? || sessions[i].expiresAt <= now
                || sessions[i].user !in users || !users[sessions[i].user].active
                || (sessions[i].device in devices && devices[sessions[i].device].revokedAt.Some?)
      ensures principal.Some? ==>
                var p := principal.value;
                && p.session in sessions && sessions[p.session].token == token
                && sessions[p.session].revokedAt.None? && sessions[p.session].expiresAt > now
                && p.user == sessions[p.session].user && p.device == sessions[p.session].device
                && p.expiresAt == sessions[p.session].expiresAt
                && p.user in users && users[p.user].active
                && (p.device in devices ==> devices[p.device].revokedAt.None?)
      ensures principal.Some? ==>
                forall code :: code in principal.value.permissions <==>
                  principal.value.user in permissions && code in permissions[principal.value.user]
      ensures principal.Some? ==>
                var user := principal.value.user;
                && profile.value.email == users[user].email && profile.value.displayName == users[user].displayName
                && (forall i, j :: 0 <= i < j < |profile.value.roles| ==>
                      Below(profile.value.roles[i], profile.value.roles[j]))
                && (forall name :: name in profile.value.roles <==> user in roles && name in roles[user])
    {
      hide Constraints, AuthTables.ResolveSession, Resolves, Alive, InOrder;
      ResolvesOne(Contents(), token, now);
      var live := FindLive(token, now);
      if live.None? {
        return None, None;
      }
      var row := sessions[live.value];
      var names := Ordered(if row.user in roles then roles[row.user] else {});
      OrderIs(names, if row.user in roles then roles[row.user] else {});
      var granted := if row.user in permissions then permissions[row.user] else {};
      principal := Some(Principal(row.user, live.value, row.device, granted, row.expiresAt));
      profile := Some(Profile(users[row.user].email, users[row.user].displayName, names));
    }

    /** The row that the join of `resolve_session` finds. */
    method FindLive(token: Fingerprint, now: Time) returns (session: Option<Id>)
      ensures session.None? ==> forall i :: !Resolves(Contents(), token, now, i)
      ensures session.None? ==> forall i :: i in sessions && sessions[i].token == token ==>
                || sessions[i].revokedAt.Some? || sessions[i].expiresAt <= now
                || sessions[i].user !in users || !users[sessions[i].user].active
                || (sessions[i].device in devices && devices[sessions[i].device].revokedAt.Some?)
      ensures session.Some? ==>
                var i := session.value;
                && Resolves(Contents(), token, now, i) && i in sessions && sessions[i].token == token
                && sessions[i].revokedAt.None? && sessions[i].expiresAt > now
                && sessions[i].user in users && users[sessions[i].user].active
                && (sessions[i].device in devices ==> devices[sessions[i].device].revokedAt.None?)
    {
      if i :| && i in sessions && sessions[i].token == token
              && sessions[i].revokedAt.None? && sessions[i].expiresAt > now
              && sessions[i].user in users && users[sessions[i].user].active
              && (sessions[i].device !in devices || devices[sessions[i].device].revokedAt.None?)
      {
        return Some(i);
      }
      return None;
    }

    method RevokeSession(session: Id, now: Time)
      requires Valid()
      modifies this`sessions, this`events
      ensures Valid()
      ensures Contents() == AuthTables.RevokeSession(old(Contents()), session, now)
      ensures sessions.Keys == old(sessions).Keys
      ensures forall i :: i in sessions && i != session ==> sessions[i] == old(sessions)[i]
      ensures session in sessions ==>
                sessions[session] == if old(sessions)[session].revokedAt.Some? then old(sessions)[session]
                                     else old(sessions)[session].(revokedAt := Some(now))
      ensures events == old(events) + if session in sessions && old(sessions)[session].revokedAt.None?
                                      then multiset{SessionRevoked(session, sessions[session].user)} else multiset{}
    {
      hide Constraints;
      ghost var t := Contents();
      if session in sessions && sessions[session].revokedAt.None? {
        var user := sessions[session].user;
        sessions := sessions[session := sessions[session].(revokedAt := Some(now))];
        events := events + multiset{SessionRevoked(session, user)};
      }
      RevokeSessionKeeps(t, session, now);
    }

    method RevokeDevice(user: Id, device: Id, now: Time) returns (changed: bool)
      requires Valid()
      modifies this`devices, this`sessions
      ensures Valid()
      ensures (Contents(), changed) == AuthTables.RevokeDevice(old(Contents()), user, device, now)
      ensures changed <==> device in old(devices) && old(devices)[device].user == user
                           && old(devices)[device].revokedAt.None?
      ensures !changed ==> devices == old(devices) && sessions == old(sessions)
      ensures changed ==> devices == old(devices)[device := old(devices)[device].(revokedAt := Some(now))]
      ensures sessions.Keys == old(sessions).Keys
      ensures changed ==> forall i :: i in sessions ==>
                sessions[i] == if old(sessions)[i].device == device && old(sessions)[i].revokedAt.None?
                               then old(sessions)[i].(revokedAt := Some(now)) else old(sessions)[i]
    {
      hide Constraints, RevokedSessions, Grows;
      ghost var t := Contents();
      changed := device in devices && devices[device].user == user && devices[device].revokedAt.None?;
      if changed {
        MarkedSessions(sessions, device, now);
        devices := devices[device := devices[device].(revokedAt := Some(now))];
        sessions := RevokedSessions(sessions, device, now);
      }
      RevokeDeviceKeeps(t, user, device, now);
    }

    method PutWsTicket(fp: Fingerprint, session: Id, channel: string, expiresAt: Time) returns (ok: bool)
      requires Valid()
      modifies this`tickets
      ensures Valid()
      ensures match PutTicket(old(Contents()), fp, TicketRow(session, channel, expiresAt))
              case Committed(t, _) => ok && Contents() == t
              case RolledBack => !ok && Contents() == old(Contents())
      ensures ok <==> fp !in old(tickets) && session in sessions && channel in {"system.health", "session.events"}
      ensures tickets == if ok then old(tickets)[fp := TicketRow(session, channel, expiresAt)] else old(tickets)
    {
      ok := fp !in tickets && session in sessions && channel in CHANNELS;
      if ok {
        tickets := tickets[fp := TicketRow(session, channel, expiresAt)];
      }
    }

    method ConsumeWsTicket(fp: Fingerprint, channel: string, now: Time) returns (session: Option<Id>)
      requires Valid()
      modifies this`tickets
      ensures Valid()
      ensures (Contents(), session) == ConsumeTicket(old(Contents()), fp, channel, now)
      ensures session.Some? <==>
                && fp in old(tickets) && old(tickets)[fp].channel == channel && old(tickets)[fp].expiresAt > now
                && old(tickets)[fp].session in sessions
                && sessions[old(tickets)[fp].session].revokedAt.None?
                && sessions[old(tickets)[fp].session].expiresAt > now
      ensures session.Some? ==> session.value == old(tickets)[fp].session && tickets == old(tickets) - {fp}
      ensures session.None? ==> tickets == old(tickets)
    {
      if && fp in tickets && tickets[fp].channel == channel && tickets[fp].expiresAt > now
         && tickets[fp].session in sessions
         && sessions[tickets[fp].session].revokedAt.None? && sessions[tickets[fp].session].expiresAt > now
      {
        session := Some(tickets[fp].session);
        tickets := tickets - {fp};
      } else {
        session := None;
      }
    }
  }

  lemma KeysUnique(t: Tables)
    requires Constraints(t)
    ensures UniqueDeviceKeys(t.devices)
  {}

  lemma MarkedSessions(sessions: map<Id, SessionRow>, device: Id, now: Time)
    ensures var marked := RevokedSessions(sessions, device, now);
            && marked.Keys == sessions.Keys
            && forall i :: i in sessions ==>
                 marked[i] == if sessions[i].device == device && sessions[i].revokedAt.None?
                              then sessions[i].(revokedAt := Some(now)) else sessions[i]
  {}

  lemma OrderIs(names: seq<string>, all: set<string>)
    requires InOrder(names, all)
    ensures forall i, j :: 0 <= i < j < |names| ==> Below(names[i], names[j])
    ensures forall name :: name in names <==> name in all
  {}
}
