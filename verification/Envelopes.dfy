/**
 The message envelopes both ends exchange: the server's builders, the client's
 subscribe envelope, and what each end accepts from the other.
 */
module Envelopes {
  import opened Channels
  import opened Options
  import opened Regex
  import opened UuidV7
  import opened UuidText
  import Hex
  import CanonicalDecimal
  import Power

  datatype Json =
    | JNull
    | JBool(flag: bool)
    | JNum(number: real)
    | JStr(text: string)
    | JArr(items: seq<Json>)
    | JObj(fields: map<string, Json>)

  type Fields = map<string, Json>

  // ---- library code ----

  datatype Instant = Instant(year: nat, month: nat, day: nat, hour: nat, minute: nat, second: nat, micro: nat)

  function DaysIn(month: nat, year: nat): nat {
    if month == 2 then (if year % 4 == 0 && (year % 100 != 0 || year % 400 == 0) then 29 else 28)
    else if month in {4, 6, 9, 11} then 30
    else 31
  }

  predicate Valid(i: Instant) {
    && 1 <= i.year <= 9999 && 1 <= i.month <= 12 && 1 <= i.day <= DaysIn(i.month, i.year)
    && i.hour < 24 && i.minute < 60 && i.second < 60 && i.micro < 1000000
  }

  /** YYYY-MM-DDTHH:MM:SS */
  function Seconds(i: Instant): string {
    CanonicalDecimal.Padded(i.year, 4) + "-" + CanonicalDecimal.Padded(i.month, 2)
    + "-" + CanonicalDecimal.Padded(i.day, 2)
    + "T" + CanonicalDecimal.Padded(i.hour, 2) + ":" + CanonicalDecimal.Padded(i.minute, 2) + ":"
    + CanonicalDecimal.Padded(i.second, 2)
  }

  /** `Date.toISOString` without its Z: always three fraction digits. */
  function Millis(i: Instant): string {
    Seconds(i) + "." + CanonicalDecimal.Padded(i.micro / 1000, 3)
  }

  /** `datetime.isoformat` in UTC without its offset: no fraction, or six digits. */
  function Micros(i: Instant): string {
    Seconds(i) + if i.micro == 0 then "" else "." + CanonicalDecimal.Padded(i.micro, 6)
  }

  /** The library functions whose behaviour on other texts is left open: `int(_, 16)`,
      `datetime.fromisoformat` (giving the offset in seconds), and zod's `datetime`. */
  datatype Libraries = Libraries(
    int16: string -> Option<int>, fromIso: string -> Option<int>, isoDatetime: string -> bool)

  /** All that is asked of them: they read what they are documented to read. */
  ghost predicate Faithful(lib: Libraries) {
    && ReadsHex(lib.int16)
    && (forall i: Instant :: Valid(i) ==> lib.fromIso(Millis(i) + "+00:00") == Some(0))
    && (forall i: Instant :: Valid(i) ==> lib.isoDatetime(Micros(i) + "Z"))
  }

  // ---- the frame of every envelope ----

  const ENVELOPE_KEYS: set<string> :=
    {"schemaVersion", "messageId", "category", "occurredAt", "metadata", "payload"}

  function Envelope(messageId: string, category: string, occurredAt: string, correlationId: string,
                    payload: Fields): Fields {
    map["schemaVersion" := JStr("1.0.0"), "messageId" := JStr(messageId), "category" := JStr(category),
        "occurredAt" := JStr(occurredAt), "metadata" := JObj(map["correlationId" := JStr(correlationId)]),
        "payload" := JObj(payload)]
  }

  predicate HasFrame(fields: Fields, messageId: string, category: string, occurredAt: string, correlationId: string,
                     payload: Fields) {
    && fields.Keys == ENVELOPE_KEYS
    && fields["schemaVersion"] == JStr("1.0.0") && fields["messageId"] == JStr(messageId)
    && fields["category"] == JStr(category) && fields["occurredAt"] == JStr(occurredAt)
    && fields["metadata"] == JObj(map["correlationId" := JStr(correlationId)])
    && fields["payload"] == JObj(payload)
  }

  lemma EnvelopeFields(messageId: string, category: string, occurredAt: string, correlationId: string, payload: Fields)
    ensures HasFrame(Envelope(messageId, category, occurredAt, correlationId, payload),
                     messageId, category, occurredAt, correlationId, payload)
  {}

  // ---- what the server builds ----

  /** The clock readings and random draws of one envelope. */
  datatype Mint = Mint(millisecond: int, random: nat, at: Instant)

  predicate Minted(m: Mint) {
    m.random < P74 && Valid(m.at)
  }

  function NewId(m: Mint): string {
    Canonical(Pack(m.millisecond, m.random))
  }

  /** `utc_z`. */
  function UtcZ(i: Instant): string {
    Micros(i) + "Z"
  }

  /** `_base`. */
  function Base(m: Mint, category: string, correlationId: string, payload: Fields, occurredAt: string): Json {
    JObj(Envelope(NewId(m), category, occurredAt, correlationId, payload))
  }

  /** `websocket_envelope`: an empty subscription id is left out like a missing one. */
  function WebSocketEnvelope(
    m: Mint, correlationId: string, operation: string, channel: string, subscriptionId: Option<string>
  ): Json {
    Base(m, "websocket", correlationId, ControlPayload(operation, channel, subscriptionId), UtcZ(m.at))
  }

  function ControlPayload(operation: string, channel: string, subscriptionId: Option<string>): Fields {
    var payload := map["operation" := JStr(operation), "channel" := JStr(channel)];
    if subscriptionId.Some? && subscriptionId.value != ""
    then payload["subscriptionId" := JStr(subscriptionId.value)] else payload
  }

  /** `health_envelope`: the payload has an identifier of its own, minted first, and the
      envelope occurs when the payload was observed. */
  function HealthEnvelope(
    own: Mint, m: Mint, correlationId: string, component: string, status: string, detail: Option<string>
  ): Json {
    Base(m, "health", correlationId, StatusPayload(NewId(own), UtcZ(own.at), component, status, detail), UtcZ(own.at))
  }

  function StatusPayload(id: string, observedAt: string, component: string, status: string,
                         detail: Option<string>): Fields {
    var payload := map[
      "schemaVersion" := JStr("1.0.0"), "id" := JStr(id), "component" := JStr(component),
      "status" := JStr(status), "observedAt" := JStr(observedAt)];
    if detail.Some? && detail.value != "" then payload["detail" := JStr(detail.value)] else payload
  }

  // ---- what the client builds ----

  type RandomBytes = r: seq<nat> | |r| == 10 && Hex.AreBytes(r) witness seq(10, _ => 0)

  function ClientId(millisecond: int, random: RandomBytes): string {
    Canonical(Pack(millisecond, RandomBits(random)))
  }

  function SubscribePayload(channel: string, subscriptionId: string): Fields {
    map["operation" := JStr("subscribe"), "channel" := JStr(channel), "subscriptionId" := JStr(subscriptionId)]
  }

  /** `createWebSocketSubscribeEnvelope`. */
  function SubscribeEnvelope(
    channel: string, millisecond: int, now: Instant,
    correlation: RandomBytes, message: RandomBytes, subscription: RandomBytes
  ): Json {
    JObj(Envelope(
      ClientId(millisecond, message), "websocket", Millis(now) + "Z", ClientId(millisecond, correlation),
      SubscribePayload(channel, ClientId(millisecond, subscription))))
  }

  // ---- what the server accepts ----

  datatype Operation = Subscribe | Unsubscribe | Heartbeat

  /** What `_websocket_control` does: its three results, a `ValueError`, or the
      `TypeError` of looking up an unhashable operation in a set. */
  datatype Verdict =
    | Accepted(operation: Operation, correlationId: string, subscriptionId: Option<string>)
    | Refused
    | Crashed

  /** `fields.get(key)`. */
  function Get(fields: Fields, key: string): Json {
    if key in fields then fields[key] else JNull
  }

  /** `is_uuid7(str(v))`: no value but a string prints as 36 characters with dashes
      in the places of a UUID. */
  predicate IsId(v: Json, lib: Libraries) {
    v.JStr? && IsUuid7(v.text, lib.int16)
  }

  /** `_is_utc_z`. */
  predicate IsUtcZ(v: Json, lib: Libraries) {
    v.JStr? && v.text != "" && v.text[|v.text| - 1] == 'Z'
    && lib.fromIso(v.text[..|v.text| - 1] + "+00:00") == Some(0)
  }

  function OperationNamed(v: Json): Option<Operation> {
    if v == JStr("subscribe") then Some(Subscribe)
    else if v == JStr("unsubscribe") then Some(Unsubscribe)
    else if v == JStr("heartbeat") then Some(Heartbeat)
    else None
  }

  predicate Framed(fields: Fields, lib: Libraries) {
    var metadata, payload := Get(fields, "metadata"), Get(fields, "payload");
    && Get(fields, "schemaVersion") == JStr("1.0.0")
    && Get(fields, "category") == JStr("websocket")
    && IsId(Get(fields, "messageId"), lib)
    && IsUtcZ(Get(fields, "occurredAt"), lib)
    && metadata.JObj?
    && metadata.fields.Keys <= {"correlationId", "causationId"}
    && IsId(Get(metadata.fields, "correlationId"), lib)
    && (Get(metadata.fields, "causationId") == JNull || IsId(Get(metadata.fields, "causationId"), lib))
    && payload.JObj?
    && payload.fields.Keys <= {"operation", "channel", "subscriptionId"}
  }

  /** The second half of `_websocket_control`, on the payload. */
  function Command(correlationId: string, payload: Fields, channel: string, lib: Libraries): Verdict {
    var named, subscriptionId := Get(payload, "operation"), Get(payload, "subscriptionId");
    var operation := OperationNamed(named);
    if named.JArr? || named.JObj? then Crashed
    else if operation.None? then Refused
    else if Get(payload, "channel") != JStr(channel) then Refused
    else if subscriptionId != JNull && !IsId(subscriptionId, lib) then Refused
    else if operation.value != Heartbeat && subscriptionId == JNull then Refused
    else Accepted(operation.value, correlationId, if subscriptionId == JNull then None else Some(subscriptionId.text))
  }

  /** `_websocket_control` on the parsed text, none when it is not JSON. */
  function Control(message: Option<Json>, channel: string, lib: Libraries): Verdict {
    if message.None? || !message.value.JObj? || message.value.fields.Keys != ENVELOPE_KEYS then Refused
    else if !Framed(message.value.fields, lib) then Refused
    else
      var fields := message.value.fields;
      Command(fields["metadata"].fields["correlationId"].text, fields["payload"].fields, channel, lib)
  }

  // ---- what the client accepts ----

  /** A strict object: these keys, perhaps some of the optional ones, and no other. */
  predicate Strict(v: Json, required: set<string>, optional: set<string>) {
    v.JObj? && required <= v.fields.Keys <= required + optional
  }

  ghost predicate UuidSchema(v: Json) {
    v.JStr? && Matches(UuidV7Pattern(), v.text)
  }

  predicate TimestampSchema(v: Json, lib: Libraries) {
    v.JStr? && lib.isoDatetime(v.text) && v.text != "" && v.text[|v.text| - 1] == 'Z'
  }

  predicate NonEmptySchema(v: Json) {
    v.JStr? && v.text != ""
  }

  predicate OneOf(v: Json, texts: set<string>) {
    v.JStr? && v.text in texts
  }

  ghost predicate MetadataSchema(v: Json) {
    && Strict(v, {"correlationId"}, {"causationId"})
    && UuidSchema(v.fields["correlationId"])
    && ("causationId" in v.fields ==> UuidSchema(v.fields["causationId"]))
  }

  ghost predicate StatusSchema(v: Json, lib: Libraries) {
    && Strict(v, {"schemaVersion", "id", "component", "status", "observedAt"}, {"detail"})
    && v.fields["schemaVersion"] == JStr("1.0.0")
    && UuidSchema(v.fields["id"])
    && NonEmptySchema(v.fields["component"])
    && OneOf(v.fields["status"], {"healthy", "degraded", "unavailable"})
    && TimestampSchema(v.fields["observedAt"], lib)
    && ("detail" in v.fields ==> NonEmptySchema(v.fields["detail"]))
  }

  ghost predicate ControlSchema(v: Json) {
    && Strict(v, {"operation", "channel"}, {"subscriptionId"})
    && OneOf(v.fields["operation"], {"subscribe", "unsubscribe", "ack", "heartbeat"})
    && OneOf(v.fields["channel"], CHANNELS)
    && ("subscriptionId" in v.fields ==> UuidSchema(v.fields["subscriptionId"]))
  }

  /** What `parseIncomingEnvelope` lets through. */
  ghost predicate Incoming(v: Json, lib: Libraries) {
    && Strict(v, ENVELOPE_KEYS, {})
    && v.fields["schemaVersion"] == JStr("1.0.0")
    && UuidSchema(v.fields["messageId"])
    && TimestampSchema(v.fields["occurredAt"], lib)
    && MetadataSchema(v.fields["metadata"])
    && (|| (v.fields["category"] == JStr("health") && StatusSchema(v.fields["payload"], lib))
        || (v.fields["category"] == JStr("websocket") && ControlSchema(v.fields["payload"])))
  }

  // ---- what the envelopes say ----

  /** A text of `n` digits with this value. */
  ghost predicate Digits(text: string, n: nat, value: nat) {
    && |text| == n && (forall i :: 0 <= i < n ==> '0' <= text[i] <= '9')
    && CanonicalDecimal.NatValue(text) == value
  }

  lemma PaddedIsDigits(value: nat, n: nat)
    requires value < Power.Pow(10, n)
    ensures Digits(CanonicalDecimal.Padded(value, n), n, value)
  {
    CanonicalDecimal.PaddedValue(value, n);
    hide CanonicalDecimal.NatValue, CanonicalDecimal.Padded, Power.Pow;
  }

  lemma TensBounds()
    ensures Power.Pow(10, 2) == 100 && Power.Pow(10, 3) == 1000
    ensures Power.Pow(10, 4) == 10000 && Power.Pow(10, 6) == 1000000
  {}

  /** How a valid instant is written: its six numbers in their places, then on the server
      no fraction or six digits, on the client always three. */
  lemma TimesAreWritten(i: Instant)
    requires Valid(i)
    ensures var t := Seconds(i);
            && |t| == 19 && t[4] == t[7] == '-' && t[10] == 'T' && t[13] == t[16] == ':'
            && Digits(t[..4], 4, i.year) && Digits(t[5..7], 2, i.month) && Digits(t[8..10], 2, i.day)
            && Digits(t[11..13], 2, i.hour) && Digits(t[14..16], 2, i.minute) && Digits(t[17..], 2, i.second)
    ensures var f := CanonicalDecimal.Padded(i.micro / 1000, 3);
            Digits(f, 3, i.micro / 1000) && Millis(i) == Seconds(i) + "." + f
    ensures var f := CanonicalDecimal.Padded(i.micro, 6);
            && Digits(f, 6, i.micro)
            && UtcZ(i) == if i.micro == 0 then Seconds(i) + "Z" else Seconds(i) + "." + f + "Z"
  {
    TensBounds();
    assert i.month < 100 && i.day < 100;
    hide CanonicalDecimal.Padded, Digits, Power.Pow;
    PaddedIsDigits(i.year, 4);
    PaddedIsDigits(i.month, 2);
    PaddedIsDigits(i.day, 2);
    PaddedIsDigits(i.hour, 2);
    PaddedIsDigits(i.minute, 2);
    PaddedIsDigits(i.second, 2);
    PaddedIsDigits(i.micro / 1000, 3);
    PaddedIsDigits(i.micro, 6);
    Pieces(CanonicalDecimal.Padded(i.year, 4), CanonicalDecimal.Padded(i.month, 2), CanonicalDecimal.Padded(i.day, 2),
           CanonicalDecimal.Padded(i.hour, 2), CanonicalDecimal.Padded(i.minute, 2),
           CanonicalDecimal.Padded(i.second, 2));
  }

  lemma Pieces(year: string, month: string, day: string, hour: string, minute: string, second: string)
    requires |year| == 4 && |month| == |day| == |hour| == |minute| == |second| == 2
    ensures var t := year + "-" + month + "-" + day + "T" + hour + ":" + minute + ":" + second;
            && |t| == 19 && t[4] == t[7] == '-' && t[10] == 'T' && t[13] == t[16] == ':'
            && t[..4] == year && t[5..7] == month && t[8..10] == day
            && t[11..13] == hour && t[14..16] == minute && t[17..] == second
  {}

  /** An acknowledgement names its operation and channel, the correlation it answers and
      the subscription if there is one, under a new message identifier at its own time. */
  lemma AcknowledgementSays(
    m: Mint, correlationId: string, operation: string, channel: string, subscriptionId: Option<string>
  )
    ensures var v := WebSocketEnvelope(m, correlationId, operation, channel, subscriptionId);
            && v.JObj? && v.fields.Keys == ENVELOPE_KEYS
            && v.fields["schemaVersion"] == JStr("1.0.0") && v.fields["category"] == JStr("websocket")
            && v.fields["messageId"] == JStr(NewId(m)) && v.fields["occurredAt"] == JStr(UtcZ(m.at))
            && v.fields["metadata"] == JObj(map["correlationId" := JStr(correlationId)])
            && v.fields["payload"].JObj?
            && var payload := v.fields["payload"].fields;
               && Get(payload, "operation") == JStr(operation) && Get(payload, "channel") == JStr(channel)
               && Get(payload, "subscriptionId")
                  == (if subscriptionId.Some? && subscriptionId.value != "" then JStr(subscriptionId.value) else JNull)
               && payload.Keys <= {"operation", "channel", "subscriptionId"}
               && ("subscriptionId" in payload <==> subscriptionId.Some? && subscriptionId.value != "")
  {
    hide NewId, UtcZ, Envelope;
    EnvelopeFields(NewId(m), "websocket", UtcZ(m.at), correlationId,
                   ControlPayload(operation, channel, subscriptionId));
  }

  /** A health message names the component and its status, observed when it occurred,
      under two new identifiers. */
  lemma HealthSays(
    own: Mint, m: Mint, correlationId: string, component: string, status: string, detail: Option<string>
  )
    ensures var v := HealthEnvelope(own, m, correlationId, component, status, detail);
            && v.JObj? && v.fields.Keys == ENVELOPE_KEYS
            && v.fields["schemaVersion"] == JStr("1.0.0") && v.fields["category"] == JStr("health")
            && v.fields["messageId"] == JStr(NewId(m)) && v.fields["occurredAt"] == JStr(UtcZ(own.at))
            && v.fields["metadata"] == JObj(map["correlationId" := JStr(correlationId)])
            && v.fields["payload"].JObj?
            && StatusSays(v.fields["payload"].fields, NewId(own), UtcZ(own.at), component, status, detail)
  {
    hide NewId, UtcZ, Envelope, StatusPayload, StatusSays;
    StatusPayloadSays(NewId(own), UtcZ(own.at), component, status, detail);
    EnvelopeFields(NewId(m), "health", UtcZ(own.at), correlationId,
                   StatusPayload(NewId(own), UtcZ(own.at), component, status, detail));
  }

  predicate StatusSays(
    payload: Fields, id: string, observedAt: string, component: string, status: string, detail: Option<string>
  ) {
    && Get(payload, "schemaVersion") == JStr("1.0.0") && Get(payload, "id") == JStr(id)
    && Get(payload, "observedAt") == JStr(observedAt)
    && Get(payload, "component") == JStr(component) && Get(payload, "status") == JStr(status)
    && Get(payload, "detail") == (if detail.Some? && detail.value != "" then JStr(detail.value) else JNull)
    && ("detail" in payload <==> detail.Some? && detail.value != "")
  }

  lemma StatusPayloadSays(id: string, observedAt: string, component: string, status: string, detail: Option<string>)
    ensures StatusSays(StatusPayload(id, observedAt, component, status, detail),
                       id, observedAt, component, status, detail)
  {}

  /** The client's envelope subscribes to its channel, with three identifiers of its own
      and its own time. */
  lemma SubscribeSays(
    channel: string, millisecond: int, now: Instant,
    correlation: RandomBytes, message: RandomBytes, subscription: RandomBytes
  )
    ensures var v := SubscribeEnvelope(channel, millisecond, now, correlation, message, subscription);
            && v.JObj? && v.fields.Keys == ENVELOPE_KEYS
            && v.fields["schemaVersion"] == JStr("1.0.0") && v.fields["category"] == JStr("websocket")
            && v.fields["messageId"] == JStr(ClientId(millisecond, message))
            && v.fields["occurredAt"] == JStr(Millis(now) + "Z")
            && v.fields["metadata"] == JObj(map["correlationId" := JStr(ClientId(millisecond, correlation))])
            && v.fields["payload"].JObj?
            && var payload := v.fields["payload"].fields;
               && payload.Keys == {"operation", "channel", "subscriptionId"}
               && Get(payload, "operation") == JStr("subscribe") && Get(payload, "channel") == JStr(channel)
               && Get(payload, "subscriptionId") == JStr(ClientId(millisecond, subscription))
  {
    hide ClientId, Millis, Envelope, SubscribePayload;
    SubscribeFields(channel, ClientId(millisecond, subscription));
    EnvelopeFields(ClientId(millisecond, message), "websocket", Millis(now) + "Z", ClientId(millisecond, correlation),
                   SubscribePayload(channel, ClientId(millisecond, subscription)));
  }

  /** An identifier minted by the server is the canonical text of a value that holds its
      millisecond and its random bits. */
  lemma NewIdHolds(m: Mint)
    requires Minted(m)
    ensures exists v: nat ::
              && NewId(m) == Canonical(v) && v < P128 && v / P80 == m.millisecond % P48
              && (v / P64) % 4096 * P62 + v % P62 == m.random
  {
    PackLayout(m.millisecond, m.random);
    hide Canonical, Pack;
    assert NewId(m) == Canonical(Pack(m.millisecond, m.random));
  }

  /** And one minted by the client is the text of its bytes. */
  lemma ClientIdHolds(millisecond: int, random: RandomBytes)
    ensures exists bytes :: StampedWith(bytes, millisecond, random) && Printed(ClientId(millisecond, random), bytes)
  {
    hide Canonical, Pack, StampedWith, Printed;
    StampedIsStamped(millisecond, random);
    StampedIsPrinted(millisecond, random);
    assert StampedWith(Stamped(millisecond, random), millisecond, random);
  }

  /** What the server reads in a message is what the message says: its operation by name,
      its channel, its correlation and its subscription, null counting as none. */
  lemma AcceptedReads(message: Option<Json>, channel: string, lib: Libraries)
    requires Control(message, channel, lib).Accepted?
    ensures var v, verdict := message.value, Control(message, channel, lib);
            && message.Some? && v.JObj? && v.fields.Keys == ENVELOPE_KEYS
            && v.fields["schemaVersion"] == JStr("1.0.0") && v.fields["category"] == JStr("websocket")
            && v.fields["metadata"].JObj? && v.fields["payload"].JObj?
            && var metadata, payload := v.fields["metadata"].fields, v.fields["payload"].fields;
               && Get(metadata, "correlationId") == JStr(verdict.correlationId)
               && Get(payload, "channel") == JStr(channel)
               && Get(payload, "operation") == JStr(
                    match verdict.operation
                    case Subscribe => "subscribe"
                    case Unsubscribe => "unsubscribe"
                    case Heartbeat => "heartbeat")
               && Get(payload, "subscriptionId")
                  == (if verdict.subscriptionId.Some? then JStr(verdict.subscriptionId.value) else JNull)
  {
    hide IsUuid7, IsUtcZ;
  }

  /** A time is read from a text that ends in Z: by the server when the rest with an
      explicit offset of zero parses to that offset, by the client when the text parses. */
  lemma TimesAreRead(text: string, lib: Libraries)
    ensures IsUtcZ(JStr(text), lib) <==> exists body :: text == body + "Z" && lib.fromIso(body + "+00:00") == Some(0)
    ensures TimestampSchema(JStr(text), lib) <==> lib.isoDatetime(text) && exists body :: text == body + "Z"
  {
    if text != "" && text[|text| - 1] == 'Z' {
      assert text == text[..|text| - 1] + "Z";
    }
    forall body | text == body + "Z" ensures text[|text| - 1] == 'Z' && text[..|text| - 1] == body {}
  }

  /** What the client lets through is one of two kinds, with these fields and no others. */
  lemma IncomingSays(v: Json, lib: Libraries)
    requires Incoming(v, lib)
    ensures v.JObj? && v.fields.Keys == ENVELOPE_KEYS && v.fields["schemaVersion"] == JStr("1.0.0")
    ensures UuidSchema(v.fields["messageId"]) && TimestampSchema(v.fields["occurredAt"], lib)
    ensures var metadata := v.fields["metadata"];
            && metadata.JObj? && "correlationId" in metadata.fields && UuidSchema(metadata.fields["correlationId"])
            && metadata.fields.Keys <= {"correlationId", "causationId"}
    ensures v.fields["payload"].JObj?
    ensures var payload := v.fields["payload"].fields;
            || (&& v.fields["category"] == JStr("websocket")
                && payload.Keys <= {"operation", "channel", "subscriptionId"}
                && Get(payload, "operation") in {JStr("subscribe"), JStr("unsubscribe"), JStr("ack"), JStr("heartbeat")}
                && Get(payload, "channel") in {JStr("system.health"), JStr("session.events")}
                && ("subscriptionId" in payload ==> UuidSchema(payload["subscriptionId"])))
            || (&& v.fields["category"] == JStr("health")
                && payload.Keys <= {"schemaVersion", "id", "component", "status", "observedAt", "detail"}
                && Get(payload, "schemaVersion") == JStr("1.0.0") && UuidSchema(Get(payload, "id"))
                && Get(payload, "component").JStr? && Get(payload, "component") != JStr("")
                && Get(payload, "status") in {JStr("healthy"), JStr("degraded"), JStr("unavailable")}
                && TimestampSchema(Get(payload, "observedAt"), lib)
                && ("detail" in payload ==> payload["detail"].JStr? && payload["detail"] != JStr("")))
  {
    StrictFrame(v);
    if v.fields["category"] == JStr("websocket") && ControlSchema(v.fields["payload"]) {
      ControlSays(v.fields["payload"]);
    } else {
      HealthStatusSays(v.fields["payload"], lib);
    }
    hide UuidSchema, TimestampSchema, StatusSchema, ControlSchema, Get;
  }

  lemma ControlSays(p: Json)
    requires ControlSchema(p)
    ensures p.JObj? && p.fields.Keys <= {"operation", "channel", "subscriptionId"}
    ensures Get(p.fields, "operation") in {JStr("subscribe"), JStr("unsubscribe"), JStr("ack"), JStr("heartbeat")}
    ensures Get(p.fields, "channel") in {JStr("system.health"), JStr("session.events")}
    ensures "subscriptionId" in p.fields ==> UuidSchema(p.fields["subscriptionId"])
  {
    hide UuidSchema;
  }

  lemma HealthStatusSays(p: Json, lib: Libraries)
    requires StatusSchema(p, lib)
    ensures p.JObj? && p.fields.Keys <= {"schemaVersion", "id", "component", "status", "observedAt", "detail"}
    ensures Get(p.fields, "schemaVersion") == JStr("1.0.0") && UuidSchema(Get(p.fields, "id"))
    ensures Get(p.fields, "component").JStr? && Get(p.fields, "component") != JStr("")
    ensures Get(p.fields, "status") in {JStr("healthy"), JStr("degraded"), JStr("unavailable")}
    ensures TimestampSchema(Get(p.fields, "observedAt"), lib)
    ensures "detail" in p.fields ==> p.fields["detail"].JStr? && p.fields["detail"] != JStr("")
  {
    hide UuidSchema, TimestampSchema;
  }

  // ---- each end accepts the other ----

  lemma ClientIdIsId(millisecond: int, random: RandomBytes, lib: Libraries)
    requires ReadsHex(lib.int16)
    ensures IsId(JStr(ClientId(millisecond, random)), lib)
  {
    hide Pack, Canonical, Matches, IsUuid7, ReadsHex, RandomBits;
    StampedIsPacked(millisecond, random);
    PackedIsUuidV7(millisecond, RandomBits(random));
    IsUuid7IsPattern(ClientId(millisecond, random), lib.int16);
  }

  /** A frame with proper identifiers and time passes the server's outer checks. */
  lemma FrameIsFramed(fields: Fields, messageId: string, at: string, correlationId: string, payload: Fields,
                      lib: Libraries)
    requires HasFrame(fields, messageId, "websocket", at, correlationId, payload)
    requires IsId(JStr(messageId), lib) && IsId(JStr(correlationId), lib) && IsUtcZ(JStr(at), lib)
    requires payload.Keys <= {"operation", "channel", "subscriptionId"}
    ensures Framed(fields, lib)
  {
    hide IsId, IsUtcZ;
    var metadata := map["correlationId" := JStr(correlationId)];
    assert metadata.Keys == {"correlationId"} && metadata["correlationId"] == JStr(correlationId);
    assert Get(metadata, "correlationId") == JStr(correlationId);
    assert Get(metadata, "causationId") == JNull;
    forall key | key in ENVELOPE_KEYS ensures Get(fields, key) == fields[key] {}
  }

  lemma SubscribeFields(channel: string, subscriptionId: string)
    ensures var p := SubscribePayload(channel, subscriptionId);
            && p.Keys == {"operation", "channel", "subscriptionId"}
            && Get(p, "operation") == JStr("subscribe") && Get(p, "channel") == JStr(channel)
            && Get(p, "subscriptionId") == JStr(subscriptionId)
  {}

  lemma MillisIsUtcZ(now: Instant, lib: Libraries)
    requires Faithful(lib) && Valid(now)
    ensures IsUtcZ(JStr(Millis(now) + "Z"), lib)
  {
    hide ReadsHex, Millis;
    var at := Millis(now) + "Z";
    assert at[..|at| - 1] == Millis(now) && at[|at| - 1] == 'Z';
  }

  /** The server takes the client's envelope on the client's own channel, with the
      client's own identifiers, and on no other channel. */
  lemma SubscribeIsUnderstood(
    channel: string, other: string, millisecond: int, now: Instant,
    correlation: RandomBytes, message: RandomBytes, subscription: RandomBytes, lib: Libraries
  )
    requires Faithful(lib) && Valid(now)
    ensures Control(Some(SubscribeEnvelope(channel, millisecond, now, correlation, message, subscription)), other, lib)
         == if other == channel
            then Accepted(Subscribe, ClientId(millisecond, correlation), Some(ClientId(millisecond, subscription)))
            else Refused
  {
    assert ReadsHex(lib.int16);
    MillisIsUtcZ(now, lib);
    hide IsUuid7, ReadsHex, Millis, ClientId, IsId, IsUtcZ, Faithful, Envelope, Framed;
    ClientIdIsId(millisecond, correlation, lib);
    ClientIdIsId(millisecond, message, lib);
    ClientIdIsId(millisecond, subscription, lib);
    var id, correlationId := ClientId(millisecond, message), ClientId(millisecond, correlation);
    var subscriptionId := ClientId(millisecond, subscription);
    var payload := SubscribePayload(channel, subscriptionId);
    var fields := Envelope(id, "websocket", Millis(now) + "Z", correlationId, payload);
    EnvelopeFields(id, "websocket", Millis(now) + "Z", correlationId, payload);
    SubscribeFields(channel, subscriptionId);
    FrameIsFramed(fields, id, Millis(now) + "Z", correlationId, payload, lib);
    SubscribeCommand(correlationId, channel, subscriptionId, other, lib);
    hide SubscribePayload, Get, Command;
    assert map["correlationId" := JStr(correlationId)]["correlationId"] == JStr(correlationId);
  }

  lemma SubscribeCommand(correlationId: string, channel: string, subscriptionId: string, other: string, lib: Libraries)
    requires IsId(JStr(subscriptionId), lib)
    ensures Command(correlationId, SubscribePayload(channel, subscriptionId), other, lib)
         == if other == channel then Accepted(Subscribe, correlationId, Some(subscriptionId)) else Refused
  {
    SubscribeFields(channel, subscriptionId);
    hide SubscribePayload, IsId, Get;
  }

  /** What an accepted message is known to hold. */
  lemma AcceptedIds(message: Option<Json>, channel: string, lib: Libraries)
    requires Control(message, channel, lib).Accepted?
    ensures var v := Control(message, channel, lib);
            && IsId(JStr(v.correlationId), lib) && |v.correlationId| == 36
            && (v.subscriptionId.Some? ==> IsId(JStr(v.subscriptionId.value), lib) && |v.subscriptionId.value| == 36)
            && (v.operation != Heartbeat ==> v.subscriptionId.Some?)
  {
    hide IsUtcZ, IsUuid7;
    var v := Control(message, channel, lib);
    IdLength(v.correlationId, lib);
    if v.subscriptionId.Some? {
      IdLength(v.subscriptionId.value, lib);
    }
  }

  lemma IdLength(id: string, lib: Libraries)
    ensures IsId(JStr(id), lib) ==> |id| == 36
  {
    hide ParseUuid, HasVersion7;
  }

  lemma NewIdSchema(m: Mint)
    requires Minted(m)
    ensures UuidSchema(JStr(NewId(m)))
  {
    hide Pack, Canonical, Matches;
    PackedIsUuidV7(m.millisecond, m.random);
  }

  lemma TimeSchema(i: Instant, lib: Libraries)
    requires Faithful(lib) && Valid(i)
    ensures TimestampSchema(JStr(UtcZ(i)), lib)
  {
    hide ReadsHex, Micros;
    var at := Micros(i) + "Z";
    assert at[|at| - 1] == 'Z';
  }

  lemma FrameParses(
    fields: Fields, messageId: string, category: string, at: string, correlationId: string, payload: Fields,
    lib: Libraries
  )
    requires HasFrame(fields, messageId, category, at, correlationId, payload)
    requires UuidSchema(JStr(messageId)) && UuidSchema(JStr(correlationId)) && TimestampSchema(JStr(at), lib)
    requires || (category == "health" && StatusSchema(JObj(payload), lib))
             || (category == "websocket" && ControlSchema(JObj(payload)))
    ensures Incoming(JObj(fields), lib)
  {
    hide UuidSchema, TimestampSchema, StatusSchema, ControlSchema;
    var metadata := map["correlationId" := JStr(correlationId)];
    assert metadata.Keys == {"correlationId"} && metadata["correlationId"] == JStr(correlationId);
    assert MetadataSchema(JObj(metadata));
    hide MetadataSchema;
  }

  lemma ControlPayloadParses(operation: string, channel: string, subscriptionId: Option<string>)
    requires operation in {"subscribe", "unsubscribe", "ack", "heartbeat"} && channel in CHANNELS
    requires subscriptionId.Some? ==> UuidSchema(JStr(subscriptionId.value))
    ensures ControlSchema(JObj(ControlPayload(operation, channel, subscriptionId)))
  {
    hide UuidSchema;
  }

  lemma StatusPayloadParses(id: string, at: string, component: string, status: string, detail: Option<string>,
                            lib: Libraries)
    requires UuidSchema(JStr(id)) && TimestampSchema(JStr(at), lib)
    requires component != "" && status in {"healthy", "degraded", "unavailable"}
    ensures StatusSchema(JObj(StatusPayload(id, at, component, status, detail)), lib)
  {
    hide UuidSchema, TimestampSchema;
  }

  lemma IdParses(id: string, lib: Libraries)
    requires Faithful(lib) && IsId(JStr(id), lib)
    ensures UuidSchema(JStr(id))
  {
    assert ReadsHex(lib.int16);
    hide Matches, IsUuid7, ReadsHex, Faithful;
    IsUuid7IsPattern(id, lib.int16);
  }

  /** The client takes an acknowledgement of anything the server accepted. */
  lemma AcknowledgementParses(
    m: Mint, correlationId: string, operation: string, channel: string, subscriptionId: Option<string>, lib: Libraries
  )
    requires Faithful(lib) && Minted(m)
    requires IsId(JStr(correlationId), lib) && (subscriptionId.Some? ==> IsId(JStr(subscriptionId.value), lib))
    requires operation in {"ack", "heartbeat"} && channel in CHANNELS
    ensures Incoming(WebSocketEnvelope(m, correlationId, operation, channel, subscriptionId), lib)
  {
    TimeSchema(m.at, lib);
    NewIdSchema(m);
    hide Faithful, IsId, Minted, NewId, UtcZ, UuidSchema, TimestampSchema, Envelope, ControlPayload,
      ControlSchema, Incoming;
    IdParses(correlationId, lib);
    if subscriptionId.Some? {
      IdParses(subscriptionId.value, lib);
    }
    ControlPayloadParses(operation, channel, subscriptionId);
    var payload := ControlPayload(operation, channel, subscriptionId);
    EnvelopeFields(NewId(m), "websocket", UtcZ(m.at), correlationId, payload);
    hide HasFrame;
    FrameParses(Envelope(NewId(m), "websocket", UtcZ(m.at), correlationId, payload),
                NewId(m), "websocket", UtcZ(m.at), correlationId, payload, lib);
  }

  /** And a health message from a service with a name, whatever the detail. */
  lemma HealthParses(
    own: Mint, m: Mint, correlationId: string, component: string, status: string, detail: Option<string>, lib: Libraries
  )
    requires Faithful(lib) && Minted(own) && Minted(m)
    requires IsId(JStr(correlationId), lib)
    requires component != "" && status in {"healthy", "degraded", "unavailable"}
    ensures Incoming(HealthEnvelope(own, m, correlationId, component, status, detail), lib)
  {
    TimeSchema(own.at, lib);
    NewIdSchema(own);
    NewIdSchema(m);
    hide Faithful, IsId, Minted, NewId, UtcZ, UuidSchema, TimestampSchema, Envelope, StatusPayload,
      StatusSchema, Incoming;
    IdParses(correlationId, lib);
    StatusPayloadParses(NewId(own), UtcZ(own.at), component, status, detail, lib);
    var payload := StatusPayload(NewId(own), UtcZ(own.at), component, status, detail);
    EnvelopeFields(NewId(m), "health", UtcZ(own.at), correlationId, payload);
    hide HasFrame;
    FrameParses(Envelope(NewId(m), "health", UtcZ(own.at), correlationId, payload),
                NewId(m), "health", UtcZ(own.at), correlationId, payload, lib);
  }

  // ---- the two validators side by side ----

  /** No optional identifier is present as null: the server reads null as absent, the
      client refuses it. */
  predicate NoNulls(v: Json) {
    && v.JObj?
    && (Get(v.fields, "metadata").JObj? ==>
          "causationId" in Get(v.fields, "metadata").fields ==>
            Get(v.fields, "metadata").fields["causationId"] != JNull)
    && (Get(v.fields, "payload").JObj? ==>
          "subscriptionId" in Get(v.fields, "payload").fields ==>
            Get(v.fields, "payload").fields["subscriptionId"] != JNull)
  }

  /** Whether each end can read the envelope's time; the two libraries differ. */
  predicate ServerReadsTime(v: Json, lib: Libraries) {
    v.JObj? && IsUtcZ(Get(v.fields, "occurredAt"), lib)
  }

  predicate ClientReadsTime(v: Json, lib: Libraries) {
    v.JObj? && TimestampSchema(Get(v.fields, "occurredAt"), lib)
  }

  /** A WebSocket message that asks something of the server on this channel. */
  predicate Asking(v: Json, channel: string) {
    && v.JObj? && Get(v.fields, "category") == JStr("websocket") && Get(v.fields, "payload").JObj?
    && var payload := Get(v.fields, "payload").fields;
       && OperationNamed(Get(payload, "operation")).Some? && Get(payload, "channel") == JStr(channel)
       && (OperationNamed(Get(payload, "operation")) != Some(Heartbeat) ==> "subscriptionId" in payload)
  }

  lemma IdsAgree(v: Json, lib: Libraries)
    requires Faithful(lib)
    ensures IsId(v, lib) <==> UuidSchema(v)
  {
    assert ReadsHex(lib.int16);
    hide Matches, IsUuid7, ReadsHex, Faithful;
    if v.JStr? {
      IsUuid7IsPattern(v.text, lib.int16);
    }
  }

  lemma MetadataAgrees(m: Json, lib: Libraries)
    requires Faithful(lib)
    requires m.JObj? && "causationId" in m.fields ==> m.fields["causationId"] != JNull
    ensures MetadataSchema(m) <==>
            && m.JObj? && m.fields.Keys <= {"correlationId", "causationId"}
            && IsId(Get(m.fields, "correlationId"), lib)
            && (Get(m.fields, "causationId") == JNull || IsId(Get(m.fields, "causationId"), lib))
  {
    if m.JObj? {
      IdsAgree(Get(m.fields, "correlationId"), lib);
      IdsAgree(Get(m.fields, "causationId"), lib);
    }
    assert !IsId(JNull, lib);
    hide IsId, UuidSchema, Faithful;
  }

  lemma CommandAgrees(correlationId: string, p: Json, channel: string, lib: Libraries)
    requires Faithful(lib) && channel in CHANNELS && p.JObj?
    requires "subscriptionId" in p.fields ==> p.fields["subscriptionId"] != JNull
    ensures p.fields.Keys <= {"operation", "channel", "subscriptionId"}
            && Command(correlationId, p.fields, channel, lib).Accepted? <==>
            && ControlSchema(p)
            && OperationNamed(Get(p.fields, "operation")).Some? && Get(p.fields, "channel") == JStr(channel)
            && (OperationNamed(Get(p.fields, "operation")) != Some(Heartbeat) ==> "subscriptionId" in p.fields)
  {
    IdsAgree(Get(p.fields, "subscriptionId"), lib);
    OperationsListed(Get(p.fields, "operation"));
    StrictPayload(p);
    assert !IsId(JNull, lib) && OneOf(JStr(channel), CHANNELS);
    hide IsId, UuidSchema, Faithful, OneOf, Strict, OperationNamed;
  }

  lemma OperationsListed(v: Json)
    ensures OperationNamed(v).Some? ==> v.JStr? && OneOf(v, {"subscribe", "unsubscribe", "ack", "heartbeat"})
  {}

  lemma StrictPayload(p: Json)
    requires p.JObj?
    ensures Strict(p, {"operation", "channel"}, {"subscriptionId"}) <==>
            "operation" in p.fields && "channel" in p.fields
            && p.fields.Keys <= {"operation", "channel", "subscriptionId"}
    ensures Get(p.fields, "operation") != JNull ==> "operation" in p.fields
    ensures Get(p.fields, "channel") != JNull ==> "channel" in p.fields
  {}

  /** What the server accepts without nulls and at a time the client can read is exactly
      what the client accepts, asking something on the channel, at a time the server can
      read. */
  lemma ValidatorsAgree(v: Json, channel: string, lib: Libraries)
    requires Faithful(lib) && channel in CHANNELS
    ensures Control(Some(v), channel, lib).Accepted? && NoNulls(v) && ClientReadsTime(v, lib)
            <==> Incoming(v, lib) && Asking(v, channel) && ServerReadsTime(v, lib)
  {
    hide *;
    if NoNulls(v) {
      AgreeWithoutNulls(v, channel, lib);
    } else if Asking(v, channel) {
      IncomingHasNoNulls(v, channel, lib);
    }
  }

  lemma IncomingHasNoNulls(v: Json, channel: string, lib: Libraries)
    requires Asking(v, channel)
    ensures Incoming(v, lib) ==> NoNulls(v)
  {
    assert !UuidSchema(JNull);
    StrictFrame(v);
    hide UuidSchema, TimestampSchema, StatusSchema, Strict, OneOf, ENVELOPE_KEYS, OperationNamed;
  }

  /** What both ends ask of the envelope around payload and time. */
  ghost predicate Outer(v: Json) {
    && v.JObj? && v.fields.Keys == ENVELOPE_KEYS
    && Get(v.fields, "schemaVersion") == JStr("1.0.0") && Get(v.fields, "category") == JStr("websocket")
    && UuidSchema(Get(v.fields, "messageId")) && MetadataSchema(Get(v.fields, "metadata"))
  }

  lemma ServerAsks(v: Json, lib: Libraries)
    requires Faithful(lib) && NoNulls(v) && v.fields.Keys == ENVELOPE_KEYS
    ensures var payload := Get(v.fields, "payload");
            Framed(v.fields, lib) <==>
              && Outer(v) && ServerReadsTime(v, lib)
              && payload.JObj? && payload.fields.Keys <= {"operation", "channel", "subscriptionId"}
  {
    MetadataAgrees(Get(v.fields, "metadata"), lib);
    IdsAgree(Get(v.fields, "messageId"), lib);
    hide IsId, IsUtcZ, UuidSchema, MetadataSchema, Faithful, ENVELOPE_KEYS;
  }

  lemma ClientAsks(v: Json, channel: string, lib: Libraries)
    requires Asking(v, channel)
    ensures Incoming(v, lib) <==> Outer(v) && ClientReadsTime(v, lib) && ControlSchema(Get(v.fields, "payload"))
  {
    StrictFrame(v);
    hide UuidSchema, TimestampSchema, MetadataSchema, ControlSchema, StatusSchema, Strict, OperationNamed,
      ENVELOPE_KEYS;
  }

  lemma AgreeWithoutNulls(v: Json, channel: string, lib: Libraries)
    requires Faithful(lib) && channel in CHANNELS && NoNulls(v)
    ensures Control(Some(v), channel, lib).Accepted? && ClientReadsTime(v, lib)
            <==> Incoming(v, lib) && Asking(v, channel) && ServerReadsTime(v, lib)
  {
    var payload := Get(v.fields, "payload");
    if Asking(v, channel) {
      ClientAsks(v, channel, lib);
    }
    if v.fields.Keys == ENVELOPE_KEYS {
      ServerAsks(v, lib);
      StrictFrame(v);
      if payload.JObj? && Framed(v.fields, lib) {
        CommandAgrees(v.fields["metadata"].fields["correlationId"].text, payload, channel, lib);
      } else if payload.JObj? {
        CommandAgrees("", payload, channel, lib);
      }
    }
    hide ServerReadsTime, ClientReadsTime, ControlSchema, Faithful, Command, OperationNamed, ENVELOPE_KEYS, NoNulls,
      Incoming, Framed;
  }

  lemma StrictFrame(v: Json)
    requires v.JObj?
    ensures Strict(v, ENVELOPE_KEYS, {}) <==> v.fields.Keys == ENVELOPE_KEYS
    ensures v.fields.Keys == ENVELOPE_KEYS ==>
              && Get(v.fields, "schemaVersion") == v.fields["schemaVersion"]
              && Get(v.fields, "messageId") == v.fields["messageId"]
              && Get(v.fields, "category") == v.fields["category"]
              && Get(v.fields, "occurredAt") == v.fields["occurredAt"]
              && Get(v.fields, "metadata") == v.fields["metadata"] && Get(v.fields, "payload") == v.fields["payload"]
  {}

  /** Of what the server accepts, the client accepts exactly the messages in which no
      optional identifier is null and whose time it can read. */
  lemma NullsMatterExactly(v: Json, channel: string, lib: Libraries)
    requires Faithful(lib) && channel in CHANNELS && Control(Some(v), channel, lib).Accepted?
    ensures Incoming(v, lib) <==> NoNulls(v) && ClientReadsTime(v, lib)
  {
    hide *;
    ValidatorsAgree(v, channel, lib);
    AcceptedAsks(v, channel, lib);
  }

  lemma AcceptedAsks(v: Json, channel: string, lib: Libraries)
    requires Control(Some(v), channel, lib).Accepted?
    ensures Asking(v, channel) && ServerReadsTime(v, lib)
  {
    hide IsId, IsUtcZ;
  }

  function HeartbeatPayload(channel: string): Fields {
    map["operation" := JStr("heartbeat"), "channel" := JStr(channel)]
  }

  /** An envelope whose metadata and payload are given as they are. */
  function Assembled(messageId: string, at: string, metadata: Json, payload: Json): Fields {
    map["schemaVersion" := JStr("1.0.0"), "messageId" := JStr(messageId), "category" := JStr("websocket"),
        "occurredAt" := JStr(at), "metadata" := metadata, "payload" := payload]
  }

  lemma AssembledFields(messageId: string, at: string, metadata: Json, payload: Json)
    ensures var fields := Assembled(messageId, at, metadata, payload);
            && fields.Keys == ENVELOPE_KEYS
            && Get(fields, "schemaVersion") == JStr("1.0.0") && Get(fields, "messageId") == JStr(messageId)
            && Get(fields, "category") == JStr("websocket") && Get(fields, "occurredAt") == JStr(at)
            && Get(fields, "metadata") == metadata && Get(fields, "payload") == payload
            && fields["metadata"] == metadata && fields["payload"] == payload
  {}

  function NullCausation(correlationId: string): Fields {
    map["correlationId" := JStr(correlationId), "causationId" := JNull]
  }

  lemma NullCausationFields(correlationId: string)
    ensures var m := NullCausation(correlationId);
            && m.Keys == {"correlationId", "causationId"}
            && Get(m, "correlationId") == JStr(correlationId) && m["correlationId"] == JStr(correlationId)
            && Get(m, "causationId") == JNull && "causationId" in m && m["causationId"] == JNull
  {}

  /** A heartbeat whose causation is null is such a message. */
  lemma NullCausationDisagrees(channel: string, millisecond: int, now: Instant, random: RandomBytes, lib: Libraries)
    requires Faithful(lib) && Valid(now)
    ensures var id := ClientId(millisecond, random);
            var v := JObj(Assembled(id, Millis(now) + "Z", JObj(NullCausation(id)), JObj(HeartbeatPayload(channel))));
            Control(Some(v), channel, lib) == Accepted(Heartbeat, id, None) && !Incoming(v, lib)
  {
    hide *;
    var id, at := ClientId(millisecond, random), Millis(now) + "Z";
    ReadsItsOwn(millisecond, now, random, lib);
    NullCausationAccepted(id, at, channel, lib);
    NullCausationRefused(id, at, JObj(HeartbeatPayload(channel)), lib);
  }

  lemma ReadsItsOwn(millisecond: int, now: Instant, random: RandomBytes, lib: Libraries)
    requires Faithful(lib) && Valid(now)
    ensures IsId(JStr(ClientId(millisecond, random)), lib) && IsUtcZ(JStr(Millis(now) + "Z"), lib)
  {
    ClientIdIsId(millisecond, random, lib);
    MillisIsUtcZ(now, lib);
    hide *;
  }

  lemma NullCausationAccepted(id: string, at: string, channel: string, lib: Libraries)
    requires IsId(JStr(id), lib) && IsUtcZ(JStr(at), lib)
    ensures var v := JObj(Assembled(id, at, JObj(NullCausation(id)), JObj(HeartbeatPayload(channel))));
            Control(Some(v), channel, lib) == Accepted(Heartbeat, id, None)
  {
    NullCausationFields(id);
    HeartbeatCommand(id, channel, lib);
    AssembledFields(id, at, JObj(NullCausation(id)), JObj(HeartbeatPayload(channel)));
    hide IsId, IsUtcZ, Command, Assembled, NullCausation, HeartbeatPayload, Get, ENVELOPE_KEYS;
  }

  lemma NullCausationRefused(id: string, at: string, payload: Json, lib: Libraries)
    ensures !Incoming(JObj(Assembled(id, at, JObj(NullCausation(id)), payload)), lib)
  {
    NullCausationFields(id);
    AssembledFields(id, at, JObj(NullCausation(id)), payload);
    assert !MetadataSchema(JObj(NullCausation(id)));
    hide MetadataSchema, UuidSchema, TimestampSchema, StatusSchema, ControlSchema, Assembled, NullCausation, Strict;
  }

  lemma HeartbeatCommand(correlationId: string, channel: string, lib: Libraries)
    ensures var p := HeartbeatPayload(channel);
            && p.Keys <= {"operation", "channel", "subscriptionId"}
            && Command(correlationId, p, channel, lib) == Accepted(Heartbeat, correlationId, None)
  {}

  // ---- the uncaught exception ----

  /** Exactly the well-framed messages whose operation is a list or an object make the
      server fail, because neither can be looked up in a set. */
  lemma CrashesExactly(message: Option<Json>, channel: string, lib: Libraries)
    ensures Control(message, channel, lib).Crashed? <==>
            && message.Some? && message.value.JObj? && message.value.fields.Keys == ENVELOPE_KEYS
            && Framed(message.value.fields, lib)
            && (Get(message.value.fields["payload"].fields, "operation").JArr?
                || Get(message.value.fields["payload"].fields, "operation").JObj?)
  {
    hide IsId, IsUtcZ;
  }

  /** An empty list is enough. */
  lemma ListOperationCrashes(channel: string, millisecond: int, now: Instant, random: RandomBytes, lib: Libraries)
    requires Faithful(lib) && Valid(now)
    ensures var id := ClientId(millisecond, random);
            var v := JObj(Envelope(id, "websocket", Millis(now) + "Z", id, ListPayload()));
            Control(Some(v), channel, lib) == Crashed
  {
    hide *;
    var id, at := ClientId(millisecond, random), Millis(now) + "Z";
    ReadsItsOwn(millisecond, now, random, lib);
    ListOperationFramed(id, at, channel, lib);
  }

  function ListPayload(): Fields {
    map["operation" := JArr([])]
  }

  lemma ListOperationFramed(id: string, at: string, channel: string, lib: Libraries)
    requires IsId(JStr(id), lib) && IsUtcZ(JStr(at), lib)
    ensures Control(Some(JObj(Envelope(id, "websocket", at, id, ListPayload()))), channel, lib) == Crashed
  {
    var fields := Envelope(id, "websocket", at, id, ListPayload());
    EnvelopeFields(id, "websocket", at, id, ListPayload());
    assert ListPayload().Keys == {"operation"} && Get(ListPayload(), "operation") == JArr([]);
    FrameIsFramed(fields, id, at, id, ListPayload(), lib);
    CrashesExactly(Some(JObj(fields)), channel, lib);
    hide IsId, IsUtcZ, Envelope, Framed, Control, ListPayload, Get;
  }
}
