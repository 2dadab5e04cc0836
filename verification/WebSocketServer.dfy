/**
 The server's end of one WebSocket connection: the receive loop over the frames that
 arrive, and what a whole conversation looks like from outside.
 */
module WebSocketServer {
  import opened Channels
  import opened Options
  import opened Envelopes

  datatype Settings = Settings(maxFrameBytes: nat, maxSubscriptions: nat, serviceName: string)

  /** An arriving frame. A text frame brings its size in bytes, what its text parses to,
      and the clock readings and random draws of the replies it may cause. */
  datatype Frame =
    | Disconnect
    | NonText
    | Text(size: nat, message: Option<Json>, acknowledgement: Mint, status: Mint, health: Mint)

  datatype Sent = Message(json: Json) | Close(code: nat)

  /** How the loop stands: waiting for a frame, left by the client, closed by the
      server, or ended by an uncaught exception. */
  datatype Ending = Waiting | Gone | Closed(code: nat) | Failed

  // ---- the specification ----

  /** The identifiers subscribed to after some accepted messages. */
  function Subscribed(asked: seq<Verdict>): set<string> {
    if asked == [] then {}
    else After(Subscribed(asked[..|asked| - 1]), asked[|asked| - 1])
  }

  function After(subscriptions: set<string>, v: Verdict): set<string> {
    if !v.Accepted? || v.subscriptionId.None? || v.operation == Heartbeat then subscriptions
    else if v.operation == Subscribe then subscriptions + {v.subscriptionId.value}
    else subscriptions - {v.subscriptionId.value}
  }

  /** What one frame makes of the connection. */
  function EndingOf(frame: Frame, subscriptions: set<string>, settings: Settings, channel: string,
                    lib: Libraries): Ending {
    match frame
    case Disconnect => Gone
    case NonText => Closed(1003)
    case Text(size, message, _, _, _) =>
      if size > settings.maxFrameBytes then Closed(1009)
      else match Control(message, channel, lib)
           case Refused => Closed(1008)
           case Crashed => Failed
           case Accepted(operation, _, subscriptionId) =>
             if operation == Subscribe && subscriptionId.Some? && subscriptionId.value !in subscriptions
                && |subscriptions| >= settings.maxSubscriptions
             then Closed(1008) else Waiting
  }

  /** The messages that the first frames carried. */
  function Asked(frames: seq<Frame>, channel: string, lib: Libraries): (asked: seq<Verdict>)
    ensures |asked| == |frames|
  {
    seq(|frames|, i requires 0 <= i < |frames| =>
      if frames[i].Text? then Control(frames[i].message, channel, lib) else Refused)
  }

  /** Every frame so far left the connection open. */
  predicate Open(frames: seq<Frame>, settings: Settings, channel: string, lib: Libraries) {
    frames != [] ==>
      var before := frames[..|frames| - 1];
      && Open(before, settings, channel, lib)
      && EndingOf(frames[|frames| - 1], Subscribed(Asked(before, channel, lib)), settings, channel, lib) == Waiting
  }

  function Reply(frame: Frame, settings: Settings, channel: string, lib: Libraries): seq<Sent> {
    if !frame.Text? then []
    else match Control(frame.message, channel, lib)
         case Accepted(operation, correlationId, subscriptionId) =>
           [Message(WebSocketEnvelope(
              frame.acknowledgement, correlationId, Answer(operation), channel, subscriptionId))]
           + if operation == Subscribe && channel == "system.health"
             then [Message(HealthEnvelope(
               frame.status, frame.health, correlationId, settings.serviceName, "healthy", None))]
             else []
         case _ => []
  }

  function Answer(operation: Operation): string {
    if operation == Heartbeat then "heartbeat" else "ack"
  }

  function Replies(frames: seq<Frame>, settings: Settings, channel: string, lib: Libraries): seq<Sent> {
    if frames == [] then []
    else Replies(frames[..|frames| - 1], settings, channel, lib) + Reply(frames[|frames| - 1], settings, channel, lib)
  }

  // ---- the loop ----

  /** One turn of the loop: a frame either ends the connection or is answered. */
  method Receive(settings: Settings, channel: string, lib: Libraries, frame: Frame, before: set<string>)
    returns (subscriptions: set<string>, replies: seq<Sent>, ending: Ending)
    requires |before| <= settings.maxSubscriptions
    ensures ending == EndingOf(frame, before, settings, channel, lib)
    ensures |subscriptions| <= settings.maxSubscriptions
    ensures ending == Waiting ==>
              && frame.Text? && subscriptions == After(before, Control(frame.message, channel, lib))
              && replies == Reply(frame, settings, channel, lib)
    ensures ending != Waiting ==>
              subscriptions == before && replies == if ending.Closed? then [Close(ending.code)] else []
    ensures frame.Disconnect? ==> ending == Gone
    ensures frame.NonText? ==> ending == Closed(1003)
    ensures frame.Text? && frame.size > settings.maxFrameBytes ==> ending == Closed(1009)
    ensures frame.Text? && frame.size <= settings.maxFrameBytes ==>
              match Control(frame.message, channel, lib)
              case Refused => ending == Closed(1008)
              case Crashed => ending == Failed
              case Accepted(operation, _, id) =>
                ending == if operation == Subscribe && id.Some? && id.value !in before
                             && |before| >= settings.maxSubscriptions
                          then Closed(1008) else Waiting
  {
    hide Control, WebSocketEnvelope, HealthEnvelope;
    subscriptions, replies, ending := before, [], Waiting;
    if frame.Disconnect? {
      ending := Gone;
      return;
    }
    if frame.NonText? {
      replies, ending := [Close(1003)], Closed(1003);
      return;
    }
    if frame.size > settings.maxFrameBytes {
      replies, ending := [Close(1009)], Closed(1009);
      return;
    }
    var verdict := Control(frame.message, channel, lib);
    if verdict.Crashed? {
      ending := Failed;
      return;
    }
    if verdict.Refused? {
      replies, ending := [Close(1008)], Closed(1008);
      return;
    }
    var Accepted(operation, correlationId, subscriptionId) := verdict;
    if operation == Subscribe {
      AcceptedIds(frame.message, channel, lib);
      if subscriptionId.value !in subscriptions && |subscriptions| >= settings.maxSubscriptions {
        replies, ending := [Close(1008)], Closed(1008);
        return;
      }
      subscriptions := subscriptions + {subscriptionId.value};
    } else if operation == Unsubscribe && subscriptionId.Some? {
      subscriptions := subscriptions - {subscriptionId.value};
    }
    replies := [Message(WebSocketEnvelope(
      frame.acknowledgement, correlationId, if operation != Heartbeat then "ack" else "heartbeat", channel,
      subscriptionId))];
    if operation == Subscribe && channel == "system.health" {
      replies := replies + [Message(HealthEnvelope(
        frame.status, frame.health, correlationId, settings.serviceName, "healthy", None))];
    }
  }

  /** The receive loop, until the frames run out or the connection ends. `handled`
      counts the frames it went on from. */
  method Serve(settings: Settings, channel: string, lib: Libraries, frames: seq<Frame>)
    returns (subscriptions: set<string>, sent: seq<Sent>, ending: Ending, handled: nat)
    ensures handled <= |frames| && Open(frames[..handled], settings, channel, lib)
    ensures ending == if handled == |frames| then Waiting
                      else EndingOf(frames[handled], subscriptions, settings, channel, lib)
    ensures handled < |frames| ==> ending != Waiting
    ensures subscriptions == Subscribed(Asked(frames[..handled], channel, lib))
    ensures |subscriptions| <= settings.maxSubscriptions
    ensures sent == Replies(frames[..handled], settings, channel, lib)
                    + if ending.Closed? then [Close(ending.code)] else []
  {
    hide Control, EndingOf, After, Reply, Open, Subscribed, Asked, Replies;
    NothingYet(settings, channel, lib);
    assert frames[..0] == [];
    subscriptions, sent, ending, handled := {}, [], Waiting, 0;
    while handled < |frames|
      invariant handled <= |frames| && ending == Waiting
      invariant Open(frames[..handled], settings, channel, lib)
      invariant subscriptions == Subscribed(Asked(frames[..handled], channel, lib))
      invariant |subscriptions| <= settings.maxSubscriptions
      invariant sent == Replies(frames[..handled], settings, channel, lib)
    {
      var frame := frames[handled];
      var replies;
      subscriptions, replies, ending := Receive(settings, channel, lib, frame, subscriptions);
      sent := sent + replies;
      if ending != Waiting {
        return;
      }
      OneMore(frames[..handled], frame, settings, channel, lib);
      assert frames[..handled + 1] == frames[..handled] + [frame];
      handled := handled + 1;
    }
    assert frames[..handled] == frames;
  }

  lemma AskedAppend(frames: seq<Frame>, frame: Frame, channel: string, lib: Libraries)
    ensures Asked(frames + [frame], channel, lib)
         == Asked(frames, channel, lib) + [if frame.Text? then Control(frame.message, channel, lib) else Refused]
  {}

  lemma NothingYet(settings: Settings, channel: string, lib: Libraries)
    ensures Open([], settings, channel, lib) && Subscribed(Asked([], channel, lib)) == {}
    ensures Replies([], settings, channel, lib) == []
  {}

  lemma OneMore(before: seq<Frame>, frame: Frame, settings: Settings, channel: string, lib: Libraries)
    requires frame.Text?
    ensures var frames, subscriptions := before + [frame], Subscribed(Asked(before, channel, lib));
            && (Open(frames, settings, channel, lib) <==>
                Open(before, settings, channel, lib)
                && EndingOf(frame, subscriptions, settings, channel, lib) == Waiting)
            && Subscribed(Asked(frames, channel, lib)) == After(subscriptions, Control(frame.message, channel, lib))
            && Replies(frames, settings, channel, lib)
               == Replies(before, settings, channel, lib) + Reply(frame, settings, channel, lib)
  {
    hide Control, EndingOf, After, Reply;
    AskedAppend(before, frame, channel, lib);
    assert (before + [frame])[..|before|] == before;
    var asked, v := Asked(before, channel, lib), Control(frame.message, channel, lib);
    assert (asked + [v])[..|asked|] == asked;
    hide Asked;
  }

  // ---- subscriptions ----

  predicate Mentions(v: Verdict, id: string) {
    v.Accepted? && v.operation != Heartbeat && v.subscriptionId == Some(id)
  }

  predicate LastAskedToSubscribe(asked: seq<Verdict>, id: string, i: nat) {
    && i < |asked| && Mentions(asked[i], id) && asked[i].operation == Subscribe
    && forall j :: i < j < |asked| ==> !Mentions(asked[j], id)
  }

  /** An identifier is subscribed to exactly when the last message about it subscribed. */
  lemma {:induction false} SubscribedExactly(asked: seq<Verdict>, id: string)
    ensures id in Subscribed(asked) <==> exists i :: LastAskedToSubscribe(asked, id, i)
  {
    if asked != [] {
      var n := |asked| - 1;
      SubscribedExactly(asked[..n], id);
      if Mentions(asked[n], id) {
        assert asked[n].operation == Subscribe ==> LastAskedToSubscribe(asked, id, n);
      } else {
        forall i: nat ensures LastAskedToSubscribe(asked, id, i) <==> LastAskedToSubscribe(asked[..n], id, i) {}
      }
    }
  }

  // ---- replies ----

  /** What a message says, read from its JSON. */
  datatype Echo = Echo(
    category: Json, correlationId: Json, operation: Json, channel: Json, subscriptionId: Json, component: Json,
    status: Json)

  function Inner(json: Json, key: string): Fields {
    if json.JObj? && Get(json.fields, key).JObj? then Get(json.fields, key).fields else map[]
  }

  function EchoOf(json: Json): Echo {
    var payload := Inner(json, "payload");
    Echo(if json.JObj? then Get(json.fields, "category") else JNull, Get(Inner(json, "metadata"), "correlationId"),
         Get(payload, "operation"), Get(payload, "channel"), Get(payload, "subscriptionId"),
         Get(payload, "component"), Get(payload, "status"))
  }

  /** The messages, in the order they were sent. */
  function Echoes(sent: seq<Sent>): seq<Echo> {
    if sent == [] then []
    else (if sent[0].Message? then [EchoOf(sent[0].json)] else []) + Echoes(sent[1..])
  }

  lemma {:induction false} EchoesConcat(a: seq<Sent>, b: seq<Sent>)
    ensures Echoes(a + b) == Echoes(a) + Echoes(b)
  {
    hide EchoOf;
    if a == [] {
      assert a + b == b;
    } else {
      assert (a + b)[1..] == a[1..] + b && (a + b)[0] == a[0];
      EchoesConcat(a[1..], b);
    }
  }

  lemma EchoesOfOne(json: Json)
    ensures Echoes([Message(json)]) == [EchoOf(json)] && Echoes([]) == []
  {
    hide EchoOf;
    assert [Message(json)][1..] == [];
  }

  predicate AllAccepted(asked: seq<Verdict>) {
    forall i :: 0 <= i < |asked| ==> asked[i].Accepted?
  }

  /** The answer to one message: an acknowledgement of it, a heartbeat for a heartbeat,
      and then a health report exactly when it subscribes to the health channel. */
  function Answers(v: Verdict, channel: string, serviceName: string): seq<Echo>
    requires v.Accepted?
  {
    var id := JStr(v.correlationId);
    [Echo(JStr("websocket"), id, JStr(if v.operation == Heartbeat then "heartbeat" else "ack"), JStr(channel),
          if v.subscriptionId.Some? then JStr(v.subscriptionId.value) else JNull, JNull, JNull)]
    + if v.operation == Subscribe && channel == "system.health"
      then [Echo(JStr("health"), id, JNull, JNull, JNull, JStr(serviceName), JStr("healthy"))] else []
  }

  /** The answers to all messages, in their order. */
  function AllAnswers(asked: seq<Verdict>, channel: string, serviceName: string): seq<Echo>
    requires AllAccepted(asked)
  {
    if asked == [] then []
    else AllAnswers(asked[..|asked| - 1], channel, serviceName) + Answers(asked[|asked| - 1], channel, serviceName)
  }

  lemma AcknowledgementEcho(m: Mint, correlationId: string, operation: string, channel: string,
                            subscriptionId: Option<string>)
    requires subscriptionId.Some? ==> subscriptionId.value != ""
    ensures EchoOf(WebSocketEnvelope(m, correlationId, operation, channel, subscriptionId))
         == Echo(JStr("websocket"), JStr(correlationId), JStr(operation), JStr(channel),
                 if subscriptionId.Some? then JStr(subscriptionId.value) else JNull, JNull, JNull)
  {
    AcknowledgementSays(m, correlationId, operation, channel, subscriptionId);
    hide WebSocketEnvelope, NewId, UtcZ;
    assert map["correlationId" := JStr(correlationId)]["correlationId"] == JStr(correlationId);
  }

  lemma HealthEcho(own: Mint, m: Mint, correlationId: string, component: string)
    ensures EchoOf(HealthEnvelope(own, m, correlationId, component, "healthy", None))
         == Echo(JStr("health"), JStr(correlationId), JNull, JNull, JNull, JStr(component), JStr("healthy"))
  {
    HealthSays(own, m, correlationId, component, "healthy", None);
    hide NewId, UtcZ, Envelope;
    var payload := StatusPayload(NewId(own), UtcZ(own.at), component, "healthy", None);
    EnvelopeFields(NewId(m), "health", UtcZ(own.at), correlationId, payload);
    assert map["correlationId" := JStr(correlationId)]["correlationId"] == JStr(correlationId);
    assert "operation" !in payload && "subscriptionId" !in payload && "channel" !in payload;
  }

  /** The two messages that a frame may get, when its own is accepted as `v`. */
  function AcknowledgementOf(frame: Frame, v: Verdict, channel: string): Json
    requires frame.Text? && v.Accepted?
  {
    WebSocketEnvelope(frame.acknowledgement, v.correlationId, Answer(v.operation), channel, v.subscriptionId)
  }

  function StatusOf(frame: Frame, v: Verdict, settings: Settings): Json
    requires frame.Text? && v.Accepted?
  {
    HealthEnvelope(frame.status, frame.health, v.correlationId, settings.serviceName, "healthy", None)
  }

  lemma ReplyIs(frame: Frame, settings: Settings, channel: string, lib: Libraries)
    requires frame.Text? && Control(frame.message, channel, lib).Accepted?
    ensures var v := Control(frame.message, channel, lib);
            Reply(frame, settings, channel, lib)
            == [Message(AcknowledgementOf(frame, v, channel))]
               + if v.operation == Subscribe && channel == "system.health"
                 then [Message(StatusOf(frame, v, settings))] else []
  {
    hide Control, WebSocketEnvelope, HealthEnvelope, Answer;
  }

  lemma MessagesSay(frame: Frame, v: Verdict, settings: Settings, channel: string)
    requires frame.Text? && v.Accepted? && (v.subscriptionId.Some? ==> v.subscriptionId.value != "")
    ensures Answers(v, channel, settings.serviceName)
         == [EchoOf(AcknowledgementOf(frame, v, channel))]
            + if v.operation == Subscribe && channel == "system.health"
              then [EchoOf(StatusOf(frame, v, settings))] else []
  {
    hide EchoOf, WebSocketEnvelope, HealthEnvelope;
    AcknowledgementEcho(frame.acknowledgement, v.correlationId, Answer(v.operation), channel, v.subscriptionId);
    HealthEcho(frame.status, frame.health, v.correlationId, settings.serviceName);
  }

  lemma ReplyEchoes(frame: Frame, settings: Settings, channel: string, lib: Libraries)
    requires frame.Text? && Control(frame.message, channel, lib).Accepted?
    ensures Echoes(Reply(frame, settings, channel, lib))
         == Answers(Control(frame.message, channel, lib), channel, settings.serviceName)
  {
    hide *;
    var v := Control(frame.message, channel, lib);
    AcceptedIds(frame.message, channel, lib);
    ReplyIs(frame, settings, channel, lib);
    MessagesSay(frame, v, settings, channel);
    EchoesOfOne(AcknowledgementOf(frame, v, channel));
    EchoesOfOne(StatusOf(frame, v, settings));
    EchoesConcat([Message(AcknowledgementOf(frame, v, channel))],
                 if v.operation == Subscribe && channel == "system.health"
                 then [Message(StatusOf(frame, v, settings))] else []);
  }

  lemma OpenAccepts(frames: seq<Frame>, settings: Settings, channel: string, lib: Libraries)
    requires Open(frames, settings, channel, lib) && frames != []
    ensures var last := frames[|frames| - 1];
            && Open(frames[..|frames| - 1], settings, channel, lib)
            && last.Text? && last.size <= settings.maxFrameBytes && Control(last.message, channel, lib).Accepted?
  {
    hide Control, Subscribed, Asked;
  }

  /** Every frame the loop went on from is answered, in order: once, with its own
      identifiers and on its channel, and then with a health report exactly when it
      subscribes to the health channel. Nothing else is sent. */
  lemma {:induction false} AnsweredInOrder(frames: seq<Frame>, settings: Settings, channel: string, lib: Libraries)
    requires Open(frames, settings, channel, lib)
    ensures AllAccepted(Asked(frames, channel, lib))
    ensures Echoes(Replies(frames, settings, channel, lib))
         == AllAnswers(Asked(frames, channel, lib), channel, settings.serviceName)
    ensures forall s <- Replies(frames, settings, channel, lib) :: s.Message?
  {
    hide *;
    if frames == [] {
      NothingYet(settings, channel, lib);
      NothingAnswered(frames, channel, settings.serviceName, lib);
    } else {
      var before, last := frames[..|frames| - 1], frames[|frames| - 1];
      OpenAccepts(frames, settings, channel, lib);
      AnsweredInOrder(before, settings, channel, lib);
      OneMore(before, last, settings, channel, lib);
      AskedAppend(before, last, channel, lib);
      ReplyEchoes(last, settings, channel, lib);
      OnlyMessages(last, settings, channel, lib);
      EchoesConcat(Replies(before, settings, channel, lib), Reply(last, settings, channel, lib));
      AnswersAppend(Asked(before, channel, lib), Control(last.message, channel, lib), channel, settings.serviceName);
      assert frames == before + [last];
    }
  }

  lemma OnlyMessages(frame: Frame, settings: Settings, channel: string, lib: Libraries)
    ensures forall s <- Reply(frame, settings, channel, lib) :: s.Message?
  {
    hide Control, WebSocketEnvelope, HealthEnvelope;
  }

  lemma NothingAnswered(frames: seq<Frame>, channel: string, serviceName: string, lib: Libraries)
    requires frames == []
    ensures AllAccepted(Asked(frames, channel, lib)) && Echoes([]) == []
    ensures AllAnswers(Asked(frames, channel, lib), channel, serviceName) == []
  {}

  lemma AnswersAppend(asked: seq<Verdict>, v: Verdict, channel: string, serviceName: string)
    requires v.Accepted? && AllAccepted(asked)
    ensures AllAccepted(asked + [v])
    ensures AllAnswers(asked + [v], channel, serviceName)
         == AllAnswers(asked, channel, serviceName) + Answers(v, channel, serviceName)
  {
    assert (asked + [v])[..|asked|] == asked;
    hide Answers;
  }

  // ---- the client reads every reply ----

  predicate FreshMints(frames: seq<Frame>) {
    forall f <- frames :: f.Text? ==> Minted(f.acknowledgement) && Minted(f.status) && Minted(f.health)
  }

  /** Every reply parses under the client's strict schema. */
  lemma {:induction false} RepliesParse(frames: seq<Frame>, settings: Settings, channel: string, lib: Libraries)
    requires Faithful(lib) && channel in CHANNELS && settings.serviceName != "" && FreshMints(frames)
    ensures forall s <- Replies(frames, settings, channel, lib) :: s.Message? && Incoming(s.json, lib)
  {
    if frames != [] {
      var before, last := frames[..|frames| - 1], frames[|frames| - 1];
      RepliesParse(before, settings, channel, lib);
      ReplyParses(last, settings, channel, lib);
      hide Reply, Incoming, Faithful;
    }
  }

  lemma ReplyParses(frame: Frame, settings: Settings, channel: string, lib: Libraries)
    requires Faithful(lib) && channel in CHANNELS && settings.serviceName != "" && FreshMints([frame])
    ensures forall s <- Reply(frame, settings, channel, lib) :: s.Message? && Incoming(s.json, lib)
  {
    hide Control, WebSocketEnvelope, HealthEnvelope, Incoming, Faithful, IsId, Minted;
    if frame.Text? && Control(frame.message, channel, lib).Accepted? {
      assert frame in [frame];
      AcceptedIds(frame.message, channel, lib);
      var v := Control(frame.message, channel, lib);
      AcknowledgementParses(frame.acknowledgement, v.correlationId, Answer(v.operation), channel, v.subscriptionId,
                            lib);
      HealthParses(frame.status, frame.health, v.correlationId, settings.serviceName, "healthy", None, lib);
    }
  }

  /** A client that opens a connection and sends its subscribe envelope is subscribed
      under its own identifier and hears its own correlation identifier back. */
  lemma Handshake(
    millisecond: int, now: Instant, correlation: RandomBytes, message: RandomBytes, subscription: RandomBytes,
    frame: Frame, settings: Settings, channel: string, lib: Libraries
  )
    requires Faithful(lib) && Valid(now) && settings.maxSubscriptions > 0
    requires frame.Text? && frame.size <= settings.maxFrameBytes
    requires frame.message == Some(SubscribeEnvelope(channel, millisecond, now, correlation, message, subscription))
    ensures Open([frame], settings, channel, lib)
    ensures Subscribed(Asked([frame], channel, lib)) == {ClientId(millisecond, subscription)}
    ensures var sent, id := Replies([frame], settings, channel, lib), JStr(ClientId(millisecond, correlation));
            Echoes(sent)
            == [Echo(JStr("websocket"), id, JStr("ack"), JStr(channel), JStr(ClientId(millisecond, subscription)),
                     JNull, JNull)]
               + if channel == "system.health"
                 then [Echo(JStr("health"), id, JNull, JNull, JNull, JStr(settings.serviceName), JStr("healthy"))]
                 else []
  {
    hide Control, ClientId, Faithful, SubscribeEnvelope, Echoes, Open, Asked, Subscribed, Replies, Reply;
    SubscribeIsUnderstood(channel, channel, millisecond, now, correlation, message, subscription, lib);
    NothingYet(settings, channel, lib);
    assert [] + [frame] == [frame];
    OneMore([], frame, settings, channel, lib);
    ReplyEchoes(frame, settings, channel, lib);
    assert [] + Reply(frame, settings, channel, lib) == Reply(frame, settings, channel, lib);
  }
}
