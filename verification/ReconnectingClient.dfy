/**
 The client's end: a socket that reconnects with bounded exponential backoff. The
 object's handlers run when the browser delivers an event, so a run is a sequence of
 events; what the object asks of the browser is recorded in order.
 */
module ReconnectingClient {
  import opened Options
  import opened Power

  datatype Settings = Settings(maxAttempts: nat, baseDelayMs: nat)

  datatype Shown = Disconnected | Connecting | Connected | Reconnecting | Denied

  /** What the object does to the world. */
  datatype Act =
    | Emit(shown: Shown)
    | Deliver
    | RequestTicket
    | CreateSocket(id: nat)
    | SendSubscribe(id: nat)
    | CloseSocket(id: nat, code: nat)
    | ArmTimer(id: nat, delay: nat)

  /** The browser: ticket requests under way, sockets whose close event has not come,
      those of them asked to close, timers armed, and the acts so far. */
  datatype Browser = Browser(
    tickets: nat, sockets: set<nat>, closing: set<nat>, timers: set<nat>, serial: nat, log: seq<Act>)

  datatype State = State(
    stopped: bool, attempts: nat, socket: Option<nat>, timer: Option<nat>, browser: Browser)

  datatype Event =
    | Start
    | Stop
    | TicketArrives
    | TicketFails(forbidden: bool)
    | Opens(id: nat)
    | Receives(id: nat, valid: bool)
    | Closes(id: nat, code: nat)
    | Errors(id: nat)
    | Fires(id: nat)

  const INITIAL := State(true, 0, None, None, Browser(0, {}, {}, {}, 1, []))

  // ---- what each handler does ----

  function Did(s: State, act: Act): State {
    s.(browser := s.browser.(log := s.browser.log + [act]))
  }

  function Dial(s: State, shown: Shown): State {
    var t := Did(Did(s, Emit(shown)), RequestTicket);
    t.(browser := t.browser.(tickets := t.browser.tickets + 1))
  }

  /** `this.socket?.close(code)`; 1005 is the code of a close without one. */
  function CloseOwn(s: State, code: nat): State {
    if s.socket.None? then s
    else
      var t := Did(s, CloseSocket(s.socket.value, code));
      t.(browser := t.browser.(closing := t.browser.closing + {s.socket.value}))
  }

  function Delay(attempts: nat, o: Settings): nat {
    var delay := o.baseDelayMs * Pow(2, attempts);
    if delay < 15000 then delay else 15000
  }

  function Retry(s: State, o: Settings): State {
    if s.attempts >= o.maxAttempts then Did(s, Emit(Disconnected))
    else
      var id := s.browser.serial;
      var t := Did(Did(s, Emit(Reconnecting)), ArmTimer(id, Delay(s.attempts, o)));
      t.(attempts := s.attempts + 1, timer := Some(id),
         browser := t.browser.(timers := t.browser.timers + {id}, serial := id + 1))
  }

  function Answered(s: State): State {
    s.(browser := s.browser.(tickets := if s.browser.tickets == 0 then 0 else s.browser.tickets - 1))
  }

  function Handle(s: State, e: Event, o: Settings): State {
    match e
    case Start =>
      if !s.stopped then s else Dial(s.(stopped := false, attempts := 0), Connecting)
    case Stop =>
      var t := s.(stopped := true, browser := s.browser.(
        timers := if s.timer.Some? then s.browser.timers - {s.timer.value} else s.browser.timers));
      Did(CloseOwn(t, 1000), Emit(Disconnected))
    case TicketArrives =>
      var t := Answered(s);
      if s.stopped then t
      else
        var id := s.browser.serial;
        var u := Did(t, CreateSocket(id));
        u.(socket := Some(id), browser := u.browser.(sockets := u.browser.sockets + {id}, serial := id + 1))
    case TicketFails(forbidden) =>
      var t := Answered(s);
      if s.stopped then t else if forbidden then Did(t, Emit(Denied)) else Retry(t, o)
    case Opens(_) =>
      var t := s.(attempts := 0);
      Did(if s.socket.Some? then Did(t, SendSubscribe(s.socket.value)) else t, Emit(Connected))
    case Receives(_, valid) =>
      if valid then Did(s, Deliver) else CloseOwn(Did(s, Emit(Denied)), 1008)
    case Closes(id, code) =>
      var t := s.(socket := None, browser := s.browser.(
        sockets := s.browser.sockets - {id}, closing := s.browser.closing - {id}));
      if s.stopped then t
      else if code in {1008, 4401, 4403} then Did(t, Emit(Denied))
      else Retry(t, o)
    case Errors(_) => CloseOwn(s, 1005)
    case Fires(id) => Dial(s.(browser := s.browser.(timers := s.browser.timers - {id})), Reconnecting)
  }

  class ReconnectingWebSocket {
    const options: Settings
    var socket: Option<nat>
    var stopped: bool
    var attempts: nat
    var timer: Option<nat>
    var browser: Browser

    constructor (options: Settings)
      ensures Now() == INITIAL && this.options == options
      ensures stopped && attempts == 0 && socket == None && timer == None && browser.log == []
    {
      this.options := options;
      socket, stopped, attempts, timer := None, true, 0, None;
      browser := INITIAL.browser;
    }

    function Now(): State
      reads this
    {
      State(stopped, attempts, socket, timer, browser)
    }

    method Do(act: Act)
      modifies this`browser
      ensures Now() == Did(old(Now()), act)
    {
      browser := browser.(log := browser.log + [act]);
    }

    method Start()
      modifies this
      ensures Now() == Handle(old(Now()), Event.Start, options)
      ensures !old(stopped) ==> Now() == old(Now())
      ensures old(stopped) ==>
                && !stopped && attempts == 0 && socket == old(socket) && timer == old(timer)
                && browser == old(browser).(tickets := old(browser).tickets + 1,
                                            log := old(browser).log + [Emit(Connecting)] + [RequestTicket])
    {
      if !stopped {
        return;
      }
      stopped := false;
      attempts := 0;
      Connect(Connecting);
    }

    method Stop()
      modifies this
      ensures Now() == Handle(old(Now()), Event.Stop, options)
      ensures stopped && attempts == old(attempts) && socket == old(socket) && timer == old(timer)
      ensures browser.timers == old(browser).timers - if timer.Some? then {timer.value} else {}
      ensures browser.closing == old(browser).closing + if socket.Some? then {socket.value} else {}
      ensures browser.log == old(browser).log + (if socket.Some? then [CloseSocket(socket.value, 1000)] else [])
                             + [Emit(Disconnected)]
      ensures browser.tickets == old(browser).tickets && browser.sockets == old(browser).sockets
    {
      stopped := true;
      if timer.Some? {
        browser := browser.(timers := browser.timers - {timer.value});
      }
      CloseOwnSocket(1000);
      Do(Emit(Disconnected));
    }

    method Connect(shown: Shown)
      modifies this`browser
      ensures Now() == Dial(old(Now()), shown)
      ensures browser == old(browser).(tickets := old(browser).tickets + 1,
                                       log := old(browser).log + [Emit(shown)] + [RequestTicket])
    {
      Do(Emit(shown));
      Do(RequestTicket);
      browser := browser.(tickets := browser.tickets + 1);
    }

    method CloseOwnSocket(code: nat)
      modifies this`browser
      ensures Now() == CloseOwn(old(Now()), code)
      ensures socket.None? ==> browser == old(browser)
      ensures socket.Some? ==>
                browser == old(browser).(closing := old(browser).closing + {socket.value},
                                         log := old(browser).log + [CloseSocket(socket.value, code)])
    {
      if socket.Some? {
        Do(CloseSocket(socket.value, code));
        browser := browser.(closing := browser.closing + {socket.value});
      }
    }

    method ScheduleReconnect()
      modifies this
      ensures Now() == Retry(old(Now()), options)
      ensures stopped == old(stopped) && socket == old(socket)
      ensures old(attempts) >= options.maxAttempts ==>
                && attempts == old(attempts) && timer == old(timer)
                && browser == old(browser).(log := old(browser).log + [Emit(Disconnected)])
      ensures old(attempts) < options.maxAttempts ==>
                var id, full := old(browser).serial, options.baseDelayMs * Pow(2, old(attempts));
                var delay := if full < 15000 then full else 15000;
                && attempts == old(attempts) + 1 && timer == Some(id)
                && browser == old(browser).(timers := old(browser).timers + {id}, serial := id + 1,
                                            log := old(browser).log + [Emit(Reconnecting)] + [ArmTimer(id, delay)])
    {
      if attempts >= options.maxAttempts {
        Do(Emit(Disconnected));
        return;
      }
      var delay := options.baseDelayMs * Pow(2, attempts);
      if delay > 15000 {
        delay := 15000;
      }
      attempts := attempts + 1;
      Do(Emit(Reconnecting));
      var id := browser.serial;
      Do(ArmTimer(id, delay));
      browser := browser.(timers := browser.timers + {id}, serial := id + 1);
      timer := Some(id);
    }

    /** The rest of `connect` once the ticket has come. */
    method TicketArrives()
      requires browser.tickets > 0
      modifies this
      ensures Now() == Handle(old(Now()), Event.TicketArrives, options)
      ensures stopped == old(stopped) && attempts == old(attempts) && timer == old(timer)
      ensures browser.tickets == old(browser).tickets - 1
      ensures stopped ==> socket == old(socket) && browser.log == old(browser).log
      ensures stopped ==> browser.sockets == old(browser).sockets
      ensures !stopped ==>
                var id := old(browser).serial;
                && socket == Some(id) && browser.sockets == old(browser).sockets + {id}
                && browser.log == old(browser).log + [CreateSocket(id)]
    {
      browser := browser.(tickets := browser.tickets - 1);
      if stopped {
        return;
      }
      var id := browser.serial;
      Do(CreateSocket(id));
      browser := browser.(sockets := browser.sockets + {id}, serial := id + 1);
      socket := Some(id);
    }

    /** The rest of `connect` when there is no ticket, or no socket can be made from it. */
    method TicketFails(forbidden: bool)
      requires browser.tickets > 0
      modifies this
      ensures Now() == Handle(old(Now()), Event.TicketFails(forbidden), options)
      ensures browser.tickets == old(browser).tickets - 1 && socket == old(socket)
      ensures old(stopped) ==> browser.log == old(browser).log && browser.timers == old(browser).timers
      ensures !old(stopped) && forbidden ==>
                browser.log == old(browser).log + [Emit(Denied)] && browser.timers == old(browser).timers
      ensures !old(stopped) && !forbidden && old(attempts) >= options.maxAttempts ==>
                browser.log == old(browser).log + [Emit(Disconnected)] && browser.timers == old(browser).timers
      ensures !old(stopped) && !forbidden && old(attempts) < options.maxAttempts ==>
                attempts == old(attempts) + 1 && timer.Some? && browser.timers == old(browser).timers + {timer.value}
    {
      browser := browser.(tickets := browser.tickets - 1);
      if stopped {
        return;
      }
      if forbidden {
        Do(Emit(Denied));
        return;
      }
      ScheduleReconnect();
    }

    method OnOpen(id: nat)
      modifies this
      ensures Now() == Handle(old(Now()), Opens(id), options)
      ensures stopped == old(stopped) && attempts == 0 && socket == old(socket) && timer == old(timer)
      ensures browser == old(browser).(log := old(browser).log
                                              + (if socket.Some? then [SendSubscribe(socket.value)] else [])
                                              + [Emit(Connected)])
    {
      attempts := 0;
      if socket.Some? {
        Do(SendSubscribe(socket.value));
      }
      Do(Emit(Connected));
    }

    method OnMessage(id: nat, valid: bool)
      modifies this
      ensures Now() == Handle(old(Now()), Receives(id, valid), options)
      ensures stopped == old(stopped) && attempts == old(attempts) && socket == old(socket) && timer == old(timer)
      ensures valid ==> browser == old(browser).(log := old(browser).log + [Deliver])
      ensures !valid ==>
                browser.log == old(browser).log + [Emit(Denied)]
                               + (if socket.Some? then [CloseSocket(socket.value, 1008)] else [])
    {
      if valid {
        Do(Deliver);
      } else {
        Do(Emit(Denied));
        CloseOwnSocket(1008);
      }
    }

    method OnClose(id: nat, code: nat)
      modifies this
      ensures Now() == Handle(old(Now()), Closes(id, code), options)
      ensures socket == None && stopped == old(stopped) && browser.sockets == old(browser).sockets - {id}
      ensures stopped ==> browser.log == old(browser).log && browser.timers == old(browser).timers
      ensures !stopped && code in {1008, 4401, 4403} ==>
                browser.log == old(browser).log + [Emit(Denied)] && browser.timers == old(browser).timers
      ensures !stopped && code !in {1008, 4401, 4403} && old(attempts) >= options.maxAttempts ==>
                browser.log == old(browser).log + [Emit(Disconnected)] && browser.timers == old(browser).timers
      ensures !stopped && code !in {1008, 4401, 4403} && old(attempts) < options.maxAttempts ==>
                attempts == old(attempts) + 1 && timer.Some? && browser.timers == old(browser).timers + {timer.value}
    {
      browser := browser.(sockets := browser.sockets - {id}, closing := browser.closing - {id});
      socket := None;
      if stopped {
        return;
      }
      if code == 1008 || code == 4401 || code == 4403 {
        Do(Emit(Denied));
        return;
      }
      ScheduleReconnect();
    }

    method OnError(id: nat)
      modifies this
      ensures Now() == Handle(old(Now()), Errors(id), options)
      ensures stopped == old(stopped) && attempts == old(attempts) && socket == old(socket) && timer == old(timer)
      ensures browser.log == old(browser).log + if socket.Some? then [CloseSocket(socket.value, 1005)] else []
    {
      CloseOwnSocket(1005);
    }

    method OnTimer(id: nat)
      modifies this
      ensures Now() == Handle(old(Now()), Fires(id), options)
      ensures stopped == old(stopped) && attempts == old(attempts) && socket == old(socket) && timer == old(timer)
      ensures browser == old(browser).(timers := old(browser).timers - {id}, tickets := old(browser).tickets + 1,
                                       log := old(browser).log + [Emit(Reconnecting)] + [RequestTicket])
    {
      browser := browser.(timers := browser.timers - {id});
      Connect(Reconnecting);
    }
  }

  // ---- runs ----

  /** Events the browser can deliver. */
  predicate Possible(s: State, e: Event) {
    match e
    case Start => true
    case Stop => true
    case TicketArrives => s.browser.tickets > 0
    case TicketFails(_) => s.browser.tickets > 0
    case Opens(id) => id in s.browser.sockets
    case Receives(id, _) => id in s.browser.sockets
    case Closes(id, _) => id in s.browser.sockets
    case Errors(id) => id in s.browser.sockets
    case Fires(id) => id in s.browser.timers
  }

  /** Nothing is under way. */
  predicate Quiet(s: State) {
    s.browser.tickets == 0 && s.browser.sockets == {} && s.browser.timers == {}
  }

  /** Started again only once what an earlier start left under way has ended. */
  predicate Careful(s: State, e: Event) {
    e.Start? && s.stopped ==> Quiet(s)
  }

  function After(s: State, events: seq<Event>, o: Settings): State {
    if events == [] then s else Handle(After(s, events[..|events| - 1], o), events[|events| - 1], o)
  }

  ghost predicate Run(s: State, events: seq<Event>, o: Settings) {
    events != [] ==>
      var before, last := events[..|events| - 1], events[|events| - 1];
      && Run(s, before, o) && Possible(After(s, before, o), last) && Careful(After(s, before, o), last)
  }

  // ---- one thing under way ----

  /** At most one of a ticket request, a live socket and an armed timer, and the
      object's own fields name it. */
  predicate Single(s: State, o: Settings) {
    var b := s.browser;
    && b.tickets <= 1
    && b.sockets == (if s.socket.Some? then {s.socket.value} else {})
    && (b.timers == {} || (s.timer.Some? && b.timers == {s.timer.value} && !s.stopped))
    && (b.tickets > 0 ==> b.sockets == {} && b.timers == {})
    && (b.sockets != {} ==> b.timers == {})
    && b.closing <= b.sockets
    && (s.stopped ==> b.closing == b.sockets)
    && s.attempts <= o.maxAttempts
  }

  lemma HandleKeepsSingle(s: State, e: Event, o: Settings)
    requires Single(s, o) && Possible(s, e) && Careful(s, e)
    ensures Single(Handle(s, e, o), o)
  {}

  /** In every run at most one thing is under way. */
  lemma {:induction false} OneThingUnderWay(events: seq<Event>, o: Settings)
    requires Run(INITIAL, events, o)
    ensures Single(After(INITIAL, events, o), o)
  {
    if events != [] {
      var before := events[..|events| - 1];
      OneThingUnderWay(before, o);
      HandleKeepsSingle(After(INITIAL, before, o), events[|events| - 1], o);
    }
  }

  /** Starting keeps that exactly when it does nothing or nothing was under way. */
  lemma StartIsSafeExactly(s: State, o: Settings)
    requires Single(s, o)
    ensures Single(Handle(s, Start, o), o) <==> !s.stopped || Quiet(s)
  {}

  /** Started, stopped and started again before the ticket comes, two requests run at once. */
  lemma RestartTooSoon(o: Settings)
    ensures var s := After(INITIAL, [Start, Stop, Start], o);
            s.browser.tickets == 2 && !Single(s, o)
  {
    assert [Start, Stop, Start][..2] == [Start, Stop] && [Start, Stop][..1] == [Start] && [Start][..0] == [];
    assert After(INITIAL, [], o) == INITIAL;
    assert After(INITIAL, [Start], o) == Handle(INITIAL, Start, o);
    assert After(INITIAL, [Start, Stop], o) == Handle(Handle(INITIAL, Start, o), Stop, o);
  }

  // ---- what a run says and does ----

  /** What each event adds to the log. */
  function Acts(s: State, e: Event, o: Settings): seq<Act> {
    match e
    case Start => if s.stopped then [Emit(Connecting), RequestTicket] else []
    case Stop => Closing(s, 1000) + [Emit(Disconnected)]
    case TicketArrives => if s.stopped then [] else [CreateSocket(s.browser.serial)]
    case TicketFails(forbidden) => if s.stopped then [] else if forbidden then [Emit(Denied)] else Retrying(s, o)
    case Opens(_) => (if s.socket.Some? then [SendSubscribe(s.socket.value)] else []) + [Emit(Connected)]
    case Receives(_, valid) => if valid then [Deliver] else [Emit(Denied)] + Closing(s, 1008)
    case Closes(_, code) =>
      if s.stopped then [] else if code in {1008, 4401, 4403} then [Emit(Denied)] else Retrying(s, o)
    case Errors(_) => Closing(s, 1005)
    case Fires(_) => [Emit(Reconnecting), RequestTicket]
  }

  function Closing(s: State, code: nat): seq<Act> {
    if s.socket.Some? then [CloseSocket(s.socket.value, code)] else []
  }

  function Retrying(s: State, o: Settings): seq<Act> {
    if s.attempts >= o.maxAttempts then [Emit(Disconnected)]
    else [Emit(Reconnecting), ArmTimer(s.browser.serial, Delay(s.attempts, o))]
  }

  lemma HandleActs(s: State, e: Event, o: Settings)
    ensures Handle(s, e, o).browser.log == s.browser.log + Acts(s, e, o)
  {
    hide Delay;
  }

  /** The sockets that a subscription was sent on, in order. */
  function Subscriptions(log: seq<Act>): seq<nat> {
    if log == [] then []
    else (if log[0].SendSubscribe? then [log[0].id] else []) + Subscriptions(log[1..])
  }

  function Deliveries(log: seq<Act>): nat {
    if log == [] then 0 else (if log[0].Deliver? then 1 else 0) + Deliveries(log[1..])
  }

  function Denials(log: seq<Act>): nat {
    if log == [] then 0 else (if log[0] == Emit(Denied) then 1 else 0) + Denials(log[1..])
  }

  lemma {:induction false} SubscriptionsConcat(a: seq<Act>, b: seq<Act>)
    ensures Subscriptions(a + b) == Subscriptions(a) + Subscriptions(b)
  {
    if a == [] {
      assert a + b == b;
    } else {
      assert (a + b)[1..] == a[1..] + b && (a + b)[0] == a[0];
      SubscriptionsConcat(a[1..], b);
    }
  }

  lemma {:induction false} DeliveriesConcat(a: seq<Act>, b: seq<Act>)
    ensures Deliveries(a + b) == Deliveries(a) + Deliveries(b)
  {
    if a == [] {
      assert a + b == b;
    } else {
      assert (a + b)[1..] == a[1..] + b && (a + b)[0] == a[0];
      DeliveriesConcat(a[1..], b);
    }
  }

  lemma {:induction false} DenialsConcat(a: seq<Act>, b: seq<Act>)
    ensures Denials(a + b) == Denials(a) + Denials(b)
  {
    if a == [] {
      assert a + b == b;
    } else {
      assert (a + b)[1..] == a[1..] + b && (a + b)[0] == a[0];
      DenialsConcat(a[1..], b);
    }
  }

  lemma LogConcat(a: seq<Act>, b: seq<Act>)
    ensures Subscriptions(a + b) == Subscriptions(a) + Subscriptions(b)
    ensures Deliveries(a + b) == Deliveries(a) + Deliveries(b) && Denials(a + b) == Denials(a) + Denials(b)
  {
    hide *;
    SubscriptionsConcat(a, b);
    DeliveriesConcat(a, b);
    DenialsConcat(a, b);
  }

  lemma LogOfOne(act: Act)
    ensures Subscriptions([act]) == (if act.SendSubscribe? then [act.id] else [])
    ensures Deliveries([act]) == (if act.Deliver? then 1 else 0)
    ensures Denials([act]) == (if act == Emit(Denied) then 1 else 0)
  {
    assert [act][1..] == [];
    assert Subscriptions([]) == [] && Deliveries([]) == 0 && Denials([]) == 0;
  }

  lemma LogOfTwo(a: Act, b: Act)
    ensures Subscriptions([a, b]) == Subscriptions([a]) + Subscriptions([b])
    ensures Deliveries([a, b]) == Deliveries([a]) + Deliveries([b]) && Denials([a, b]) == Denials([a]) + Denials([b])
  {
    assert [a, b] == [a] + [b];
    LogConcat([a], [b]);
  }

  /** The sockets that opened, in order. */
  function OpenedSockets(events: seq<Event>): seq<nat> {
    if events == [] then []
    else
      var last := events[|events| - 1];
      OpenedSockets(events[..|events| - 1]) + if last.Opens? then [last.id] else []
  }

  /** The messages that parse. */
  function ValidMessages(events: seq<Event>): nat {
    if events == [] then 0
    else
      var last := events[|events| - 1];
      ValidMessages(events[..|events| - 1]) + if last.Receives? && last.valid then 1 else 0
  }

  /** Whether the user is denied: the ticket is forbidden or the socket closed for policy
      while not stopped, or a message does not parse. */
  predicate Denies(s: State, e: Event) {
    || (e.TicketFails? && e.forbidden && !s.stopped)
    || (e.Closes? && e.code in {1008, 4401, 4403} && !s.stopped)
    || (e.Receives? && !e.valid)
  }

  function Refusals(s: State, events: seq<Event>, o: Settings): nat {
    if events == [] then 0
    else
      var before := events[..|events| - 1];
      Refusals(s, before, o) + if Denies(After(s, before, o), events[|events| - 1]) then 1 else 0
  }

  predicate TurnAt(log: seq<Act>, i: nat)
    requires i < |log|
  {
    && (log[i] == Emit(Connected) ==> i > 0 && log[i - 1].SendSubscribe?)
    && (log[i].RequestTicket? ==> i > 0 && log[i - 1] in {Emit(Connecting), Emit(Reconnecting)})
    && (log[i].ArmTimer? ==> i > 0 && log[i - 1] == Emit(Reconnecting))
  }

  /** Every `connected` follows the sending of a subscription, every ticket request the
      showing of an attempt, and every arming of a timer the showing of a retry. */
  predicate InTurn(log: seq<Act>) {
    forall i :: 0 <= i < |log| ==> TurnAt(log, i)
  }

  lemma InTurnConcat(a: seq<Act>, b: seq<Act>)
    requires InTurn(a) && InTurn(b)
    ensures InTurn(a + b)
  {
    forall i | 0 <= i < |a + b| ensures TurnAt(a + b, i) {
      if i < |a| {
        assert TurnAt(a, i);
      } else {
        assert TurnAt(b, i - |a|);
        assert (a + b)[i] == b[i - |a|];
      }
    }
  }

  lemma ActsInTurn(s: State, e: Event, o: Settings)
    requires Single(s, o) && Possible(s, e)
    ensures |Acts(s, e, o)| <= 2 && InTurn(Acts(s, e, o))
  {
    hide Delay;
  }

  /** What at most two acts count for. */
  lemma ShortLog(acts: seq<Act>)
    requires |acts| <= 2
    ensures Subscriptions(acts) == (if |acts| > 0 && acts[0].SendSubscribe? then [acts[0].id] else [])
                                   + (if |acts| > 1 && acts[1].SendSubscribe? then [acts[1].id] else [])
    ensures Deliveries(acts) == (if |acts| > 0 && acts[0].Deliver? then 1 else 0)
                                + (if |acts| > 1 && acts[1].Deliver? then 1 else 0)
    ensures Denials(acts) == (if |acts| > 0 && acts[0] == Emit(Denied) then 1 else 0)
                             + (if |acts| > 1 && acts[1] == Emit(Denied) then 1 else 0)
  {
    hide Subscriptions, Deliveries, Denials;
    NothingSaid();
    if |acts| == 1 {
      assert acts == [acts[0]];
      LogOfOne(acts[0]);
    } else if |acts| == 2 {
      assert acts == [acts[0], acts[1]];
      LogOfOne(acts[0]);
      LogOfOne(acts[1]);
      LogOfTwo(acts[0], acts[1]);
    }
  }

  lemma ActsSay(s: State, e: Event, o: Settings)
    requires Single(s, o) && Possible(s, e)
    ensures var acts := Acts(s, e, o);
            && Subscriptions(acts) == (if e.Opens? then [e.id] else [])
            && Deliveries(acts) == (if e.Receives? && e.valid then 1 else 0)
            && Denials(acts) == if Denies(s, e) then 1 else 0
  {
    hide Subscriptions, Deliveries, Denials, Delay, InTurn;
    ActsInTurn(s, e, o);
    ShortLog(Acts(s, e, o));
  }

  lemma NothingSaid()
    ensures Subscriptions([]) == [] && Deliveries([]) == 0 && Denials([]) == 0
  {}

  /** In every run a subscription is sent on exactly the sockets that opened, in their
      order and before the user sees connected; one envelope is delivered for each valid
      message; and the user sees denied once for each refusal. */
  lemma {:induction false} SaysInTurn(events: seq<Event>, o: Settings)
    requires Run(INITIAL, events, o)
    ensures var log := After(INITIAL, events, o).browser.log;
            && InTurn(log) && Subscriptions(log) == OpenedSockets(events)
            && Deliveries(log) == ValidMessages(events) && Denials(log) == Refusals(INITIAL, events, o)
  {
    hide Handle, Acts, InTurn, Subscriptions, Deliveries, Denials, Denies, Single, Possible, Careful;
    if events == [] {
      NothingSaid();
      assert InTurn([]) by {
        NothingInTurn();
      }
    } else {
      var before, last := events[..|events| - 1], events[|events| - 1];
      var s := After(INITIAL, before, o);
      SaysInTurn(before, o);
      OneThingUnderWay(before, o);
      HandleActs(s, last, o);
      ActsInTurn(s, last, o);
      ActsSay(s, last, o);
      LogConcat(s.browser.log, Acts(s, last, o));
      InTurnConcat(s.browser.log, Acts(s, last, o));
    }
  }

  lemma NothingInTurn()
    ensures InTurn([])
  {}

  // ---- what a single start can cost ----

  const STARTED := Handle(INITIAL, Start, Settings(0, 0))

  /** A run of an object that was started once. */
  ghost predicate StartedOnce(events: seq<Event>, o: Settings) {
    Run(STARTED, events, o) && forall i :: 0 <= i < |events| ==> !events[i].Start?
  }

  lemma StartedIsStart(o: Settings)
    ensures Handle(INITIAL, Start, o) == STARTED && Single(STARTED, o)
  {}

  lemma {:induction false} StartedOnceSingle(events: seq<Event>, o: Settings)
    requires StartedOnce(events, o)
    ensures Single(After(STARTED, events, o), o)
  {
    if events == [] {
      StartedIsStart(o);
    } else {
      var before := events[..|events| - 1];
      StartedOnceSingle(before, o);
      HandleKeepsSingle(After(STARTED, before, o), events[|events| - 1], o);
    }
  }

  function Requests(log: seq<Act>): nat {
    if log == [] then 0 else Requests(log[..|log| - 1]) + if log[|log| - 1].RequestTicket? then 1 else 0
  }

  /** All the time spent waiting between attempts. */
  function Backoff(log: seq<Act>): nat {
    if log == [] then 0 else Backoff(log[..|log| - 1]) + if log[|log| - 1].ArmTimer? then log[|log| - 1].delay else 0
  }

  function Opened(events: seq<Event>): nat {
    if events == [] then 0 else Opened(events[..|events| - 1]) + if events[|events| - 1].Opens? then 1 else 0
  }

  lemma ActCosts(log: seq<Act>, act: Act)
    ensures Requests(log + [act]) == Requests(log) + if act.RequestTicket? then 1 else 0
    ensures Backoff(log + [act]) == Backoff(log) + if act.ArmTimer? then act.delay else 0
  {
    assert (log + [act])[..|log|] == log;
  }

  /** The backoff that `attempts` attempts can add up to. */
  function Worst(attempts: nat, o: Settings): nat {
    o.baseDelayMs * (Pow(2, attempts) - 1)
  }

  lemma WorstStep(attempts: nat, o: Settings)
    ensures Worst(attempts, o) + Delay(attempts, o) <= Worst(attempts + 1, o)
    ensures Worst(0, o) == 0
    ensures o.baseDelayMs * Pow(2, attempts) <= 15000 ==>
              Worst(attempts, o) + Delay(attempts, o) == Worst(attempts + 1, o)
  {
    var b, p := o.baseDelayMs, Pow(2, attempts);
    assert b * (2 * p - 1) == b * (p - 1) + b * p;
  }

  lemma {:induction false} WorstGrows(j: nat, k: nat, o: Settings)
    requires j <= k
    ensures Worst(j, o) <= Worst(k, o)
  {
    if j < k {
      WorstGrows(j, k - 1, o);
      WorstStep(k - 1, o);
    }
  }

  // What may have been spent after some openings and some failures since.

  function RequestLimit(opens: nat, attempts: nat, o: Settings): nat {
    1 + opens * o.maxAttempts + attempts
  }

  function WaitLimit(opens: nat, attempts: nat, o: Settings): nat {
    opens * Worst(o.maxAttempts, o) + Worst(attempts, o)
  }

  lemma LimitsAfterFailure(opens: nat, attempts: nat, o: Settings)
    ensures RequestLimit(opens, attempts + 1, o) == RequestLimit(opens, attempts, o) + 1
    ensures WaitLimit(opens, attempts, o) + Delay(attempts, o) <= WaitLimit(opens, attempts + 1, o)
  {
    WorstStep(attempts, o);
    hide Worst, Delay;
  }

  lemma LimitsAfterOpening(opens: nat, attempts: nat, o: Settings)
    requires attempts <= o.maxAttempts
    ensures RequestLimit(opens, attempts, o) <= RequestLimit(opens + 1, 0, o) == 1 + (opens + 1) * o.maxAttempts
    ensures WaitLimit(opens, attempts, o) <= WaitLimit(opens + 1, 0, o) == (opens + 1) * Worst(o.maxAttempts, o)
  {
    WorstGrows(attempts, o.maxAttempts, o);
    WorstStep(0, o);
    hide Worst;
    Distribute(opens, o.maxAttempts);
    Distribute(opens, Worst(o.maxAttempts, o));
  }

  lemma Distribute(a: nat, b: nat)
    ensures (a + 1) * b == a * b + b
  {}

  predicate Capped(log: seq<Act>) {
    forall i :: 0 <= i < |log| && log[i].ArmTimer? ==> log[i].delay <= 15000
  }

  /** What has been spent after `opens` sockets opened; an armed timer will ask again. */
  predicate WithinBudget(s: State, opens: nat, o: Settings) {
    && Requests(s.browser.log) + (if s.browser.timers == {} then 0 else 1) <= RequestLimit(opens, s.attempts, o)
    && Backoff(s.browser.log) <= WaitLimit(opens, s.attempts, o)
    && Capped(s.browser.log)
  }

  lemma RetryBudget(s: State, opens: nat, o: Settings)
    requires WithinBudget(s, opens, o) && s.browser.timers == {}
    ensures WithinBudget(Retry(s, o), opens, o)
  {
    hide Requests, Backoff, RequestLimit, WaitLimit, Pow;
    var log := s.browser.log;
    ActCosts(log, Emit(Disconnected));
    ActCosts(log, Emit(Reconnecting));
    ActCosts(log + [Emit(Reconnecting)], ArmTimer(s.browser.serial, Delay(s.attempts, o)));
    LimitsAfterFailure(opens, s.attempts, o);
  }

  lemma QuietActs(s: State, t: State, opens: nat, o: Settings, act: Act)
    requires WithinBudget(s, opens, o) && !act.RequestTicket? && !act.ArmTimer?
    requires t.attempts == s.attempts && t.browser.timers <= s.browser.timers
    requires t.browser.log == s.browser.log + [act]
    ensures WithinBudget(t, opens, o)
  {
    hide Requests, Backoff, RequestLimit, WaitLimit;
    ActCosts(s.browser.log, act);
  }

  lemma FewerTimers(s: State, t: State, opens: nat, o: Settings)
    requires WithinBudget(s, opens, o) && t.attempts == s.attempts
    requires t.browser.timers <= s.browser.timers && t.browser.log == s.browser.log
    ensures WithinBudget(t, opens, o)
  {
    hide Requests, Backoff, RequestLimit, WaitLimit, Capped;
  }

  lemma CloseBudget(s: State, code: nat, opens: nat, o: Settings)
    requires WithinBudget(s, opens, o)
    ensures WithinBudget(CloseOwn(s, code), opens, o)
  {
    hide WithinBudget;
    if s.socket.Some? {
      QuietActs(s, CloseOwn(s, code), opens, o, CloseSocket(s.socket.value, code));
    }
  }

  lemma OpenBudget(s: State, id: nat, opens: nat, o: Settings)
    requires WithinBudget(s, opens, o) && s.attempts <= o.maxAttempts && s.browser.timers == {}
    ensures WithinBudget(Handle(s, Opens(id), o), opens + 1, o)
  {
    var t := s.(attempts := 0);
    LimitsAfterOpening(opens, s.attempts, o);
    assert WithinBudget(t, opens + 1, o) by {
      hide Requests, Backoff, RequestLimit, WaitLimit, Capped;
    }
    hide WithinBudget;
    if s.socket.Some? {
      var u := Did(t, SendSubscribe(s.socket.value));
      QuietActs(t, u, opens + 1, o, SendSubscribe(s.socket.value));
      QuietActs(u, Did(u, Emit(Connected)), opens + 1, o, Emit(Connected));
    } else {
      QuietActs(t, Did(t, Emit(Connected)), opens + 1, o, Emit(Connected));
    }
  }

  lemma StopBudget(s: State, opens: nat, o: Settings)
    requires WithinBudget(s, opens, o)
    ensures WithinBudget(Handle(s, Stop, o), opens, o)
  {
    hide WithinBudget;
    var t := s.(stopped := true, browser := s.browser.(
      timers := if s.timer.Some? then s.browser.timers - {s.timer.value} else s.browser.timers));
    FewerTimers(s, t, opens, o);
    CloseBudget(t, 1000, opens, o);
    QuietActs(CloseOwn(t, 1000), Did(CloseOwn(t, 1000), Emit(Disconnected)), opens, o, Emit(Disconnected));
  }

  lemma TicketBudget(s: State, opens: nat, o: Settings)
    requires WithinBudget(s, opens, o)
    ensures WithinBudget(Handle(s, TicketArrives, o), opens, o)
  {
    hide WithinBudget;
    FewerTimers(s, Answered(s), opens, o);
    if !s.stopped {
      QuietActs(Answered(s), Handle(s, TicketArrives, o), opens, o, CreateSocket(s.browser.serial));
    }
  }

  lemma FailureBudget(s: State, forbidden: bool, opens: nat, o: Settings)
    requires WithinBudget(s, opens, o) && s.browser.timers == {}
    ensures WithinBudget(Handle(s, TicketFails(forbidden), o), opens, o)
  {
    hide WithinBudget, Retry;
    var t := Answered(s);
    FewerTimers(s, t, opens, o);
    QuietActs(t, Did(t, Emit(Denied)), opens, o, Emit(Denied));
    RetryBudget(t, opens, o);
  }

  lemma ClosingBudget(s: State, id: nat, code: nat, opens: nat, o: Settings)
    requires WithinBudget(s, opens, o) && s.browser.timers == {}
    ensures WithinBudget(Handle(s, Closes(id, code), o), opens, o)
  {
    hide WithinBudget, Retry;
    var t := s.(socket := None, browser := s.browser.(
      sockets := s.browser.sockets - {id}, closing := s.browser.closing - {id}));
    FewerTimers(s, t, opens, o);
    QuietActs(t, Did(t, Emit(Denied)), opens, o, Emit(Denied));
    RetryBudget(t, opens, o);
  }

  lemma MessageBudget(s: State, id: nat, valid: bool, opens: nat, o: Settings)
    requires WithinBudget(s, opens, o)
    ensures WithinBudget(Handle(s, Receives(id, valid), o), opens, o)
  {
    hide WithinBudget;
    QuietActs(s, Did(s, Deliver), opens, o, Deliver);
    QuietActs(s, Did(s, Emit(Denied)), opens, o, Emit(Denied));
    CloseBudget(Did(s, Emit(Denied)), 1008, opens, o);
  }

  lemma ErrorBudget(s: State, id: nat, opens: nat, o: Settings)
    requires WithinBudget(s, opens, o)
    ensures WithinBudget(Handle(s, Errors(id), o), opens, o)
  {
    hide WithinBudget;
    CloseBudget(s, 1005, opens, o);
  }

  lemma TimerBudget(s: State, id: nat, opens: nat, o: Settings)
    requires WithinBudget(s, opens, o) && s.browser.timers == {id}
    ensures WithinBudget(Handle(s, Fires(id), o), opens, o)
  {
    hide Requests, Backoff, RequestLimit, WaitLimit;
    var log := s.browser.log;
    ActCosts(log, Emit(Reconnecting));
    ActCosts(log + [Emit(Reconnecting)], RequestTicket);
    assert Handle(s, Fires(id), o).browser.log == log + [Emit(Reconnecting)] + [RequestTicket];
  }

  /** While a ticket or a socket is under way no timer is armed, and a timer that fires
      is the only one. */
  lemma TimersUnderWay(s: State, e: Event, o: Settings)
    requires Single(s, o) && Possible(s, e)
    ensures s.attempts <= o.maxAttempts
    ensures e.TicketFails? || e.Closes? || e.Opens? ==> s.browser.timers == {}
    ensures e.Fires? ==> s.browser.timers == {e.id}
  {}

  lemma HandleBudget(s: State, e: Event, opens: nat, o: Settings)
    requires WithinBudget(s, opens, o) && Single(s, o) && Possible(s, e) && !e.Start?
    ensures WithinBudget(Handle(s, e, o), opens + (if e.Opens? then 1 else 0), o)
  {
    hide WithinBudget, Single, Handle, Possible;
    TimersUnderWay(s, e, o);
    match e
    case Opens(id) => OpenBudget(s, id, opens, o);
    case Stop => StopBudget(s, opens, o);
    case TicketArrives => TicketBudget(s, opens, o);
    case TicketFails(forbidden) => FailureBudget(s, forbidden, opens, o);
    case Closes(id, code) => ClosingBudget(s, id, code, opens, o);
    case Receives(id, valid) => MessageBudget(s, id, valid, opens, o);
    case Errors(id) => ErrorBudget(s, id, opens, o);
    case Fires(id) => TimerBudget(s, id, opens, o);
  }

  lemma StartedBudget(o: Settings)
    ensures WithinBudget(STARTED, 0, o)
  {
    ActCosts([], Emit(Connecting));
    ActCosts([Emit(Connecting)], RequestTicket);
    assert [] + [Emit(Connecting)] == [Emit(Connecting)];
  }

  /** A started object spends a bounded number of requests and a bounded time waiting,
      between one opening of a socket and the next; with no opening at all, at most
      maxAttempts + 1 requests and base * (2^maxAttempts - 1) milliseconds. */
  lemma {:induction false} BackoffIsBounded(events: seq<Event>, o: Settings)
    requires StartedOnce(events, o)
    ensures var s, opens := After(STARTED, events, o), Opened(events);
            && WithinBudget(s, opens, o)
            && Requests(s.browser.log) <= 1 + (opens + 1) * o.maxAttempts
            && Backoff(s.browser.log) <= (opens + 1) * Worst(o.maxAttempts, o)
  {
    hide WithinBudget, Single, Handle, Possible;
    var s, opens := After(STARTED, events, o), Opened(events);
    StartedOnceSingle(events, o);
    if events == [] {
      StartedBudget(o);
    } else {
      var before := events[..|events| - 1];
      BackoffIsBounded(before, o);
      StartedOnceSingle(before, o);
      HandleBudget(After(STARTED, before, o), events[|events| - 1], Opened(before), o);
    }
    InTotal(s, opens, o);
  }

  lemma InTotal(s: State, opens: nat, o: Settings)
    requires WithinBudget(s, opens, o) && Single(s, o)
    ensures Requests(s.browser.log) <= 1 + (opens + 1) * o.maxAttempts
    ensures Backoff(s.browser.log) <= (opens + 1) * Worst(o.maxAttempts, o)
  {
    LimitsAfterOpening(opens, s.attempts, o);
    hide Requests, Backoff, RequestLimit, WaitLimit, Worst;
  }

  // ---- every run ends ----

  /** Events that use up what is under way. */
  predicate Moves(e: Event) {
    e.TicketArrives? || e.TicketFails? || e.Opens? || e.Closes? || e.Fires?
  }

  /** How far what is under way can still go without another opening. */
  function Height(s: State, o: Settings): int {
    var left := 3 * (o.maxAttempts - s.attempts);
    if s.browser.timers != {} then left + 3
    else if s.browser.tickets > 0 then left + 2
    else if s.browser.sockets != {} then left + 1
    else 0
  }

  /** The measure (openings to come, height) descends lexicographically with every
      event that moves, and no other event raises it. */
  lemma MovesDescend(s: State, e: Event, o: Settings)
    requires Single(s, o) && Possible(s, e) && !e.Start?
    ensures Height(s, o) >= 0 && (!Quiet(s) ==> Height(s, o) > 0)
    ensures Moves(e) && !e.Opens? ==> Height(Handle(s, e, o), o) < Height(s, o)
    ensures e.Opens? ==> Height(Handle(s, e, o), o) <= 3 * o.maxAttempts + 1
    ensures !Moves(e) ==> Height(Handle(s, e, o), o) <= Height(s, o)
  {}

  function Moved(events: seq<Event>): nat {
    if events == [] then 0 else Moved(events[..|events| - 1]) + if Moves(events[|events| - 1]) then 1 else 0
  }

  /** So a run in which sockets open a given number of times moves a bounded number
      of times, however it is continued. */
  lemma {:induction false} RunsEnd(events: seq<Event>, o: Settings)
    requires StartedOnce(events, o)
    ensures Moved(events) + Height(After(STARTED, events, o), o)
         <= Opened(events) * (3 * o.maxAttempts + 2) + 3 * o.maxAttempts + 2
    ensures Moved(events) <= Opened(events) * (3 * o.maxAttempts + 2) + 3 * o.maxAttempts + 2
  {
    if events != [] {
      var before := events[..|events| - 1];
      RunsEnd(before, o);
      StartedOnceSingle(before, o);
      MovesDescend(After(STARTED, before, o), events[|events| - 1], o);
      Distribute(Opened(before), 3 * o.maxAttempts + 2);
      hide Handle, Height;
    }
    StartedOnceSingle(events, o);
    MovesDescend(After(STARTED, events, o), Stop, o);
  }

  // ---- what the user is told ----

  /** The state shown last. */
  function LastShown(log: seq<Act>): Option<Shown> {
    if log == [] then None
    else if log[|log| - 1].Emit? then Some(log[|log| - 1].shown)
    else LastShown(log[..|log| - 1])
  }

  lemma ShownAppend(log: seq<Act>, act: Act)
    ensures LastShown(log + [act]) == if act.Emit? then Some(act.shown) else LastShown(log)
  {
    assert (log + [act])[..|log|] == log;
  }

  /** A socket that `stop` closed delivers no open and no message. */
  predicate Polite(s: State, e: Event) {
    s.stopped ==> (e.Opens? ==> e.id !in s.browser.closing) && (e.Receives? ==> e.id !in s.browser.closing)
  }

  ghost predicate PoliteRun(s: State, events: seq<Event>, o: Settings) {
    events != [] ==>
      var before := events[..|events| - 1];
      PoliteRun(s, before, o) && Polite(After(s, before, o), events[|events| - 1])
  }

  predicate Told(s: State) {
    && (s.stopped ==> LastShown(s.browser.log) == Some(Disconnected))
    && (Quiet(s) ==> LastShown(s.browser.log) in {Some(Denied), Some(Disconnected)})
  }

  lemma HandleTells(s: State, e: Event, o: Settings)
    requires Single(s, o) && Told(s) && Possible(s, e) && Polite(s, e) && !e.Start?
    ensures Told(Handle(s, e, o))
  {
    var b, t := s.browser, Handle(s, e, o);
    ShownAppend(b.log, CloseSocket(if s.socket.Some? then s.socket.value else 0, 1000));
    ShownAppend(b.log, CloseSocket(if s.socket.Some? then s.socket.value else 0, 1005));
    ShownAppend(CloseOwn(s, 1000).browser.log, Emit(Disconnected));
    ShownAppend(b.log, Emit(Denied));
    ShownAppend(b.log, Emit(Disconnected));
    hide LastShown;
  }

  /** When nothing is under way any more the user has been told denied or disconnected,
      and once stopped, disconnected. */
  lemma {:induction false} EndsToldOff(events: seq<Event>, o: Settings)
    requires StartedOnce(events, o) && PoliteRun(STARTED, events, o)
    ensures Told(After(STARTED, events, o))
  {
    if events != [] {
      var before := events[..|events| - 1];
      EndsToldOff(before, o);
      StartedOnceSingle(before, o);
      HandleTells(After(STARTED, before, o), events[|events| - 1], o);
    }
  }

  /** All acts but asking a socket to close. */
  function Noticed(log: seq<Act>): seq<Act> {
    if log == [] then []
    else Noticed(log[..|log| - 1]) + if log[|log| - 1].CloseSocket? then [] else [log[|log| - 1]]
  }

  lemma NoticedAppend(log: seq<Act>, act: Act)
    ensures Noticed(log + [act]) == Noticed(log) + if act.CloseSocket? then [] else [act]
  {
    assert (log + [act])[..|log|] == log;
  }

  /** After `stop` nothing is shown, delivered, requested or armed until the next
      `start` or `stop`, whatever was under way. */
  lemma {:induction false} SilentAfterStop(s: State, events: seq<Event>, o: Settings)
    requires Single(s, o) && s.stopped
    requires Run(s, events, o) && PoliteRun(s, events, o)
    requires forall i :: 0 <= i < |events| ==> !events[i].Start? && !events[i].Stop?
    ensures var t := After(s, events, o);
            t.stopped && Single(t, o) && Noticed(t.browser.log) == Noticed(s.browser.log)
  {
    if events != [] {
      var before, last := events[..|events| - 1], events[|events| - 1];
      SilentAfterStop(s, before, o);
      var t := After(s, before, o);
      HandleKeepsSingle(t, last, o);
      NoticedAppend(t.browser.log, CloseSocket(if t.socket.Some? then t.socket.value else 0, 1005));
    }
  }

  // ---- the bounds are reached ----

  /** Every request fails; the timers are numbered from one. */
  function Failing(rounds: nat): seq<Event> {
    if rounds == 0 then [] else Failing(rounds - 1) + [TicketFails(false), Fires(rounds)]
  }

  lemma AfterOne(s: State, events: seq<Event>, e: Event, o: Settings)
    ensures After(s, events + [e], o) == Handle(After(s, events, o), e, o)
    ensures Run(s, events + [e], o) <==>
            Run(s, events, o) && Possible(After(s, events, o), e) && Careful(After(s, events, o), e)
  {
    assert (events + [e])[..|events|] == events;
    hide Handle;
  }

  lemma AfterTwo(s: State, events: seq<Event>, e: Event, f: Event, o: Settings)
    ensures After(s, events + [e, f], o) == Handle(Handle(After(s, events, o), e, o), f, o)
    ensures Run(s, events + [e, f], o) <==>
            && Run(s, events, o) && Possible(After(s, events, o), e) && Careful(After(s, events, o), e)
            && Possible(Handle(After(s, events, o), e, o), f) && Careful(Handle(After(s, events, o), e, o), f)
  {
    var all := events + [e, f];
    assert all[..|all| - 1] == events + [e];
    assert (events + [e])[..|events|] == events;
    hide Handle, Possible, Careful;
  }

  /** No delay of the first rounds reaches the cap. */
  predicate Uncapped(rounds: nat, o: Settings) {
    rounds > 0 ==> o.baseDelayMs * Pow(2, rounds - 1) <= 15000
  }

  /** Waiting for another ticket after so many failures, having spent the whole bound. */
  predicate Exhausting(s: State, rounds: nat, o: Settings) {
    && !s.stopped && s.attempts == rounds
    && s.browser.tickets == 1 && s.browser.timers == {} && s.browser.sockets == {} && s.browser.serial == rounds + 1
    && Requests(s.browser.log) == rounds + 1 && Backoff(s.browser.log) == Worst(rounds, o)
  }

  lemma FailingRound(s: State, rounds: nat, o: Settings)
    requires Exhausting(s, rounds, o) && rounds < o.maxAttempts && o.baseDelayMs * Pow(2, rounds) <= 15000
    ensures var t := Handle(s, TicketFails(false), o);
            Possible(s, TicketFails(false)) && Possible(t, Fires(rounds + 1))
            && Exhausting(Handle(t, Fires(rounds + 1), o), rounds + 1, o)
  {
    var log, act := s.browser.log, ArmTimer(rounds + 1, Delay(rounds, o));
    ActCosts(log, Emit(Reconnecting));
    ActCosts(log + [Emit(Reconnecting)], act);
    ActCosts(log + [Emit(Reconnecting)] + [act], Emit(Reconnecting));
    ActCosts(log + [Emit(Reconnecting)] + [act] + [Emit(Reconnecting)], RequestTicket);
    WorstStep(rounds, o);
    hide Requests, Backoff, Worst, Pow, Delay;
  }

  lemma StartedExhausting(o: Settings)
    ensures Exhausting(STARTED, 0, o)
  {
    ActCosts([], Emit(Connecting));
    ActCosts([Emit(Connecting)], RequestTicket);
    assert [] + [Emit(Connecting)] == [Emit(Connecting)];
    WorstStep(0, o);
  }

  lemma {:induction false} FailingNeverStarts(rounds: nat)
    ensures forall i :: 0 <= i < |Failing(rounds)| ==> !Failing(rounds)[i].Start?
  {
    if rounds > 0 {
      FailingNeverStarts(rounds - 1);
    }
  }

  lemma FailingLast(rounds: nat, o: Settings)
    ensures rounds == 0 ==>
              Failing(rounds) == [] && After(STARTED, Failing(rounds), o) == STARTED && Run(STARTED, Failing(rounds), o)
    ensures rounds > 0 ==> Failing(rounds) == Failing(rounds - 1) + [TicketFails(false), Fires(rounds)]
  {}

  lemma {:induction false} FailingRounds(rounds: nat, o: Settings)
    requires rounds <= o.maxAttempts && Uncapped(rounds, o)
    ensures Run(STARTED, Failing(rounds), o) && Exhausting(After(STARTED, Failing(rounds), o), rounds, o)
  {
    hide After, Run, Pow, STARTED, Exhausting, Handle, Possible, Uncapped, Failing;
    FailingLast(rounds, o);
    if rounds == 0 {
      StartedExhausting(o);
    } else {
      Halved(rounds, o);
      FailingRounds(rounds - 1, o);
      AfterTwo(STARTED, Failing(rounds - 1), TicketFails(false), Fires(rounds), o);
      FailingRound(After(STARTED, Failing(rounds - 1), o), rounds - 1, o);
    }
  }

  lemma Halved(rounds: nat, o: Settings)
    requires rounds > 0 && Uncapped(rounds, o)
    ensures Uncapped(rounds - 1, o) && o.baseDelayMs * Pow(2, rounds - 1) <= 15000
  {
    if rounds > 1 {
      var p := Pow(2, rounds - 2);
      assert o.baseDelayMs * (2 * p) == 2 * (o.baseDelayMs * p);
    }
  }

  /** An object whose every request fails makes all maxAttempts + 1 of them, waits the
      whole bound while no delay is capped, and ends disconnected. */
  lemma BoundsAreReached(o: Settings)
    requires Uncapped(o.maxAttempts, o)
    ensures var events := Failing(o.maxAttempts) + [TicketFails(false)];
            var s := After(STARTED, events, o);
            && StartedOnce(events, o) && Quiet(s) && LastShown(s.browser.log) == Some(Disconnected)
            && Requests(s.browser.log) == o.maxAttempts + 1 && Backoff(s.browser.log) == Worst(o.maxAttempts, o)
  {
    hide *;
    var events := Failing(o.maxAttempts);
    FailingRounds(o.maxAttempts, o);
    FailingNeverStarts(o.maxAttempts);
    LastFailure(After(STARTED, events, o), o);
    AfterOne(STARTED, events, TicketFails(false), o);
    StartedOnceAppend(events, TicketFails(false), o);
  }

  lemma LastFailure(s: State, o: Settings)
    requires Exhausting(s, o.maxAttempts, o)
    ensures Possible(s, TicketFails(false)) && Careful(s, TicketFails(false))
    ensures var t := Handle(s, TicketFails(false), o);
            && Quiet(t) && LastShown(t.browser.log) == Some(Disconnected)
            && Requests(t.browser.log) == o.maxAttempts + 1 && Backoff(t.browser.log) == Worst(o.maxAttempts, o)
  {
    hide Requests, Backoff, LastShown, Worst, Pow;
    ActCosts(s.browser.log, Emit(Disconnected));
    ShownAppend(s.browser.log, Emit(Disconnected));
  }

  lemma StartedOnceAppend(events: seq<Event>, e: Event, o: Settings)
    requires Run(STARTED, events + [e], o) && !e.Start?
    requires forall i :: 0 <= i < |events| ==> !events[i].Start?
    ensures StartedOnce(events + [e], o)
  {
    hide Run, STARTED;
  }
}
