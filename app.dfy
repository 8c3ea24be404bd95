/**
 * The chat session store of `src/App.js`.
 *
 * One module-level socket serves the whole program.  `connectSocket`
 * registers three listeners on it, `disconnectSocket` removes every
 * listener for those three names, `joinRoom` always emits, and every
 * received message is stored with its timestamp turned into a `Date`.
 *
 * The store is a class whose fields the actions overwrite; `State` is its
 * value, `Apply` says what each action or inbound event does to that value,
 * and the lemmas below are about `Apply` and its trace extension `Run`.
 */
module App {
  import opened Timestamps
  import opened Transport
  import JsText

  const DefaultRoom: string := "general"
  const DefaultUser: string := "Anonymous"
  const InvalidDateText: string := "Invalid Date"

  /** A stored message: the payload with its timestamp normalised to a `Date`. */
  datatype Message = Message(room: string, user: string, text: string, timestamp: Timestamp)

  /** What the store emits on the socket. */
  datatype Emit = JoinRoomEmit(room: string) | SendMessageEmit(msg: Message)

  /** The store's fields, together with the module-level socket's listener
      table and the log of everything emitted on it. */
  datatype State = State(
    messages: seq<Message>,
    room: string,
    user: string,
    isConnected: bool,
    listeners: Listeners,
    emitted: seq<Emit>)

  /** The store's actions (`now` is the clock reading `new Date()` takes,
      in milliseconds; `new Date()` keeps it through TimeClip) and the
      socket's inbound events. */
  datatype Action =
    | ConnectSocketCall
    | DisconnectSocketCall
    | JoinRoomCall(room: string)
    | SendMessageCall(text: string, now: int)
    | SetUserCall(user: string)
    | ConnectEvent
    | DisconnectEvent
    | ReceiveMessageEvent(msg: ReceivedMessage)

  predicate IsInbound(a: Action) {
    a.ConnectEvent? || a.DisconnectEvent? || a.ReceiveMessageEvent?
  }

  function Initial(): State {
    State([], DefaultRoom, DefaultUser, false, multiset{}, [])
  }

  /** `{ ...newMessage, timestamp: new Date(newMessage.timestamp) }` */
  function WithDate(m: ReceivedMessage, parse: DateParser): (r: Message)
    ensures r.room == m.room && r.user == m.user && r.text == m.text
    ensures r.timestamp.Valid? <==> Readable(m.timestamp, parse)
    ensures m.timestamp.Millis? && InRange(m.timestamp.ms) ==> r.timestamp == Valid(m.timestamp.ms)
    ensures m.timestamp.Text? && parse(m.timestamp.text).Some? && InRange(parse(m.timestamp.text).value) ==>
              r.timestamp == Valid(parse(m.timestamp.text).value)
  {
    Message(m.room, m.user, m.text, ToDate(m.timestamp, parse))
  }

  /** No listener is registered for any of the three inbound events. */
  predicate Unsubscribed(l: Listeners) {
    l[Connect] == 0 && l[Disconnect] == 0 && l[ReceiveMessage] == 0
  }

  /** The effect of one of the store's actions.  Actions never touch the
      message history or the connected flag, and emit at most one event. */
  function Act(s: State, a: Action): (r: State)
    requires !IsInbound(a)
    ensures r == s.(room := r.room, user := r.user, listeners := r.listeners, emitted := r.emitted)
    ensures s.emitted <= r.emitted && |r.emitted| <= |s.emitted| + 1
    ensures a.DisconnectSocketCall? ==> Unsubscribed(r.listeners)
  {
    match a
    case ConnectSocketCall =>
      s.(listeners := On(On(On(s.listeners, Connect), Disconnect), ReceiveMessage))
    case DisconnectSocketCall =>
      s.(listeners := Off(Off(Off(s.listeners, Connect), Disconnect), ReceiveMessage))
    case JoinRoomCall(room) =>
      s.(emitted := s.emitted + [JoinRoomEmit(room)], room := room)
    case SendMessageCall(text, now) =>
      if JsText.Trim(text) != "" then
        s.(emitted := s.emitted + [SendMessageEmit(Message(s.room, s.user, text, Clip(now)))])
      else
        s
    case SetUserCall(user) =>
      s.(user := user)
  }

  /** The effect of an inbound event: each listener registered for its name
      runs once.  Events never touch the room, the user, the listeners or
      the emit log, and with no listener they change nothing. */
  function Deliver(s: State, a: Action, parse: DateParser): (r: State)
    requires IsInbound(a)
    ensures r == s.(messages := r.messages, isConnected := r.isConnected)
    ensures s.messages <= r.messages
    ensures Unsubscribed(s.listeners) ==> r == s
  {
    match a
    case ConnectEvent =>
      if s.listeners[Connect] > 0 then s.(isConnected := true) else s
    case DisconnectEvent =>
      if s.listeners[Disconnect] > 0 then s.(isConnected := false) else s
    case ReceiveMessageEvent(m) =>
      s.(messages := s.messages + Copies(WithDate(m, parse), s.listeners[ReceiveMessage]))
  }

  /** The effect of one action or inbound event. */
  function Apply(s: State, a: Action, parse: DateParser): (r: State)
    ensures s.messages <= r.messages && s.emitted <= r.emitted
  {
    if IsInbound(a) then Deliver(s, a, parse) else Act(s, a)
  }

  /** The effect of a sequence of actions and events, in order. */
  function Run(s: State, actions: seq<Action>, parse: DateParser): (r: State)
    ensures s.messages <= r.messages && s.emitted <= r.emitted
    decreases |actions|
  {
    if actions == [] then s else Run(Apply(s, actions[0], parse), actions[1..], parse)
  }

  lemma {:induction false} RunSnoc(s: State, actions: seq<Action>, a: Action, parse: DateParser)
    ensures Run(s, actions + [a], parse) == Apply(Run(s, actions, parse), a, parse)
    decreases |actions|
  {
    if actions == [] {
      assert [a][1..] == [];
    } else {
      assert (actions + [a])[1..] == actions[1..] + [a];
      RunSnoc(Apply(s, actions[0], parse), actions[1..], a, parse);
    }
  }

  /** The number of `connectSocket` calls since the last `disconnectSocket`. */
  function ConnectsSinceTeardown(actions: seq<Action>): nat {
    if actions == [] then 0
    else
      var last := actions[|actions| - 1];
      if last.DisconnectSocketCall? then 0
      else ConnectsSinceTeardown(actions[..|actions| - 1]) + (if last.ConnectSocketCall? then 1 else 0)
  }

  /** How one step changes the listener count of each of the three events. */
  lemma ListenersStep(s: State, a: Action, e: Event, parse: DateParser)
    ensures Apply(s, a, parse).listeners[e] ==
      if a.DisconnectSocketCall? then 0
      else if a.ConnectSocketCall? then s.listeners[e] + 1
      else s.listeners[e]
  {
  }

  /** Handler registration is not de-duplicated: from the initial state,
      each of the three events has exactly one listener per `connectSocket`
      call since the last `disconnectSocket`. */
  lemma {:induction false} ListenersCountConnects(actions: seq<Action>, parse: DateParser)
    ensures var l := Run(Initial(), actions, parse).listeners;
            l[Connect] == l[Disconnect] == l[ReceiveMessage] == ConnectsSinceTeardown(actions)
    decreases |actions|
  {
    if actions != [] {
      var front := actions[..|actions| - 1];
      var last := actions[|actions| - 1];
      assert actions == front + [last];
      RunSnoc(Initial(), front, last, parse);
      ListenersCountConnects(front, parse);
      var before := Run(Initial(), front, parse);
      ListenersStep(before, last, Connect, parse);
      ListenersStep(before, last, Disconnect, parse);
      ListenersStep(before, last, ReceiveMessage, parse);
    }
  }

  /** A `receive_message` event appends one copy of the date-normalised
      payload per registered listener and changes nothing else. */
  lemma ReceiveAppendsPerListener(s: State, m: ReceivedMessage, parse: DateParser)
    ensures var r := Apply(s, ReceiveMessageEvent(m), parse);
            && |r.messages| == |s.messages| + s.listeners[ReceiveMessage]
            && r.messages[..|s.messages|] == s.messages
            && (forall i :: |s.messages| <= i < |r.messages| ==> r.messages[i] == WithDate(m, parse))
            && r == s.(messages := r.messages)
  {
  }

  /** The ordered list of what one listener stores for each payload. */
  function Stamped(ms: seq<ReceivedMessage>, parse: DateParser): seq<Message> {
    if ms == [] then [] else [WithDate(ms[0], parse)] + Stamped(ms[1..], parse)
  }

  /** One `receive_message` event per payload, in order. */
  function Deliveries(ms: seq<ReceivedMessage>): seq<Action> {
    if ms == [] then [] else [ReceiveMessageEvent(ms[0])] + Deliveries(ms[1..])
  }

  lemma ReceiveWithOneListener(s: State, m: ReceivedMessage, parse: DateParser)
    requires s.listeners[ReceiveMessage] == 1
    ensures Apply(s, ReceiveMessageEvent(m), parse) == s.(messages := s.messages + [WithDate(m, parse)])
  {
    assert Copies(WithDate(m, parse), 1) == [WithDate(m, parse)];
  }

  /** FIFO: with one `receive_message` listener, a run of received messages
      is appended in arrival order after the earlier history, and nothing
      else changes. */
  lemma {:induction false} ReceivesAreFifo(s: State, ms: seq<ReceivedMessage>, parse: DateParser)
    requires s.listeners[ReceiveMessage] == 1
    ensures Run(s, Deliveries(ms), parse) == s.(messages := s.messages + Stamped(ms, parse))
    decreases |ms|
  {
    if ms == [] {
      assert s.messages + Stamped(ms, parse) == s.messages;
    } else {
      var x := WithDate(ms[0], parse);
      var s1 := s.(messages := s.messages + [x]);
      calc {
        Run(s, Deliveries(ms), parse);
        { assert Deliveries(ms) == [ReceiveMessageEvent(ms[0])] + Deliveries(ms[1..]);
          assert Deliveries(ms)[1..] == Deliveries(ms[1..]); }
        Run(Apply(s, ReceiveMessageEvent(ms[0]), parse), Deliveries(ms[1..]), parse);
        { ReceiveWithOneListener(s, ms[0], parse); }
        Run(s1, Deliveries(ms[1..]), parse);
        { ReceivesAreFifo(s1, ms[1..], parse); }
        s1.(messages := s1.messages + Stamped(ms[1..], parse));
        { assert s1.messages + Stamped(ms[1..], parse) == s.messages + Stamped(ms, parse) by {
            assert Stamped(ms, parse) == [x] + Stamped(ms[1..], parse);
          } }
        s.(messages := s.messages + Stamped(ms, parse));
      }
    }
  }

  /** Teardown: once no listener is registered, no sequence of inbound
      events changes anything. */
  lemma {:induction false} UnsubscribedIsInert(s: State, events: seq<Action>, parse: DateParser)
    requires Unsubscribed(s.listeners)
    requires forall i :: 0 <= i < |events| ==> IsInbound(events[i])
    ensures Run(s, events, parse) == s
    decreases |events|
  {
    if events != [] {
      UnsubscribedIsInert(Apply(s, events[0], parse), events[1..], parse);
    }
  }

  /** After `disconnectSocket`, late `connect`, `disconnect` and
      `receive_message` events leave the whole state as it was. */
  lemma DisconnectSocketSilences(s: State, events: seq<Action>, parse: DateParser)
    requires forall i :: 0 <= i < |events| ==> IsInbound(events[i])
    ensures var d := Apply(s, DisconnectSocketCall, parse);
            Run(d, events, parse) == d
  {
    UnsubscribedIsInert(Apply(s, DisconnectSocketCall, parse), events, parse);
  }

  /** `sendMessage`: one `send_message` emit carrying the current room, the
      current user and the untrimmed text exactly when the text is not
      blank; nothing at all otherwise. */
  lemma SendMessageGuard(s: State, text: string, now: int, parse: DateParser)
    ensures var r := Apply(s, SendMessageCall(text, now), parse);
            && (JsText.IsBlank(text) ==> r == s)
            && (!JsText.IsBlank(text) ==>
                  r == s.(emitted := s.emitted + [SendMessageEmit(Message(s.room, s.user, text, Clip(now)))]))
  {
    JsText.TrimEmptyIffBlank(text);
  }

  /** `formatTime`: anything that is not a valid `Date` shows as
      "Invalid Date", a valid one as its locale time of day. */
  datatype TimeValue = DateValue(date: Timestamp) | NotADate

  function FormatTime(v: TimeValue, localeTime: int -> string): (r: string)
    ensures v.DateValue? && v.date.Valid? ==> r == localeTime(v.date.instant)
    ensures !(v.DateValue? && v.date.Valid?) ==> r == InvalidDateText
  {
    match v
    case DateValue(Valid(t)) => localeTime(t)
    case _ => InvalidDateText
  }

  /** A stored message shows "Invalid Date" exactly when its payload's
      timestamp could not be read, provided the locale formatter itself
      never produces that text. */
  lemma StoredTimeShowsInvalidIffUnreadable(m: ReceivedMessage, parse: DateParser, localeTime: int -> string)
    requires forall t :: localeTime(t) != InvalidDateText
    ensures FormatTime(DateValue(WithDate(m, parse).timestamp), localeTime) == InvalidDateText
            <==> !Readable(m.timestamp, parse)
  {
  }

  /** The store.  Its fields are those of `useChatStore`; `listeners` and
      `emitted` stand for the module-level socket's listener table and the
      events emitted on it; `parseDate` is the host's `Date.parse`. */
  class Store {
    var messages: seq<Message>
    var room: string
    var user: string
    var isConnected: bool
    var listeners: Listeners
    var emitted: seq<Emit>
    const parseDate: DateParser

    function Snapshot(): State
      reads this
    {
      State(messages, room, user, isConnected, listeners, emitted)
    }

    constructor (parseDate: DateParser)
      ensures Snapshot() == Initial() && this.parseDate == parseDate
      ensures messages == [] && room == "general" && user == "Anonymous" && !isConnected
    {
      messages, room, user, isConnected := [], DefaultRoom, DefaultUser, false;
      listeners, emitted := multiset{}, [];
      this.parseDate := parseDate;
    }

    method ConnectSocket()
      modifies this
      ensures Snapshot() == Apply(old(Snapshot()), ConnectSocketCall, parseDate)
      ensures Snapshot() == old(Snapshot()).(listeners := old(listeners) + multiset{Connect, Disconnect, ReceiveMessage})
    {
      listeners := On(listeners, Connect);
      listeners := On(listeners, Disconnect);
      listeners := On(listeners, ReceiveMessage);
    }

    method DisconnectSocket()
      modifies this
      ensures Snapshot() == Apply(old(Snapshot()), DisconnectSocketCall, parseDate)
      ensures Snapshot() == old(Snapshot()).(listeners := listeners) && Unsubscribed(listeners)
    {
      listeners := Off(listeners, Connect);
      listeners := Off(listeners, Disconnect);
      listeners := Off(listeners, ReceiveMessage);
    }

    method JoinRoom(r: string)
      modifies this
      ensures Snapshot() == Apply(old(Snapshot()), JoinRoomCall(r), parseDate)
      ensures Snapshot() == old(Snapshot()).(room := r, emitted := old(emitted) + [JoinRoomEmit(r)])
    {
      emitted := emitted + [JoinRoomEmit(r)];
      room := r;
    }

    method SendMessage(text: string, now: int)
      modifies this
      ensures Snapshot() == Apply(old(Snapshot()), SendMessageCall(text, now), parseDate)
      ensures JsText.IsBlank(text) ==> Snapshot() == old(Snapshot())
      ensures !JsText.IsBlank(text) ==>
        Snapshot() == old(Snapshot()).(emitted := old(emitted) + [SendMessageEmit(Message(room, user, text, Clip(now)))])
    {
      JsText.TrimEmptyIffBlank(text);
      if JsText.Trim(text) != "" {
        emitted := emitted + [SendMessageEmit(Message(room, user, text, Clip(now)))];
      }
    }

    method SetUser(u: string)
      modifies this
      ensures Snapshot() == Apply(old(Snapshot()), SetUserCall(u), parseDate)
      ensures Snapshot() == old(Snapshot()).(user := u)
    {
      user := u;
    }

    /** The socket fires `connect`. */
    method DeliverConnect()
      modifies this
      ensures Snapshot() == Apply(old(Snapshot()), ConnectEvent, parseDate)
      ensures Snapshot() == old(Snapshot()).(isConnected := if old(listeners[Connect]) > 0 then true else old(isConnected))
    {
      if listeners[Connect] > 0 {
        isConnected := true;
      }
    }

    /** The socket fires `disconnect`. */
    method DeliverDisconnect()
      modifies this
      ensures Snapshot() == Apply(old(Snapshot()), DisconnectEvent, parseDate)
      ensures Snapshot() == old(Snapshot()).(isConnected := if old(listeners[Disconnect]) > 0 then false else old(isConnected))
    {
      if listeners[Disconnect] > 0 {
        isConnected := false;
      }
    }

    /** The socket fires `receive_message` with payload `m`. */
    method DeliverReceiveMessage(m: ReceivedMessage)
      modifies this
      ensures Snapshot() == Apply(old(Snapshot()), ReceiveMessageEvent(m), parseDate)
      ensures Snapshot() == old(Snapshot()).(messages := old(messages) + Copies(WithDate(m, parseDate), old(listeners[ReceiveMessage])))
    {
      messages := messages + Copies(WithDate(m, parseDate), listeners[ReceiveMessage]);
    }
  }

  /** `handleSendMessage` in the component: send and clear the input field
      when the input is not blank, otherwise leave both alone.  Returns the
      new content of the input field. */
  method HandleSendMessage(store: Store, messageInput: string, now: int) returns (nextInput: string)
    modifies store
    ensures JsText.IsBlank(messageInput) ==> nextInput == messageInput && store.Snapshot() == old(store.Snapshot())
    ensures !JsText.IsBlank(messageInput) ==> nextInput == ""
    ensures !JsText.IsBlank(messageInput) ==>
      store.Snapshot() == old(store.Snapshot()).(emitted := old(store.emitted)
        + [SendMessageEmit(Message(old(store.room), old(store.user), messageInput, Clip(now)))])
  {
    JsText.TrimEmptyIffBlank(messageInput);
    if JsText.Trim(messageInput) != "" {
      store.SendMessage(messageInput, now);
      nextInput := "";
    } else {
      nextInput := messageInput;
    }
  }

  /** The malformed-timestamp scenario: connected, a message whose
      timestamp is "not-a-date" arrives; history grows by one and the stored
      timestamp is the invalid sentinel. */
  lemma MalformedTimestampScenario(parse: DateParser)
    requires parse("not-a-date").None?
    ensures var m := ReceivedMessage("general", "Bo", "hi", Text("not-a-date"));
            var r := Apply(Apply(Apply(Initial(), ConnectSocketCall, parse), ConnectEvent, parse), ReceiveMessageEvent(m), parse);
            r.isConnected && r.messages == [Message("general", "Bo", "hi", Invalid)]
  {
    var m := ReceivedMessage("general", "Bo", "hi", Text("not-a-date"));
    var s1 := Apply(Initial(), ConnectSocketCall, parse);
    assert s1.listeners[Connect] == 1 && s1.listeners[ReceiveMessage] == 1;
    var s2 := Apply(s1, ConnectEvent, parse);
    assert s2 == s1.(isConnected := true);
    assert Copies(Message("general", "Bo", "hi", Invalid), 1) == [Message("general", "Bo", "hi", Invalid)];
  }
}
