/**
 * The chat session store of `src/stores/chatStore.tsx`.
 *
 * Here the socket is a handle in the store: `connectSocket` creates a new
 * socket with listeners for `connect` and `receive_message` (none for
 * `disconnect`) and stores it; `disconnectSocket` closes the stored socket
 * and clears the handle.  `joinRoom` and `sendMessage` act only while a
 * socket is stored, and received messages are stored as they arrive.
 *
 * Every socket `io(...)` has created is kept in `sockets`, and the handle
 * is an index into it, so that a socket the store has lost track of (one
 * replaced by a second `connectSocket`) is still there to deliver events.
 */
module ChatStore {
  import opened Wrappers
  import opened Timestamps
  import opened Transport
  import JsText

  const DefaultRoom: string := "general"
  const DefaultUser: string := "Anonymous"

  /** What the store emits on a socket; `send_message` carries no timestamp here. */
  datatype Emit = JoinRoomEmit(room: string) | SendMessageEmit(room: string, user: string, text: string)

  /** One socket.io client socket: its listener table, whether it still
      delivers events (it stops once `disconnect()` is called on it), and
      the events emitted on it. */
  datatype Socket = Socket(listeners: Listeners, open: bool, emitted: seq<Emit>)

  type SocketId = nat

  /** The store's fields, and every socket created so far. */
  datatype State = State(
    messages: seq<ReceivedMessage>,
    room: string,
    user: string,
    socket: Option<SocketId>,
    isConnected: bool,
    sockets: seq<Socket>)

  /** The store's actions, and the inbound events a given socket fires. */
  datatype Action =
    | ConnectSocketCall
    | DisconnectSocketCall
    | JoinRoomCall(room: string)
    | SendMessageCall(text: string)
    | SetUserCall(user: string)
    | ConnectEvent(from: SocketId)
    | DisconnectEvent(from: SocketId)
    | ReceiveMessageEvent(from: SocketId, msg: ReceivedMessage)

  predicate IsInbound(a: Action) {
    a.ConnectEvent? || a.DisconnectEvent? || a.ReceiveMessageEvent?
  }

  /** The listeners `connectSocket` registers on the socket it creates. */
  const StoreListeners: Listeners := On(On(multiset{}, Connect), ReceiveMessage)

  /** The stored handle names an open socket, and every socket carries
      exactly the store's listeners. */
  predicate Inv(s: State) {
    && (s.socket.Some? ==> s.socket.value < |s.sockets| && s.sockets[s.socket.value].open)
    && (forall i :: 0 <= i < |s.sockets| ==> s.sockets[i].listeners == StoreListeners)
  }

  function Initial(): (s: State)
    ensures Inv(s)
  {
    State([], DefaultRoom, DefaultUser, None, false, [])
  }

  /** How many listeners for `e` run when socket `from` fires it: none once
      the socket is closed. */
  function Listening(s: State, from: SocketId, e: Event): nat {
    if from < |s.sockets| && s.sockets[from].open then s.sockets[from].listeners[e] else 0
  }

  /** Every socket keeps its listeners, and its emit log only grows. */
  predicate LogsGrow(before: seq<Socket>, after: seq<Socket>) {
    && |before| <= |after|
    && (forall i :: 0 <= i < |before| ==>
          after[i].listeners == before[i].listeners && before[i].emitted <= after[i].emitted)
  }

  /** `sockets[id].emit(...)`: `e` is logged on that socket and nowhere else. */
  function EmitOn(sockets: seq<Socket>, id: SocketId, e: Emit): (r: seq<Socket>)
    requires id < |sockets|
    ensures |r| == |sockets| && LogsGrow(sockets, r)
    ensures r[id] == sockets[id].(emitted := sockets[id].emitted + [e])
    ensures forall i :: 0 <= i < |r| && i != id ==> r[i] == sockets[i]
  {
    var x := sockets[id].(emitted := sockets[id].emitted + [e]);
    assert sockets[id].emitted <= x.emitted;
    sockets[id := x]
  }

  /** `sockets[id].disconnect()`: that socket stops delivering events. */
  function Close(sockets: seq<Socket>, id: SocketId): (r: seq<Socket>)
    requires id < |sockets|
    ensures |r| == |sockets| && LogsGrow(sockets, r)
    ensures r[id] == sockets[id].(open := false)
    ensures forall i :: 0 <= i < |r| && i != id ==> r[i] == sockets[i]
  {
    sockets[id := sockets[id].(open := false)]
  }

  /** The effect of one of the store's actions.  Actions never touch the
      message history. */
  function Act(s: State, a: Action): (r: State)
    requires Inv(s) && !IsInbound(a)
    ensures Inv(r)
    ensures r.messages == s.messages
    ensures LogsGrow(s.sockets, r.sockets)
    ensures a.ConnectSocketCall? ==> r.socket == Some(|s.sockets|) && |r.sockets| == |s.sockets| + 1
                                     && r.sockets[|s.sockets|] == Socket(StoreListeners, true, [])
  {
    match a
    case ConnectSocketCall =>
      s.(sockets := s.sockets + [Socket(StoreListeners, true, [])], socket := Some(|s.sockets|))
    case DisconnectSocketCall =>
      if s.socket.Some? then
        var id := s.socket.value;
        s.(sockets := Close(s.sockets, id), socket := None, isConnected := false)
      else
        s
    case JoinRoomCall(room) =>
      if s.socket.Some? then
        s.(sockets := EmitOn(s.sockets, s.socket.value, JoinRoomEmit(room)), room := room)
      else
        s
    case SendMessageCall(text) =>
      if s.socket.Some? && JsText.Trim(text) != "" then
        s.(sockets := EmitOn(s.sockets, s.socket.value, SendMessageEmit(s.room, s.user, text)))
      else
        s
    case SetUserCall(user) =>
      s.(user := user)
  }

  /** The effect of an inbound event: the listeners the firing socket has
      for it run, if the socket is open.  Events never touch the room, the
      user or the sockets. */
  function Deliver(s: State, a: Action): (r: State)
    requires IsInbound(a)
    ensures r == s.(messages := r.messages, isConnected := r.isConnected)
    ensures s.messages <= r.messages
    ensures a.DisconnectEvent? ==> r == s
  {
    match a
    case ConnectEvent(from) =>
      if Listening(s, from, Connect) > 0 then s.(isConnected := true) else s
    case DisconnectEvent(_) =>
      // no listener for `disconnect` is ever registered
      s
    case ReceiveMessageEvent(from, m) =>
      s.(messages := s.messages + Copies(m, Listening(s, from, ReceiveMessage)))
  }

  /** The effect of one action or inbound event. */
  function Apply(s: State, a: Action): (r: State)
    requires Inv(s)
    ensures Inv(r)
    ensures s.messages <= r.messages
    ensures LogsGrow(s.sockets, r.sockets)
  {
    if IsInbound(a) then
      var r := Deliver(s, a);
      assert r.sockets == s.sockets;
      r
    else
      Act(s, a)
  }

  /** The effect of a sequence of actions and events, in order. */
  function Run(s: State, actions: seq<Action>): (r: State)
    requires Inv(s)
    ensures Inv(r)
    ensures s.messages <= r.messages
    ensures |s.sockets| <= |r.sockets|
    decreases |actions|
  {
    if actions == [] then s else Run(Apply(s, actions[0]), actions[1..])
  }

  /** No store declares a `disconnect` listener, so a dropped connection
      is never reported: an open socket runs none for that event. */
  lemma NoDisconnectListener(s: State, from: SocketId)
    requires Inv(s)
    ensures Listening(s, from, Disconnect) == 0
  {
  }

  /** Disconnecting twice is disconnecting once, and with no socket stored
      `disconnectSocket` changes nothing. */
  lemma DisconnectSocketIdempotent(s: State)
    requires Inv(s)
    ensures var d := Apply(s, DisconnectSocketCall);
            && Apply(d, DisconnectSocketCall) == d
            && d.socket.None?
            && (s.socket.Some? ==> !d.isConnected && !d.sockets[s.socket.value].open)
            && (s.socket.None? ==> d == s)
  {
  }

  /** The socket-present guards: with no socket stored, `joinRoom` and
      `sendMessage` change nothing, so the room stays as it was and
      nothing is emitted. */
  lemma NoSocketGuards(s: State, room: string, text: string)
    requires Inv(s) && s.socket.None?
    ensures Apply(s, JoinRoomCall(room)) == s
    ensures Apply(s, SendMessageCall(text)) == s
  {
  }

  /** With a socket stored, `joinRoom(r)` emits `join_room(r)` on it and
      sets the room; nothing else changes. */
  lemma JoinRoomWithSocket(s: State, room: string)
    requires Inv(s) && s.socket.Some?
    ensures var id := s.socket.value;
            var r := Apply(s, JoinRoomCall(room));
            && r.room == room
            && r.sockets[id].emitted == s.sockets[id].emitted + [JoinRoomEmit(room)]
            && r == s.(room := room, sockets := r.sockets)
            && (forall i :: 0 <= i < |s.sockets| && i != id ==> r.sockets[i] == s.sockets[i])
  {
  }

  /** `sendMessage(text)` never changes the store's own fields, and emits
      one `send_message` on the stored socket exactly when there is one and
      the text is not blank. */
  lemma SendMessageGuard(s: State, text: string)
    requires Inv(s)
    ensures var r := Apply(s, SendMessageCall(text));
            && r.messages == s.messages && r.room == s.room && r.user == s.user
            && r.socket == s.socket && r.isConnected == s.isConnected
            && (s.socket.None? || JsText.IsBlank(text) ==> r == s)
            && (s.socket.Some? && !JsText.IsBlank(text) ==>
                  r.sockets == EmitOn(s.sockets, s.socket.value, SendMessageEmit(s.room, s.user, text)))
  {
    JsText.TrimEmptyIffBlank(text);
  }

  /** One `receive_message` event from socket `from` per payload, in order. */
  function Deliveries(from: SocketId, ms: seq<ReceivedMessage>): seq<Action> {
    if ms == [] then [] else [ReceiveMessageEvent(from, ms[0])] + Deliveries(from, ms[1..])
  }

  lemma ReceiveOnStoredSocket(s: State, from: SocketId, m: ReceivedMessage)
    requires Inv(s) && s.socket == Some(from)
    ensures Apply(s, ReceiveMessageEvent(from, m)) == s.(messages := s.messages + [m])
  {
    assert Listening(s, from, ReceiveMessage) == 1;
    assert Copies(m, 1) == [m];
  }

  /** FIFO: messages arriving on the stored socket are appended unmodified,
      in arrival order, after the earlier history; nothing else changes. */
  lemma {:induction false} ReceivesAreFifo(s: State, from: SocketId, ms: seq<ReceivedMessage>)
    requires Inv(s) && s.socket == Some(from)
    ensures Run(s, Deliveries(from, ms)) == s.(messages := s.messages + ms)
    decreases |ms|
  {
    if ms == [] {
      assert s.messages + ms == s.messages;
    } else {
      var s1 := s.(messages := s.messages + [ms[0]]);
      assert Inv(s1);
      calc {
        Run(s, Deliveries(from, ms));
        { assert Deliveries(from, ms) == [ReceiveMessageEvent(from, ms[0])] + Deliveries(from, ms[1..]);
          assert Deliveries(from, ms)[1..] == Deliveries(from, ms[1..]); }
        Run(Apply(s, ReceiveMessageEvent(from, ms[0])), Deliveries(from, ms[1..]));
        { ReceiveOnStoredSocket(s, from, ms[0]); }
        Run(s1, Deliveries(from, ms[1..]));
        { ReceivesAreFifo(s1, from, ms[1..]); }
        s1.(messages := s1.messages + ms[1..]);
        { assert s1.messages + ms[1..] == s.messages + ms by { assert ms == [ms[0]] + ms[1..]; } }
        s.(messages := s.messages + ms);
      }
    }
  }

  /** True of inbound events fired by socket `from`. */
  predicate FromSocket(a: Action, from: SocketId) {
    IsInbound(a) && a.from == from
  }

  /** A closed socket is silent: no sequence of events it fires changes
      anything. */
  lemma {:induction false} ClosedSocketIsInert(s: State, from: SocketId, events: seq<Action>)
    requires Inv(s) && from < |s.sockets| && !s.sockets[from].open
    requires forall i :: 0 <= i < |events| ==> FromSocket(events[i], from)
    ensures Run(s, events) == s
    decreases |events|
  {
    if events != [] {
      assert Apply(s, events[0]) == s;
      ClosedSocketIsInert(s, from, events[1..]);
    }
  }

  /** After `disconnectSocket`, late events from the socket it closed
      change nothing. */
  lemma DisconnectSocketSilences(s: State, events: seq<Action>)
    requires Inv(s) && s.socket.Some?
    requires forall i :: 0 <= i < |events| ==> FromSocket(events[i], s.socket.value)
    ensures var d := Apply(s, DisconnectSocketCall);
            Run(d, events) == d
  {
    ClosedSocketIsInert(Apply(s, DisconnectSocketCall), s.socket.value, events);
  }

  /** A second `connectSocket` without a `disconnectSocket` between them
      leaves the first socket open with its listeners: after the store is
      disconnected, that socket's `connect` still marks it connected while
      no socket is stored. */
  lemma ReconnectCallLeaksSocket()
    ensures var s1 := Apply(Initial(), ConnectSocketCall);
            var s2 := Apply(s1, ConnectSocketCall);
            var s3 := Apply(s2, DisconnectSocketCall);
            var s4 := Apply(s3, ConnectEvent(0));
            && s3.socket.None? && !s3.isConnected
            && s3.sockets[0].open
            && s4.socket.None? && s4.isConnected
  {
    var s1 := Apply(Initial(), ConnectSocketCall);
    var s2 := Apply(s1, ConnectSocketCall);
    var s3 := Apply(s2, DisconnectSocketCall);
    assert s3.sockets[0] == Socket(StoreListeners, true, []);
    assert Listening(s3, 0, Connect) == 1;
  }

  /** The store.  `sockets` is the transport: every socket `io(...)` has
      created; `socket` is the handle the store holds. */
  class Store {
    var messages: seq<ReceivedMessage>
    var room: string
    var user: string
    var socket: Option<SocketId>
    var isConnected: bool
    var sockets: seq<Socket>

    function Snapshot(): State
      reads this
    {
      State(messages, room, user, socket, isConnected, sockets)
    }

    ghost predicate Valid()
      reads this
    {
      Inv(Snapshot())
    }

    constructor ()
      ensures Valid() && Snapshot() == Initial()
      ensures messages == [] && room == "general" && user == "Anonymous"
      ensures socket.None? && !isConnected
    {
      messages, room, user := [], DefaultRoom, DefaultUser;
      socket, isConnected, sockets := None, false, [];
    }

    method ConnectSocket()
      requires Valid()
      modifies this
      ensures Valid() && Snapshot() == Apply(old(Snapshot()), ConnectSocketCall)
      ensures socket == Some(|old(sockets)|)
      ensures sockets == old(sockets) + [Socket(StoreListeners, true, [])]
      ensures Snapshot() == old(Snapshot()).(socket := socket, sockets := sockets)
    {
      var id := |sockets|;
      sockets := sockets + [Socket(On(On(multiset{}, Connect), ReceiveMessage), true, [])];
      socket := Some(id);
    }

    method DisconnectSocket()
      requires Valid()
      modifies this
      ensures Valid() && Snapshot() == Apply(old(Snapshot()), DisconnectSocketCall)
      ensures old(socket).None? ==> Snapshot() == old(Snapshot())
      ensures old(socket).Some? ==>
        Snapshot() == old(Snapshot()).(socket := None, isConnected := false,
          sockets := Close(old(sockets), old(socket).value))
    {
      if socket.Some? {
        var id := socket.value;
        sockets := Close(sockets, id);
        socket, isConnected := None, false;
      }
    }

    method JoinRoom(r: string)
      requires Valid()
      modifies this
      ensures Valid() && Snapshot() == Apply(old(Snapshot()), JoinRoomCall(r))
      ensures old(socket).None? ==> Snapshot() == old(Snapshot())
      ensures old(socket).Some? ==>
        Snapshot() == old(Snapshot()).(room := r, sockets := EmitOn(old(sockets), old(socket).value, JoinRoomEmit(r)))
    {
      if socket.Some? {
        sockets := EmitOn(sockets, socket.value, JoinRoomEmit(r));
        room := r;
      }
    }

    method SendMessage(text: string)
      requires Valid()
      modifies this
      ensures Valid() && Snapshot() == Apply(old(Snapshot()), SendMessageCall(text))
      ensures old(socket).None? || JsText.IsBlank(text) ==> Snapshot() == old(Snapshot())
      ensures old(socket).Some? && !JsText.IsBlank(text) ==>
        Snapshot() == old(Snapshot()).(sockets := EmitOn(old(sockets), old(socket).value, SendMessageEmit(room, user, text)))
    {
      JsText.TrimEmptyIffBlank(text);
      if socket.Some? && JsText.Trim(text) != "" {
        sockets := EmitOn(sockets, socket.value, SendMessageEmit(room, user, text));
      }
    }

    method SetUser(u: string)
      requires Valid()
      modifies this
      ensures Valid() && Snapshot() == Apply(old(Snapshot()), SetUserCall(u))
      ensures Snapshot() == old(Snapshot()).(user := u)
    {
      user := u;
    }

    /** Socket `from` fires `connect`. */
    method DeliverConnect(from: SocketId)
      requires Valid()
      modifies this
      ensures Valid() && Snapshot() == Apply(old(Snapshot()), ConnectEvent(from))
      ensures Snapshot() == old(Snapshot()).(isConnected := Listening(old(Snapshot()), from, Connect) > 0 || old(isConnected))
    {
      if from < |sockets| && sockets[from].open && sockets[from].listeners[Connect] > 0 {
        isConnected := true;
      }
    }

    /** Socket `from` fires `disconnect`: no listener runs. */
    method DeliverDisconnect(from: SocketId)
      requires Valid()
      modifies this
      ensures Valid() && Snapshot() == Apply(old(Snapshot()), DisconnectEvent(from))
      ensures Snapshot() == old(Snapshot())
    {
    }

    /** Socket `from` fires `receive_message` with payload `m`. */
    method DeliverReceiveMessage(from: SocketId, m: ReceivedMessage)
      requires Valid()
      modifies this
      ensures Valid() && Snapshot() == Apply(old(Snapshot()), ReceiveMessageEvent(from, m))
      ensures Snapshot() == old(Snapshot()).(messages := old(messages) + Copies(m, Listening(old(Snapshot()), from, ReceiveMessage)))
    {
      var k := if from < |sockets| && sockets[from].open then sockets[from].listeners[ReceiveMessage] else 0;
      messages := messages + Copies(m, k);
    }
  }
}
