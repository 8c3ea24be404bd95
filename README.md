# Chat session store — a Dafny model

This project models the client-side chat session store of a small socket.io
chat application. The store exists in two versions, and both are modelled:

- `src/App.js` (module `App`). One module-level socket serves the program.
  `connectSocket` registers listeners for `connect`, `disconnect` and
  `receive_message`. `disconnectSocket` removes every listener for those three
  names. `joinRoom` always emits `join_room` and sets the room. `sendMessage`
  emits `send_message` with room, user, the untrimmed text and the current time,
  but only when the trimmed text is non-empty. Each received message is stored
  with its timestamp converted by `new Date(...)`. The file also has two
  component helpers: `formatTime` and `handleSendMessage`.
- `src/stores/chatStore.tsx` (module `ChatStore`). `connectSocket` creates a
  new socket, registers listeners for `connect` and `receive_message` only, and
  stores the handle. `disconnectSocket` closes the stored socket and clears the
  handle and the connected flag. `joinRoom` and `sendMessage` act only while a
  socket is stored. Received messages are stored exactly as they arrive.

The transport is modelled abstractly (module `Transport`):

- a listener table per socket, as a multiset of event names;
- a log of everything emitted;
- inbound events as calls that run each registered listener once.

socket.io does not de-duplicate listeners. So calling `connectSocket` twice in
`App.js` makes each received message stored twice. The model keeps that
behaviour (`App.ListenersCountConnects`).

In the TypeScript store, a second `connectSocket` without `disconnectSocket`
orphans the first socket. That socket is never closed and still has its
listeners. The model therefore keeps every socket ever created (`sockets`), and
the stored handle is an index into that list (`ChatStore.ReconnectCallLeaksSocket`).

Each store is a class with the store's fields. `Snapshot()` gives the fields as
a `State` value. Every method is specified both ways:

- by an explicit description of its whole new state;
- by `Apply`, a function that gives the effect of one action or inbound event
  on a `State`.

`Run` extends `Apply` to a sequence of steps. The trace lemmas (FIFO order,
teardown, listener counts, guards) are proved about `Apply` and `Run`.

Supporting modules:

- `JsText` models JavaScript's `trim`. The stripped set is ECMAScript's
  WhiteSpace and LineTerminator code points.
- `Timestamps` models what `new Date(x)` yields. A result is either a valid
  instant within ECMAScript's TimeClip range (±8.64e15 ms) or the invalid
  sentinel.

The stores as written keep no `connecting` state and do not defer a join
until the socket connects. They register a handler again on every
`connectSocket` and store every received message, empty or not. The
TypeScript store registers no `disconnect` handler, so a dropped connection
never clears `isConnected` there, and its `send_message` payload carries no
timestamp.

## Model

| member | source | states |
|---|---|---|
| `JsText.TrimEmptyIffBlank` | src/App.js:52 | `trim(s)` is empty exactly when every character of `s` is a WhiteSpace/LineTerminator code point, so `if (text.trim())` passes exactly the non-blank texts |
| `JsText.Trim` | src/App.js:52 | the result is the slice of the input that is left after a blank prefix and a blank suffix are cut off, and it neither starts nor ends with a trimmable character |
| `Timestamps.ToDate` | src/App.js:31 | `new Date(w)` never fails; the result is valid exactly when the wire value is readable (an in-range number, a parsable in-range string, or `null`), valid instants lie in the TimeClip range; an in-range millisecond count is kept as is, a string the parser reads to an in-range value becomes that instant, and `null` becomes the epoch |
| `Timestamps.ToDateIdempotent` | src/App.js:31 | normalising a normalised instant again gives the same `Date` |
| `Transport.On` | src/App.js:18-27 | `socket.on(e, h)` adds one listener for `e` and leaves the counts of other events unchanged (no de-duplication) |
| `Transport.Off` | src/App.js:40-42 | `socket.off(e)` removes every listener for `e` and leaves the other events' listeners alone |
| `Transport.Copies` | src/App.js:33-35 | `k` listeners appending `x` leave exactly `k` copies of `x` |
| `App.Store.constructor` | src/App.js:12-15 | initial state: no messages, room `general`, user `Anonymous`, not connected, no listeners, nothing emitted |
| `App.Act` | src/App.js:17-63 | a store action never touches `messages` or `isConnected` and emits at most one event; `disconnectSocket` leaves no listener for any of the three events |
| `App.Deliver` | src/App.js:18-35 | an inbound event changes only `messages` and `isConnected`, never reorders or removes history, and with no listener registered changes nothing |
| `App.Apply` | src/App.js:17-63 | no step reorders or removes message history or the emit log |
| `App.Run` | src/App.js:17-63 | over any trace, message history and the emit log only grow by appending |
| `App.ListenersStep` | src/App.js:17-43 | `connectSocket` adds one listener per event, `disconnectSocket` resets each count to zero, every other step keeps the counts |
| `App.ListenersCountConnects` | src/App.js:17-43 | from the initial state, `connect`, `disconnect` and `receive_message` each have exactly as many listeners as there were `connectSocket` calls since the last `disconnectSocket` |
| `App.WithDate` | src/App.js:29-32 | the stored message keeps the payload's room, user and text; its timestamp is valid exactly when the wire value is readable, and is then the instant the number or string denotes |
| `App.ReceiveAppendsPerListener` | src/App.js:27-35 | a `receive_message` event keeps the earlier history, appends the payload with its timestamp normalised once per listener, and changes nothing else |
| `App.ReceivesAreFifo` | src/App.js:27-35 | with one listener, any sequence of received messages is appended in arrival order after the earlier history, and nothing else changes |
| `App.UnsubscribedIsInert` | src/App.js:39-43 | with no listeners registered, no sequence of inbound events changes the state |
| `App.DisconnectSocketSilences` | src/App.js:39-43 | after `disconnectSocket`, late `connect`, `disconnect` and `receive_message` events leave the whole state unchanged |
| `App.SendMessageGuard` | src/App.js:50-61 | a blank text changes nothing; any other text appends exactly one `send_message` with the current room, the current user, the untrimmed text and the clock reading passed through TimeClip, as `new Date()` does, and changes nothing else |
| `App.FormatTime` | src/App.js:88-93 | a non-`Date` value or an invalid `Date` shows as "Invalid Date"; a valid `Date` shows as its locale time |
| `App.StoredTimeShowsInvalidIffUnreadable` | src/App.js:88-93 | a stored message shows "Invalid Date" exactly when its payload timestamp was unreadable, if the locale formatter never yields that text |
| `App.HandleSendMessage` | src/App.js:193-198 | a blank input leaves both the input and the store unchanged; any other input is sent once, then the input is cleared |
| `App.MalformedTimestampScenario` | src/App.js:27-35 | connect, then receive a message with timestamp "not-a-date": the store is connected and holds that one message with the invalid sentinel |
| `App.Store.ConnectSocket` | src/App.js:17-37 | adds one listener each for `connect`, `disconnect` and `receive_message`; nothing else changes |
| `App.Store.DisconnectSocket` | src/App.js:39-43 | no listeners remain for the three events; nothing else changes |
| `App.Store.JoinRoom` | src/App.js:45-48 | appends `join_room(r)` to the emit log and sets the room; nothing else changes |
| `App.Store.SendMessage` | src/App.js:50-61 | just as `App.SendMessageGuard`: one `send_message` for a non-blank text, nothing for a blank one |
| `App.Store.SetUser` | src/App.js:63 | sets `user` and nothing else |
| `App.Store.DeliverConnect` | src/App.js:18-21 | sets `isConnected` when a `connect` listener is registered; otherwise nothing changes |
| `App.Store.DeliverDisconnect` | src/App.js:23-25 | clears `isConnected` when a `disconnect` listener is registered; otherwise nothing changes |
| `App.Store.DeliverReceiveMessage` | src/App.js:27-35 | appends one normalised copy of the payload per `receive_message` listener; nothing else changes |
| `ChatStore.Store.constructor` | src/stores/chatStore.tsx:18-22 | initial state: no messages, room `general`, user `Anonymous`, no socket, not connected |
| `ChatStore.Act` | src/stores/chatStore.tsx:24-64 | a store action keeps the invariant (the stored handle names an open socket; every socket has exactly the `connect` and `receive_message` listeners), never touches `messages`, and only appends to sockets' emit logs; `connectSocket` creates and stores a new open socket carrying those two listeners |
| `ChatStore.Deliver` | src/stores/chatStore.tsx:29-36 | an inbound event changes only `messages` and `isConnected`, never reorders or removes history, and a `disconnect` event changes nothing |
| `ChatStore.EmitOn` | src/stores/chatStore.tsx:52-60 | `socket.emit(e)` (the `join_room` and `send_message` emits) appends `e` to that socket's log and leaves its listeners, its open flag and every other socket unchanged |
| `ChatStore.Close` | src/stores/chatStore.tsx:44 | `socket.disconnect()` marks that socket closed and leaves its listeners, its log and every other socket unchanged |
| `ChatStore.Apply` | src/stores/chatStore.tsx:24-64 | every step keeps the invariant, keeps every socket's listeners, and only appends to history and to each socket's emit log |
| `ChatStore.Run` | src/stores/chatStore.tsx:24-64 | the invariant holds over any trace, and history only grows |
| `ChatStore.NoDisconnectListener` | src/stores/chatStore.tsx:24-39 | no socket ever runs a listener for `disconnect` |
| `ChatStore.DisconnectSocketIdempotent` | src/stores/chatStore.tsx:41-47 | with a socket stored, `disconnectSocket` closes it and clears the handle and `isConnected`; with none, it changes nothing; calling it twice equals calling it once |
| `ChatStore.NoSocketGuards` | src/stores/chatStore.tsx:49-62 | with no socket, `joinRoom` and `sendMessage` change nothing: the room is kept and nothing is emitted |
| `ChatStore.JoinRoomWithSocket` | src/stores/chatStore.tsx:49-55 | with a socket, `joinRoom(r)` emits `join_room(r)` on that socket only and sets the room; nothing else changes |
| `ChatStore.SendMessageGuard` | src/stores/chatStore.tsx:57-62 | `sendMessage` never changes the store's fields; it emits one `send_message(room, user, text)` on the stored socket exactly when a socket is stored and the text is not blank |
| `ChatStore.ReceivesAreFifo` | src/stores/chatStore.tsx:34-36 | messages arriving on the stored socket are appended unchanged, in arrival order, and nothing else changes |
| `ChatStore.ClosedSocketIsInert` | src/stores/chatStore.tsx:41-47 | a socket that has been disconnected changes nothing, whatever events it fires |
| `ChatStore.DisconnectSocketSilences` | src/stores/chatStore.tsx:41-47 | after `disconnectSocket`, late events from the closed socket leave the state unchanged |
| `ChatStore.ReconnectCallLeaksSocket` | src/stores/chatStore.tsx:24-39 | connect twice, then disconnect: the first socket is still open, and its `connect` event sets `isConnected` while no socket is stored |
| `ChatStore.Store.ConnectSocket` | src/stores/chatStore.tsx:24-39 | appends a fresh open socket carrying the two listeners and stores its handle; nothing else changes |
| `ChatStore.Store.DisconnectSocket` | src/stores/chatStore.tsx:41-47 | with a socket: closes it and clears the handle and `isConnected`; without one: nothing changes |
| `ChatStore.Store.JoinRoom` | src/stores/chatStore.tsx:49-55 | with a socket: emits `join_room(r)` on it and sets the room; without one: nothing changes |
| `ChatStore.Store.SendMessage` | src/stores/chatStore.tsx:57-62 | with a socket and a non-blank text: emits `send_message(room, user, text)` on it; otherwise nothing changes |
| `ChatStore.Store.SetUser` | src/stores/chatStore.tsx:64 | sets `user` and nothing else |
| `ChatStore.Store.DeliverConnect` | src/stores/chatStore.tsx:29-32 | sets `isConnected` when the firing socket is open and has a `connect` listener; otherwise nothing changes |
| `ChatStore.Store.DeliverDisconnect` | src/stores/chatStore.tsx:24-39 | changes nothing: no `disconnect` listener is registered |
| `ChatStore.Store.DeliverReceiveMessage` | src/stores/chatStore.tsx:34-36 | appends the payload unchanged once per listener of the firing socket, if that socket is open; nothing else changes |

## Left out

- socket.io internals are not modelled: `io(url, options)`, the endpoint and
  `withCredentials` options, the network, and automatic reconnection. Instead,
  a socket delivers events (in any order the caller chooses) until
  `disconnect()` is called on it, and inbound events are sequential calls.
- zustand's `persist` middleware and localStorage (`src/App.js:10`,
  `src/App.js:65-67`) are library code. A rehydrated timestamp is a string, not
  a `Date`; `App.TimeValue.NotADate` stands for such values, and
  `App.FormatTime` shows them as "Invalid Date".
- React rendering, styles and `useState` are not modelled. Neither are the
  effects that call `connectSocket`/`disconnectSocket` on mount and unmount
  (`src/App.js:181-184`) and `joinRoom(room)` whenever the room or
  `isConnected` changes while connected (`src/App.js:187-191`). The room input
  also writes `room` directly through `setState`, without emitting
  (`src/App.js:210`); that is not modelled either.
- `Date.parse` is a parameter of the App store (`parseDate`), because its
  grammar is host code. The clock read by `new Date()` and the locale
  formatting of `toLocaleTimeString` are also parameters.
- `Timestamps.ToDate` reads only numbers, strings, `null` and a missing field.
  Fractional and non-finite numbers, booleans, objects and `Date` objects in the
  payload are not modelled.
- `App.WithDate` keeps only the `room`, `user`, `text` and `timestamp` fields.
  Any other field the spread `...newMessage` would copy is dropped.
- `console.log` calls are not modelled: they only log.
- Non-string arguments to `sendMessage`, on which `trim` would throw, are not
  modelled: texts are strings.
