/**
 * The socket.io client seen from the stores: inbound event names with the
 * listeners registered for them, and the inbound message payload.  The
 * connection itself and the delivery over the network are not modelled;
 * an inbound event is a call, and it runs every listener registered for
 * its name once.
 */
module Transport {
  import opened Timestamps

  /** The inbound event names the stores listen to. */
  datatype Event = Connect | Disconnect | ReceiveMessage

  /** A socket's listener table: how many listeners are registered per
      event name.  socket.io keeps duplicates, so this is a multiset. */
  type Listeners = multiset<Event>

  /** A `receive_message` payload as the relay sends it. */
  datatype ReceivedMessage = ReceivedMessage(room: string, user: string, text: string, timestamp: WireTime)

  /** `socket.on(e, handler)`: one more listener for `e`, the others untouched. */
  function On(l: Listeners, e: Event): (r: Listeners)
    ensures r[e] == l[e] + 1
    ensures forall e' :: e' != e ==> r[e'] == l[e']
  {
    l + multiset{e}
  }

  /** `socket.off(e)` with no handler argument: every listener for `e` is
      removed, the others untouched. */
  function Off(l: Listeners, e: Event): (r: Listeners)
    ensures r[e] == 0
    ensures forall e' :: e' != e ==> r[e'] == l[e']
  {
    l[e := 0]
  }

  /** What `k` listeners appending `x` leave behind: `k` copies of `x`. */
  function Copies<T>(x: T, k: nat): (r: seq<T>)
    ensures |r| == k
    ensures forall i :: 0 <= i < k ==> r[i] == x
  {
    if k == 0 then [] else Copies(x, k - 1) + [x]
  }
}
