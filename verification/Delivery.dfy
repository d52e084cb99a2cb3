/** One connection as the registry holds it, and the non-blocking delivery of one frame
    (`Registry::deliver`), alone and to a whole set of connections. */
module Delivery {
  import opened Protocol

  /** `queue`, `capacity` and `open` are the bounded channel behind `tx`: `open` is false
      once the receiving half is gone. `dropped` counts consecutive failed deliveries. */
  datatype Connection = Connection(
    subject: string,
    subscriptions: set<Channel>,
    queue: seq<Frame>,
    capacity: nat,
    open: bool,
    dropped: nat)

  datatype Outcome = Sent | Full | Closed

  /** The `try_send` half of a delivery. */
  function Put(c: Connection, frame: Frame): (Connection, Outcome) {
    if !c.open then (c, Closed)
    else if |c.queue| < c.capacity then (c.(queue := c.queue + [frame]), Sent)
    else (c, Full)
  }

  /** The counter half: a success clears the streak, a full queue lengthens it. */
  function Tally(c: Connection, outcome: Outcome): Connection {
    match outcome
    case Sent => c.(dropped := 0)
    case Full => c.(dropped := c.dropped + 1)
    case Closed => c
  }

  function Deliver(c: Connection, frame: Frame): (Connection, Outcome) {
    var (c', outcome) := Put(c, frame);
    (Tally(c', outcome), outcome)
  }

  /** Every connection in `who` receives one delivery; the order is irrelevant because each
      delivery reads and writes its own connection only. */
  function DeliverTo(conns: map<ConnId, Connection>, who: set<ConnId>, frame: Frame): map<ConnId, Connection> {
    map id | id in conns :: if id in who then Deliver(conns[id], frame).0 else conns[id]
  }

  /** The connections in `who` on which a delivery ends with `outcome`. */
  function Reached(conns: map<ConnId, Connection>, who: set<ConnId>, frame: Frame, outcome: Outcome): set<ConnId> {
    set id | id in conns && id in who && Deliver(conns[id], frame).1 == outcome
  }

  /** Several frames to one connection, one after the other. */
  function DeliverEach(c: Connection, frames: seq<Frame>): Connection {
    if frames == [] then c
    else Deliver(DeliverEach(c, frames[..|frames| - 1]), frames[|frames| - 1]).0
  }

  lemma DeliverEachMore(c: Connection, frames: seq<Frame>, frame: Frame)
    ensures DeliverEach(c, frames + [frame]) == Deliver(DeliverEach(c, frames), frame).0
  {
    assert (frames + [frame])[..|frames|] == frames;
  }

  lemma {:induction false} DeliverEachAppend(c: Connection, xs: seq<Frame>, ys: seq<Frame>)
    ensures DeliverEach(c, xs + ys) == DeliverEach(DeliverEach(c, xs), ys)
  {
    if ys == [] {
      assert xs + ys == xs;
    } else {
      var n := |ys| - 1;
      DeliverEachAppend(c, xs, ys[..n]);
      assert (xs + ys)[..|xs + ys| - 1] == xs + ys[..n];
    }
  }

  /** How many of `n` further frames the queue of `c` still takes. */
  function Room(c: Connection, n: nat): (r: nat)
    ensures r <= n
  {
    if !c.open || c.capacity <= |c.queue| then 0
    else if c.capacity - |c.queue| < n then c.capacity - |c.queue| else n
  }

  /** With nobody reading the queue, exactly the first `Room` frames enter it, in order, and
      the streak counts the rest. */
  lemma {:induction false} DeliverEachIsPrefix(c: Connection, frames: seq<Frame>)
    ensures
      var k := Room(c, |frames|);
      DeliverEach(c, frames) == c.(
        queue := c.queue + frames[..k],
        dropped := if !c.open || frames == [] then c.dropped
                   else if k == 0 then c.dropped + |frames| else |frames| - k)
  {
    if frames == [] {
      assert c.queue + frames[..0] == c.queue;
    } else {
      var n := |frames| - 1;
      DeliverEachIsPrefix(c, frames[..n]);
      var k := Room(c, n);
      assert frames[..n][..k] == frames[..k];
      if Room(c, |frames|) == |frames| {
        assert frames[..k] + [frames[n]] == frames;
      }
    }
  }
}
