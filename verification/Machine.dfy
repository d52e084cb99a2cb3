/** The fan-out engine as a concurrent state machine. A label names one atomic step of one
    thread; a run is any sequence of enabled labels, so every claim about runs covers every
    interleaving the locks allow.

    - A write-lock section is one step and needs that nobody holds the read lock.
    - A read-lock holder (`publish`, `broadcast`, `send`) is an entry of `readers`. Each of its
      deliveries is three steps, `TrySend`, `Count` and `Mark` (the queue, the metric, the streak),
      which interleave with everything that is not a writer.
    - Each connection's own task runs the session loop: one arm of the `select!`, then the slow
      check. While it answers a request (`jobs`, or its own entry in `readers`) it takes nothing
      from its queue.

    `log`, `socket`, `discarded`, `joins`, `born`, `tape` and `recorded` are history: no step's
    enabledness or effect on the rest of the state depends on them. */
module Machine {
  import opened Protocol
  import opened Delivery
  import opened Subscriptions
  import opened Requests

  datatype Thread = Publisher(n: nat) | Session(id: ConnId)

  /** The thread that drains the queue, and records each value before it publishes it. */
  const GATEWAY: nat := 0

  /** Whom a read-lock section addresses. */
  datatype Scope = One(channel: Channel) | All | Self

  datatype Job = Say(frame: Frame) | Look(channel: Channel)

  datatype InFlight = InFlight(id: ConnId, outcome: Outcome, counted: bool)
  datatype Reader = Reader(scope: Scope, frame: Frame, todo: set<ConnId>, flight: Option<InFlight>)

  /** What happened to one connection, in order. */
  datatype Event =
    | Joined(added: seq<Channel>, rejected: seq<Rejected>)
    | Left(removed: seq<Channel>)
    | Asked(reply: Frame)
    | Looked(channel: Channel, at: nat, found: Option<Payload>)
    | Offer(sender: Thread, scope: Scope, frame: Frame, outcome: Outcome)
    | Took(frame: Frame)
    | Judged(slow: bool)

  /** Where a subscription began, in the connection's log and on the tape. */
  datatype Join = Join(logPos: nat, tapePos: nat)

  datatype Client = Client(
    claims: Claims,
    atTop: bool,
    jobs: seq<Job>,
    over: bool,
    log: seq<Event>,
    socket: seq<Frame>,
    discarded: seq<Frame>,
    joins: map<Channel, Join>,
    born: nat)

  /** Publications in the order they took the read lock, and the overruns between them. */
  datatype Entry = Airing(source: nat, scope: Scope, frame: Frame) | Gap

  datatype Gateway = Resting | Ready(channel: Channel, payload: Payload) | Lost

  datatype World = World(
    conns: map<ConnId, Connection>,
    index: Index,
    nextId: ConnId,
    drawn: set<ConnId>,
    sent: nat,
    lost: nat,
    readers: map<Thread, Reader>,
    clients: map<ConnId, Client>,
    last: map<Channel, Payload>,
    gateway: Gateway,
    tape: seq<Entry>,
    recorded: seq<(Channel, Payload)>)

  datatype Label =
    | Draw
    | Insert(id: ConnId, claims: Claims)
    | Subscribe(id: ConnId, channels: seq<Channel>)
    | Unsubscribe(id: ConnId, channels: seq<Channel>)
    | Request(id: ConnId, reply: Frame)
    | Beat(id: ConnId, ends: bool)
    | Take(id: ConnId, written: bool)
    | Lookup(id: ConnId)
    | StartSend(id: ConnId)
    | Check(id: ConnId)
    | Shut(id: ConnId)
    | Remove(id: ConnId)
    | Record(channel: Channel, payload: Payload)
    | Overrun
    | StartPublish(p: nat, channel: Channel, frame: Frame)
    | StartBroadcast(p: nat)
    | TrySend(th: Thread, id: ConnId)
    | Count(th: Thread, id: ConnId)
    | Mark(th: Thread, id: ConnId)
    | EndRead(th: Thread)

  function Init(): World {
    World(map[], map[], 1, {}, 0, 0, map[], map[], map[], Resting, [], [])
  }

  // ---- When a step may happen -----------------------------------------------------------

  /** The task of `id` is in its session loop and not inside a `send`. */
  predicate InSession(w: World, id: ConnId) {
    id in w.conns && id in w.clients && !w.clients[id].over && Session(id) !in w.readers
  }

  predicate AtTop(w: World, id: ConnId) {
    InSession(w, id) && w.clients[id].atTop
  }

  predicate Unlocked(w: World) {
    w.readers == map[]
  }

  predicate NextJob(w: World, id: ConnId) {
    InSession(w, id) && w.clients[id].jobs != []
  }

  /** `Server::publish` sends Data on its own channel, `Server::resync` a scoped Resync. */
  predicate Airable(channel: Channel, frame: Frame) {
    || (frame.Data? && frame.channel == channel)
    || (frame.Resync? && channel in frame.channels)
  }

  predicate Flying(w: World, th: Thread, id: ConnId, counted: bool) {
    && th in w.readers && id in w.conns
    && w.readers[th].flight.Some? && w.readers[th].flight.value.id == id
    && w.readers[th].flight.value.counted == counted
  }

  predicate Enabled(env: Env, w: World, l: Label) {
    match l
    case Draw => true
    case Insert(id, _) => id in w.drawn && Unlocked(w)
    case Subscribe(id, _) => AtTop(w, id) && Unlocked(w)
    case Unsubscribe(id, _) => AtTop(w, id) && Unlocked(w)
    case Request(id, reply) => AtTop(w, id) && (reply.Pong? || reply.Error?)
    case Beat(id, _) => AtTop(w, id)
    case Take(id, _) => AtTop(w, id) && w.conns[id].queue != []
    case Lookup(id) => NextJob(w, id) && w.clients[id].jobs[0].Look?
    case StartSend(id) => NextJob(w, id) && w.clients[id].jobs[0].Say?
    case Check(id) => InSession(w, id) && !w.clients[id].atTop && w.clients[id].jobs == []
    case Shut(id) => id in w.conns && id in w.clients && w.conns[id].open && Session(id) !in w.readers
    case Remove(id) => id in w.conns && !w.conns[id].open && Unlocked(w)
    case Record(_, _) => w.gateway.Resting? && Publisher(GATEWAY) !in w.readers
    case Overrun => w.gateway.Resting? && Publisher(GATEWAY) !in w.readers
    case StartPublish(p, ch, frame) =>
      && Publisher(p) !in w.readers && Airable(ch, frame)
      && (p == GATEWAY ==> frame.Data? && w.gateway == Ready(ch, frame.payload))
    case StartBroadcast(p) => Publisher(p) !in w.readers && (p == GATEWAY ==> w.gateway.Lost?)
    case TrySend(th, id) =>
      && th in w.readers && id in w.readers[th].todo && w.readers[th].flight.None?
      && id in w.conns && id in w.clients
    case Count(th, id) => Flying(w, th, id, false)
    case Mark(th, id) => Flying(w, th, id, true)
    case EndRead(th) => th in w.readers && w.readers[th].todo == {} && w.readers[th].flight.None?
  }

  // ---- What a step does -------------------------------------------------------------------

  function Note(cl: Client, e: Event): Client {
    cl.(log := cl.log + [e])
  }

  function SetClient(w: World, id: ConnId, cl: Client): World {
    w.(clients := w.clients[id := cl])
  }

  function SetReader(w: World, th: Thread, r: Reader): World {
    w.(readers := w.readers[th := r])
  }

  function Fresh(env: Env, claims: Claims): Connection {
    Connection(claims.subject, {}, [], env.config.sendQueue, true, 0)
  }

  /** `socket` is what the session writes; what the task wrote before it is in `Lifecycle`. */
  function Newcomer(claims: Claims, born: nat): Client {
    Client(claims, true, [], false, [], [], [], map[], born)
  }

  function DoInsert(env: Env, w: World, id: ConnId, claims: Claims): World {
    w.(conns := w.conns[id := Fresh(env, claims)],
       clients := w.clients[id := Newcomer(claims, |w.tape|)],
       drawn := w.drawn - {id})
  }

  function Looks(channels: seq<Channel>): (r: seq<Job>)
    ensures |r| == |channels|
  {
    seq(|channels|, i requires 0 <= i < |channels| => Look(channels[i]))
  }

  function Rejoin(joins: map<Channel, Join>, added: seq<Channel>, j: Join): map<Channel, Join> {
    map ch | ch in joins.Keys + Names(added) :: if ch in added then j else joins[ch]
  }

  function DoSubscribe(env: Env, w: World, id: ConnId, channels: seq<Channel>): World
    requires id in w.conns && id in w.clients
  {
    var c, cl := w.conns[id], w.clients[id];
    var v := Judge(env, cl.claims, c.subscriptions, channels);
    w.(conns := w.conns[id := c.(subscriptions := v.held)],
       index := EnlistAll(w.index, id, Names(v.added)),
       clients := w.clients[id := cl.(
         atTop := false,
         jobs := [Say(Subscribed(v.added, v.rejected))] + Looks(v.added),
         log := cl.log + [Joined(v.added, v.rejected)],
         joins := Rejoin(cl.joins, v.added, Join(|cl.log|, |w.tape|)))])
  }

  function DoUnsubscribe(w: World, id: ConnId, channels: seq<Channel>): World
    requires id in w.conns && id in w.clients
  {
    var c, cl := w.conns[id], w.clients[id];
    var r := Withdraw(c.subscriptions, channels);
    w.(conns := w.conns[id := c.(subscriptions := r.held)],
       index := DelistAll(w.index, id, Names(r.removed)),
       clients := w.clients[id := cl.(
         atTop := false, jobs := [Say(Unsubscribed(r.removed))], log := cl.log + [Left(r.removed)])])
  }

  function DoRequest(w: World, id: ConnId, reply: Frame): World
    requires id in w.clients
  {
    var cl := w.clients[id];
    SetClient(w, id, cl.(atTop := false, jobs := [Say(reply)], log := cl.log + [Asked(reply)]))
  }

  function DoTake(w: World, id: ConnId, written: bool): World
    requires id in w.conns && id in w.clients && w.conns[id].queue != []
  {
    var c, cl := w.conns[id], w.clients[id];
    w.(conns := w.conns[id := c.(queue := c.queue[1..])],
       clients := w.clients[id := cl.(
         atTop := false, over := !written, log := cl.log + [Took(c.queue[0])],
         socket := if written then cl.socket + [c.queue[0]] else cl.socket)])
  }

  function Find(last: map<Channel, Payload>, ch: Channel): Option<Payload> {
    if ch in last then Some(last[ch]) else None
  }

  function DoLookup(w: World, id: ConnId): World
    requires id in w.clients && w.clients[id].jobs != [] && w.clients[id].jobs[0].Look?
  {
    var cl := w.clients[id];
    var ch := cl.jobs[0].channel;
    var found := Find(w.last, ch);
    SetClient(w, id, cl.(
      jobs := (if found.Some? then [Say(Snapshot(ch, found.value))] else []) + cl.jobs[1..],
      log := cl.log + [Looked(ch, |w.recorded|, found)]))
  }

  function DoStartSend(w: World, id: ConnId): World
    requires id in w.clients && w.clients[id].jobs != [] && w.clients[id].jobs[0].Say?
  {
    var cl := w.clients[id];
    SetReader(SetClient(w, id, cl.(jobs := cl.jobs[1..])),
              Session(id), Reader(Self, cl.jobs[0].frame, {id}, None))
  }

  function DoCheck(env: Env, w: World, id: ConnId): World
    requires id in w.conns && id in w.clients
  {
    var cl := w.clients[id];
    var slow := w.conns[id].dropped >= env.config.maxConsecutiveDrops;
    SetClient(w, id, cl.(atTop := true, over := slow, log := cl.log + [Judged(slow)]))
  }

  /** The receiver is dropped with whatever it still holds. */
  function DoShut(w: World, id: ConnId): World
    requires id in w.conns && id in w.clients
  {
    var c, cl := w.conns[id], w.clients[id];
    w.(conns := w.conns[id := c.(open := false, queue := [])],
       clients := w.clients[id := cl.(over := true, discarded := c.queue)])
  }

  function DoRemove(w: World, id: ConnId): World
    requires id in w.conns
  {
    w.(conns := w.conns - {id}, index := DelistAll(w.index, id, w.conns[id].subscriptions))
  }

  function DoPublish(w: World, p: nat, ch: Channel, frame: Frame): World {
    w.(readers := w.readers[Publisher(p) := Reader(One(ch), frame, Holders(w.index, ch), None)],
       gateway := if p == GATEWAY then Resting else w.gateway,
       tape := w.tape + [Airing(p, One(ch), frame)])
  }

  function DoBroadcast(w: World, p: nat): World {
    w.(readers := w.readers[Publisher(p) := Reader(All, Resync([]), w.conns.Keys, None)],
       gateway := if p == GATEWAY then Resting else w.gateway,
       tape := w.tape + [Airing(p, All, Resync([]))])
  }

  function DoTrySend(w: World, th: Thread, id: ConnId): World
    requires th in w.readers && id in w.conns && id in w.clients
  {
    var r := w.readers[th];
    var (c, outcome) := Put(w.conns[id], r.frame);
    w.(conns := w.conns[id := c],
       clients := w.clients[id := Note(w.clients[id], Offer(th, r.scope, r.frame, outcome))],
       readers := w.readers[th := r.(
         todo := r.todo - {id},
         flight := if outcome.Closed? then None else Some(InFlight(id, outcome, false)))])
  }

  function DoCount(w: World, th: Thread): World
    requires th in w.readers && w.readers[th].flight.Some?
  {
    var r := w.readers[th];
    var f := r.flight.value;
    w.(sent := w.sent + (if f.outcome.Sent? then 1 else 0),
       lost := w.lost + (if f.outcome.Full? then 1 else 0),
       readers := w.readers[th := r.(flight := Some(f.(counted := true)))])
  }

  function DoMark(w: World, th: Thread, id: ConnId): World
    requires th in w.readers && w.readers[th].flight.Some? && id in w.conns
  {
    var r := w.readers[th];
    w.(conns := w.conns[id := Tally(w.conns[id], r.flight.value.outcome)],
       readers := w.readers[th := r.(flight := None)])
  }

  function Step(env: Env, w: World, l: Label): World
    requires Enabled(env, w, l)
  {
    match l
    case Draw => w.(nextId := w.nextId + 1, drawn := w.drawn + {w.nextId})
    case Insert(id, claims) => DoInsert(env, w, id, claims)
    case Subscribe(id, channels) => DoSubscribe(env, w, id, channels)
    case Unsubscribe(id, channels) => DoUnsubscribe(w, id, channels)
    case Request(id, reply) => DoRequest(w, id, reply)
    case Beat(id, ends) => SetClient(w, id, w.clients[id].(atTop := false, over := ends))
    case Take(id, written) => DoTake(w, id, written)
    case Lookup(id) => DoLookup(w, id)
    case StartSend(id) => DoStartSend(w, id)
    case Check(id) => DoCheck(env, w, id)
    case Shut(id) => DoShut(w, id)
    case Remove(id) => DoRemove(w, id)
    case Record(ch, v) =>
      w.(last := w.last[ch := v], gateway := Ready(ch, v), recorded := w.recorded + [(ch, v)])
    case Overrun => w.(gateway := Lost, tape := w.tape + [Gap])
    case StartPublish(p, ch, frame) => DoPublish(w, p, ch, frame)
    case StartBroadcast(p) => DoBroadcast(w, p)
    case TrySend(th, id) => DoTrySend(w, th, id)
    case Count(th, id) => DoCount(w, th)
    case Mark(th, id) => DoMark(w, th, id)
    case EndRead(th) => w.(readers := w.readers - {th})
  }

  /** The connection a step acts on, if any. */
  function Subject(l: Label): Option<ConnId> {
    match l
    case Draw => None
    case Record(_, _) => None
    case Overrun => None
    case StartPublish(_, _, _) => None
    case StartBroadcast(_) => None
    case EndRead(_) => None
    case _ => Some(l.id)
  }

  ghost predicate SameAt(w: World, w': World, id: ConnId) {
    && (id in w'.conns <==> id in w.conns)
    && (id in w.conns && id in w'.conns ==> w'.conns[id] == w.conns[id])
    && (id in w'.clients <==> id in w.clients)
    && (id in w.clients && id in w'.clients ==> w'.clients[id] == w.clients[id])
  }

  /** A step touches no connection but its subject. */
  lemma Untouched(env: Env, w: World, l: Label, id: ConnId)
    requires Enabled(env, w, l) && Subject(l) != Some(id)
    ensures SameAt(w, Step(env, w, l), id)
  {
    if Subject(l) == None {
      UntouchedByNobody(env, w, l);
    } else if l.Insert? || l.Subscribe? || l.Unsubscribe? || l.Remove? || l.Shut? || l.Take? {
      UntouchedByWrite(env, w, l, id);
    } else {
      UntouchedByRest(env, w, l, id);
    }
  }

  lemma UntouchedByNobody(env: Env, w: World, l: Label)
    requires Enabled(env, w, l) && Subject(l) == None
    ensures Step(env, w, l).conns == w.conns && Step(env, w, l).clients == w.clients
  {
  }

  lemma UntouchedByWrite(env: Env, w: World, l: Label, id: ConnId)
    requires Enabled(env, w, l) && Subject(l) != Some(id)
    requires l.Insert? || l.Subscribe? || l.Unsubscribe? || l.Remove? || l.Shut? || l.Take?
    ensures SameAt(w, Step(env, w, l), id)
  {
  }

  lemma UntouchedByRest(env: Env, w: World, l: Label, id: ConnId)
    requires Enabled(env, w, l) && Subject(l) != Some(id)
    requires l.Request? || l.Beat? || l.Lookup? || l.StartSend? || l.Check? || l.TrySend? || l.Count? || l.Mark?
    ensures SameAt(w, Step(env, w, l), id)
  {
  }

  /** The steps that change who holds the read lock and how far it got. */
  predicate Reads(l: Label) {
    l.StartSend? || l.StartPublish? || l.StartBroadcast? || l.TrySend? || l.Count? || l.Mark? || l.EndRead?
  }

  lemma ReadersUntouched(env: Env, w: World, l: Label)
    requires Enabled(env, w, l) && !Reads(l)
    ensures Step(env, w, l).readers == w.readers
  {
  }

  /** The steps that move the feed. */
  predicate Feeds(l: Label) {
    l.Record? || l.Overrun? || l.StartPublish? || l.StartBroadcast?
  }

  ghost predicate FeedSame(w: World, w': World) {
    w'.tape == w.tape && w'.gateway == w.gateway && w'.recorded == w.recorded && w'.last == w.last
  }

  lemma FeedUntouched(env: Env, w: World, l: Label)
    requires Enabled(env, w, l) && !Feeds(l)
    ensures FeedSame(w, Step(env, w, l))
  {
  }

  lemma IdsUntouched(env: Env, w: World, l: Label)
    requires Enabled(env, w, l) && !l.Draw? && !l.Insert?
    ensures Step(env, w, l).nextId == w.nextId && Step(env, w, l).drawn == w.drawn
  {
  }

  lemma MetricsUntouched(env: Env, w: World, l: Label)
    requires Enabled(env, w, l) && !l.Count?
    ensures Step(env, w, l).sent == w.sent && Step(env, w, l).lost == w.lost
  {
  }

  // ---- Runs ---------------------------------------------------------------------------------

  predicate Legal(env: Env, run: seq<Label>)
    decreases |run|, 0
  {
    run == [] ||
    (Legal(env, run[..|run| - 1]) && Enabled(env, After(env, run[..|run| - 1]), run[|run| - 1]))
  }

  function After(env: Env, run: seq<Label>): World
    requires Legal(env, run)
    decreases |run|, 1
  {
    if run == [] then Init() else Step(env, After(env, run[..|run| - 1]), run[|run| - 1])
  }

  lemma LegalSnoc(env: Env, run: seq<Label>, l: Label)
    ensures Legal(env, run + [l]) <==> Legal(env, run) && Enabled(env, After(env, run), l)
    ensures Legal(env, run + [l]) ==> After(env, run + [l]) == Step(env, After(env, run), l)
  {
    assert (run + [l])[..|run|] == run;
  }

  lemma {:induction false} LegalPrefix(env: Env, run: seq<Label>, n: nat)
    requires Legal(env, run) && n <= |run|
    ensures Legal(env, run[..n])
  {
    if n == |run| {
      assert run[..n] == run;
    } else {
      LegalPrefix(env, run[..|run| - 1], n);
      assert run[..|run| - 1][..n] == run[..n];
    }
  }
}
