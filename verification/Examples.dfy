/** Where the prose promises more than the code keeps: runs that show it. The exact conditions are in
    `SnapshotOrder`, `Restoring` and `Accounting`. */
module Examples {
  import opened Protocol
  import opened Delivery
  import opened Subscriptions
  import opened Requests
  import opened Machine
  import opened Invariant
  import opened Restoring
  import opened Sequential
  import opened Accounting

  // ---- Data may overtake the snapshot ------------------------------------------------------

  lemma KeepOne(ch: Channel, want: Channel -> bool)
    ensures Keep([ch], want) == if want(ch) then [ch] else []
  {
    assert [ch][..0] == [];
  }

  lemma JudgeOne(env: Env, claims: Claims, ch: Channel)
    requires |ch| <= env.config.maxChannelLen && env.may(claims, ch) && env.config.maxSubscriptions > 0
    ensures Judge(env, claims, {}, [ch]) == Verdict({ch}, [ch], [])
  {
    KeepOne(ch, Short(env));
    KeepOne(ch, Long(env));
    KeepOne(ch, Allowed(env, claims));
    KeepOne(ch, Denied(env, claims));
    assert [ch][..0] == [];
    var none := Admit({}, [], env.config.maxSubscriptions);
    assert none == Admitted({}, [], []);
    assert none.held + {ch} == {ch} && none.added + [ch] == [ch];
    assert Admit({}, [ch], env.config.maxSubscriptions) == Admitted({ch}, [ch], []);
    assert Tag([], Invalid) + Tag([], Unauthorized) + Tag([], Limit) == [];
  }

  /** One client alone with the registry, which has asked for nothing yet. */
  ghost predicate Alone(env: Env, w: World, claims: Claims) {
    && w.conns == map[1 := Fresh(env, claims)] && w.clients == map[1 := Newcomer(claims, 0)]
    && w.index == map[] && w.readers == map[]
  }

  lemma Opened(env: Env, claims: Claims) returns (run: seq<Label>)
    ensures Legal(env, run) && Alone(env, After(env, run), claims)
    ensures After(env, run).gateway == Resting && After(env, run).last == map[] && After(env, run).tape == []
  {
    Extend(env, [], Draw);
    Extend(env, [Draw], Insert(1, claims));
    run := [Draw] + [Insert(1, claims)];
  }

  /** The gateway has recorded a value and is about to publish it. */
  lemma Recording(env: Env, claims: Claims, ch: Channel, v: Payload) returns (run: seq<Label>)
    ensures Legal(env, run) && Alone(env, After(env, run), claims)
    ensures After(env, run).gateway == Ready(ch, v) && After(env, run).last == map[ch := v] && After(env, run).tape == []
  {
    run := Opened(env, claims);
    Extend(env, run, Record(ch, v));
    run := run + [Record(ch, v)];
  }

  /** The client's first request, for one channel, has reached the registry. */
  ghost predicate Subscribing(env: Env, w: World, w': World, claims: Claims, ch: Channel) {
    && w'.conns == map[1 := Fresh(env, claims).(subscriptions := {ch})]
    && 1 in w'.clients && !w'.clients[1].over && !w'.clients[1].atTop
    && w'.clients[1].jobs == [Say(Subscribed([ch], [])), Look(ch)]
    && w'.clients[1].socket == []
    && w'.index == map[ch := {1}] && w'.readers == map[] && FeedSame(w, w')
  }

  lemma FirstSubscription(env: Env, run: seq<Label>, claims: Claims, ch: Channel)
    requires |ch| <= env.config.maxChannelLen && env.may(claims, ch) && env.config.maxSubscriptions > 0
    requires Legal(env, run) && Alone(env, After(env, run), claims)
    ensures Legal(env, run + [Subscribe(1, [ch])])
    ensures Subscribing(env, After(env, run), After(env, run + [Subscribe(1, [ch])]), claims, ch)
  {
    Extend(env, run, Subscribe(1, [ch]));
    FirstVerdict(env, After(env, run), claims, ch);
    FirstSubscriptionOf(env, After(env, run), claims, ch);
  }

  lemma FirstVerdict(env: Env, w: World, claims: Claims, ch: Channel)
    requires |ch| <= env.config.maxChannelLen && env.may(claims, ch) && env.config.maxSubscriptions > 0
    requires Alone(env, w, claims)
    ensures Judge(env, w.clients[1].claims, w.conns[1].subscriptions, [ch]) == Verdict({ch}, [ch], [])
  {
    JudgeOne(env, claims, ch);
  }

  lemma FirstSubscriptionOf(env: Env, w: World, claims: Claims, ch: Channel)
    requires Alone(env, w, claims)
    requires Judge(env, w.clients[1].claims, w.conns[1].subscriptions, [ch]) == Verdict({ch}, [ch], [])
    ensures Subscribing(env, w, DoSubscribe(env, w, 1, [ch]), claims, ch)
  {
    EnlistFirst(ch);
    AnswerOne(ch);
  }

  lemma EnlistFirst(ch: Channel)
    ensures EnlistAll(map[], 1, Names([ch])) == map[ch := {1}]
  {
    assert Names([ch]) == {ch};
    var index := EnlistAll(map[], 1, {ch});
    assert index.Keys == {ch} && index[ch] == {1};
  }

  lemma AnswerOne(ch: Channel)
    ensures [Say(Subscribed([ch], []))] + Looks([ch]) == [Say(Subscribed([ch], [])), Look(ch)]
  {
  }

  /** The gateway takes the read lock to publish what it recorded. */
  lemma GatewayPublishes(env: Env, run: seq<Label>, ch: Channel, v: Payload)
    requires Legal(env, run)
    requires
      var w := After(env, run);
      w.index == map[ch := {1}] && w.readers == map[] && w.gateway == Ready(ch, v)
    ensures Legal(env, run + [StartPublish(GATEWAY, ch, Data(ch, v))])
    ensures
      var w, w' := After(env, run), After(env, run + [StartPublish(GATEWAY, ch, Data(ch, v))]);
      && w'.conns == w.conns && w'.clients == w.clients && w'.index == w.index
      && w'.last == w.last && w'.gateway == Resting
      && w'.readers == map[Publisher(GATEWAY) := Reader(One(ch), Data(ch, v), {1}, None)]
  {
    Extend(env, run, StartPublish(GATEWAY, ch, Data(ch, v)));
  }

  lemma Overtaking(env: Env, run: seq<Label>, c: Connection, ch: Channel, v: Payload)
    requires Legal(env, run) && c.open && c.queue == [] && c.capacity > 0
    requires
      var w := After(env, run);
      w.conns == map[1 := c] && 1 in w.clients && w.index == map[ch := {1}] && w.readers == map[] && w.gateway == Ready(ch, v)
    ensures
      var run' := run + [StartPublish(GATEWAY, ch, Data(ch, v))] + [TrySend(Publisher(GATEWAY), 1)];
      Legal(env, run') &&
      var w := After(env, run');
      && w.conns == map[1 := c.(queue := [Data(ch, v)])]
      && 1 in w.clients && w.clients[1].jobs == After(env, run).clients[1].jobs
      && w.clients[1].socket == After(env, run).clients[1].socket
  {
    GatewayPublishes(env, run, ch, v);
    Extend(env, run + [StartPublish(GATEWAY, ch, Data(ch, v))], TrySend(Publisher(GATEWAY), 1));
    assert c.queue + [Data(ch, v)] == [Data(ch, v)];
  }

  /** README's "current state before its first delta" is not what the code keeps: here a value
      published right after the registry update is queued before the acknowledgement and the
      snapshot, which are still to be sent. */
  lemma DataOvertakesSnapshot(env: Env, claims: Claims, ch: Channel, v: Payload) returns (run: seq<Label>)
    requires |ch| <= env.config.maxChannelLen && env.may(claims, ch)
    requires env.config.maxSubscriptions > 0 && env.config.sendQueue > 0
    ensures Legal(env, run)
    ensures
      var w := After(env, run);
      && 1 in w.conns && w.conns[1].queue == [Data(ch, v)]
      && 1 in w.clients && w.clients[1].jobs == [Say(Subscribed([ch], [])), Look(ch)]
  {
    run := Recording(env, claims, ch, v);
    FirstSubscription(env, run, claims, ch);
    run := run + [Subscribe(1, [ch])];
    Overtaking(env, run, Fresh(env, claims).(subscriptions := {ch}), ch, v);
    run := run + [StartPublish(GATEWAY, ch, Data(ch, v))] + [TrySend(Publisher(GATEWAY), 1)];
  }

  // ---- A full queue swallows the snapshot -------------------------------------------------

  /** The client's session after its request: what it holds in its queue and has still to do. */
  ghost predicate Stage(env: Env, w: World, c: Connection, ch: Channel, jobs: seq<Job>, top: bool, socket: seq<Frame>) {
    && w.conns == map[1 := c] && w.index == map[ch := {1}] && w.readers == map[]
    && 1 in w.clients && w.clients[1].jobs == jobs && !w.clients[1].over && w.clients[1].atTop == top
    && w.clients[1].socket == socket
  }

  function Subscriber(env: Env, claims: Claims, ch: Channel): Connection {
    Fresh(env, claims).(subscriptions := {ch}, queue := [Subscribed([ch], [])])
  }

  /** The first request is acknowledged, and the lookup comes next. */
  lemma Acknowledged(env: Env, before: seq<Label>, claims: Claims, ch: Channel) returns (run: seq<Label>)
    requires |ch| <= env.config.maxChannelLen && env.may(claims, ch)
    requires env.config.maxSubscriptions > 0 && env.config.sendQueue > 0
    requires Legal(env, before) && Alone(env, After(env, before), claims)
    ensures Legal(env, run) && FeedSame(After(env, before), After(env, run))
    ensures Stage(env, After(env, run), Subscriber(env, claims, ch), ch, [Look(ch)], false, [])
  {
    FirstSubscription(env, before, claims, ch);
    var w := After(env, before + [Subscribe(1, [ch])]);
    run := Answer(env, before + [Subscribe(1, [ch])], 1);
    AcknowledgedStage(env, After(env, before), w, After(env, run), claims, ch);
  }

  lemma AcknowledgedStage(env: Env, before: World, w: World, w': World, claims: Claims, ch: Channel)
    requires env.config.sendQueue > 0 && Subscribing(env, before, w, claims, ch) && Answers(w, w', 1)
    ensures FeedSame(before, w')
    ensures Stage(env, w', Subscriber(env, claims, ch), ch, [Look(ch)], false, [])
  {
    assert [] + [Subscribed([ch], [])] == [Subscribed([ch], [])];
  }

  lemma Finding(env: Env, run: seq<Label>, c: Connection, ch: Channel, socket: seq<Frame>)
    requires Legal(env, run) && Stage(env, After(env, run), c, ch, [Look(ch)], false, socket)
    ensures Legal(env, run + [Lookup(1)]) && FeedSame(After(env, run), After(env, run + [Lookup(1)]))
    ensures
      var last := After(env, run).last;
      Stage(env, After(env, run + [Lookup(1)]), c, ch, if ch in last then [Say(Snapshot(ch, last[ch]))] else [], false, socket)
  {
    Extend(env, run, Lookup(1));
    assert [Look(ch)][1..] == [];
  }

  lemma Checking(env: Env, run: seq<Label>, c: Connection, ch: Channel, socket: seq<Frame>)
    requires Legal(env, run) && Stage(env, After(env, run), c, ch, [], false, socket)
    requires c.dropped < env.config.maxConsecutiveDrops
    ensures Legal(env, run + [Check(1)]) && FeedSame(After(env, run), After(env, run + [Check(1)]))
    ensures Stage(env, After(env, run + [Check(1)]), c, ch, [], true, socket)
  {
    Extend(env, run, Check(1));
  }

  lemma TakingOne(env: Env, run: seq<Label>, c: Connection, ch: Channel, socket: seq<Frame>, frame: Frame)
    requires Legal(env, run) && Stage(env, After(env, run), c, ch, [], true, socket) && c.queue == [frame]
    ensures Legal(env, run + [Take(1, true)]) && FeedSame(After(env, run), After(env, run + [Take(1, true)]))
    ensures Stage(env, After(env, run + [Take(1, true)]), c.(queue := []), ch, [], false, socket + [frame])
  {
    Extend(env, run, Take(1, true));
    assert c.queue[1..] == [];
  }

  /** A client alone with a one-frame queue: the acknowledgement fills it, and the snapshot is dropped
      although nobody publishes anything. */
  lemma SnapshotDropped(env: Env, claims: Claims, ch: Channel, v: Payload) returns (run: seq<Label>)
    requires |ch| <= env.config.maxChannelLen && env.may(claims, ch)
    requires env.config.maxSubscriptions > 0 && env.config.sendQueue == 1
    ensures Legal(env, run)
    ensures
      var w := After(env, run);
      && w.tape == [] && w.last == map[ch := v] && w.gateway == Ready(ch, v)
      && Stage(env, w, Subscriber(env, claims, ch).(dropped := 1), ch, [], false, [])
      && w.clients[1].log != [] && w.clients[1].log[|w.clients[1].log| - 1] == Offer(Session(1), Self, Snapshot(ch, v), Full)
  {
    run := Recording(env, claims, ch, v);
    run := Acknowledged(env, run, claims, ch);
    Finding(env, run, Subscriber(env, claims, ch), ch, []);
    run := run + [Lookup(1)];
    run := Answer(env, run, 1);
  }

  /** So the first frame the client gets on the channel is Data, with no snapshot before it. */
  lemma DeltaWithoutSnapshot(env: Env, claims: Claims, ch: Channel, v: Payload) returns (run: seq<Label>)
    requires |ch| <= env.config.maxChannelLen && env.may(claims, ch)
    requires env.config.maxSubscriptions > 0 && env.config.sendQueue == 1 && env.config.maxConsecutiveDrops > 1
    ensures Legal(env, run)
    ensures
      var w := After(env, run);
      && 1 in w.conns && w.conns[1].queue == [Data(ch, v)]
      && 1 in w.clients && w.clients[1].jobs == []
      && w.clients[1].socket == [Subscribed([ch], [])]
  {
    var c := Subscriber(env, claims, ch).(dropped := 1);
    run := SnapshotDropped(env, claims, ch, v);
    Checking(env, run, c, ch, []);
    run := run + [Check(1)];
    TakingOne(env, run, c, ch, [], Subscribed([ch], []));
    run := run + [Take(1, true)];
    Overtaking(env, run, c.(queue := []), ch, v);
    run := run + [StartPublish(GATEWAY, ch, Data(ch, v))] + [TrySend(Publisher(GATEWAY), 1)];
  }

  // ---- The snapshot may come behind a newer value ------------------------------------------

  /** The gateway publishes what it recorded to a client that holds the channel. */
  lemma Publishing(env: Env, run: seq<Label>, c: Connection, ch: Channel, v: Payload, jobs: seq<Job>, socket: seq<Frame>)
    returns (run': seq<Label>)
    requires Legal(env, run) && Stage(env, After(env, run), c, ch, jobs, false, socket)
    requires After(env, run).gateway == Ready(ch, v) && c.open && |c.queue| < c.capacity
    ensures Legal(env, run') && After(env, run').gateway == Resting && After(env, run').last == After(env, run).last
    ensures Stage(env, After(env, run'), c.(queue := c.queue + [Data(ch, v)], dropped := 0), ch, jobs, false, socket)
  {
    GatewayPublishes(env, run, ch, v);
    run' := run + [StartPublish(GATEWAY, ch, Data(ch, v))];
    Delivering(env, run', c, ch, v, jobs, socket);
    run' := run' + [TrySend(Publisher(GATEWAY), 1)];
    run' := Delivered(env, run', c.(queue := c.queue + [Data(ch, v)]), ch, v, jobs, socket);
  }

  /** The gateway's delivery is accounted for and the read lock released. */
  lemma Delivered(env: Env, run: seq<Label>, c: Connection, ch: Channel, v: Payload, jobs: seq<Job>, socket: seq<Frame>)
    returns (run': seq<Label>)
    requires Legal(env, run)
    requires
      var w := After(env, run);
      && Stage(env, w.(readers := map[]), c, ch, jobs, false, socket)
      && w.readers == map[Publisher(GATEWAY) := Reader(One(ch), Data(ch, v), {}, Some(InFlight(1, Sent, false)))]
    ensures Legal(env, run') && FeedSame(After(env, run), After(env, run'))
    ensures Stage(env, After(env, run'), c.(dropped := 0), ch, jobs, false, socket)
  {
    var th := Publisher(GATEWAY);
    var readers := After(env, run).readers;
    var r := Reader(One(ch), Data(ch, v), {}, None);
    run' := CountedAndMarked(env, run, th, 1, r, Sent);
    Extend(env, run', EndRead(th));
    run' := run' + [EndRead(th)];
    assert readers[th := r] - {th} == map[];
  }

  /** The gateway's frame enters the client's queue. */
  lemma Delivering(env: Env, run: seq<Label>, c: Connection, ch: Channel, v: Payload, jobs: seq<Job>, socket: seq<Frame>)
    requires Legal(env, run) && |c.queue| < c.capacity && c.open
    requires
      var w := After(env, run);
      && Stage(env, w.(readers := map[]), c, ch, jobs, false, socket)
      && w.readers == map[Publisher(GATEWAY) := Reader(One(ch), Data(ch, v), {1}, None)]
    ensures Legal(env, run + [TrySend(Publisher(GATEWAY), 1)])
    ensures
      var w, w' := After(env, run), After(env, run + [TrySend(Publisher(GATEWAY), 1)]);
      && Stage(env, w'.(readers := map[]), c.(queue := c.queue + [Data(ch, v)]), ch, jobs, false, socket)
      && w'.readers == map[Publisher(GATEWAY) := Reader(One(ch), Data(ch, v), {}, Some(InFlight(1, Sent, false)))]
      && FeedSame(w, w')
  {
    Extend(env, run, TrySend(Publisher(GATEWAY), 1));
    assert {1} - {1} == {};
  }

  /** A value is recorded and published before the client asks for anything. */
  lemma PublishedEarly(env: Env, claims: Claims, ch: Channel, v: Payload) returns (run: seq<Label>)
    ensures Legal(env, run) && Alone(env, After(env, run), claims)
    ensures After(env, run).gateway == Resting && After(env, run).last == map[ch := v]
  {
    var th := Publisher(GATEWAY);
    run := Recording(env, claims, ch, v);
    Extend(env, run, StartPublish(GATEWAY, ch, Data(ch, v)));
    run := run + [StartPublish(GATEWAY, ch, Data(ch, v))];
    Extend(env, run, EndRead(th));
    run := run + [EndRead(th)];
  }

  /** A client has looked the channel up and is about to be sent what it found. */
  lemma FoundEarly(env: Env, claims: Claims, ch: Channel, early: Payload) returns (run: seq<Label>)
    requires |ch| <= env.config.maxChannelLen && env.may(claims, ch)
    requires env.config.maxSubscriptions > 0 && env.config.sendQueue > 0
    ensures Legal(env, run) && After(env, run).gateway == Resting && After(env, run).last == map[ch := early]
    ensures Stage(env, After(env, run), Subscriber(env, claims, ch), ch, [Say(Snapshot(ch, early))], false, [])
  {
    run := PublishedEarly(env, claims, ch, early);
    run := Acknowledged(env, run, claims, ch);
    Finding(env, run, Subscriber(env, claims, ch), ch, []);
    run := run + [Lookup(1)];
  }

  /** A value is recorded and published after that lookup. */
  lemma PublishedLate(env: Env, claims: Claims, ch: Channel, early: Payload, late: Payload) returns (run: seq<Label>)
    requires |ch| <= env.config.maxChannelLen && env.may(claims, ch)
    requires env.config.maxSubscriptions > 0 && env.config.sendQueue >= 3
    ensures Legal(env, run) && After(env, run).gateway == Resting && After(env, run).last == map[ch := late]
    ensures
      var c := Subscriber(env, claims, ch);
      Stage(env, After(env, run), c.(queue := c.queue + [Data(ch, late)]), ch, [Say(Snapshot(ch, early))], false, [])
  {
    run := FoundEarly(env, claims, ch, early);
    Extend(env, run, Record(ch, late));
    run := run + [Record(ch, late)];
    run := Publishing(env, run, Subscriber(env, claims, ch), ch, late, [Say(Snapshot(ch, early))], []);
  }

  /** A value published between the client's lookup and its snapshot: both frames enter the queue, the
      snapshot last, and the client is left with the older value. */
  lemma StaleSnapshot(env: Env, claims: Claims, ch: Channel, early: Payload, late: Payload) returns (run: seq<Label>)
    requires |ch| <= env.config.maxChannelLen && env.may(claims, ch)
    requires env.config.maxSubscriptions > 0 && env.config.sendQueue >= 3
    ensures Legal(env, run)
    ensures
      var w := After(env, run);
      && w.last == map[ch := late] && w.gateway == Resting && w.readers == map[]
      && Holds(w.conns, 1, ch) && TurnOver(w, 1)
      && w.conns[1].queue == [Subscribed([ch], []), Data(ch, late), Snapshot(ch, early)]
  {
    run := PublishedLate(env, claims, ch, early, late);
    run := Answer(env, run, 1);
  }

  // ---- Subscribing again to a held channel restores nothing ---------------------------------

  lemma JudgeHeld(env: Env, claims: Claims, held: set<Channel>, ch: Channel)
    requires Lawful(env, claims, held) && ch in held
    ensures Judge(env, claims, held, [ch]) == Verdict(held, [], [])
  {
    KeepOne(ch, Short(env));
    KeepOne(ch, Long(env));
    KeepOne(ch, Allowed(env, claims));
    KeepOne(ch, Denied(env, claims));
    assert [ch][..0] == [];
    assert Admit(held, [], env.config.maxSubscriptions) == Admitted(held, [], []);
    assert Tag([], Invalid) + Tag([], Unauthorized) + Tag([], Limit) == [];
  }

  /** The request of a client for a channel it holds has reached the registry. */
  lemma Resubscribing(env: Env, w: World, id: ConnId, ch: Channel)
    requires AtTop(w, id) && Holds(w.conns, id, ch)
    requires Lawful(env, w.clients[id].claims, w.conns[id].subscriptions)
    ensures
      var w' := DoSubscribe(env, w, id, [ch]);
      && w'.conns == w.conns && w'.readers == w.readers && w'.last == w.last
      && w'.clients[id].jobs == [Say(Subscribed([], []))] && !w'.clients[id].over
      && w'.clients[id].log == w.clients[id].log + [Joined([], [])]
  {
    JudgeHeld(env, w.clients[id].claims, w.conns[id].subscriptions, ch);
    assert Looks([]) == [];
  }

  /** In any state of any run, a client that holds a channel and subscribes to it again is answered
      with an empty acknowledgement and nothing else, whatever value is there. */
  lemma ResubscribeRestoresNothing(env: Env, run: seq<Label>, id: ConnId, ch: Channel) returns (run': seq<Label>)
    requires Legal(env, run) && AtTop(After(env, run), id) && Unlocked(After(env, run))
    requires Holds(After(env, run).conns, id, ch)
    ensures Legal(env, run')
    ensures
      var w, w' := After(env, run), After(env, run');
      && TurnOver(w', id) && Holds(w'.conns, id, ch) && w'.last == w.last
      && w'.clients[id].log == w.clients[id].log + [Joined([], [])] +
                               [Offer(Session(id), Self, Subscribed([], []), Put(w.conns[id], Subscribed([], [])).1)]
      && !Restored(w'.clients[id].log, |w.clients[id].log|, ch)
  {
    var w := After(env, run);
    Always(env, run);
    assert ConnOk(env, w, id) && ClientOk(w, id);
    Resubscribing(env, w, id, ch);
    Extend(env, run, Subscribe(id, [ch]));
    run' := Answer(env, run + [Subscribe(id, [ch])], id);
  }

  /** A client has subscribed, been answered, and found no value yet. */
  lemma Settled(env: Env, claims: Claims, ch: Channel) returns (run: seq<Label>)
    requires |ch| <= env.config.maxChannelLen && env.may(claims, ch)
    requires env.config.maxSubscriptions > 0 && env.config.sendQueue > 0 && env.config.maxConsecutiveDrops > 0
    ensures Legal(env, run) && 1 in After(env, run).clients
    ensures Shape(After(env, run), Subscriber(env, claims, ch), map[], After(env, run).clients[1].log, true)
  {
    var c, socket := Subscriber(env, claims, ch), [];
    run := Opened(env, claims);
    run := Acknowledged(env, run, claims, ch);
    Finding(env, run, c, ch, socket);
    run := run + [Lookup(1)];
    Checking(env, run, c, ch, socket);
    run := run + [Check(1)];
  }

  /** That client has been told to resync, and a value is recorded afterwards. */
  lemma ToldToResync(env: Env, claims: Claims, ch: Channel, v: Payload) returns (run: seq<Label>, r: nat)
    requires |ch| <= env.config.maxChannelLen && env.may(claims, ch)
    requires env.config.maxSubscriptions > 0 && env.config.sendQueue > 0 && env.config.maxConsecutiveDrops > 0
    ensures Legal(env, run)
    ensures
      var w := After(env, run);
      && AtTop(w, 1) && Unlocked(w) && Holds(w.conns, 1, ch) && w.last == map[ch := v]
      && r < |w.clients[1].log| && w.clients[1].log[r].Offer? && w.clients[1].log[r].frame == Resync([])
      && |w.clients[1].log| == r + 1
  {
    run := Settled(env, claims, ch);
    var c := Subscriber(env, claims, ch);
    var log := After(env, run).clients[1].log;
    r := |log|;
    run := Resyncing(env, run, c, log);
    Extend(env, run, Record(ch, v));
    run := run + [Record(ch, v)];
  }

  /** A broadcast resync, whatever its outcome. */
  lemma Resyncing(env: Env, run: seq<Label>, c: Connection, log: seq<Event>) returns (run': seq<Label>)
    requires Legal(env, run) && Shape(After(env, run), c, map[], log, true) && c.open
    ensures Legal(env, run')
    ensures
      var (c', outcome) := Put(c, Resync([]));
      Shape(After(env, run'), Tally(c', outcome), map[], log + [Offer(Publisher(1), All, Resync([]), outcome)], true)
  {
    var th := Publisher(1);
    Broadcasting(env, run, 1, c, map[], log, true);
    run' := run + [StartBroadcast(1)];
    var (c', outcome) := Put(c, Resync([]));
    Trying(env, run', th, c, map[][th := Call({1}, None)], log, true);
    run' := run' + [TrySend(th, 1)];
    var flying := map[][th := Call({1}, None)][th := Call({}, Some(InFlight(1, outcome, false)))];
    Settling(env, run', th, c', flying, log + [Offer(th, All, Resync([]), outcome)], true, outcome);
    run' := run' + [Count(th, 1)] + [Mark(th, 1)] + [EndRead(th)];
    assert flying - {th} == map[];
  }

  /** A client loses its state to a resync and subscribes again to the channel it holds: no snapshot
      comes, although a value is there. */
  lemma ResubscribeExample(env: Env, claims: Claims, ch: Channel, v: Payload) returns (run: seq<Label>, r: nat, k: nat)
    requires |ch| <= env.config.maxChannelLen && env.may(claims, ch)
    requires env.config.maxSubscriptions > 0 && env.config.sendQueue > 0 && env.config.maxConsecutiveDrops > 0
    ensures Legal(env, run)
    ensures
      var w := After(env, run);
      && TurnOver(w, 1) && Holds(w.conns, 1, ch) && w.last == map[ch := v]
      && var log := w.clients[1].log;
      && r < k < |log| && log[r].Offer? && log[r].frame == Resync([]) && log[k] == Joined([], [])
      && !Restored(log, r, ch)
  {
    run, r := ToldToResync(env, claims, ch, v);
    k := r + 1;
    run := ResubscribeRestoresNothing(env, run, 1, ch);
  }

  // ---- Overlapping deliveries may miscount a streak ----------------------------------------

  ghost predicate Shape(w: World, c: Connection, readers: map<Thread, Reader>, log: seq<Event>, top: bool) {
    && w.conns == map[1 := c] && w.readers == readers && w.last == map[] && w.gateway == Resting
    && 1 in w.clients && w.clients[1].log == log && !w.clients[1].over && w.clients[1].atTop == top
    && w.clients[1].jobs == []
  }

  function Call(todo: set<ConnId>, flight: Option<InFlight>): Reader {
    Reader(All, Resync([]), todo, flight)
  }

  lemma Broadcasting(env: Env, run: seq<Label>, p: nat, c: Connection, readers: map<Thread, Reader>, log: seq<Event>, top: bool)
    requires Legal(env, run) && Shape(After(env, run), c, readers, log, top) && p != GATEWAY && Publisher(p) !in readers
    ensures Legal(env, run + [StartBroadcast(p)])
    ensures Shape(After(env, run + [StartBroadcast(p)]), c, readers[Publisher(p) := Call({1}, None)], log, top)
  {
    Extend(env, run, StartBroadcast(p));
    assert (map[1 := c]).Keys == {1};
  }

  lemma Trying(env: Env, run: seq<Label>, th: Thread, c: Connection, readers: map<Thread, Reader>, log: seq<Event>, top: bool)
    requires Legal(env, run) && Shape(After(env, run), c, readers, log, top)
    requires th in readers && readers[th] == Call({1}, None) && c.open
    ensures Legal(env, run + [TrySend(th, 1)])
    ensures
      var (c', outcome) := Put(c, Resync([]));
      Shape(After(env, run + [TrySend(th, 1)]), c', readers[th := Call({}, Some(InFlight(1, outcome, false)))],
            log + [Offer(th, All, Resync([]), outcome)], top)
  {
    Extend(env, run, TrySend(th, 1));
    assert {1} - {1} == {};
  }

  lemma Counting(env: Env, run: seq<Label>, th: Thread, c: Connection, readers: map<Thread, Reader>, log: seq<Event>, top: bool, o: Outcome)
    requires Legal(env, run) && Shape(After(env, run), c, readers, log, top)
    requires th in readers && readers[th] == Call({}, Some(InFlight(1, o, false)))
    ensures Legal(env, run + [Count(th, 1)])
    ensures Shape(After(env, run + [Count(th, 1)]), c, readers[th := Call({}, Some(InFlight(1, o, true)))], log, top)
  {
    Extend(env, run, Count(th, 1));
  }

  lemma Marking(env: Env, run: seq<Label>, th: Thread, c: Connection, readers: map<Thread, Reader>, log: seq<Event>, top: bool, o: Outcome)
    requires Legal(env, run) && Shape(After(env, run), c, readers, log, top)
    requires th in readers && readers[th] == Call({}, Some(InFlight(1, o, true)))
    ensures Legal(env, run + [Mark(th, 1)])
    ensures Shape(After(env, run + [Mark(th, 1)]), Tally(c, o), readers[th := Call({}, None)], log, top)
  {
    Extend(env, run, Mark(th, 1));
  }

  lemma Closing(env: Env, run: seq<Label>, th: Thread, c: Connection, readers: map<Thread, Reader>, log: seq<Event>, top: bool)
    requires Legal(env, run) && Shape(After(env, run), c, readers, log, top)
    requires th in readers && readers[th] == Call({}, None)
    ensures Legal(env, run + [EndRead(th)])
    ensures Shape(After(env, run + [EndRead(th)]), c, readers - {th}, log, top)
  {
    Extend(env, run, EndRead(th));
  }

  lemma Settling(env: Env, run: seq<Label>, th: Thread, c: Connection, readers: map<Thread, Reader>, log: seq<Event>, top: bool, o: Outcome)
    requires Legal(env, run) && Shape(After(env, run), c, readers, log, top)
    requires th in readers && readers[th] == Call({}, Some(InFlight(1, o, false)))
    ensures Legal(env, run + [Count(th, 1)] + [Mark(th, 1)] + [EndRead(th)])
    ensures Shape(After(env, run + [Count(th, 1)] + [Mark(th, 1)] + [EndRead(th)]), Tally(c, o), readers - {th}, log, top)
  {
    var counted := readers[th := Call({}, Some(InFlight(1, o, true)))];
    Counting(env, run, th, c, readers, log, top, o);
    Marking(env, run + [Count(th, 1)], th, c, counted, log, top, o);
    Closing(env, run + [Count(th, 1)] + [Mark(th, 1)], th, Tally(c, o), counted[th := Call({}, None)], log, top);
    assert counted[th := Call({}, None)] - {th} == readers - {th};
  }

  /** A whole delivery by one publisher to a client with an empty one-frame queue. */
  lemma Reaching(env: Env, run: seq<Label>, p: nat, c: Connection, readers: map<Thread, Reader>, log: seq<Event>, top: bool)
    returns (run': seq<Label>)
    requires Legal(env, run) && Shape(After(env, run), c, readers, log, top) && p != GATEWAY && Publisher(p) !in readers
    requires c.open && c.queue == [] && c.capacity == 1
    ensures Legal(env, run')
    ensures Shape(After(env, run'), c.(queue := [Resync([])], dropped := 0), readers,
                  log + [Offer(Publisher(p), All, Resync([]), Sent)], top)
  {
    var th := Publisher(p);
    Broadcasting(env, run, p, c, readers, log, top);
    run' := run + [StartBroadcast(p)];
    Trying(env, run', th, c, readers[th := Call({1}, None)], log, top);
    run' := run' + [TrySend(th, 1)];
    assert c.queue + [Resync([])] == [Resync([])];
    var flying := readers[th := Call({1}, None)][th := Call({}, Some(InFlight(1, Sent, false)))];
    Settling(env, run', th, c.(queue := [Resync([])]), flying, log + [Offer(th, All, Resync([]), Sent)], top, Sent);
    run' := run' + [Count(th, 1)] + [Mark(th, 1)] + [EndRead(th)];
    assert flying - {th} == readers;
  }

  lemma Taking(env: Env, run: seq<Label>, c: Connection, readers: map<Thread, Reader>, log: seq<Event>)
    requires Legal(env, run) && Shape(After(env, run), c, readers, log, true)
    requires c.queue == [Resync([])] && Session(1) !in readers
    ensures Legal(env, run + [Take(1, true)])
    ensures Shape(After(env, run + [Take(1, true)]), c.(queue := []), readers, log + [Took(Resync([]))], false)
  {
    Extend(env, run, Take(1, true));
    assert c.queue[1..] == [];
  }

  /** A client whose one-frame queue was filled, then found full by a delivery not yet counted,
      then emptied by its session. */
  lemma Dropping(env: Env, claims: Claims) returns (run: seq<Label>)
    requires env.config.sendQueue == 1
    ensures Legal(env, run)
    ensures
      var hit, miss := Offer(Publisher(1), All, Resync([]), Sent), Offer(Publisher(1), All, Resync([]), Full);
      Shape(After(env, run), Fresh(env, claims), map[Publisher(1) := Call({}, Some(InFlight(1, Full, false)))],
            [] + [hit] + [miss] + [Took(Resync([]))], false)
  {
    var hit, miss := Offer(Publisher(1), All, Resync([]), Sent), Offer(Publisher(1), All, Resync([]), Full);
    run := Opened(env, claims);
    run := Reaching(env, run, 1, Fresh(env, claims), map[], [], true);
    var c := Fresh(env, claims).(queue := [Resync([])]);
    Broadcasting(env, run, 1, c, map[], [] + [hit], true);
    run := run + [StartBroadcast(1)];
    Trying(env, run, Publisher(1), c, map[Publisher(1) := Call({1}, None)], [] + [hit], true);
    run := run + [TrySend(Publisher(1), 1)];
    var late := map[Publisher(1) := Call({1}, None)][Publisher(1) := Call({}, Some(InFlight(1, Full, false)))];
    assert late == map[Publisher(1) := Call({}, Some(InFlight(1, Full, false)))];
    Taking(env, run, c, late, [] + [hit] + [miss]);
    run := run + [Take(1, true)];
  }

  /** Two publishers overlap on one client: the drop is counted after the later success, so the
      streak reads one although the last outcome was a success and nothing is under way. */
  lemma OverlapMiscounts(env: Env, claims: Claims) returns (run: seq<Label>)
    requires env.config.sendQueue == 1
    ensures Legal(env, run)
    ensures
      var w := After(env, run);
      && 1 in w.conns && 1 in w.clients && w.readers == map[]
      && w.conns[1].dropped == 1 && Streak(w.clients[1].log) == 0
  {
    var hit, miss := Offer(Publisher(1), All, Resync([]), Sent), Offer(Publisher(1), All, Resync([]), Full);
    var log := [] + [hit] + [miss] + [Took(Resync([]))];
    var late := map[Publisher(1) := Call({}, Some(InFlight(1, Full, false)))];
    run := Dropping(env, claims);
    run := Reaching(env, run, 2, Fresh(env, claims), late, log, false);
    var c := Fresh(env, claims).(queue := [Resync([])], dropped := 0);
    log := log + [Offer(Publisher(2), All, Resync([]), Sent)];
    Settling(env, run, Publisher(1), c, late, log, false, Full);
    run := run + [Count(Publisher(1), 1)] + [Mark(Publisher(1), 1)] + [EndRead(Publisher(1))];
    assert late - {Publisher(1)} == map[];
  }

  /** Without any overlap of a success and a drop: the session checks the counter after a delivery has
      succeeded and before that delivery clears it, and closes a client whose last outcome was a
      success. */
  lemma ClosedTooSoon(env: Env, claims: Claims) returns (run: seq<Label>)
    requires env.config.sendQueue == 1 && env.config.maxConsecutiveDrops == 1
    ensures Legal(env, run) && Enabled(env, After(env, run), Check(1))
    ensures
      var w := After(env, run);
      && StreakOk(w, 1) && !Mixed(w, 1) && ClearedTooLate(env, w, 1)
      && Streak(w.clients[1].log) == 0 && DoCheck(env, w, 1).clients[1].over
  {
    var hit, miss := Offer(Publisher(1), All, Resync([]), Sent), Offer(Publisher(1), All, Resync([]), Full);
    var log := [] + [hit] + [miss] + [Took(Resync([]))];
    var late := map[Publisher(1) := Call({}, Some(InFlight(1, Full, false)))];
    run := Dropping(env, claims);
    Settling(env, run, Publisher(1), Fresh(env, claims), late, log, false, Full);
    run := run + [Count(Publisher(1), 1)] + [Mark(Publisher(1), 1)] + [EndRead(Publisher(1))];
    assert late - {Publisher(1)} == map[];
    var c := Fresh(env, claims).(dropped := 1);
    Broadcasting(env, run, 2, c, map[], log, false);
    run := run + [StartBroadcast(2)];
    Trying(env, run, Publisher(2), c, map[][Publisher(2) := Call({1}, None)], log, false);
    run := run + [TrySend(Publisher(2), 1)];
    assert c.queue + [Resync([])] == [Resync([])];
    LateClear(env, After(env, run), c, log);
  }

  lemma LateClear(env: Env, w: World, c: Connection, log: seq<Event>)
    requires env.config.maxConsecutiveDrops == 1 && c.dropped == 1
    requires Shape(w, c.(queue := [Resync([])]), map[Publisher(2) := Call({}, Some(InFlight(1, Sent, false)))],
                   log + [Offer(Publisher(2), All, Resync([]), Sent)], false)
    ensures StreakOk(w, 1) && !Mixed(w, 1) && ClearedTooLate(env, w, 1)
    ensures Streak(w.clients[1].log) == 0
  {
    StreakMore(log, Offer(Publisher(2), All, Resync([]), Sent));
    assert Publisher(2) in Flights(w, 1, Sent);
    assert Flights(w, 1, Full) == {};
  }
}
