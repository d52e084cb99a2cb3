/** What one thread does while nobody else moves. Its steps can always be finished, and then they amount
    to one call on the registry object: the machine's fine steps refine the calls. */
module Sequential {
  import opened Protocol
  import opened Delivery
  import opened Subscriptions
  import opened Requests
  import opened RegistryObject
  import opened Machine
  import opened Invariant

  lemma Extend(env: Env, run: seq<Label>, l: Label)
    requires Legal(env, run) && Enabled(env, After(env, run), l)
    ensures Legal(env, run + [l]) && After(env, run + [l]) == Step(env, After(env, run), l)
  {
    LegalSnoc(env, run, l);
  }

  /** The steps of one thread. */
  predicate By(l: Label, th: Thread) {
    match l
    case Subscribe(id, _) => th == Session(id)
    case Unsubscribe(id, _) => th == Session(id)
    case Request(id, _) => th == Session(id)
    case Beat(id, _) => th == Session(id)
    case Take(id, _) => th == Session(id)
    case Lookup(id) => th == Session(id)
    case StartSend(id) => th == Session(id)
    case Check(id) => th == Session(id)
    case StartPublish(p, _, _) => th == Publisher(p)
    case StartBroadcast(p) => th == Publisher(p)
    case TrySend(t, _) => t == th
    case Count(t, _) => t == th
    case Mark(t, _) => t == th
    case EndRead(t) => t == th
    case _ => false
  }

  /** `run'` goes on from `run` with steps of `th` alone. */
  ghost predicate Continues(run: seq<Label>, run': seq<Label>, th: Thread) {
    run <= run' && forall i :: |run| <= i < |run'| ==> By(run'[i], th)
  }

  // ---- One answer of a session ---------------------------------------------------------------

  function Noted(c: Connection, cl: Client, id: ConnId, frame: Frame): Client {
    Note(cl, Offer(Session(id), Self, frame, Put(c, frame).1))
  }

  /** The next answer is delivered. */
  ghost predicate Answers(w: World, w': World, id: ConnId) {
    && id in w.conns && id in w.clients && w.clients[id].jobs != [] && w.clients[id].jobs[0].Say?
    && var c, cl, frame := w.conns[id], w.clients[id], w.clients[id].jobs[0].frame;
    && w'.conns == w.conns[id := Deliver(c, frame).0]
    && w'.clients == w.clients[id := Noted(c, cl.(jobs := cl.jobs[1..]), id, frame)]
    && w'.index == w.index && w'.readers == w.readers && FeedSame(w, w')
  }

  lemma Answer(env: Env, run: seq<Label>, id: ConnId) returns (run': seq<Label>)
    requires Legal(env, run) && NextJob(After(env, run), id) && After(env, run).clients[id].jobs[0].Say?
    requires After(env, run).conns[id].open
    ensures Legal(env, run') && Continues(run, run', Session(id)) && Answers(After(env, run), After(env, run'), id)
  {
    var w := After(env, run);
    run' := Uttered(env, run, id);
    run' := AnswerSettled(env, run', w.clients[id].jobs[0].frame, id, w.readers, Put(w.conns[id], w.clients[id].jobs[0].frame).1);
  }

  /** The session's delivery is accounted for and the read lock released. */
  lemma AnswerSettled(env: Env, run: seq<Label>, frame: Frame, id: ConnId, readers: map<Thread, Reader>, o: Outcome) returns (run': seq<Label>)
    requires Legal(env, run) && id in After(env, run).conns && Session(id) !in readers
    requires After(env, run).readers == readers[Session(id) := Reader(Self, frame, {}, Some(InFlight(id, o, false)))]
    ensures Legal(env, run') && Continues(run, run', Session(id))
    ensures
      var w, w' := After(env, run), After(env, run');
      && w'.conns == w.conns[id := Tally(w.conns[id], o)] && w'.clients == w.clients && w'.index == w.index
      && w'.readers == readers && FeedSame(w, w')
  {
    var th := Session(id);
    run' := CountedAndMarked(env, run, th, id, Reader(Self, frame, {}, None), o);
    Extend(env, run', EndRead(th));
    run' := run' + [EndRead(th)];
    assert After(env, run).readers[th := Reader(Self, frame, {}, None)] - {th} == readers;
  }

  /** A delivery under way is counted and marked. */
  lemma CountedAndMarked(env: Env, run: seq<Label>, th: Thread, id: ConnId, r: Reader, o: Outcome) returns (run': seq<Label>)
    requires Legal(env, run) && th in After(env, run).readers && id in After(env, run).conns && r.flight.None?
    requires After(env, run).readers[th] == r.(flight := Some(InFlight(id, o, false)))
    ensures Legal(env, run') && Continues(run, run', th)
    ensures
      var w, w' := After(env, run), After(env, run');
      && w'.conns == w.conns[id := Tally(w.conns[id], o)] && w'.clients == w.clients && w'.index == w.index
      && w'.readers == w.readers[th := r] && FeedSame(w, w')
  {
    Extend(env, run, Count(th, id));
    run' := run + [Count(th, id)];
    Extend(env, run', Mark(th, id));
    run' := run' + [Mark(th, id)];
  }

  lemma Uttered(env: Env, run: seq<Label>, id: ConnId) returns (run': seq<Label>)
    requires Legal(env, run) && NextJob(After(env, run), id) && After(env, run).clients[id].jobs[0].Say?
    requires After(env, run).conns[id].open
    ensures Legal(env, run') && Continues(run, run', Session(id))
    ensures
      var w, w' := After(env, run), After(env, run');
      var c, cl, frame := w.conns[id], w.clients[id], w.clients[id].jobs[0].frame;
      && w'.conns == w.conns[id := Put(c, frame).0]
      && w'.clients == w.clients[id := Noted(c, cl.(jobs := cl.jobs[1..]), id, frame)]
      && w'.readers == w.readers[Session(id) := Reader(Self, frame, {}, Some(InFlight(id, Put(c, frame).1, false)))]
      && w'.index == w.index && FeedSame(w, w')
  {
    var w := After(env, run);
    Raised(env, run, id);
    run' := run + [StartSend(id)];
    Tried(env, run', w.readers, id, w.clients[id].jobs[0].frame);
    run' := run' + [TrySend(Session(id), id)];
  }

  lemma Tried(env: Env, run: seq<Label>, readers: map<Thread, Reader>, id: ConnId, frame: Frame)
    requires Legal(env, run) && id in After(env, run).conns && id in After(env, run).clients && After(env, run).conns[id].open
    requires After(env, run).readers == readers[Session(id) := Reader(Self, frame, {id}, None)]
    ensures Legal(env, run + [TrySend(Session(id), id)])
    ensures
      var w, w' := After(env, run), After(env, run + [TrySend(Session(id), id)]);
      var c := w.conns[id];
      && w'.conns == w.conns[id := Put(c, frame).0]
      && w'.clients == w.clients[id := Noted(c, w.clients[id], id, frame)]
      && w'.readers == readers[Session(id) := Reader(Self, frame, {}, Some(InFlight(id, Put(c, frame).1, false)))]
      && w'.index == w.index && FeedSame(w, w')
  {
    Extend(env, run, TrySend(Session(id), id));
    assert {id} - {id} == {};
  }

  lemma Raised(env: Env, run: seq<Label>, id: ConnId)
    requires Legal(env, run) && NextJob(After(env, run), id) && After(env, run).clients[id].jobs[0].Say?
    ensures Legal(env, run + [StartSend(id)])
    ensures
      var w, w' := After(env, run), After(env, run + [StartSend(id)]);
      var cl := w.clients[id];
      && w'.conns == w.conns && w'.clients == w.clients[id := cl.(jobs := cl.jobs[1..])]
      && w'.readers == w.readers[Session(id) := Reader(Self, cl.jobs[0].frame, {id}, None)]
      && w'.index == w.index && FeedSame(w, w')
  {
    Extend(env, run, StartSend(id));
  }

  // ---- One request of a client -------------------------------------------------------------

  /** A session in the middle of its answers. */
  ghost predicate Midway(w: World, id: ConnId, jobs: seq<Job>) {
    InSession(w, id) && w.conns[id].open && w.clients[id].jobs == jobs && !w.clients[id].atTop
  }

  /** From `w` on only the connection of `id` changes, to `c`. */
  ghost predicate Moves(w: World, w': World, id: ConnId, c: Connection) {
    && id in w.conns && w'.conns == w.conns[id := c] && w'.index == w.index && w'.readers == w.readers
    && w'.last == w.last
  }

  lemma LookFinds(env: Env, run: seq<Label>, id: ConnId, rest: seq<Channel>)
    requires rest != [] && Legal(env, run) && Midway(After(env, run), id, Looks(rest))
    ensures Legal(env, run + [Lookup(id)])
    ensures
      var w, w' := After(env, run), After(env, run + [Lookup(id)]);
      && Moves(w, w', id, w.conns[id])
      && Midway(w', id, (if rest[0] in w.last then [Say(Snapshot(rest[0], w.last[rest[0]]))] else []) + Looks(rest[1..]))
  {
    Extend(env, run, Lookup(id));
    assert Looks(rest)[1..] == Looks(rest[1..]);
  }

  lemma SnapshotsOne(ch: Channel, last: map<Channel, Payload>)
    ensures Snapshots([ch], last) == if ch in last then [Snapshot(ch, last[ch])] else []
  {
    assert [ch][..0] == [];
  }

  lemma SayAlone(env: Env, run: seq<Label>, id: ConnId, frame: Frame, rest: seq<Channel>) returns (run': seq<Label>)
    requires Legal(env, run) && Midway(After(env, run), id, [Say(frame)] + Looks(rest))
    ensures Legal(env, run') && Continues(run, run', Session(id))
    ensures
      var w, w' := After(env, run), After(env, run');
      Midway(w', id, Looks(rest)) && Moves(w, w', id, DeliverEach(w.conns[id], [frame]))
  {
    var c := After(env, run).conns[id];
    assert ([Say(frame)] + Looks(rest))[1..] == Looks(rest);
    DeliverEachMore(c, [], frame);
    assert [] + [frame] == [frame];
    run' := Answer(env, run, id);
  }

  /** One lookup, and the snapshot if there is one. */
  lemma LookAlone(env: Env, run: seq<Label>, id: ConnId, rest: seq<Channel>) returns (run': seq<Label>)
    requires rest != [] && Legal(env, run) && Midway(After(env, run), id, Looks(rest))
    ensures Legal(env, run') && Continues(run, run', Session(id))
    ensures
      var w, w' := After(env, run), After(env, run');
      && Midway(w', id, Looks(rest[1..]))
      && Moves(w, w', id, DeliverEach(w.conns[id], Snapshots([rest[0]], w.last)))
  {
    var w := After(env, run);
    LookFinds(env, run, id, rest);
    SnapshotsOne(rest[0], w.last);
    run' := run + [Lookup(id)];
    if rest[0] in w.last {
      run' := SayAlone(env, run', id, Snapshot(rest[0], w.last[rest[0]]), rest[1..]);
    } else {
      assert [] + Looks(rest[1..]) == Looks(rest[1..]);
    }
  }

  lemma {:induction false} LooksAlone(env: Env, run: seq<Label>, id: ConnId, rest: seq<Channel>) returns (run': seq<Label>)
    requires Legal(env, run) && Midway(After(env, run), id, Looks(rest))
    ensures Legal(env, run') && Continues(run, run', Session(id))
    ensures
      var w, w' := After(env, run), After(env, run');
      Midway(w', id, []) && Moves(w, w', id, DeliverEach(w.conns[id], Snapshots(rest, w.last)))
    decreases |rest|
  {
    var w := After(env, run);
    if rest == [] {
      run' := run;
    } else {
      var mid := LookAlone(env, run, id, rest);
      run' := LooksAlone(env, mid, id, rest[1..]);
      assert rest == [rest[0]] + rest[1..];
      SnapshotsAppend([rest[0]], rest[1..], w.last);
      DeliverEachAppend(w.conns[id], Snapshots([rest[0]], w.last), Snapshots(rest[1..], w.last));
    }
  }

  /** Everything a request is answered with. */
  lemma AnswersAlone(env: Env, run: seq<Label>, id: ConnId, frame: Frame, rest: seq<Channel>) returns (run': seq<Label>)
    requires Legal(env, run) && Midway(After(env, run), id, [Say(frame)] + Looks(rest))
    ensures Legal(env, run') && Continues(run, run', Session(id))
    ensures
      var w, w' := After(env, run), After(env, run');
      Midway(w', id, []) && Moves(w, w', id, DeliverEach(w.conns[id], [frame] + Snapshots(rest, w.last)))
  {
    var w := After(env, run);
    var mid := SayAlone(env, run, id, frame, rest);
    run' := LooksAlone(env, mid, id, rest);
    DeliverEachAppend(w.conns[id], [frame], Snapshots(rest, w.last));
  }

  lemma SessionIsOpen(env: Env, run: seq<Label>, id: ConnId)
    requires Legal(env, run) && InSession(After(env, run), id)
    ensures After(env, run).conns[id].open
  {
    Always(env, run);
    assert ClientOk(After(env, run), id);
  }

  /** The state a whole `subscribe` leads to. */
  ghost predicate Handled(env: Env, w: World, w': World, id: ConnId, channels: seq<Channel>) {
    && id in w.conns && id in w.clients
    && var v := Judge(env, w.clients[id].claims, w.conns[id].subscriptions, channels);
    && w'.conns == w.conns[id := DeliverEach(w.conns[id].(subscriptions := v.held), Replies(v, w.last))]
    && w'.index == EnlistAll(w.index, id, Names(v.added))
    && w'.readers == w.readers && w'.last == w.last
  }

  lemma HandledQueue(env: Env, w: World, w': World, id: ConnId, channels: seq<Channel>)
    requires Handled(env, w, w', id, channels)
    ensures
      var c := w.conns[id];
      var replies := Replies(Judge(env, w.clients[id].claims, c.subscriptions, channels), w.last);
      w'.conns[id].queue == c.queue + replies[..Room(c, |replies|)]
  {
    var v := Judge(env, w.clients[id].claims, w.conns[id].subscriptions, channels);
    DeliverEachIsPrefix(w.conns[id].(subscriptions := v.held), Replies(v, w.last));
  }

  /** From any state of any run, a `subscribe` with nobody in between is the registry object's
      `HandleSubscribe`: it leaves the judged subscriptions, the index that goes with them, and in the
      client's queue the longest prefix of acknowledgement then snapshots that fits. */
  lemma SubscribeAlone(env: Env, run: seq<Label>, id: ConnId, channels: seq<Channel>) returns (run': seq<Label>)
    requires Legal(env, run) && AtTop(After(env, run), id) && Unlocked(After(env, run))
    ensures Legal(env, run') && Continues(run, run', Session(id)) && |run'| > |run| && run'[|run|] == Subscribe(id, channels)
    ensures Midway(After(env, run'), id, []) && Handled(env, After(env, run), After(env, run'), id, channels)
    ensures
      var w := After(env, run);
      var replies := Replies(Judge(env, w.clients[id].claims, w.conns[id].subscriptions, channels), w.last);
      After(env, run').conns[id].queue == w.conns[id].queue + replies[..Room(w.conns[id], |replies|)]
  {
    var w := After(env, run);
    var v := Judge(env, w.clients[id].claims, w.conns[id].subscriptions, channels);
    SubscribeRegisters(env, run, id, channels);
    run' := AnswersAlone(env, run + [Subscribe(id, channels)], id, Subscribed(v.added, v.rejected), v.added);
    HandledOf(env, w, After(env, run + [Subscribe(id, channels)]), After(env, run'), id, channels);
    HandledQueue(env, w, After(env, run'), id, channels);
  }

  lemma HandledOf(env: Env, w: World, mid: World, w': World, id: ConnId, channels: seq<Channel>)
    requires id in w.conns && id in w.clients
    requires
      var v := Judge(env, w.clients[id].claims, w.conns[id].subscriptions, channels);
      && mid.conns == w.conns[id := w.conns[id].(subscriptions := v.held)]
      && mid.index == EnlistAll(w.index, id, Names(v.added)) && mid.readers == w.readers && mid.last == w.last
      && Moves(mid, w', id, DeliverEach(mid.conns[id], [Subscribed(v.added, v.rejected)] + Snapshots(v.added, mid.last)))
    ensures Handled(env, w, w', id, channels)
  {
  }

  /** The registry's part of a `subscribe`. */
  lemma SubscribeRegisters(env: Env, run: seq<Label>, id: ConnId, channels: seq<Channel>)
    requires Legal(env, run) && AtTop(After(env, run), id) && Unlocked(After(env, run))
    ensures Legal(env, run + [Subscribe(id, channels)])
    ensures
      var w, w' := After(env, run), After(env, run + [Subscribe(id, channels)]);
      var v := Judge(env, w.clients[id].claims, w.conns[id].subscriptions, channels);
      && Midway(w', id, [Say(Subscribed(v.added, v.rejected))] + Looks(v.added))
      && w'.conns == w.conns[id := w.conns[id].(subscriptions := v.held)]
      && w'.index == EnlistAll(w.index, id, Names(v.added)) && w'.readers == w.readers && w'.last == w.last
  {
    SessionIsOpen(env, run, id);
    Extend(env, run, Subscribe(id, channels));
  }

  /** The same for `unsubscribe`: exactly the requested names that were held are gone, and the answer
      names them. */
  lemma UnsubscribeAlone(env: Env, run: seq<Label>, id: ConnId, channels: seq<Channel>) returns (run': seq<Label>)
    requires Legal(env, run) && AtTop(After(env, run), id) && Unlocked(After(env, run))
    ensures Legal(env, run') && Continues(run, run', Session(id)) && |run'| > |run| && run'[|run|] == Unsubscribe(id, channels)
    ensures
      var w, w' := After(env, run), After(env, run');
      var c := w.conns[id];
      var r := Withdraw(c.subscriptions, channels);
      && Midway(w', id, []) && r.held == c.subscriptions - Names(channels)
      && w'.conns == w.conns[id := Deliver(c.(subscriptions := r.held), Unsubscribed(r.removed)).0]
      && w'.index == DelistAll(w.index, id, Names(r.removed)) && Unlocked(w')
  {
    var w := After(env, run);
    var c := w.conns[id];
    var r := Withdraw(c.subscriptions, channels);
    WithdrawMeaning(c.subscriptions, channels);
    SessionIsOpen(env, run, id);
    Extend(env, run, Unsubscribe(id, channels));
    var mid := run + [Unsubscribe(id, channels)];
    assert [Say(Unsubscribed(r.removed))] + Looks([]) == [Say(Unsubscribed(r.removed))];
    run' := SayAlone(env, mid, id, Unsubscribed(r.removed), []);
    DeliverEachMore(c.(subscriptions := r.held), [], Unsubscribed(r.removed));
    assert [] + [Unsubscribed(r.removed)] == [Unsubscribed(r.removed)];
  }

  /** The same for a ping, and for what is answered with an error. */
  lemma RequestAlone(env: Env, run: seq<Label>, id: ConnId, reply: Frame) returns (run': seq<Label>)
    requires Legal(env, run) && AtTop(After(env, run), id) && (reply.Pong? || reply.Error?)
    ensures Legal(env, run') && Continues(run, run', Session(id)) && |run'| > |run| && run'[|run|] == Request(id, reply)
    ensures
      var w, w' := After(env, run), After(env, run');
      && Midway(w', id, [])
      && w'.conns == w.conns[id := Deliver(w.conns[id], reply).0] && w'.index == w.index && w'.readers == w.readers
  {
    var w := After(env, run);
    SessionIsOpen(env, run, id);
    Extend(env, run, Request(id, reply));
    assert [Say(reply)] + Looks([]) == [Say(reply)];
    run' := SayAlone(env, run + [Request(id, reply)], id, reply, []);
    DeliverEachMore(w.conns[id], [], reply);
    assert [] + [reply] == [reply];
  }

  // ---- One publication ----------------------------------------------------------------------

  /** The publisher's own steps between taking and releasing the read lock. */
  predicate Delivers(l: Label, th: Thread) {
    (l.TrySend? || l.Count? || l.Mark?) && l.th == th
  }

  /** The metric that a delivery under way has already counted. */
  function Ahead(flight: Option<InFlight>, o: Outcome): nat {
    if flight.Some? && flight.value.counted && flight.value.outcome == o then 1 else 0
  }

  /** The connections served so far have their delivery, but for the one under way, whose queue has. */
  ghost predicate Partway(w: World, w': World, th: Thread, who: set<ConnId>, frame: Frame) {
    && th in w'.readers && w'.readers[th].frame == frame && w'.readers[th].todo <= who <= w.conns.Keys
    && var todo, flight := w'.readers[th].todo, w'.readers[th].flight;
    && (flight.Some? ==> flight.value.id in who - todo && flight.value.outcome == Put(w.conns[flight.value.id], frame).1
                         && !flight.value.outcome.Closed?)
    && var done := if flight.Some? then who - todo - {flight.value.id} else who - todo;
    && w'.conns == (if flight.Some?
                    then DeliverTo(w.conns, done, frame)[flight.value.id := Put(w.conns[flight.value.id], frame).0]
                    else DeliverTo(w.conns, done, frame))
    && w'.sent == w.sent + |Reached(w.conns, done, frame, Sent)| + Ahead(flight, Sent)
    && w'.lost == w.lost + |Reached(w.conns, done, frame, Full)| + Ahead(flight, Full)
  }

  lemma PartwayTrySend(env: Env, w: World, w': World, th: Thread, who: set<ConnId>, frame: Frame, id: ConnId)
    requires Partway(w, w', th, who, frame) && Enabled(env, w', TrySend(th, id))
    ensures Partway(w, DoTrySend(w', th, id), th, who, frame)
  {
    var done := who - w'.readers[th].todo;
    DeliverOneMore(w.conns, done, id, frame);
    ReachedOneMore(w.conns, done, id, frame, Sent);
    ReachedOneMore(w.conns, done, id, frame, Full);
    var after := DoTrySend(w', th, id);
    assert who - after.readers[th].todo == done + {id};
    assert done + {id} - {id} == done;
    assert w'.conns[id] == w.conns[id];
  }

  lemma PartwayCount(env: Env, w: World, w': World, th: Thread, who: set<ConnId>, frame: Frame, id: ConnId)
    requires Partway(w, w', th, who, frame) && Enabled(env, w', Count(th, id))
    ensures Partway(w, DoCount(w', th), th, who, frame)
  {
  }

  lemma PartwayMark(env: Env, w: World, w': World, th: Thread, who: set<ConnId>, frame: Frame, id: ConnId)
    requires Partway(w, w', th, who, frame) && Enabled(env, w', Mark(th, id))
    ensures Partway(w, DoMark(w', th, id), th, who, frame)
  {
    var all := who - w'.readers[th].todo;
    var done := all - {id};
    DeliverOneMore(w.conns, done, id, frame);
    ReachedOneMore(w.conns, done, id, frame, Sent);
    ReachedOneMore(w.conns, done, id, frame, Full);
    assert done + {id} == all;
  }

  lemma PartwayStep(env: Env, w: World, w': World, l: Label, th: Thread, who: set<ConnId>, frame: Frame)
    requires Partway(w, w', th, who, frame) && Delivers(l, th) && Enabled(env, w', l)
    ensures Partway(w, Step(env, w', l), th, who, frame)
  {
    if l.TrySend? {
      PartwayTrySend(env, w, w', th, who, frame, l.id);
    } else if l.Count? {
      PartwayCount(env, w, w', th, who, frame, l.id);
    } else {
      PartwayMark(env, w, w', th, who, frame, l.id);
    }
  }

  lemma {:induction false} PartwayAlways(env: Env, w: World, run: seq<Label>, rest: seq<Label>, th: Thread, who: set<ConnId>, frame: Frame)
    requires Legal(env, run) && Legal(env, run + rest) && Partway(w, After(env, run), th, who, frame)
    requires forall i :: 0 <= i < |rest| ==> Delivers(rest[i], th)
    ensures Partway(w, After(env, run + rest), th, who, frame)
  {
    if rest == [] {
      assert run + rest == run;
    } else {
      var most, l := rest[..|rest| - 1], rest[|rest| - 1];
      LastOfRest(env, run, rest);
      PartwayAlways(env, w, run, most, th, who, frame);
      PartwayStep(env, w, After(env, run + most), l, th, who, frame);
    }
  }

  lemma LastOfRest(env: Env, run: seq<Label>, rest: seq<Label>)
    requires rest != [] && Legal(env, run + rest)
    ensures
      var most, l := rest[..|rest| - 1], rest[|rest| - 1];
      && Legal(env, run + most) && Enabled(env, After(env, run + most), l)
      && After(env, run + rest) == Step(env, After(env, run + most), l)
  {
    assert run + rest == (run + rest[..|rest| - 1]) + [rest[|rest| - 1]];
    LegalSnoc(env, run + rest[..|rest| - 1], rest[|rest| - 1]);
  }

  /** Whom a publication addresses. */
  function Addressed(w: World, start: Label): set<ConnId> {
    match start
    case StartPublish(_, ch, _) => Scan(w.conns, ch)
    case StartBroadcast(_) => w.conns.Keys
    case _ => {}
  }

  function FrameOf(start: Label): Frame {
    if start.StartPublish? then start.frame else Frame.Resync([])
  }

  lemma PartwayStart(env: Env, w: World, start: Label)
    requires Coupled(w.conns, w.index) && Enabled(env, w, start) && (start.StartPublish? || start.StartBroadcast?)
    ensures Partway(w, Step(env, w, start), Publisher(start.p), Addressed(w, start), FrameOf(start))
  {
    if start.StartPublish? {
      LookupIsScan(w.conns, w.index, start.channel);
    }
    DeliverNone(w.conns, FrameOf(start));
    assert Addressed(w, start) - Addressed(w, start) == {};
  }

  /** From any state of any run, and in whatever order its recipients come: a publication with nobody in
      between is the registry object's `Publish`, and a broadcast its `Broadcast`. */
  lemma PublishAlone(env: Env, run: seq<Label>, start: Label, rest: seq<Label>)
    requires Legal(env, run) && Legal(env, run + [start] + rest) && (start.StartPublish? || start.StartBroadcast?)
    requires forall i :: 0 <= i < |rest| ==> Delivers(rest[i], Publisher(start.p))
    requires Enabled(env, After(env, run + [start] + rest), EndRead(Publisher(start.p)))
    ensures Served(After(env, run), After(env, run + [start] + rest), Addressed(After(env, run), start), FrameOf(start))
  {
    var w, th := After(env, run), Publisher(start.p);
    Always(env, run);
    StartIsLegal(env, run, start, rest);
    PartwayStart(env, w, start);
    PartwayAlways(env, w, run + [start], rest, th, Addressed(w, start), FrameOf(start));
    PartwayEnds(env, w, After(env, run + [start] + rest), th, Addressed(w, start), FrameOf(start));
  }

  /** Every connection in `who` has had one delivery, and the metrics count them. */
  ghost predicate Served(w: World, w': World, who: set<ConnId>, frame: Frame) {
    && w'.conns == DeliverTo(w.conns, who, frame)
    && w'.sent == w.sent + |Reached(w.conns, who, frame, Sent)|
    && w'.lost == w.lost + |Reached(w.conns, who, frame, Full)|
  }

  lemma PartwayEnds(env: Env, w: World, w': World, th: Thread, who: set<ConnId>, frame: Frame)
    requires Partway(w, w', th, who, frame) && Enabled(env, w', EndRead(th))
    ensures Served(w, w', who, frame)
  {
    assert who - {} == who;
  }

  lemma StartIsLegal(env: Env, run: seq<Label>, start: Label, rest: seq<Label>)
    requires Legal(env, run) && Legal(env, run + [start] + rest)
    ensures Legal(env, run + [start]) && Enabled(env, After(env, run), start)
    ensures After(env, run + [start]) == Step(env, After(env, run), start)
  {
    LegalPrefix(env, run + [start] + rest, |run| + 1);
    assert (run + [start] + rest)[..|run| + 1] == run + [start];
    LegalSnoc(env, run, start);
  }

  // ---- Nobody is stuck ------------------------------------------------------------------------

  /** Readers do not wait for one another: whoever else is at work, a publisher that is not in the middle
      of a call can start any of its calls, and an id can be drawn. */
  lemma PublishersNeverWait(env: Env, w: World, p: nat, ch: Channel, payload: Payload, channels: seq<Channel>)
    requires Publisher(p) !in w.readers && p != GATEWAY
    ensures Enabled(env, w, StartPublish(p, ch, Data(ch, payload)))
    ensures ch in channels ==> Enabled(env, w, StartPublish(p, ch, Frame.Resync(channels)))
    ensures Enabled(env, w, StartBroadcast(p)) && Enabled(env, w, Draw)
  {
  }

  /** What the steps that release a read lock leave alone. */
  ghost predicate SameSessions(w: World, w': World) {
    && w'.clients.Keys == w.clients.Keys && w'.conns.Keys == w.conns.Keys
    && forall id :: id in w.clients ==>
         && w'.clients[id].jobs == w.clients[id].jobs && w'.clients[id].over == w.clients[id].over
         && w'.clients[id].atTop == w.clients[id].atTop
  }

  /** The delivery under way is finished. */
  lemma FlightFinishes(env: Env, run: seq<Label>, th: Thread) returns (run': seq<Label>)
    requires Legal(env, run) && th in After(env, run).readers && After(env, run).readers[th].flight.Some?
    ensures Legal(env, run') && Continues(run, run', th)
    ensures
      var w, w' := After(env, run), After(env, run');
      SameSessions(w, w') && w'.readers == w.readers[th := w.readers[th].(flight := None)]
  {
    var w := After(env, run);
    Always(env, run);
    assert ReaderOk(w, th);
    var f := w.readers[th].flight.value;
    if f.counted {
      Extend(env, run, Mark(th, f.id));
      run' := run + [Mark(th, f.id)];
    } else {
      run' := CountedAndMarked(env, run, th, f.id, w.readers[th].(flight := None), f.outcome);
    }
  }

  lemma TodoIsThere(env: Env, w: World, th: Thread, id: ConnId)
    requires Inv(env, w) && th in w.readers && w.readers[th].flight.None? && id in w.readers[th].todo
    ensures Enabled(env, w, TrySend(th, id))
  {
    assert ReaderOk(w, th) && id in w.conns && ConnOk(env, w, id);
  }

  lemma TriedSame(w: World, th: Thread, id: ConnId)
    requires th in w.readers && id in w.conns && id in w.clients
    ensures
      var w' := DoTrySend(w, th, id);
      && SameSessions(w, w') && th in w'.readers
      && w'.readers == w.readers[th := w.readers[th].(todo := w.readers[th].todo - {id}, flight := w'.readers[th].flight)]
  {
  }

  lemma OneTried(env: Env, run: seq<Label>, th: Thread, id: ConnId)
    requires Legal(env, run) && th in After(env, run).readers && After(env, run).readers[th].flight.None?
    requires id in After(env, run).readers[th].todo
    ensures Legal(env, run + [TrySend(th, id)]) && id in After(env, run).conns && id in After(env, run).clients
    ensures After(env, run + [TrySend(th, id)]) == DoTrySend(After(env, run), th, id)
  {
    Always(env, run);
    TodoIsThere(env, After(env, run), th, id);
    Extend(env, run, TrySend(th, id));
  }

  lemma OneServed(env: Env, run: seq<Label>, th: Thread, id: ConnId) returns (run': seq<Label>)
    requires Legal(env, run) && th in After(env, run).readers && After(env, run).readers[th].flight.None?
    requires id in After(env, run).readers[th].todo
    ensures Legal(env, run') && Continues(run, run', th)
    ensures
      var w, w' := After(env, run), After(env, run');
      && SameSessions(w, w')
      && w'.readers == w.readers[th := w.readers[th].(todo := w.readers[th].todo - {id})]
  {
    OneTried(env, run, th, id);
    TriedSame(After(env, run), th, id);
    run' := run + [TrySend(th, id)];
    if After(env, run').readers[th].flight.Some? {
      run' := FlightFinishes(env, run', th);
    }
  }

  /** Whoever holds the read lock can finish and release it by its own steps alone, from any state. */
  lemma {:induction false} ReaderFinishes(env: Env, run: seq<Label>, th: Thread) returns (run': seq<Label>)
    requires Legal(env, run) && th in After(env, run).readers
    ensures Legal(env, run') && Continues(run, run', th)
    ensures
      var w, w' := After(env, run), After(env, run');
      SameSessions(w, w') && w'.readers == w.readers - {th}
    decreases |After(env, run).readers[th].todo|, if After(env, run).readers[th].flight.Some? then 1 else 0
  {
    var w := After(env, run);
    var r := w.readers[th];
    if r.flight.Some? {
      var mid := FlightFinishes(env, run, th);
      run' := ReaderFinishes(env, mid, th);
    } else if r.todo != {} {
      var id :| id in r.todo;
      var mid := OneServed(env, run, th, id);
      run' := ReaderFinishes(env, mid, th);
    } else {
      Extend(env, run, EndRead(th));
      run' := run + [EndRead(th)];
    }
  }

  /** From any state of any run all read locks can be released, so a writer gets its turn. */
  lemma {:induction false} LocksAreReleased(env: Env, run: seq<Label>) returns (run': seq<Label>)
    requires Legal(env, run)
    ensures Legal(env, run') && run <= run'
    ensures SameSessions(After(env, run), After(env, run')) && Unlocked(After(env, run'))
    decreases After(env, run).readers.Keys
  {
    if After(env, run).readers == map[] {
      run' := run;
    } else {
      var th :| th in After(env, run).readers;
      var mid := ReaderFinishes(env, run, th);
      run' := LocksAreReleased(env, mid);
    }
  }

  /** One answer or lookup of the session is done. */
  lemma JobFinishes(env: Env, run: seq<Label>, id: ConnId) returns (run': seq<Label>)
    requires Legal(env, run) && NextJob(After(env, run), id) && Unlocked(After(env, run))
    ensures Legal(env, run') && Continues(run, run', Session(id)) && Unlocked(After(env, run'))
    ensures InSession(After(env, run'), id) && !After(env, run').clients[id].atTop
    ensures |After(env, run').clients[id].jobs| < |After(env, run).clients[id].jobs|
  {
    SessionIsOpen(env, run, id);
    Always(env, run);
    assert ClientOk(After(env, run), id);
    if After(env, run).clients[id].jobs[0].Say? {
      run' := Answer(env, run, id);
    } else {
      run' := LookFinishes(env, run, id);
    }
  }

  lemma LookFinishes(env: Env, run: seq<Label>, id: ConnId) returns (run': seq<Label>)
    requires Legal(env, run) && NextJob(After(env, run), id) && Unlocked(After(env, run))
    requires After(env, run).clients[id].jobs[0].Look? && After(env, run).conns[id].open && !After(env, run).clients[id].atTop
    ensures Legal(env, run') && Continues(run, run', Session(id)) && Unlocked(After(env, run'))
    ensures InSession(After(env, run'), id) && !After(env, run').clients[id].atTop
    ensures |After(env, run').clients[id].jobs| < |After(env, run).clients[id].jobs|
  {
    var w := After(env, run);
    Extend(env, run, Lookup(id));
    run' := run + [Lookup(id)];
    if w.clients[id].jobs[0].channel in w.last {
      run' := Answer(env, run', id);
    }
  }

  /** A session that is answering can finish its turn by its own steps: it comes to the slow check, and
      either goes on to its next arm or ends as too slow. */
  lemma {:induction false} TurnFinishes(env: Env, run: seq<Label>, id: ConnId) returns (run': seq<Label>)
    requires Legal(env, run) && InSession(After(env, run), id) && Unlocked(After(env, run)) && !After(env, run).clients[id].atTop
    ensures Legal(env, run') && Continues(run, run', Session(id)) && Unlocked(After(env, run'))
    ensures id in After(env, run').clients && (AtTop(After(env, run'), id) || After(env, run').clients[id].over)
    decreases |After(env, run).clients[id].jobs|
  {
    if After(env, run).clients[id].jobs == [] {
      Extend(env, run, Check(id));
      run' := run + [Check(id)];
    } else {
      var mid := JobFinishes(env, run, id);
      run' := TurnFinishes(env, mid, id);
    }
  }
}
