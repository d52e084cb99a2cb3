/** The order of what a client sees: its queue is a first-in first-out buffer of the offers that
    found room, and its session writes a prefix of that order to the socket. */
module Output {
  import opened Protocol
  import opened Delivery
  import opened Subscriptions
  import opened Machine
  import opened Invariant
  import opened Tracking

  /** Frames that entered the queue, and frames the session took from it. */
  function Accepted(log: seq<Event>): seq<Frame> {
    if log == [] then []
    else
      var e := log[|log| - 1];
      Accepted(log[..|log| - 1]) + if e.Offer? && e.outcome.Sent? then [e.frame] else []
  }

  function Taken(log: seq<Event>): seq<Frame> {
    if log == [] then []
    else Taken(log[..|log| - 1]) + if log[|log| - 1].Took? then [log[|log| - 1].frame] else []
  }

  function Queue(w: World, id: ConnId): seq<Frame> {
    if id in w.conns then w.conns[id].queue else []
  }

  ghost predicate OutputOk(w: World, id: ConnId)
    requires id in w.clients
  {
    var cl := w.clients[id];
    && Accepted(cl.log) == Taken(cl.log) + Queue(w, id) + cl.discarded
    && (id in w.conns && w.conns[id].open ==> cl.discarded == [])
  }

  ghost predicate SocketOk(cl: Client) {
    var taken := Taken(cl.log);
    || cl.socket == taken
    || (cl.over && taken != [] && cl.socket == taken[..|taken| - 1])
  }

  lemma Logged(log: seq<Event>, e: Event)
    ensures Accepted(log + [e]) == Accepted(log) + if e.Offer? && e.outcome.Sent? then [e.frame] else []
    ensures Taken(log + [e]) == Taken(log) + if e.Took? then [e.frame] else []
  {
    assert (log + [e])[..|log|] == log;
  }

  lemma OutputTake(w: World, id: ConnId, written: bool)
    requires id in w.conns && id in w.clients && w.conns[id].queue != [] && w.conns[id].open && OutputOk(w, id)
    ensures OutputOk(DoTake(w, id, written), id)
  {
    var q := w.conns[id].queue;
    Logged(w.clients[id].log, Took(q[0]));
    MoveHead(Taken(w.clients[id].log), q);
  }

  lemma MoveHead(taken: seq<Frame>, q: seq<Frame>)
    requires q != []
    ensures taken + q + [] == taken + [q[0]] + q[1..] + []
  {
    assert q == [q[0]] + q[1..];
  }

  lemma OutputTrySend(w: World, th: Thread, id: ConnId)
    requires th in w.readers && id in w.conns && id in w.clients && OutputOk(w, id)
    ensures OutputOk(DoTrySend(w, th, id), id)
  {
    var r, cl, c := w.readers[th], w.clients[id], w.conns[id];
    Logged(cl.log, Offer(th, r.scope, r.frame, Put(c, r.frame).1));
    OfferOutput(c, r.frame, Accepted(cl.log), Taken(cl.log), cl.discarded);
  }

  /** An offer that finds room lengthens what entered and what waits alike. */
  lemma OfferOutput(c: Connection, frame: Frame, accepted: seq<Frame>, taken: seq<Frame>, discarded: seq<Frame>)
    requires accepted == taken + c.queue + discarded && (c.open ==> discarded == [])
    ensures
      var (c', outcome) := Put(c, frame);
      accepted + (if outcome.Sent? then [frame] else []) == taken + c'.queue + discarded
  {
    if c.open && |c.queue| < c.capacity {
      assert taken + c.queue + [] + [frame] == taken + (c.queue + [frame]) + [];
    } else {
      assert accepted + [] == accepted;
    }
  }

  lemma OutputShut(w: World, id: ConnId)
    requires id in w.conns && id in w.clients && w.conns[id].open && OutputOk(w, id)
    ensures OutputOk(DoShut(w, id), id)
  {
  }

  lemma LoggedAside(log: seq<Event>, news: seq<Event>)
    requires |news| <= 1 && (news != [] ==> !news[0].Offer? && !news[0].Took?)
    ensures Accepted(log + news) == Accepted(log) && Taken(log + news) == Taken(log)
  {
    if news == [] {
      assert log + news == log;
    } else {
      assert news == [news[0]];
      Logged(log, news[0]);
    }
  }

  lemma OutputKeeps(env: Env, w: World, l: Label, id: ConnId)
    requires Enabled(env, w, l) && id in w.clients && id in w.conns && Subject(l) == Some(id)
    requires !l.Take? && !l.TrySend? && !l.Shut? && !l.Insert?
    requires l.Remove? ==> w.conns[id].queue == []
    ensures
      var w' := Step(env, w, l);
      && id in w'.clients && w'.clients[id].discarded == w.clients[id].discarded
      && Queue(w', id) == Queue(w, id)
      && (id in w'.conns ==> w'.conns[id].open == w.conns[id].open)
      && |News(env, w, l, id)| <= 1
      && (News(env, w, l, id) != [] ==> !News(env, w, l, id)[0].Offer? && !News(env, w, l, id)[0].Took?)
  {
  }

  lemma OutputRest(env: Env, w: World, l: Label, id: ConnId)
    requires Enabled(env, w, l) && id in w.clients && OutputOk(w, id) && Subject(l) == Some(id)
    requires !l.Take? && !l.TrySend? && !l.Shut? && !l.Insert?
    requires id in w.conns && (l.Remove? ==> w.conns[id].queue == [])
    ensures OutputOk(Step(env, w, l), id)
  {
    OutputKeeps(env, w, l, id);
    Histories(env, w, l, id);
    LoggedAside(w.clients[id].log, News(env, w, l, id));
  }

  lemma OutputOther(env: Env, w: World, l: Label, id: ConnId)
    requires Enabled(env, w, l) && Subject(l) != Some(id) && id in w.clients && OutputOk(w, id)
    ensures id in Step(env, w, l).clients && OutputOk(Step(env, w, l), id)
  {
    Untouched(env, w, l, id);
  }

  lemma OutputInsert(env: Env, w: World, id: ConnId, claims: Claims)
    ensures OutputOk(DoInsert(env, w, id, claims), id)
  {
    assert Queue(DoInsert(env, w, id, claims), id) == [];
  }

  lemma OutputStep(env: Env, w: World, l: Label, id: ConnId)
    requires Enabled(env, w, l) && id in Step(env, w, l).clients && (l.Insert? || id in w.clients)
    requires id in w.clients ==> OutputOk(w, id) && ClientOk(w, id)
    requires id in w.conns ==> ConnOk(env, w, id)
    ensures OutputOk(Step(env, w, l), id)
  {
    if Subject(l) != Some(id) {
      Untouched(env, w, l, id);
      OutputOther(env, w, l, id);
    } else if l.Insert? {
      OutputInsert(env, w, id, l.claims);
    } else if l.Take? {
      OutputTake(w, id, l.written);
    } else if l.TrySend? {
      OutputTrySend(w, l.th, id);
    } else if l.Shut? {
      OutputShut(w, id);
    } else {
      OutputRest(env, w, l, id);
    }
  }

  /** Conservation per connection: what entered the queue was taken, is still queued, or was
      discarded when the receiver went, in that order. */
  lemma {:induction false} QueueIsFifo(env: Env, run: seq<Label>, id: ConnId)
    requires Legal(env, run) && id in After(env, run).clients
    ensures OutputOk(After(env, run), id)
  {
    if run != [] {
      var before, l := run[..|run| - 1], run[|run| - 1];
      var w := After(env, before);
      Always(env, before);
      if id in w.clients {
        QueueIsFifo(env, before, id);
      }
      OutputStep(env, w, l, id);
    }
  }

  lemma SocketStep(env: Env, w: World, l: Label, id: ConnId)
    requires Enabled(env, w, l) && id in w.clients && Subject(l) == Some(id) && !l.Insert?
    requires SocketOk(w.clients[id]) && (w.clients[id].over ==> !l.Take?)
    requires l.Beat? || l.Check? || l.Take? ==> !w.clients[id].over
    ensures SocketOk(Step(env, w, l).clients[id])
  {
    Histories(env, w, l, id);
    var cl, cl' := w.clients[id], Step(env, w, l).clients[id];
    var news := News(env, w, l, id);
    if news == [] {
      assert cl.log + [] == cl.log;
    } else {
      assert news == [news[0]];
      Logged(cl.log, news[0]);
    }
  }

  lemma {:induction false} SocketAlways(env: Env, run: seq<Label>, id: ConnId)
    requires Legal(env, run) && id in After(env, run).clients
    ensures SocketOk(After(env, run).clients[id])
  {
    if run != [] {
      var before, l := run[..|run| - 1], run[|run| - 1];
      var w := After(env, before);
      if Subject(l) != Some(id) {
        Untouched(env, w, l, id);
        SocketAlways(env, before, id);
      } else if !l.Insert? {
        Always(env, before);
        assert id in w.conns ==> ConnOk(env, w, id);
        SocketAlways(env, before, id);
        SocketStep(env, w, l, id);
      }
    }
  }

  /** Ordered output: the text frames that a session writes are a prefix of the order in which frames
      entered its client's queue, which never exceeds its bound. */
  lemma OrderedOutput(env: Env, run: seq<Label>, id: ConnId)
    requires Legal(env, run) && id in After(env, run).clients
    ensures
      var w := After(env, run);
      var cl := w.clients[id];
      && cl.socket <= Accepted(cl.log)
      && |Queue(w, id)| <= env.config.sendQueue
  {
    Always(env, run);
    SocketAlways(env, run, id);
    QueueIsFifo(env, run, id);
    var w := After(env, run);
    if id in w.conns {
      assert ConnOk(env, w, id);
    }
  }

  // ---- When an offer finds room ---------------------------------------------------------

  /** An offer enters the queue when fewer than `send_queue` frames wait in it, and is dropped
      when that many do. */
  ghost predicate RoomOk(env: Env, log: seq<Event>, i: nat)
    requires i < |log|
  {
    log[i].Offer? ==>
      var waiting := |Accepted(log[..i])| - |Taken(log[..i])|;
      && (log[i].outcome.Sent? ==> waiting < env.config.sendQueue)
      && (log[i].outcome.Full? ==> waiting == env.config.sendQueue)
  }

  lemma RoomOfNews(env: Env, w: World, l: Label, id: ConnId)
    requires Enabled(env, w, l) && id in w.conns && ConnOk(env, w, id) && OutputOk(w, id)
    requires News(env, w, l, id) != []
    ensures
      var log := w.clients[id].log + News(env, w, l, id);
      |log| == |w.clients[id].log| + 1 && RoomOk(env, log, |w.clients[id].log|)
  {
    var log := w.clients[id].log + News(env, w, l, id);
    assert log[..|w.clients[id].log|] == w.clients[id].log;
  }

  lemma {:induction false} OffersFollowTheQueue(env: Env, run: seq<Label>, id: ConnId, i: nat)
    requires Legal(env, run) && id in After(env, run).clients && i < |After(env, run).clients[id].log|
    ensures RoomOk(env, After(env, run).clients[id].log, i)
  {
    if run != [] {
      var before, l := run[..|run| - 1], run[|run| - 1];
      var w := After(env, before);
      if Subject(l) != Some(id) {
        Untouched(env, w, l, id);
        OffersFollowTheQueue(env, before, id, i);
      } else if !l.Insert? {
        Always(env, before);
        Histories(env, w, l, id);
        var log := w.clients[id].log;
        if i < |log| {
          OffersFollowTheQueue(env, before, id, i);
          assert (log + News(env, w, l, id))[..i] == log[..i];
        } else {
          QueueIsFifo(env, before, id);
          assert ConnOk(env, w, id);
          RoomOfNews(env, w, l, id);
        }
      }
    }
  }

  lemma {:induction false} WaitingGrows(log: seq<Event>, i: nat, j: nat)
    requires i <= j <= |log| && forall k :: i <= k < j ==> !log[k].Took?
    ensures |Accepted(log[..i])| - |Taken(log[..i])| <= |Accepted(log[..j])| - |Taken(log[..j])|
  {
    if i < j {
      WaitingGrows(log, i, j - 1);
      assert log[..j] == log[..j - 1] + [log[j - 1]];
      Logged(log[..j - 1], log[j - 1]);
    }
  }

  /** Once one offer finds the queue full, none by any thread succeeds until the session takes a
      frame. */
  lemma FullStaysFull(env: Env, run: seq<Label>, id: ConnId, i: nat, j: nat)
    requires Legal(env, run) && id in After(env, run).clients
    requires
      var log := After(env, run).clients[id].log;
      && i < j < |log| && log[i].Offer? && log[i].outcome.Full? && log[j].Offer?
      && forall k :: i < k < j ==> !log[k].Took?
    ensures !After(env, run).clients[id].log[j].outcome.Sent?
  {
    OffersFollowTheQueue(env, run, id, i);
    OffersFollowTheQueue(env, run, id, j);
    WaitingGrows(After(env, run).clients[id].log, i, j);
  }

  // ---- What a publisher's frames become -------------------------------------------------

  function Entered(log: seq<Event>, p: nat, scopes: set<Scope>): seq<Frame> {
    if log == [] then []
    else
      var e := log[|log| - 1];
      Entered(log[..|log| - 1], p, scopes) +
      if e.Offer? && e.sender == Publisher(p) && e.scope in scopes && e.outcome.Sent? then [e.frame] else []
  }

  function Fates(log: seq<Event>, p: nat, scopes: set<Scope>): seq<Outcome> {
    if log == [] then []
    else
      var e := log[|log| - 1];
      Fates(log[..|log| - 1], p, scopes) +
      if e.Offer? && e.sender == Publisher(p) && e.scope in scopes then [e.outcome] else []
  }

  function Pick(frames: seq<Frame>, fates: seq<Outcome>): seq<Frame>
    requires |frames| == |fates|
  {
    if frames == [] then []
    else
      var n := |frames| - 1;
      Pick(frames[..n], fates[..n]) + if fates[n].Sent? then [frames[n]] else []
  }

  lemma {:induction false} KeptIsPicked(log: seq<Event>, p: nat, scopes: set<Scope>)
    ensures |Heard(log, p, scopes)| == |Fates(log, p, scopes)|
    ensures Entered(log, p, scopes) == Pick(Heard(log, p, scopes), Fates(log, p, scopes))
  {
    if log != [] {
      var n := |log| - 1;
      KeptIsPicked(log[..n], p, scopes);
      var h, f := Heard(log[..n], p, scopes), Fates(log[..n], p, scopes);
      var e := log[n];
      if e.Offer? && e.sender == Publisher(p) && e.scope in scopes {
        assert Heard(log, p, scopes)[..|h|] == h && Fates(log, p, scopes)[..|f|] == f;
      } else {
        assert Heard(log, p, scopes) == h && Fates(log, p, scopes) == f;
      }
    }
  }

  /** With nothing on its way, the frames of one publisher that entered the queue on a channel
      since the subscription began are those it published since then, minus exactly the ones whose
      delivery did not find room. */
  lemma EnqueuedIsPublishedMinusDrops(env: Env, run: seq<Label>, id: ConnId, ch: Channel, p: nat)
    requires Legal(env, run) && Holds(After(env, run).conns, id, ch)
    requires Owed(After(env, run), id, p, {One(ch)}) == []
    ensures
      var w := After(env, run);
      id in w.clients && ch in w.clients[id].joins &&
      var j := w.clients[id].joins[ch];
      j.logPos <= |w.clients[id].log| && j.tapePos <= |w.tape| &&
      var log := w.clients[id].log[j.logPos..];
      var aired := Aired(w.tape[j.tapePos..], p, {One(ch)});
      && |aired| == |Fates(log, p, {One(ch)})|
      && Entered(log, p, {One(ch)}) == Pick(aired, Fates(log, p, {One(ch)}))
  {
    ExactWhileSubscribed(env, run, id, ch, p, {One(ch)});
    var w := After(env, run);
    var j := w.clients[id].joins[ch];
    KeptIsPicked(w.clients[id].log[j.logPos..], p, {One(ch)});
    assert Heard(w.clients[id].log[j.logPos..], p, {One(ch)}) + [] == Heard(w.clients[id].log[j.logPos..], p, {One(ch)});
  }
}
