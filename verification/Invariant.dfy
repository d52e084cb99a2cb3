/** What holds in every reachable state of the machine: the two registry maps agree, ids are
    used once, queues and subscription sets stay within their limits, and read-lock holders
    only address connections that are there. */
module Invariant {
  import opened Protocol
  import opened Subscriptions
  import opened Requests
  import opened Machine

  /** A session never says Data, nor `authenticated` again. */
  ghost predicate JobsOk(jobs: seq<Job>) {
    forall i :: 0 <= i < |jobs| && jobs[i].Say? ==> !jobs[i].frame.Data? && !jobs[i].frame.Authenticated?
  }

  ghost predicate ConnOk(env: Env, w: World, id: ConnId)
    requires id in w.conns
  {
    var c := w.conns[id];
    && id in w.clients
    && c.subject == w.clients[id].claims.subject
    && c.capacity == env.config.sendQueue
    && |c.queue| <= c.capacity
    && Lawful(env, w.clients[id].claims, c.subscriptions)
    && (!c.open ==> w.clients[id].over && c.queue == [])
  }

  ghost predicate ClientOk(w: World, id: ConnId)
    requires id in w.clients
  {
    && 1 <= id < w.nextId && id !in w.drawn
    && (!w.clients[id].over ==> id in w.conns && w.conns[id].open)
    && (w.clients[id].atTop ==> w.clients[id].jobs == [])
  }

  ghost predicate ReaderOk(w: World, th: Thread)
    requires th in w.readers
  {
    var r := w.readers[th];
    && r.todo <= w.conns.Keys
    && (r.flight.Some? ==> r.flight.value.id in w.conns && !r.flight.value.outcome.Closed?)
    && match th
       case Session(id) =>
         && r.scope == Self && r.todo <= {id} && (r.flight.Some? ==> r.flight.value.id == id)
         && id in w.clients && !w.clients[id].over && !w.clients[id].atTop
         && !r.frame.Data? && !r.frame.Authenticated?
       case Publisher(_) =>
         && !r.scope.Self?
         && (r.scope.One? ==> Airable(r.scope.channel, r.frame) &&
                              forall id :: id in r.todo ==> Holds(w.conns, id, r.scope.channel))
         && (r.scope.All? ==> r.frame == Resync([]))
  }

  ghost predicate Inv(env: Env, w: World) {
    && Coupled(w.conns, w.index)
    && 1 <= w.nextId
    && (forall id :: id in w.drawn ==> 1 <= id < w.nextId)
    && (forall id :: id in w.conns ==> ConnOk(env, w, id))
    && (forall id :: id in w.clients ==> ClientOk(w, id) && JobsOk(w.clients[id].jobs))
    && (forall th :: th in w.readers ==> ReaderOk(w, th))
  }

  lemma SubsetSize<T>(a: set<T>, b: set<T>)
    requires a <= b
    ensures |a| <= |b|
  {
    assert b == a + (b - a);
  }

  lemma CoupledStep(env: Env, w: World, l: Label)
    requires Enabled(env, w, l) && Coupled(w.conns, w.index)
    requires l.Insert? ==> l.id !in w.conns
    ensures var w' := Step(env, w, l); Coupled(w'.conns, w'.index)
  {
    if l.Insert? || l.Subscribe? || l.Unsubscribe? || l.Remove? {
      CoupledWrite(env, w, l);
    } else {
      CoupledRest(env, w, l);
    }
  }

  lemma CoupledWrite(env: Env, w: World, l: Label)
    requires Enabled(env, w, l) && Coupled(w.conns, w.index)
    requires l.Insert? || l.Subscribe? || l.Unsubscribe? || l.Remove?
    requires l.Insert? ==> l.id !in w.conns
    ensures var w' := Step(env, w, l); Coupled(w'.conns, w'.index)
  {
    match l
    case Insert(id, claims) => InsertCouples(w.conns, w.index, id, Fresh(env, claims));
    case Subscribe(id, channels) => CoupledSubscribe(env, w, id, channels);
    case Unsubscribe(id, channels) => CoupledUnsubscribe(w, id, channels);
    case Remove(id) => RemoveCouples(w.conns, w.index, id);
  }

  lemma CoupledRest(env: Env, w: World, l: Label)
    requires Enabled(env, w, l) && Coupled(w.conns, w.index)
    requires !l.Insert? && !l.Subscribe? && !l.Unsubscribe? && !l.Remove?
    ensures var w' := Step(env, w, l); Coupled(w'.conns, w'.index)
  {
    var w' := Step(env, w, l);
    HoldingsUntouched(env, w, l);
    SameHoldingsCouple(w.conns, w'.conns, w.index);
  }

  lemma HoldingsUntouched(env: Env, w: World, l: Label)
    requires Enabled(env, w, l) && !l.Insert? && !l.Subscribe? && !l.Unsubscribe? && !l.Remove?
    ensures
      var w' := Step(env, w, l);
      && w'.index == w.index && w'.conns.Keys == w.conns.Keys
      && forall id :: id in w.conns ==> w'.conns[id].subscriptions == w.conns[id].subscriptions
  {
  }

  lemma CoupledSubscribe(env: Env, w: World, id: ConnId, channels: seq<Channel>)
    requires id in w.conns && id in w.clients && Coupled(w.conns, w.index)
    ensures var w' := DoSubscribe(env, w, id, channels); Coupled(w'.conns, w'.index)
  {
    var held, claims := w.conns[id].subscriptions, w.clients[id].claims;
    AdmitGrows(held, Keep(Keep(channels, Short(env)), Allowed(env, claims)), env.config.maxSubscriptions);
    EnlistCouples(w.conns, w.index, id, Names(Judge(env, claims, held, channels).added));
  }

  lemma CoupledUnsubscribe(w: World, id: ConnId, channels: seq<Channel>)
    requires id in w.conns && id in w.clients && Coupled(w.conns, w.index)
    ensures var w' := DoUnsubscribe(w, id, channels); Coupled(w'.conns, w'.index)
  {
    var held := w.conns[id].subscriptions;
    WithdrawMeaning(held, channels);
    var r := Withdraw(held, channels);
    assert held - Names(r.removed) == r.held;
    DelistCouples(w.conns, w.index, id, Names(r.removed));
  }

  lemma ConnStepSubscribe(env: Env, w: World, id: ConnId, channels: seq<Channel>)
    requires id in w.conns && id in w.clients && ConnOk(env, w, id)
    ensures ConnOk(env, DoSubscribe(env, w, id, channels), id)
  {
    JudgeIsLawful(env, w.clients[id].claims, w.conns[id].subscriptions, channels);
  }

  lemma ConnStepUnsubscribe(env: Env, w: World, id: ConnId, channels: seq<Channel>)
    requires id in w.conns && id in w.clients && ConnOk(env, w, id)
    ensures ConnOk(env, DoUnsubscribe(w, id, channels), id)
  {
    WithdrawMeaning(w.conns[id].subscriptions, channels);
    SubsetSize(Withdraw(w.conns[id].subscriptions, channels).held, w.conns[id].subscriptions);
  }

  lemma ConnStep(env: Env, w: World, l: Label, id: ConnId)
    requires Enabled(env, w, l) && id in Step(env, w, l).conns
    requires id in w.conns ==> ConnOk(env, w, id)
    ensures ConnOk(env, Step(env, w, l), id)
  {
    if Subject(l) != Some(id) {
      Untouched(env, w, l, id);
    } else {
      match l
      case Subscribe(_, channels) => ConnStepSubscribe(env, w, id, channels);
      case Unsubscribe(_, channels) => ConnStepUnsubscribe(env, w, id, channels);
      case _ =>
    }
  }

  lemma ClientStep(env: Env, w: World, l: Label, id: ConnId)
    requires Enabled(env, w, l) && id in Step(env, w, l).clients
    requires id in w.clients ==> ClientOk(w, id)
    requires id in w.conns ==> ConnOk(env, w, id)
    requires id in w.drawn ==> 1 <= id < w.nextId
    ensures ClientOk(Step(env, w, l), id)
  {
    if Subject(l) != Some(id) {
      Untouched(env, w, l, id);
    }
  }

  lemma JobsStep(env: Env, w: World, l: Label, id: ConnId)
    requires Enabled(env, w, l) && id in Step(env, w, l).clients
    requires id in w.clients ==> JobsOk(w.clients[id].jobs)
    ensures JobsOk(Step(env, w, l).clients[id].jobs)
  {
    if Subject(l) != Some(id) {
      Untouched(env, w, l, id);
    }
  }

  /** A reader stays right while subscriptions and the session it belongs to stay as they are. */
  lemma ReaderKept(w: World, w': World, th: Thread)
    requires th in w.readers && ReaderOk(w, th) && th in w'.readers && w'.readers[th] == w.readers[th]
    requires w'.conns.Keys == w.conns.Keys
    requires forall id :: id in w.conns ==> w'.conns[id].subscriptions == w.conns[id].subscriptions
    requires th.Session? ==> th.id in w'.clients && w'.clients[th.id].over == w.clients[th.id].over
                             && w'.clients[th.id].atTop == w.clients[th.id].atTop
    ensures ReaderOk(w', th)
  {
  }

  lemma ReaderStartPublish(w: World, p: nat, ch: Channel, frame: Frame)
    requires Coupled(w.conns, w.index) && Airable(ch, frame)
    ensures ReaderOk(DoPublish(w, p, ch, frame), Publisher(p))
  {
    forall id | id in Holders(w.index, ch)
      ensures id in w.conns && Holds(w.conns, id, ch)
    {
      assert Listed(w.index, id, ch);
    }
  }

  lemma ReaderStart(env: Env, w: World, l: Label, th: Thread)
    requires Enabled(env, w, l) && th in Step(env, w, l).readers
    requires th in w.readers ==> ReaderOk(w, th)
    requires l.StartPublish? || l.StartBroadcast? || l.StartSend?
    requires l.StartPublish? ==> Coupled(w.conns, w.index)
    requires l.StartSend? ==> ClientOk(w, l.id) && JobsOk(w.clients[l.id].jobs)
    ensures ReaderOk(Step(env, w, l), th)
  {
    if l.StartPublish? && th == Publisher(l.p) {
      ReaderStartPublish(w, l.p, l.channel, l.frame);
    } else if l.StartBroadcast? && th == Publisher(l.p) {
    } else if l.StartSend? && th == Session(l.id) {
    } else {
      ReaderKept(w, Step(env, w, l), th);
    }
  }

  lemma ReaderOfOther(env: Env, w: World, l: Label, th: Thread)
    requires Enabled(env, w, l) && th in Step(env, w, l).readers
    requires l.TrySend? || l.Count? || l.Mark? || l.EndRead?
    requires th in w.readers && ReaderOk(w, th) && l.th != th
    ensures ReaderOk(Step(env, w, l), th)
  {
    ReaderKept(w, Step(env, w, l), th);
  }

  lemma ReaderDelivery(env: Env, w: World, l: Label, th: Thread)
    requires Enabled(env, w, l) && th in Step(env, w, l).readers
    requires th in w.readers && ReaderOk(w, th)
    requires l.TrySend? || l.Count? || l.Mark? || l.EndRead?
    ensures ReaderOk(Step(env, w, l), th)
  {
    if l.th != th {
      ReaderOfOther(env, w, l, th);
    } else {
      ReaderOwnDelivery(env, w, l);
    }
  }

  lemma ReaderOwnDelivery(env: Env, w: World, l: Label)
    requires l.TrySend? || l.Count? || l.Mark? || l.EndRead?
    requires Enabled(env, w, l) && l.th in Step(env, w, l).readers
    requires l.th in w.readers && ReaderOk(w, l.th)
    ensures ReaderOk(Step(env, w, l), l.th)
  {
  }

  lemma ReaderStep(env: Env, w: World, l: Label, th: Thread)
    requires Enabled(env, w, l) && th in Step(env, w, l).readers
    requires th in w.readers ==> ReaderOk(w, th)
    requires l.StartPublish? ==> Coupled(w.conns, w.index)
    requires l.StartSend? ==> ClientOk(w, l.id) && JobsOk(w.clients[l.id].jobs)
    ensures ReaderOk(Step(env, w, l), th)
  {
    if l.StartPublish? || l.StartBroadcast? || l.StartSend? {
      ReaderStart(env, w, l, th);
    } else if Reads(l) {
      ReaderDelivery(env, w, l, th);
    } else {
      ReadersUntouched(env, w, l);
      ReaderKept(w, Step(env, w, l), th);
    }
  }

  lemma InsertIsFresh(env: Env, w: World, id: ConnId)
    requires Inv(env, w) && id in w.drawn
    ensures id !in w.conns
  {
  }

  lemma ReadersStep(env: Env, w: World, l: Label)
    requires Inv(env, w) && Enabled(env, w, l)
    ensures var w' := Step(env, w, l); forall th :: th in w'.readers ==> ReaderOk(w', th)
  {
    var w' := Step(env, w, l);
    forall th | th in w'.readers ensures ReaderOk(w', th) {
      ReaderStep(env, w, l, th);
    }
  }

  lemma ClientsStep(env: Env, w: World, l: Label)
    requires Inv(env, w) && Enabled(env, w, l)
    ensures var w' := Step(env, w, l); forall id :: id in w'.clients ==> ClientOk(w', id) && JobsOk(w'.clients[id].jobs)
  {
    var w' := Step(env, w, l);
    forall id | id in w'.clients ensures ClientOk(w', id) && JobsOk(w'.clients[id].jobs) {
      ClientStep(env, w, l, id);
      JobsStep(env, w, l, id);
    }
  }

  lemma InvStep(env: Env, w: World, l: Label)
    requires Inv(env, w) && Enabled(env, w, l)
    ensures Inv(env, Step(env, w, l))
  {
    var w' := Step(env, w, l);
    if l.Insert? {
      InsertIsFresh(env, w, l.id);
    }
    CoupledStep(env, w, l);
    forall id | id in w'.conns ensures ConnOk(env, w', id) {
      ConnStep(env, w, l, id);
    }
    ClientsStep(env, w, l);
    ReadersStep(env, w, l);
  }

  /** The index invariant and the limits hold in every reachable state. */
  lemma {:induction false} Always(env: Env, run: seq<Label>)
    requires Legal(env, run)
    ensures Inv(env, After(env, run))
  {
    if run != [] {
      Always(env, run[..|run| - 1]);
      InvStep(env, After(env, run[..|run| - 1]), run[|run| - 1]);
    }
  }
}
