/** What the session's own answers look like in between everybody else's frames: `unsubscribed`
    is a fence, and the replies to one `subscribe` enter the queue as a prefix. */
module Dialogue {
  import opened Protocol
  import opened Delivery
  import opened Subscriptions
  import opened Requests
  import opened Machine
  import opened Invariant
  import opened Tracking
  import opened Output

  /** The frame the session of `id` is about to put into its own queue. */
  function Speaking(w: World, id: ConnId): seq<Frame> {
    if Session(id) in w.readers && id in w.readers[Session(id)].todo then [w.readers[Session(id)].frame] else []
  }

  lemma SpeakingUntouched(env: Env, w: World, l: Label, id: ConnId)
    requires Enabled(env, w, l) && Subject(l) != Some(id)
    ensures Speaking(Step(env, w, l), id) == Speaking(w, id)
  {
  }

  // ---- The fence --------------------------------------------------------------------------

  /** The channels held, as the log tells it. */
  function Active(log: seq<Event>): set<Channel> {
    if log == [] then {}
    else
      match log[|log| - 1]
      case Joined(added, _) => Active(log[..|log| - 1]) + Names(added)
      case Left(removed) => Active(log[..|log| - 1]) - Names(removed)
      case _ => Active(log[..|log| - 1])
  }

  /** Data and snapshots speak about a held channel, `unsubscribed` about channels not held. */
  ghost predicate Fits(frame: Frame, held: set<Channel>) {
    match frame
    case Data(ch, _) => ch in held
    case Snapshot(ch, _) => ch in held
    case Unsubscribed(channels) => held !! Names(channels)
    case _ => true
  }

  ghost predicate JobFits(job: Job, held: set<Channel>) {
    match job
    case Say(frame) => Fits(frame, held)
    case Look(ch) => ch in held
  }

  ghost predicate JobsFit(jobs: seq<Job>, held: set<Channel>) {
    forall i :: 0 <= i < |jobs| ==> JobFits(jobs[i], held)
  }

  ghost predicate FenceOk(w: World, id: ConnId) {
    && id in w.clients && id in w.conns
    && Active(w.clients[id].log) == w.conns[id].subscriptions
    && JobsFit(w.clients[id].jobs, w.conns[id].subscriptions)
    && (Speaking(w, id) != [] ==> Fits(Speaking(w, id)[0], w.conns[id].subscriptions))
  }

  lemma JudgeGrows(env: Env, claims: Claims, held: set<Channel>, channels: seq<Channel>)
    ensures
      var v := Judge(env, claims, held, channels);
      v.held == held + Names(v.added)
  {
    AdmitGrows(held, Keep(Keep(channels, Short(env)), Allowed(env, claims)), env.config.maxSubscriptions);
  }

  lemma FenceSubscribe(env: Env, w: World, id: ConnId, channels: seq<Channel>)
    requires FenceOk(w, id) && Unlocked(w)
    ensures FenceOk(DoSubscribe(env, w, id, channels), id)
  {
    var v := Judge(env, w.clients[id].claims, w.conns[id].subscriptions, channels);
    JudgeGrows(env, w.clients[id].claims, w.conns[id].subscriptions, channels);
    ActiveJoined(w.clients[id].log, v.added, v.rejected);
    AnswerFits(v.added, v.rejected, v.held);
  }

  lemma ActiveJoined(log: seq<Event>, added: seq<Channel>, rejected: seq<Rejected>)
    ensures Active(log + [Joined(added, rejected)]) == Active(log) + Names(added)
  {
    assert (log + [Joined(added, rejected)])[..|log|] == log;
  }

  lemma AnswerFits(added: seq<Channel>, rejected: seq<Rejected>, held: set<Channel>)
    requires Names(added) <= held
    ensures JobsFit([Say(Subscribed(added, rejected))] + Looks(added), held)
  {
    forall i | 0 <= i < |added| ensures added[i] in held {
      assert added[i] in Names(added);
    }
  }

  lemma FenceUnsubscribe(w: World, id: ConnId, channels: seq<Channel>)
    requires FenceOk(w, id) && Unlocked(w)
    ensures FenceOk(DoUnsubscribe(w, id, channels), id)
  {
    var held := w.conns[id].subscriptions;
    var r := Withdraw(held, channels);
    WithdrawMeaning(held, channels);
    assert held - Names(r.removed) == r.held;
    var log := w.clients[id].log + [Left(r.removed)];
    assert log[..|w.clients[id].log|] == w.clients[id].log;
  }

  lemma ActiveTalk(log: seq<Event>, e: Event)
    requires e.Looked? || e.Asked?
    ensures Active(log + [e]) == Active(log)
  {
    assert (log + [e])[..|log|] == log;
  }

  lemma JobsFitRest(jobs: seq<Job>, held: set<Channel>)
    requires jobs != [] && JobsFit(jobs, held)
    ensures JobFits(jobs[0], held) && JobsFit(jobs[1..], held)
  {
    assert forall i :: 0 <= i < |jobs[1..]| ==> jobs[1..][i] == jobs[i + 1];
  }

  lemma FenceLookup(w: World, id: ConnId)
    requires NextJob(w, id) && w.clients[id].jobs[0].Look? && FenceOk(w, id)
    ensures FenceOk(DoLookup(w, id), id)
  {
    var cl := w.clients[id];
    var found := Find(w.last, cl.jobs[0].channel);
    ActiveTalk(cl.log, Looked(cl.jobs[0].channel, |w.recorded|, found));
    JobsFitRest(cl.jobs, w.conns[id].subscriptions);
    assert [] + cl.jobs[1..] == cl.jobs[1..];
  }

  lemma FenceStartSend(w: World, id: ConnId)
    requires NextJob(w, id) && w.clients[id].jobs[0].Say? && FenceOk(w, id)
    ensures FenceOk(DoStartSend(w, id), id)
  {
    JobsFitRest(w.clients[id].jobs, w.conns[id].subscriptions);
  }

  lemma FenceRequest(env: Env, w: World, id: ConnId, reply: Frame)
    requires Enabled(env, w, Request(id, reply)) && FenceOk(w, id)
    ensures FenceOk(DoRequest(w, id, reply), id)
  {
    ActiveTalk(w.clients[id].log, Asked(reply));
  }

  /** The steps of `id` that neither request, look up nor speak. */
  predicate Aside(l: Label) {
    l.Beat? || l.Take? || l.Check? || l.Shut? || l.Count? || l.Mark? || l.Remove?
  }

  /** What such a step adds to the log is a `Took` or a `Judged` at most, and it leaves the
      session's answers alone. */
  lemma AsideStep(env: Env, w: World, l: Label, id: ConnId)
    requires Enabled(env, w, l) && Subject(l) == Some(id) && id in w.clients && Aside(l)
    ensures
      var w' := Step(env, w, l);
      && id in w'.clients && w'.clients[id].log == w.clients[id].log + News(env, w, l, id)
      && |News(env, w, l, id)| <= 1
      && (News(env, w, l, id) != [] ==> News(env, w, l, id)[0].Took? || News(env, w, l, id)[0].Judged?)
      && (l.Take? <==> News(env, w, l, id) != [] && News(env, w, l, id)[0].Took?)
      && w'.clients[id].jobs == w.clients[id].jobs
      && (id in w.conns && id in w'.conns ==> w'.conns[id].subscriptions == w.conns[id].subscriptions)
  {
    Histories(env, w, l, id);
  }

  lemma AsideSpeaking(env: Env, w: World, l: Label, id: ConnId)
    requires Enabled(env, w, l) && Aside(l)
    ensures Speaking(Step(env, w, l), id) == Speaking(w, id)
  {
  }

  lemma ActiveAside(log: seq<Event>, news: seq<Event>)
    requires |news| <= 1 && (news != [] ==> news[0].Took? || news[0].Judged? || news[0].Offer?)
    ensures Active(log + news) == Active(log)
  {
    if news == [] {
      assert log + news == log;
    } else {
      assert (log + news)[..|log|] == log;
    }
  }

  lemma FenceRest(env: Env, w: World, l: Label, id: ConnId)
    requires Enabled(env, w, l) && Subject(l) == Some(id) && FenceOk(w, id) && Aside(l) && id in Step(env, w, l).conns
    ensures FenceOk(Step(env, w, l), id)
  {
    AsideStep(env, w, l, id);
    AsideSpeaking(env, w, l, id);
    ActiveAside(w.clients[id].log, News(env, w, l, id));
  }

  lemma FenceTrySend(w: World, th: Thread, id: ConnId)
    requires th in w.readers && FenceOk(w, id)
    ensures FenceOk(DoTrySend(w, th, id), id)
  {
    var r := w.readers[th];
    ActiveAside(w.clients[id].log, [Offer(th, r.scope, r.frame, Put(w.conns[id], r.frame).1)]);
  }

  lemma FenceTalk(env: Env, w: World, l: Label, id: ConnId)
    requires Enabled(env, w, l) && Subject(l) == Some(id) && FenceOk(w, id)
    requires l.Subscribe? || l.Unsubscribe? || l.Request? || l.Lookup? || l.StartSend?
    ensures FenceOk(Step(env, w, l), id)
  {
    match l
    case Subscribe(_, channels) => FenceSubscribe(env, w, id, channels);
    case Unsubscribe(_, channels) => FenceUnsubscribe(w, id, channels);
    case Lookup(_) => FenceLookup(w, id);
    case StartSend(_) => FenceStartSend(w, id);
    case Request(_, reply) => FenceRequest(env, w, id, reply);
  }

  lemma FenceOther(env: Env, w: World, l: Label, id: ConnId)
    requires Enabled(env, w, l) && Subject(l) != Some(id) && id in Step(env, w, l).conns
    requires id in w.conns ==> FenceOk(w, id)
    ensures FenceOk(Step(env, w, l), id)
  {
    Untouched(env, w, l, id);
    SpeakingUntouched(env, w, l, id);
  }

  lemma FenceInsert(env: Env, w: World, id: ConnId, claims: Claims)
    requires Session(id) !in w.readers
    ensures FenceOk(DoInsert(env, w, id, claims), id)
  {
  }

  lemma FenceStep(env: Env, w: World, l: Label, id: ConnId)
    requires Enabled(env, w, l) && id in Step(env, w, l).conns
    requires id in w.conns ==> FenceOk(w, id)
    ensures FenceOk(Step(env, w, l), id)
  {
    if Subject(l) != Some(id) {
      FenceOther(env, w, l, id);
    } else if l.Insert? {
      FenceInsert(env, w, id, l.claims);
    } else if l.TrySend? {
      FenceTrySend(w, l.th, id);
    } else if Aside(l) {
      FenceRest(env, w, l, id);
    } else {
      FenceTalk(env, w, l, id);
    }
  }

  lemma {:induction false} FenceAlways(env: Env, run: seq<Label>, id: ConnId)
    requires Legal(env, run) && id in After(env, run).conns
    ensures FenceOk(After(env, run), id)
  {
    if run != [] {
      var before, l := run[..|run| - 1], run[|run| - 1];
      var w := After(env, before);
      if id in w.conns {
        FenceAlways(env, before, id);
      }
      FenceStep(env, w, l, id);
    }
  }

  /** A frame fits the subscriptions in force when it is offered. */
  lemma OfferFits(env: Env, w: World, th: Thread, id: ConnId)
    requires Inv(env, w) && Enabled(env, w, TrySend(th, id)) && FenceOk(w, id)
    ensures Fits(w.readers[th].frame, Active(w.clients[id].log))
  {
    assert ReaderOk(w, th);
    match th
    case Session(i) => assert i == id && Speaking(w, id) == [w.readers[th].frame];
    case Publisher(_) =>
  }

  lemma {:induction false} OffersFit(env: Env, run: seq<Label>, id: ConnId, i: nat)
    requires Legal(env, run) && id in After(env, run).clients && i < |After(env, run).clients[id].log|
    ensures
      var log := After(env, run).clients[id].log;
      log[i].Offer? ==> Fits(log[i].frame, Active(log[..i]))
  {
    if run != [] {
      var before, l := run[..|run| - 1], run[|run| - 1];
      var w := After(env, before);
      if Subject(l) != Some(id) {
        Untouched(env, w, l, id);
        OffersFit(env, before, id, i);
      } else if !l.Insert? {
        Histories(env, w, l, id);
        var log := w.clients[id].log;
        assert i <= |log| ==> (log + News(env, w, l, id))[..i] == log[..i];
        if i < |log| {
          OffersFit(env, before, id, i);
        } else if l.TrySend? {
          Always(env, before);
          FenceAlways(env, before, id);
          OfferFits(env, w, l.th, id);
          assert log[..i] == log;
        }
      }
    }
  }

  lemma {:induction false} Rejoined(log: seq<Event>, i: nat, j: nat, ch: Channel)
    requires i <= j <= |log| && ch !in Active(log[..i]) && ch in Active(log[..j])
    ensures exists k :: i <= k < j && log[k].Joined? && ch in log[k].added
  {
    assert i < j;
    assert log[..j][..j - 1] == log[..j - 1];
    if ch in Active(log[..j - 1]) {
      Rejoined(log, i, j - 1, ch);
    } else {
      assert log[j - 1].Joined? && ch in Names(log[j - 1].added);
    }
  }

  ghost predicate Speaks(frame: Frame, ch: Channel) {
    (frame.Data? || frame.Snapshot?) && frame.channel == ch
  }

  /** Unsubscribe is a fence: whatever publishers run, no Data or snapshot for a channel is offered
      after an `unsubscribed` naming it, until a later subscribe of that client re-adds it. */
  lemma UnsubscribeIsAFence(env: Env, run: seq<Label>, id: ConnId, i: nat, j: nat, ch: Channel)
    requires Legal(env, run) && id in After(env, run).clients
    requires
      var log := After(env, run).clients[id].log;
      && i < j < |log| && log[i].Offer? && log[j].Offer?
      && log[i].frame.Unsubscribed? && ch in log[i].frame.channels && Speaks(log[j].frame, ch)
    ensures
      var log := After(env, run).clients[id].log;
      exists k :: i < k < j && log[k].Joined? && ch in log[k].added
  {
    OffersFit(env, run, id, i);
    OffersFit(env, run, id, j);
    FenceBetween(After(env, run).clients[id].log, i, j, ch);
  }

  lemma FenceBetween(log: seq<Event>, i: nat, j: nat, ch: Channel)
    requires i < j < |log| && log[i].Offer? && log[j].Offer?
    requires log[i].frame.Unsubscribed? && ch in log[i].frame.channels && Speaks(log[j].frame, ch)
    requires Fits(log[i].frame, Active(log[..i])) && Fits(log[j].frame, Active(log[..j]))
    ensures exists k :: i < k < j && log[k].Joined? && ch in log[k].added
  {
    assert ch in Names(log[i].frame.channels);
    Rejoined(log, i, j, ch);
  }

  lemma {:induction false} AcceptedIndex(log: seq<Event>, a: nat) returns (i: nat)
    requires a < |Accepted(log)|
    ensures i < |log| && log[i].Offer? && log[i].frame == Accepted(log)[a]
    ensures |Accepted(log[..i])| == a
  {
    var n := |log| - 1;
    if a < |Accepted(log[..n])| {
      i := AcceptedIndex(log[..n], a);
      assert log[..n][..i] == log[..i];
    } else {
      i := n;
    }
  }

  lemma {:induction false} AcceptedGrows(log: seq<Event>, i: nat, j: nat)
    requires i <= j <= |log|
    ensures |Accepted(log[..i])| <= |Accepted(log[..j])|
  {
    if i < j {
      AcceptedGrows(log, i, j - 1);
      assert log[..j][..j - 1] == log[..j - 1];
    }
  }

  /** The fence as the client sees it: if its socket carries an `unsubscribed` naming a channel and
      later Data or a snapshot for it, the client subscribed to the channel again in between. */
  lemma FenceOnTheSocket(env: Env, run: seq<Label>, id: ConnId, a: nat, b: nat, ch: Channel)
    returns (i: nat, k: nat, j: nat)
    requires Legal(env, run) && id in After(env, run).clients
    requires
      var socket := After(env, run).clients[id].socket;
      && a < b < |socket|
      && socket[a].Unsubscribed? && ch in socket[a].channels && Speaks(socket[b], ch)
    ensures
      var cl := After(env, run).clients[id];
      && i < k < j < |cl.log|
      && cl.log[i].Offer? && cl.log[i].frame == cl.socket[a]
      && cl.log[k].Joined? && ch in cl.log[k].added
      && cl.log[j].Offer? && cl.log[j].frame == cl.socket[b]
  {
    OrderedOutput(env, run, id);
    var log, socket := After(env, run).clients[id].log, After(env, run).clients[id].socket;
    i, j := OrderedIndices(log, socket, a, b);
    UnsubscribeIsAFence(env, run, id, i, j, ch);
    k :| i < k < j && log[k].Joined? && ch in log[k].added;
  }

  lemma OrderedIndices(log: seq<Event>, written: seq<Frame>, a: nat, b: nat) returns (i: nat, j: nat)
    requires written <= Accepted(log) && a < b < |written|
    ensures i < j < |log| && log[i].Offer? && log[i].frame == written[a] && log[j].Offer? && log[j].frame == written[b]
  {
    i := AcceptedIndex(log, a);
    j := AcceptedIndex(log, b);
    if j <= i {
      AcceptedGrows(log, j, i);
    }
  }

  // ---- One request, one turn ------------------------------------------------------------

  /** The answer the current request calls for, as far as it is decided: the acknowledgement and
      a snapshot for every lookup so far that found one. */
  function Due(log: seq<Event>): seq<Frame> {
    if log == [] then []
    else
      match log[|log| - 1]
      case Joined(added, rejected) => [Subscribed(added, rejected)]
      case Left(removed) => [Unsubscribed(removed)]
      case Asked(reply) => [reply]
      case Looked(ch, _, found) =>
        Due(log[..|log| - 1]) + if found.Some? then [Snapshot(ch, found.value)] else []
      case _ => Due(log[..|log| - 1])
  }

  /** The answers offered in the current turn, and how each offer ended. */
  function Said(log: seq<Event>): seq<(Frame, Outcome)> {
    if log == [] then []
    else
      match log[|log| - 1]
      case Joined(_, _) => []
      case Left(_) => []
      case Asked(_) => []
      case Offer(_, scope, frame, outcome) =>
        Said(log[..|log| - 1]) + if scope.Self? then [(frame, outcome)] else []
      case _ => Said(log[..|log| - 1])
  }

  function Frames(said: seq<(Frame, Outcome)>): (r: seq<Frame>)
    ensures |r| == |said|
  {
    seq(|said|, i requires 0 <= i < |said| => said[i].0)
  }

  /** Added channels not looked up yet, and those looked up, in the current turn. */
  function Unseen(log: seq<Event>): seq<Channel> {
    if log == [] then []
    else
      match log[|log| - 1]
      case Joined(added, _) => added
      case Left(_) => []
      case Asked(_) => []
      case Looked(_, _, _) => var u := Unseen(log[..|log| - 1]); if u == [] then [] else u[1..]
      case _ => Unseen(log[..|log| - 1])
  }

  function Seen(log: seq<Event>): seq<Channel> {
    if log == [] then []
    else
      match log[|log| - 1]
      case Joined(_, _) => []
      case Left(_) => []
      case Asked(_) => []
      case Looked(ch, _, _) => Seen(log[..|log| - 1]) + [ch]
      case _ => Seen(log[..|log| - 1])
  }

  /** What the current turn added. */
  function Added(log: seq<Event>): seq<Channel> {
    if log == [] then []
    else
      match log[|log| - 1]
      case Joined(added, _) => added
      case Left(_) => []
      case Asked(_) => []
      case _ => Added(log[..|log| - 1])
  }

  /** Has the session taken a frame since the request of the current turn? */
  function MovedOn(log: seq<Event>): bool {
    if log == [] then true
    else
      match log[|log| - 1]
      case Joined(_, _) => false
      case Left(_) => false
      case Asked(_) => false
      case Took(_) => true
      case _ => MovedOn(log[..|log| - 1])
  }

  function Next(jobs: seq<Job>): seq<Frame> {
    if jobs != [] && jobs[0].Say? then [jobs[0].frame] else []
  }

  function Rest(jobs: seq<Job>): seq<Job> {
    if jobs != [] && jobs[0].Say? then jobs[1..] else jobs
  }

  /** The script: what was said, is being said and comes next is what is due, and the lookups go
      through the added channels in order. */
  ghost predicate ScriptOk(w: World, id: ConnId) {
    id in w.clients &&
    var cl := w.clients[id];
    && Frames(Said(cl.log)) + Speaking(w, id) + Next(cl.jobs) == Due(cl.log)
    && (Speaking(w, id) != [] ==> Next(cl.jobs) == [])
    && Rest(cl.jobs) == Looks(Unseen(cl.log))
    && Seen(cl.log) + Unseen(cl.log) == Added(cl.log)
    && (Speaking(w, id) != [] || cl.jobs != [] ==> !MovedOn(cl.log))
  }

  lemma LogMore(log: seq<Event>, e: Event)
    ensures (log + [e])[..|log|] == log && (log + [e])[|log|] == e
  {
  }

  lemma FramesMore(said: seq<(Frame, Outcome)>, x: (Frame, Outcome))
    ensures Frames(said + [x]) == Frames(said) + [x.0]
  {
  }

  /** A request opens a turn in which nothing was said yet. */
  lemma TurnOpens(log: seq<Event>, e: Event)
    requires e.Joined? || e.Left? || e.Asked?
    ensures Said(log + [e]) == [] && Seen(log + [e]) == [] && !MovedOn(log + [e])
    ensures Due(log + [e]) == [if e.Joined? then Subscribed(e.added, e.rejected) else if e.Left? then Unsubscribed(e.removed) else e.reply]
    ensures Unseen(log + [e]) == Added(log + [e]) == if e.Joined? then e.added else []
  {
    LogMore(log, e);
  }

  lemma TurnLooks(log: seq<Event>, ch: Channel, at: nat, found: Option<Payload>)
    ensures
      var log' := log + [Looked(ch, at, found)];
      && Said(log') == Said(log) && Added(log') == Added(log) && MovedOn(log') == MovedOn(log)
      && Due(log') == Due(log) + (if found.Some? then [Snapshot(ch, found.value)] else [])
      && Unseen(log') == (if Unseen(log) == [] then [] else Unseen(log)[1..])
      && Seen(log') == Seen(log) + [ch]
  {
    LogMore(log, Looked(ch, at, found));
  }

  lemma TurnOffers(log: seq<Event>, sender: Thread, scope: Scope, frame: Frame, outcome: Outcome)
    ensures
      var log' := log + [Offer(sender, scope, frame, outcome)];
      && Due(log') == Due(log) && Unseen(log') == Unseen(log) && Seen(log') == Seen(log)
      && Added(log') == Added(log) && MovedOn(log') == MovedOn(log)
      && Said(log') == Said(log) + (if scope.Self? then [(frame, outcome)] else [])
  {
    LogMore(log, Offer(sender, scope, frame, outcome));
  }

  lemma ScriptSubscribe(env: Env, w: World, id: ConnId, channels: seq<Channel>)
    requires id in w.conns && id in w.clients && Session(id) !in w.readers
    ensures ScriptOk(DoSubscribe(env, w, id, channels), id)
  {
    var v := Judge(env, w.clients[id].claims, w.conns[id].subscriptions, channels);
    TurnOpens(w.clients[id].log, Joined(v.added, v.rejected));
    var jobs := DoSubscribe(env, w, id, channels).clients[id].jobs;
    assert jobs[1..] == Looks(v.added);
  }

  lemma ScriptUnsubscribe(w: World, id: ConnId, channels: seq<Channel>)
    requires id in w.conns && id in w.clients && Session(id) !in w.readers
    ensures ScriptOk(DoUnsubscribe(w, id, channels), id)
  {
    TurnOpens(w.clients[id].log, Left(Withdraw(w.conns[id].subscriptions, channels).removed));
  }

  lemma ScriptRequest(w: World, id: ConnId, reply: Frame)
    requires id in w.clients && Session(id) !in w.readers
    ensures ScriptOk(DoRequest(w, id, reply), id)
  {
    TurnOpens(w.clients[id].log, Asked(reply));
  }

  /** The jobs left when the first lookup is done. */
  function LookedJobs(unseen: seq<Channel>, found: Option<Payload>): seq<Job>
    requires unseen != []
  {
    (if found.Some? then [Say(Snapshot(unseen[0], found.value))] else []) + Looks(unseen)[1..]
  }

  lemma LookedJobsAre(unseen: seq<Channel>, found: Option<Payload>)
    requires unseen != []
    ensures Next(LookedJobs(unseen, found)) == if found.Some? then [Snapshot(unseen[0], found.value)] else []
    ensures Rest(LookedJobs(unseen, found)) == Looks(unseen[1..])
  {
    assert Looks(unseen)[1..] == Looks(unseen[1..]);
    if found.Some? {
      assert LookedJobs(unseen, found)[1..] == Looks(unseen)[1..];
    } else {
      assert LookedJobs(unseen, found) == Looks(unseen)[1..];
    }
  }

  lemma ScriptLookup(w: World, id: ConnId)
    requires NextJob(w, id) && w.clients[id].jobs[0].Look? && ScriptOk(w, id)
    ensures ScriptOk(DoLookup(w, id), id)
  {
    var cl := w.clients[id];
    var unseen, found := Unseen(cl.log), Find(w.last, cl.jobs[0].channel);
    assert cl.jobs == Looks(unseen) && unseen[0] == cl.jobs[0].channel;
    TurnLooks(cl.log, unseen[0], |w.recorded|, found);
    LookedJobsAre(unseen, found);
    assert DoLookup(w, id).clients[id].jobs == LookedJobs(unseen, found);
    assert Speaking(DoLookup(w, id), id) == Speaking(w, id) == [];
    MoveFirst(Seen(cl.log), unseen);
    SameTail(Frames(Said(cl.log)), Due(cl.log), Next(LookedJobs(unseen, found)));
  }

  lemma MoveFirst(seen: seq<Channel>, unseen: seq<Channel>)
    requires unseen != []
    ensures seen + [unseen[0]] + unseen[1..] == seen + unseen
  {
    assert unseen == [unseen[0]] + unseen[1..];
  }

  lemma SameTail(said: seq<Frame>, due: seq<Frame>, next: seq<Frame>)
    requires said + [] + [] == due
    ensures said + [] + next == due + next
  {
    assert said + [] == said && said + [] + [] == said;
  }

  lemma ScriptStartSend(w: World, id: ConnId)
    requires NextJob(w, id) && w.clients[id].jobs[0].Say? && ScriptOk(w, id)
    ensures ScriptOk(DoStartSend(w, id), id)
  {
    var cl := w.clients[id];
    assert Speaking(DoStartSend(w, id), id) == [cl.jobs[0].frame];
    assert cl.jobs[1..] == Looks(Unseen(cl.log));
    assert Next(cl.jobs[1..]) == [];
  }

  /** The session says the frame it was about to say. */
  lemma ScriptSpoken(w: World, id: ConnId)
    requires Session(id) in w.readers && id in w.readers[Session(id)].todo && id in w.conns && ScriptOk(w, id)
    requires w.readers[Session(id)].scope.Self?
    ensures ScriptOk(DoTrySend(w, Session(id), id), id)
  {
    var cl, r := w.clients[id], w.readers[Session(id)];
    var outcome := Put(w.conns[id], r.frame).1;
    TurnOffers(cl.log, Session(id), r.scope, r.frame, outcome);
    FramesMore(Said(cl.log), (r.frame, outcome));
    assert Speaking(w, id) == [r.frame] && Next(cl.jobs) == [];
    assert Speaking(DoTrySend(w, Session(id), id), id) == [];
  }

  /** Somebody else's frame is no part of the script. */
  lemma ScriptHeard(w: World, th: Thread, id: ConnId)
    requires th in w.readers && th != Session(id) && id in w.conns && ScriptOk(w, id) && !w.readers[th].scope.Self?
    ensures ScriptOk(DoTrySend(w, th, id), id)
  {
    var r := w.readers[th];
    TurnOffers(w.clients[id].log, th, r.scope, r.frame, Put(w.conns[id], r.frame).1);
    assert Said(w.clients[id].log) + [] == Said(w.clients[id].log);
    assert Speaking(DoTrySend(w, th, id), id) == Speaking(w, id);
  }

  lemma ScriptTrySend(w: World, th: Thread, id: ConnId)
    requires th in w.readers && id in w.readers[th].todo && id in w.conns && id in w.clients && ScriptOk(w, id)
    requires ReaderOk(w, th)
    ensures ScriptOk(DoTrySend(w, th, id), id)
  {
    if th == Session(id) {
      ScriptSpoken(w, id);
    } else {
      ScriptHeard(w, th, id);
    }
  }

  lemma TurnAside(log: seq<Event>, news: seq<Event>)
    requires |news| <= 1 && (news != [] ==> news[0].Took? || news[0].Judged?)
    ensures Due(log + news) == Due(log) && Said(log + news) == Said(log)
    ensures Unseen(log + news) == Unseen(log) && Seen(log + news) == Seen(log) && Added(log + news) == Added(log)
    ensures MovedOn(log + news) <==> MovedOn(log) || (news != [] && news[0].Took?)
  {
    if news == [] {
      assert log + news == log;
    } else {
      assert (log + news)[..|log|] == log;
    }
  }

  lemma ScriptRest(env: Env, w: World, l: Label, id: ConnId)
    requires Enabled(env, w, l) && Subject(l) == Some(id) && id in w.clients && ScriptOk(w, id) && Aside(l)
    requires w.clients[id].atTop ==> w.clients[id].jobs == []
    ensures ScriptOk(Step(env, w, l), id)
  {
    AsideStep(env, w, l, id);
    AsideSpeaking(env, w, l, id);
    TurnAside(w.clients[id].log, News(env, w, l, id));
  }

  lemma ScriptTalk(env: Env, w: World, l: Label, id: ConnId)
    requires Enabled(env, w, l) && Subject(l) == Some(id) && id in w.clients && ScriptOk(w, id)
    requires l.Subscribe? || l.Unsubscribe? || l.Request? || l.Lookup? || l.StartSend?
    ensures ScriptOk(Step(env, w, l), id)
  {
    match l
    case Subscribe(_, channels) => ScriptSubscribe(env, w, id, channels);
    case Unsubscribe(_, channels) => ScriptUnsubscribe(w, id, channels);
    case Request(_, reply) => ScriptRequest(w, id, reply);
    case Lookup(_) => ScriptLookup(w, id);
    case StartSend(_) => ScriptStartSend(w, id);
  }

  lemma ScriptOther(env: Env, w: World, l: Label, id: ConnId)
    requires Enabled(env, w, l) && Subject(l) != Some(id) && id in Step(env, w, l).clients
    requires id in w.clients ==> ScriptOk(w, id)
    ensures ScriptOk(Step(env, w, l), id)
  {
    Untouched(env, w, l, id);
    SpeakingUntouched(env, w, l, id);
  }

  lemma ScriptInsert(env: Env, w: World, id: ConnId, claims: Claims)
    requires Session(id) !in w.readers
    ensures ScriptOk(DoInsert(env, w, id, claims), id)
  {
  }

  lemma ScriptStep(env: Env, w: World, l: Label, id: ConnId)
    requires Enabled(env, w, l) && id in Step(env, w, l).clients
    requires id in w.clients ==> ScriptOk(w, id) && ClientOk(w, id)
    requires l.TrySend? ==> ReaderOk(w, l.th)
    requires l.Insert? ==> Session(l.id) !in w.readers
    ensures ScriptOk(Step(env, w, l), id)
  {
    if Subject(l) != Some(id) {
      ScriptOther(env, w, l, id);
    } else if l.Insert? {
      ScriptInsert(env, w, id, l.claims);
    } else if l.TrySend? {
      ScriptTrySend(w, l.th, id);
    } else if Aside(l) {
      ScriptRest(env, w, l, id);
    } else {
      ScriptTalk(env, w, l, id);
    }
  }

  lemma {:induction false} ScriptAlways(env: Env, run: seq<Label>, id: ConnId)
    requires Legal(env, run) && id in After(env, run).clients
    ensures ScriptOk(After(env, run), id)
  {
    if run != [] {
      var before, l := run[..|run| - 1], run[|run| - 1];
      var w := After(env, before);
      Always(env, before);
      if id in w.clients {
        ScriptAlways(env, before, id);
      }
      ScriptStep(env, w, l, id);
    }
  }

  /** Sent answers come first: after one finds the queue full, no later one of the turn fits. */
  ghost predicate Orderly(said: seq<(Frame, Outcome)>) {
    && (forall i :: 0 <= i < |said| ==> !said[i].1.Closed?)
    && (forall i, j :: 0 <= i < j < |said| && said[j].1.Sent? ==> said[i].1.Sent?)
  }

  ghost predicate Stuck(said: seq<(Frame, Outcome)>) {
    exists i :: 0 <= i < |said| && said[i].1.Full?
  }

  ghost predicate OrderOk(w: World, id: ConnId) {
    id in w.clients &&
    var said := Said(w.clients[id].log);
    && Orderly(said)
    && (Stuck(said) && !MovedOn(w.clients[id].log) && id in w.conns && w.conns[id].open ==>
          |w.conns[id].queue| >= w.conns[id].capacity)
  }

  lemma OrderTrySend(w: World, th: Thread, id: ConnId)
    requires th in w.readers && id in w.readers[th].todo && id in w.conns && id in w.clients
    requires OrderOk(w, id) && ScriptOk(w, id) && ReaderOk(w, th) && ClientOk(w, id)
    ensures OrderOk(DoTrySend(w, th, id), id)
  {
    var cl, r := w.clients[id], w.readers[th];
    var outcome := Put(w.conns[id], r.frame).1;
    TurnOffers(cl.log, th, r.scope, r.frame, outcome);
    if th == Session(id) {
      assert Speaking(w, id) == [r.frame];
      assert !MovedOn(cl.log) && w.conns[id].open;
      OrderlyMore(Said(cl.log), (r.frame, outcome));
    } else {
      assert Said(cl.log) + [] == Said(cl.log);
    }
  }

  lemma OrderlyMore(said: seq<(Frame, Outcome)>, x: (Frame, Outcome))
    requires Orderly(said) && !x.1.Closed? && (Stuck(said) ==> x.1.Full?)
    ensures Orderly(said + [x]) && (Stuck(said + [x]) ==> x.1.Full?)
  {
    if x.1.Sent? {
      assert forall i :: 0 <= i < |said| ==> said[i].1.Sent?;
    }
  }

  lemma OrderAside(env: Env, w: World, l: Label, id: ConnId)
    requires Enabled(env, w, l) && Subject(l) == Some(id) && id in w.clients && OrderOk(w, id) && Aside(l)
    ensures OrderOk(Step(env, w, l), id)
  {
    AsideStep(env, w, l, id);
    TurnAside(w.clients[id].log, News(env, w, l, id));
  }

  lemma OrderOpens(w: World, id: ConnId, log: seq<Event>, e: Event)
    requires e.Joined? || e.Left? || e.Asked?
    requires id in w.clients && w.clients[id].log == log + [e]
    ensures OrderOk(w, id)
  {
    TurnOpens(log, e);
  }

  lemma OrderLookup(w: World, id: ConnId)
    requires NextJob(w, id) && w.clients[id].jobs[0].Look? && OrderOk(w, id)
    ensures OrderOk(DoLookup(w, id), id)
  {
    var ch := w.clients[id].jobs[0].channel;
    TurnLooks(w.clients[id].log, ch, |w.recorded|, Find(w.last, ch));
  }

  lemma OrderTalk(env: Env, w: World, l: Label, id: ConnId)
    requires Enabled(env, w, l) && Subject(l) == Some(id) && id in w.clients && OrderOk(w, id)
    requires l.Subscribe? || l.Unsubscribe? || l.Request? || l.Lookup? || l.StartSend?
    ensures OrderOk(Step(env, w, l), id)
  {
    var log := w.clients[id].log;
    match l
    case Subscribe(_, channels) =>
      var v := Judge(env, w.clients[id].claims, w.conns[id].subscriptions, channels);
      OrderOpens(DoSubscribe(env, w, id, channels), id, log, Joined(v.added, v.rejected));
    case Unsubscribe(_, channels) =>
      OrderOpens(DoUnsubscribe(w, id, channels), id, log, Left(Withdraw(w.conns[id].subscriptions, channels).removed));
    case Request(_, reply) => OrderOpens(DoRequest(w, id, reply), id, log, Asked(reply));
    case Lookup(_) => OrderLookup(w, id);
    case StartSend(_) =>
  }

  lemma {:induction false} OrderAlways(env: Env, run: seq<Label>, id: ConnId)
    requires Legal(env, run) && id in After(env, run).clients
    ensures OrderOk(After(env, run), id)
  {
    if run != [] {
      var before, l := run[..|run| - 1], run[|run| - 1];
      var w := After(env, before);
      if Subject(l) != Some(id) {
        Untouched(env, w, l, id);
        OrderAlways(env, before, id);
      } else if !l.Insert? {
        OrderAlways(env, before, id);
        if l.TrySend? {
          Always(env, before);
          ScriptAlways(env, before, id);
          OrderTrySend(w, l.th, id);
        } else if Aside(l) {
          OrderAside(env, w, l, id);
        } else {
          OrderTalk(env, w, l, id);
        }
      }
    }
  }

  /** Reply prefix: under any concurrent publishing, the answers to the current request that enter
      the client's queue are its first `k`, a prefix of acknowledgement then snapshots in `added`
      order, and the rest of those offered found the queue full. */
  lemma RepliesEnterAsPrefix(env: Env, run: seq<Label>, id: ConnId) returns (k: nat)
    requires Legal(env, run) && id in After(env, run).clients
    ensures
      var log := After(env, run).clients[id].log;
      var said := Said(log);
      && k <= |said|
      && (forall i :: 0 <= i < |said| ==> said[i].1 == if i < k then Sent else Full)
      && Frames(said) <= Due(log)
      && Seen(log) <= Added(log)
  {
    ScriptAlways(env, run, id);
    OrderAlways(env, run, id);
    var said := Said(After(env, run).clients[id].log);
    k := 0;
    while k < |said| && said[k].1.Sent?
      invariant k <= |said| && forall i :: 0 <= i < k ==> said[i].1.Sent?
    {
      k := k + 1;
    }
  }

  /** Once the turn is complete everything due was said, and every added channel looked up. */
  lemma CompletedTurn(env: Env, run: seq<Label>, id: ConnId)
    requires Legal(env, run) && id in After(env, run).clients
    requires After(env, run).clients[id].jobs == [] && Session(id) !in After(env, run).readers
    ensures
      var log := After(env, run).clients[id].log;
      Frames(Said(log)) == Due(log) && Seen(log) == Added(log)
  {
    ScriptAlways(env, run, id);
    var log := After(env, run).clients[id].log;
    assert |Looks(Unseen(log))| == |Unseen(log)|;
    assert Frames(Said(log)) + [] + [] == Frames(Said(log));
    assert Seen(log) + [] == Seen(log);
  }
}
