/** The turns of a session: a request opens one, and its lookups and snapshots belong to it. What a
    connection's log says about the order of requests, lookups and offers. */
module Turns {
  import opened Protocol
  import opened Delivery
  import opened Subscriptions
  import opened Requests
  import opened Machine
  import opened Invariant
  import opened Tracking
  import opened Dialogue

  predicate Opens(e: Event) {
    e.Joined? || e.Left? || e.Asked?
  }

  /** Nothing between positions `k` and `n` opens another turn. */
  predicate SameTurn(log: seq<Event>, k: nat, n: nat) {
    k < n <= |log| && forall j :: k < j < n ==> !Opens(log[j])
  }

  predicate JoinedAt(log: seq<Event>, k: nat, ch: Channel) {
    k < |log| && log[k].Joined? && ch in log[k].added
  }

  predicate LeftAt(log: seq<Event>, k: nat, ch: Channel) {
    k < |log| && log[k].Left? && ch in log[k].removed
  }

  predicate FoundAt(log: seq<Event>, n: nat, ch: Channel) {
    n < |log| && log[n].Looked? && log[n].channel == ch && log[n].found.Some?
  }

  predicate OfferedAt(log: seq<Event>, i: nat, frame: Frame) {
    i < |log| && log[i].Offer? && log[i].frame == frame
  }

  /** Where the current turn opened. */
  function Opening(log: seq<Event>): (k: nat)
    ensures k <= |log|
  {
    if log == [] then 0
    else if Opens(log[|log| - 1]) then |log| - 1
    else Opening(log[..|log| - 1])
  }

  lemma {:induction false} OpeningOfAdded(log: seq<Event>, ch: Channel)
    requires ch in Added(log)
    ensures
      var k := Opening(log);
      JoinedAt(log, k, ch) && log[k].added == Added(log) && SameTurn(log, k, |log|)
  {
    var n := |log| - 1;
    if !Opens(log[n]) {
      OpeningOfAdded(log[..n], ch);
    }
  }

  lemma {:induction false} OpeningUnmoved(log: seq<Event>)
    requires !MovedOn(log)
    ensures forall j :: Opening(log) <= j < |log| ==> !log[j].Took?
  {
    var n := |log| - 1;
    if !Opens(log[n]) {
      OpeningUnmoved(log[..n]);
    }
  }

  lemma OpeningMore(log: seq<Event>, e: Event)
    ensures Opening(log + [e]) == if Opens(e) then |log| else Opening(log)
    ensures Added(log + [e]) == if e.Joined? then e.added else if Opens(e) then [] else Added(log)
  {
    assert (log + [e])[..|log|] == log;
  }

  // ---- What an entry of the log tells --------------------------------------------------------

  /** An entry's meaning given the log before it: requests other than `subscribe` are answered with
      plain frames; a lookup is for the next added channel of the turn; Data comes from publishers of
      its channel and snapshots from the session itself; added names were not held. */
  ghost predicate Telling(log: seq<Event>, e: Event, id: ConnId) {
    match e
    case Asked(reply) => reply.Pong? || reply.Error?
    case Looked(ch, _, _) => Unseen(log) != [] && Unseen(log)[0] == ch && ch in Added(log)
    case Offer(sender, scope, frame, _) =>
      && (frame.Data? ==> sender.Publisher? && scope == One(frame.channel))
      && (frame.Snapshot? ==> sender == Session(id) && scope == Self && frame in Due(log))
    case Joined(added, _) => Names(added) !! Active(log)
    case _ => true
  }

  lemma LookupTells(env: Env, w: World, id: ConnId)
    requires Enabled(env, w, Lookup(id)) && ScriptOk(w, id)
    ensures
      var log, ch := w.clients[id].log, w.clients[id].jobs[0].channel;
      Unseen(log) != [] && Unseen(log)[0] == ch && ch in Added(log)
  {
    var log := w.clients[id].log;
    assert w.clients[id].jobs == Looks(Unseen(log));
    assert Unseen(log)[0] in Seen(log) + Unseen(log);
  }

  lemma SubscribeTells(env: Env, w: World, id: ConnId, channels: seq<Channel>)
    requires id in w.conns && id in w.clients && FenceOk(w, id)
    ensures
      var added := Judge(env, w.clients[id].claims, w.conns[id].subscriptions, channels).added;
      Names(added) !! Active(w.clients[id].log)
  {
    var held, claims := w.conns[id].subscriptions, w.clients[id].claims;
    AdmitGrows(held, Keep(Keep(channels, Short(env)), Allowed(env, claims)), env.config.maxSubscriptions);
  }

  lemma OfferTells(env: Env, w: World, th: Thread, id: ConnId)
    requires Enabled(env, w, TrySend(th, id)) && ReaderOk(w, th) && ScriptOk(w, id)
    ensures
      var r := w.readers[th];
      && (r.frame.Data? ==> th.Publisher? && r.scope == One(r.frame.channel))
      && (r.frame.Snapshot? ==> th == Session(id) && r.scope == Self && r.frame in Due(w.clients[id].log))
  {
    var log, r := w.clients[id].log, w.readers[th];
    if th.Session? {
      assert Speaking(w, id) == [r.frame];
      assert r.frame in Frames(Said(log)) + Speaking(w, id) + Next(w.clients[id].jobs);
    }
  }

  lemma NewsTells(env: Env, w: World, l: Label, id: ConnId)
    requires Enabled(env, w, l) && Subject(l) == Some(id) && id in w.clients && News(env, w, l, id) != []
    requires ScriptOk(w, id) && (id in w.conns ==> FenceOk(w, id)) && (l.TrySend? ==> ReaderOk(w, l.th))
    ensures |News(env, w, l, id)| == 1 && Telling(w.clients[id].log, News(env, w, l, id)[0], id)
  {
    match l
    case Subscribe(_, channels) => SubscribeTells(env, w, id, channels);
    case Lookup(_) => LookupTells(env, w, id);
    case TrySend(th, _) => OfferTells(env, w, th, id);
    case _ =>
  }

  lemma {:induction false} LogTells(env: Env, run: seq<Label>, id: ConnId, i: nat)
    requires Legal(env, run) && id in After(env, run).clients && i < |After(env, run).clients[id].log|
    ensures var log := After(env, run).clients[id].log; Telling(log[..i], log[i], id)
  {
    if run != [] {
      var before, l := run[..|run| - 1], run[|run| - 1];
      var w := After(env, before);
      if Subject(l) != Some(id) {
        Untouched(env, w, l, id);
        LogTells(env, before, id, i);
      } else if !l.Insert? {
        Histories(env, w, l, id);
        var log := w.clients[id].log;
        if i < |log| {
          LogTells(env, before, id, i);
          assert (log + News(env, w, l, id))[..i] == log[..i];
        } else {
          LastTells(env, before, l, id);
          assert (log + News(env, w, l, id))[..i] == log;
        }
      }
    }
  }

  lemma LastTells(env: Env, run: seq<Label>, l: Label, id: ConnId)
    requires Legal(env, run) && Enabled(env, After(env, run), l) && Subject(l) == Some(id) && id in After(env, run).clients
    requires News(env, After(env, run), l, id) != []
    ensures
      var news := News(env, After(env, run), l, id);
      |news| == 1 && Telling(After(env, run).clients[id].log, news[0], id)
  {
    Always(env, run);
    ScriptAlways(env, run, id);
    if id in After(env, run).conns {
      FenceAlways(env, run, id);
    }
    NewsTells(env, After(env, run), l, id);
  }

  ghost predicate AllTelling(log: seq<Event>, id: ConnId) {
    forall i :: 0 <= i < |log| ==> Telling(log[..i], log[i], id)
  }

  lemma WholeLogTells(env: Env, run: seq<Label>, id: ConnId)
    requires Legal(env, run) && id in After(env, run).clients
    ensures AllTelling(After(env, run).clients[id].log, id)
  {
    var n := |After(env, run).clients[id].log|;
    forall i | 0 <= i < n
      ensures var log := After(env, run).clients[id].log; i < |log| && Telling(log[..i], log[i], id)
    {
      LogTells(env, run, id, i);
    }
  }

  // ---- Lookups and snapshots belong to a subscribe ---------------------------------------------

  /** A lookup is made for a channel that the request of its turn newly added. */
  lemma LookupJoined(log: seq<Event>, id: ConnId, n: nat) returns (k: nat)
    requires AllTelling(log, id) && n < |log| && log[n].Looked?
    ensures JoinedAt(log, k, log[n].channel) && SameTurn(log, k, n)
  {
    assert Telling(log[..n], log[n], id);
    OpeningOfAdded(log[..n], log[n].channel);
    k := Opening(log[..n]);
  }

  lemma LookupFollowsJoin(env: Env, run: seq<Label>, id: ConnId, n: nat) returns (k: nat)
    requires Legal(env, run) && id in After(env, run).clients && n < |After(env, run).clients[id].log|
    requires After(env, run).clients[id].log[n].Looked?
    ensures
      var log := After(env, run).clients[id].log;
      JoinedAt(log, k, log[n].channel) && SameTurn(log, k, n)
  {
    WholeLogTells(env, run, id);
    k := LookupJoined(After(env, run).clients[id].log, id, n);
  }

  ghost predicate PlainAnswers(log: seq<Event>) {
    forall i :: 0 <= i < |log| && log[i].Asked? ==> !log[i].reply.Snapshot?
  }

  lemma TellingIsPlain(log: seq<Event>, id: ConnId, n: nat)
    requires AllTelling(log, id) && n <= |log|
    ensures PlainAnswers(log[..n])
  {
    forall i | 0 <= i < n && log[..n][i].Asked? ensures !log[..n][i].reply.Snapshot? {
      assert Telling(log[..i], log[i], id);
    }
  }

  /** A snapshot that is due was looked up in this turn. */
  lemma {:induction false} DueWasFound(log: seq<Event>, frame: Frame) returns (n: nat)
    requires frame.Snapshot? && frame in Due(log) && PlainAnswers(log)
    ensures FoundAt(log, n, frame.channel) && log[n].found.value == frame.payload && SameTurn(log, n, |log|)
  {
    var last := |log| - 1;
    var e := log[last];
    if e.Looked? && e.found.Some? && frame == Snapshot(e.channel, e.found.value) {
      n := last;
    } else {
      assert !Opens(e);
      assert PlainAnswers(log[..last]);
      n := DueWasFound(log[..last], frame);
    }
  }

  lemma SnapshotJoined(log: seq<Event>, id: ConnId, i: nat) returns (k: nat, n: nat)
    requires AllTelling(log, id) && i < |log| && log[i].Offer? && log[i].frame.Snapshot?
    ensures
      var ch := log[i].frame.channel;
      && k < n < i && JoinedAt(log, k, ch) && FoundAt(log, n, ch)
      && log[i].frame == Snapshot(ch, log[n].found.value) && SameTurn(log, k, i)
  {
    assert Telling(log[..i], log[i], id);
    TellingIsPlain(log, id, i);
    n := DueWasFound(log[..i], log[i].frame);
    k := LookupJoined(log, id, n);
    forall j | k < j < i ensures !Opens(log[j]) {
      assert j < n || j == n || n < j;
      assert n < j ==> !Opens(log[..i][j]);
    }
  }

  /** Every snapshot a client is offered was looked up earlier in the same turn, for a channel that
      the turn's `subscribe` newly added. Nothing else makes the server send one. */
  lemma SnapshotFollowsJoin(env: Env, run: seq<Label>, id: ConnId, i: nat) returns (k: nat, n: nat)
    requires Legal(env, run) && id in After(env, run).clients && i < |After(env, run).clients[id].log|
    requires After(env, run).clients[id].log[i].Offer? && After(env, run).clients[id].log[i].frame.Snapshot?
    ensures
      var log := After(env, run).clients[id].log;
      var ch := log[i].frame.channel;
      && k < n < i && JoinedAt(log, k, ch) && FoundAt(log, n, ch)
      && log[i].frame == Snapshot(ch, log[n].found.value) && SameTurn(log, k, i)
  {
    WholeLogTells(env, run, id);
    k, n := SnapshotJoined(After(env, run).clients[id].log, id, i);
  }

  // ---- Every successful lookup is answered -----------------------------------------------------

  /** The lookup at `n` was followed in its turn by an offer of what it found. */
  ghost predicate Answered(log: seq<Event>, n: nat) {
    n < |log| && log[n].Looked? && log[n].found.Some? &&
    exists i :: OfferedAt(log, i, Snapshot(log[n].channel, log[n].found.value)) && SameTurn(log, n, i)
  }

  /** What it found is being said, or comes next. */
  ghost predicate Answering(w: World, id: ConnId, n: nat)
    requires id in w.clients
  {
    var log := w.clients[id].log;
    && n < |log| && log[n].Looked? && log[n].found.Some? && SameTurn(log, n, |log|)
    && Snapshot(log[n].channel, log[n].found.value) in Speaking(w, id) + Next(w.clients[id].jobs)
  }

  ghost predicate LookServed(w: World, id: ConnId, n: nat) {
    id in w.clients &&
    (n < |w.clients[id].log| && w.clients[id].log[n].Looked? && w.clients[id].log[n].found.Some? ==>
       Answered(w.clients[id].log, n) || Answering(w, id, n))
  }

  lemma AnsweredMore(log: seq<Event>, news: seq<Event>, n: nat)
    requires Answered(log, n)
    ensures Answered(log + news, n)
  {
    var i :| OfferedAt(log, i, Snapshot(log[n].channel, log[n].found.value)) && SameTurn(log, n, i);
    assert OfferedAt(log + news, i, Snapshot(log[n].channel, log[n].found.value)) && SameTurn(log + news, n, i);
  }

  /** A step that opens no turn and leaves the session's answers alone. */
  lemma ServedQuiet(w: World, w': World, id: ConnId, n: nat, news: seq<Event>)
    requires LookServed(w, id, n) && id in w'.clients && w'.clients[id].log == w.clients[id].log + news
    requires |news| <= 1 && (news != [] ==> !Opens(news[0]) && !news[0].Looked?)
    requires Speaking(w', id) + Next(w'.clients[id].jobs) == Speaking(w, id) + Next(w.clients[id].jobs)
    ensures LookServed(w', id, n)
  {
    var log := w.clients[id].log;
    if Answered(log, n) {
      AnsweredMore(log, news, n);
    } else if n < |log| && log[n].Looked? && log[n].found.Some? {
      assert Answering(w, id, n);
      assert SameTurn(log + news, n, |log + news|);
    }
  }

  /** The session says what was found. */
  lemma ServedSpoken(w: World, th: Thread, id: ConnId, n: nat)
    requires LookServed(w, id, n) && ScriptOk(w, id) && th == Session(id)
    requires th in w.readers && id in w.readers[th].todo && id in w.conns
    ensures LookServed(DoTrySend(w, th, id), id, n)
  {
    var log, r := w.clients[id].log, w.readers[th];
    var offer := Offer(th, r.scope, r.frame, Put(w.conns[id], r.frame).1);
    assert Speaking(w, id) == [r.frame];
    if Answered(log, n) {
      AnsweredMore(log, [offer], n);
    } else if n < |log| && log[n].Looked? && log[n].found.Some? {
      assert Answering(w, id, n);
      assert Next(w.clients[id].jobs) == [];
      assert Snapshot(log[n].channel, log[n].found.value) == r.frame;
      assert OfferedAt(log + [offer], |log|, r.frame) && SameTurn(log + [offer], n, |log|);
    }
  }

  /** With nothing left to say, earlier lookups have been answered; a new one puts what it found next. */
  lemma ServedIdle(env: Env, w: World, l: Label, id: ConnId, n: nat)
    requires LookServed(w, id, n) && Enabled(env, w, l) && Subject(l) == Some(id)
    requires l.Subscribe? || l.Unsubscribe? || l.Request? || l.Lookup?
    requires Session(id) !in w.readers && Next(w.clients[id].jobs) == []
    ensures LookServed(Step(env, w, l), id, n)
  {
    Histories(env, w, l, id);
    var log, news := w.clients[id].log, News(env, w, l, id);
    var w' := Step(env, w, l);
    if Answered(log, n) {
      AnsweredMore(log, news, n);
    } else if n == |log| && l.Lookup? && news[0].found.Some? {
      assert Next(w'.clients[id].jobs) == [Snapshot(news[0].channel, news[0].found.value)];
      assert SameTurn(log + news, n, |log + news|);
    }
  }

  lemma ServedStep(env: Env, w: World, l: Label, id: ConnId, n: nat)
    requires Enabled(env, w, l) && id in Step(env, w, l).clients && !(l.Insert? && l.id == id)
    requires id in w.clients && LookServed(w, id, n) && ScriptOk(w, id) && ClientOk(w, id)
    requires l.TrySend? ==> ReaderOk(w, l.th)
    ensures LookServed(Step(env, w, l), id, n)
  {
    if Subject(l) != Some(id) {
      Untouched(env, w, l, id);
      SpeakingUntouched(env, w, l, id);
      assert w.clients[id].log + [] == w.clients[id].log;
      ServedQuiet(w, Step(env, w, l), id, n, []);
    } else if l.Subscribe? || l.Unsubscribe? || l.Request? || l.Lookup? {
      ServedIdle(env, w, l, id, n);
    } else if l.TrySend? {
      ServedTrySend(w, l.th, id, n);
    } else if l.StartSend? {
      ServedStartSend(w, id, n);
    } else {
      AsideStep(env, w, l, id);
      AsideSpeaking(env, w, l, id);
      ServedQuiet(w, Step(env, w, l), id, n, News(env, w, l, id));
    }
  }

  lemma ServedTrySend(w: World, th: Thread, id: ConnId, n: nat)
    requires th in w.readers && id in w.readers[th].todo && id in w.conns
    requires LookServed(w, id, n) && ScriptOk(w, id) && ReaderOk(w, th)
    ensures LookServed(DoTrySend(w, th, id), id, n)
  {
    if th == Session(id) {
      ServedSpoken(w, th, id, n);
    } else {
      var r := w.readers[th];
      ServedQuiet(w, DoTrySend(w, th, id), id, n, [Offer(th, r.scope, r.frame, Put(w.conns[id], r.frame).1)]);
    }
  }

  lemma ServedStartSend(w: World, id: ConnId, n: nat)
    requires NextJob(w, id) && w.clients[id].jobs[0].Say? && LookServed(w, id, n) && ScriptOk(w, id)
    ensures LookServed(DoStartSend(w, id), id, n)
  {
    ScriptStartSend(w, id);
    var w' := DoStartSend(w, id);
    assert Speaking(w', id) == [w.clients[id].jobs[0].frame];
    assert w.clients[id].log + [] == w.clients[id].log;
    ServedQuiet(w, w', id, n, []);
  }

  /** Whatever a lookup finds is offered to the client before its turn ends. */
  lemma {:induction false} LookupsAreServed(env: Env, run: seq<Label>, id: ConnId, n: nat)
    requires Legal(env, run) && id in After(env, run).clients
    ensures LookServed(After(env, run), id, n)
  {
    if run != [] {
      var before, l := run[..|run| - 1], run[|run| - 1];
      var w := After(env, before);
      if !(l.Insert? && l.id == id) {
        WasThere(env, w, l, id);
        Always(env, before);
        LookupsAreServed(env, before, id, n);
        ScriptAlways(env, before, id);
        ServedStep(env, w, l, id, n);
      }
    }
  }

  lemma WasThere(env: Env, w: World, l: Label, id: ConnId)
    requires Enabled(env, w, l) && id in Step(env, w, l).clients && !(l.Insert? && l.id == id)
    ensures id in w.clients
  {
  }

  // ---- Where a subscription's turn began --------------------------------------------------------

  /** The channels of the current turn were joined where it opened. */
  ghost predicate JoinsOk(cl: Client) {
    forall ch :: ch in Added(cl.log) ==> ch in cl.joins && cl.joins[ch].logPos == Opening(cl.log)
  }

  lemma JoinsStep(env: Env, w: World, l: Label, id: ConnId)
    requires Enabled(env, w, l) && id in w.clients && Subject(l) == Some(id) && !l.Insert? && JoinsOk(w.clients[id])
    ensures JoinsOk(Step(env, w, l).clients[id])
  {
    Histories(env, w, l, id);
    var log, news := w.clients[id].log, News(env, w, l, id);
    if news == [] {
      assert log + news == log;
    } else {
      assert news == [news[0]];
      OpeningMore(log, news[0]);
    }
  }

  lemma {:induction false} JoinsAlways(env: Env, run: seq<Label>, id: ConnId)
    requires Legal(env, run) && id in After(env, run).clients
    ensures JoinsOk(After(env, run).clients[id])
  {
    if run != [] {
      var before, l := run[..|run| - 1], run[|run| - 1];
      var w := After(env, before);
      if Subject(l) != Some(id) {
        Untouched(env, w, l, id);
        JoinsAlways(env, before, id);
      } else if !l.Insert? {
        JoinsAlways(env, before, id);
        JoinsStep(env, w, l, id);
      }
    }
  }
}
