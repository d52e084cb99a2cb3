/** Which value of a channel a new subscriber ends up with. The snapshot is read before it is offered,
    so a value published in between reaches the queue first and the older snapshot comes behind it.
    Values are told apart by their position among the recorded values of the channel. */
module Convergence {
  import opened Protocol
  import opened Delivery
  import opened Subscriptions
  import opened Machine
  import opened Invariant
  import opened Tracking
  import opened Dialogue
  import opened Feed
  import opened Turns
  import opened SnapshotOrder

  // ---- The lookup behind a snapshot ------------------------------------------------------------

  /** The latest lookup in the log. */
  function LastLook(log: seq<Event>): Option<Event> {
    if log == [] then None
    else if log[|log| - 1].Looked? then Some(log[|log| - 1])
    else LastLook(log[..|log| - 1])
  }

  predicate LookedUp(log: seq<Event>, frame: Frame) {
    frame.Snapshot? ==>
      var look := LastLook(log);
      && look.Some? && look.value.Looked? && look.value.channel == frame.channel
      && look.value.found == Some(frame.payload)
  }

  /** A snapshot that is being said, or comes next, is what the latest lookup found. */
  ghost predicate LookOnTop(w: World, id: ConnId) {
    id in w.clients &&
    forall frame :: frame in Speaking(w, id) + Next(w.clients[id].jobs) ==> LookedUp(w.clients[id].log, frame)
  }

  lemma LastLookMore(log: seq<Event>, news: seq<Event>)
    requires |news| <= 1
    ensures LastLook(log + news) == if news != [] && news[0].Looked? then Some(news[0]) else LastLook(log)
  {
    if news == [] {
      assert log + news == log;
    } else {
      assert (log + news)[..|log|] == log;
    }
  }

  lemma TopQuiet(w: World, w': World, id: ConnId, news: seq<Event>)
    requires LookOnTop(w, id) && id in w'.clients && w'.clients[id].log == w.clients[id].log + news
    requires |news| <= 1 && (news != [] ==> !news[0].Looked?)
    requires forall frame :: frame in Speaking(w', id) + Next(w'.clients[id].jobs) && frame.Snapshot? ==>
                               frame in Speaking(w, id) + Next(w.clients[id].jobs)
    ensures LookOnTop(w', id)
  {
    LastLookMore(w.clients[id].log, news);
  }

  lemma TopLookup(w: World, id: ConnId)
    requires NextJob(w, id) && w.clients[id].jobs[0].Look? && ScriptOk(w, id)
    ensures LookOnTop(DoLookup(w, id), id)
  {
    ScriptLookup(w, id);
    var cl, w' := w.clients[id], DoLookup(w, id);
    var ch := cl.jobs[0].channel;
    var look := Looked(ch, |w.recorded|, Find(w.last, ch));
    LastLookMore(cl.log, [look]);
    assert Speaking(w', id) == [];
    assert cl.jobs == Looks(Unseen(cl.log));
    assert Next(w'.clients[id].jobs) == if look.found.Some? then [Snapshot(ch, look.found.value)] else [];
  }

  lemma TopRequest(env: Env, w: World, l: Label, id: ConnId)
    requires Enabled(env, w, l) && Subject(l) == Some(id) && LookOnTop(w, id)
    requires l.Subscribe? || l.Unsubscribe? || l.Request?
    ensures LookOnTop(Step(env, w, l), id)
  {
    Histories(env, w, l, id);
    TopQuiet(w, Step(env, w, l), id, News(env, w, l, id));
  }

  lemma TopStartSend(w: World, id: ConnId)
    requires NextJob(w, id) && w.clients[id].jobs[0].Say? && ScriptOk(w, id) && LookOnTop(w, id)
    ensures LookOnTop(DoStartSend(w, id), id)
  {
    ScriptStartSend(w, id);
    var jobs := w.clients[id].jobs;
    SayingMoves(w, id);
    assert w.clients[id].log + [] == w.clients[id].log;
    TopQuiet(w, DoStartSend(w, id), id, []);
  }

  lemma SayingMoves(w: World, id: ConnId)
    requires NextJob(w, id) && w.clients[id].jobs[0].Say? && ScriptOk(DoStartSend(w, id), id)
    ensures
      var w' := DoStartSend(w, id);
      Speaking(w', id) == Next(w.clients[id].jobs) && Next(w'.clients[id].jobs) == []
  {
  }

  lemma TopTrySend(w: World, th: Thread, id: ConnId)
    requires th in w.readers && id in w.conns && LookOnTop(w, id)
    ensures LookOnTop(DoTrySend(w, th, id), id)
  {
    var r := w.readers[th];
    TopQuiet(w, DoTrySend(w, th, id), id, [Offer(th, r.scope, r.frame, Put(w.conns[id], r.frame).1)]);
  }

  lemma TopAside(env: Env, w: World, l: Label, id: ConnId)
    requires Enabled(env, w, l) && Subject(l) == Some(id) && Aside(l) && LookOnTop(w, id)
    ensures LookOnTop(Step(env, w, l), id)
  {
    AsideStep(env, w, l, id);
    AsideSpeaking(env, w, l, id);
    TopQuiet(w, Step(env, w, l), id, News(env, w, l, id));
  }

  lemma TopOther(env: Env, w: World, l: Label, id: ConnId)
    requires Enabled(env, w, l) && Subject(l) != Some(id) && LookOnTop(w, id)
    ensures LookOnTop(Step(env, w, l), id)
  {
    Untouched(env, w, l, id);
    SpeakingUntouched(env, w, l, id);
  }

  lemma TopStep(env: Env, w: World, l: Label, id: ConnId)
    requires Enabled(env, w, l) && LookOnTop(w, id) && ScriptOk(w, id) && !(l.Insert? && l.id == id)
    ensures LookOnTop(Step(env, w, l), id)
  {
    if Subject(l) != Some(id) {
      TopOther(env, w, l, id);
    } else if l.Subscribe? || l.Unsubscribe? || l.Request? {
      TopRequest(env, w, l, id);
    } else if l.Lookup? {
      TopLookup(w, id);
    } else if l.StartSend? {
      TopStartSend(w, id);
    } else if l.TrySend? {
      TopTrySend(w, l.th, id);
    } else {
      TopAside(env, w, l, id);
    }
  }

  lemma TopInsert(env: Env, w: World, id: ConnId, claims: Claims)
    requires Session(id) !in w.readers
    ensures LookOnTop(DoInsert(env, w, id, claims), id)
  {
  }

  lemma {:induction false} TopAlways(env: Env, run: seq<Label>, id: ConnId)
    requires Legal(env, run) && id in After(env, run).clients
    ensures LookOnTop(After(env, run), id)
  {
    if run != [] {
      var before, l := run[..|run| - 1], run[|run| - 1];
      var w := After(env, before);
      if l.Insert? && l.id == id {
        TopInsert(env, w, id, l.claims);
      } else {
        WasThere(env, w, l, id);
        TopAlways(env, before, id);
        ScriptAlways(env, before, id);
        TopStep(env, w, l, id);
      }
    }
  }

  /** An offer of the session's own is what it was saying. */
  lemma OfferIsSaid(env: Env, w: World, th: Thread, id: ConnId)
    requires Enabled(env, w, TrySend(th, id)) && ReaderOk(w, th) && LookOnTop(w, id)
    ensures LookedUp(w.clients[id].log, w.readers[th].frame)
  {
    if th.Session? {
      assert w.readers[th].frame in Speaking(w, id) + Next(w.clients[id].jobs);
    }
  }

  /** Every snapshot a client is offered is what the latest lookup before it found. */
  lemma {:induction false} SnapshotIsLastLook(env: Env, run: seq<Label>, id: ConnId, i: nat)
    requires Legal(env, run) && id in After(env, run).clients && i < |After(env, run).clients[id].log|
    ensures var log := After(env, run).clients[id].log; log[i].Offer? ==> LookedUp(log[..i], log[i].frame)
  {
    if run != [] {
      var before, l := run[..|run| - 1], run[|run| - 1];
      var w := After(env, before);
      if Subject(l) != Some(id) {
        Untouched(env, w, l, id);
        SnapshotIsLastLook(env, before, id, i);
      } else if !l.Insert? {
        Histories(env, w, l, id);
        var log := w.clients[id].log;
        assert i <= |log| ==> (log + News(env, w, l, id))[..i] == log[..i];
        if i < |log| {
          SnapshotIsLastLook(env, before, id, i);
        } else if l.TrySend? {
          Always(env, before);
          TopAlways(env, before, id);
          OfferIsSaid(env, w, l.th, id);
          assert log[..i] == log;
        }
      }
    }
  }

  // ---- Which value the client shows -------------------------------------------------------------

  /** Data and snapshots of the channel are what a client takes its state from. */
  predicate States(e: Event, ch: Channel) {
    e.Offer? && (e.frame.Data? || e.frame.Snapshot?) && e.frame.channel == ch
  }

  /** Data of the channel offered from position `from` of the log on. */
  function Deltas(log: seq<Event>, from: nat, ch: Channel): seq<Frame> {
    if |log| <= from then []
    else
      var e := log[|log| - 1];
      Deltas(log[..|log| - 1], from, ch) + if e.Offer? && IsDelta(e.frame, ch) then [e.frame] else []
  }

  /** Where the last state that entered the queue since `from` was offered. */
  function Newest(log: seq<Event>, from: nat, ch: Channel): (r: Option<nat>)
    ensures r.Some? ==> from <= r.value < |log| && States(log[r.value], ch) && log[r.value].outcome.Sent?
  {
    if |log| <= from then None
    else if States(log[|log| - 1], ch) && log[|log| - 1].outcome.Sent? then Some(|log| - 1)
    else Newest(log[..|log| - 1], from, ch)
  }

  /** The state of a client that has read everything that entered. */
  function State(log: seq<Event>, from: nat, ch: Channel): Option<Payload> {
    match Newest(log, from, ch)
    case None => None
    case Some(q) => Some(log[q].frame.payload)
  }

  /** How many of the channel's values were recorded before the latest lookup. */
  function Known(log: seq<Event>, ch: Channel, recorded: seq<(Channel, Payload)>): nat {
    match LastLook(log)
    case None => 0
    case Some(look) => if look.Looked? && look.at <= |recorded| then |DataFor(recorded[..look.at], ch)| else 0
  }

  /** How many of the channel's values the state reflects: Data follows the `base` values published
      before the subscription one by one, a snapshot reflects what was recorded before its lookup. */
  function Version(log: seq<Event>, from: nat, ch: Channel, base: nat, recorded: seq<(Channel, Payload)>): nat {
    match Newest(log, from, ch)
    case None => 0
    case Some(q) =>
      if log[q].frame.Data? then base + |Deltas(log[..q + 1], from, ch)| else Known(log[..q], ch, recorded)
  }

  /** `state` is the `n`th recorded value of the channel, counting from one. */
  ghost predicate IsVersion(recorded: seq<(Channel, Payload)>, ch: Channel, n: nat, state: Option<Payload>) {
    if n == 0 then state == None
    else n <= |DataFor(recorded, ch)| && state.Some? && DataFor(recorded, ch)[n - 1] == Data(ch, state.value)
  }

  lemma {:induction false} NewestIsLast(log: seq<Event>, from: nat, ch: Channel, i: nat)
    requires from <= i < |log| && States(log[i], ch) && log[i].outcome.Sent?
    ensures Newest(log, from, ch).Some? && i <= Newest(log, from, ch).value
  {
    if i < |log| - 1 {
      NewestIsLast(log[..|log| - 1], from, ch, i);
    }
  }

  lemma {:induction false} DeltasBetween(log: seq<Event>, from: nat, ch: Channel, i: nat)
    requires i <= |log|
    ensures Deltas(log[..i], from, ch) <= Deltas(log, from, ch)
    ensures (forall k :: from <= k && i <= k < |log| && log[k].Offer? ==> !IsDelta(log[k].frame, ch)) <==>
            |Deltas(log[..i], from, ch)| == |Deltas(log, from, ch)|
  {
    if i == |log| {
      assert log[..i] == log;
    } else {
      var n := |log| - 1;
      assert log[..n][..i] == log[..i];
      DeltasBetween(log[..n], from, ch, i);
      if from <= n && log[n].Offer? && IsDelta(log[n].frame, ch) {
        assert |Deltas(log, from, ch)| == |Deltas(log[..n], from, ch)| + 1;
      } else {
        assert Deltas(log, from, ch) == Deltas(log[..n], from, ch);
      }
    }
  }

  lemma {:induction false} LastOfIsLastData(values: seq<(Channel, Payload)>, ch: Channel)
    ensures forall i :: 0 <= i < |DataFor(values, ch)| ==> IsDelta(DataFor(values, ch)[i], ch)
    ensures
      var n, found := |DataFor(values, ch)|, Find(LastOf(values), ch);
      if n == 0 then found == None else found.Some? && DataFor(values, ch)[n - 1] == Data(ch, found.value)
  {
    if values != [] {
      LastOfIsLastData(values[..|values| - 1], ch);
    }
  }

  lemma SnapshotVersion(recorded: seq<(Channel, Payload)>, at: nat, ch: Channel, payload: Payload)
    requires at <= |recorded| && Find(LastOf(recorded[..at]), ch) == Some(payload)
    ensures IsVersion(recorded, ch, |DataFor(recorded[..at], ch)|, Some(payload))
  {
    LastOfIsLastData(recorded[..at], ch);
    assert recorded == recorded[..at] + recorded[at..];
    DataForAppend(recorded[..at], recorded[at..], ch);
  }

  // ---- What the offers carry --------------------------------------------------------------------

  /** Nothing recorded on the channel is on its way to the client. */
  ghost predicate NothingUnderWay(w: World, id: ConnId, ch: Channel) {
    Owed(w, id, GATEWAY, {One(ch)}) == [] && DataFor(Held(w.gateway), ch) == []
  }

  /** Since the subscription began the gateway alone has published Data on the channel. */
  ghost predicate GatewayOnly(w: World, id: ConnId, ch: Channel) {
    && id in w.clients && ch in w.clients[id].joins && w.clients[id].joins[ch].tapePos <= |w.tape|
    && forall p: nat :: p != GATEWAY ==> DataOf(Aired(w.tape[w.clients[id].joins[ch].tapePos..], p, {One(ch)})) == []
  }

  /** Values published on the channel before the subscription began. */
  function Base(w: World, id: ConnId, ch: Channel): nat
    requires id in w.clients && ch in w.clients[id].joins && w.clients[id].joins[ch].tapePos <= |w.tape|
  {
    |DataFor(Published(w.tape[..w.clients[id].joins[ch].tapePos]), ch)|
  }

  lemma HeardHas(log: seq<Event>, i: nat, p: nat, scopes: set<Scope>)
    requires i < |log| && log[i].Offer? && log[i].sender == Publisher(p) && log[i].scope in scopes
    ensures log[i].frame in Heard(log, p, scopes)
  {
    HeardAround(log, i, p, scopes);
  }

  lemma {:induction false} DeltasAreHeard(log: seq<Event>, from: nat, ch: Channel)
    requires from <= |log|
    requires forall i :: from <= i < |log| && log[i].Offer? ==>
                           (IsDelta(log[i].frame, ch) <==> log[i].sender == Publisher(GATEWAY) && log[i].scope == One(ch))
    ensures Deltas(log, from, ch) == Heard(log[from..], GATEWAY, {One(ch)})
  {
    if from < |log| {
      var n := |log| - 1;
      DeltasAreHeard(log[..n], from, ch);
      assert log[from..][..n - from] == log[..n][from..];
    }
  }

  lemma OthersOfferNoData(env: Env, run: seq<Label>, id: ConnId, ch: Channel, p: nat)
    requires Legal(env, run) && Holds(After(env, run).conns, id, ch) && GatewayOnly(After(env, run), id, ch) && p != GATEWAY
    ensures
      var w := After(env, run);
      && w.clients[id].joins[ch].logPos <= |w.clients[id].log|
      && DataOf(Heard(w.clients[id].log[w.clients[id].joins[ch].logPos..], p, {One(ch)})) == []
  {
    var w := After(env, run);
    ExactWhileSubscribed(env, run, id, ch, p, {One(ch)});
    var turn := w.clients[id].log[w.clients[id].joins[ch].logPos..];
    DataOfAppend(Heard(turn, p, {One(ch)}), Owed(w, id, p, {One(ch)}));
  }

  /** What the gateway offered since the subscription began is its values after the first `Base`. */
  lemma GatewayOffered(env: Env, run: seq<Label>, id: ConnId, ch: Channel)
    requires Legal(env, run) && Holds(After(env, run).conns, id, ch) && NothingUnderWay(After(env, run), id, ch)
    ensures
      var w := After(env, run);
      && id in w.clients && ch in w.clients[id].joins
      && var j := w.clients[id].joins[ch];
      && j.tapePos <= |w.tape| && j.logPos <= |w.clients[id].log|
      && Base(w, id, ch) <= |DataFor(w.recorded, ch)|
      && Heard(w.clients[id].log[j.logPos..], GATEWAY, {One(ch)}) == DataFor(w.recorded, ch)[Base(w, id, ch)..]
  {
    var w := After(env, run);
    ExactWhileSubscribed(env, run, id, ch, GATEWAY, {One(ch)});
    FeedAlways(env, run);
    var j := w.clients[id].joins[ch];
    PublishedFrom(w.tape, j.tapePos, ch);
    ValuesFrom(w.tape, j.tapePos, Held(w.gateway), w.recorded, ch);
    assert Heard(w.clients[id].log[j.logPos..], GATEWAY, {One(ch)}) + [] == Heard(w.clients[id].log[j.logPos..], GATEWAY, {One(ch)});
  }

  lemma ValuesFrom(tape: seq<Entry>, pos: nat, held: seq<(Channel, Payload)>, recorded: seq<(Channel, Payload)>, ch: Channel)
    requires pos <= |tape| && Published(tape) + held == recorded && DataFor(held, ch) == []
    ensures
      var early := Published(tape[..pos]);
      && |early| <= |Published(tape)|
      && DataFor(recorded, ch) == DataFor(early, ch) + DataFor(Published(tape)[|early|..], ch)
  {
    var early := Published(tape[..pos]);
    assert tape == tape[..pos] + tape[pos..];
    PublishedAppend(tape[..pos], tape[pos..]);
    assert Published(tape) == early + Published(tape)[|early|..];
    DataForAppend(early, Published(tape)[|early|..], ch);
    DataForAppend(Published(tape), held, ch);
  }

  /** All Data of the channel among these offers is the gateway's, and the gateway offers nothing else
      under the channel. */
  ghost predicate FromGateway(offers: seq<Event>, ch: Channel) {
    && Sourced(offers)
    && (forall p: nat :: p != GATEWAY ==> DataOf(Heard(offers, p, {One(ch)})) == [])
    && forall frame :: frame in Heard(offers, GATEWAY, {One(ch)}) ==> IsDelta(frame, ch)
  }

  lemma DeltaIffGateway(offers: seq<Event>, ch: Channel, k: nat)
    requires FromGateway(offers, ch) && k < |offers| && offers[k].Offer?
    ensures IsDelta(offers[k].frame, ch) <==> offers[k].sender == Publisher(GATEWAY) && offers[k].scope == One(ch)
  {
    if IsDelta(offers[k].frame, ch) {
      SomethingOffered(offers, k, ch);
    } else if offers[k].sender == Publisher(GATEWAY) && offers[k].scope == One(ch) {
      HeardHas(offers, k, GATEWAY, {One(ch)});
    }
  }

  lemma TurnIsFromGateway(env: Env, run: seq<Label>, id: ConnId, ch: Channel)
    requires Legal(env, run) && Holds(After(env, run).conns, id, ch)
    requires NothingUnderWay(After(env, run), id, ch) && GatewayOnly(After(env, run), id, ch)
    ensures
      var w := After(env, run);
      && w.clients[id].joins[ch].logPos <= |w.clients[id].log|
      && FromGateway(w.clients[id].log[w.clients[id].joins[ch].logPos..], ch)
  {
    var w := After(env, run);
    GatewayOffered(env, run, id, ch);
    LastOfIsLastData(w.recorded, ch);
    LogIsSourced(env, run, id, w.clients[id].joins[ch].logPos);
    forall p: nat | p != GATEWAY
      ensures DataOf(Heard(w.clients[id].log[w.clients[id].joins[ch].logPos..], p, {One(ch)})) == []
    {
      OthersOfferNoData(env, run, id, ch, p);
    }
  }

  lemma DeltasOfTurn(log: seq<Event>, from: nat, ch: Channel)
    requires from <= |log| && FromGateway(log[from..], ch)
    ensures Deltas(log, from, ch) == Heard(log[from..], GATEWAY, {One(ch)})
  {
    forall i | from <= i < |log| && log[i].Offer?
      ensures IsDelta(log[i].frame, ch) <==> log[i].sender == Publisher(GATEWAY) && log[i].scope == One(ch)
    {
      assert log[from..][i - from] == log[i];
      DeltaIffGateway(log[from..], ch, i - from);
    }
    DeltasAreHeard(log, from, ch);
  }

  /** The Data offered since the subscription began is the channel's values after the first `Base`. */
  lemma DeltasAreValues(env: Env, run: seq<Label>, id: ConnId, ch: Channel)
    requires Legal(env, run) && Holds(After(env, run).conns, id, ch)
    requires NothingUnderWay(After(env, run), id, ch) && GatewayOnly(After(env, run), id, ch)
    ensures
      var w := After(env, run);
      && w.clients[id].joins[ch].logPos <= |w.clients[id].log|
      && Base(w, id, ch) <= |DataFor(w.recorded, ch)|
      && Deltas(w.clients[id].log, w.clients[id].joins[ch].logPos, ch) == DataFor(w.recorded, ch)[Base(w, id, ch)..]
  {
    var w := After(env, run);
    GatewayOffered(env, run, id, ch);
    TurnIsFromGateway(env, run, id, ch);
    DeltasOfTurn(w.clients[id].log, w.clients[id].joins[ch].logPos, ch);
  }

  lemma {:induction false} LastLookAt(log: seq<Event>) returns (n: nat)
    requires LastLook(log).Some?
    ensures n < |log| && log[n].Looked? && LastLook(log) == Some(log[n])
  {
    if log[|log| - 1].Looked? {
      n := |log| - 1;
    } else {
      n := LastLookAt(log[..|log| - 1]);
    }
  }

  /** A snapshot carries the version that its lookup knew. */
  lemma SnapshotIsKnown(env: Env, run: seq<Label>, id: ConnId, i: nat)
    requires Legal(env, run) && id in After(env, run).clients && i < |After(env, run).clients[id].log|
    requires After(env, run).clients[id].log[i].Offer? && After(env, run).clients[id].log[i].frame.Snapshot?
    ensures
      var w := After(env, run);
      var log, frame := w.clients[id].log, w.clients[id].log[i].frame;
      IsVersion(w.recorded, frame.channel, Known(log[..i], frame.channel, w.recorded), Some(frame.payload))
  {
    var w := After(env, run);
    var log, frame := w.clients[id].log, w.clients[id].log[i].frame;
    SnapshotIsLastLook(env, run, id, i);
    var n := LastLookAt(log[..i]);
    LookupIsLatest(env, run, id, n);
    SnapshotVersion(w.recorded, log[n].at, frame.channel, frame.payload);
  }

  // ---- Exactly when that is the latest value ----------------------------------------------------

  /** The last state that entered is Data with no Data offered behind it, or a snapshot looked up after
      the channel's last value was recorded; and with nothing entered there is no value. */
  ghost predicate UpToDate(log: seq<Event>, from: nat, ch: Channel, recorded: seq<(Channel, Payload)>) {
    match Newest(log, from, ch)
    case None => DataFor(recorded, ch) == []
    case Some(q) =>
      if log[q].frame.Data? then forall k :: q < k < |log| && log[k].Offer? ==> !IsDelta(log[k].frame, ch)
      else Known(log[..q], ch, recorded) == |DataFor(recorded, ch)|
  }

  lemma DataVersion(log: seq<Event>, from: nat, ch: Channel, base: nat, recorded: seq<(Channel, Payload)>, q: nat)
    requires base <= |DataFor(recorded, ch)| && Deltas(log, from, ch) == DataFor(recorded, ch)[base..]
    requires from <= q < |log| && log[q].Offer? && IsDelta(log[q].frame, ch)
    ensures IsVersion(recorded, ch, base + |Deltas(log[..q + 1], from, ch)|, Some(log[q].frame.payload))
    ensures base + |Deltas(log[..q + 1], from, ch)| == |DataFor(recorded, ch)| <==>
            forall k :: q < k < |log| && log[k].Offer? ==> !IsDelta(log[k].frame, ch)
  {
    DeltasBetween(log, from, ch, q + 1);
    var d := Deltas(log[..q + 1], from, ch);
    assert log[..q + 1][..q] == log[..q];
    assert d[|d| - 1] == log[q].frame && Deltas(log, from, ch)[|d| - 1] == d[|d| - 1];
  }

  /** The offers since `from` agree with what was recorded: the Data is the channel's values after the
      first `base` ones, and every snapshot is the value that its lookup knew. */
  ghost predicate Faithful(log: seq<Event>, from: nat, ch: Channel, base: nat, recorded: seq<(Channel, Payload)>) {
    && from <= |log| && base <= |DataFor(recorded, ch)| && Deltas(log, from, ch) == DataFor(recorded, ch)[base..]
    && forall i :: from <= i < |log| && States(log[i], ch) && log[i].frame.Snapshot? ==>
                     IsVersion(recorded, ch, Known(log[..i], ch, recorded), Some(log[i].frame.payload))
  }

  lemma LatestIsFound(recorded: seq<(Channel, Payload)>, ch: Channel, state: Option<Payload>)
    requires IsVersion(recorded, ch, |DataFor(recorded, ch)|, state)
    ensures state == Find(LastOf(recorded), ch)
  {
    LastOfIsLastData(recorded, ch);
  }

  lemma VersionIff(log: seq<Event>, from: nat, ch: Channel, base: nat, recorded: seq<(Channel, Payload)>)
    requires Faithful(log, from, ch, base, recorded)
    ensures
      var version := Version(log, from, ch, base, recorded);
      && IsVersion(recorded, ch, version, State(log, from, ch))
      && (version == |DataFor(recorded, ch)| <==> UpToDate(log, from, ch, recorded))
  {
    match Newest(log, from, ch)
    case None =>
    case Some(q) =>
      if log[q].frame.Data? {
        DataVersion(log, from, ch, base, recorded, q);
      }
  }

  lemma FaithfulAlways(env: Env, run: seq<Label>, id: ConnId, ch: Channel)
    requires Legal(env, run) && Holds(After(env, run).conns, id, ch)
    requires NothingUnderWay(After(env, run), id, ch) && GatewayOnly(After(env, run), id, ch)
    ensures
      var w := After(env, run);
      Faithful(w.clients[id].log, w.clients[id].joins[ch].logPos, ch, Base(w, id, ch), w.recorded)
  {
    var w := After(env, run);
    var log, from := w.clients[id].log, w.clients[id].joins[ch].logPos;
    DeltasAreValues(env, run, id, ch);
    forall i | from <= i < |log| && States(log[i], ch) && log[i].frame.Snapshot?
      ensures IsVersion(w.recorded, ch, Known(log[..i], ch, w.recorded), Some(log[i].frame.payload))
    {
      SnapshotIsKnown(env, run, id, i);
    }
  }

  /** For every run, once nothing of the gateway's is on its way: the state a subscriber is left with
      is the recorded value that its version names, and it is the latest one if and only if the last
      state that entered is the last Data offered, or a snapshot no value was recorded after. */
  lemma CurrentIff(env: Env, run: seq<Label>, id: ConnId, ch: Channel)
    requires Legal(env, run) && Holds(After(env, run).conns, id, ch)
    requires NothingUnderWay(After(env, run), id, ch) && GatewayOnly(After(env, run), id, ch)
    ensures
      var w := After(env, run);
      var log, from := w.clients[id].log, w.clients[id].joins[ch].logPos;
      var version := Version(log, from, ch, Base(w, id, ch), w.recorded);
      && IsVersion(w.recorded, ch, version, State(log, from, ch))
      && (version == |DataFor(w.recorded, ch)| <==> UpToDate(log, from, ch, w.recorded))
      && (version == |DataFor(w.recorded, ch)| ==> State(log, from, ch) == Find(w.last, ch))
  {
    var w := After(env, run);
    FaithfulAlways(env, run, id, ch);
    FeedAlways(env, run);
    var log, from := w.clients[id].log, w.clients[id].joins[ch].logPos;
    VersionIff(log, from, ch, Base(w, id, ch), w.recorded);
    if Version(log, from, ch, Base(w, id, ch), w.recorded) == |DataFor(w.recorded, ch)| {
      LatestIsFound(w.recorded, ch, State(log, from, ch));
    }
  }

  /** Every state offered since `from` entered the queue. */
  ghost predicate AllEntered(log: seq<Event>, from: nat, ch: Channel) {
    forall i :: from <= i < |log| && States(log[i], ch) ==> log[i].outcome.Sent?
  }

  /** The snapshot offered at `i` is the last one. */
  ghost predicate LastSnapshot(log: seq<Event>, from: nat, ch: Channel, i: nat) {
    && from <= i < |log| && States(log[i], ch) && log[i].frame.Snapshot?
    && forall k :: i < k < |log| && States(log[k], ch) ==> !log[k].frame.Snapshot?
  }

  ghost predicate DataBehind(log: seq<Event>, ch: Channel, i: nat) {
    exists k :: i < k < |log| && States(log[k], ch) && log[k].frame.Data?
  }

  lemma GoesBackIff(log: seq<Event>, from: nat, ch: Channel, base: nat, recorded: seq<(Channel, Payload)>, i: nat)
    requires Faithful(log, from, ch, base, recorded) && AllEntered(log, from, ch) && LastSnapshot(log, from, ch, i)
    ensures
      var latest := |DataFor(recorded, ch)|;
      var current := Version(log, from, ch, base, recorded) == latest;
      && (current <==> DataBehind(log, ch, i) || Known(log[..i], ch, recorded) == latest)
      && (!current ==> State(log, from, ch) == Some(log[i].frame.payload) && base + |Deltas(log[..i], from, ch)| == latest)
  {
    NewestIsLast(log, from, ch, i);
    var q := Newest(log, from, ch).value;
    forall k | q < k < |log| && States(log[k], ch) ensures false {
      NewestIsLast(log, from, ch, k);
    }
    if q == i {
      DeltasBetween(log, from, ch, i);
      assert !DataBehind(log, ch, i);
    } else {
      DataVersion(log, from, ch, base, recorded, q);
      assert DataBehind(log, ch, i);
    }
  }

  /** A subscriber that missed nothing may still be left with an old value: if everything offered on
      the channel entered, its state is the latest value if and only if Data came behind the snapshot
      or no value was recorded after the snapshot's lookup; otherwise it is the snapshot, with every
      value that was recorded after its lookup ahead of it in the queue. */
  lemma SnapshotGoesBackIff(env: Env, run: seq<Label>, id: ConnId, ch: Channel, i: nat)
    requires Legal(env, run) && Holds(After(env, run).conns, id, ch)
    requires NothingUnderWay(After(env, run), id, ch) && GatewayOnly(After(env, run), id, ch)
    requires
      var w := After(env, run);
      var log, from := w.clients[id].log, w.clients[id].joins[ch].logPos;
      AllEntered(log, from, ch) && LastSnapshot(log, from, ch, i)
    ensures
      var w := After(env, run);
      var log, from := w.clients[id].log, w.clients[id].joins[ch].logPos;
      var latest := |DataFor(w.recorded, ch)|;
      var current := Version(log, from, ch, Base(w, id, ch), w.recorded) == latest;
      && (current <==> DataBehind(log, ch, i) || Known(log[..i], ch, w.recorded) == latest)
      && (!current ==> State(log, from, ch) == Some(log[i].frame.payload)
                       && Base(w, id, ch) + |Deltas(log[..i], from, ch)| == latest)
  {
    var w := After(env, run);
    FaithfulAlways(env, run, id, ch);
    GoesBackIff(w.clients[id].log, w.clients[id].joins[ch].logPos, ch, Base(w, id, ch), w.recorded, i);
  }
}
