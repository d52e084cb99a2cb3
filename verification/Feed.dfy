/** The gateway's feed: record before publish against subscribe before snapshot, and overruns.
    The gateway thread is the decoder closure of `examples/gateway.rs` inside the drain loop of
    `src/outcry_source.rs`; a subscriber's lookups are the snapshot loop of `handle`. */
module Feed {
  import opened Protocol
  import opened Subscriptions
  import opened Machine
  import opened Invariant
  import opened Tracking

  /** The values the gateway has published so far. */
  function Published(tape: seq<Entry>): seq<(Channel, Payload)> {
    if tape == [] then []
    else
      var e := tape[|tape| - 1];
      Published(tape[..|tape| - 1]) +
      if e.Airing? && e.source == GATEWAY && e.scope.One? && e.frame.Data?
      then [(e.frame.channel, e.frame.payload)] else []
  }

  /** What a last-value store holds after recording `values`. */
  function LastOf(values: seq<(Channel, Payload)>): map<Channel, Payload> {
    if values == [] then map[]
    else LastOf(values[..|values| - 1])[values[|values| - 1].0 := values[|values| - 1].1]
  }

  /** The Data frames for `ch` among `values`. */
  function DataFor(values: seq<(Channel, Payload)>, ch: Channel): seq<Frame> {
    if values == [] then []
    else
      var v := values[|values| - 1];
      DataFor(values[..|values| - 1], ch) + if v.0 == ch then [Data(ch, v.1)] else []
  }

  function Held(gateway: Gateway): seq<(Channel, Payload)> {
    if gateway.Ready? then [(gateway.channel, gateway.payload)] else []
  }

  /** Is the latest overrun still waiting for its resync? */
  function Waiting(tape: seq<Entry>): bool {
    if tape == [] then false
    else
      match tape[|tape| - 1]
      case Gap => true
      case Airing(source, scope, _) => Waiting(tape[..|tape| - 1]) && !(source == GATEWAY && scope.All?)
  }

  ghost predicate EntryOk(e: Entry) {
    e.Airing? ==>
      && !e.scope.Self?
      && (e.scope.All? ==> e.frame == Resync([]))
      && (e.scope.One? ==> Airable(e.scope.channel, e.frame) && (e.source == GATEWAY ==> e.frame.Data?))
  }

  ghost predicate TapeOk(tape: seq<Entry>) {
    forall i :: 0 <= i < |tape| ==> EntryOk(tape[i])
  }

  ghost predicate FeedOk(w: World) {
    && TapeOk(w.tape)
    && Published(w.tape) + Held(w.gateway) == w.recorded
    && w.last == LastOf(w.recorded)
    && (Waiting(w.tape) <==> w.gateway.Lost?)
  }

  lemma FeedStepAiring(w: World, e: Entry, gateway: Gateway)
    requires FeedOk(w) && EntryOk(e) && e.Airing?
    requires e.source != GATEWAY ==> gateway == w.gateway
    requires e.source == GATEWAY ==> gateway == Resting
    requires e.source == GATEWAY && e.scope.All? ==> w.gateway.Lost?
    requires e.source == GATEWAY && e.scope.One? ==> w.gateway == Ready(e.frame.channel, e.frame.payload)
    ensures
      var tape := w.tape + [e];
      && TapeOk(tape)
      && Published(tape) + Held(gateway) == w.recorded
      && (Waiting(tape) <==> gateway.Lost?)
  {
    assert (w.tape + [e])[..|w.tape|] == w.tape;
  }

  lemma FeedStepQuiet(w: World, w': World)
    requires FeedOk(w) && FeedSame(w, w')
    ensures FeedOk(w')
  {
  }

  lemma FeedStepRecord(w: World, ch: Channel, v: Payload)
    requires FeedOk(w) && w.gateway.Resting?
    ensures FeedOk(w.(last := w.last[ch := v], gateway := Ready(ch, v), recorded := w.recorded + [(ch, v)]))
  {
    assert (w.recorded + [(ch, v)])[..|w.recorded|] == w.recorded;
    assert Published(w.tape) + [] == w.recorded;
  }

  lemma FeedStepGap(w: World)
    requires FeedOk(w) && w.gateway.Resting?
    ensures FeedOk(w.(gateway := Lost, tape := w.tape + [Gap]))
  {
    assert (w.tape + [Gap])[..|w.tape|] == w.tape;
    assert Published(w.tape) + [] == w.recorded;
    assert Published(w.tape + [Gap]) + [] == w.recorded;
  }

  lemma FeedStepPublish(env: Env, w: World, p: nat, ch: Channel, frame: Frame)
    requires FeedOk(w) && Enabled(env, w, StartPublish(p, ch, frame))
    ensures FeedOk(DoPublish(w, p, ch, frame))
  {
    FeedStepAiring(w, Airing(p, One(ch), frame), DoPublish(w, p, ch, frame).gateway);
  }

  lemma FeedStepBroadcast(env: Env, w: World, p: nat)
    requires FeedOk(w) && Enabled(env, w, StartBroadcast(p))
    ensures FeedOk(DoBroadcast(w, p))
  {
    FeedStepAiring(w, Airing(p, All, Resync([])), DoBroadcast(w, p).gateway);
  }

  lemma FeedStep(env: Env, w: World, l: Label)
    requires FeedOk(w) && Enabled(env, w, l)
    ensures FeedOk(Step(env, w, l))
  {
    if Feeds(l) {
      FeedStepMoving(env, w, l);
    } else {
      FeedUntouched(env, w, l);
      FeedStepQuiet(w, Step(env, w, l));
    }
  }

  lemma FeedStepMoving(env: Env, w: World, l: Label)
    requires FeedOk(w) && Enabled(env, w, l) && Feeds(l)
    ensures FeedOk(Step(env, w, l))
  {
    match l
    case Record(ch, v) => FeedStepRecord(w, ch, v);
    case Overrun => FeedStepGap(w);
    case StartPublish(p, ch, frame) => FeedStepPublish(env, w, p, ch, frame);
    case StartBroadcast(p) => FeedStepBroadcast(env, w, p);
  }

  /** In every run the gateway publishes what it recorded, in order and at most one behind, the
      snapshot store holds the latest recorded values, and an overrun waits for its resync. */
  lemma {:induction false} FeedAlways(env: Env, run: seq<Label>)
    requires Legal(env, run)
    ensures FeedOk(After(env, run))
  {
    if run != [] {
      FeedAlways(env, run[..|run| - 1]);
      FeedStep(env, After(env, run[..|run| - 1]), run[|run| - 1]);
    }
  }

  lemma {:induction false} PublishedAppend(a: seq<Entry>, b: seq<Entry>)
    ensures Published(a + b) == Published(a) + Published(b)
  {
    if b == [] {
      assert a + b == a;
    } else {
      PublishedAppend(a, b[..|b| - 1]);
      assert (a + b)[..|a + b| - 1] == a + b[..|b| - 1];
    }
  }

  lemma {:induction false} DataForAppend(a: seq<(Channel, Payload)>, b: seq<(Channel, Payload)>, ch: Channel)
    ensures DataFor(a + b, ch) == DataFor(a, ch) + DataFor(b, ch)
  {
    if b == [] {
      assert a + b == a;
    } else {
      DataForAppend(a, b[..|b| - 1], ch);
      assert (a + b)[..|a + b| - 1] == a + b[..|b| - 1];
    }
  }

  /** On one channel the gateway's airings are the Data of its published values. */
  lemma {:induction false} AiredIsPublished(tape: seq<Entry>, ch: Channel)
    requires TapeOk(tape)
    ensures Aired(tape, GATEWAY, {One(ch)}) == DataFor(Published(tape), ch)
  {
    if tape != [] {
      var n := |tape| - 1;
      AiredIsPublished(tape[..n], ch);
      assert EntryOk(tape[n]);
      if Published(tape) != Published(tape[..n]) {
        assert Published(tape)[..|Published(tape)| - 1] == Published(tape[..n]);
      }
    }
  }

  // ---- No lost update -------------------------------------------------------------------

  /** What a lookup in the log says about the recorded values. */
  ghost predicate LookOk(w: World, e: Event) {
    e.Looked? ==> e.at <= |w.recorded| && e.found == Find(LastOf(w.recorded[..e.at]), e.channel)
  }

  lemma RecordedGrows(env: Env, w: World, l: Label, e: Event)
    requires Enabled(env, w, l) && LookOk(w, e)
    ensures LookOk(Step(env, w, l), e)
  {
    if e.Looked? {
      assert Step(env, w, l).recorded[..e.at] == w.recorded[..e.at];
    }
  }

  lemma NewLookup(env: Env, w: World, l: Label, id: ConnId)
    requires Enabled(env, w, l)
    ensures |News(env, w, l, id)| <= 1
    ensures News(env, w, l, id) != [] && News(env, w, l, id)[0].Looked? ==>
              News(env, w, l, id)[0].at == |w.recorded| && l.Lookup? &&
              News(env, w, l, id)[0].found == Find(w.last, News(env, w, l, id)[0].channel)
  {
  }

  lemma LookStep(env: Env, w: World, l: Label, id: ConnId, i: nat)
    requires FeedOk(w) && Enabled(env, w, l) && id in w.clients && !l.Insert?
    requires i < |w.clients[id].log| ==> LookOk(w, w.clients[id].log[i])
    requires id in Step(env, w, l).clients && i < |Step(env, w, l).clients[id].log|
    ensures LookOk(Step(env, w, l), Step(env, w, l).clients[id].log[i])
  {
    Histories(env, w, l, id);
    if i < |w.clients[id].log| {
      RecordedGrows(env, w, l, w.clients[id].log[i]);
    } else {
      NewLookup(env, w, l, id);
      if l.Lookup? {
        FeedUntouched(env, w, l);
      }
      assert w.recorded[..|w.recorded|] == w.recorded;
    }
  }

  /** A lookup returns the latest value recorded before it. */
  lemma {:induction false} LookupIsLatest(env: Env, run: seq<Label>, id: ConnId, i: nat)
    requires Legal(env, run) && id in After(env, run).clients && i < |After(env, run).clients[id].log|
    ensures var w := After(env, run); LookOk(w, w.clients[id].log[i])
  {
    if run != [] {
      var before, l := run[..|run| - 1], run[|run| - 1];
      var w := After(env, before);
      if l.Insert? {
        if l.id != id {
          Untouched(env, w, l, id);
          LookupIsLatest(env, before, id, i);
        }
      } else {
        KeepsOthers(env, w, l, id);
        if i < |w.clients[id].log| {
          LookupIsLatest(env, before, id, i);
        }
        FeedAlways(env, before);
        LookStep(env, w, l, id, i);
      }
    }
  }

  lemma KeepsOthers(env: Env, w: World, l: Label, id: ConnId)
    requires Enabled(env, w, l) && id in Step(env, w, l).clients && !(l.Insert? && l.id == id)
    ensures id in w.clients
    ensures l.Insert? ==> Step(env, w, l).clients[id] == w.clients[id]
  {
  }

  /** A lookup at `i` comes after everything that was published before tape position `pos`. */
  ghost predicate LateOk(w: World, id: ConnId, pos: nat, i: nat) {
    && id in w.clients && pos <= |w.tape|
    && (i < |w.clients[id].log| && w.clients[id].log[i].Looked? ==>
          |Published(w.tape[..pos])| <= w.clients[id].log[i].at)
  }

  lemma PublishedWithin(w: World, pos: nat)
    requires FeedOk(w) && pos <= |w.tape|
    ensures |Published(w.tape[..pos])| <= |w.recorded|
  {
    assert w.tape == w.tape[..pos] + w.tape[pos..];
    PublishedAppend(w.tape[..pos], w.tape[pos..]);
  }

  lemma LateStep(env: Env, w: World, l: Label, id: ConnId, pos: nat, i: nat)
    requires FeedOk(w) && Enabled(env, w, l) && !(l.Insert? && l.id == id)
    requires LateOk(w, id, pos, i)
    ensures LateOk(Step(env, w, l), id, pos, i)
  {
    Histories(env, w, l, id);
    assert (w.tape + Reel(l))[..pos] == w.tape[..pos];
    if l.Insert? {
      Untouched(env, w, l, id);
    } else {
      NewLookup(env, w, l, id);
      PublishedWithin(w, pos);
    }
  }

  /** Within a subscription, a lookup comes after everything that was published before it began. */
  lemma {:induction false} LookupIsLate(env: Env, run: seq<Label>, id: ConnId, ch: Channel, i: nat)
    requires Legal(env, run) && Holds(After(env, run).conns, id, ch)
    requires
      var w := After(env, run);
      id in w.clients && ch in w.clients[id].joins && w.clients[id].joins[ch].logPos <= i
    ensures var w := After(env, run); LateOk(w, id, w.clients[id].joins[ch].tapePos, i)
  {
    if run != [] {
      var before, l := run[..|run| - 1], run[|run| - 1];
      var w := After(env, before);
      Always(env, before);
      HoldsStep(env, w, l, id, ch);
      if ch in w.conns[id].subscriptions {
        ExactWhileSubscribed(env, before, id, ch, GATEWAY, {});
        LookupIsLate(env, before, id, ch, i);
        FeedAlways(env, before);
        LateStep(env, w, l, id, w.clients[id].joins[ch].tapePos, i);
      } else {
        FreshLate(env, w, l, id, i);
      }
    }
  }

  lemma FreshLate(env: Env, w: World, l: Label, id: ConnId, i: nat)
    requires Enabled(env, w, l) && l.Subscribe? && l.id == id && id in w.clients && |w.clients[id].log| <= i
    ensures LateOk(Step(env, w, l), id, |w.tape|, i)
  {
    Histories(env, w, l, id);
  }

  /** What the gateway aired on a channel from a tape position on, read off the published values. */
  lemma PublishedFrom(tape: seq<Entry>, pos: nat, ch: Channel)
    requires TapeOk(tape) && pos <= |tape|
    ensures |Published(tape[..pos])| <= |Published(tape)|
    ensures Aired(tape[pos..], GATEWAY, {One(ch)}) == DataFor(Published(tape)[|Published(tape[..pos])|..], ch)
  {
    assert tape == tape[..pos] + tape[pos..];
    PublishedAppend(tape[..pos], tape[pos..]);
    assert Published(tape)[|Published(tape[..pos])|..] == Published(tape[pos..]);
    AiredIsPublished(tape[pos..], ch);
  }

  /** With record-before-publish on one gateway thread, no update is lost to a new subscriber,
      whatever the interleaving: its snapshot is the latest of the first `k` recorded values, and
      it is offered, in order, every value on the channel published from some point `g` on, with
      `g` no later than `k`. */
  lemma NoLostUpdate(env: Env, run: seq<Label>, id: ConnId, ch: Channel, i: nat)
    requires Legal(env, run) && Holds(After(env, run).conns, id, ch)
    requires
      var w := After(env, run);
      && id in w.clients && ch in w.clients[id].joins
      && w.clients[id].joins[ch].logPos <= i < |w.clients[id].log|
      && w.clients[id].log[i].Looked? && w.clients[id].log[i].channel == ch
    ensures
      var w := After(env, run);
      var j := w.clients[id].joins[ch];
      var look := w.clients[id].log[i];
      && j.tapePos <= |w.tape|
      && var g := |Published(w.tape[..j.tapePos])|;
      && g <= look.at <= |w.recorded| && g <= |Published(w.tape)|
      && look.found == Find(LastOf(w.recorded[..look.at]), ch)
      && Heard(w.clients[id].log[j.logPos..], GATEWAY, {One(ch)}) + Owed(w, id, GATEWAY, {One(ch)})
         == DataFor(Published(w.tape)[g..], ch)
  {
    var w := After(env, run);
    var j := w.clients[id].joins[ch];
    LookupIsLatest(env, run, id, i);
    LookupIsLate(env, run, id, ch, i);
    ExactWhileSubscribed(env, run, id, ch, GATEWAY, {One(ch)});
    FeedAlways(env, run);
    PublishedWithin(w, j.tapePos);
    PublishedFrom(w.tape, j.tapePos, ch);
  }

  lemma {:induction false} LatestAfter(values: seq<(Channel, Payload)>, n: nat, ch: Channel)
    requires n < |values| && values[n].0 == ch
    ensures ch in LastOf(values)
    ensures exists m :: n <= m < |values| && values[m] == (ch, LastOf(values)[ch])
  {
    var k := |values| - 1;
    if values[k].0 == ch {
      assert values[k] == (ch, LastOf(values)[ch]);
    } else {
      LatestAfter(values[..k], n, ch);
      var m :| n <= m < k && values[..k][m] == (ch, LastOf(values[..k])[ch]);
      assert values[m] == (ch, LastOf(values)[ch]);
    }
  }

  /** The `n`th value is found behind the Data for its channel that precedes it. */
  lemma DataForAt(values: seq<(Channel, Payload)>, n: nat)
    requires n < |values|
    ensures
      var ch := values[n].0;
      var at := |DataFor(values[..n], ch)|;
      at < |DataFor(values, ch)| && DataFor(values, ch)[at] == Data(ch, values[n].1)
  {
    var ch := values[n].0;
    assert values == values[..n + 1] + values[n + 1..];
    DataForAppend(values[..n + 1], values[n + 1..], ch);
    assert values[..n + 1][..n] == values[..n];
  }

  lemma Covered(values: seq<(Channel, Payload)>, recorded: seq<(Channel, Payload)>, g: nat, k: nat,
                ch: Channel, found: Option<Payload>, n: nat)
    requires values <= recorded && g <= k <= |recorded| && g <= |values|
    requires found == Find(LastOf(recorded[..k]), ch)
    requires n < |values| && values[n].0 == ch
    ensures n < k ==> found.Some? && exists m :: n <= m < k && recorded[m] == (ch, found.value)
    ensures n >= k ==>
              var at := |DataFor(values[g..n], ch)|;
              at < |DataFor(values[g..], ch)| && DataFor(values[g..], ch)[at] == Data(ch, values[n].1)
  {
    if n < k {
      var seen := recorded[..k];
      assert seen[n] == values[n];
      LatestAfter(seen, n, ch);
      var m :| n <= m < |seen| && seen[m] == (ch, LastOf(seen)[ch]);
      assert recorded[m] == (ch, found.value);
    } else {
      assert values[g..][n - g] == values[n] && values[g..][..n - g] == values[g..n];
      DataForAt(values[g..], n - g);
    }
  }

  /** Value by value: the `n`th published value was recorded before the lookup, and then the snapshot
      is that value or a later one, or it is offered to the subscriber: it stands in what was offered
      since the subscription began (or is on its way) right behind the values on the channel that were
      published between that beginning and it. */
  lemma EachUpdateArrives(env: Env, run: seq<Label>, id: ConnId, ch: Channel, i: nat, n: nat)
    requires Legal(env, run) && Holds(After(env, run).conns, id, ch)
    requires
      var w := After(env, run);
      && id in w.clients && ch in w.clients[id].joins
      && w.clients[id].joins[ch].logPos <= i < |w.clients[id].log|
      && w.clients[id].log[i].Looked? && w.clients[id].log[i].channel == ch
      && n < |Published(w.tape)| && Published(w.tape)[n].0 == ch
    ensures
      var w := After(env, run);
      var look := w.clients[id].log[i];
      var j := w.clients[id].joins[ch];
      var offered := Heard(w.clients[id].log[j.logPos..], GATEWAY, {One(ch)}) + Owed(w, id, GATEWAY, {One(ch)});
      && j.tapePos <= |w.tape|
      && var g := |Published(w.tape[..j.tapePos])|;
      && g <= look.at <= |w.recorded|
      && (n < look.at ==> look.found.Some? && exists m :: n <= m < look.at && w.recorded[m] == (ch, look.found.value))
      && (n >= look.at ==>
            var at := |DataFor(Published(w.tape)[g..n], ch)|;
            at < |offered| && offered[at] == Data(ch, Published(w.tape)[n].1))
  {
    var w := After(env, run);
    NoLostUpdate(env, run, id, ch, i);
    FeedAlways(env, run);
    var g := |Published(w.tape[..w.clients[id].joins[ch].tapePos])|;
    Covered(Published(w.tape), w.recorded, g, w.clients[id].log[i].at, ch, w.clients[id].log[i].found, n);
  }

  // ---- Overruns ---------------------------------------------------------------------------

  /** Running on keeps a connection's log and the tape as prefixes, and its birth. */
  lemma {:induction false} HistoryGrows(env: Env, run: seq<Label>, n: nat, id: ConnId)
    requires Legal(env, run) && n <= |run| && Legal(env, run[..n]) && id in After(env, run[..n]).clients
    ensures
      var w, w' := After(env, run[..n]), After(env, run);
      && id in w'.clients
      && w.clients[id].log <= w'.clients[id].log
      && w.clients[id].born == w'.clients[id].born
      && w.tape <= w'.tape
  {
    if n == |run| {
      assert run[..n] == run;
    } else {
      var before, l := run[..|run| - 1], run[|run| - 1];
      assert before[..n] == run[..n];
      HistoryGrows(env, before, n, id);
      Always(env, before);
      var w := After(env, before);
      assert ClientOk(w, id);
      assert !(l.Insert? && l.id == id);
      Histories(env, w, l, id);
      KeepsBirth(env, w, l, id);
      if l.Insert? {
        KeepsOthers(env, w, l, id);
      }
    }
  }

  /** An overrun with no resync after it is still waiting. */
  lemma {:induction false} StillWaiting(a: seq<Entry>, b: seq<Entry>)
    requires Waiting(a) && Aired(b, GATEWAY, {All}) == []
    ensures Waiting(a + b)
  {
    if b == [] {
      assert a + b == a;
    } else {
      var n := |b| - 1;
      assert (a + b)[..|a + b| - 1] == a + b[..n];
      assert (a + b)[|a + b| - 1] == b[n];
      StillWaiting(a, b[..n]);
    }
  }

  lemma {:induction false} HeardWitness(log: seq<Event>, p: nat, scopes: set<Scope>) returns (i: nat)
    requires Heard(log, p, scopes) != []
    ensures i < |log| && log[i].Offer? && log[i].sender == Publisher(p) && log[i].scope in scopes
    ensures log[i].frame in Heard(log, p, scopes)
  {
    i := |log| - 1;
    var e := log[i];
    if !(e.Offer? && e.sender == Publisher(p) && e.scope in scopes) {
      i := HeardWitness(log[..i], p, scopes);
    }
  }

  lemma {:induction false} BroadcastsAreResyncs(tape: seq<Entry>, p: nat)
    requires TapeOk(tape)
    ensures forall f :: f in Aired(tape, p, {All}) ==> f == Resync([])
  {
    if tape != [] {
      BroadcastsAreResyncs(tape[..|tape| - 1], p);
      assert EntryOk(tape[|tape| - 1]);
    }
  }

  ghost predicate Resynced(e: Event) {
    e.Offer? && e.sender == Publisher(GATEWAY) && e.frame == Resync([])
  }

  /** The broadcasts on the tape after an overrun that no longer waits. */
  lemma ResyncOnTape(tape: seq<Entry>, tape': seq<Entry>)
    requires tape + [Gap] <= tape' && !Waiting(tape')
    ensures Aired(tape'[|tape|..], GATEWAY, {All}) != []
  {
    var gapped, rest := tape + [Gap], tape'[|tape| + 1..];
    assert gapped[..|tape|] == tape;
    assert tape' == gapped + rest;
    assert tape'[|tape|..] == [Gap] + rest;
    AiredAppend([Gap], rest, GATEWAY, {All});
    if Aired(rest, GATEWAY, {All}) == [] {
      StillWaiting(gapped, rest);
    }
  }

  /** On the histories of one connection: what it heard in between is what was broadcast in between. */
  lemma HeardBetween(log: seq<Event>, log': seq<Event>, tape: seq<Entry>, tape': seq<Entry>, born: nat)
    requires log <= log' && tape <= tape' && born <= |tape|
    requires Heard(log, GATEWAY, {All}) == Aired(tape[born..], GATEWAY, {All})
    requires Heard(log', GATEWAY, {All}) == Aired(tape'[born..], GATEWAY, {All})
    ensures Heard(log'[|log|..], GATEWAY, {All}) == Aired(tape'[|tape|..], GATEWAY, {All})
  {
    assert log' == log + log'[|log|..];
    HeardAppend(log, log'[|log|..], GATEWAY, {All});
    assert tape'[born..] == tape[born..] + tape'[|tape|..];
    AiredAppend(tape[born..], tape'[|tape|..], GATEWAY, {All});
    SamePrefix(Heard(log, GATEWAY, {All}), Heard(log'[|log|..], GATEWAY, {All}), Aired(tape'[|tape|..], GATEWAY, {All}));
  }

  lemma ResyncAmong(log: seq<Event>, tape: seq<Entry>) returns (i: nat)
    requires TapeOk(tape)
    requires Heard(log, GATEWAY, {All}) == Aired(tape, GATEWAY, {All}) != []
    ensures i < |log| && Resynced(log[i])
  {
    BroadcastsAreResyncs(tape, GATEWAY);
    i := HeardWitness(log, GATEWAY, {All});
  }

  lemma SamePrefix<T>(a: seq<T>, b: seq<T>, c: seq<T>)
    requires a + b == a + c
    ensures b == c
  {
    assert b == (a + b)[|a|..];
    assert c == (a + c)[|a|..];
  }

  /** With no broadcast of the gateway under way, a connection has heard every one since birth. */
  lemma HeardAll(env: Env, run: seq<Label>, id: ConnId)
    requires Legal(env, run) && id in After(env, run).conns
    requires
      var w := After(env, run);
      Publisher(GATEWAY) in w.readers ==> w.readers[Publisher(GATEWAY)].scope.One?
    ensures
      var w := After(env, run);
      && id in w.clients && w.clients[id].born <= |w.tape|
      && Heard(w.clients[id].log, GATEWAY, {All}) == Aired(w.tape[w.clients[id].born..], GATEWAY, {All})
  {
    ExactSinceBirth(env, run, id, GATEWAY, {All});
    var w := After(env, run);
    assert w.clients[id].log[0..] == w.clients[id].log;
    assert Owed(w, id, GATEWAY, {All}) == [];
  }

  lemma LastStep(env: Env, run: seq<Label>)
    requires Legal(env, run) && run != []
    ensures
      var before := run[..|run| - 1];
      && Legal(env, before) && Enabled(env, After(env, before), run[|run| - 1])
      && After(env, run) == Step(env, After(env, before), run[|run| - 1])
  {
  }

  lemma TapeOkFrom(tape: seq<Entry>, n: nat)
    requires TapeOk(tape) && n <= |tape|
    ensures TapeOk(tape[n..])
  {
  }

  /** What the runs contribute to the overrun argument. */
  lemma OverrunHistories(env: Env, run: seq<Label>, n: nat, id: ConnId)
    requires Legal(env, run) && n + 1 < |run| && run[n] == Overrun
    requires run[|run| - 1].StartPublish? && run[|run| - 1].p == GATEWAY
    requires Legal(env, run[..n]) && id in After(env, run[..n]).conns && id in After(env, run).conns
    ensures
      var w, w' := After(env, run[..n]), After(env, run);
      && id in w.clients && id in w'.clients && w.clients[id].log <= w'.clients[id].log
      && w.tape + [Gap] <= w'.tape && TapeOk(w'.tape) && !Waiting(w'.tape)
      && Heard(w'.clients[id].log[|w.clients[id].log|..], GATEWAY, {All}) == Aired(w'.tape[|w.tape|..], GATEWAY, {All})
  {
    var w, w' := After(env, run[..n]), After(env, run);
    LegalPrefix(env, run, n + 1);
    assert run[..n + 1][..n] == run[..n];
    LastStep(env, run[..n + 1]);
    LastStep(env, run);
    FeedAlways(env, run);
    HeardAll(env, run[..n], id);
    HeardAll(env, run, id);
    HistoryGrows(env, run, n, id);
    HistoryGrows(env, run, n + 1, id);
    HeardBetween(w.clients[id].log, w'.clients[id].log, w.tape, w'.tape, w.clients[id].born);
  }

  lemma ResyncBetween(log: seq<Event>, log': seq<Event>, tape: seq<Entry>, tape': seq<Entry>)
    requires log <= log' && tape + [Gap] <= tape' && TapeOk(tape') && !Waiting(tape')
    requires Heard(log'[|log|..], GATEWAY, {All}) == Aired(tape'[|tape|..], GATEWAY, {All})
    ensures exists i :: |log| <= i < |log'| && Resynced(log'[i])
  {
    ResyncOnTape(tape, tape');
    TapeOkFrom(tape', |tape|);
    var i := ResyncAmong(log'[|log|..], tape'[|tape|..]);
    assert log'[|log| + i] == log'[|log|..][i];
  }

  /** An overrun is always signalled: between an overrun and the gateway's next publication every
      connection registered throughout has been offered a Resync. */
  lemma OverrunIsSignalled(env: Env, run: seq<Label>, n: nat, id: ConnId)
    requires Legal(env, run) && n + 1 < |run| && run[n] == Overrun
    requires run[|run| - 1].StartPublish? && run[|run| - 1].p == GATEWAY
    requires Legal(env, run[..n]) && id in After(env, run[..n]).conns && id in After(env, run).conns
    ensures
      var w, w' := After(env, run[..n]), After(env, run);
      && id in w.clients && id in w'.clients
      && exists i :: |w.clients[id].log| <= i < |w'.clients[id].log| && Resynced(w'.clients[id].log[i])
  {
    OverrunHistories(env, run, n, id);
    var w, w' := After(env, run[..n]), After(env, run);
    ResyncBetween(w.clients[id].log, w'.clients[id].log, w.tape, w'.tape);
  }
}
