/** "Current state before its first delta": exactly when the snapshot of a new subscription enters the
    client's queue, and enters it before any Data of the channel. */
module SnapshotOrder {
  import opened Protocol
  import opened Delivery
  import opened Subscriptions
  import opened Machine
  import opened Invariant
  import opened Tracking
  import opened Output
  import opened Dialogue
  import opened Turns

  // ---- Room in the queue during a turn ------------------------------------------------------

  /** Frames that wait in the queue. */
  function Backlog(log: seq<Event>): int {
    |Accepted(log)| - |Taken(log)|
  }

  /** Frames offered by anybody, with or without success. */
  function Offers(log: seq<Event>): nat {
    if log == [] then 0 else Offers(log[..|log| - 1]) + if log[|log| - 1].Offer? then 1 else 0
  }

  /** Nothing is taken from the queue between `k` and `n`, and its receiver is there. */
  predicate Untaken(log: seq<Event>, k: nat, n: nat) {
    k <= n <= |log| && forall j :: k <= j < n ==> !log[j].Took? && (log[j].Offer? ==> !log[j].outcome.Closed?)
  }

  lemma OffersMore(log: seq<Event>, k: nat, n: nat)
    requires k <= n < |log|
    ensures Offers(log[k..n + 1]) == Offers(log[k..n]) + if log[n].Offer? then 1 else 0
  {
    assert log[k..n + 1][..n - k] == log[k..n];
  }

  lemma {:induction false} OffersGrow(log: seq<Event>, k: nat, i: nat, n: nat)
    requires k <= i <= n <= |log|
    ensures Offers(log[k..i]) <= Offers(log[k..n])
  {
    if i < n {
      OffersGrow(log, k, i, n - 1);
      OffersMore(log, k, n - 1);
    }
  }

  /** While nobody takes, the queue holds what waited and all that was offered since, up to its bound. */
  lemma {:induction false} BacklogFills(env: Env, log: seq<Event>, k: nat, n: nat)
    requires Untaken(log, k, n) && Backlog(log[..k]) <= env.config.sendQueue
    requires forall i :: 0 <= i < n ==> RoomOk(env, log, i)
    ensures
      var total := Backlog(log[..k]) + Offers(log[k..n]);
      Backlog(log[..n]) == if total < env.config.sendQueue then total else env.config.sendQueue
  {
    if k < n {
      BacklogFills(env, log, k, n - 1);
      OffersMore(log, k, n - 1);
      assert log[..n] == log[..n - 1] + [log[n - 1]];
      Logged(log[..n - 1], log[n - 1]);
      assert RoomOk(env, log, n - 1);
    }
  }

  lemma {:induction false} OpenIsNeverClosed(env: Env, run: seq<Label>, id: ConnId, i: nat)
    requires Legal(env, run) && id in After(env, run).clients && i < |After(env, run).clients[id].log|
    requires id in After(env, run).conns && After(env, run).conns[id].open
    ensures var e := After(env, run).clients[id].log[i]; e.Offer? ==> !e.outcome.Closed?
  {
    if run != [] {
      var before, l := run[..|run| - 1], run[|run| - 1];
      var w := After(env, before);
      if Subject(l) != Some(id) {
        Untouched(env, w, l, id);
        OpenIsNeverClosed(env, before, id, i);
      } else if !l.Insert? {
        Histories(env, w, l, id);
        WasOpen(env, w, l, id);
        if i < |w.clients[id].log| {
          OpenIsNeverClosed(env, before, id, i);
        }
      }
    }
  }

  lemma WasOpen(env: Env, w: World, l: Label, id: ConnId)
    requires Enabled(env, w, l) && Subject(l) == Some(id) && !l.Insert?
    requires id in Step(env, w, l).conns && Step(env, w, l).conns[id].open
    ensures id in w.conns && w.conns[id].open && |News(env, w, l, id)| <= 1
    ensures forall i :: 0 <= i < |News(env, w, l, id)| && News(env, w, l, id)[i].Offer? ==>
                          !News(env, w, l, id)[i].outcome.Closed?
  {
  }

  // ---- Data among the offers ------------------------------------------------------------------

  predicate IsDelta(frame: Frame, ch: Channel) {
    frame.Data? && frame.channel == ch
  }

  ghost predicate NoDeltaOffered(log: seq<Event>, ch: Channel) {
    forall i :: 0 <= i < |log| && log[i].Offer? ==> !IsDelta(log[i].frame, ch)
  }

  ghost predicate NoDeltaEntered(log: seq<Event>, ch: Channel) {
    forall i :: 0 <= i < |log| && log[i].Offer? && IsDelta(log[i].frame, ch) ==> !log[i].outcome.Sent?
  }

  function DataOf(frames: seq<Frame>): seq<Frame> {
    if frames == [] then []
    else DataOf(frames[..|frames| - 1]) + if frames[|frames| - 1].Data? then [frames[|frames| - 1]] else []
  }

  lemma {:induction false} DataOfAppend(a: seq<Frame>, b: seq<Frame>)
    ensures DataOf(a + b) == DataOf(a) + DataOf(b)
  {
    if b == [] {
      assert a + b == a;
    } else {
      DataOfAppend(a, b[..|b| - 1]);
      assert (a + b)[..|a + b| - 1] == a + b[..|b| - 1];
    }
  }

  /** Data comes from publishers of its channel. */
  ghost predicate Sourced(log: seq<Event>) {
    forall i :: 0 <= i < |log| && log[i].Offer? && log[i].frame.Data? ==>
                  log[i].sender.Publisher? && log[i].scope == One(log[i].frame.channel)
  }

  lemma {:induction false} NothingOffered(log: seq<Event>, p: nat, ch: Channel)
    requires Sourced(log) && NoDeltaOffered(log, ch)
    ensures DataOf(Heard(log, p, {One(ch)})) == []
  {
    if log != [] {
      var n := |log| - 1;
      assert Sourced(log[..n]) && NoDeltaOffered(log[..n], ch);
      NothingOffered(log[..n], p, ch);
      var e := log[n];
      if e.Offer? && e.sender == Publisher(p) && e.scope == One(ch) {
        assert !e.frame.Data?;
        DataOfAppend(Heard(log[..n], p, {One(ch)}), [e.frame]);
        assert [e.frame][..0] == [];
      } else {
        assert Heard(log, p, {One(ch)}) == Heard(log[..n], p, {One(ch)});
      }
    }
  }

  lemma HeardAround(log: seq<Event>, i: nat, p: nat, scopes: set<Scope>)
    requires i < |log| && log[i].Offer? && log[i].sender == Publisher(p) && log[i].scope in scopes
    ensures Heard(log, p, scopes) == Heard(log[..i], p, scopes) + [log[i].frame] + Heard(log[i + 1..], p, scopes)
  {
    assert log == log[..i + 1] + log[i + 1..];
    HeardAppend(log[..i + 1], log[i + 1..], p, scopes);
    assert log[..i + 1][..i] == log[..i];
  }

  lemma DataAround(before: seq<Frame>, frame: Frame, after: seq<Frame>)
    requires frame.Data?
    ensures DataOf(before + [frame] + after) != []
  {
    DataOfAppend(before + [frame], after);
    DataOfMore(before, frame);
  }

  lemma SomethingOffered(log: seq<Event>, i: nat, ch: Channel)
    requires Sourced(log) && i < |log| && log[i].Offer? && IsDelta(log[i].frame, ch)
    ensures log[i].sender.Publisher? && DataOf(Heard(log, log[i].sender.n, {One(ch)})) != []
  {
    var p, scopes := log[i].sender.n, {One(ch)};
    HeardAround(log, i, p, scopes);
    DataAround(Heard(log[..i], p, scopes), log[i].frame, Heard(log[i + 1..], p, scopes));
  }

  lemma DataOfMore(frames: seq<Frame>, frame: Frame)
    requires frame.Data?
    ensures DataOf(frames + [frame]) == DataOf(frames) + [frame]
  {
    assert (frames + [frame])[..|frames|] == frames;
  }

  // ---- The snapshot and the first delta -----------------------------------------------------------

  /** The session of `id` is about to put the snapshot of `ch` into its queue. */
  ghost predicate SnapshotUp(env: Env, w: World, id: ConnId, ch: Channel) {
    && Enabled(env, w, TrySend(Session(id), id))
    && w.readers[Session(id)].frame.Snapshot? && w.readers[Session(id)].frame.channel == ch
  }

  /** The request under way newly added `ch`; `joins` says where. */
  ghost predicate JustJoined(w: World, id: ConnId, ch: Channel) {
    && id in w.conns && id in w.clients && ch in w.clients[id].joins
    && var cl := w.clients[id];
    var j := cl.joins[ch];
    && j.tapePos <= |w.tape| && JoinedAt(cl.log, j.logPos, ch) && SameTurn(cl.log, j.logPos, |cl.log|)
  }

  /** The snapshot enters the queue, and no Data of the channel entered it since the subscription. */
  ghost predicate ComesFirst(w: World, id: ConnId, ch: Channel)
    requires JustJoined(w, id, ch) && Session(id) in w.readers
  {
    var cl := w.clients[id];
    && Put(w.conns[id], w.readers[Session(id)].frame).1.Sent?
    && NoDeltaEntered(cl.log[cl.joins[ch].logPos..], ch)
  }

  /** What waited when the request was made, and everything offered since, leaves room. */
  ghost predicate HasRoom(env: Env, w: World, id: ConnId, ch: Channel)
    requires JustJoined(w, id, ch)
  {
    var cl := w.clients[id];
    Backlog(cl.log[..cl.joins[ch].logPos]) + Offers(cl.log[cl.joins[ch].logPos..]) < env.config.sendQueue
  }

  /** All Data on the channel that `p` has published since the request has yet to reach the client. */
  ghost predicate Behind(w: World, id: ConnId, ch: Channel, p: nat)
    requires JustJoined(w, id, ch)
  {
    DataOf(Aired(w.tape[w.clients[id].joins[ch].tapePos..], p, {One(ch)})) == DataOf(Owed(w, id, p, {One(ch)}))
  }

  lemma JoinedHere(env: Env, run: seq<Label>, id: ConnId, ch: Channel)
    requires Legal(env, run) && SnapshotUp(env, After(env, run), id, ch)
    ensures
      var w := After(env, run);
      JustJoined(w, id, ch) && Holds(w.conns, id, ch) && w.conns[id].open
      && w.clients[id].log[w.clients[id].joins[ch].logPos].added == Added(w.clients[id].log)
      && Untaken(w.clients[id].log, w.clients[id].joins[ch].logPos, |w.clients[id].log|)
  {
    var w := After(env, run);
    var log := w.clients[id].log;
    Always(env, run);
    ScriptAlways(env, run, id);
    FenceAlways(env, run, id);
    JoinsAlways(env, run, id);
    assert ReaderOk(w, Session(id)) && ClientOk(w, id);
    assert Speaking(w, id) == [w.readers[Session(id)].frame];
    assert w.readers[Session(id)].frame in Due(log) by {
      assert w.readers[Session(id)].frame in Frames(Said(log)) + Speaking(w, id) + Next(w.clients[id].jobs);
    }
    WholeLogTells(env, run, id);
    SeenIsAdded(log, id, w.readers[Session(id)].frame);
    OpeningOfAdded(log, ch);
    OpeningUnmoved(log);
    ExactWhileSubscribed(env, run, id, ch, 0, {});
    forall j | 0 <= j < |log| && log[j].Offer? ensures !log[j].outcome.Closed? {
      OpenIsNeverClosed(env, run, id, j);
    }
  }

  /** A snapshot that is due belongs to a channel the turn added. */
  lemma SeenIsAdded(log: seq<Event>, id: ConnId, frame: Frame)
    requires AllTelling(log, id) && frame.Snapshot? && frame in Due(log)
    ensures frame.channel in Added(log)
  {
    TellingIsPlain(log, id, |log|);
    assert log[..|log|] == log;
    var n := DueWasFound(log, frame);
    assert Telling(log[..n], log[n], id);
    AddedLater(log, n + 1);
    assert log[..n + 1][..n] == log[..n];
  }

  lemma {:induction false} AddedLater(log: seq<Event>, n: nat)
    requires n <= |log| && forall j :: n <= j < |log| ==> !Opens(log[j])
    ensures Added(log) == Added(log[..n])
  {
    if n < |log| {
      AddedLater(log[..|log| - 1], n);
      assert log[..|log| - 1][..n] == log[..n];
    } else {
      assert log[..n] == log;
    }
  }

  /** Whether the snapshot enters depends on the room alone; and then all offers of the turn entered. */
  lemma EntersIffRoom(env: Env, run: seq<Label>, id: ConnId, ch: Channel)
    requires Legal(env, run) && SnapshotUp(env, After(env, run), id, ch)
    requires
      var w := After(env, run);
      && JustJoined(w, id, ch) && w.conns[id].open
      && Untaken(w.clients[id].log, w.clients[id].joins[ch].logPos, |w.clients[id].log|)
    ensures
      var w := After(env, run);
      var log, k := w.clients[id].log, w.clients[id].joins[ch].logPos;
      && (Put(w.conns[id], w.readers[Session(id)].frame).1.Sent? <==> HasRoom(env, w, id, ch))
      && (HasRoom(env, w, id, ch) ==> forall i :: k <= i < |log| && log[i].Offer? ==> log[i].outcome.Sent?)
  {
    var w := After(env, run);
    var log, k := w.clients[id].log, w.clients[id].joins[ch].logPos;
    BacklogIsQueue(env, run, id);
    forall i | 0 <= i < |log| ensures RoomOk(env, log, i) {
      OffersFollowTheQueue(env, run, id, i);
    }
    BacklogAt(env, run, id, k);
    RoomInTurn(env, log, k);
  }

  lemma BacklogIsQueue(env: Env, run: seq<Label>, id: ConnId)
    requires Legal(env, run) && id in After(env, run).clients && id in After(env, run).conns && After(env, run).conns[id].open
    ensures
      var w := After(env, run);
      && Backlog(w.clients[id].log) == |w.conns[id].queue| <= env.config.sendQueue
      && w.conns[id].capacity == env.config.sendQueue
  {
    QueueIsFifo(env, run, id);
    Always(env, run);
    assert ConnOk(env, After(env, run), id);
  }

  /** At every moment in the past, too, no more than `send_queue` frames waited. */
  lemma {:induction false} BacklogAt(env: Env, run: seq<Label>, id: ConnId, k: nat)
    requires Legal(env, run) && id in After(env, run).clients && k <= |After(env, run).clients[id].log|
    ensures Backlog(After(env, run).clients[id].log[..k]) <= env.config.sendQueue
  {
    var log := After(env, run).clients[id].log;
    if k > 0 {
      BacklogAt(env, run, id, k - 1);
      OffersFollowTheQueue(env, run, id, k - 1);
      assert log[..k] == log[..k - 1] + [log[k - 1]];
      Logged(log[..k - 1], log[k - 1]);
    }
  }

  lemma RoomInTurn(env: Env, log: seq<Event>, k: nat)
    requires Untaken(log, k, |log|) && Backlog(log[..k]) <= env.config.sendQueue
    requires forall i :: 0 <= i < |log| ==> RoomOk(env, log, i)
    ensures Backlog(log) < env.config.sendQueue <==> Backlog(log[..k]) + Offers(log[k..]) < env.config.sendQueue
    ensures Backlog(log) < env.config.sendQueue ==> forall i :: k <= i < |log| && log[i].Offer? ==> log[i].outcome.Sent?
  {
    assert log[..|log|] == log && log[k..|log|] == log[k..];
    BacklogFills(env, log, k, |log|);
    forall i | k <= i < |log| && log[i].Offer? && Backlog(log) < env.config.sendQueue ensures log[i].outcome.Sent? {
      BacklogFills(env, log, k, i);
      OffersGrow(log, k, i, |log|);
      assert RoomOk(env, log, i);
    }
  }

  lemma TellingIsSourced(log: seq<Event>, id: ConnId, from: nat)
    requires from <= |log| && AllTelling(log, id)
    ensures Sourced(log[from..])
  {
    forall k | 0 <= k < |log[from..]|
      ensures log[from..][k] == log[from + k] && Telling(log[..from + k], log[from + k], id)
    {
    }
  }

  lemma LogIsSourced(env: Env, run: seq<Label>, id: ConnId, from: nat)
    requires Legal(env, run) && id in After(env, run).clients && from <= |After(env, run).clients[id].log|
    ensures Sourced(After(env, run).clients[id].log[from..])
  {
    WholeLogTells(env, run, id);
    TellingIsSourced(After(env, run).clients[id].log, id, from);
  }

  /** Nothing of the channel was offered since the request exactly when every publisher is behind. */
  lemma OfferedIffPassed(env: Env, run: seq<Label>, id: ConnId, ch: Channel)
    requires Legal(env, run) && JustJoined(After(env, run), id, ch) && Holds(After(env, run).conns, id, ch)
    ensures
      var w := After(env, run);
      NoDeltaOffered(w.clients[id].log[w.clients[id].joins[ch].logPos..], ch) <==> forall p: nat :: Behind(w, id, ch, p)
  {
    var w := After(env, run);
    var log := w.clients[id].log;
    var turn := log[w.clients[id].joins[ch].logPos..];
    LogIsSourced(env, run, id, w.clients[id].joins[ch].logPos);
    forall p: nat ensures Behind(w, id, ch, p) <==> DataOf(Heard(turn, p, {One(ch)})) == [] {
      ExactWhileSubscribed(env, run, id, ch, p, {One(ch)});
      DataOfAppend(Heard(turn, p, {One(ch)}), Owed(w, id, p, {One(ch)}));
    }
    if NoDeltaOffered(turn, ch) {
      forall p: nat ensures Behind(w, id, ch, p) {
        NothingOffered(turn, p, ch);
      }
    } else {
      var i :| 0 <= i < |turn| && turn[i].Offer? && IsDelta(turn[i].frame, ch);
      SomethingOffered(turn, i, ch);
      assert !Behind(w, id, ch, turn[i].sender.n);
    }
  }

  /** The exact condition for "current state before its first delta", at every snapshot in every run:
      the snapshot enters the client's queue with no Data of its channel ahead of it since the
      subscription began if and only if (a) what waited in the queue when the request was handled, and
      everything offered to the client since, leaves room, and (b) whoever published Data on the channel
      since then has yet to come to this client. */
  lemma SnapshotFirstIff(env: Env, run: seq<Label>, id: ConnId, ch: Channel)
    requires Legal(env, run) && SnapshotUp(env, After(env, run), id, ch)
    ensures
      var w := After(env, run);
      && JustJoined(w, id, ch)
      && (ComesFirst(w, id, ch) <==> HasRoom(env, w, id, ch) && forall p: nat :: Behind(w, id, ch, p))
  {
    var w := After(env, run);
    JoinedHere(env, run, id, ch);
    EntersIffRoom(env, run, id, ch);
    OfferedIffPassed(env, run, id, ch);
    var log, k := w.clients[id].log, w.clients[id].joins[ch].logPos;
    if HasRoom(env, w, id, ch) {
      EnteredIsOffered(log, k, ch);
    }
  }

  lemma EnteredIsOffered(log: seq<Event>, k: nat, ch: Channel)
    requires k <= |log| && forall i :: k <= i < |log| && log[i].Offer? ==> log[i].outcome.Sent?
    ensures NoDeltaEntered(log[k..], ch) <==> NoDeltaOffered(log[k..], ch)
  {
    forall i | 0 <= i < |log[k..]| && log[k..][i].Offer? ensures log[k..][i].outcome.Sent? {
      assert log[k..][i] == log[k + i];
    }
  }

  // ---- A form that can be checked beforehand ---------------------------------------------------

  /** Since the request only the session itself offered the client anything, and nobody published on
      the channel. */
  ghost predicate Undisturbed(w: World, id: ConnId, ch: Channel)
    requires JustJoined(w, id, ch)
  {
    var cl := w.clients[id];
    && (forall i :: cl.joins[ch].logPos <= i < |cl.log| && cl.log[i].Offer? ==> cl.log[i].scope.Self?)
    && (forall p: nat :: Aired(w.tape[cl.joins[ch].tapePos..], p, {One(ch)}) == [])
  }

  lemma {:induction false} OffersAreSaid(log: seq<Event>, k: nat)
    requires SameTurn(log, k, |log|) && Opens(log[k])
    requires forall i :: k <= i < |log| && log[i].Offer? ==> log[i].scope.Self?
    ensures Offers(log[k..]) == |Said(log)|
  {
    var n := |log| - 1;
    assert log[k..][..n - k] == log[..n][k..];
    if k < n {
      OffersAreSaid(log[..n], k);
    }
  }

  lemma {:induction false} DueIsShort(log: seq<Event>)
    ensures |Due(log)| <= 1 + |Seen(log)|
  {
    if log != [] {
      DueIsShort(log[..|log| - 1]);
    }
  }

  /** With room for the acknowledgement and one snapshot per added channel when the request is handled,
      and no publisher at work meanwhile, every snapshot of the request comes first. */
  lemma SnapshotFirstIfUndisturbed(env: Env, run: seq<Label>, id: ConnId, ch: Channel)
    requires Legal(env, run) && SnapshotUp(env, After(env, run), id, ch)
    requires
      var w := After(env, run);
      && JustJoined(w, id, ch) && Undisturbed(w, id, ch)
      && var log, k := w.clients[id].log, w.clients[id].joins[ch].logPos;
      Backlog(log[..k]) + 1 + |log[k].added| <= env.config.sendQueue
    ensures ComesFirst(After(env, run), id, ch)
  {
    var w := After(env, run);
    var log, k := w.clients[id].log, w.clients[id].joins[ch].logPos;
    JoinedHere(env, run, id, ch);
    OffersAreSaid(log, k);
    DueIsShort(log);
    ScriptAlways(env, run, id);
    assert Speaking(w, id) == [w.readers[Session(id)].frame];
    assert |Said(log)| + 1 <= |Due(log)| && |Seen(log)| <= |Added(log)|;
    forall p: nat ensures Behind(w, id, ch, p) {
      ExactWhileSubscribed(env, run, id, ch, p, {One(ch)});
    }
    SnapshotFirstIff(env, run, id, ch);
  }
}
