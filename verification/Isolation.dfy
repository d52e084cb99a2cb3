/** A slow client pays, never the others: erase every other connection and every step of theirs
    from a run, and what is left is a run in which this connection fares exactly as before. */
module Isolation {
  import opened Protocol
  import opened Delivery
  import opened Subscriptions
  import opened Machine
  import opened Invariant

  function Just<T>(m: map<ConnId, T>, c: ConnId): map<ConnId, T> {
    map id | id in m && id == c :: m[id]
  }

  function JustIndex(index: Index, c: ConnId): Index {
    map ch | ch in index && c in index[ch] :: {c}
  }

  function JustReader(r: Reader, c: ConnId): Reader {
    r.(todo := r.todo * {c},
       flight := if r.flight.Some? && r.flight.value.id == c then r.flight else None)
  }

  function JustReaders(readers: map<Thread, Reader>, c: ConnId): map<Thread, Reader> {
    map th | th in readers && (th.Session? ==> th.id == c) :: JustReader(readers[th], c)
  }

  /** `e` is `w` as it looks to connection `c` alone. The frame metrics are totals over all
      connections and the ids others have drawn are theirs, so neither is compared. */
  ghost predicate SeenBy(w: World, e: World, c: ConnId) {
    && e.conns == Just(w.conns, c)
    && e.clients == Just(w.clients, c)
    && e.index == JustIndex(w.index, c)
    && e.readers == JustReaders(w.readers, c)
    && e.nextId == w.nextId && (c in e.drawn <==> c in w.drawn)
    && e.last == w.last && e.gateway == w.gateway && e.tape == w.tape && e.recorded == w.recorded
  }

  /** The steps that belong to `c` or to no connection. */
  predicate Kept(l: Label, c: ConnId) {
    match Subject(l)
    case Some(id) => id == c
    case None => !(l.EndRead? && l.th.Session? && l.th.id != c)
  }

  function Erase(run: seq<Label>, c: ConnId): seq<Label> {
    if run == [] then []
    else
      Erase(run[..|run| - 1], c) + if Kept(run[|run| - 1], c) then [run[|run| - 1]] else []
  }

  lemma JustIs<T>(m: map<ConnId, T>, m': map<ConnId, T>, c: ConnId)
    requires m'.Keys <= {c}
    requires c in m <==> c in m'
    requires c in m ==> m[c] == m'[c]
    ensures m' == Just(m, c)
  {
  }

  /** The view's index is the index of the view's connections. */
  lemma JustCoupled(conns: map<ConnId, Connection>, index: Index, e: World, c: ConnId)
    requires Coupled(conns, index) && Coupled(e.conns, e.index) && e.conns == Just(conns, c)
    ensures e.index == JustIndex(index, c)
  {
    forall ch, id ensures Listed(JustIndex(index, c), id, ch) <==> Holds(e.conns, id, ch) {
      assert Listed(index, c, ch) <==> Holds(conns, c, ch);
    }
    CoupledIsUnique(e.conns, e.index, JustIndex(index, c));
  }

  /** How the view of the readers changes when one entry does. */
  lemma JustReadersPut(readers: map<Thread, Reader>, c: ConnId, th: Thread, r: Reader)
    requires th.Session? ==> th.id == c
    ensures JustReaders(readers[th := r], c) == JustReaders(readers, c)[th := JustReader(r, c)]
  {
  }

  lemma JustReadersSkip(readers: map<Thread, Reader>, c: ConnId, th: Thread, r: Reader)
    requires th.Session? && th.id != c
    ensures JustReaders(readers[th := r], c) == JustReaders(readers, c)
  {
  }

  lemma JustReadersSame(readers: map<Thread, Reader>, c: ConnId, th: Thread, r: Reader)
    requires th in readers && JustReader(r, c) == JustReader(readers[th], c)
    ensures JustReaders(readers[th := r], c) == JustReaders(readers, c)
  {
  }

  lemma JustReadersDrop(readers: map<Thread, Reader>, c: ConnId, th: Thread)
    ensures JustReaders(readers - {th}, c) == JustReaders(readers, c) - {th}
    ensures th.Session? && th.id != c ==> JustReaders(readers - {th}, c) == JustReaders(readers, c)
  {
  }

  // ---- Steps of others leave the view alone ---------------------------------------------

  lemma DeliveryToOthers(env: Env, w: World, l: Label, c: ConnId)
    requires Enabled(env, w, l) && (l.TrySend? || l.Count? || l.Mark?) && l.id != c
    ensures
      var r := Step(env, w, l).readers[l.th];
      JustReader(r, c) == JustReader(w.readers[l.th], c) && Step(env, w, l).readers == w.readers[l.th := r]
  {
  }

  lemma ReadersOfOthers(env: Env, w: World, l: Label, c: ConnId)
    requires Enabled(env, w, l) && !Kept(l, c)
    ensures JustReaders(Step(env, w, l).readers, c) == JustReaders(w.readers, c)
  {
    if l.TrySend? || l.Count? || l.Mark? {
      DeliveryToOthers(env, w, l, c);
      JustReadersSame(w.readers, c, l.th, Step(env, w, l).readers[l.th]);
    } else if l.StartSend? {
      JustReadersSkip(w.readers, c, Session(l.id), DoStartSend(w, l.id).readers[Session(l.id)]);
    } else if l.EndRead? {
      JustReadersDrop(w.readers, c, l.th);
    } else {
      ReadersUntouched(env, w, l);
    }
  }

  lemma OthersKeepConns(env: Env, w: World, e: World, l: Label, c: ConnId)
    requires Inv(env, w) && Inv(env, e) && Enabled(env, w, l) && Subject(l) != Some(c) && SeenBy(w, e, c)
    ensures
      var w' := Step(env, w, l);
      e.conns == Just(w'.conns, c) && e.clients == Just(w'.clients, c) && e.index == JustIndex(w'.index, c)
  {
    var w' := Step(env, w, l);
    Untouched(env, w, l, c);
    JustIs(w'.conns, e.conns, c);
    JustIs(w'.clients, e.clients, c);
    StaysCoupled(env, w, l);
    JustCoupled(w'.conns, w'.index, e, c);
  }

  lemma OthersUnseen(env: Env, w: World, e: World, l: Label, c: ConnId)
    requires Inv(env, w) && Inv(env, e) && Enabled(env, w, l) && !Kept(l, c) && SeenBy(w, e, c)
    ensures SeenBy(Step(env, w, l), e, c)
  {
    OthersKeepConns(env, w, e, l, c);
    ReadersOfOthers(env, w, l, c);
    OthersKeepFeed(env, w, l, c);
  }

  lemma OthersKeepFeed(env: Env, w: World, l: Label, c: ConnId)
    requires Enabled(env, w, l) && !Kept(l, c)
    ensures
      var w' := Step(env, w, l);
      && w'.last == w.last && w'.gateway == w.gateway && w'.tape == w.tape && w'.recorded == w.recorded
      && w'.nextId == w.nextId && (c in w'.drawn <==> c in w.drawn)
  {
    FeedUntouched(env, w, l);
    if !l.Insert? {
      IdsUntouched(env, w, l);
    }
  }

  // ---- Steps that stay happen alike --------------------------------------------------------

  lemma StaysEnabledReading(env: Env, w: World, e: World, l: Label, c: ConnId)
    requires Enabled(env, w, l) && Kept(l, c) && SeenBy(w, e, c)
    requires l.TrySend? || l.Count? || l.Mark? || l.EndRead?
    requires ReaderOk(w, l.th)
    ensures Enabled(env, e, l)
  {
  }

  lemma StaysEnabledOther(env: Env, w: World, e: World, l: Label, c: ConnId)
    requires Enabled(env, w, l) && Kept(l, c) && SeenBy(w, e, c)
    requires !(l.TrySend? || l.Count? || l.Mark? || l.EndRead?)
    ensures Enabled(env, e, l)
  {
  }

  lemma StaysEnabled(env: Env, w: World, e: World, l: Label, c: ConnId)
    requires Inv(env, w) && Enabled(env, w, l) && Kept(l, c) && SeenBy(w, e, c)
    ensures Enabled(env, e, l)
  {
    if l.TrySend? || l.Count? || l.Mark? || l.EndRead? {
      StaysEnabledReading(env, w, e, l, c);
    } else {
      StaysEnabledOther(env, w, e, l, c);
    }
  }

  /** What a step of `c` reads: its own entries, the snapshot store, the histories' lengths and
      the frame it is being sent. */
  ghost predicate AlikeFor(w: World, e: World, l: Label, c: ConnId) {
    && SameAt(w, e, c) && e.last == w.last && e.tape == w.tape && e.recorded == w.recorded
    && ((l.TrySend? || l.Count? || l.Mark?) && l.th in w.readers && l.th in e.readers ==>
          && w.readers[l.th].frame == e.readers[l.th].frame && w.readers[l.th].scope == e.readers[l.th].scope
          && w.readers[l.th].flight == e.readers[l.th].flight)
  }

  lemma OwnWrite(env: Env, w: World, e: World, l: Label, c: ConnId)
    requires Enabled(env, w, l) && Enabled(env, e, l) && Subject(l) == Some(c) && AlikeFor(w, e, l, c)
    requires l.Insert? || l.Subscribe? || l.Unsubscribe? || l.Remove? || l.Shut? || l.Take?
    ensures SameAt(Step(env, w, l), Step(env, e, l), c)
  {
  }

  lemma OwnSession(env: Env, w: World, e: World, l: Label, c: ConnId)
    requires Enabled(env, w, l) && Enabled(env, e, l) && Subject(l) == Some(c) && AlikeFor(w, e, l, c)
    requires l.Request? || l.Beat? || l.Lookup? || l.StartSend? || l.Check?
    ensures SameAt(Step(env, w, l), Step(env, e, l), c)
  {
  }

  lemma OwnDelivery(env: Env, w: World, e: World, l: Label, c: ConnId)
    requires Enabled(env, w, l) && Enabled(env, e, l) && Subject(l) == Some(c) && AlikeFor(w, e, l, c)
    requires l.TrySend? || l.Count? || l.Mark?
    ensures SameAt(Step(env, w, l), Step(env, e, l), c)
  {
  }

  lemma OwnStep(env: Env, w: World, e: World, l: Label, c: ConnId)
    requires Enabled(env, w, l) && Enabled(env, e, l) && Subject(l) == Some(c) && AlikeFor(w, e, l, c)
    ensures SameAt(Step(env, w, l), Step(env, e, l), c)
  {
    if l.TrySend? || l.Count? || l.Mark? {
      OwnDelivery(env, w, e, l, c);
    } else if l.Request? || l.Beat? || l.Lookup? || l.StartSend? || l.Check? {
      OwnSession(env, w, e, l, c);
    } else {
      OwnWrite(env, w, e, l, c);
    }
  }

  lemma StaysAlone(env: Env, e: World, l: Label, c: ConnId)
    requires Enabled(env, e, l) && Kept(l, c) && e.conns.Keys <= {c} && e.clients.Keys <= {c}
    ensures Step(env, e, l).conns.Keys <= {c} && Step(env, e, l).clients.Keys <= {c}
  {
  }

  lemma SameEntries(env: Env, w: World, e: World, l: Label, c: ConnId)
    requires Enabled(env, w, l) && Kept(l, c) && SeenBy(w, e, c) && Enabled(env, e, l)
    ensures Step(env, e, l).conns == Just(Step(env, w, l).conns, c)
    ensures Step(env, e, l).clients == Just(Step(env, w, l).clients, c)
  {
    SeenAlike(env, w, e, l, c);
    if Subject(l) == Some(c) {
      OwnStep(env, w, e, l, c);
    } else {
      UntouchedByNobody(env, w, l);
      UntouchedByNobody(env, e, l);
    }
    StaysAlone(env, e, l, c);
    EntriesJust(Step(env, w, l), Step(env, e, l), c);
  }

  lemma EntriesJust(w: World, e: World, c: ConnId)
    requires SameAt(w, e, c) && e.conns.Keys <= {c} && e.clients.Keys <= {c}
    ensures e.conns == Just(w.conns, c) && e.clients == Just(w.clients, c)
  {
    JustIs(w.conns, e.conns, c);
    JustIs(w.clients, e.clients, c);
  }

  lemma SeenSame(w: World, e: World, c: ConnId)
    requires SeenBy(w, e, c)
    ensures SameAt(w, e, c) && e.last == w.last && e.tape == w.tape && e.recorded == w.recorded
    ensures e.conns.Keys <= {c} && e.clients.Keys <= {c}
  {
  }

  lemma SeenAlike(env: Env, w: World, e: World, l: Label, c: ConnId)
    requires Enabled(env, w, l) && Enabled(env, e, l) && Kept(l, c) && SeenBy(w, e, c)
    ensures AlikeFor(w, e, l, c) && e.conns.Keys <= {c} && e.clients.Keys <= {c}
  {
    SeenSame(w, e, c);
    if l.TrySend? || l.Count? || l.Mark? {
      SeenDelivery(env, w, e, l, c);
    }
  }

  lemma SeenDelivery(env: Env, w: World, e: World, l: Label, c: ConnId)
    requires Enabled(env, w, l) && Enabled(env, e, l) && Kept(l, c) && e.readers == JustReaders(w.readers, c)
    requires l.TrySend? || l.Count? || l.Mark?
    ensures
      && w.readers[l.th].frame == e.readers[l.th].frame && w.readers[l.th].scope == e.readers[l.th].scope
      && w.readers[l.th].flight == e.readers[l.th].flight && e.readers[l.th] == JustReader(w.readers[l.th], c)
      && (l.th.Session? ==> l.th.id == c)
  {
  }

  lemma HoldersJust(index: Index, c: ConnId, ch: Channel)
    ensures Holders(JustIndex(index, c), ch) == Holders(index, ch) * {c}
  {
    if ch in index && c in index[ch] {
      assert index[ch] * {c} == {c};
    } else {
      assert Holders(index, ch) * {c} == {};
    }
  }

  lemma SameReadersPublish(w: World, e: World, p: nat, ch: Channel, frame: Frame, c: ConnId)
    requires SeenBy(w, e, c)
    ensures DoPublish(e, p, ch, frame).readers == JustReaders(DoPublish(w, p, ch, frame).readers, c)
  {
    HoldersJust(w.index, c, ch);
    JustReadersPut(w.readers, c, Publisher(p), Reader(One(ch), frame, Holders(w.index, ch), None));
  }

  lemma SameReadersBroadcast(w: World, e: World, p: nat, c: ConnId)
    requires SeenBy(w, e, c)
    ensures DoBroadcast(e, p).readers == JustReaders(DoBroadcast(w, p).readers, c)
  {
    assert e.conns.Keys == w.conns.Keys * {c};
    JustReadersPut(w.readers, c, Publisher(p), Reader(All, Resync([]), w.conns.Keys, None));
  }

  lemma SameReaderTry(w: World, e: World, th: Thread, c: ConnId)
    requires th in w.readers && th in e.readers && e.readers[th] == JustReader(w.readers[th], c) && w.readers[th].flight.None?
    requires c in w.conns && c in e.conns && w.conns[c] == e.conns[c] && c in w.clients && c in e.clients
    ensures DoTrySend(e, th, c).readers[th] == JustReader(DoTrySend(w, th, c).readers[th], c)
  {
    assert w.readers[th].todo * {c} - {c} == (w.readers[th].todo - {c}) * {c};
  }

  lemma SameReadersTry(env: Env, w: World, e: World, th: Thread, c: ConnId)
    requires Enabled(env, w, TrySend(th, c)) && Enabled(env, e, TrySend(th, c)) && SeenBy(w, e, c)
    ensures DoTrySend(e, th, c).readers == JustReaders(DoTrySend(w, th, c).readers, c)
  {
    SeenDelivery(env, w, e, TrySend(th, c), c);
    SameReaderTry(w, e, th, c);
    JustReadersPut(w.readers, c, th, DoTrySend(w, th, c).readers[th]);
  }

  lemma SameReadersCount(env: Env, w: World, e: World, l: Label, c: ConnId)
    requires (l.Count? || l.Mark?) && Enabled(env, w, l) && Enabled(env, e, l) && Kept(l, c) && SeenBy(w, e, c)
    ensures Step(env, e, l).readers == JustReaders(Step(env, w, l).readers, c)
  {
    SeenDelivery(env, w, e, l, c);
    JustReadersPut(w.readers, c, l.th, Step(env, w, l).readers[l.th]);
  }

  lemma SameReadersSend(env: Env, w: World, e: World, c: ConnId)
    requires Enabled(env, w, StartSend(c)) && Enabled(env, e, StartSend(c)) && SeenBy(w, e, c)
    ensures DoStartSend(e, c).readers == JustReaders(DoStartSend(w, c).readers, c)
  {
    assert {c} * {c} == {c};
    JustReadersPut(w.readers, c, Session(c), DoStartSend(w, c).readers[Session(c)]);
  }

  lemma SameReadersStart(env: Env, w: World, e: World, l: Label, c: ConnId)
    requires Enabled(env, w, l) && Enabled(env, e, l) && Kept(l, c) && SeenBy(w, e, c)
    requires l.StartPublish? || l.StartBroadcast? || l.StartSend?
    ensures Step(env, e, l).readers == JustReaders(Step(env, w, l).readers, c)
  {
    match l
    case StartPublish(p, ch, frame) => SameReadersPublish(w, e, p, ch, frame, c);
    case StartBroadcast(p) => SameReadersBroadcast(w, e, p, c);
    case StartSend(_) => SameReadersSend(env, w, e, c);
  }

  lemma SameReadersEnd(env: Env, w: World, e: World, l: Label, c: ConnId)
    requires Enabled(env, w, l) && Enabled(env, e, l) && Kept(l, c) && SeenBy(w, e, c) && l.EndRead?
    ensures Step(env, e, l).readers == JustReaders(Step(env, w, l).readers, c)
  {
    JustReadersDrop(w.readers, c, l.th);
  }

  lemma SameReaders(env: Env, w: World, e: World, l: Label, c: ConnId)
    requires Enabled(env, w, l) && Enabled(env, e, l) && Kept(l, c) && SeenBy(w, e, c)
    ensures Step(env, e, l).readers == JustReaders(Step(env, w, l).readers, c)
  {
    if l.StartPublish? || l.StartBroadcast? || l.StartSend? {
      SameReadersStart(env, w, e, l, c);
    } else if l.TrySend? {
      SameReadersTry(env, w, e, l.th, c);
    } else if l.Count? || l.Mark? {
      SameReadersCount(env, w, e, l, c);
    } else if l.EndRead? {
      SameReadersEnd(env, w, e, l, c);
    } else {
      ReadersUntouched(env, w, l);
      ReadersUntouched(env, e, l);
    }
  }

  lemma StaysCoupled(env: Env, w: World, l: Label)
    requires Inv(env, w) && Enabled(env, w, l)
    ensures Coupled(Step(env, w, l).conns, Step(env, w, l).index)
  {
    InvStep(env, w, l);
  }

  lemma SameFeed(env: Env, w: World, e: World, l: Label, c: ConnId)
    requires Enabled(env, w, l) && Enabled(env, e, l)
    requires e.last == w.last && e.gateway == w.gateway && e.tape == w.tape && e.recorded == w.recorded
    requires e.nextId == w.nextId && (c in e.drawn <==> c in w.drawn)
    ensures
      var w', e' := Step(env, w, l), Step(env, e, l);
      && e'.last == w'.last && e'.gateway == w'.gateway && e'.tape == w'.tape && e'.recorded == w'.recorded
      && e'.nextId == w'.nextId && (c in e'.drawn <==> c in w'.drawn)
  {
    if Feeds(l) {
      IdsUntouched(env, w, l);
      IdsUntouched(env, e, l);
    } else {
      FeedUntouched(env, w, l);
      FeedUntouched(env, e, l);
      if !l.Draw? && !l.Insert? {
        IdsUntouched(env, w, l);
        IdsUntouched(env, e, l);
      }
    }
  }

  lemma KeptSeen(env: Env, w: World, e: World, l: Label, c: ConnId)
    requires Inv(env, w) && Inv(env, e) && Enabled(env, w, l) && Kept(l, c) && SeenBy(w, e, c)
    ensures Enabled(env, e, l) && SeenBy(Step(env, w, l), Step(env, e, l), c)
  {
    StaysEnabled(env, w, e, l, c);
    var w', e' := Step(env, w, l), Step(env, e, l);
    SameEntries(env, w, e, l, c);
    StaysCoupled(env, w, l);
    StaysCoupled(env, e, l);
    JustCoupled(w'.conns, w'.index, e', c);
    SameReaders(env, w, e, l, c);
    SameFeed(env, w, e, l, c);
  }

  /** Erasing all other connections and their steps leaves a legal run with the same outcome for
      `c`: queue, streak, subscriptions, log of offers and their outcomes, and socket. */
  lemma {:induction false} OthersDoNotMatter(env: Env, run: seq<Label>, c: ConnId)
    requires Legal(env, run)
    ensures Legal(env, Erase(run, c)) && SeenBy(After(env, run), After(env, Erase(run, c)), c)
  {
    if run != [] {
      var before, l := run[..|run| - 1], run[|run| - 1];
      var w := After(env, before);
      OthersDoNotMatter(env, before, c);
      Always(env, before);
      var kept := Erase(before, c);
      Always(env, kept);
      if Kept(l, c) {
        KeptSeen(env, w, After(env, kept), l, c);
        LegalSnoc(env, kept, l);
      } else {
        OthersUnseen(env, w, After(env, kept), l, c);
        assert Erase(run, c) == kept;
      }
    }
  }

  /** In particular: connection by connection, nothing differs. */
  lemma SlowClientsPayAlone(env: Env, run: seq<Label>, c: ConnId)
    requires Legal(env, run)
    ensures
      Legal(env, Erase(run, c)) &&
      var w, alone := After(env, run), After(env, Erase(run, c));
      && (c in alone.conns <==> c in w.conns) && (c in w.conns ==> alone.conns[c] == w.conns[c])
      && (c in alone.clients <==> c in w.clients) && (c in w.clients ==> alone.clients[c] == w.clients[c])
  {
    OthersDoNotMatter(env, run, c);
    var w, alone := After(env, run), After(env, Erase(run, c));
    assert c in Just(w.conns, c) <==> c in w.conns;
    assert c in Just(w.clients, c) <==> c in w.clients;
  }
}
