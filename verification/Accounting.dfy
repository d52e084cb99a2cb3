/** The counters: the consecutive-drop streak and the frame metrics, although the queue, the
    metric and the streak are updated by three separate atomic operations. */
module Accounting {
  import opened Protocol
  import opened Delivery
  import opened Machine
  import opened Invariant
  import opened Tracking
  import opened Output

  /** Full-queue outcomes since the last success; closed queues are not counted. */
  function Streak(log: seq<Event>): nat {
    if log == [] then 0
    else
      match log[|log| - 1]
      case Offer(_, _, _, Sent) => 0
      case Offer(_, _, _, Full) => Streak(log[..|log| - 1]) + 1
      case _ => Streak(log[..|log| - 1])
  }

  /** Offers that ended with `outcome`. */
  function Tallied(log: seq<Event>, outcome: Outcome): nat {
    if log == [] then 0
    else
      Tallied(log[..|log| - 1], outcome) +
      if log[|log| - 1].Offer? && log[|log| - 1].outcome == outcome then 1 else 0
  }

  function Counted(log: seq<Event>): seq<Outcome> {
    if log == [] then []
    else
      var e := log[|log| - 1];
      Counted(log[..|log| - 1]) + if e.Offer? && !e.outcome.Closed? then [e.outcome] else []
  }

  predicate LastAllFull(outcomes: seq<Outcome>, n: nat) {
    n <= |outcomes| && forall i :: |outcomes| - n <= i < |outcomes| ==> outcomes[i].Full?
  }

  lemma LastAllFullMore(before: seq<Outcome>, x: Outcome, n: nat)
    ensures LastAllFull(before + [x], n) <==> n == 0 || (x.Full? && LastAllFull(before, n - 1))
  {
    var after := before + [x];
    if n > 0 && LastAllFull(after, n) {
      assert after[|before|].Full?;
      forall i | |before| - (n - 1) <= i < |before| ensures before[i].Full? {
        assert after[i].Full?;
      }
    }
  }

  /** A streak of at least `n` means that the last `n` counted outcomes were all drops. */
  lemma {:induction false} StreakMeaning(log: seq<Event>, n: nat)
    ensures Streak(log) >= n <==> LastAllFull(Counted(log), n)
  {
    if log != [] {
      var k := |log| - 1;
      var e := log[k];
      StreakMeaning(log[..k], n);
      if n > 0 {
        StreakMeaning(log[..k], n - 1);
      }
      if e.Offer? && !e.outcome.Closed? {
        LastAllFullMore(Counted(log[..k]), e.outcome, n);
      } else {
        assert Counted(log) == Counted(log[..k]);
      }
    }
  }

  lemma StreakMore(log: seq<Event>, e: Event)
    ensures Streak(log + [e]) ==
            if !e.Offer? then Streak(log) else match e.outcome case Sent => 0 case Full => Streak(log) + 1 case Closed => Streak(log)
    ensures forall o :: Tallied(log + [e], o) == Tallied(log, o) + if e.Offer? && e.outcome == o then 1 else 0
  {
    assert (log + [e])[..|log|] == log;
  }

  /** A step that is not a delivery to `id` adds no offer to its log. */
  lemma NoOffer(env: Env, w: World, l: Label, id: ConnId)
    requires Enabled(env, w, l) && id in w.clients && !l.Insert? && !(l.TrySend? && l.id == id)
    ensures id in Step(env, w, l).clients
    ensures Streak(Step(env, w, l).clients[id].log) == Streak(w.clients[id].log)
    ensures forall o :: Tallied(Step(env, w, l).clients[id].log, o) == Tallied(w.clients[id].log, o)
  {
    Histories(env, w, l, id);
    var log, news := w.clients[id].log, News(env, w, l, id);
    if news == [] {
      assert log + news == log;
    } else {
      assert news == [news[0]];
      StreakMore(log, news[0]);
    }
  }

  // ---- Deliveries under way -------------------------------------------------------------------

  /** The deliveries to `id` that ended with `outcome` and have yet to update its counter. */
  function Flights(w: World, id: ConnId, outcome: Outcome): set<Thread> {
    set th | th in w.readers && w.readers[th].flight.Some? &&
             w.readers[th].flight.value.id == id && w.readers[th].flight.value.outcome == outcome
  }

  lemma FlightsTrySend(w: World, th: Thread, id: ConnId, o: Outcome)
    requires th in w.readers && w.readers[th].flight.None? && id in w.conns && id in w.clients && !o.Closed?
    ensures th !in Flights(w, id, o)
    ensures Flights(DoTrySend(w, th, id), id, o) ==
            Flights(w, id, o) + if Put(w.conns[id], w.readers[th].frame).1 == o then {th} else {}
  {
  }

  lemma FlightsMark(w: World, th: Thread, id: ConnId, o: Outcome)
    requires Flying(w, th, id, true)
    ensures th in Flights(w, id, w.readers[th].flight.value.outcome)
    ensures Flights(DoMark(w, th, id), id, o) == Flights(w, id, o) - {th}
    ensures o != w.readers[th].flight.value.outcome ==> th !in Flights(w, id, o)
  {
  }

  lemma FlightStays(env: Env, w: World, l: Label, id: ConnId, o: Outcome, th: Thread)
    requires Enabled(env, w, l) && !(l.TrySend? && l.id == id) && !(l.Mark? && l.id == id)
    ensures th in Flights(Step(env, w, l), id, o) <==> th in Flights(w, id, o)
  {
    if !Reads(l) {
      ReadersUntouched(env, w, l);
    }
  }

  /** Deliveries under way to `id` change at its `TrySend` and `Mark` only. */
  lemma FlightsRest(env: Env, w: World, l: Label, id: ConnId, o: Outcome)
    requires Enabled(env, w, l) && !(l.TrySend? && l.id == id) && !(l.Mark? && l.id == id)
    ensures Flights(Step(env, w, l), id, o) == Flights(w, id, o)
  {
    forall th ensures th in Flights(Step(env, w, l), id, o) <==> th in Flights(w, id, o) {
      FlightStays(env, w, l, id, o, th);
    }
  }

  lemma DroppedRest(env: Env, w: World, l: Label, id: ConnId)
    requires Enabled(env, w, l) && id in w.conns && id in Step(env, w, l).conns && !l.Insert? && !(l.Mark? && l.id == id)
    ensures Step(env, w, l).conns[id].dropped == w.conns[id].dropped
  {
    if Subject(l) != Some(id) {
      Untouched(env, w, l, id);
    }
  }

  // ---- Exact streaks -------------------------------------------------------------------------

  /** A success and a drop are both between their `try_send` and their counter updates. */
  ghost predicate Mixed(w: World, id: ConnId) {
    Flights(w, id, Sent) != {} && Flights(w, id, Full) != {}
  }

  ghost predicate NeverMixed(env: Env, run: seq<Label>, id: ConnId)
    requires Legal(env, run)
  {
    !Mixed(After(env, run), id) && (run == [] || NeverMixed(env, run[..|run| - 1], id))
  }

  ghost predicate Quiet(w: World, id: ConnId) {
    Flights(w, id, Sent) == {} && Flights(w, id, Full) == {}
  }

  ghost predicate Exact(w: World, id: ConnId) {
    id in w.conns && id in w.clients && w.conns[id].dropped == Streak(w.clients[id].log)
  }

  /** The counter is the streak, short of the drops under way and of a success under way. */
  ghost predicate StreakOk(w: World, id: ConnId) {
    && id in w.conns && id in w.clients
    && Streak(w.clients[id].log) ==
       if Flights(w, id, Sent) == {} then w.conns[id].dropped + |Flights(w, id, Full)| else 0
  }

  lemma StreakTrySend(env: Env, w: World, th: Thread, id: ConnId)
    requires Enabled(env, w, TrySend(th, id)) && StreakOk(w, id) && !Mixed(DoTrySend(w, th, id), id)
    ensures StreakOk(DoTrySend(w, th, id), id)
  {
    var r := w.readers[th];
    var outcome := Put(w.conns[id], r.frame).1;
    StreakMore(w.clients[id].log, Offer(th, r.scope, r.frame, outcome));
    FlightsTrySend(w, th, id, Sent);
    FlightsTrySend(w, th, id, Full);
  }

  lemma StreakMark(env: Env, w: World, th: Thread, id: ConnId)
    requires Enabled(env, w, Mark(th, id)) && StreakOk(w, id) && !Mixed(w, id)
    requires !w.readers[th].flight.value.outcome.Closed?
    ensures StreakOk(DoMark(w, th, id), id) && !Mixed(DoMark(w, th, id), id)
  {
    FlightsMark(w, th, id, Sent);
    FlightsMark(w, th, id, Full);
  }

  lemma StreakRest(env: Env, w: World, l: Label, id: ConnId)
    requires Enabled(env, w, l) && StreakOk(w, id) && id in Step(env, w, l).conns
    requires !l.Insert? && !(l.TrySend? && l.id == id) && !(l.Mark? && l.id == id)
    ensures StreakOk(Step(env, w, l), id)
  {
    NoOffer(env, w, l, id);
    DroppedRest(env, w, l, id);
    FlightsRest(env, w, l, id, Sent);
    FlightsRest(env, w, l, id, Full);
  }

  lemma StreakInsert(env: Env, w: World, i: ConnId, claims: Claims, id: ConnId)
    requires Enabled(env, w, Insert(i, claims)) && (i != id ==> StreakOk(w, id))
    ensures StreakOk(DoInsert(env, w, i, claims), id)
  {
    var w' := DoInsert(env, w, i, claims);
    assert Flights(w', id, Sent) == {} == Flights(w, id, Sent) && Flights(w', id, Full) == {} == Flights(w, id, Full);
  }

  /** As long as no success and drop are ever under way to a connection together, its counter is the
      exact number of full-queue outcomes since its last success, up to the deliveries under way. */
  lemma {:induction false} StreakIsExact(env: Env, run: seq<Label>, id: ConnId)
    requires Legal(env, run) && id in After(env, run).conns && NeverMixed(env, run, id)
    ensures StreakOk(After(env, run), id)
  {
    if run != [] {
      var before, l := run[..|run| - 1], run[|run| - 1];
      var w := After(env, before);
      if l.Insert? {
        if l.id != id {
          StreakIsExact(env, before, id);
        }
        StreakInsert(env, w, l.id, l.claims, id);
      } else {
        StreakIsExact(env, before, id);
        if l.TrySend? && l.id == id {
          StreakTrySend(env, w, l.th, id);
        } else if l.Mark? && l.id == id {
          Always(env, before);
          assert ReaderOk(w, l.th);
          StreakMark(env, w, l.th, id);
        } else {
          StreakRest(env, w, l, id);
        }
      }
    }
  }

  /** A check now decides "too slow" exactly when the last `max_consecutive_drops` counted outcomes,
      the drops still under way not included, were all drops. */
  ghost predicate JudgesRight(env: Env, w: World, id: ConnId) {
    && id in w.conns && id in w.clients
    && (DoCheck(env, w, id).clients[id].over <==>
        LastAllFull(Counted(w.clients[id].log), |Flights(w, id, Full)| + env.config.maxConsecutiveDrops))
  }

  /** A success is under way to a client whose counter, not yet cleared, is at the threshold. */
  ghost predicate ClearedTooLate(env: Env, w: World, id: ConnId) {
    && id in w.conns && Flights(w, id, Sent) != {}
    && w.conns[id].dropped >= env.config.maxConsecutiveDrops > 0
  }

  lemma CheckVerdict(env: Env, w: World, id: ConnId)
    requires StreakOk(w, id) && !Mixed(w, id)
    ensures JudgesRight(env, w, id) <==> !ClearedTooLate(env, w, id)
  {
    StreakMeaning(w.clients[id].log, |Flights(w, id, Full)| + env.config.maxConsecutiveDrops);
  }

  /** The too-slow branch is taken exactly when it should be, at every check but those that find the
      counter at the threshold and a success under way that is about to clear it. */
  lemma TooSlowIsExactIff(env: Env, run: seq<Label>, id: ConnId)
    requires Legal(env, run) && id in After(env, run).conns && NeverMixed(env, run, id)
    ensures JudgesRight(env, After(env, run), id) <==> !ClearedTooLate(env, After(env, run), id)
  {
    StreakIsExact(env, run, id);
    CheckVerdict(env, After(env, run), id);
  }

  // ---- Exactly when the streak comes out right --------------------------------------------------

  /** `rest` finishes the deliveries under way to `id` and does nothing else. */
  ghost predicate Finishes(env: Env, run: seq<Label>, rest: seq<Label>, id: ConnId) {
    && Legal(env, run) && Legal(env, run + rest) && FinishSteps(rest, id)
    && Quiet(After(env, run + rest), id)
  }

  predicate FinishSteps(rest: seq<Label>, id: ConnId) {
    forall i :: 0 <= i < |rest| ==> (rest[i].Count? || rest[i].Mark?) && rest[i].id == id
  }

  /** However the deliveries under way to `id` finish, its counter ends as its streak. */
  ghost predicate ComesOutRight(env: Env, run: seq<Label>, id: ConnId) {
    forall rest :: Finishes(env, run, rest, id) ==> Exact(After(env, run + rest), id)
  }

  lemma {:induction false} FinishingKeeps(env: Env, run: seq<Label>, rest: seq<Label>, id: ConnId)
    requires Legal(env, run) && Legal(env, run + rest) && FinishSteps(rest, id)
    requires StreakOk(After(env, run), id) && !Mixed(After(env, run), id)
    ensures StreakOk(After(env, run + rest), id) && !Mixed(After(env, run + rest), id)
  {
    if rest == [] {
      assert run + rest == run;
    } else {
      var most, l := rest[..|rest| - 1], rest[|rest| - 1];
      assert run + rest == (run + most) + [l];
      LegalSnoc(env, run + most, l);
      FinishingKeeps(env, run, most, id);
      var w := After(env, run + most);
      if l.Mark? {
        Always(env, run + most);
        assert ReaderOk(w, l.th);
        StreakMark(env, w, l.th, id);
      } else {
        StreakRest(env, w, l, id);
        FlightsRest(env, w, l, id, Sent);
        FlightsRest(env, w, l, id, Full);
      }
    }
  }

  lemma FinishMore(env: Env, run: seq<Label>, rest: seq<Label>, l: Label, id: ConnId)
    requires Legal(env, run + rest) && FinishSteps(rest, id) && (l.Count? || l.Mark?) && l.id == id
    requires Enabled(env, After(env, run + rest), l)
    ensures Legal(env, run + (rest + [l])) && FinishSteps(rest + [l], id)
    ensures After(env, run + (rest + [l])) == Step(env, After(env, run + rest), l)
  {
    LegalSnoc(env, run + rest, l);
    assert run + (rest + [l]) == (run + rest) + [l];
  }

  /** One delivery under way is counted, unless it was, and marked. */
  lemma FinishOne(env: Env, run: seq<Label>, rest: seq<Label>, id: ConnId, th: Thread, o: Outcome) returns (rest': seq<Label>)
    requires Legal(env, run + rest) && FinishSteps(rest, id)
    requires th in Flights(After(env, run + rest), id, o) && id in After(env, run + rest).conns && id in After(env, run + rest).clients
    ensures Legal(env, run + rest') && FinishSteps(rest', id)
    ensures
      var w, w' := After(env, run + rest), After(env, run + rest');
      && id in w'.conns && id in w'.clients && w'.clients[id].log == w.clients[id].log
      && w'.conns[id] == Tally(w.conns[id], o)
      && forall o' :: Flights(w', id, o') == Flights(w, id, o') - {th}
  {
    var w := After(env, run + rest);
    rest' := rest;
    if !w.readers[th].flight.value.counted {
      FinishMore(env, run, rest, Count(th, id), id);
      rest' := rest + [Count(th, id)];
      forall o' ensures Flights(After(env, run + rest'), id, o') == Flights(w, id, o') {
        FlightsRest(env, w, Count(th, id), id, o');
      }
    }
    var counted := After(env, run + rest');
    FinishMore(env, run, rest', Mark(th, id), id);
    rest' := rest' + [Mark(th, id)];
    forall o' ensures Flights(After(env, run + rest'), id, o') == Flights(w, id, o') - {th} {
      FlightsMark(counted, th, id, o');
    }
  }

  /** All deliveries under way that ended with `o` are finished, one after the other. */
  lemma {:induction false} FinishAll(env: Env, run: seq<Label>, rest: seq<Label>, id: ConnId, o: Outcome) returns (rest': seq<Label>)
    requires Legal(env, run + rest) && FinishSteps(rest, id) && !o.Closed?
    requires id in After(env, run + rest).conns && id in After(env, run + rest).clients
    ensures Legal(env, run + rest') && FinishSteps(rest', id)
    ensures
      var w, w' := After(env, run + rest), After(env, run + rest');
      && id in w'.conns && id in w'.clients && w'.clients[id].log == w.clients[id].log
      && Flights(w', id, o) == {}
      && (forall o' :: o' != o ==> Flights(w', id, o') == Flights(w, id, o'))
      && w'.conns[id].dropped ==
         if o.Sent? && Flights(w, id, o) != {} then 0
         else w.conns[id].dropped + if o.Full? then |Flights(w, id, o)| else 0
    decreases |Flights(After(env, run + rest), id, o)|
  {
    var w := After(env, run + rest);
    rest' := rest;
    if Flights(w, id, o) != {} {
      var th :| th in Flights(w, id, o);
      forall o' | o' != o ensures Flights(w, id, o') - {th} == Flights(w, id, o') {
        assert th !in Flights(w, id, o');
      }
      rest' := FinishOne(env, run, rest, id, th, o);
      rest' := FinishAll(env, run, rest', id, o);
    }
  }

  /** The deliveries under way finished, those that ended with `a` first. */
  lemma FinishInOrder(env: Env, run: seq<Label>, id: ConnId, a: Outcome, b: Outcome) returns (rest: seq<Label>)
    requires Legal(env, run) && id in After(env, run).conns && id in After(env, run).clients
    requires (a == Sent && b == Full) || (a == Full && b == Sent)
    ensures Finishes(env, run, rest, id)
    ensures
      var w, w' := After(env, run), After(env, run + rest);
      && id in w'.conns && id in w'.clients && w'.clients[id].log == w.clients[id].log
      && w'.conns[id].dropped ==
         if Flights(w, id, Sent) == {} then w.conns[id].dropped + |Flights(w, id, Full)|
         else if a == Sent then |Flights(w, id, Full)| else 0
  {
    assert run + [] == run;
    rest := FinishAll(env, run, [], id, a);
    rest := FinishAll(env, run, rest, id, b);
  }

  /** At any moment of any run: the counter comes out as the streak however the deliveries under way
      finish, if and only if no success and drop are under way together and it is right so far. */
  lemma ComesOutRightIff(env: Env, run: seq<Label>, id: ConnId)
    requires Legal(env, run) && id in After(env, run).conns
    ensures
      var w := After(env, run);
      ComesOutRight(env, run, id) <==> !Mixed(w, id) && StreakOk(w, id)
  {
    var w := After(env, run);
    Always(env, run);
    assert ConnOk(env, w, id);
    if ComesOutRight(env, run, id) {
      var sentFirst := FinishInOrder(env, run, id, Sent, Full);
      var fullFirst := FinishInOrder(env, run, id, Full, Sent);
      assert Exact(After(env, run + sentFirst), id) && Exact(After(env, run + fullFirst), id);
    } else if !Mixed(w, id) && StreakOk(w, id) {
      var rest :| Finishes(env, run, rest, id) && !Exact(After(env, run + rest), id);
      FinishingKeeps(env, run, rest, id);
    }
  }

  ghost predicate AlwaysComesOutRight(env: Env, run: seq<Label>, id: ConnId)
    requires Legal(env, run)
  {
    && (id in After(env, run).conns ==> ComesOutRight(env, run, id))
    && (run == [] || AlwaysComesOutRight(env, run[..|run| - 1], id))
  }

  /** "Consecutive failed deliveries" is what the counter holds, at every moment of a run and however
      the deliveries under way finish, if and only if at no moment a success and a drop are under way
      to the connection together. */
  lemma {:induction false} StreakIsExactIff(env: Env, run: seq<Label>, id: ConnId)
    requires Legal(env, run)
    ensures AlwaysComesOutRight(env, run, id) <==> NeverMixed(env, run, id)
  {
    if run != [] {
      StreakIsExactIff(env, run[..|run| - 1], id);
    }
    var w := After(env, run);
    if id in w.conns {
      ComesOutRightIff(env, run, id);
      if NeverMixed(env, run, id) {
        StreakIsExact(env, run, id);
      }
    } else {
      Always(env, run);
      forall th | th in w.readers ensures th !in Flights(w, id, Sent) {
        assert ReaderOk(w, th);
      }
      assert Flights(w, id, Sent) == {};
    }
  }

  // ---- Bounds and totals that hold under any overlap ----------------------------------------

  ghost predicate BoundOk(w: World, id: ConnId) {
    id in w.conns && id in w.clients &&
    w.conns[id].dropped + |Flights(w, id, Full)| <= Tallied(w.clients[id].log, Full)
  }

  lemma BoundTrySend(w: World, th: Thread, id: ConnId)
    requires th in w.readers && w.readers[th].flight.None? && BoundOk(w, id)
    ensures BoundOk(DoTrySend(w, th, id), id)
  {
    var r := w.readers[th];
    StreakMore(w.clients[id].log, Offer(th, r.scope, r.frame, Put(w.conns[id], r.frame).1));
    FlightsTrySend(w, th, id, Full);
  }

  lemma BoundMark(w: World, th: Thread, id: ConnId)
    requires Flying(w, th, id, true) && BoundOk(w, id)
    ensures BoundOk(DoMark(w, th, id), id)
  {
    FlightsMark(w, th, id, Full);
  }

  lemma BoundRest(env: Env, w: World, l: Label, id: ConnId)
    requires Enabled(env, w, l) && BoundOk(w, id) && id in Step(env, w, l).conns
    requires !l.Insert? && !(l.TrySend? && l.id == id) && !(l.Mark? && l.id == id)
    ensures BoundOk(Step(env, w, l), id)
  {
    NoOffer(env, w, l, id);
    DroppedRest(env, w, l, id);
    FlightsRest(env, w, l, id, Full);
  }

  /** However deliveries overlap, the counter never exceeds the drops that happened. */
  lemma {:induction false} StreakNeverExceedsDrops(env: Env, run: seq<Label>, id: ConnId)
    requires Legal(env, run) && id in After(env, run).conns
    ensures BoundOk(After(env, run), id)
  {
    if run != [] {
      var before, l := run[..|run| - 1], run[|run| - 1];
      var w := After(env, before);
      if l.Insert? && l.id == id {
        assert Flights(After(env, run), id, Full) == {};
      } else {
        StreakNeverExceedsDrops(env, before, id);
        if l.Insert? {
          assert Flights(After(env, run), id, Full) == {} == Flights(w, id, Full);
        } else if l.TrySend? && l.id == id {
          BoundTrySend(w, l.th, id);
        } else if l.Mark? && l.id == id {
          BoundMark(w, l.th, id);
        } else {
          BoundRest(env, w, l, id);
        }
      }
    }
  }

  ghost function Sum(m: map<ConnId, nat>): nat {
    if m == map[] then 0 else var id :| id in m; m[id] + Sum(m - {id})
  }

  lemma {:induction false} SumSplit(m: map<ConnId, nat>, id: ConnId)
    requires id in m
    ensures Sum(m) == m[id] + Sum(m - {id})
    decreases |m|
  {
    var x :| x in m && Sum(m) == m[x] + Sum(m - {x});
    if x != id {
      assert |m - {x}| < |m| by {
        assert m.Keys == (m - {x}).Keys + {x};
      }
      assert |m - {id}| < |m| by {
        assert m.Keys == (m - {id}).Keys + {id};
      }
      SumSplit(m - {x}, id);
      SumSplit(m - {id}, x);
      assert m - {x} - {id} == m - {id} - {x};
    }
  }

  lemma SumChange(m: map<ConnId, nat>, m': map<ConnId, nat>, id: ConnId)
    requires id in m && id in m' && m - {id} == m' - {id}
    ensures Sum(m') == Sum(m) + m'[id] - m[id]
  {
    SumSplit(m, id);
    SumSplit(m', id);
  }

  function TalliesOf(clients: map<ConnId, Client>, outcome: Outcome): map<ConnId, nat> {
    map id | id in clients :: Tallied(clients[id].log, outcome)
  }

  function Tallies(w: World, outcome: Outcome): map<ConnId, nat> {
    TalliesOf(w.clients, outcome)
  }

  /** Deliveries whose metric is still to come. */
  function Uncounted(w: World, outcome: Outcome): set<Thread> {
    set th | th in w.readers && w.readers[th].flight.Some? &&
             w.readers[th].flight.value.outcome == outcome && !w.readers[th].flight.value.counted
  }

  function Metric(w: World, outcome: Outcome): nat {
    match outcome case Sent => w.sent case Full => w.lost case Closed => 0
  }

  ghost predicate MetricOk(w: World, outcome: Outcome) {
    Metric(w, outcome) + |Uncounted(w, outcome)| == Sum(Tallies(w, outcome))
  }

  lemma TalliesChange(clients: map<ConnId, Client>, cl: Client, id: ConnId, o: Outcome)
    requires id in clients
    ensures Sum(TalliesOf(clients[id := cl], o)) ==
            Sum(TalliesOf(clients, o)) + Tallied(cl.log, o) - Tallied(clients[id].log, o)
  {
    var m, m' := TalliesOf(clients, o), TalliesOf(clients[id := cl], o);
    assert m - {id} == m' - {id};
    SumChange(m, m', id);
  }

  lemma UncountedTrySend(w: World, th: Thread, id: ConnId, o: Outcome)
    requires th in w.readers && w.readers[th].flight.None? && id in w.conns && id in w.clients && !o.Closed?
    ensures |Uncounted(DoTrySend(w, th, id), o)| ==
            |Uncounted(w, o)| + if Put(w.conns[id], w.readers[th].frame).1 == o then 1 else 0
  {
    var w' := DoTrySend(w, th, id);
    assert th !in Uncounted(w, o);
    if Put(w.conns[id], w.readers[th].frame).1 == o {
      assert Uncounted(w', o) == Uncounted(w, o) + {th};
    } else {
      assert Uncounted(w', o) == Uncounted(w, o);
    }
  }

  lemma MetricTrySend(w: World, th: Thread, id: ConnId, o: Outcome)
    requires th in w.readers && w.readers[th].flight.None? && id in w.conns && id in w.clients
    requires MetricOk(w, o) && !o.Closed?
    ensures MetricOk(DoTrySend(w, th, id), o)
  {
    var r := w.readers[th];
    var offer := Offer(th, r.scope, r.frame, Put(w.conns[id], r.frame).1);
    StreakMore(w.clients[id].log, offer);
    TalliesChange(w.clients, Note(w.clients[id], offer), id, o);
    UncountedTrySend(w, th, id, o);
  }

  lemma MetricCount(w: World, th: Thread, id: ConnId, o: Outcome)
    requires Flying(w, th, id, false) && MetricOk(w, o) && !o.Closed?
    ensures MetricOk(DoCount(w, th), o)
  {
    var w' := DoCount(w, th);
    assert Tallies(w', o) == Tallies(w, o);
    if w.readers[th].flight.value.outcome == o {
      assert th in Uncounted(w, o);
      assert Uncounted(w', o) == Uncounted(w, o) - {th};
    } else {
      assert Uncounted(w', o) == Uncounted(w, o);
    }
  }

  lemma MetricInsert(env: Env, w: World, id: ConnId, claims: Claims, o: Outcome)
    requires id !in w.clients && MetricOk(w, o)
    ensures MetricOk(DoInsert(env, w, id, claims), o)
  {
    var w' := DoInsert(env, w, id, claims);
    assert w'.readers == w.readers;
    TalliesInsert(w.clients, w'.clients[id], id, o);
    SumSplit(Tallies(w', o), id);
  }

  lemma TalliesInsert(clients: map<ConnId, Client>, cl: Client, id: ConnId, o: Outcome)
    requires id !in clients && cl.log == []
    ensures
      var after := TalliesOf(clients[id := cl], o);
      id in after && after[id] == 0 && after - {id} == TalliesOf(clients, o)
  {
    assert TalliesOf(clients[id := cl], o) - {id} == TalliesOf(clients, o);
  }

  lemma UncountedRest(env: Env, w: World, l: Label, o: Outcome, th: Thread)
    requires Enabled(env, w, l) && !l.TrySend? && !l.Count?
    ensures th in Uncounted(Step(env, w, l), o) <==> th in Uncounted(w, o)
    ensures Metric(Step(env, w, l), o) == Metric(w, o)
  {
    MetricsUntouched(env, w, l);
    if !Reads(l) {
      ReadersUntouched(env, w, l);
    }
  }

  lemma ClientsStay(env: Env, w: World, l: Label)
    requires Enabled(env, w, l) && !l.Insert?
    ensures Step(env, w, l).clients.Keys == w.clients.Keys
  {
  }

  lemma TalliesRest(env: Env, w: World, l: Label, o: Outcome)
    requires Enabled(env, w, l) && !l.TrySend? && !l.Insert?
    ensures Tallies(Step(env, w, l), o) == Tallies(w, o)
  {
    var w' := Step(env, w, l);
    ClientsStay(env, w, l);
    forall id | id in w.clients ensures Tallied(w'.clients[id].log, o) == Tallied(w.clients[id].log, o) {
      NoOffer(env, w, l, id);
    }
  }

  lemma MetricRest(env: Env, w: World, l: Label, o: Outcome)
    requires Enabled(env, w, l) && !l.TrySend? && !l.Count? && !l.Insert? && MetricOk(w, o)
    ensures MetricOk(Step(env, w, l), o)
  {
    var w' := Step(env, w, l);
    forall th ensures th in Uncounted(w', o) <==> th in Uncounted(w, o) {
      UncountedRest(env, w, l, o, th);
    }
    assert Uncounted(w', o) == Uncounted(w, o);
    UncountedRest(env, w, l, o, Publisher(0));
    TalliesRest(env, w, l, o);
  }

  lemma MetricStep(env: Env, w: World, l: Label, o: Outcome)
    requires Inv(env, w) && Enabled(env, w, l) && !o.Closed? && MetricOk(w, o)
    ensures MetricOk(Step(env, w, l), o)
  {
    if l.TrySend? {
      MetricTrySend(w, l.th, l.id, o);
    } else if l.Count? {
      MetricCount(w, l.th, l.id, o);
    } else if l.Insert? {
      assert l.id in w.clients ==> ClientOk(w, l.id);
      MetricInsert(env, w, l.id, l.claims, o);
    } else {
      MetricRest(env, w, l, o);
    }
  }

  /** In every state of every run each frame metric, plus the deliveries that have yet to count
      themselves, is the number of offers with that outcome over all connections ever. */
  lemma {:induction false} MetricsAreExact(env: Env, run: seq<Label>, o: Outcome)
    requires Legal(env, run) && !o.Closed?
    ensures MetricOk(After(env, run), o)
  {
    if run == [] {
      assert Uncounted(Init(), o) == {} && Tallies(Init(), o) == map[];
    } else {
      var before, l := run[..|run| - 1], run[|run| - 1];
      var w := After(env, before);
      MetricsAreExact(env, before, o);
      Always(env, before);
      MetricStep(env, w, l, o);
    }
  }

  lemma {:induction false} AcceptedCount(log: seq<Event>)
    ensures |Accepted(log)| == Tallied(log, Sent)
  {
    if log != [] {
      AcceptedCount(log[..|log| - 1]);
    }
  }

  /** Where the frames of each connection went. */
  function Whereabouts(w: World): map<ConnId, nat> {
    map id | id in w.clients :: |Taken(w.clients[id].log)| + |Queue(w, id)| + |w.clients[id].discarded|
  }

  /** Conservation: `frames_sent` is the frames taken from queues, plus those still queued, plus
      those discarded with a closed receiver, once nothing is in flight. */
  lemma SentIsConserved(env: Env, run: seq<Label>)
    requires Legal(env, run)
    ensures var w := After(env, run); w.sent + |Uncounted(w, Sent)| == Sum(Whereabouts(w))
  {
    var w := After(env, run);
    MetricsAreExact(env, run, Sent);
    forall id | id in w.clients ensures Whereabouts(w)[id] == Tallies(w, Sent)[id] {
      QueueIsFifo(env, run, id);
      AcceptedCount(w.clients[id].log);
    }
    assert Whereabouts(w) == Tallies(w, Sent);
  }
}
