/** Exact fan-out: for every publisher and every interleaving, what a connection is offered
    during a subscription is exactly what that publisher published on the channel since the
    subscription began, in order and without gaps. */
module Tracking {
  import opened Protocol
  import opened Delivery
  import opened Subscriptions
  import opened Requests
  import opened Machine
  import opened Invariant

  /** What a step adds to the log of connection `id`. */
  function News(env: Env, w: World, l: Label, id: ConnId): seq<Event>
    requires Enabled(env, w, l)
  {
    if Subject(l) != Some(id) then [] else
      match l
      case Subscribe(_, channels) =>
        var v := Judge(env, w.clients[id].claims, w.conns[id].subscriptions, channels);
        [Joined(v.added, v.rejected)]
      case Unsubscribe(_, channels) => [Left(Withdraw(w.conns[id].subscriptions, channels).removed)]
      case Request(_, reply) => [Asked(reply)]
      case Take(_, _) => [Took(w.conns[id].queue[0])]
      case Lookup(_) =>
        var ch := w.clients[id].jobs[0].channel;
        [Looked(ch, |w.recorded|, Find(w.last, ch))]
      case Check(_) => [Judged(w.conns[id].dropped >= env.config.maxConsecutiveDrops)]
      case TrySend(th, _) =>
        var r := w.readers[th];
        [Offer(th, r.scope, r.frame, Put(w.conns[id], r.frame).1)]
      case _ => []
  }

  /** What a step adds to the tape. */
  function Reel(l: Label): seq<Entry> {
    match l
    case Overrun => [Gap]
    case StartPublish(p, ch, frame) => [Airing(p, One(ch), frame)]
    case StartBroadcast(p) => [Airing(p, All, Resync([]))]
    case _ => []
  }

  lemma Histories(env: Env, w: World, l: Label, id: ConnId)
    requires Enabled(env, w, l)
    ensures Step(env, w, l).tape == w.tape + Reel(l)
    ensures id in w.clients && !l.Insert? ==>
              id in Step(env, w, l).clients &&
              Step(env, w, l).clients[id].log == w.clients[id].log + News(env, w, l, id)
  {
    if Subject(l) != Some(id) {
      Untouched(env, w, l, id);
    }
  }

  /** Frames offered by publisher `p` under one of `scopes`. */
  function Heard(log: seq<Event>, p: nat, scopes: set<Scope>): seq<Frame> {
    if log == [] then []
    else
      var e := log[|log| - 1];
      Heard(log[..|log| - 1], p, scopes) +
      if e.Offer? && e.sender == Publisher(p) && e.scope in scopes then [e.frame] else []
  }

  /** Frames published by `p` under one of `scopes`. */
  function Aired(tape: seq<Entry>, p: nat, scopes: set<Scope>): seq<Frame> {
    if tape == [] then []
    else
      var e := tape[|tape| - 1];
      Aired(tape[..|tape| - 1], p, scopes) +
      if e.Airing? && e.source == p && e.scope in scopes then [e.frame] else []
  }

  /** The frame that `p` is publishing right now and has yet to offer to `id`. */
  function Owed(w: World, id: ConnId, p: nat, scopes: set<Scope>): seq<Frame> {
    if Publisher(p) in w.readers && w.readers[Publisher(p)].scope in scopes && id in w.readers[Publisher(p)].todo
    then [w.readers[Publisher(p)].frame] else []
  }

  ghost predicate Tracks(w: World, id: ConnId, p: nat, scopes: set<Scope>, j: Join) {
    && id in w.clients && j.logPos <= |w.clients[id].log| && j.tapePos <= |w.tape|
    && Heard(w.clients[id].log[j.logPos..], p, scopes) + Owed(w, id, p, scopes) ==
       Aired(w.tape[j.tapePos..], p, scopes)
  }

  ghost predicate Listens(w: World, id: ConnId, scopes: set<Scope>) {
    && id in w.conns
    && forall s :: s in scopes ==> s.All? || (s.One? && s.channel in w.conns[id].subscriptions)
  }

  lemma {:induction false} HeardAppend(a: seq<Event>, b: seq<Event>, p: nat, scopes: set<Scope>)
    ensures Heard(a + b, p, scopes) == Heard(a, p, scopes) + Heard(b, p, scopes)
  {
    if b == [] {
      assert a + b == a;
    } else {
      HeardAppend(a, b[..|b| - 1], p, scopes);
      assert (a + b)[..|a + b| - 1] == a + b[..|b| - 1];
    }
  }

  lemma {:induction false} AiredAppend(a: seq<Entry>, b: seq<Entry>, p: nat, scopes: set<Scope>)
    ensures Aired(a + b, p, scopes) == Aired(a, p, scopes) + Aired(b, p, scopes)
  {
    if b == [] {
      assert a + b == a;
    } else {
      AiredAppend(a, b[..|b| - 1], p, scopes);
      assert (a + b)[..|a + b| - 1] == a + b[..|b| - 1];
    }
  }

  /** Outside publishing, nothing is owed before or after and nothing is heard. */
  lemma BalanceOther(env: Env, w: World, l: Label, id: ConnId, p: nat, scopes: set<Scope>)
    requires Enabled(env, w, l)
    requires !l.StartPublish? && !l.StartBroadcast? && !l.TrySend?
    ensures Heard(News(env, w, l, id), p, scopes) == [] == Aired(Reel(l), p, scopes)
    ensures Owed(Step(env, w, l), id, p, scopes) == Owed(w, id, p, scopes)
  {
    OwedStays(env, w, l, id, p, scopes);
  }

  lemma OwedStays(env: Env, w: World, l: Label, id: ConnId, p: nat, scopes: set<Scope>)
    requires Enabled(env, w, l)
    requires !l.StartPublish? && !l.StartBroadcast? && !l.TrySend?
    ensures Owed(Step(env, w, l), id, p, scopes) == Owed(w, id, p, scopes)
  {
    if !Reads(l) {
      ReadersUntouched(env, w, l);
    }
  }

  lemma BalanceStart(env: Env, w: World, l: Label, id: ConnId, p: nat, scopes: set<Scope>)
    requires Coupled(w.conns, w.index) && Enabled(env, w, l) && Listens(w, id, scopes)
    requires l.StartPublish? || l.StartBroadcast?
    ensures Owed(Step(env, w, l), id, p, scopes) == Owed(w, id, p, scopes) + Aired(Reel(l), p, scopes)
  {
    if l.StartPublish? {
      assert Listed(w.index, id, l.channel) <==> Holds(w.conns, id, l.channel);
    }
    assert Reel(l)[..0] == [];
  }

  lemma BalanceSend(env: Env, w: World, th: Thread, i: ConnId, id: ConnId, p: nat, scopes: set<Scope>)
    requires Enabled(env, w, TrySend(th, i))
    ensures Heard(News(env, w, TrySend(th, i), id), p, scopes) + Owed(DoTrySend(w, th, i), id, p, scopes) ==
            Owed(w, id, p, scopes)
  {
    assert News(env, w, TrySend(th, i), id) == [] || News(env, w, TrySend(th, i), id)[..0] == [];
  }

  /** One step: what is newly heard or owed is what was owed or newly published. */
  lemma Balance(env: Env, w: World, l: Label, id: ConnId, p: nat, scopes: set<Scope>)
    requires Coupled(w.conns, w.index) && Enabled(env, w, l) && Listens(w, id, scopes)
    ensures Heard(News(env, w, l, id), p, scopes) + Owed(Step(env, w, l), id, p, scopes) ==
            Owed(w, id, p, scopes) + Aired(Reel(l), p, scopes)
  {
    if l.StartPublish? || l.StartBroadcast? {
      BalanceStart(env, w, l, id, p, scopes);
    } else if l.TrySend? {
      BalanceSend(env, w, l.th, l.id, id, p, scopes);
    } else {
      BalanceOther(env, w, l, id, p, scopes);
    }
  }

  /** The bookkeeping of one step, on the histories alone. */
  lemma Splice(log: seq<Event>, news: seq<Event>, tape: seq<Entry>, reel: seq<Entry>, j: Join,
               owed: seq<Frame>, owed': seq<Frame>, p: nat, scopes: set<Scope>)
    requires j.logPos <= |log| && j.tapePos <= |tape|
    requires Heard(log[j.logPos..], p, scopes) + owed == Aired(tape[j.tapePos..], p, scopes)
    requires Heard(news, p, scopes) + owed' == owed + Aired(reel, p, scopes)
    ensures Heard((log + news)[j.logPos..], p, scopes) + owed' == Aired((tape + reel)[j.tapePos..], p, scopes)
  {
    assert (log + news)[j.logPos..] == log[j.logPos..] + news;
    assert (tape + reel)[j.tapePos..] == tape[j.tapePos..] + reel;
    HeardAppend(log[j.logPos..], news, p, scopes);
    AiredAppend(tape[j.tapePos..], reel, p, scopes);
    Regroup(Heard(log[j.logPos..], p, scopes), Heard(news, p, scopes), owed, owed',
            Aired(tape[j.tapePos..], p, scopes), Aired(reel, p, scopes));
  }

  lemma Regroup<T>(heard: seq<T>, news: seq<T>, owed: seq<T>, owed': seq<T>, aired: seq<T>, reel: seq<T>)
    requires heard + owed == aired
    requires news + owed' == owed + reel
    ensures heard + news + owed' == aired + reel
  {
    assert heard + news + owed' == heard + (news + owed');
    assert heard + (owed + reel) == heard + owed + reel;
  }

  lemma TracksStep(env: Env, w: World, l: Label, id: ConnId, p: nat, scopes: set<Scope>, j: Join)
    requires Coupled(w.conns, w.index) && Enabled(env, w, l) && !l.Insert?
    requires Listens(w, id, scopes) && Tracks(w, id, p, scopes, j)
    ensures Tracks(Step(env, w, l), id, p, scopes, j)
  {
    Histories(env, w, l, id);
    Balance(env, w, l, id, p, scopes);
    Splice(w.clients[id].log, News(env, w, l, id), w.tape, Reel(l), j,
           Owed(w, id, p, scopes), Owed(Step(env, w, l), id, p, scopes), p, scopes);
  }

  /** An insertion adds a newcomer and leaves everyone else's history alone. */
  lemma TracksInsert(env: Env, w: World, i: ConnId, claims: Claims, id: ConnId, p: nat, scopes: set<Scope>, j: Join)
    requires Enabled(env, w, Insert(i, claims)) && i != id && Tracks(w, id, p, scopes, j)
    ensures Tracks(DoInsert(env, w, i, claims), id, p, scopes, j)
  {
  }

  lemma BirthTracks(env: Env, w: World, id: ConnId, claims: Claims, p: nat, scopes: set<Scope>)
    requires Enabled(env, w, Insert(id, claims))
    ensures Tracks(DoInsert(env, w, id, claims), id, p, scopes, Join(0, |w.tape|))
  {
    assert w.tape[|w.tape|..] == [];
  }

  lemma BirthStep(env: Env, w: World, l: Label, id: ConnId, p: nat, scopes: set<Scope>)
    requires Coupled(w.conns, w.index) && Enabled(env, w, l) && !(l.Insert? && l.id == id)
    requires id in w.conns && id in w.clients && scopes <= {All}
    requires Tracks(w, id, p, scopes, Join(0, w.clients[id].born))
    ensures
      var w' := Step(env, w, l);
      id in w'.clients && Tracks(w', id, p, scopes, Join(0, w'.clients[id].born))
  {
    KeepsBirth(env, w, l, id);
    if l.Insert? {
      TracksInsert(env, w, l.id, l.claims, id, p, scopes, Join(0, w.clients[id].born));
    } else {
      assert Listens(w, id, scopes);
      TracksStep(env, w, l, id, p, scopes, Join(0, w.clients[id].born));
    }
  }

  /** Every broadcast since a connection registered has been offered to it, in order. */
  lemma {:induction false} ExactSinceBirth(env: Env, run: seq<Label>, id: ConnId, p: nat, scopes: set<Scope>)
    requires Legal(env, run) && id in After(env, run).conns && scopes <= {All}
    ensures
      var w := After(env, run);
      id in w.clients && Tracks(w, id, p, scopes, Join(0, w.clients[id].born))
  {
    if run != [] {
      var before, l := run[..|run| - 1], run[|run| - 1];
      var w := After(env, before);
      if l.Insert? && l.id == id {
        BirthTracks(env, w, id, l.claims, p, scopes);
      } else {
        Always(env, before);
        ExactSinceBirth(env, before, id, p, scopes);
        BirthStep(env, w, l, id, p, scopes);
      }
    }
  }

  lemma KeepsBirth(env: Env, w: World, l: Label, id: ConnId)
    requires Enabled(env, w, l) && id in w.clients && !(l.Insert? && l.id == id)
    ensures id in Step(env, w, l).clients && Step(env, w, l).clients[id].born == w.clients[id].born
  {
  }

  /** How a channel comes to be held after a step: it was held, or this step added it. */
  lemma HoldsStep(env: Env, w: World, l: Label, id: ConnId, ch: Channel)
    requires Inv(env, w) && Enabled(env, w, l) && Holds(Step(env, w, l).conns, id, ch)
    ensures
      var w' := Step(env, w, l);
      && id in w.conns && id in w.clients && id in w'.clients && !(l.Insert? && l.id == id)
      && if ch in w.conns[id].subscriptions
         then (ch in w.clients[id].joins ==> ch in w'.clients[id].joins && w'.clients[id].joins[ch] == w.clients[id].joins[ch])
         else
           && l.Subscribe? && l.id == id && Unlocked(w)
           && ch in w'.clients[id].joins
           && w'.clients[id].joins[ch] == Join(|w.clients[id].log|, |w.tape|)
  {
    if Subject(l) != Some(id) {
      Untouched(env, w, l, id);
      assert ConnOk(env, w, id);
    } else if l.Subscribe? {
      HoldsSubscribe(env, w, id, l.channels, ch);
    } else if l.Unsubscribe? {
      WithdrawMeaning(w.conns[id].subscriptions, l.channels);
    } else {
      HoldsRest(env, w, l, id, ch);
      assert ConnOk(env, w, id);
    }
  }

  lemma HoldsSubscribe(env: Env, w: World, id: ConnId, channels: seq<Channel>, ch: Channel)
    requires id in w.conns && id in w.clients && Holds(DoSubscribe(env, w, id, channels).conns, id, ch)
    ensures
      var joins := DoSubscribe(env, w, id, channels).clients[id].joins;
      if ch in w.conns[id].subscriptions
      then ch in w.clients[id].joins ==> ch in joins && joins[ch] == w.clients[id].joins[ch]
      else ch in joins && joins[ch] == Join(|w.clients[id].log|, |w.tape|)
  {
    var held, claims := w.conns[id].subscriptions, w.clients[id].claims;
    var v := Judge(env, claims, held, channels);
    AdmitGrows(held, Keep(Keep(channels, Short(env)), Allowed(env, claims)), env.config.maxSubscriptions);
    assert ch in v.added <==> ch in Names(v.added);
  }

  lemma HoldsRest(env: Env, w: World, l: Label, id: ConnId, ch: Channel)
    requires Enabled(env, w, l) && Subject(l) == Some(id) && !l.Subscribe? && !l.Unsubscribe?
    requires Holds(Step(env, w, l).conns, id, ch)
    ensures !l.Insert? && Holds(w.conns, id, ch)
    ensures id in w.clients ==> id in Step(env, w, l).clients && Step(env, w, l).clients[id].joins == w.clients[id].joins
  {
  }

  /** For every publisher and interleaving: what a connection was offered on a channel since it
      subscribed, followed by what is on its way, is what was published since then, in order. */
  lemma {:induction false} ExactWhileSubscribed(env: Env, run: seq<Label>, id: ConnId, ch: Channel, p: nat, scopes: set<Scope>)
    requires Legal(env, run) && Holds(After(env, run).conns, id, ch) && scopes <= {All, One(ch)}
    ensures
      var w := After(env, run);
      id in w.clients && ch in w.clients[id].joins && Tracks(w, id, p, scopes, w.clients[id].joins[ch])
  {
    if run != [] {
      var before, l := run[..|run| - 1], run[|run| - 1];
      var w := After(env, before);
      Always(env, before);
      HoldsStep(env, w, l, id, ch);
      if ch in w.conns[id].subscriptions {
        ExactWhileSubscribed(env, before, id, ch, p, scopes);
        if l.Insert? {
          TracksInsert(env, w, l.id, l.claims, id, p, scopes, w.clients[id].joins[ch]);
        } else {
          TracksStep(env, w, l, id, p, scopes, w.clients[id].joins[ch]);
        }
      } else {
        FreshTracks(env, w, l, id, ch, p, scopes);
      }
    }
  }

  lemma FreshTracks(env: Env, w: World, l: Label, id: ConnId, ch: Channel, p: nat, scopes: set<Scope>)
    requires Enabled(env, w, l) && l.Subscribe? && l.id == id && id in w.clients && Unlocked(w)
    ensures Tracks(Step(env, w, l), id, p, scopes, Join(|w.clients[id].log|, |w.tape|))
  {
    Histories(env, w, l, id);
    var log, news := w.clients[id].log, News(env, w, l, id);
    assert (log + news)[|log|..] == news;
    assert news[..0] == [];
    assert w.tape[|w.tape|..] == [];
  }
}
