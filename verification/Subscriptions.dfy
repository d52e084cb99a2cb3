/** The subscription arithmetic of the registry: what one `subscribe` or `unsubscribe` does
    to the set a connection holds, and the relation between those sets and the index. */
module Subscriptions {
  import opened Protocol
  import opened Delivery

  datatype Admitted = Admitted(held: set<Channel>, added: seq<Channel>, overLimit: seq<Channel>)
  datatype Withdrawn = Withdrawn(held: set<Channel>, removed: seq<Channel>)

  /** The first loop of `Registry::subscribe`, request by request. */
  function Admit(held: set<Channel>, channels: seq<Channel>, max: nat): Admitted {
    if channels == [] then Admitted(held, [], [])
    else
      AdmitOne(Admit(held, channels[..|channels| - 1], max), channels[|channels| - 1], max)
  }

  function AdmitOne(before: Admitted, ch: Channel, max: nat): Admitted {
    if ch in before.held then before
    else if |before.held| >= max then before.(overLimit := before.overLimit + [ch])
    else before.(held := before.held + {ch}, added := before.added + [ch])
  }

  /** The first loop of `Registry::unsubscribe`. */
  function Withdraw(held: set<Channel>, channels: seq<Channel>): Withdrawn {
    if channels == [] then Withdrawn(held, [])
    else
      var before := Withdraw(held, channels[..|channels| - 1]);
      var ch := channels[|channels| - 1];
      if ch in before.held then Withdrawn(before.held - {ch}, before.removed + [ch]) else before
  }

  function Names(channels: seq<Channel>): set<Channel> {
    set ch | ch in channels
  }

  predicate Distinct(channels: seq<Channel>) {
    forall i, j :: 0 <= i < j < |channels| ==> channels[i] != channels[j]
  }

  /** The names of a request that are not held yet, each once, in order of first mention. */
  function NewNames(held: set<Channel>, channels: seq<Channel>): seq<Channel> {
    if channels == [] then []
    else
      var before := NewNames(held, channels[..|channels| - 1]);
      var ch := channels[|channels| - 1];
      if ch in held || ch in before then before else before + [ch]
  }

  function Without(channels: seq<Channel>, names: set<Channel>): seq<Channel> {
    if channels == [] then []
    else
      Without(channels[..|channels| - 1], names) +
      if channels[|channels| - 1] in names then [] else [channels[|channels| - 1]]
  }

  /** How many further names fit under `max`. */
  function Slack(held: set<Channel>, max: nat): nat {
    if |held| < max then max - |held| else 0
  }

  lemma {:induction false} NewNamesMeaning(held: set<Channel>, channels: seq<Channel>)
    ensures Distinct(NewNames(held, channels))
    ensures forall ch :: ch in NewNames(held, channels) <==> ch in channels && ch !in held
  {
    if channels != [] {
      var n := |channels| - 1;
      NewNamesMeaning(held, channels[..n]);
      assert channels == channels[..n] + [channels[n]];
    }
  }

  lemma {:induction false} WithoutGrows(channels: seq<Channel>, names: set<Channel>, ch: Channel)
    requires ch !in channels
    ensures Without(channels, names + {ch}) == Without(channels, names)
  {
    if channels != [] {
      WithoutGrows(channels[..|channels| - 1], names, ch);
    }
  }

  /** What one request does to the set held: it grows by `added`, which is new and distinct. */
  lemma {:induction false} AdmitGrows(held: set<Channel>, channels: seq<Channel>, max: nat)
    ensures
      var r := Admit(held, channels, max);
      && r.held == held + Names(r.added)
      && |r.held| == |held| + |r.added|
      && held !! Names(r.added)
      && Names(r.added) <= Names(channels)
  {
    if channels != [] {
      var n := |channels| - 1;
      AdmitGrows(held, channels[..n], max);
      var r0 := Admit(held, channels[..n], max);
      var r := Admit(held, channels, max);
      assert Names(channels) == Names(channels[..n]) + {channels[n]};
      if r.added != r0.added {
        assert Names(r.added) == Names(r0.added) + {channels[n]};
      }
    }
  }

  /** Below the limit nothing was refused; a refusal means the limit is reached for good. */
  lemma {:induction false} AdmitRefusesAtLimit(held: set<Channel>, channels: seq<Channel>, max: nat)
    ensures
      var r := Admit(held, channels, max);
      |r.held| < max ==> r.overLimit == [] && Names(channels) <= r.held
  {
    if channels != [] {
      var n := |channels| - 1;
      AdmitRefusesAtLimit(held, channels[..n], max);
      assert Names(channels) == Names(channels[..n]) + {channels[n]};
    }
  }

  /** The refused names are exactly the mentions of names not held afterwards. */
  lemma {:induction false} AdmitRefusesTheRest(held: set<Channel>, channels: seq<Channel>, max: nat)
    ensures var r := Admit(held, channels, max); r.overLimit == Without(channels, r.held)
  {
    if channels != [] {
      var n := |channels| - 1;
      var r0 := Admit(held, channels[..n], max);
      AdmitRefusesTheRest(held, channels[..n], max);
      if channels[n] !in r0.held && |r0.held| < max {
        AdmitRefusesAtLimit(held, channels[..n], max);
        assert channels[n] !in Names(channels[..n]);
        WithoutGrows(channels[..n], r0.held, channels[n]);
      }
    }
  }

  function Fitting(news: seq<Channel>, slack: nat): seq<Channel> {
    if |news| <= slack then news else news[..slack]
  }

  /** The limit is greedy: `added` is the longest prefix of the distinct new names that fits. */
  lemma {:induction false} AdmitIsGreedy(held: set<Channel>, channels: seq<Channel>, max: nat)
    ensures Admit(held, channels, max).added == Fitting(NewNames(held, channels), Slack(held, max))
  {
    if channels != [] {
      var n := |channels| - 1;
      AdmitIsGreedy(held, channels[..n], max);
      AdmitGrows(held, channels[..n], max);
      AdmitRefusesAtLimit(held, channels[..n], max);
      NewNamesMeaning(held, channels[..n]);
      var r0 := Admit(held, channels[..n], max);
      var news := NewNames(held, channels[..n]);
      assert channels[n] in r0.added <==> channels[n] in Names(r0.added);
      if |r0.held| < max {
        assert |news| < Slack(held, max) && r0.added == news;
      } else {
        assert |news| >= Slack(held, max);
      }
    }
  }

  /** Every mention of a name is accounted for: a name held afterwards is never refused and is
      added once if it was new; a name not held afterwards is refused at every mention. */
  lemma AdmitAccounts(held: set<Channel>, channels: seq<Channel>, max: nat, ch: Channel)
    ensures
      var r := Admit(held, channels, max);
      && held <= r.held <= held + Names(channels)
      && multiset(r.added)[ch] == (if ch in r.held && ch !in held then 1 else 0)
      && multiset(r.overLimit)[ch] == (if ch in r.held then 0 else multiset(channels)[ch])
  {
    var r := Admit(held, channels, max);
    AdmitGrows(held, channels, max);
    AdmitIsGreedy(held, channels, max);
    NewNamesMeaning(held, channels);
    CountDistinct(r.added, ch);
    AdmitRefusesTheRest(held, channels, max);
    CountWithout(channels, r.held, ch);
  }

  lemma {:induction false} CountDistinct(channels: seq<Channel>, ch: Channel)
    requires Distinct(channels)
    ensures multiset(channels)[ch] == (if ch in Names(channels) then 1 else 0)
  {
    if channels != [] {
      var n := |channels| - 1;
      CountDistinct(channels[..n], ch);
      assert channels == channels[..n] + [channels[n]];
    }
  }

  lemma {:induction false} CountWithout(channels: seq<Channel>, names: set<Channel>, ch: Channel)
    ensures multiset(Without(channels, names))[ch] == (if ch in names then 0 else multiset(channels)[ch])
  {
    if channels != [] {
      var n := |channels| - 1;
      CountWithout(channels[..n], names, ch);
      assert channels == channels[..n] + [channels[n]];
    }
  }

  /** Two requests in a row are one concatenated request. */
  lemma {:induction false} AdmitBatches(held: set<Channel>, xs: seq<Channel>, ys: seq<Channel>, max: nat)
    ensures
      var first := Admit(held, xs, max);
      Admit(held, xs + ys, max) == Combine(first, Admit(first.held, ys, max))
  {
    var first := Admit(held, xs, max);
    if ys == [] {
      assert xs + ys == xs;
      assert Combine(first, Admitted(first.held, [], [])) == first;
    } else {
      var n := |ys| - 1;
      AdmitBatches(held, xs, ys[..n], max);
      assert (xs + ys)[..|xs + ys| - 1] == xs + ys[..n];
      CombineOne(first, Admit(first.held, ys[..n], max), ys[n], max);
    }
  }

  /** The answers to two requests, concatenated. */
  function Combine(first: Admitted, second: Admitted): Admitted {
    Admitted(second.held, first.added + second.added, first.overLimit + second.overLimit)
  }

  lemma CombineOne(first: Admitted, second: Admitted, ch: Channel, max: nat)
    ensures AdmitOne(Combine(first, second), ch, max) == Combine(first, AdmitOne(second, ch, max))
  {
  }

  /** `unsubscribe` removes exactly the requested names that were held, each reported once. */
  lemma {:induction false} WithdrawMeaning(held: set<Channel>, channels: seq<Channel>)
    ensures
      var r := Withdraw(held, channels);
      && r.held == held - Names(channels)
      && Names(r.removed) == held * Names(channels)
      && Distinct(r.removed)
  {
    if channels != [] {
      var n := |channels| - 1;
      WithdrawMeaning(held, channels[..n]);
      assert channels == channels[..n] + [channels[n]];
      var r0 := Withdraw(held, channels[..n]);
      assert Names(channels) == Names(channels[..n]) + {channels[n]};
      assert Names(r0.removed + [channels[n]]) == Names(r0.removed) + {channels[n]};
      assert forall ch :: ch in r0.removed ==> ch in Names(r0.removed);
    }
  }

  lemma {:induction false} WithdrawAllHeld(held: set<Channel>, channels: seq<Channel>)
    requires Distinct(channels)
    requires Names(channels) <= held
    ensures Withdraw(held, channels).removed == channels
  {
    if channels != [] {
      var n := |channels| - 1;
      assert channels == channels[..n] + [channels[n]];
      WithdrawAllHeld(held, channels[..n]);
      WithdrawMeaning(held, channels[..n]);
      assert channels[n] in Names(channels);
      assert channels[n] !in Names(channels[..n]);
    }
  }

  /** Two unsubscribes in a row are one with the names concatenated and the results concatenated, so the
      removed names are listed in order of first mention. */
  lemma {:induction false} WithdrawBatches(held: set<Channel>, xs: seq<Channel>, ys: seq<Channel>)
    ensures
      var first := Withdraw(held, xs);
      var second := Withdraw(first.held, ys);
      Withdraw(held, xs + ys) == Withdrawn(second.held, first.removed + second.removed)
  {
    var first := Withdraw(held, xs);
    if ys == [] {
      assert xs + ys == xs;
      assert first.removed + [] == first.removed;
    } else {
      var n := |ys| - 1;
      WithdrawBatches(held, xs, ys[..n]);
      assert (xs + ys)[..|xs + ys| - 1] == xs + ys[..n];
      var second := Withdraw(first.held, ys[..n]);
      assert first.removed + (second.removed + [ys[n]]) == first.removed + second.removed + [ys[n]];
    }
  }

  /** Unsubscribing exactly what a subscribe added undoes it. */
  lemma WithdrawUndoesAdmit(held: set<Channel>, channels: seq<Channel>, max: nat)
    ensures
      var r := Admit(held, channels, max);
      Withdraw(r.held, r.added) == Withdrawn(held, r.added)
  {
    var r := Admit(held, channels, max);
    AdmitGrows(held, channels, max);
    AdmitIsGreedy(held, channels, max);
    NewNamesMeaning(held, channels);
    WithdrawMeaning(r.held, r.added);
    WithdrawAllHeld(r.held, r.added);
    assert held !! Names(r.added);
    assert r.held - Names(r.added) == held;
  }

  // ---- The index -----------------------------------------------------------------------

  type Index = map<Channel, set<ConnId>>

  predicate Holds(conns: map<ConnId, Connection>, id: ConnId, ch: Channel) {
    id in conns && ch in conns[id].subscriptions
  }

  predicate Listed(index: Index, id: ConnId, ch: Channel) {
    ch in index && id in index[ch]
  }

  /** Whom the index lists under `ch`. */
  function Holders(index: Index, ch: Channel): set<ConnId> {
    if ch in index then index[ch] else {}
  }

  /** The index and the connections describe one relation, and no empty set is kept. */
  ghost predicate Coupled(conns: map<ConnId, Connection>, index: Index) {
    && (forall ch, id :: Listed(index, id, ch) <==> Holds(conns, id, ch))
    && (forall ch :: ch in index ==> index[ch] != {})
  }

  /** So the index is determined by the connections. */
  lemma CoupledIsUnique(conns: map<ConnId, Connection>, i: Index, j: Index)
    requires Coupled(conns, i) && Coupled(conns, j)
    ensures i == j
  {
    forall ch
      ensures ch in i <==> ch in j
      ensures ch in i && ch in j ==> i[ch] == j[ch]
    {
      if ch in i {
        var id :| id in i[ch];
        assert Listed(i, id, ch) && Listed(j, id, ch);
      }
      if ch in j {
        var id :| id in j[ch];
        assert Listed(j, id, ch) && Listed(i, id, ch);
      }
      if ch in i && ch in j {
        forall id ensures id in i[ch] <==> id in j[ch] {
          assert Listed(i, id, ch) <==> Holds(conns, id, ch);
          assert Listed(j, id, ch) <==> Holds(conns, id, ch);
        }
      }
    }
  }

  /** `by_channel.entry(ch).or_default().insert(id)`. */
  function Enlist(index: Index, id: ConnId, ch: Channel): Index {
    index[ch := Holders(index, ch) + {id}]
  }

  /** Remove `id` under `ch`, and `ch` itself once nobody is left. */
  function Delist(index: Index, id: ConnId, ch: Channel): Index {
    if ch !in index then index
    else if index[ch] - {id} == {} then index - {ch}
    else index[ch := index[ch] - {id}]
  }

  /** The index after enlisting or delisting `id` under each of `names`. */
  function EnlistAll(index: Index, id: ConnId, names: set<Channel>): Index {
    map ch | ch in index.Keys + names ::
      Holders(index, ch) + if ch in names then {id} else {}
  }

  function DelistAll(index: Index, id: ConnId, names: set<Channel>): Index {
    map ch | ch in index && (ch in names ==> index[ch] - {id} != {}) ::
      if ch in names then index[ch] - {id} else index[ch]
  }

  lemma EnlistCouples(conns: map<ConnId, Connection>, index: Index, id: ConnId, names: set<Channel>)
    requires Coupled(conns, index) && id in conns
    ensures Coupled(conns[id := conns[id].(subscriptions := conns[id].subscriptions + names)],
                    EnlistAll(index, id, names))
  {
    var conns' := conns[id := conns[id].(subscriptions := conns[id].subscriptions + names)];
    var index' := EnlistAll(index, id, names);
    forall ch, i ensures Listed(index', i, ch) <==> Holds(conns', i, ch) {
      assert Listed(index, i, ch) <==> Holds(conns, i, ch);
    }
  }

  lemma DelistCouples(conns: map<ConnId, Connection>, index: Index, id: ConnId, names: set<Channel>)
    requires Coupled(conns, index) && id in conns
    ensures Coupled(conns[id := conns[id].(subscriptions := conns[id].subscriptions - names)],
                    DelistAll(index, id, names))
  {
    var conns' := conns[id := conns[id].(subscriptions := conns[id].subscriptions - names)];
    var index' := DelistAll(index, id, names);
    forall ch, i ensures Listed(index', i, ch) <==> Holds(conns', i, ch) {
      assert Listed(index, i, ch) <==> Holds(conns, i, ch);
      if Listed(index, i, ch) && i != id {
        assert i in index[ch] - {id};
      }
    }
  }

  /** Dropping a whole connection delists it under everything it held. */
  lemma RemoveCouples(conns: map<ConnId, Connection>, index: Index, id: ConnId)
    requires Coupled(conns, index) && id in conns
    ensures Coupled(conns - {id}, DelistAll(index, id, conns[id].subscriptions))
  {
    var index' := DelistAll(index, id, conns[id].subscriptions);
    forall ch, i ensures Listed(index', i, ch) <==> Holds(conns - {id}, i, ch) {
      assert Listed(index, i, ch) <==> Holds(conns, i, ch);
      assert Listed(index, id, ch) <==> Holds(conns, id, ch);
    }
  }

  /** Adding a connection that holds nothing leaves the index right. */
  lemma InsertCouples(conns: map<ConnId, Connection>, index: Index, id: ConnId, c: Connection)
    requires Coupled(conns, index) && id !in conns && c.subscriptions == {}
    ensures Coupled(conns[id := c], index)
  {
    forall ch, i ensures Listed(index, i, ch) <==> Holds(conns[id := c], i, ch) {
      assert Listed(index, i, ch) <==> Holds(conns, i, ch);
    }
  }

  /** Any change that leaves the subscription sets alone leaves the index right. */
  lemma SameHoldingsCouple(conns: map<ConnId, Connection>, conns': map<ConnId, Connection>, index: Index)
    requires Coupled(conns, index)
    requires conns'.Keys == conns.Keys
    requires forall id :: id in conns ==> conns'[id].subscriptions == conns[id].subscriptions
    ensures Coupled(conns', index)
  {
    forall ch, i ensures Listed(index, i, ch) <==> Holds(conns', i, ch) {
      assert Listed(index, i, ch) <==> Holds(conns, i, ch);
    }
  }

  /** Unsubscribing exactly what a subscribe added restores both maps. */
  lemma UnsubscribeRestores(conns: map<ConnId, Connection>, index: Index, id: ConnId, channels: seq<Channel>, max: nat)
    requires Coupled(conns, index) && id in conns
    ensures
      var r := Admit(conns[id].subscriptions, channels, max);
      var joined := conns[id := conns[id].(subscriptions := r.held)];
      var u := Withdraw(r.held, r.added);
      && joined[id := joined[id].(subscriptions := u.held)] == conns
      && DelistAll(EnlistAll(index, id, Names(r.added)), id, Names(u.removed)) == index
  {
    var held := conns[id].subscriptions;
    AdmitGrows(held, channels, max);
    WithdrawUndoesAdmit(held, channels, max);
    DelistUndoesEnlist(conns, index, id, Names(Admit(held, channels, max).added));
    PutBack(conns, id, Admit(held, channels, max).held);
  }

  lemma PutBack(conns: map<ConnId, Connection>, id: ConnId, names: set<Channel>)
    requires id in conns
    ensures
      var changed := conns[id := conns[id].(subscriptions := names)];
      changed[id := changed[id].(subscriptions := conns[id].subscriptions)] == conns
  {
    var changed := conns[id := conns[id].(subscriptions := names)];
    assert changed[id].(subscriptions := conns[id].subscriptions) == conns[id];
  }

  lemma DelistUndoesEnlist(conns: map<ConnId, Connection>, index: Index, id: ConnId, names: set<Channel>)
    requires Coupled(conns, index) && id in conns && conns[id].subscriptions !! names
    ensures DelistAll(EnlistAll(index, id, names), id, names) == index
  {
    var joined := conns[id := conns[id].(subscriptions := conns[id].subscriptions + names)];
    EnlistCouples(conns, index, id, names);
    DelistCouples(joined, EnlistAll(index, id, names), id, names);
    assert conns[id].subscriptions + names - names == conns[id].subscriptions;
    assert joined[id := joined[id].(subscriptions := joined[id].subscriptions - names)] == conns;
    CoupledIsUnique(conns, index, DelistAll(EnlistAll(index, id, names), id, names));
  }
}
