/** The registry object (`src/registry.rs`) with the in-place updates of the source: every
    writer breaks the agreement between the two maps in one loop and repairs it in another. */
module RegistryObject {
  import opened Protocol
  import opened Delivery
  import opened Subscriptions

  /** The naive reading of "subscribers of `channel`": scan every connection. */
  function Scan(conns: map<ConnId, Connection>, channel: Channel): set<ConnId> {
    set id | id in conns && channel in conns[id].subscriptions
  }

  /** Under coupling the single index lookup finds exactly what the scan finds. */
  lemma LookupIsScan(conns: map<ConnId, Connection>, index: Index, channel: Channel)
    requires Coupled(conns, index)
    ensures channel in index ==> index[channel] == Scan(conns, channel)
    ensures channel !in index ==> Scan(conns, channel) == {}
  {
    forall id ensures Listed(index, id, channel) <==> id in Scan(conns, channel) {
      assert Listed(index, id, channel) <==> Holds(conns, id, channel);
    }
  }

  lemma AdmitNext(held: set<Channel>, channels: seq<Channel>, max: nat, i: nat)
    requires i < |channels|
    ensures Admit(held, channels[..i + 1], max) == AdmitOne(Admit(held, channels[..i], max), channels[i], max)
  {
    assert channels[..i + 1][..i] == channels[..i];
  }

  lemma EnlistOneMore(index: Index, id: ConnId, channels: seq<Channel>, n: nat)
    requires n < |channels|
    ensures EnlistAll(index, id, Names(channels[..n + 1])) ==
            Enlist(EnlistAll(index, id, Names(channels[..n])), id, channels[n])
  {
    var names := Names(channels[..n]);
    assert Names(channels[..n + 1]) == names + {channels[n]};
    var one := EnlistAll(index, id, names + {channels[n]});
    var two := Enlist(EnlistAll(index, id, names), id, channels[n]);
    assert one.Keys == two.Keys;
    assert forall ch :: ch in one ==> one[ch] == two[ch];
  }

  lemma DelistOneMore(index: Index, id: ConnId, names: set<Channel>, ch: Channel)
    requires forall c :: c in index ==> index[c] != {}
    ensures DelistAll(index, id, names + {ch}) == Delist(DelistAll(index, id, names), id, ch)
  {
    var one := DelistAll(index, id, names + {ch});
    var two := Delist(DelistAll(index, id, names), id, ch);
    assert ch in index && ch in names ==> index[ch] - {id} - {id} == index[ch] - {id};
    assert forall c :: c in one ==> c in two && one[c] == two[c];
    assert forall c :: c in two ==> c in one;
  }

  lemma EnlistNone(index: Index, id: ConnId)
    ensures EnlistAll(index, id, {}) == index
  {
    assert forall ch :: ch in index ==> index[ch] + {} == index[ch];
  }

  lemma DelistNone(index: Index, id: ConnId)
    ensures DelistAll(index, id, {}) == index
  {
  }

  class Registry {
    var connections: map<ConnId, Connection>
    var byChannel: Index
    var nextId: ConnId
    var connectionsActive: nat
    var connectionsTotal: nat
    var framesSent: nat
    var framesDropped: nat

    ghost predicate Valid()
      reads this
    {
      && Coupled(connections, byChannel)
      && (forall id :: id in connections ==> 1 <= id < nextId)
      && 1 <= nextId
      && connectionsActive == |connections|
      && connectionsTotal == nextId - 1
    }

    constructor ()
      ensures Valid() && connections == map[] && nextId == 1
      ensures framesSent == 0 && framesDropped == 0
    {
      connections, byChannel, nextId := map[], map[], 1;
      connectionsActive, connectionsTotal, framesSent, framesDropped := 0, 0, 0, 0;
    }

    method Add(subject: string, capacity: nat) returns (id: ConnId)
      requires Valid()
      modifies this
      ensures Valid()
      ensures id == old(nextId) && id !in old(connections) && nextId == old(nextId) + 1
      ensures connections == old(connections)[id := Connection(subject, {}, [], capacity, true, 0)]
      ensures byChannel == old(byChannel)
      ensures framesSent == old(framesSent) && framesDropped == old(framesDropped)
    {
      id := nextId;
      nextId := nextId + 1;
      var c := Connection(subject, {}, [], capacity, true, 0);
      InsertCouples(connections, byChannel, id, c);
      connections := connections[id := c];
      connectionsTotal := connectionsTotal + 1;
      connectionsActive := connectionsActive + 1;
    }

    method Remove(id: ConnId)
      requires Valid()
      modifies this
      ensures Valid()
      ensures connections == old(connections) - {id}
      ensures nextId == old(nextId)
      ensures framesSent == old(framesSent) && framesDropped == old(framesDropped)
    {
      if id in connections {
        RemoveCouples(connections, byChannel, id);
        var subscriptions := connections[id].subscriptions;
        connections := connections - {id};
        DelistSet(id, subscriptions);
        assert |old(connections)| == |connections| + 1 by {
          assert old(connections).Keys == connections.Keys + {id};
        }
        connectionsActive := connectionsActive - 1;
      } else {
        assert connections - {id} == connections;
      }
    }

    /** The loop of `remove` over what the connection held, in hash-set order. */
    method DelistSet(id: ConnId, names: set<Channel>)
      requires forall ch :: ch in byChannel ==> byChannel[ch] != {}
      modifies this`byChannel
      ensures byChannel == DelistAll(old(byChannel), id, names)
    {
      var todo, done := names, {};
      DelistNone(byChannel, id);
      while todo != {}
        invariant done + todo == names
        invariant byChannel == DelistAll(old(byChannel), id, done)
      {
        var ch :| ch in todo;
        DelistOneMore(old(byChannel), id, done, ch);
        Unlist(id, ch);
        todo, done := todo - {ch}, done + {ch};
      }
      assert done == names;
    }

    /** The repair step shared by `remove` and `unsubscribe`. */
    method Unlist(id: ConnId, ch: Channel)
      modifies this`byChannel
      ensures byChannel == Delist(old(byChannel), id, ch)
    {
      if ch in byChannel {
        var set' := byChannel[ch] - {id};
        if set' == {} {
          byChannel := byChannel - {ch};
        } else {
          byChannel := byChannel[ch := set'];
        }
      }
    }

    method Len() returns (n: nat)
      requires Valid()
      ensures n == |connections| == connectionsActive
    {
      n := |connections|;
    }

    method Subscribers(channel: Channel) returns (n: nat)
      requires Valid()
      ensures n == |Scan(connections, channel)|
    {
      LookupIsScan(connections, byChannel, channel);
      if channel in byChannel {
        n := |byChannel[channel]|;
      } else {
        n := 0;
      }
    }

    method Subscribe(id: ConnId, channels: seq<Channel>, max: nat)
      returns (added: seq<Channel>, overLimit: seq<Channel>)
      requires Valid()
      modifies this`connections, this`byChannel
      ensures Valid()
      ensures id !in old(connections) ==>
                added == [] && overLimit == [] && connections == old(connections)
      ensures id in old(connections) ==>
                var r := Admit(old(connections)[id].subscriptions, channels, max);
                && added == r.added && overLimit == r.overLimit
                && connections == old(connections)[id := old(connections)[id].(subscriptions := r.held)]
    {
      added, overLimit := [], [];
      if id !in connections {
        return;
      }
      ghost var held := connections[id].subscriptions;
      added, overLimit := AdmitInPlace(id, channels, max);
      AdmitGrows(held, channels, max);
      EnlistCouples(old(connections), byChannel, id, Names(added));
      EnlistInPlace(id, added);
      assert connections.Keys == old(connections).Keys;
    }

    /** First loop of `subscribe`: the connection's own set, with the limit. `conn` stands for the
        mutable borrow of the map entry and is written back when the loop ends. */
    method AdmitInPlace(id: ConnId, channels: seq<Channel>, max: nat)
      returns (added: seq<Channel>, overLimit: seq<Channel>)
      requires id in connections
      modifies this`connections
      ensures
        var r := Admit(old(connections)[id].subscriptions, channels, max);
        && added == r.added && overLimit == r.overLimit
        && connections == old(connections)[id := old(connections)[id].(subscriptions := r.held)]
    {
      added, overLimit := [], [];
      var conn := connections[id];
      ghost var held := conn.subscriptions;
      var i := 0;
      while i < |channels|
        invariant 0 <= i <= |channels|
        invariant connections == old(connections)
        invariant conn == old(connections)[id].(subscriptions := Admit(held, channels[..i], max).held)
        invariant added == Admit(held, channels[..i], max).added
        invariant overLimit == Admit(held, channels[..i], max).overLimit
      {
        var ch := channels[i];
        AdmitNext(held, channels, max, i);
        if ch in conn.subscriptions {
        } else if |conn.subscriptions| >= max {
          overLimit := overLimit + [ch];
        } else {
          conn := conn.(subscriptions := conn.subscriptions + {ch});
          added := added + [ch];
        }
        i := i + 1;
      }
      assert channels[..i] == channels;
      connections := connections[id := conn];
    }

    /** Second loop of `subscribe`: the index catches up. */
    method EnlistInPlace(id: ConnId, added: seq<Channel>)
      modifies this`byChannel
      ensures byChannel == EnlistAll(old(byChannel), id, Names(added))
    {
      EnlistNone(byChannel, id);
      var j := 0;
      while j < |added|
        invariant 0 <= j <= |added|
        invariant byChannel == EnlistAll(old(byChannel), id, Names(added[..j]))
      {
        EnlistOneMore(old(byChannel), id, added, j);
        byChannel := Enlist(byChannel, id, added[j]);
        j := j + 1;
      }
      assert added[..j] == added;
    }

    method Unsubscribe(id: ConnId, channels: seq<Channel>) returns (removed: seq<Channel>)
      requires Valid()
      modifies this`connections, this`byChannel
      ensures Valid()
      ensures id !in old(connections) ==> removed == [] && connections == old(connections)
      ensures id in old(connections) ==>
                var r := Withdraw(old(connections)[id].subscriptions, channels);
                && removed == r.removed
                && connections == old(connections)[id := old(connections)[id].(subscriptions := r.held)]
    {
      removed := [];
      if id !in connections {
        return;
      }
      ghost var held := connections[id].subscriptions;
      removed := WithdrawInPlace(id, channels);
      WithdrawMeaning(held, channels);
      DelistCouples(old(connections), byChannel, id, Names(removed));
      assert held - Names(removed) == held - Names(channels);
      DelistInPlace(id, removed);
      assert connections.Keys == old(connections).Keys;
    }

    /** First loop of `unsubscribe`. */
    method WithdrawInPlace(id: ConnId, channels: seq<Channel>) returns (removed: seq<Channel>)
      requires id in connections
      modifies this`connections
      ensures
        var r := Withdraw(old(connections)[id].subscriptions, channels);
        && removed == r.removed
        && connections == old(connections)[id := old(connections)[id].(subscriptions := r.held)]
    {
      removed := [];
      var conn := connections[id];
      ghost var held := conn.subscriptions;
      var i := 0;
      while i < |channels|
        invariant 0 <= i <= |channels|
        invariant connections == old(connections)
        invariant conn == old(connections)[id].(subscriptions := Withdraw(held, channels[..i]).held)
        invariant removed == Withdraw(held, channels[..i]).removed
      {
        var ch := channels[i];
        assert channels[..i + 1][..i] == channels[..i];
        if ch in conn.subscriptions {
          conn := conn.(subscriptions := conn.subscriptions - {ch});
          removed := removed + [ch];
        }
        i := i + 1;
      }
      assert channels[..i] == channels;
      connections := connections[id := conn];
    }

    /** Second loop of `unsubscribe`. */
    method DelistInPlace(id: ConnId, removed: seq<Channel>)
      requires forall ch :: ch in byChannel ==> byChannel[ch] != {}
      modifies this`byChannel
      ensures byChannel == DelistAll(old(byChannel), id, Names(removed))
    {
      DelistNone(byChannel, id);
      var j := 0;
      while j < |removed|
        invariant 0 <= j <= |removed|
        invariant byChannel == DelistAll(old(byChannel), id, Names(removed[..j]))
      {
        assert Names(removed[..j + 1]) == Names(removed[..j]) + {removed[j]};
        DelistOneMore(old(byChannel), id, Names(removed[..j]), removed[j]);
        Unlist(id, removed[j]);
        j := j + 1;
      }
      assert removed[..j] == removed;
    }

    /** One delivery to a registered connection, with its metrics. */
    method DeliverOne(id: ConnId, frame: Frame) returns (ok: bool)
      requires id in connections
      modifies this`connections, this`framesSent, this`framesDropped
      ensures ok <==> Deliver(old(connections)[id], frame).1 == Sent
      ensures connections == old(connections)[id := Deliver(old(connections)[id], frame).0]
      ensures framesSent == old(framesSent) + (if ok then 1 else 0)
      ensures framesDropped == old(framesDropped) +
                               (if Deliver(old(connections)[id], frame).1 == Full then 1 else 0)
    {
      var (conn, outcome) := Put(connections[id], frame);
      match outcome {
        case Sent =>
          framesSent := framesSent + 1;
          connections := connections[id := conn.(dropped := 0)];
          ok := true;
        case Full =>
          framesDropped := framesDropped + 1;
          connections := connections[id := conn.(dropped := conn.dropped + 1)];
          ok := false;
        case Closed =>
          ok := false;
          assert connections == connections[id := conn];
      }
    }

    /** The delivery loop of `publish` and `broadcast`, in whatever order the hash set yields. */
    method Fan(ids: set<ConnId>, frame: Frame) returns (delivered: nat)
      requires ids <= connections.Keys
      modifies this`connections, this`framesSent, this`framesDropped
      ensures connections == DeliverTo(old(connections), ids, frame)
      ensures delivered == |Reached(old(connections), ids, frame, Sent)|
      ensures framesSent == old(framesSent) + delivered
      ensures framesDropped == old(framesDropped) + |Reached(old(connections), ids, frame, Full)|
    {
      delivered := 0;
      var todo, done := ids, {};
      DeliverNone(connections, frame);
      while todo != {}
        invariant done + todo == ids && done !! todo
        invariant connections == DeliverTo(old(connections), done, frame)
        invariant delivered == |Reached(old(connections), done, frame, Sent)|
        invariant framesSent == old(framesSent) + delivered
        invariant framesDropped == old(framesDropped) + |Reached(old(connections), done, frame, Full)|
      {
        var id :| id in todo;
        ReachedOneMore(old(connections), done, id, frame, Sent);
        ReachedOneMore(old(connections), done, id, frame, Full);
        DeliverOneMore(old(connections), done, id, frame);
        var ok := DeliverOne(id, frame);
        if ok {
          delivered := delivered + 1;
        }
        todo, done := todo - {id}, done + {id};
      }
      assert done == ids;
    }

    /** `publish` is the naive scan: same queues, streaks, counters and count. */
    method Publish(channel: Channel, frame: Frame) returns (delivered: nat)
      requires Valid()
      modifies this`connections, this`framesSent, this`framesDropped
      ensures Valid()
      ensures connections == DeliverTo(old(connections), Scan(old(connections), channel), frame)
      ensures delivered == |Reached(old(connections), Scan(old(connections), channel), frame, Sent)|
      ensures framesSent == old(framesSent) + delivered
      ensures framesDropped == old(framesDropped) +
                               |Reached(old(connections), Scan(old(connections), channel), frame, Full)|
    {
      LookupIsScan(connections, byChannel, channel);
      DeliverNone(connections, frame);
      DeliverCouples(connections, byChannel, Scan(connections, channel), frame);
      if channel !in byChannel {
        return 0;
      }
      delivered := Fan(byChannel[channel], frame);
    }

    method Broadcast(frame: Frame) returns (delivered: nat)
      requires Valid()
      modifies this`connections, this`framesSent, this`framesDropped
      ensures Valid()
      ensures connections == DeliverTo(old(connections), old(connections).Keys, frame)
      ensures delivered == |Reached(old(connections), old(connections).Keys, frame, Sent)|
      ensures framesSent == old(framesSent) + delivered
      ensures framesDropped == old(framesDropped) +
                               |Reached(old(connections), old(connections).Keys, frame, Full)|
    {
      DeliverCouples(connections, byChannel, connections.Keys, frame);
      delivered := Fan(connections.Keys, frame);
    }

    method Send(id: ConnId, frame: Frame) returns (ok: bool)
      requires Valid()
      modifies this`connections, this`framesSent, this`framesDropped
      ensures Valid()
      ensures id !in old(connections) ==> !ok && connections == old(connections)
      ensures id in old(connections) ==>
                && (ok <==> Deliver(old(connections)[id], frame).1 == Sent)
                && connections == old(connections)[id := Deliver(old(connections)[id], frame).0]
      ensures framesSent == old(framesSent) + (if ok then 1 else 0)
      ensures framesDropped == old(framesDropped) +
                               if id in old(connections) && Deliver(old(connections)[id], frame).1 == Full then 1 else 0
    {
      ok := false;
      if id in connections {
        ok := DeliverOne(id, frame);
        SameHoldingsCouple(old(connections), connections, byChannel);
        assert connections.Keys == old(connections).Keys;
      }
    }

    /** `Server::resync`: the same frame published once per channel, duplicates included. */
    method Resync(channels: seq<Channel>) returns (n: nat)
      requires Valid()
      modifies this`connections, this`framesSent, this`framesDropped
      ensures Valid()
      ensures connections == ResyncEach(old(connections), channels, Frame.Resync(channels))
      ensures n == ResyncReached(old(connections), channels, Frame.Resync(channels), Sent)
      ensures framesSent == old(framesSent) + n
      ensures framesDropped == old(framesDropped) + ResyncReached(old(connections), channels, Frame.Resync(channels), Full)
    {
      n := 0;
      var frame := Frame.Resync(channels);
      var i := 0;
      while i < |channels|
        invariant 0 <= i <= |channels|
        invariant Valid()
        invariant connections == ResyncEach(old(connections), channels[..i], frame)
        invariant n == ResyncReached(old(connections), channels[..i], frame, Sent)
        invariant framesSent == old(framesSent) + n
        invariant framesDropped == old(framesDropped) + ResyncReached(old(connections), channels[..i], frame, Full)
      {
        var k := Publish(channels[i], frame);
        n := n + k;
        assert channels[..i + 1][..i] == channels[..i];
        i := i + 1;
      }
      assert channels[..i] == channels;
    }
  }

  function ResyncEach(conns: map<ConnId, Connection>, channels: seq<Channel>, frame: Frame): map<ConnId, Connection> {
    if channels == [] then conns
    else
      var before := ResyncEach(conns, channels[..|channels| - 1], frame);
      DeliverTo(before, Scan(before, channels[|channels| - 1]), frame)
  }

  /** Deliveries of a scoped resync that end with `outcome`, over all its channels. */
  function ResyncReached(conns: map<ConnId, Connection>, channels: seq<Channel>, frame: Frame, outcome: Outcome): nat {
    if channels == [] then 0
    else
      var before := ResyncEach(conns, channels[..|channels| - 1], frame);
      ResyncReached(conns, channels[..|channels| - 1], frame, outcome) +
      |Reached(before, Scan(before, channels[|channels| - 1]), frame, outcome)|
  }

  function Mentions(c: Connection, channels: seq<Channel>): nat {
    if channels == [] then 0
    else Mentions(c, channels[..|channels| - 1]) + (if channels[|channels| - 1] in c.subscriptions then 1 else 0)
  }

  function Copies(frame: Frame, n: nat): (r: seq<Frame>)
    ensures |r| == n
  {
    seq(n, _ => frame)
  }

  /** A scoped resync reaches a connection once for every named channel it holds. */
  lemma {:induction false} ResyncReachesEachHolder(conns: map<ConnId, Connection>, channels: seq<Channel>, frame: Frame, id: ConnId)
    requires id in conns
    ensures id in ResyncEach(conns, channels, frame)
    ensures ResyncEach(conns, channels, frame)[id] == DeliverEach(conns[id], Copies(frame, Mentions(conns[id], channels)))
  {
    if channels != [] {
      var n := |channels| - 1;
      ResyncReachesEachHolder(conns, channels[..n], frame, id);
      var m := Mentions(conns[id], channels[..n]);
      DeliverEachIsPrefix(conns[id], Copies(frame, m));
      assert Copies(frame, m + 1)[..m] == Copies(frame, m);
    }
  }

  lemma DeliverNone(conns: map<ConnId, Connection>, frame: Frame)
    ensures DeliverTo(conns, {}, frame) == conns
    ensures forall outcome :: Reached(conns, {}, frame, outcome) == {}
  {
  }

  lemma DeliverCouples(conns: map<ConnId, Connection>, index: Index, who: set<ConnId>, frame: Frame)
    requires Coupled(conns, index)
    ensures Coupled(DeliverTo(conns, who, frame), index)
    ensures |DeliverTo(conns, who, frame)| == |conns|
  {
    SameHoldingsCouple(conns, DeliverTo(conns, who, frame), index);
    assert DeliverTo(conns, who, frame).Keys == conns.Keys;
  }

  lemma DeliverOneMore(conns: map<ConnId, Connection>, done: set<ConnId>, id: ConnId, frame: Frame)
    requires id in conns && id !in done
    ensures id in DeliverTo(conns, done, frame) && DeliverTo(conns, done, frame)[id] == conns[id]
    ensures DeliverTo(conns, done + {id}, frame) ==
            DeliverTo(conns, done, frame)[id := Deliver(conns[id], frame).0]
  {
  }

  lemma ReachedOneMore(conns: map<ConnId, Connection>, done: set<ConnId>, id: ConnId, frame: Frame, outcome: Outcome)
    requires id in conns && id !in done
    ensures |Reached(conns, done + {id}, frame, outcome)| ==
            |Reached(conns, done, frame, outcome)| + (if Deliver(conns[id], frame).1 == outcome then 1 else 0)
  {
    var now := Reached(conns, done, frame, outcome);
    var next := Reached(conns, done + {id}, frame, outcome);
    forall x | x != id ensures x in next <==> x in now {
    }
    OneMore(now, next, id);
  }

  lemma OneMore(now: set<ConnId>, next: set<ConnId>, id: ConnId)
    requires id !in now && forall x :: x != id ==> (x in next <==> x in now)
    ensures |next| == |now| + if id in next then 1 else 0
  {
    if id in next {
      assert next == now + {id};
    } else {
      assert next == now;
    }
  }
}
