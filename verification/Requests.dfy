/** What one client request amounts to (`handle` in `src/server.rs`): the three-way split of a
    `subscribe`, its acknowledgement and its snapshots. */
module Requests {
  import opened Protocol
  import opened Subscriptions

  /** One half of `Iterator::partition`. */
  function Keep(channels: seq<Channel>, want: Channel -> bool): seq<Channel> {
    if channels == [] then []
    else
      Keep(channels[..|channels| - 1], want) +
      if want(channels[|channels| - 1]) then [channels[|channels| - 1]] else []
  }

  function Tag(channels: seq<Channel>, reason: Reason): (r: seq<Rejected>)
    ensures |r| == |channels|
  {
    seq(|channels|, i requires 0 <= i < |channels| => Rejected(channels[i], reason))
  }

  function Short(env: Env): Channel -> bool {
    ch => |ch| <= env.config.maxChannelLen
  }

  function Long(env: Env): Channel -> bool {
    ch => !(|ch| <= env.config.maxChannelLen)
  }

  function Allowed(env: Env, claims: Claims): Channel -> bool {
    ch => env.may(claims, ch)
  }

  function Denied(env: Env, claims: Claims): Channel -> bool {
    ch => !env.may(claims, ch)
  }

  datatype Verdict = Verdict(held: set<Channel>, added: seq<Channel>, rejected: seq<Rejected>)

  /** The whole decision on `subscribe` for a connection that holds `held`. */
  function Judge(env: Env, claims: Claims, held: set<Channel>, channels: seq<Channel>): Verdict {
    var sized := Keep(channels, Short(env));
    var r := Admit(held, Keep(sized, Allowed(env, claims)), env.config.maxSubscriptions);
    Verdict(r.held, r.added,
            Tag(Keep(channels, Long(env)), Invalid) +
            Tag(Keep(sized, Denied(env, claims)), Unauthorized) +
            Tag(r.overLimit, Limit))
  }

  /** Why a name is turned down, given what is held once the request is done: the length is
      judged before the authorizer, and the authorizer before the limit. */
  function Fate(env: Env, claims: Claims, held: set<Channel>, ch: Channel): Option<Reason> {
    if |ch| > env.config.maxChannelLen then Some(Invalid)
    else if !env.may(claims, ch) then Some(Unauthorized)
    else if ch !in held then Some(Limit)
    else None
  }

  /** What every subscription set must look like under a fixed authorizer. */
  ghost predicate Lawful(env: Env, claims: Claims, held: set<Channel>) {
    && |held| <= env.config.maxSubscriptions
    && forall ch :: ch in held ==> |ch| <= env.config.maxChannelLen && env.may(claims, ch)
  }

  lemma {:induction false} CountKept(channels: seq<Channel>, want: Channel -> bool, ch: Channel)
    ensures multiset(Keep(channels, want))[ch] == (if want(ch) then multiset(channels)[ch] else 0)
    ensures ch in Keep(channels, want) <==> ch in channels && want(ch)
  {
    if channels != [] {
      var n := |channels| - 1;
      CountKept(channels[..n], want, ch);
      assert channels == channels[..n] + [channels[n]];
    }
  }

  lemma {:induction false} CountTagged(channels: seq<Channel>, reason: Reason, x: Rejected)
    ensures multiset(Tag(channels, reason))[x] == (if x.reason == reason then multiset(channels)[x.channel] else 0)
  {
    if channels != [] {
      var n := |channels| - 1;
      CountTagged(channels[..n], reason, x);
      assert channels == channels[..n] + [channels[n]];
      assert Tag(channels, reason) == Tag(channels[..n], reason) + [Rejected(channels[n], reason)];
    }
  }

  lemma CountRejected(a: seq<Rejected>, b: seq<Rejected>, c: seq<Rejected>, x: Rejected)
    ensures multiset(a + b + c)[x] == multiset(a)[x] + multiset(b)[x] + multiset(c)[x]
  {
    assert multiset(a + b + c) == multiset(a + b) + multiset(c);
  }

  /** Every mention of every name is answered for, exactly once and with the right reason: a
      name with a fate is rejected at each mention for that reason and no other, a name without
      one is never rejected and is added once if it was new. */
  lemma JudgeAccounts(env: Env, claims: Claims, held: set<Channel>, channels: seq<Channel>, ch: Channel, why: Reason)
    ensures
      var v := Judge(env, claims, held, channels);
      var fate := Fate(env, claims, v.held, ch);
      && multiset(v.rejected)[Rejected(ch, why)] == (if fate == Some(why) then multiset(channels)[ch] else 0)
      && multiset(v.added)[ch] == (if fate == None && ch !in held then 1 else 0)
      && (fate == None && ch !in held ==> ch in channels)
  {
    var sized := Keep(channels, Short(env));
    var asked := Keep(sized, Allowed(env, claims));
    var r := Admit(held, asked, env.config.maxSubscriptions);
    CountKept(channels, Short(env), ch);
    CountKept(channels, Long(env), ch);
    CountKept(sized, Allowed(env, claims), ch);
    CountKept(sized, Denied(env, claims), ch);
    AdmitAccounts(held, asked, env.config.maxSubscriptions, ch);
    CountTagged(Keep(channels, Long(env)), Invalid, Rejected(ch, why));
    CountTagged(Keep(sized, Denied(env, claims)), Unauthorized, Rejected(ch, why));
    CountTagged(r.overLimit, Limit, Rejected(ch, why));
    CountRejected(Tag(Keep(channels, Long(env)), Invalid), Tag(Keep(sized, Denied(env, claims)), Unauthorized),
                  Tag(r.overLimit, Limit), Rejected(ch, why));
    assert ch in Names(asked) <==> ch in asked;
  }

  /** Partitioning keeps the order of the request. */
  lemma {:induction false} KeepAppend(xs: seq<Channel>, ys: seq<Channel>, want: Channel -> bool)
    ensures Keep(xs + ys, want) == Keep(xs, want) + Keep(ys, want)
  {
    if ys == [] {
      assert xs + ys == xs;
    } else {
      var n := |ys| - 1;
      KeepAppend(xs, ys[..n], want);
      assert (xs + ys)[..|xs + ys| - 1] == xs + ys[..n];
    }
  }

  /** The rejections are listed by reason: first length, then authority, then the limit. */
  lemma RejectedInOrder(env: Env, claims: Claims, held: set<Channel>, channels: seq<Channel>, i: nat, j: nat)
    requires i < j < |Judge(env, claims, held, channels).rejected|
    ensures
      var rejected := Judge(env, claims, held, channels).rejected;
      && (rejected[j].reason == Invalid ==> rejected[i].reason == Invalid)
      && (rejected[i].reason == Limit ==> rejected[j].reason == Limit)
  {
  }

  /** The names rejected for one reason, in the order of the list. */
  function ForReason(rejected: seq<Rejected>, why: Reason): seq<Channel> {
    if rejected == [] then []
    else
      var x := rejected[|rejected| - 1];
      ForReason(rejected[..|rejected| - 1], why) + if x.reason == why then [x.channel] else []
  }

  lemma {:induction false} ForReasonAppend(a: seq<Rejected>, b: seq<Rejected>, why: Reason)
    ensures ForReason(a + b, why) == ForReason(a, why) + ForReason(b, why)
  {
    if b == [] {
      assert a + b == a;
    } else {
      ForReasonAppend(a, b[..|b| - 1], why);
      assert (a + b)[..|a + b| - 1] == a + b[..|b| - 1];
    }
  }

  lemma {:induction false} ForReasonTagged(channels: seq<Channel>, reason: Reason, why: Reason)
    ensures ForReason(Tag(channels, reason), why) == if reason == why then channels else []
  {
    if channels != [] {
      var n := |channels| - 1;
      ForReasonTagged(channels[..n], reason, why);
      assert Tag(channels, reason)[..n] == Tag(channels[..n], reason);
    }
  }

  lemma {:induction false} KeepTwice(channels: seq<Channel>, a: Channel -> bool, b: Channel -> bool, both: Channel -> bool)
    requires forall ch :: both(ch) <==> a(ch) && b(ch)
    ensures Keep(Keep(channels, a), b) == Keep(channels, both)
  {
    if channels != [] {
      var n := |channels| - 1;
      KeepTwice(channels[..n], a, b, both);
      if a(channels[n]) {
        assert Keep(channels, a)[..|Keep(channels, a)| - 1] == Keep(channels[..n], a);
      } else {
        assert Keep(channels, a) == Keep(channels[..n], a);
      }
    }
  }

  lemma {:induction false} WithoutIsKeep(channels: seq<Channel>, names: set<Channel>, others: Channel -> bool)
    requires forall ch :: others(ch) <==> ch !in names
    ensures Without(channels, names) == Keep(channels, others)
  {
    if channels != [] {
      WithoutIsKeep(channels[..|channels| - 1], names, others);
    }
  }

  lemma {:induction false} KeepSame(channels: seq<Channel>, a: Channel -> bool, b: Channel -> bool)
    requires forall ch :: a(ch) <==> b(ch)
    ensures Keep(channels, a) == Keep(channels, b)
  {
    if channels != [] {
      KeepSame(channels[..|channels| - 1], a, b);
    }
  }

  /** The names listed with a reason are exactly the mentions in the request whose fate it is, in the
      order of the request. With `RejectedInOrder` this is the whole list. */
  lemma RejectedKeepsOrder(env: Env, claims: Claims, held: set<Channel>, channels: seq<Channel>, why: Reason)
    ensures
      var v := Judge(env, claims, held, channels);
      ForReason(v.rejected, why) == Keep(channels, ch => Fate(env, claims, v.held, ch) == Some(why))
  {
    var sized := Keep(channels, Short(env));
    var r := Admit(held, Keep(sized, Allowed(env, claims)), env.config.maxSubscriptions);
    ForReasonOfThree(Keep(channels, Long(env)), Keep(sized, Denied(env, claims)), r.overLimit, why);
    FateOf(env, claims, held, channels, why);
  }

  lemma ForReasonThrice(a: seq<Rejected>, b: seq<Rejected>, c: seq<Rejected>, why: Reason)
    ensures ForReason(a + b + c, why) == ForReason(a, why) + ForReason(b, why) + ForReason(c, why)
  {
    ForReasonAppend(a + b, c, why);
    ForReasonAppend(a, b, why);
  }

  lemma ForReasonOfThree(long: seq<Channel>, denied: seq<Channel>, over: seq<Channel>, why: Reason)
    ensures ForReason(Tag(long, Invalid) + Tag(denied, Unauthorized) + Tag(over, Limit), why) ==
            match why case Invalid => long case Unauthorized => denied case Limit => over
  {
    ForReasonThrice(Tag(long, Invalid), Tag(denied, Unauthorized), Tag(over, Limit), why);
    ForReasonTagged(long, Invalid, why);
    ForReasonTagged(denied, Unauthorized, why);
    ForReasonTagged(over, Limit, why);
  }

  lemma FateOf(env: Env, claims: Claims, held: set<Channel>, channels: seq<Channel>, why: Reason)
    ensures
      var v := Judge(env, claims, held, channels);
      var sized := Keep(channels, Short(env));
      var r := Admit(held, Keep(sized, Allowed(env, claims)), env.config.maxSubscriptions);
      Keep(channels, ch => Fate(env, claims, v.held, ch) == Some(why)) ==
      match why
      case Invalid => Keep(channels, Long(env))
      case Unauthorized => Keep(sized, Denied(env, claims))
      case Limit => r.overLimit
  {
    var sized := Keep(channels, Short(env));
    var asked := Keep(sized, Allowed(env, claims));
    var after := Admit(held, asked, env.config.maxSubscriptions).held;
    var fate := (ch: Channel) => Fate(env, claims, after, ch) == Some(why);
    match why
    case Invalid => KeepSame(channels, fate, Long(env));
    case Unauthorized => KeepTwice(channels, Short(env), Denied(env, claims), fate);
    case Limit =>
      var others := (ch: Channel) => ch !in after;
      var open := (ch: Channel) => |ch| <= env.config.maxChannelLen && env.may(claims, ch);
      AdmitRefusesTheRest(held, asked, env.config.maxSubscriptions);
      WithoutIsKeep(asked, after, others);
      KeepTwice(channels, Short(env), Allowed(env, claims), open);
      KeepTwice(channels, open, others, fate);
  }

  /** From a lawful set a request reaches a lawful set. */
  lemma JudgeIsLawful(env: Env, claims: Claims, held: set<Channel>, channels: seq<Channel>)
    requires Lawful(env, claims, held)
    ensures Lawful(env, claims, Judge(env, claims, held, channels).held)
  {
    var sized := Keep(channels, Short(env));
    var asked := Keep(sized, Allowed(env, claims));
    AdmitGrows(held, asked, env.config.maxSubscriptions);
    AdmitStaysWithin(held, asked, env.config.maxSubscriptions);
    forall ch | ch in Judge(env, claims, held, channels).held
      ensures |ch| <= env.config.maxChannelLen && env.may(claims, ch)
    {
      CountKept(sized, Allowed(env, claims), ch);
      CountKept(channels, Short(env), ch);
    }
  }

  lemma {:induction false} AdmitStaysWithin(held: set<Channel>, channels: seq<Channel>, max: nat)
    requires |held| <= max
    ensures |Admit(held, channels, max).held| <= max
  {
    if channels != [] {
      AdmitStaysWithin(held, channels[..|channels| - 1], max);
    }
  }

  /** With a fixed authorizer nothing that the acknowledgement rejects is active afterwards. */
  lemma RejectedIsInactive(env: Env, claims: Claims, held: set<Channel>, channels: seq<Channel>, x: Rejected)
    requires Lawful(env, claims, held)
    requires x in Judge(env, claims, held, channels).rejected
    ensures x.channel !in Judge(env, claims, held, channels).held
  {
    var v := Judge(env, claims, held, channels);
    JudgeAccounts(env, claims, held, channels, x.channel, x.reason);
    assert multiset(v.rejected)[x] > 0;
    JudgeIsLawful(env, claims, held, channels);
  }

  /** The acknowledgement names what was newly added, which is everything the client asked for
      and now receives exactly when none of that was already held. */
  lemma AckListsActiveIff(env: Env, claims: Claims, held: set<Channel>, channels: seq<Channel>)
    ensures
      var v := Judge(env, claims, held, channels);
      (forall ch :: ch in channels && ch in v.held ==> ch in v.added) <==> (forall ch :: ch in channels ==> ch !in held)
  {
    var v := Judge(env, claims, held, channels);
    var asked := Keep(Keep(channels, Short(env)), Allowed(env, claims));
    AdmitGrows(held, asked, env.config.maxSubscriptions);
    forall ch ensures ch in v.held <==> ch in held || ch in v.added
              ensures ch in held ==> ch !in v.added
    {
      assert ch in v.added <==> ch in Names(v.added);
    }
  }

  /** Subscribing twice: the second acknowledgement omits a channel that is active. */
  lemma AckOmitsActiveExample(env: Env, claims: Claims)
    requires env.config.maxSubscriptions > 0 && env.config.maxChannelLen > 0 && env.may(claims, [65])
    ensures
      var v := Judge(env, claims, {[65]}, [[65]]);
      [65] in v.held && [65] !in v.added
  {
    var ch: Channel := [65];
    AckListsActiveIff(env, claims, {ch}, [ch]);
    assert ch in [ch];
    assert forall c :: c in [ch] ==> c == ch;
    AdmitGrows({ch}, Keep(Keep([ch], Short(env)), Allowed(env, claims)), env.config.maxSubscriptions);
  }

  // ---- Replies -------------------------------------------------------------------------

  /** Snapshots follow the acknowledgement in `added` order, for the channels that have one. */
  function Snapshots(added: seq<Channel>, last: map<Channel, Payload>): seq<Frame> {
    if added == [] then []
    else
      var ch := added[|added| - 1];
      Snapshots(added[..|added| - 1], last) + if ch in last then [Snapshot(ch, last[ch])] else []
  }

  function Replies(v: Verdict, last: map<Channel, Payload>): seq<Frame> {
    [Subscribed(v.added, v.rejected)] + Snapshots(v.added, last)
  }

  lemma {:induction false} SnapshotsAppend(xs: seq<Channel>, ys: seq<Channel>, last: map<Channel, Payload>)
    ensures Snapshots(xs + ys, last) == Snapshots(xs, last) + Snapshots(ys, last)
  {
    if ys == [] {
      assert xs + ys == xs;
    } else {
      var n := |ys| - 1;
      SnapshotsAppend(xs, ys[..n], last);
      assert (xs + ys)[..|xs + ys| - 1] == xs + ys[..n];
    }
  }

  /** How many of the channels have a snapshot. */
  function Available(channels: seq<Channel>, last: map<Channel, Payload>): nat {
    if channels == [] then 0
    else Available(channels[..|channels| - 1], last) + if channels[|channels| - 1] in last then 1 else 0
  }

  lemma {:induction false} SnapshotsCount(added: seq<Channel>, last: map<Channel, Payload>)
    ensures |Snapshots(added, last)| == Available(added, last)
  {
    if added != [] {
      SnapshotsCount(added[..|added| - 1], last);
    }
  }

  /** There is one snapshot for each added channel that has a value; it carries that channel and that
      value, and stands behind those of the channels added before. */
  lemma SnapshotsMean(added: seq<Channel>, last: map<Channel, Payload>, k: nat)
    requires k < |added| && added[k] in last
    ensures |Snapshots(added, last)| == Available(added, last)
    ensures Available(added[..k], last) < Available(added, last)
    ensures Snapshots(added, last)[Available(added[..k], last)] == Snapshot(added[k], last[added[k]])
  {
    SnapshotsCount(added, last);
    SnapshotsCount(added[..k], last);
    assert added == added[..k + 1] + added[k + 1..];
    SnapshotsAppend(added[..k + 1], added[k + 1..], last);
    assert added[..k + 1][..k] == added[..k];
  }
}

/** `handle` run on the registry object with nobody else running. */
module Handler {
  import opened Protocol
  import opened Delivery
  import opened Requests
  import opened RegistryObject

  /** `LastValue` in `src/snapshot.rs`. */
  class LastValue {
    var last: map<Channel, Payload>

    constructor ()
      ensures last == map[]
    {
      last := map[];
    }

    method Record(channel: Channel, payload: Payload)
      modifies this
      ensures last == old(last)[channel := payload]
    {
      last := last[channel := payload];
    }

    method SnapshotOf(channel: Channel) returns (payload: Option<Payload>)
      ensures payload == if channel in last then Some(last[channel]) else None
    {
      payload := if channel in last then Some(last[channel]) else None;
    }
  }

  /** The decoder closure of the gateway and the publication that follows it: the value is in the store
      before anybody is offered it. */
  method RecordAndPublish(registry: Registry, snapshots: LastValue, channel: Channel, payload: Payload)
    returns (delivered: nat)
    requires registry.Valid()
    modifies registry, snapshots
    ensures registry.Valid()
    ensures snapshots.last == old(snapshots.last)[channel := payload]
    ensures
      var was := old(registry.connections);
      && registry.connections == DeliverTo(was, Scan(was, channel), Data(channel, payload))
      && delivered == |Reached(was, Scan(was, channel), Data(channel, payload), Sent)|
  {
    snapshots.Record(channel, payload);
    delivered := registry.Publish(channel, Data(channel, payload));
  }

  /** The three pushing loops over refused names. */
  method CollectRejected(oversized: seq<Channel>, unauthorized: seq<Channel>, overLimit: seq<Channel>)
    returns (rejected: seq<Rejected>)
    ensures rejected == Tag(oversized, Invalid) + Tag(unauthorized, Unauthorized) + Tag(overLimit, Limit)
  {
    rejected := PushRejected([], oversized, Invalid);
    rejected := PushRejected(rejected, unauthorized, Unauthorized);
    rejected := PushRejected(rejected, overLimit, Limit);
  }

  method PushRejected(start: seq<Rejected>, channels: seq<Channel>, reason: Reason) returns (rejected: seq<Rejected>)
    ensures rejected == start + Tag(channels, reason)
  {
    rejected := start;
    var i := 0;
    while i < |channels|
      invariant 0 <= i <= |channels|
      invariant rejected == start + Tag(channels, reason)[..i]
    {
      rejected := rejected + [Rejected(channels[i], reason)];
      i := i + 1;
    }
    assert Tag(channels, reason)[..i] == Tag(channels, reason);
  }

  /** The registry's connections once `id` was sent `frames`. */
  function Talk(start: map<ConnId, Connection>, id: ConnId, frames: seq<Frame>): map<ConnId, Connection> {
    if id in start then start[id := DeliverEach(start[id], frames)] else start
  }

  method Say(registry: Registry, id: ConnId, frame: Frame, ghost start: map<ConnId, Connection>, ghost sofar: seq<Frame>)
    requires registry.Valid() && registry.connections == Talk(start, id, sofar)
    modifies registry
    ensures registry.Valid() && registry.connections == Talk(start, id, sofar + [frame])
  {
    if id in start {
      DeliverEachMore(start[id], sofar, frame);
    }
    var _ := registry.Send(id, frame);
  }

  /** The Subscribe arm: the client ends up with the verdict's subscriptions, and its queue with
      the longest prefix of ack-then-snapshots that fits. */
  method HandleSubscribe(registry: Registry, snapshots: LastValue, env: Env, id: ConnId, claims: Claims, channels: seq<Channel>)
    requires registry.Valid()
    modifies registry
    ensures registry.Valid()
    ensures id !in old(registry.connections) ==> registry.connections == old(registry.connections)
    ensures id in old(registry.connections) ==>
              var was := old(registry.connections)[id];
              var v := Judge(env, claims, was.subscriptions, channels);
              var replies := Replies(v, snapshots.last);
              && registry.connections ==
                 old(registry.connections)[id := DeliverEach(was.(subscriptions := v.held), replies)]
              && registry.connections[id].queue == was.queue + replies[..Room(was, |replies|)]
  {
    var sized, oversized := Keep(channels, Short(env)), Keep(channels, Long(env));
    var allowed, unauthorized := Keep(sized, Allowed(env, claims)), Keep(sized, Denied(env, claims));
    var added, overLimit := registry.Subscribe(id, allowed, env.config.maxSubscriptions);
    var rejected := CollectRejected(oversized, unauthorized, overLimit);
    ghost var middle := registry.connections;
    var ack := Subscribed(added, rejected);
    assert Talk(middle, id, []) == middle;
    assert [] + [ack] == [ack];
    Say(registry, id, ack, middle, []);
    SendSnapshots(registry, snapshots, id, added, middle, [ack]);
    if id in middle {
      DeliverEachIsPrefix(middle[id], [ack] + Snapshots(added, snapshots.last));
    }
  }

  /** The loop that looks up and sends one snapshot per added channel. */
  method SendSnapshots(registry: Registry, snapshots: LastValue, id: ConnId, added: seq<Channel>,
                       ghost start: map<ConnId, Connection>, ghost sofar: seq<Frame>)
    requires registry.Valid() && registry.connections == Talk(start, id, sofar)
    modifies registry
    ensures registry.Valid()
    ensures registry.connections == Talk(start, id, sofar + Snapshots(added, snapshots.last))
  {
    var i := 0;
    assert sofar + [] == sofar;
    while i < |added|
      invariant 0 <= i <= |added|
      invariant registry.Valid()
      invariant registry.connections == Talk(start, id, sofar + Snapshots(added[..i], snapshots.last))
    {
      assert added[..i + 1][..i] == added[..i];
      var payload := snapshots.SnapshotOf(added[i]);
      ghost var done := sofar + Snapshots(added[..i], snapshots.last);
      if payload.Some? {
        var snap := Snapshot(added[i], payload.value);
        assert sofar + Snapshots(added[..i + 1], snapshots.last) == done + [snap];
        Say(registry, id, snap, start, done);
      } else {
        assert sofar + Snapshots(added[..i + 1], snapshots.last) == done;
      }
      i := i + 1;
    }
    assert added[..i] == added;
  }
}
