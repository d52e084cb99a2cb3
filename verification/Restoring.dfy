/** What brings a client's state back after a resync: no snapshot follows by itself, and subscribing
    again to a channel that is still held brings none either. Positions are those of a connection's
    log; `r` is any moment, in particular the one at which a Resync was offered. */
module Restoring {
  import opened Protocol
  import opened Subscriptions
  import opened Machine
  import opened Dialogue
  import opened Turns

  /** The session has nothing left to answer. */
  ghost predicate TurnOver(w: World, id: ConnId) {
    id in w.clients && w.clients[id].jobs == [] && Session(id) !in w.readers
  }

  /** From `r` on, a value for `ch` was looked up and offered as a snapshot in the same turn. */
  ghost predicate Restored(log: seq<Event>, r: nat, ch: Channel) {
    exists n: nat, i: nat :: r <= n && FoundAt(log, n, ch) && OfferedAt(log, i, Snapshot(ch, log[n].found.value)) && SameTurn(log, n, i)
  }

  /** A `subscribe` newly added `ch`, and from `r` on its lookup found a value. */
  ghost predicate Requested(log: seq<Event>, r: nat, ch: Channel) {
    exists k: nat, n: nat :: r <= n && JoinedAt(log, k, ch) && FoundAt(log, n, ch) && SameTurn(log, k, n)
  }

  /** From `r` on, `ch` was unsubscribed, then newly added, and then its lookup found a value. */
  ghost predicate LeftAndBack(log: seq<Event>, r: nat, ch: Channel) {
    exists u: nat, k: nat, n: nat ::
      r <= u < k && LeftAt(log, u, ch) && JoinedAt(log, k, ch) && FoundAt(log, n, ch) && SameTurn(log, k, n)
  }

  /** A fresh snapshot follows exactly when a `subscribe` newly adds the channel and finds a value. */
  lemma RestoredIffRequested(env: Env, run: seq<Label>, id: ConnId, r: nat, ch: Channel)
    requires Legal(env, run) && TurnOver(After(env, run), id)
    ensures
      var log := After(env, run).clients[id].log;
      Restored(log, r, ch) <==> Requested(log, r, ch)
  {
    var log := After(env, run).clients[id].log;
    if Restored(log, r, ch) {
      var n: nat, i: nat :| r <= n && FoundAt(log, n, ch) && OfferedAt(log, i, Snapshot(ch, log[n].found.value)) && SameTurn(log, n, i);
      var k := LookupFollowsJoin(env, run, id, n);
    }
    if Requested(log, r, ch) {
      var k: nat, n: nat :| r <= n && JoinedAt(log, k, ch) && FoundAt(log, n, ch) && SameTurn(log, k, n);
      LookupsAreServed(env, run, id, n);
      assert Answered(log, n);
    }
  }

  /** A channel still to be looked up at `n` was still to be looked up throughout the turn. */
  lemma {:induction false} UnseenBefore(log: seq<Event>, r: nat, n: nat, ch: Channel)
    requires r <= n <= |log| && ch in Unseen(log[..n]) && forall j :: r <= j < n ==> !Opens(log[j])
    ensures ch in Unseen(log[..r])
  {
    if r < n {
      assert log[..n][..n - 1] == log[..n - 1];
      assert ch in Unseen(log[..n - 1]);
      UnseenBefore(log, r, n - 1, ch);
    }
  }

  lemma {:induction false} LeftBetween(log: seq<Event>, i: nat, j: nat, ch: Channel) returns (u: nat)
    requires i <= j <= |log| && ch in Active(log[..i]) && ch !in Active(log[..j])
    ensures i <= u < j && LeftAt(log, u, ch)
  {
    assert i < j;
    assert log[..j][..j - 1] == log[..j - 1];
    if ch in Active(log[..j - 1]) {
      u := j - 1;
      assert log[u].Left? && ch in Names(log[u].removed);
    } else {
      u := LeftBetween(log, i, j - 1, ch);
    }
  }

  /** "A re-subscribe restores it" is not enough: a client that holds the channel, with no lookup
      for it still to come, gets a fresh snapshot exactly when it unsubscribes the channel first,
      then subscribes to it, and a value is there. */
  lemma HeldIsRestoredIffLeft(env: Env, run: seq<Label>, id: ConnId, r: nat, ch: Channel)
    requires Legal(env, run) && TurnOver(After(env, run), id)
    requires
      var log := After(env, run).clients[id].log;
      r <= |log| && ch in Active(log[..r]) && ch !in Unseen(log[..r])
    ensures
      var log := After(env, run).clients[id].log;
      Restored(log, r, ch) <==> LeftAndBack(log, r, ch)
  {
    var log := After(env, run).clients[id].log;
    RestoredIffRequested(env, run, id, r, ch);
    if Requested(log, r, ch) {
      var k: nat, n: nat :| r <= n && JoinedAt(log, k, ch) && FoundAt(log, n, ch) && SameTurn(log, k, n);
      LogTells(env, run, id, n);
      if k < r {
        UnseenBefore(log, r, n, ch);
        assert false;
      }
      LogTells(env, run, id, k);
      assert ch in Names(log[k].added);
      var u := LeftBetween(log, r, k, ch);
    }
    if LeftAndBack(log, r, ch) {
      var u: nat, k: nat, n: nat :|
        r <= u < k && LeftAt(log, u, ch) && JoinedAt(log, k, ch) && FoundAt(log, n, ch) && SameTurn(log, k, n);
      assert r <= n;
    }
  }
}
