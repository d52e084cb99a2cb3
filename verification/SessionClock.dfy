/** The session loop of one connection against the clock (`session` in `src/server.rs`): which
    arm the `select!` took and when, the heartbeat test and the slow check. */
module SessionClock {
  import opened Protocol

  datatype Item = Text | PingFrame(answered: bool) | PongFrame | CloseFrame | Binary | RawFrame | Broken

  /** An arm of the `select!`; the flags tell whether the write it makes met its deadline. */
  datatype Arm =
    | NoSender
    | Outbound(written: bool)
    | Exhausted
    | Inbound(item: Item)
    | Tick(pinged: bool)

  /** One iteration: when its arm was taken, and what the slow check would read after it. */
  datatype Turn = Turn(at: nat, arm: Arm, drops: nat)

  datatype End = Finished | Failed | TimedOut | TooSlow

  datatype Play = Play(lastSeen: nat, end: Option<End>)

  function Checked(config: Config, lastSeen: nat, drops: nat): Play {
    Play(lastSeen, if drops >= config.maxConsecutiveDrops then Some(TooSlow) else None)
  }

  function TakeTurn(config: Config, lastSeen: nat, turn: Turn): Play {
    match turn.arm
    case NoSender => Play(lastSeen, Some(Finished))
    case Outbound(written) => if written then Checked(config, lastSeen, turn.drops) else Play(lastSeen, Some(Failed))
    case Exhausted => Play(lastSeen, Some(Finished))
    case Inbound(item) => (
      match item
      case Broken => Play(turn.at, Some(Failed))
      case CloseFrame => Play(turn.at, Some(Finished))
      case PingFrame(false) => Play(turn.at, Some(Failed))
      case _ => Checked(config, turn.at, turn.drops))
    case Tick(pinged) =>
      if turn.at - lastSeen > config.heartbeatTimeout then Play(lastSeen, Some(TimedOut))
      else if pinged then Checked(config, lastSeen, turn.drops)
      else Play(lastSeen, Some(Failed))
  }

  /** The whole loop: once it has decided to end, later turns never happen. */
  function Played(config: Config, start: nat, turns: seq<Turn>): Play {
    if turns == [] then Play(start, None)
    else
      var before := Played(config, start, turns[..|turns| - 1]);
      if before.end.Some? then before else TakeTurn(config, before.lastSeen, turns[|turns| - 1])
  }

  lemma {:induction false} EndIsFinal(config: Config, start: nat, turns: seq<Turn>, n: nat)
    requires n <= |turns| && Played(config, start, turns[..n]).end.Some?
    ensures Played(config, start, turns) == Played(config, start, turns[..n])
  {
    if n == |turns| {
      assert turns[..n] == turns;
    } else {
      assert turns[..|turns| - 1][..n] == turns[..n];
      EndIsFinal(config, start, turns[..|turns| - 1], n);
    }
  }

  /** The loop as written, over a script of turns. */
  method Session(config: Config, start: nat, turns: seq<Turn>)
    returns (lastSeen: nat, end: Option<End>, heartbeatTimeouts: nat)
    ensures Played(config, start, turns) == Play(lastSeen, end)
    ensures heartbeatTimeouts == if end == Some(TimedOut) then 1 else 0
  {
    lastSeen, end, heartbeatTimeouts := start, None, 0;
    var i := 0;
    while i < |turns|
      invariant 0 <= i <= |turns|
      invariant end == None && heartbeatTimeouts == 0
      invariant Played(config, start, turns[..i]) == Play(lastSeen, None)
    {
      var turn := turns[i];
      ghost var seen := lastSeen;
      assert turns[..i + 1][..i] == turns[..i];
      i := i + 1;
      match turn.arm {
        case NoSender =>
          end := Some(Finished);
        case Outbound(written) =>
          if !written { end := Some(Failed); }
        case Exhausted =>
          end := Some(Finished);
        case Inbound(item) =>
          lastSeen := turn.at;
          match item {
            case Broken => end := Some(Failed);
            case CloseFrame => end := Some(Finished);
            case PingFrame(answered) => if !answered { end := Some(Failed); }
            case _ =>
          }
        case Tick(pinged) =>
          if turn.at - lastSeen > config.heartbeatTimeout {
            heartbeatTimeouts := heartbeatTimeouts + 1;
            end := Some(TimedOut);
          } else if !pinged {
            end := Some(Failed);
          }
      }
      if end == None && turn.drops >= config.maxConsecutiveDrops {
        end := Some(TooSlow);
      }
      assert Play(lastSeen, end) == TakeTurn(config, seen, turn);
      if end.Some? {
        EndIsFinal(config, start, turns, i);
        return;
      }
    }
    assert turns[..i] == turns;
  }

  // ---- How a session ends -------------------------------------------------------------------

  /** When an item was last consumed; the start of the session until then. */
  function LastConsumed(start: nat, turns: seq<Turn>): nat {
    if turns == [] then start
    else if turns[|turns| - 1].arm.Inbound? then turns[|turns| - 1].at
    else LastConsumed(start, turns[..|turns| - 1])
  }

  /** The peer has closed, or nothing more can come in or go out. */
  predicate Closes(arm: Arm) {
    arm.NoSender? || arm.Exhausted? || (arm.Inbound? && arm.item.CloseFrame?)
  }

  /** A write missed its deadline, or what came in is broken. */
  predicate Breaks(arm: Arm) {
    match arm
    case Outbound(written) => !written
    case Inbound(item) => item.Broken? || (item.PingFrame? && !item.answered)
    case Tick(pinged) => !pinged
    case _ => false
  }

  /** At a tick nothing has been consumed for longer than the heartbeat timeout. */
  predicate Late(config: Config, start: nat, turns: seq<Turn>, n: nat)
    requires n < |turns|
  {
    turns[n].arm.Tick? && turns[n].at - LastConsumed(start, turns[..n]) > config.heartbeatTimeout
  }

  /** Why the session ends with turn `n`, if it does: the heartbeat is judged before the Ping is
      written, and the slow check comes after the arm. */
  function EndReason(config: Config, start: nat, turns: seq<Turn>, n: nat): Option<End>
    requires n < |turns|
  {
    if Late(config, start, turns, n) then Some(TimedOut)
    else if Closes(turns[n].arm) then Some(Finished)
    else if Breaks(turns[n].arm) then Some(Failed)
    else if config.maxConsecutiveDrops <= turns[n].drops then Some(TooSlow)
    else None
  }

  /** The first `n` turns give no reason to end. */
  ghost predicate GoesOn(config: Config, start: nat, turns: seq<Turn>, n: nat) {
    n <= |turns| && forall i :: 0 <= i < n ==> EndReason(config, start, turns, i) == None
  }

  lemma GoesOnPrefix(config: Config, start: nat, turns: seq<Turn>, n: nat, k: nat)
    requires n <= k <= |turns|
    ensures GoesOn(config, start, turns[..k], n) <==> GoesOn(config, start, turns, n)
    ensures n < k ==> EndReason(config, start, turns[..k], n) == EndReason(config, start, turns, n)
  {
    forall i | 0 <= i < k ensures EndReason(config, start, turns[..k], i) == EndReason(config, start, turns, i) {
      assert turns[..k][..i] == turns[..i];
    }
  }

  /** A session ends with exactly the reason of the first turn that gives one, and runs on if none
      does; in particular it is too slow exactly if that turn completes its arm and then reads a
      streak at or above the threshold. */
  lemma {:induction false} EndsForTheFirstReason(config: Config, start: nat, turns: seq<Turn>, e: End)
    ensures Played(config, start, turns).end == None <==> GoesOn(config, start, turns, |turns|)
    ensures Played(config, start, turns).end == Some(e) <==>
            exists n: nat :: n < |turns| && GoesOn(config, start, turns, n) && EndReason(config, start, turns, n) == Some(e)
    ensures Played(config, start, turns).end == None ==> Played(config, start, turns).lastSeen == LastConsumed(start, turns)
  {
    if turns != [] {
      var n := |turns| - 1;
      EndsForTheFirstReason(config, start, turns[..n], e);
      GoesOnPrefix(config, start, turns, n, n);
      EndsMore(config, start, turns, e);
    }
  }

  lemma EndsMore(config: Config, start: nat, turns: seq<Turn>, e: End)
    requires turns != []
    requires
      var n := |turns| - 1;
      var before := Played(config, start, turns[..n]);
      && (before.end == None <==> GoesOn(config, start, turns, n))
      && (before.end == Some(e) <==> exists k: nat :: k < n && GoesOn(config, start, turns[..n], k) && EndReason(config, start, turns[..n], k) == Some(e))
      && (before.end == None ==> before.lastSeen == LastConsumed(start, turns[..n]))
    ensures Played(config, start, turns).end == None <==> GoesOn(config, start, turns, |turns|)
    ensures Played(config, start, turns).end == Some(e) <==>
            exists k: nat :: k < |turns| && GoesOn(config, start, turns, k) && EndReason(config, start, turns, k) == Some(e)
    ensures Played(config, start, turns).end == None ==> Played(config, start, turns).lastSeen == LastConsumed(start, turns)
  {
    var n := |turns| - 1;
    var before := Played(config, start, turns[..n]);
    forall k: nat | k < n
      ensures GoesOn(config, start, turns[..n], k) == GoesOn(config, start, turns, k)
      ensures EndReason(config, start, turns[..n], k) == EndReason(config, start, turns, k)
    {
      GoesOnPrefix(config, start, turns, k, n);
    }
    if before.end == None {
      assert TakeTurn(config, before.lastSeen, turns[n]).end == EndReason(config, start, turns, n);
    } else if before.end == Some(e) {
      var k: nat :| k < n && GoesOn(config, start, turns[..n], k) && EndReason(config, start, turns[..n], k) == Some(e);
      assert k < |turns| && GoesOn(config, start, turns, k) && EndReason(config, start, turns, k) == Some(e);
    }
  }

  /** The turn that ends a session is the last one that can have consumed an item. */
  lemma LastSeenAtTheEnd(config: Config, start: nat, turns: seq<Turn>, n: nat)
    requires n < |turns| && GoesOn(config, start, turns, n) && EndReason(config, start, turns, n).Some?
    ensures Played(config, start, turns).lastSeen == LastConsumed(start, turns[..n + 1])
  {
    GoesOnPrefix(config, start, turns, n, n);
    EndsForTheFirstReason(config, start, turns[..n], Finished);
    assert turns[..n + 1][..n] == turns[..n];
    EndIsFinal(config, start, turns, n + 1);
  }

  // ---- Clock facts --------------------------------------------------------------------------

  predicate Ordered(start: nat, turns: seq<Turn>) {
    && (forall i :: 0 <= i < |turns| ==> start <= turns[i].at)
    && (forall i, j :: 0 <= i < j < |turns| ==> turns[i].at <= turns[j].at)
  }

  /** When the heartbeat last ticked; the skipped first tick is the start of the session. */
  function LastTick(start: nat, turns: seq<Turn>): nat {
    if turns == [] then start
    else if turns[|turns| - 1].arm.Tick? then turns[|turns| - 1].at
    else LastTick(start, turns[..|turns| - 1])
  }

  /** Ticks since an inbound item was last consumed. */
  function Unanswered(turns: seq<Turn>): nat {
    if turns == [] then 0
    else
      match turns[|turns| - 1].arm
      case Inbound(_) => 0
      case Tick(_) => Unanswered(turns[..|turns| - 1]) + 1
      case _ => Unanswered(turns[..|turns| - 1])
  }

  predicate TicksWithin(start: nat, turns: seq<Turn>, g: nat) {
    forall n :: 0 <= n < |turns| && turns[n].arm.Tick? ==> turns[n].at - LastTick(start, turns[..n]) <= g
  }

  /** No turn happens more than `g` after the latest tick. */
  predicate TicksKeepUp(start: nat, turns: seq<Turn>, g: nat) {
    forall n :: 0 <= n < |turns| ==> turns[n].at - LastTick(start, turns[..n]) <= g
  }

  /** Each Ping is answered within `m` ticks: never more than `m` of them in a row with nothing
      consumed in between. */
  predicate AnsweredWithin(turns: seq<Turn>, m: nat) {
    forall n :: 0 <= n <= |turns| ==> Unanswered(turns[..n]) <= m
  }

  lemma OrderedPrefix(start: nat, turns: seq<Turn>)
    requires turns != [] && Ordered(start, turns)
    ensures Ordered(start, turns[..|turns| - 1])
  {
  }

  lemma TicksPrefix(start: nat, turns: seq<Turn>, g: nat)
    requires turns != [] && TicksWithin(start, turns, g)
    ensures TicksWithin(start, turns[..|turns| - 1], g)
  {
    var before := turns[..|turns| - 1];
    forall n | 0 <= n < |before| && before[n].arm.Tick? ensures before[n].at - LastTick(start, before[..n]) <= g {
      assert before[..n] == turns[..n] && before[n] == turns[n];
    }
  }

  lemma {:induction false} LastTickIsPast(start: nat, turns: seq<Turn>, at: nat)
    requires start <= at && forall i :: 0 <= i < |turns| ==> turns[i].at <= at
    ensures LastTick(start, turns) <= at
  {
    if turns != [] {
      LastTickIsPast(start, turns[..|turns| - 1], at);
    }
  }

  /** While the session runs, the last tick is at most `g` per unanswered tick after the last
      consumed item. */
  lemma {:induction false} SilenceIsBounded(config: Config, start: nat, turns: seq<Turn>, g: nat)
    requires Ordered(start, turns) && TicksWithin(start, turns, g)
    requires Played(config, start, turns).end == None
    ensures LastTick(start, turns) - Played(config, start, turns).lastSeen <= Unanswered(turns) * g
  {
    if turns != [] {
      var n := |turns| - 1;
      OrderedPrefix(start, turns);
      TicksPrefix(start, turns, g);
      SilenceIsBounded(config, start, turns[..n], g);
      if turns[n].arm.Inbound? {
        LastTickIsPast(start, turns[..n], turns[n].at);
      } else if turns[n].arm.Tick? {
        assert turns[n].at - LastTick(start, turns[..n]) <= g;
        OneMoreGap(turns[n].at, LastTick(start, turns[..n]), Played(config, start, turns[..n]).lastSeen,
                   Unanswered(turns[..n]), g);
      }
    }
  }

  lemma OneMoreGap(tick: nat, before: nat, seen: nat, u: nat, g: nat)
    requires before - seen <= u * g && tick - before <= g
    ensures tick - seen <= (u + 1) * g
  {
    assert (u + 1) * g == u * g + g;
  }

  /** A responsive client is never timed out: ticks at most `g` apart, every Ping answered within
      `m` ticks, and `m * g <= heartbeat_timeout`. */
  lemma {:induction false} ResponsiveIsKept(config: Config, start: nat, turns: seq<Turn>, g: nat, m: nat)
    requires Ordered(start, turns) && TicksWithin(start, turns, g) && AnsweredWithin(turns, m)
    requires m * g <= config.heartbeatTimeout
    ensures Played(config, start, turns).end != Some(TimedOut)
  {
    if turns != [] {
      var n := |turns| - 1;
      var before := turns[..n];
      OrderedPrefix(start, turns);
      TicksPrefix(start, turns, g);
      forall k | 0 <= k <= |before| ensures Unanswered(before[..k]) <= m {
        assert before[..k] == turns[..k];
      }
      ResponsiveIsKept(config, start, before, g, m);
      if Played(config, start, before).end == None && turns[n].arm.Tick? {
        SilenceIsBounded(config, start, before, g);
        assert turns[..|turns|] == turns;
        assert turns[n].at - LastTick(start, before) <= g;
        Scale(Unanswered(before), m, g);
      }
    }
  }

  lemma {:induction false} Scale(u: nat, m: nat, g: nat)
    requires u + 1 <= m
    ensures u * g + g <= m * g
  {
    if u + 1 < m {
      Scale(u, m - 1, g);
      assert m * g == (m - 1) * g + g;
    } else {
      assert m * g == (u + 1) * g == u * g + g;
    }
  }

  lemma {:induction false} LastSeenBefore(config: Config, start: nat, turns: seq<Turn>, t: nat)
    requires start <= t && forall i :: 0 <= i < |turns| && turns[i].arm.Inbound? ==> turns[i].at <= t
    ensures Played(config, start, turns).lastSeen <= t
  {
    if turns != [] {
      LastSeenBefore(config, start, turns[..|turns| - 1], t);
    }
  }

  /** With nothing consumed after `t`, a tick later than `t + heartbeat_timeout` ends the session. */
  lemma {:induction false} LateTickEnds(config: Config, start: nat, turns: seq<Turn>, t: nat)
    requires start <= t && forall i :: 0 <= i < |turns| && turns[i].arm.Inbound? ==> turns[i].at <= t
    requires LastTick(start, turns) > t + config.heartbeatTimeout
    ensures Played(config, start, turns).end.Some?
  {
    if turns != [] {
      var n := |turns| - 1;
      LastSeenBefore(config, start, turns[..n], t);
      if !turns[n].arm.Tick? {
        LateTickEnds(config, start, turns[..n], t);
      }
    }
  }

  /** A silent client is detected within a bound: if the heartbeat never lags by more than `g` and
      nothing is consumed after `t`, no turn later than `t + heartbeat_timeout + g` is taken. */
  lemma SilentIsDetected(config: Config, start: nat, turns: seq<Turn>, g: nat, t: nat, n: nat)
    requires TicksKeepUp(start, turns, g) && start <= t
    requires forall i :: 0 <= i < |turns| && turns[i].arm.Inbound? ==> turns[i].at <= t
    requires n < |turns| && turns[n].at > t + config.heartbeatTimeout + g
    ensures Played(config, start, turns[..n]).end.Some?
    ensures Played(config, start, turns) == Played(config, start, turns[..n])
  {
    assert turns[n].at - LastTick(start, turns[..n]) <= g;
    LateTickEnds(config, start, turns[..n], t);
    EndIsFinal(config, start, turns, n);
  }
}
