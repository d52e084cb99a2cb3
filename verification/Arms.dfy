/** The session loop in the machine: each turn is one arm and then the slow check, a session is over for
    one of four reasons, and its turns end as the clocked loop of `SessionClock` says. */
module Arms {
  import opened Protocol
  import opened Machine
  import opened Invariant
  import opened SessionClock

  // ---- Why a session is over ------------------------------------------------------------------

  /** With this step the session of `id` ends: a write failed, an arm ended it, the check found the
      client too slow, or its receiver was dropped. */
  predicate Ends(env: Env, w: World, l: Label, id: ConnId) {
    match l
    case Take(i, written) => i == id && !written
    case Beat(i, ends) => i == id && ends
    case Check(i) => i == id && id in w.conns && w.conns[id].dropped >= env.config.maxConsecutiveDrops
    case Shut(i) => i == id
    case _ => false
  }

  ghost predicate EndsAt(env: Env, run: seq<Label>, n: nat, id: ConnId) {
    n < |run| && Legal(env, run[..n]) && Ends(env, After(env, run[..n]), run[n], id)
  }

  lemma OverStep(env: Env, w: World, l: Label, id: ConnId)
    requires Enabled(env, w, l) && id in w.clients && !l.Insert?
    ensures id in Step(env, w, l).clients
    ensures Step(env, w, l).clients[id].over <==> w.clients[id].over || Ends(env, w, l, id)
  {
    if Subject(l) != Some(id) {
      Untouched(env, w, l, id);
    }
  }

  /** A session is over exactly if one of its steps has ended it, in every run. */
  lemma {:induction false} OverIff(env: Env, run: seq<Label>, id: ConnId)
    requires Legal(env, run)
    ensures id in After(env, run).clients ==>
              (After(env, run).clients[id].over <==> exists n: nat :: EndsAt(env, run, n, id))
    ensures id !in After(env, run).clients ==> forall n: nat :: !EndsAt(env, run, n, id)
  {
    if run != [] {
      var k := |run| - 1;
      var before, l := run[..k], run[k];
      OverIff(env, before, id);
      Always(env, before);
      OverMore(env, After(env, before), l, id);
      forall n: nat | n < k ensures EndsAt(env, run, n, id) == EndsAt(env, before, n, id) {
        assert run[..n] == before[..n];
      }
      assert EndsAt(env, run, k, id) == Ends(env, After(env, before), l, id);
      if exists n: nat :: EndsAt(env, before, n, id) {
        var n: nat :| EndsAt(env, before, n, id);
        assert EndsAt(env, run, n, id);
      }
    }
  }

  lemma OverMore(env: Env, w: World, l: Label, id: ConnId)
    requires Inv(env, w) && Enabled(env, w, l)
    ensures id in w.clients ==>
              id in Step(env, w, l).clients && (Step(env, w, l).clients[id].over <==> w.clients[id].over || Ends(env, w, l, id))
    ensures id !in w.clients ==> !Ends(env, w, l, id)
    ensures id !in w.clients && id in Step(env, w, l).clients ==> !Step(env, w, l).clients[id].over
  {
    if id in w.clients {
      if l.Insert? {
        assert l.id in w.clients ==> ClientOk(w, l.id);
        Untouched(env, w, l, id);
      } else {
        OverStep(env, w, l, id);
      }
    }
  }

  // ---- Every turn ends with the check ------------------------------------------------------------

  /** The session takes an arm of its `select!`. */
  predicate TakesArm(l: Label, id: ConnId) {
    (l.Subscribe? || l.Unsubscribe? || l.Request? || l.Beat? || l.Take?) && l.id == id
  }

  lemma ArmStep(env: Env, w: World, l: Label, id: ConnId)
    requires Enabled(env, w, l) && id in w.clients && !(l.Insert? && l.id == id)
    ensures id in Step(env, w, l).clients
    ensures TakesArm(l, id) ==> w.clients[id].atTop && !Step(env, w, l).clients[id].atTop
    ensures !TakesArm(l, id) && l != Check(id) ==> Step(env, w, l).clients[id].atTop == w.clients[id].atTop
  {
    if Subject(l) != Some(id) {
      Untouched(env, w, l, id);
    }
  }

  lemma {:induction false} ChecksBetween(env: Env, run: seq<Label>, id: ConnId, i: nat, j: nat)
    requires Legal(env, run) && i < j <= |run| && TakesArm(run[i], id)
    requires forall k :: i < k < j ==> run[k] != Check(id)
    ensures Legal(env, run[..j]) && id in After(env, run[..j]).clients && !After(env, run[..j]).clients[id].atTop
    decreases j
  {
    LegalPrefix(env, run, j);
    assert run[..j] == run[..j - 1] + [run[j - 1]];
    LegalSnoc(env, run[..j - 1], run[j - 1]);
    if i + 1 < j {
      ChecksBetween(env, run, id, i, j - 1);
      Always(env, run[..j - 1]);
      assert ClientOk(After(env, run[..j - 1]), id);
    }
    ArmStep(env, After(env, run[..j - 1]), run[j - 1], id);
  }

  /** Between two arms of a session there is a slow check, so no turn goes unchecked. */
  lemma EveryTurnIsChecked(env: Env, run: seq<Label>, id: ConnId, i: nat, j: nat) returns (k: nat)
    requires Legal(env, run) && i < j < |run| && TakesArm(run[i], id) && TakesArm(run[j], id)
    ensures i < k < j && run[k] == Check(id)
  {
    if forall k :: i < k < j ==> run[k] != Check(id) {
      ChecksBetween(env, run, id, i, j);
      LegalPrefix(env, run, j + 1);
      assert run[..j + 1] == run[..j] + [run[j]];
      LegalSnoc(env, run[..j], run[j]);
      ArmStep(env, After(env, run[..j]), run[j], id);
      assert false;
    }
    k :| i < k < j && run[k] == Check(id);
  }

  // ---- The clocked loop is this one ---------------------------------------------------------------

  /** What an arm ends the session with before the slow check, and with a drop threshold out of reach. */
  function ArmEnd(config: Config, lastSeen: nat, turn: Turn): Option<End> {
    TakeTurn(config.(maxConsecutiveDrops := turn.drops + 1), lastSeen, turn).end
  }

  /** The machine's step for an arm that is not a request: a frame is taken from the queue, or the clock,
      the peer or a frame without an answer decides. */
  function ArmLabel(config: Config, lastSeen: nat, turn: Turn, id: ConnId): Label {
    match turn.arm
    case Outbound(written) => Take(id, written)
    case _ => Beat(id, ArmEnd(config, lastSeen, turn).Some?)
  }

  /** A turn of the clocked loop is an arm and a check of the machine: the session is over after the arm
      if the arm ends it, and otherwise after the check if and only if the loop finds the client too
      slow, where the check reads the counter that the machine holds. */
  lemma TurnIsTheMachine(env: Env, w: World, id: ConnId, lastSeen: nat, turn: Turn)
    requires AtTop(w, id) && (turn.arm.Outbound? ==> w.conns[id].queue != []) && w.clients[id].jobs == []
    requires turn.drops == w.conns[id].dropped
    ensures
      var l := ArmLabel(env.config, lastSeen, turn, id);
      Enabled(env, w, l) &&
      var w' := Step(env, w, l);
      && id in w'.clients && id in w'.conns
      && (w'.clients[id].over <==> ArmEnd(env.config, lastSeen, turn).Some?)
      && (Enabled(env, w', Check(id)) <==> !w'.clients[id].over)
      && (!w'.clients[id].over ==>
            (DoCheck(env, w', id).clients[id].over <==> TakeTurn(env.config, lastSeen, turn).end == Some(TooSlow)))
  {
  }
}
