/** The thread that drains the shared-memory queue into the server (`src/outcry_source.rs`), and
    how it learns that the server was dropped (`src/lib.rs`). */
module Source {
  import opened Protocol
  import opened Machine

  type Bytes = seq<Byte>
  datatype Decoded = Decoded(channel: Channel, payload: Payload)

  datatype Idle = Spin | Sleep

  /** What the queue has to say when it is polled: a frame may be ready, it may be empty, the
      reader may have been lapped (a resync then moves it on by `skip`), or it may be broken. */
  datatype Poll = Ready | Empty | Lapped(skip: nat) | Failed

  /** One pass through the loop: the strong count the exit test reads, and the poll after it. */
  datatype Pass = Pass(strong: nat, poll: Poll)

  /** What the loop does to the outside, in order. `Recorded` is the decoder of the gateway
      example, which stores each value before it hands it back. */
  datatype Effect =
    | Recorded(channel: Channel, payload: Payload)
    | Issued(pos: nat, channel: Channel, payload: Payload)
    | Undecodable(pos: nat)
    | Skipped(to: nat)
    | Told
    | Grew(size: nat)
    | Rested(slept: bool)

  datatype Drain = Drain(pos: nat, buffer: nat, idlePolls: nat, undecodable: nat, effects: seq<Effect>, stopped: bool)

  const IDLE_MAX: nat := 0xFFFF_FFFF
  const BUFFER: nat := 64 * 1024

  function Begin(pos: nat): Drain {
    Drain(pos, BUFFER, 0, 0, [], false)
  }

  /** One pass over a queue that holds `frames`. A poll that is ready past the end is an empty one. */
  function OnePass(d: Drain, frames: seq<Bytes>, idle: Idle, decode: Bytes -> Option<Decoded>, pass: Pass): Drain {
    if d.stopped then d
    else if pass.strong <= 1 then d.(stopped := true)
    else
      match pass.poll
      case Ready =>
        if d.pos >= |frames| then RestOnce(d, idle)
        else if |frames[d.pos]| > d.buffer then
          d.(buffer := |frames[d.pos]|, effects := d.effects + [Grew(|frames[d.pos]|)])
        else (
          match decode(frames[d.pos])
          case Some(x) =>
            d.(pos := d.pos + 1, idlePolls := 0,
               effects := d.effects + [Recorded(x.channel, x.payload), Issued(d.pos, x.channel, x.payload)])
          case None =>
            d.(pos := d.pos + 1, idlePolls := 0, undecodable := d.undecodable + 1,
               effects := d.effects + [Undecodable(d.pos)]))
      case Empty => RestOnce(d, idle)
      case Lapped(skip) => d.(pos := d.pos + skip, effects := d.effects + [Skipped(d.pos + skip), Told])
      case Failed => d.(stopped := true)
  }

  function RestOnce(d: Drain, idle: Idle): Drain {
    var polls := if d.idlePolls < IDLE_MAX then d.idlePolls + 1 else d.idlePolls;
    d.(idlePolls := polls, effects := d.effects + [Rested(idle.Sleep? && polls > 1_000)])
  }

  function Drained(pos: nat, frames: seq<Bytes>, idle: Idle, decode: Bytes -> Option<Decoded>, passes: seq<Pass>): Drain {
    if passes == [] then Begin(pos)
    else OnePass(Drained(pos, frames, idle, decode, passes[..|passes| - 1]), frames, idle, decode, passes[|passes| - 1])
  }

  lemma {:induction false} StoppedIsFinal(start: nat, frames: seq<Bytes>, idle: Idle, decode: Bytes -> Option<Decoded>,
                                          passes: seq<Pass>, n: nat)
    requires n <= |passes| && Drained(start, frames, idle, decode, passes[..n]).stopped
    ensures Drained(start, frames, idle, decode, passes) == Drained(start, frames, idle, decode, passes[..n])
  {
    if n == |passes| {
      assert passes[..n] == passes;
    } else {
      assert passes[..|passes| - 1][..n] == passes[..n];
      StoppedIsFinal(start, frames, idle, decode, passes[..|passes| - 1], n);
    }
  }

  /** The loop as written: the exit test, then one poll. */
  method Consume(start: nat, frames: seq<Bytes>, idle: Idle, decode: Bytes -> Option<Decoded>, passes: seq<Pass>)
    returns (d: Drain)
    ensures d == Drained(start, frames, idle, decode, passes)
  {
    d := Begin(start);
    var i := 0;
    while i < |passes| && !d.stopped
      invariant 0 <= i <= |passes|
      invariant d == Drained(start, frames, idle, decode, passes[..i])
    {
      assert passes[..i + 1][..i] == passes[..i];
      if passes[i].strong > 1 {
        d := HandlePoll(d, frames, idle, decode, passes[i]);
      } else {
        d := d.(stopped := true);
      }
      i := i + 1;
    }
    if d.stopped {
      StoppedIsFinal(start, frames, idle, decode, passes, i);
    } else {
      assert passes[..i] == passes;
    }
  }

  /** The body of the loop, variable by variable. */
  method HandlePoll(was: Drain, frames: seq<Bytes>, idle: Idle, decode: Bytes -> Option<Decoded>, pass: Pass) returns (d: Drain)
    requires !was.stopped && pass.strong > 1
    ensures d == OnePass(was, frames, idle, decode, pass)
  {
    var pos, buffer, idlePolls, undecodable, stopped := was.pos, was.buffer, was.idlePolls, was.undecodable, false;
    var effects := [];
    var poll := pass.poll;
    if poll.Failed? {
      stopped := true;
    } else if poll.Lapped? {
      pos := pos + poll.skip;
      effects := [Skipped(pos), Told];
    } else if poll.Empty? || pos >= |frames| {
      if idlePolls < IDLE_MAX {
        idlePolls := idlePolls + 1;
      }
      effects := [Rested(idle.Sleep? && idlePolls > 1_000)];
    } else if |frames[pos]| > buffer {
      buffer := |frames[pos]|;
      effects := [Grew(buffer)];
    } else {
      idlePolls := 0;
      var x := decode(frames[pos]);
      if x.Some? {
        effects := [Recorded(x.value.channel, x.value.payload), Issued(pos, x.value.channel, x.value.payload)];
      } else {
        undecodable := undecodable + 1;
        effects := [Undecodable(pos)];
      }
      pos := pos + 1;
    }
    d := Drain(pos, buffer, idlePolls, undecodable, was.effects + effects, stopped);
    assert effects == [] ==> was.effects + effects == was.effects;
  }

  // ---- No position is lost without a word --------------------------------------------------

  predicate Handles(e: Effect) {
    e.Issued? || e.Undecodable?
  }

  /** Where the reader stands after `effects`, if every frame it handled was the one it stood at. */
  function Cursor(start: nat, effects: seq<Effect>): Option<nat> {
    if effects == [] then Some(start)
    else CursorStep(Cursor(start, effects[..|effects| - 1]), effects[|effects| - 1])
  }

  function CursorStep(before: Option<nat>, e: Effect): Option<nat> {
    match e
    case Issued(pos, _, _) => if before == Some(pos) then Some(pos + 1) else None
    case Undecodable(pos) => if before == Some(pos) then Some(pos + 1) else None
    case Skipped(to) => if before.Some? then Some(to) else None
    case _ => before
  }

  lemma CursorMore(start: nat, effects: seq<Effect>, e: Effect)
    ensures Cursor(start, effects + [e]) == CursorStep(Cursor(start, effects), e)
  {
    assert (effects + [e])[..|effects|] == effects;
  }

  lemma CursorPair(start: nat, effects: seq<Effect>, a: Effect, b: Effect)
    ensures Cursor(start, effects + [a, b]) == CursorStep(CursorStep(Cursor(start, effects), a), b)
  {
    assert effects + [a, b] == effects + [a] + [b];
    CursorMore(start, effects, a);
    CursorMore(start, effects + [a], b);
  }

  /** What one pass adds moves the cursor as it moves the position. */
  ghost predicate PassMoves(more: seq<Effect>, pos: nat, pos': nat) {
    || (more == [] && pos' == pos)
    || (|more| == 1 && !Handles(more[0]) && !more[0].Skipped? && pos' == pos)
    || (|more| == 1 && more[0] == Undecodable(pos) && pos' == pos + 1)
    || (|more| == 2 && more[0].Recorded? && more[1].Issued? && more[1].pos == pos && pos' == pos + 1)
    || (|more| == 2 && more[0] == Skipped(pos') && more[1].Told?)
  }

  lemma PassMovesCursor(d: Drain, frames: seq<Bytes>, idle: Idle, decode: Bytes -> Option<Decoded>, pass: Pass) returns (more: seq<Effect>)
    ensures
      var d' := OnePass(d, frames, idle, decode, pass);
      d'.effects == d.effects + more && PassMoves(more, d.pos, d'.pos)
  {
    more := OnePass(d, frames, idle, decode, pass).effects[|d.effects|..];
  }

  lemma CursorMoves(start: nat, effects: seq<Effect>, more: seq<Effect>, pos: nat, pos': nat)
    requires Cursor(start, effects) == Some(pos) && PassMoves(more, pos, pos')
    ensures Cursor(start, effects + more) == Some(pos')
  {
    if |more| == 2 {
      assert more == [more[0], more[1]];
      CursorPair(start, effects, more[0], more[1]);
    } else if |more| == 1 {
      assert more == [more[0]];
      CursorMore(start, effects, more[0]);
    } else {
      assert effects + more == effects;
    }
  }

  /** Every run of the loop handles positions one after the other; only a resync jumps. */
  lemma {:induction false} CursorFollows(start: nat, frames: seq<Bytes>, idle: Idle, decode: Bytes -> Option<Decoded>,
                                         passes: seq<Pass>)
    ensures var d := Drained(start, frames, idle, decode, passes); Cursor(start, d.effects) == Some(d.pos)
  {
    if passes != [] {
      var before := passes[..|passes| - 1];
      CursorFollows(start, frames, idle, decode, before);
      var d := Drained(start, frames, idle, decode, before);
      var more := PassMovesCursor(d, frames, idle, decode, passes[|passes| - 1]);
      CursorMoves(start, d.effects, more, d.pos, Drained(start, frames, idle, decode, passes).pos);
    }
  }

  lemma {:induction false} CursorBetween(start: nat, effects: seq<Effect>, i: nat, j: nat)
    requires i <= j <= |effects| && Cursor(start, effects[..j]).Some?
    requires forall k :: i <= k < j ==> !Handles(effects[k]) && !effects[k].Skipped?
    ensures Cursor(start, effects[..i]) == Cursor(start, effects[..j])
  {
    if i < j {
      assert effects[..j][..j - 1] == effects[..j - 1];
      CursorBetween(start, effects, i, j - 1);
    }
  }

  lemma {:induction false} CursorPrefix(start: nat, effects: seq<Effect>, n: nat)
    requires n <= |effects| && Cursor(start, effects).Some?
    ensures Cursor(start, effects[..n]).Some?
  {
    if n == |effects| {
      assert effects[..n] == effects;
    } else {
      assert effects[..|effects| - 1][..n] == effects[..n];
      CursorPrefix(start, effects[..|effects| - 1], n);
    }
  }

  lemma GapHasSkip(start: nat, effects: seq<Effect>, i: nat, j: nat)
    requires Cursor(start, effects).Some?
    requires i < j < |effects| && Handles(effects[i]) && Handles(effects[j])
    requires effects[j].pos != effects[i].pos + 1
    requires forall k :: i < k < j ==> !Handles(effects[k])
    ensures exists k :: i < k < j && effects[k].Skipped?
  {
    CursorPrefix(start, effects, i + 1);
    CursorPrefix(start, effects, j);
    CursorPrefix(start, effects, j + 1);
    assert effects[..i + 1] == effects[..i] + [effects[i]];
    assert effects[..j + 1] == effects[..j] + [effects[j]];
    CursorMore(start, effects[..i], effects[i]);
    CursorMore(start, effects[..j], effects[j]);
    if forall k :: i < k < j ==> !effects[k].Skipped? {
      CursorBetween(start, effects, i + 1, j);
    }
  }

  /** Between two frames handled in a row that are not neighbours in the queue, an overrun was
      noticed. */
  lemma GapsAreNoticed(start: nat, frames: seq<Bytes>, idle: Idle, decode: Bytes -> Option<Decoded>,
                       passes: seq<Pass>, i: nat, j: nat)
    requires
      var effects := Drained(start, frames, idle, decode, passes).effects;
      && i < j < |effects| && Handles(effects[i]) && Handles(effects[j])
      && effects[j].pos != effects[i].pos + 1
      && forall k :: i < k < j ==> !Handles(effects[k])
    ensures
      var effects := Drained(start, frames, idle, decode, passes).effects;
      exists k :: i < k < j && effects[k].Skipped?
  {
    CursorFollows(start, frames, idle, decode, passes);
    GapHasSkip(start, Drained(start, frames, idle, decode, passes).effects, i, j);
  }

  /** A frame that does not fit is not lost: the buffer grows to it and the next ready poll hands
      over the same position. */
  lemma TooSmallIsRetried(d: Drain, frames: seq<Bytes>, idle: Idle, decode: Bytes -> Option<Decoded>, strong: nat)
    requires !d.stopped && strong > 1 && d.pos < |frames| && |frames[d.pos]| > d.buffer
    ensures
      var grown := OnePass(d, frames, idle, decode, Pass(strong, Poll.Ready));
      var read := OnePass(grown, frames, idle, decode, Pass(strong, Poll.Ready));
      && grown.pos == d.pos && grown.buffer == |frames[d.pos]|
      && read.pos == d.pos + 1 && Handles(read.effects[|read.effects| - 1])
      && read.effects[|read.effects| - 1].pos == d.pos
  {
  }

  // ---- What is read at each position ---------------------------------------------------------

  /** What the loop says about a position is what the decoder makes of the frame there, and that frame
      fits the buffer it was read into. */
  ghost predicate TrueOf(e: Effect, frames: seq<Bytes>, decode: Bytes -> Option<Decoded>, buffer: nat) {
    Handles(e) ==>
      && e.pos < |frames| && |frames[e.pos]| <= buffer
      && decode(frames[e.pos]) == if e.Issued? then Some(Decoded(e.channel, e.payload)) else None
  }

  ghost predicate AllTrue(d: Drain, frames: seq<Bytes>, decode: Bytes -> Option<Decoded>) {
    forall i :: 0 <= i < |d.effects| ==> TrueOf(d.effects[i], frames, decode, d.buffer)
  }

  lemma PassIsTrue(d: Drain, frames: seq<Bytes>, idle: Idle, decode: Bytes -> Option<Decoded>, pass: Pass)
    requires AllTrue(d, frames, decode)
    ensures AllTrue(OnePass(d, frames, idle, decode, pass), frames, decode)
  {
    var d' := OnePass(d, frames, idle, decode, pass);
    assert d'.effects[..|d.effects|] == d.effects;
    forall i | 0 <= i < |d'.effects| ensures TrueOf(d'.effects[i], frames, decode, d'.buffer) {
      assert i < |d.effects| ==> d'.effects[i] == d.effects[i] && TrueOf(d.effects[i], frames, decode, d.buffer);
    }
  }

  /** Every run of the loop: what is published for a position is the decoding of the frame at that
      position, and a frame is given up only if the decoder rejects it. */
  lemma {:induction false} EffectsAreTrue(start: nat, frames: seq<Bytes>, idle: Idle, decode: Bytes -> Option<Decoded>,
                                          passes: seq<Pass>)
    ensures AllTrue(Drained(start, frames, idle, decode, passes), frames, decode)
  {
    if passes != [] {
      EffectsAreTrue(start, frames, idle, decode, passes[..|passes| - 1]);
      PassIsTrue(Drained(start, frames, idle, decode, passes[..|passes| - 1]), frames, idle, decode, passes[|passes| - 1]);
    }
  }

  /** What was published, in order. */
  function Issues(effects: seq<Effect>): seq<Decoded> {
    if effects == [] then []
    else
      var e := effects[|effects| - 1];
      Issues(effects[..|effects| - 1]) + if e.Issued? then [Decoded(e.channel, e.payload)] else []
  }

  /** The decodable frames, decoded, in order. */
  function Decodings(frames: seq<Bytes>, decode: Bytes -> Option<Decoded>): seq<Decoded> {
    if frames == [] then []
    else
      var x := decode(frames[|frames| - 1]);
      Decodings(frames[..|frames| - 1], decode) + if x.Some? then [x.value] else []
  }

  /** How many effects are of a kind. */
  function CountOf(effects: seq<Effect>, kind: Effect -> bool): nat {
    if effects == [] then 0
    else CountOf(effects[..|effects| - 1], kind) + if kind(effects[|effects| - 1]) then 1 else 0
  }

  lemma IssuesMore(effects: seq<Effect>, e: Effect)
    ensures Issues(effects + [e]) == Issues(effects) + if e.Issued? then [Decoded(e.channel, e.payload)] else []
  {
    assert (effects + [e])[..|effects|] == effects;
  }

  lemma CountMore(effects: seq<Effect>, e: Effect, kind: Effect -> bool)
    ensures CountOf(effects + [e], kind) == CountOf(effects, kind) + if kind(e) then 1 else 0
  {
    assert (effects + [e])[..|effects|] == effects;
  }

  lemma DecodingsMore(frames: seq<Bytes>, decode: Bytes -> Option<Decoded>, start: nat, pos: nat)
    requires start <= pos < |frames|
    ensures Decodings(frames[start..pos + 1], decode) ==
            Decodings(frames[start..pos], decode) + if decode(frames[pos]).Some? then [decode(frames[pos]).value] else []
  {
    assert frames[start..pos + 1][..pos - start] == frames[start..pos];
  }

  ghost predicate InOrder(effects: seq<Effect>, pos: nat, start: nat, frames: seq<Bytes>, decode: Bytes -> Option<Decoded>) {
    && start <= pos && (pos == start || pos <= |frames|)
    && Issues(effects) == if pos == start then [] else Decodings(frames[start..pos], decode)
  }

  lemma OrderHandled(effects: seq<Effect>, e: Effect, start: nat, pos: nat, frames: seq<Bytes>, decode: Bytes -> Option<Decoded>, buffer: nat)
    requires InOrder(effects, pos, start, frames, decode) && Handles(e) && e.pos == pos && TrueOf(e, frames, decode, buffer)
    ensures InOrder(effects + [e], pos + 1, start, frames, decode)
  {
    IssuesMore(effects, e);
    DecodingsMore(frames, decode, start, pos);
    assert frames[start..start] == [];
  }

  lemma OrderUnmoved(effects: seq<Effect>, e: Effect, start: nat, pos: nat, frames: seq<Bytes>, decode: Bytes -> Option<Decoded>)
    requires InOrder(effects, pos, start, frames, decode) && !e.Issued?
    ensures InOrder(effects + [e], pos, start, frames, decode)
  {
    IssuesMore(effects, e);
    assert Issues(effects) + [] == Issues(effects);
  }

  lemma OrderPair(effects: seq<Effect>, a: Effect, b: Effect, start: nat, pos: nat,
                  frames: seq<Bytes>, decode: Bytes -> Option<Decoded>, buffer: nat)
    requires InOrder(effects, pos, start, frames, decode)
    requires !a.Issued? && b.Issued? && b.pos == pos && TrueOf(b, frames, decode, buffer)
    ensures InOrder(effects + [a, b], pos + 1, start, frames, decode)
  {
    assert effects + [a, b] == effects + [a] + [b];
    OrderUnmoved(effects, a, start, pos, frames, decode);
    OrderHandled(effects + [a], b, start, pos, frames, decode, buffer);
  }

  lemma OrderMoves(effects: seq<Effect>, more: seq<Effect>, start: nat, pos: nat, pos': nat,
                   frames: seq<Bytes>, decode: Bytes -> Option<Decoded>, buffer: nat)
    requires InOrder(effects, pos, start, frames, decode) && PassMoves(more, pos, pos')
    requires forall e :: e in more ==> !e.Skipped? && TrueOf(e, frames, decode, buffer)
    ensures InOrder(effects + more, pos', start, frames, decode)
  {
    if more == [] {
      assert effects + more == effects;
    } else if |more| == 1 {
      assert more == [more[0]];
      if Handles(more[0]) {
        OrderHandled(effects, more[0], start, pos, frames, decode, buffer);
      } else {
        OrderUnmoved(effects, more[0], start, pos, frames, decode);
      }
    } else {
      assert more == [more[0], more[1]];
      OrderPair(effects, more[0], more[1], start, pos, frames, decode, buffer);
    }
  }

  lemma NoLapNoSkip(d: Drain, frames: seq<Bytes>, idle: Idle, decode: Bytes -> Option<Decoded>, pass: Pass, more: seq<Effect>)
    requires !pass.poll.Lapped? && OnePass(d, frames, idle, decode, pass).effects == d.effects + more
    ensures forall e :: e in more ==> !e.Skipped?
  {
    assert more == OnePass(d, frames, idle, decode, pass).effects[|d.effects|..];
  }

  lemma MoreIsTrue(d: Drain, effects: seq<Effect>, more: seq<Effect>, frames: seq<Bytes>, decode: Bytes -> Option<Decoded>)
    requires AllTrue(d, frames, decode) && d.effects == effects + more
    ensures forall e :: e in more ==> TrueOf(e, frames, decode, d.buffer)
  {
    forall e | e in more ensures TrueOf(e, frames, decode, d.buffer) {
      var i :| 0 <= i < |more| && more[i] == e;
      assert d.effects[|effects| + i] == e;
    }
  }

  /** With no overrun, what was published is exactly the decodable frames from the first position to
      where the reader stands, in order and without gaps. */
  lemma {:induction false} IssuedInOrder(start: nat, frames: seq<Bytes>, idle: Idle, decode: Bytes -> Option<Decoded>,
                                         passes: seq<Pass>)
    requires forall i :: 0 <= i < |passes| ==> !passes[i].poll.Lapped?
    ensures
      var d := Drained(start, frames, idle, decode, passes);
      InOrder(d.effects, d.pos, start, frames, decode)
  {
    if passes != [] {
      var before, pass := passes[..|passes| - 1], passes[|passes| - 1];
      IssuedInOrder(start, frames, idle, decode, before);
      EffectsAreTrue(start, frames, idle, decode, passes);
      var d, d' := Drained(start, frames, idle, decode, before), Drained(start, frames, idle, decode, passes);
      var more := PassMovesCursor(d, frames, idle, decode, pass);
      NoLapNoSkip(d, frames, idle, decode, pass, more);
      MoreIsTrue(d', d.effects, more, frames, decode);
      OrderMoves(d.effects, more, start, d.pos, d'.pos, frames, decode, d'.buffer);
    }
  }

  // ---- Positions, counters and the end of the loop ---------------------------------------------

  function Skips(passes: seq<Pass>): nat {
    if passes == [] then 0
    else Skips(passes[..|passes| - 1]) + match passes[|passes| - 1].poll case Lapped(skip) => skip case _ => 0
  }

  /** Empty polls since a frame was last handled. */
  function Idling(effects: seq<Effect>): nat {
    if effects == [] then 0
    else
      match effects[|effects| - 1]
      case Rested(_) => Idling(effects[..|effects| - 1]) + 1
      case Issued(_, _, _) => 0
      case Undecodable(_) => 0
      case _ => Idling(effects[..|effects| - 1])
  }

  /** The loop rests with a sleep only when told to, and only after a thousand empty polls in a row. */
  ghost predicate RestsRight(effects: seq<Effect>, idle: Idle, i: nat)
    requires i < |effects|
  {
    effects[i].Rested? ==> (effects[i].slept <==> idle.Sleep? && Idling(effects[..i + 1]) > 1_000)
  }

  ghost predicate BooksOk(d: Drain, start: nat, idle: Idle, passes: seq<Pass>) {
    && (!d.stopped ==> d.pos == start + CountOf(d.effects, Handles) + Skips(passes))
    && d.undecodable == CountOf(d.effects, (e: Effect) => e.Undecodable?)
    && d.idlePolls == (if Idling(d.effects) < IDLE_MAX then Idling(d.effects) else IDLE_MAX)
    && (forall i :: 0 <= i < |d.effects| ==> RestsRight(d.effects, idle, i))
  }

  /** The counters after one more effect that is no overrun. */
  lemma BooksMore(effects: seq<Effect>, e: Effect, idle: Idle)
    requires forall i :: 0 <= i < |effects| ==> RestsRight(effects, idle, i)
    requires e.Rested? ==> (e.slept <==> idle.Sleep? && Idling(effects) + 1 > 1_000)
    ensures
      var after := effects + [e];
      && CountOf(after, Handles) == CountOf(effects, Handles) + (if Handles(e) then 1 else 0)
      && CountOf(after, (x: Effect) => x.Undecodable?) == CountOf(effects, (x: Effect) => x.Undecodable?) + (if e.Undecodable? then 1 else 0)
      && Idling(after) == (if e.Rested? then Idling(effects) + 1 else if Handles(e) then 0 else Idling(effects))
      && (forall i :: 0 <= i < |after| ==> RestsRight(after, idle, i))
  {
    var after := effects + [e];
    CountMore(effects, e, Handles);
    CountMore(effects, e, (x: Effect) => x.Undecodable?);
    assert after[..|effects|] == effects;
    assert after[..|after|] == after;
    forall i | 0 <= i < |after| ensures RestsRight(after, idle, i) {
      if i < |effects| {
        assert after[..i + 1] == effects[..i + 1] && RestsRight(effects, idle, i);
      }
    }
  }

  lemma BooksTwo(effects: seq<Effect>, a: Effect, b: Effect, idle: Idle)
    requires forall i :: 0 <= i < |effects| ==> RestsRight(effects, idle, i)
    requires !a.Rested? && !b.Rested? && !Handles(a) && !b.Undecodable?
    ensures
      var after := effects + [a, b];
      && CountOf(after, Handles) == CountOf(effects, Handles) + (if Handles(b) then 1 else 0)
      && CountOf(after, (x: Effect) => x.Undecodable?) == CountOf(effects, (x: Effect) => x.Undecodable?)
      && Idling(after) == (if Handles(b) then 0 else Idling(effects))
      && (forall i :: 0 <= i < |after| ==> RestsRight(after, idle, i))
  {
    assert effects + [a, b] == effects + [a] + [b];
    BooksMore(effects, a, idle);
    BooksMore(effects + [a], b, idle);
  }

  lemma SkipsMore(passes: seq<Pass>, pass: Pass)
    ensures Skips(passes + [pass]) == Skips(passes) + if pass.poll.Lapped? then pass.poll.skip else 0
  {
    assert (passes + [pass])[..|passes|] == passes;
  }

  lemma BooksHandled(d: Drain, start: nat, frames: seq<Bytes>, idle: Idle, decode: Bytes -> Option<Decoded>, passes: seq<Pass>)
    requires BooksOk(d, start, idle, passes) && !d.stopped && d.pos < |frames| && |frames[d.pos]| <= d.buffer
    ensures BooksOk(OnePass(d, frames, idle, decode, Pass(2, Poll.Ready)), start, idle, passes)
  {
    match decode(frames[d.pos])
    case Some(x) => BooksTwo(d.effects, Recorded(x.channel, x.payload), Issued(d.pos, x.channel, x.payload), idle);
    case None => BooksMore(d.effects, Undecodable(d.pos), idle);
  }

  lemma BooksRested(d: Drain, start: nat, idle: Idle, passes: seq<Pass>)
    requires BooksOk(d, start, idle, passes) && !d.stopped
    ensures BooksOk(RestOnce(d, idle), start, idle, passes)
  {
    BooksMore(d.effects, RestOnce(d, idle).effects[|d.effects|], idle);
  }

  lemma BooksGrew(d: Drain, start: nat, size: nat, idle: Idle, passes: seq<Pass>)
    requires BooksOk(d, start, idle, passes) && !d.stopped
    ensures BooksOk(d.(buffer := size, effects := d.effects + [Grew(size)]), start, idle, passes)
  {
    BooksMore(d.effects, Grew(size), idle);
  }

  lemma BooksLapped(d: Drain, start: nat, skip: nat, idle: Idle, passes: seq<Pass>, pass: Pass)
    requires BooksOk(d, start, idle, passes) && !d.stopped && pass.poll == Lapped(skip)
    ensures BooksOk(d.(pos := d.pos + skip, effects := d.effects + [Skipped(d.pos + skip), Told]), start, idle, passes + [pass])
  {
    SkipsMore(passes, pass);
    BooksTwo(d.effects, Skipped(d.pos + skip), Told, idle);
  }

  lemma BooksPass(d: Drain, start: nat, frames: seq<Bytes>, idle: Idle, decode: Bytes -> Option<Decoded>,
                  passes: seq<Pass>, pass: Pass)
    requires BooksOk(d, start, idle, passes)
    ensures BooksOk(OnePass(d, frames, idle, decode, pass), start, idle, passes + [pass])
  {
    SkipsMore(passes, pass);
    if d.stopped || pass.strong <= 1 || pass.poll.Failed? {
    } else if pass.poll.Lapped? {
      BooksLapped(d, start, pass.poll.skip, idle, passes, pass);
    } else if pass.poll.Empty? || d.pos >= |frames| {
      BooksRested(d, start, idle, passes);
    } else if |frames[d.pos]| > d.buffer {
      BooksGrew(d, start, |frames[d.pos]|, idle, passes);
    } else {
      BooksHandled(d, start, frames, idle, decode, passes);
    }
  }

  /** In every run of the loop the reader stands at its first position plus the frames handled plus
      what the resyncs skipped; the rejected frames are counted; and the empty polls in a row, which a
      handled frame ends, decide when the loop sleeps. */
  lemma {:induction false} BooksAreKept(start: nat, frames: seq<Bytes>, idle: Idle, decode: Bytes -> Option<Decoded>,
                                        passes: seq<Pass>)
    ensures BooksOk(Drained(start, frames, idle, decode, passes), start, idle, passes)
  {
    if passes != [] {
      var before, pass := passes[..|passes| - 1], passes[|passes| - 1];
      BooksAreKept(start, frames, idle, decode, before);
      BooksPass(Drained(start, frames, idle, decode, before), start, frames, idle, decode, before, pass);
      assert before + [pass] == passes;
    }
  }

  /** The loop has ended exactly if a pass found no other holder of the server or a broken queue. */
  lemma {:induction false} StoppedIff(start: nat, frames: seq<Bytes>, idle: Idle, decode: Bytes -> Option<Decoded>,
                                      passes: seq<Pass>)
    ensures Drained(start, frames, idle, decode, passes).stopped <==>
            exists i :: 0 <= i < |passes| && (passes[i].strong <= 1 || passes[i].poll.Failed?)
  {
    if passes != [] {
      var n := |passes| - 1;
      StoppedIff(start, frames, idle, decode, passes[..n]);
      if exists i :: 0 <= i < n && (passes[i].strong <= 1 || passes[i].poll.Failed?) {
        var i :| 0 <= i < n && (passes[i].strong <= 1 || passes[i].poll.Failed?);
        assert passes[..n][i] == passes[i];
      }
    }
  }

  // ---- The loop runs the gateway's part of the machine --------------------------------------

  /** The machine steps that an effect stands for. */
  function AsLabels(e: Effect): seq<Label> {
    match e
    case Recorded(ch, v) => [Record(ch, v)]
    case Issued(_, ch, v) => [StartPublish(GATEWAY, ch, Data(ch, v))]
    case Skipped(_) => [Overrun]
    case Told => [StartBroadcast(GATEWAY)]
    case _ => []
  }

  /** The state of the gateway thread after a step of its own that the machine allows. */
  function Follow(g: Option<Gateway>, l: Label): Option<Gateway> {
    match l
    case Record(ch, v) => if g == Some(Resting) then Some(Gateway.Ready(ch, v)) else None
    case Overrun => if g == Some(Resting) then Some(Lost) else None
    case StartPublish(_, ch, frame) =>
      if frame.Data? && g == Some(Gateway.Ready(ch, frame.payload)) then Some(Resting) else None
    case StartBroadcast(_) => if g == Some(Lost) then Some(Resting) else None
    case _ => None
  }

  function FollowEffect(g: Option<Gateway>, e: Effect): Option<Gateway> {
    if AsLabels(e) == [] then g else Follow(g, AsLabels(e)[0])
  }

  function FollowAll(effects: seq<Effect>): Option<Gateway> {
    if effects == [] then Some(Resting)
    else FollowEffect(FollowAll(effects[..|effects| - 1]), effects[|effects| - 1])
  }

  /** `Follow` is what the machine does with the gateway's steps. */
  lemma FollowIsTheMachine(env: Env, w: World, l: Label)
    requires l.Record? || l.Overrun? || (l.StartPublish? && l.p == GATEWAY) || (l.StartBroadcast? && l.p == GATEWAY)
    requires Publisher(GATEWAY) !in w.readers && (l.StartPublish? ==> Airable(l.channel, l.frame))
    ensures Enabled(env, w, l) <==> Follow(Some(w.gateway), l).Some?
    ensures Enabled(env, w, l) ==> Follow(Some(w.gateway), l) == Some(Step(env, w, l).gateway)
  {
  }

  lemma FollowMore(effects: seq<Effect>, e: Effect)
    ensures FollowAll(effects + [e]) == FollowEffect(FollowAll(effects), e)
  {
    assert (effects + [e])[..|effects|] == effects;
  }

  lemma FollowPair(effects: seq<Effect>, a: Effect, b: Effect)
    ensures FollowAll(effects + [a, b]) == FollowEffect(FollowEffect(FollowAll(effects), a), b)
  {
    assert effects + [a, b] == effects + [a] + [b];
    FollowMore(effects, a);
    FollowMore(effects + [a], b);
  }

  /** What one pass can add: nothing, one effect the machine does not see, a value recorded and
      published, or an overrun noticed and told. */
  ghost predicate PassShape(more: seq<Effect>) {
    || more == []
    || (|more| == 1 && AsLabels(more[0]) == [])
    || (|more| == 2 && more[0].Recorded? && more[1].Issued?
        && more[0].channel == more[1].channel && more[0].payload == more[1].payload)
    || (|more| == 2 && more[0].Skipped? && more[1].Told?)
  }

  lemma PassAdds(d: Drain, frames: seq<Bytes>, idle: Idle, decode: Bytes -> Option<Decoded>, pass: Pass) returns (more: seq<Effect>)
    ensures OnePass(d, frames, idle, decode, pass).effects == d.effects + more && PassShape(more)
  {
    var effects := OnePass(d, frames, idle, decode, pass).effects;
    more := effects[|d.effects|..];
  }

  lemma FollowShape(effects: seq<Effect>, more: seq<Effect>)
    requires FollowAll(effects) == Some(Resting) && PassShape(more)
    ensures FollowAll(effects + more) == Some(Resting)
  {
    if |more| == 2 {
      assert more == [more[0], more[1]];
      FollowPair(effects, more[0], more[1]);
    } else if |more| == 1 {
      assert more == [more[0]];
      FollowMore(effects, more[0]);
    } else {
      assert effects + more == effects;
    }
  }

  /** Every run of the drain loop takes the gateway's steps in an order the machine allows: each
      value is recorded right before it is published, and each overrun is told at once. */
  lemma {:induction false} LoopFollowsGateway(start: nat, frames: seq<Bytes>, idle: Idle, decode: Bytes -> Option<Decoded>,
                                              passes: seq<Pass>)
    ensures FollowAll(Drained(start, frames, idle, decode, passes).effects) == Some(Resting)
  {
    if passes != [] {
      var before := passes[..|passes| - 1];
      LoopFollowsGateway(start, frames, idle, decode, before);
      var d := Drained(start, frames, idle, decode, before);
      var more := PassAdds(d, frames, idle, decode, passes[|passes| - 1]);
      FollowShape(d.effects, more);
    }
  }

  // ---- The loop's steps among everybody else's ----------------------------------------------

  /** The steps that only the gateway thread takes, apart from its deliveries. */
  predicate OfGateway(l: Label) {
    l.Record? || l.Overrun? || (l.StartPublish? && l.p == GATEWAY) || (l.StartBroadcast? && l.p == GATEWAY)
  }

  /** The gateway's part of a run. */
  function Projected(run: seq<Label>): seq<Label> {
    if run == [] then []
    else Projected(run[..|run| - 1]) + if OfGateway(run[|run| - 1]) then [run[|run| - 1]] else []
  }

  function FollowLabels(labels: seq<Label>): Option<Gateway> {
    if labels == [] then Some(Resting)
    else Follow(FollowLabels(labels[..|labels| - 1]), labels[|labels| - 1])
  }

  lemma FollowLabelsMore(labels: seq<Label>, l: Label)
    ensures FollowLabels(labels + [l]) == Follow(FollowLabels(labels), l)
  {
    assert (labels + [l])[..|labels|] == labels;
  }

  lemma GatewayStep(env: Env, w: World, l: Label, labels: seq<Label>)
    requires Enabled(env, w, l) && FollowLabels(labels) == Some(w.gateway)
    ensures FollowLabels(labels + if OfGateway(l) then [l] else []) == Some(Step(env, w, l).gateway)
  {
    if OfGateway(l) {
      FollowLabelsMore(labels, l);
      FollowIsTheMachine(env, w, l);
    } else {
      GatewayUntouched(env, w, l);
      assert labels + [] == labels;
    }
  }

  lemma GatewayUntouched(env: Env, w: World, l: Label)
    requires Enabled(env, w, l) && !OfGateway(l)
    ensures Step(env, w, l).gateway == w.gateway
  {
    if !Feeds(l) {
      FeedUntouched(env, w, l);
    }
  }

  /** In every run of the machine the gateway's own steps, whatever happens between them, take the
      automaton of the loop to the gateway's state. */
  lemma {:induction false} GatewayFollows(env: Env, run: seq<Label>)
    requires Legal(env, run)
    ensures FollowLabels(Projected(run)) == Some(After(env, run).gateway)
  {
    if run != [] {
      var before := run[..|run| - 1];
      GatewayFollows(env, before);
      GatewayStep(env, After(env, before), run[|run| - 1], Projected(before));
    }
  }

  function LabelsOf(effects: seq<Effect>): seq<Label> {
    if effects == [] then [] else LabelsOf(effects[..|effects| - 1]) + AsLabels(effects[|effects| - 1])
  }

  lemma {:induction false} FollowLabelsOf(effects: seq<Effect>)
    ensures FollowLabels(LabelsOf(effects)) == FollowAll(effects)
  {
    if effects != [] {
      var before, e := effects[..|effects| - 1], effects[|effects| - 1];
      FollowLabelsOf(before);
      if AsLabels(e) == [] {
        assert LabelsOf(before) + [] == LabelsOf(before);
      } else {
        var l := OneLabel(e);
        FollowLabelsMore(LabelsOf(before), l);
      }
    }
  }

  lemma {:induction false} FollowPrefix(effects: seq<Effect>, n: nat)
    requires n <= |effects| && FollowAll(effects).Some?
    ensures FollowAll(effects[..n]).Some?
  {
    if n == |effects| {
      assert effects[..n] == effects;
    } else {
      assert effects[..|effects| - 1][..n] == effects[..n];
      FollowPrefix(effects[..|effects| - 1], n);
    }
  }

  lemma NextFollows(effects: seq<Effect>, n: nat)
    requires FollowAll(effects).Some? && n < |effects|
    ensures FollowEffect(FollowLabels(LabelsOf(effects[..n])), effects[n]).Some?
  {
    FollowPrefix(effects, n + 1);
    FollowAt(effects, n);
    FollowLabelsOf(effects[..n]);
  }

  lemma FollowAt(effects: seq<Effect>, n: nat)
    requires n < |effects|
    ensures FollowAll(effects[..n + 1]) == FollowEffect(FollowAll(effects[..n]), effects[n])
  {
    assert effects[..n + 1] == effects[..n] + [effects[n]];
    FollowMore(effects[..n], effects[n]);
  }

  lemma NextEffectEnabled(env: Env, run: seq<Label>, effects: seq<Effect>, n: nat)
    requires Legal(env, run) && Publisher(GATEWAY) !in After(env, run).readers
    requires FollowAll(effects).Some? && n < |effects| && Projected(run) == LabelsOf(effects[..n])
    requires AsLabels(effects[n]) != []
    ensures Enabled(env, After(env, run), AsLabels(effects[n])[0])
  {
    NextFollows(effects, n);
    GatewayFollows(env, run);
    EffectEnabled(env, After(env, run), effects[n]);
  }

  lemma EffectEnabled(env: Env, w: World, e: Effect)
    requires Publisher(GATEWAY) !in w.readers && AsLabels(e) != [] && FollowEffect(Some(w.gateway), e).Some?
    ensures Enabled(env, w, AsLabels(e)[0])
  {
    FollowIsTheMachine(env, w, AsLabels(e)[0]);
  }

  lemma ProjectedMore(run: seq<Label>, l: Label)
    ensures Projected(run + [l]) == Projected(run) + if OfGateway(l) then [l] else []
  {
    assert (run + [l])[..|run|] == run;
  }

  lemma LabelsOfMore(effects: seq<Effect>, n: nat)
    requires n < |effects|
    ensures LabelsOf(effects[..n + 1]) == LabelsOf(effects[..n]) + AsLabels(effects[n])
  {
    assert effects[..n + 1][..n] == effects[..n];
  }

  lemma NextEffectProjected(run: seq<Label>, effects: seq<Effect>, n: nat)
    requires n < |effects| && Projected(run) == LabelsOf(effects[..n]) && AsLabels(effects[n]) != []
    ensures Projected(run + [AsLabels(effects[n])[0]]) == LabelsOf(effects[..n + 1])
  {
    var l := OneLabel(effects[n]);
    ProjectedMore(run, l);
    LabelsOfMore(effects, n);
  }

  lemma OneLabel(e: Effect) returns (l: Label)
    requires AsLabels(e) != []
    ensures AsLabels(e) == [l] && OfGateway(l)
  {
    l := AsLabels(e)[0];
  }

  /** The drain loop runs inside the machine: in any run, with anything in between, whose gateway
      steps are those of the loop's first `n` effects and whose gateway holds no read lock, the step
      that the loop's next effect stands for is enabled, and taking it keeps the two in step. */
  lemma LoopRunsInTheMachine(env: Env, run: seq<Label>, start: nat, frames: seq<Bytes>, idle: Idle,
                             decode: Bytes -> Option<Decoded>, passes: seq<Pass>, n: nat)
    requires Legal(env, run) && Publisher(GATEWAY) !in After(env, run).readers
    requires
      var effects := Drained(start, frames, idle, decode, passes).effects;
      n < |effects| && Projected(run) == LabelsOf(effects[..n])
    ensures
      var effects := Drained(start, frames, idle, decode, passes).effects;
      AsLabels(effects[n]) != [] ==>
        var l := AsLabels(effects[n])[0];
        Enabled(env, After(env, run), l) && Projected(run + [l]) == LabelsOf(effects[..n + 1])
  {
    var effects := Drained(start, frames, idle, decode, passes).effects;
    LoopFollowsGateway(start, frames, idle, decode, passes);
    if AsLabels(effects[n]) != [] {
      NextEffectEnabled(env, run, effects, n);
      NextEffectProjected(run, effects, n);
    }
  }
}

/** Dropping the server: callers hold clones, each source thread holds one more, and a source
    leaves when it reads a strong count of at most one. */
module Shutdown {

  datatype Alive = Alive(callers: nat, sources: set<nat>)

  datatype Act = CloneServer | DropServer | Spawn(i: nat) | Test(i: nat) | Fail(i: nat)

  function Strong(a: Alive): nat {
    a.callers + |a.sources|
  }

  predicate Can(a: Alive, act: Act) {
    match act
    case CloneServer => a.callers > 0
    case DropServer => a.callers > 0
    case Spawn(i) => a.callers > 0 && i !in a.sources
    case Test(i) => i in a.sources
    case Fail(i) => i in a.sources
  }

  function Do(a: Alive, act: Act): Alive
    requires Can(a, act)
  {
    match act
    case CloneServer => a.(callers := a.callers + 1)
    case DropServer => a.(callers := a.callers - 1)
    case Spawn(i) => a.(sources := a.sources + {i})
    case Test(i) => if Strong(a) > 1 then a else a.(sources := a.sources - {i})
    case Fail(i) => a.(sources := a.sources - {i})
  }

  predicate Feasible(a: Alive, acts: seq<Act>)
    decreases |acts|, 0
  {
    acts == [] || (Feasible(a, acts[..|acts| - 1]) && Can(Then(a, acts[..|acts| - 1]), acts[|acts| - 1]))
  }

  function Then(a: Alive, acts: seq<Act>): Alive
    requires Feasible(a, acts)
    decreases |acts|, 1
  {
    if acts == [] then a else Do(Then(a, acts[..|acts| - 1]), acts[|acts| - 1])
  }

  /** The callers' clones after a run are those before it, plus the clones made, minus the clones
      dropped. */
  function Clones(acts: seq<Act>): int {
    if acts == [] then 0
    else
      Clones(acts[..|acts| - 1]) +
      match acts[|acts| - 1] case CloneServer => 1 case DropServer => -1 case _ => 0
  }

  lemma {:induction false} CallersAreCounted(a: Alive, acts: seq<Act>)
    requires Feasible(a, acts)
    ensures Then(a, acts).callers == a.callers + Clones(acts)
  {
    if acts != [] {
      CallersAreCounted(a, acts[..|acts| - 1]);
    }
  }

  lemma {:induction false} FeasiblePrefix(a: Alive, acts: seq<Act>, n: nat)
    requires Feasible(a, acts) && n <= |acts|
    ensures Feasible(a, acts[..n])
  {
    if n == |acts| {
      assert acts[..n] == acts;
    } else {
      assert acts[..|acts| - 1][..n] == acts[..n];
      FeasiblePrefix(a, acts[..|acts| - 1], n);
    }
  }

  /** With act `n` source `i` goes: its queue failed, or its exit test found nobody else. */
  ghost predicate Goes(a: Alive, acts: seq<Act>, n: nat, i: nat)
    requires n < |acts|
  {
    || acts[n] == Fail(i)
    || (acts[n] == Test(i) && Feasible(a, acts[..n]) && Strong(Then(a, acts[..n])) <= 1)
  }

  /** Source `i` was started by act `n`, or was there from the start, and has not gone since. */
  ghost predicate StaysFrom(a: Alive, acts: seq<Act>, n: nat, i: nat) {
    && n <= |acts|
    && (if n == 0 then i in a.sources else acts[n - 1] == Spawn(i))
    && forall m :: n <= m < |acts| ==> !Goes(a, acts, m, i)
  }

  lemma StaysMore(a: Alive, acts: seq<Act>, act: Act, n: nat, i: nat)
    requires n <= |acts|
    ensures StaysFrom(a, acts + [act], n, i) <==> StaysFrom(a, acts, n, i) && !Goes(a, acts + [act], |acts|, i)
  {
    forall m | 0 <= m < |acts| ensures Goes(a, acts + [act], m, i) == Goes(a, acts, m, i) {
      assert (acts + [act])[..m] == acts[..m];
    }
  }

  /** The sources that live after a run are those of its beginning and those spawned in it, but for
      the ones that have left at an exit test or failed since. */
  lemma {:induction false} SourcesAreThoseThatStay(a: Alive, acts: seq<Act>, i: nat)
    requires Feasible(a, acts)
    ensures i in Then(a, acts).sources <==> exists n: nat :: StaysFrom(a, acts, n, i)
  {
    if acts == [] {
      assert StaysFrom(a, acts, 0, i) <==> i in a.sources;
    } else {
      var k := |acts| - 1;
      var before, act := acts[..k], acts[k];
      assert before + [act] == acts && acts[..k] == before;
      SourcesAreThoseThatStay(a, before, i);
      SourcesStep(a, before, act, i);
    }
  }

  lemma SourcesStep(a: Alive, acts: seq<Act>, act: Act, i: nat)
    requires Feasible(a, acts) && Can(Then(a, acts), act)
    requires i in Then(a, acts).sources <==> exists n: nat :: StaysFrom(a, acts, n, i)
    ensures i in Do(Then(a, acts), act).sources <==> exists n: nat :: StaysFrom(a, acts + [act], n, i)
  {
    var after := acts + [act];
    assert after[..|acts|] == acts;
    forall n: nat | n <= |acts| ensures StaysFrom(a, after, n, i) <==> StaysFrom(a, acts, n, i) && !Goes(a, after, |acts|, i) {
      StaysMore(a, acts, act, n, i);
    }
    assert StaysFrom(a, after, |after|, i) <==> act == Spawn(i);
    if i in Then(a, acts).sources && !Goes(a, after, |acts|, i) {
      var n: nat :| StaysFrom(a, acts, n, i);
      assert StaysFrom(a, after, n, i);
    }
  }

  /** No source leaves at an exit test while a caller still holds the server. */
  lemma NobodyLeavesACaller(a: Alive, acts: seq<Act>, n: nat, i: nat)
    requires Feasible(a, acts) && n < |acts| && acts[n] == Test(i)
    ensures Feasible(a, acts[..n]) && Feasible(a, acts[..n + 1])
    ensures Then(a, acts[..n]).callers > 0 ==> i in Then(a, acts[..n + 1]).sources
  {
    FeasiblePrefix(a, acts, n);
    FeasiblePrefix(a, acts, n + 1);
    assert acts[..n + 1][..n] == acts[..n];
    LeavesIffAlone(Then(a, acts[..n]), i);
  }

  /** A source leaves at a test exactly when it is the last holder of a clone. */
  lemma LeavesIffAlone(a: Alive, i: nat)
    requires i in a.sources
    ensures i !in Do(a, Test(i)).sources <==> a.callers == 0 && a.sources == {i}
  {
    if a.callers == 0 && a.sources != {i} {
      var j :| j in a.sources && j != i;
      assert {i, j} <= a.sources;
      AtLeastTwo(a.sources, i, j);
    }
  }

  lemma AtLeastTwo(s: set<nat>, i: nat, j: nat)
    requires i in s && j in s && i != j
    ensures |s| >= 2
  {
    assert s == {i} + (s - {i});
    assert j in s - {i};
  }

  /** Once every caller's clone is dropped, and as long as no queue fails: two or more sources keep
      each other alive for ever, and no clone comes back. */
  lemma {:induction false} TwoSourcesNeverLeave(a: Alive, acts: seq<Act>)
    requires a.callers == 0 && |a.sources| >= 2
    requires Feasible(a, acts) && forall i :: 0 <= i < |acts| ==> !acts[i].Fail?
    ensures Then(a, acts) == a
  {
    if acts != [] {
      TwoSourcesNeverLeave(a, acts[..|acts| - 1]);
      assert !acts[|acts| - 1].Fail?;
    }
  }

  /** "Drop every clone to stop" holds exactly when at most one source was live: once every source
      has come to its exit test, with no queue failing, nobody holds the server any more if and
      only if there was at most one source when the last clone was dropped. */
  lemma DropStopsIffAtMostOneSource(a: Alive, acts: seq<Act>)
    requires a.callers == 0
    requires Feasible(a, acts) && forall i :: 0 <= i < |acts| ==> !acts[i].Fail?
    requires forall s :: s in a.sources ==> exists i :: 0 <= i < |acts| && acts[i] == Test(s)
    ensures Strong(Then(a, acts)) == 0 <==> |a.sources| <= 1
  {
    if |a.sources| >= 2 {
      TwoSourcesNeverLeave(a, acts);
    } else if |a.sources| == 1 {
      var s :| s in a.sources;
      assert a.sources == {s} by {
        if exists x :: x in a.sources && x != s {
          var x :| x in a.sources && x != s;
          AtLeastTwo(a.sources, s, x);
        }
      }
      var i :| 0 <= i < |acts| && acts[i] == Test(s);
      LoneSourceLeaves(a, acts, s, i);
    } else {
      NobodyStays(a, acts);
    }
  }

  lemma {:induction false} NobodyStays(a: Alive, acts: seq<Act>)
    requires a.callers == 0 && a.sources == {} && Feasible(a, acts)
    ensures Then(a, acts) == a
  {
    if acts != [] {
      NobodyStays(a, acts[..|acts| - 1]);
    }
  }

  /** A lone source leaves at its first test after the last caller's clone is dropped. */
  lemma {:induction false} LoneSourceLeaves(a: Alive, acts: seq<Act>, s: nat, i: nat)
    requires a.callers == 0 && a.sources == {s} && Feasible(a, acts)
    requires i < |acts| && acts[i] == Test(s)
    ensures Then(a, acts) == Alive(0, {})
  {
    var before, act := acts[..|acts| - 1], acts[|acts| - 1];
    if i < |before| {
      LoneSourceLeaves(a, before, s, i);
    } else {
      LoneOrGone(a, before, s);
    }
  }

  lemma {:induction false} LoneOrGone(a: Alive, acts: seq<Act>, s: nat)
    requires a.callers == 0 && a.sources == {s} && Feasible(a, acts)
    ensures Then(a, acts) == a || Then(a, acts) == Alive(0, {})
  {
    if acts != [] {
      LoneOrGone(a, acts[..|acts| - 1], s);
    }
  }

  lemma FeasibleMore(a: Alive, acts: seq<Act>, act: Act)
    requires Feasible(a, acts) && Can(Then(a, acts), act)
    ensures Feasible(a, acts + [act]) && Then(a, acts + [act]) == Do(Then(a, acts), act)
  {
    assert (acts + [act])[..|acts|] == acts;
  }

  /** A server's whole life: two sources are started and one fails, a clone comes and goes, the other
      source stays at its exit test, and leaves at the next one once the caller is gone. */
  lemma WholeLife() returns (acts: seq<Act>)
    ensures Feasible(Alive(1, {}), acts)
    ensures acts == [Spawn(1)] + [Spawn(2)] + [CloneServer] + [DropServer] + [Fail(2)] + [Test(1)] + [DropServer] + [Test(1)]
    ensures Feasible(Alive(1, {}), acts[..6]) && Then(Alive(1, {}), acts[..6]) == Alive(1, {1})
    ensures Then(Alive(1, {}), acts) == Alive(0, {})
  {
    var a := Alive(1, {});
    FeasibleMore(a, [], Spawn(1));
    acts := [Spawn(1)];
    FeasibleMore(a, acts, Spawn(2));
    acts := acts + [Spawn(2)];
    FeasibleMore(a, acts, CloneServer);
    acts := acts + [CloneServer];
    FeasibleMore(a, acts, DropServer);
    acts := acts + [DropServer];
    FeasibleMore(a, acts, Fail(2));
    acts := acts + [Fail(2)];
    assert {1} + {2} - {2} == {1};
    FeasibleMore(a, acts, Test(1));
    acts := acts + [Test(1)];
    var six := acts;
    FeasibleMore(a, acts, DropServer);
    acts := acts + [DropServer];
    FeasibleMore(a, acts, Test(1));
    acts := acts + [Test(1)];
    assert acts[..6] == six;
  }

  /** Two sources and no caller: the documented stop does not happen. */
  lemma TwoSourcesExample()
    ensures
      var a := Alive(0, {1, 2});
      Feasible(a, [Test(1), Test(2)]) && Strong(Then(a, [Test(1), Test(2)])) == 2
  {
    var a := Alive(0, {1, 2});
    assert [Test(1)][..0] == [];
    assert Feasible(a, [Test(1)]);
    assert [Test(1), Test(2)][..1] == [Test(1)];
    assert Then(a, [Test(1)]) == a;
    assert Then(a, [Test(1), Test(2)]) == a;
  }
}
