/** The life of a connection task around the fan-out machine: permit, handshake, authentication,
    acknowledgement, registration, session, removal, release. Every step that touches the registry
    is a step of the machine, so everything proved about the machine's runs holds here too. */
module Lifecycle {
  import opened Protocol
  import opened Machine
  import opened Invariant
  import opened Output

  type TaskId = nat

  /** `wrote` is what the task put on the socket before its session. */
  datatype Phase =
    | Handshaking
    | Authenticating
    | Acking(token: Token, claims: Claims)
    | Acked(token: Token, claims: Claims, wrote: seq<Frame>)
    | Drawn(token: Token, claims: Claims, wrote: seq<Frame>, id: ConnId)
    | Inserted(token: Token, claims: Claims, wrote: seq<Frame>, id: ConnId)
    | Totalled(token: Token, claims: Claims, wrote: seq<Frame>, id: ConnId)
    | Running(token: Token, claims: Claims, wrote: seq<Frame>, id: ConnId)
    | Unwinding(token: Token, claims: Claims, wrote: seq<Frame>, id: ConnId)
    | Ending

  /** `free` counts the permits of `Shared.slots`; `active`, `total` and `refused` are metrics.
      `greetings` is history: what the task of each connection had written when it registered. */
  datatype House = House(
    tasks: map<TaskId, Phase>,
    nextTask: TaskId,
    free: nat,
    active: int,
    total: nat,
    refused: nat,
    greetings: map<ConnId, seq<Frame>>,
    fan: World)

  datatype Move =
    | Accept
    | Refuse
    | Handshook(t: TaskId)
    | Present(t: TaskId, token: Token)
    | AckWritten(t: TaskId)
    | GiveUp(t: TaskId)
    | DrawId(t: TaskId)
    | Enter(t: TaskId)
    | CountTotal(t: TaskId)
    | CountActive(t: TaskId)
    | Work(t: TaskId, l: Label)
    | Leave(t: TaskId)
    | Unregister(t: TaskId)
    | Release(t: TaskId)
    | Outside(l: Label)

  function Vacant(env: Env): House {
    House(map[], 0, env.config.maxConnections, 0, 0, 0, map[], Init())
  }

  /** The steps a session task takes for its own connection. */
  predicate SessionLabel(l: Label, id: ConnId) {
    match l
    case Subscribe(i, _) => i == id
    case Unsubscribe(i, _) => i == id
    case Request(i, _) => i == id
    case Beat(i, _) => i == id
    case Take(i, _) => i == id
    case Lookup(i) => i == id
    case StartSend(i) => i == id
    case Check(i) => i == id
    case _ => false
  }

  /** The steps of publishers, of the feed, and of deliveries under way. */
  predicate OutsideLabel(l: Label) {
    || l.Record? || l.Overrun? || l.StartPublish? || l.StartBroadcast?
    || l.TrySend? || l.Count? || l.Mark? || l.EndRead?
  }

  /** The machine step that a move performs, if any. */
  function FanLabel(h: House, m: Move): Option<Label> {
    match m
    case DrawId(_) => Some(Draw)
    case Enter(t) =>
      if t in h.tasks && h.tasks[t].Drawn? then Some(Insert(h.tasks[t].id, h.tasks[t].claims)) else None
    case Work(_, l) => Some(l)
    case Leave(t) => if t in h.tasks && h.tasks[t].Running? then Some(Shut(h.tasks[t].id)) else None
    case Unregister(t) => if t in h.tasks && h.tasks[t].Unwinding? then Some(Remove(h.tasks[t].id)) else None
    case Outside(l) => Some(l)
    case _ => None
  }

  predicate Ready(env: Env, h: House, m: Move) {
    && (FanLabel(h, m).Some? ==> Enabled(env, h.fan, FanLabel(h, m).value))
    && match m
       case Accept => h.free > 0
       case Refuse => h.free == 0
       case Handshook(t) => t in h.tasks && h.tasks[t].Handshaking?
       case Present(t, _) => t in h.tasks && h.tasks[t].Authenticating?
       case AckWritten(t) => t in h.tasks && h.tasks[t].Acking?
       case GiveUp(t) => t in h.tasks && (h.tasks[t].Handshaking? || h.tasks[t].Authenticating? || h.tasks[t].Acking?)
       case DrawId(t) => t in h.tasks && h.tasks[t].Acked?
       case Enter(t) => t in h.tasks && h.tasks[t].Drawn?
       case CountTotal(t) => t in h.tasks && h.tasks[t].Inserted?
       case CountActive(t) => t in h.tasks && h.tasks[t].Totalled?
       case Work(t, l) => t in h.tasks && h.tasks[t].Running? && SessionLabel(l, h.tasks[t].id)
       case Leave(t) => t in h.tasks && h.tasks[t].Running?
       case Unregister(t) => t in h.tasks && h.tasks[t].Unwinding?
       case Release(t) => t in h.tasks && h.tasks[t].Ending?
       case Outside(l) => OutsideLabel(l)
  }

  /** The phase a task moves to. A refused token ends the task after an error frame. */
  function NextPhase(env: Env, h: House, m: Move, was: Phase): Phase {
    match m
    case Handshook(_) => Authenticating
    case Present(_, token) =>
      if env.validate(token).Some? then Acking(token, env.validate(token).value) else Ending
    case AckWritten(_) => if was.Acking? then Acked(was.token, was.claims, [Authenticated(was.claims.subject)]) else was
    case GiveUp(_) => Ending
    case DrawId(_) => if was.Acked? then Drawn(was.token, was.claims, was.wrote, h.fan.nextId) else was
    case Enter(_) => if was.Drawn? then Inserted(was.token, was.claims, was.wrote, was.id) else was
    case CountTotal(_) => if was.Inserted? then Totalled(was.token, was.claims, was.wrote, was.id) else was
    case CountActive(_) => if was.Totalled? then Running(was.token, was.claims, was.wrote, was.id) else was
    case Leave(_) => if was.Running? then Unwinding(was.token, was.claims, was.wrote, was.id) else was
    case Unregister(_) => Ending
    case _ => was
  }

  function Actor(m: Move): Option<TaskId> {
    match m
    case Accept => None
    case Refuse => None
    case Outside(_) => None
    case _ => Some(m.t)
  }

  function Tasks(env: Env, h: House, m: Move): map<TaskId, Phase> {
    match m
    case Accept => h.tasks[h.nextTask := Handshaking]
    case Refuse => h.tasks
    case Outside(_) => h.tasks
    case Release(t) => h.tasks - {t}
    case _ => if m.t in h.tasks then h.tasks[m.t := NextPhase(env, h, m, h.tasks[m.t])] else h.tasks
  }

  function Go(env: Env, h: House, m: Move): House
    requires Ready(env, h, m)
  {
    House(
      Tasks(env, h, m),
      if m.Accept? then h.nextTask + 1 else h.nextTask,
      if m.Accept? then h.free - 1 else if m.Release? then h.free + 1 else h.free,
      if m.CountActive? then h.active + 1 else if m.Unregister? then h.active - 1 else h.active,
      if m.CountTotal? then h.total + 1 else h.total,
      if m.Refuse? then h.refused + 1 else h.refused,
      if m.Enter? then h.greetings[h.tasks[m.t].id := h.tasks[m.t].wrote] else h.greetings,
      if FanLabel(h, m).Some? then Step(env, h.fan, FanLabel(h, m).value) else h.fan)
  }

  predicate Possible(env: Env, moves: seq<Move>)
    decreases |moves|, 0
  {
    moves == [] ||
    (Possible(env, moves[..|moves| - 1]) && Ready(env, Reach(env, moves[..|moves| - 1]), moves[|moves| - 1]))
  }

  function Reach(env: Env, moves: seq<Move>): House
    requires Possible(env, moves)
    decreases |moves|, 1
  {
    if moves == [] then Vacant(env) else Go(env, Reach(env, moves[..|moves| - 1]), moves[|moves| - 1])
  }

  // ---- Every lifecycle run is a run of the machine -----------------------------------------

  function FanRun(env: Env, moves: seq<Move>): seq<Label>
    requires Possible(env, moves)
  {
    if moves == [] then []
    else
      var l := FanLabel(Reach(env, moves[..|moves| - 1]), moves[|moves| - 1]);
      FanRun(env, moves[..|moves| - 1]) + if l.Some? then [l.value] else []
  }

  lemma {:induction false} FanRunIsLegal(env: Env, moves: seq<Move>)
    requires Possible(env, moves)
    ensures Legal(env, FanRun(env, moves)) && After(env, FanRun(env, moves)) == Reach(env, moves).fan
  {
    if moves != [] {
      var before := moves[..|moves| - 1];
      FanRunIsLegal(env, before);
      var l := FanLabel(Reach(env, before), moves[|moves| - 1]);
      if l.Some? {
        LegalSnoc(env, FanRun(env, before), l.value);
      } else {
        assert FanRun(env, moves) == FanRun(env, before);
      }
    }
  }

  // ---- What holds in every reachable state ---------------------------------------------------

  predicate HasId(p: Phase) {
    p.Drawn? || p.Inserted? || p.Totalled? || p.Running? || p.Unwinding?
  }

  predicate OnBooks(p: Phase) {
    p.Inserted? || p.Totalled? || p.Running? || p.Unwinding?
  }

  predicate CountedIn(p: Phase) {
    p.Running? || p.Unwinding?
  }

  predicate Pending(p: Phase) {
    p.Inserted? || p.Totalled?
  }

  function Those(tasks: map<TaskId, Phase>, want: Phase -> bool): set<TaskId> {
    set t | t in tasks && want(tasks[t])
  }

  /** A task's phase agrees with the machine and with the validator. */
  ghost predicate TaskOk(env: Env, h: House, t: TaskId)
    requires t in h.tasks
  {
    var p := h.tasks[t];
    && t < h.nextTask
    && (p.Acking? || p.Acked? || HasId(p) ==> env.validate(p.token) == Some(p.claims))
    && (p.Acked? || HasId(p) ==> p.wrote == [Authenticated(p.claims.subject)])
    && (HasId(p) ==> p.id < h.fan.nextId)
    && (p.Drawn? ==> p.id in h.fan.drawn)
    && (OnBooks(p) ==>
          && p.id in h.fan.conns && p.id in h.fan.clients
          && h.fan.clients[p.id].claims == p.claims
          && (h.fan.conns[p.id].open <==> !p.Unwinding?))
  }

  ghost predicate Apart(h: House, s: TaskId, t: TaskId)
    requires s in h.tasks && t in h.tasks
  {
    s != t && HasId(h.tasks[s]) && HasId(h.tasks[t]) ==> h.tasks[s].id != h.tasks[t].id
  }

  /** Some task answers for the entry `id`. */
  ghost predicate Owned(h: House, id: ConnId) {
    exists t :: t in h.tasks && OnBooks(h.tasks[t]) && h.tasks[t].id == id
  }

  /** The task behind a connection, living or gone, had written `authenticated` and nothing else. */
  ghost predicate Greeted(h: House, id: ConnId) {
    && id in h.fan.clients && id in h.greetings
    && h.greetings[id] == [Authenticated(h.fan.clients[id].claims.subject)]
  }

  ghost predicate HouseOk(env: Env, h: House) {
    && h.free + |h.tasks| == env.config.maxConnections
    && |h.fan.conns| == |Those(h.tasks, OnBooks)|
    && h.active == |Those(h.tasks, CountedIn)|
    && (forall t :: t in h.tasks ==> TaskOk(env, h, t))
    && (forall s, t :: s in h.tasks && t in h.tasks ==> Apart(h, s, t))
    && (forall id :: id in h.fan.conns ==> Owned(h, id))
    && (forall id :: id in h.fan.clients ==> Greeted(h, id))
  }

  /** Machine steps that no task of its own life cycle takes leave registration alone. */
  ghost predicate SameBooks(w: World, w': World, id: ConnId) {
    && w'.conns.Keys == w.conns.Keys && w'.clients.Keys == w.clients.Keys
    && w'.drawn == w.drawn && w'.nextId == w.nextId
    && (id in w.conns ==> w'.conns[id].open == w.conns[id].open)
    && (id in w.clients ==> w'.clients[id].claims == w.clients[id].claims)
  }

  lemma QuietOutside(env: Env, w: World, l: Label, id: ConnId)
    requires Enabled(env, w, l) && OutsideLabel(l)
    ensures SameBooks(w, Step(env, w, l), id)
  {
  }

  lemma QuietSession(env: Env, w: World, l: Label, i: ConnId, id: ConnId)
    requires Enabled(env, w, l) && SessionLabel(l, i)
    ensures SameBooks(w, Step(env, w, l), id)
  {
  }

  /** What a registration step does to one id. */
  lemma BusyFan(env: Env, w: World, l: Label, id: ConnId)
    requires Enabled(env, w, l) && (l.Draw? || l.Insert? || l.Shut? || l.Remove?)
    ensures
      var w' := Step(env, w, l);
      && w.nextId <= w'.nextId
      && (id in w.drawn && Subject(l) != Some(id) ==> id in w'.drawn)
      && (Subject(l) != Some(id) ==> SameAt(w, w', id))
  {
    if Subject(l) != Some(id) {
      Untouched(env, w, l, id);
    }
  }

  lemma TaskOfOthers(env: Env, h: House, m: Move, t: TaskId)
    requires Ready(env, h, m) && t in h.tasks && TaskOk(env, h, t) && Actor(m) != Some(t)
    requires Actor(m).Some? && Actor(m).value in h.tasks ==> Apart(h, t, Actor(m).value) && TaskOk(env, h, Actor(m).value)
    ensures t in Go(env, h, m).tasks && TaskOk(env, Go(env, h, m), t)
  {
    var h' := Go(env, h, m);
    assert m.Accept? ==> t != h.nextTask;
    assert h'.tasks[t] == h.tasks[t];
    if HasId(h.tasks[t]) {
      var id := h.tasks[t].id;
      match FanLabel(h, m)
      case None =>
      case Some(l) =>
        if l.Draw? || l.Insert? || l.Shut? || l.Remove? {
          BusyFan(env, h.fan, l, id);
        } else if m.Work? {
          QuietSession(env, h.fan, l, h.tasks[m.t].id, id);
        } else {
          QuietOutside(env, h.fan, l, id);
        }
    } else {
      match FanLabel(h, m)
      case None =>
      case Some(l) => assert h'.fan.nextId >= h.fan.nextId;
    }
  }

  lemma TaskOfActor(env: Env, h: House, m: Move)
    requires Ready(env, h, m) && Actor(m).Some? && TaskOk(env, h, Actor(m).value) && !m.Release?
    ensures m.t in Go(env, h, m).tasks && TaskOk(env, Go(env, h, m), m.t)
  {
    if m.Work? {
      QuietSession(env, h.fan, m.l, h.tasks[m.t].id, h.tasks[m.t].id);
    }
  }

  lemma TaskStep(env: Env, h: House, m: Move, t: TaskId)
    requires HouseOk(env, h) && Ready(env, h, m) && t in Go(env, h, m).tasks
    ensures TaskOk(env, Go(env, h, m), t)
  {
    if m.Accept? && t == h.nextTask {
    } else if Actor(m) == Some(t) {
      TaskOfActor(env, h, m);
    } else {
      assert t in h.tasks;
      TaskOfOthers(env, h, m, t);
    }
  }

  /** A task's id stays, but for the one that is just drawn. */
  lemma IdKept(env: Env, h: House, m: Move, s: TaskId)
    requires Ready(env, h, m) && s in Go(env, h, m).tasks && HasId(Go(env, h, m).tasks[s])
    ensures s in h.tasks
    ensures if HasId(h.tasks[s]) then Go(env, h, m).tasks[s].id == h.tasks[s].id
            else m.DrawId? && m.t == s && Go(env, h, m).tasks[s].id == h.fan.nextId
  {
  }

  lemma ApartStep(env: Env, h: House, m: Move, s: TaskId, t: TaskId)
    requires HouseOk(env, h) && Ready(env, h, m) && s in Go(env, h, m).tasks && t in Go(env, h, m).tasks
    ensures Apart(Go(env, h, m), s, t)
  {
    if HasId(Go(env, h, m).tasks[s]) && HasId(Go(env, h, m).tasks[t]) {
      IdKept(env, h, m, s);
      IdKept(env, h, m, t);
      assert Apart(h, s, t) && TaskOk(env, h, s) && TaskOk(env, h, t);
    }
  }

  /** How a set of tasks in some kind of phase changes when one task moves. */
  lemma ThoseChange(tasks: map<TaskId, Phase>, t: TaskId, p: Phase, want: Phase -> bool)
    requires t in tasks
    ensures |Those(tasks[t := p], want)| ==
            |Those(tasks, want)| + (if want(p) then 1 else 0) - (if want(tasks[t]) then 1 else 0)
  {
    var rest := Those(tasks, want) - {t};
    SizeWith(rest, t);
    if want(tasks[t]) {
      assert Those(tasks, want) == rest + {t};
    } else {
      assert Those(tasks, want) == rest;
    }
    if want(p) {
      assert Those(tasks[t := p], want) == rest + {t};
    } else {
      assert Those(tasks[t := p], want) == rest;
    }
  }

  lemma SizeWith<T>(s: set<T>, x: T)
    requires x !in s
    ensures |s + {x}| == |s| + 1
  {
  }

  lemma ThoseNew(tasks: map<TaskId, Phase>, t: TaskId, want: Phase -> bool)
    requires t !in tasks && !want(Handshaking)
    ensures Those(tasks[t := Handshaking], want) == Those(tasks, want)
    ensures |tasks[t := Handshaking]| == |tasks| + 1
  {
    assert tasks[t := Handshaking].Keys == tasks.Keys + {t};
  }

  lemma ThoseGone(tasks: map<TaskId, Phase>, t: TaskId, want: Phase -> bool)
    requires t in tasks && !want(tasks[t])
    ensures Those(tasks - {t}, want) == Those(tasks, want)
    ensures |tasks - {t}| == |tasks| - 1
  {
    assert tasks.Keys == (tasks - {t}).Keys + {t};
  }

  lemma KeysStep(env: Env, w: World, l: Label)
    requires Enabled(env, w, l)
    ensures Step(env, w, l).conns.Keys ==
            if l.Insert? then w.conns.Keys + {l.id} else if l.Remove? then w.conns.Keys - {l.id} else w.conns.Keys
  {
  }

  /** What a machine step does to the number of registered connections. */
  lemma ConnCount(env: Env, w: World, l: Label)
    requires Enabled(env, w, l) && (l.Insert? ==> l.id !in w.conns)
    ensures |Step(env, w, l).conns| == |w.conns| + (if l.Insert? then 1 else if l.Remove? then -1 else 0)
  {
    KeysStep(env, w, l);
    MapSize(Step(env, w, l).conns);
    MapSize(w.conns);
  }

  lemma MapSize<K, V>(m: map<K, V>)
    ensures |m| == |m.Keys|
  {
  }

  lemma ConnsStep(env: Env, h: House, m: Move)
    requires Ready(env, h, m) && Inv(env, h.fan)
    ensures |Go(env, h, m).fan.conns| == |h.fan.conns| + (if m.Enter? then 1 else if m.Unregister? then -1 else 0)
  {
    match FanLabel(h, m)
    case None =>
    case Some(l) =>
      FanLabelKind(env, h, m, l);
      if l.Insert? {
        InsertIsFresh(env, h.fan, l.id);
      }
      ConnCount(env, h.fan, l);
  }

  lemma FanLabelKind(env: Env, h: House, m: Move, l: Label)
    requires FanLabel(h, m) == Some(l) && Ready(env, h, m)
    ensures (l.Insert? <==> m.Enter?) && (l.Remove? <==> m.Unregister?)
    ensures Enabled(env, h.fan, l)
  {
  }

  lemma TasksMove(env: Env, h: House, m: Move, want: Phase -> bool)
    requires Ready(env, h, m) && h.nextTask !in h.tasks && !want(Handshaking) && !want(Ending)
    ensures
      var h' := Go(env, h, m);
      && |h'.tasks| == |h.tasks| + (if m.Accept? then 1 else if m.Release? then -1 else 0)
      && |Those(h'.tasks, want)| == |Those(h.tasks, want)| +
         (if Actor(m).Some? && !m.Release?
          then (if want(NextPhase(env, h, m, h.tasks[m.t])) then 1 else 0) - (if want(h.tasks[m.t]) then 1 else 0)
          else 0)
  {
    if m.Accept? {
      ThoseNew(h.tasks, h.nextTask, want);
    } else if m.Release? {
      ThoseGone(h.tasks, m.t, want);
    } else if Actor(m).Some? {
      var p := NextPhase(env, h, m, h.tasks[m.t]);
      ThoseChange(h.tasks, m.t, p, want);
      assert h.tasks[m.t := p].Keys == h.tasks.Keys;
    }
  }

  lemma BooksStep(env: Env, h: House, m: Move)
    requires Ready(env, h, m) && h.nextTask !in h.tasks && h.free + |h.tasks| == env.config.maxConnections
    ensures
      var h' := Go(env, h, m);
      && h'.free + |h'.tasks| == env.config.maxConnections
      && |Those(h'.tasks, OnBooks)| == |Those(h.tasks, OnBooks)| + (if m.Enter? then 1 else if m.Unregister? then -1 else 0)
      && |Those(h'.tasks, CountedIn)| == |Those(h.tasks, CountedIn)| + (if m.CountActive? then 1 else if m.Unregister? then -1 else 0)
  {
    TasksMove(env, h, m, OnBooks);
    TasksMove(env, h, m, CountedIn);
  }

  lemma OwnerStep(env: Env, h: House, m: Move, id: ConnId)
    requires Ready(env, h, m) && id in Go(env, h, m).fan.conns
    requires h.nextTask !in h.tasks
    requires id in h.fan.conns ==> Owned(h, id)
    ensures Owned(Go(env, h, m), id)
  {
    if id in h.fan.conns {
      OwnerStays(env, h, m, id);
    } else {
      OwnerEnters(env, h, m, id);
    }
  }

  lemma OwnerStays(env: Env, h: House, m: Move, id: ConnId)
    requires Ready(env, h, m) && id in h.fan.conns && id in Go(env, h, m).fan.conns
    requires h.nextTask !in h.tasks && Owned(h, id)
    ensures Owned(Go(env, h, m), id)
  {
    var t :| t in h.tasks && OnBooks(h.tasks[t]) && h.tasks[t].id == id;
    if m.Unregister? {
      KeysStep(env, h.fan, Remove(h.tasks[m.t].id));
    }
    OnBooksStays(env, h, m, t);
  }

  /** A task leaves the books only by unregistering. */
  lemma OnBooksStays(env: Env, h: House, m: Move, t: TaskId)
    requires Ready(env, h, m) && h.nextTask !in h.tasks && t in h.tasks && OnBooks(h.tasks[t])
    requires !(m.Unregister? && m.t == t)
    ensures
      var tasks := Tasks(env, h, m);
      t in tasks && OnBooks(tasks[t]) && tasks[t].id == h.tasks[t].id
  {
  }

  lemma OwnerEnters(env: Env, h: House, m: Move, id: ConnId)
    requires Ready(env, h, m) && id !in h.fan.conns && id in Go(env, h, m).fan.conns
    ensures Owned(Go(env, h, m), id)
  {
    var h' := Go(env, h, m);
    var l := FanLabel(h, m).value;
    KeysStep(env, h.fan, l);
    FanLabelKind(env, h, m, l);
    assert OnBooks(h'.tasks[m.t]) && h'.tasks[m.t].id == id;
  }

  lemma GreetedStep(env: Env, h: House, m: Move, id: ConnId)
    requires Ready(env, h, m) && id in Go(env, h, m).fan.clients
    requires id in h.fan.clients ==> Greeted(h, id)
    requires m.Enter? ==> TaskOk(env, h, m.t)
    ensures Greeted(Go(env, h, m), id)
  {
    match FanLabel(h, m)
    case None =>
    case Some(l) => ClaimsStay(env, h.fan, l, id);
  }

  /** Who a client is never changes, but where it is inserted. */
  lemma ClaimsStay(env: Env, w: World, l: Label, id: ConnId)
    requires Enabled(env, w, l) && id in Step(env, w, l).clients
    ensures
      var cl' := Step(env, w, l).clients[id];
      if l.Insert? && l.id == id then cl'.claims == l.claims
      else id in w.clients && cl'.claims == w.clients[id].claims
  {
    if Subject(l) != Some(id) {
      Untouched(env, w, l, id);
    }
  }

  lemma TasksStep(env: Env, h: House, m: Move)
    requires HouseOk(env, h) && Ready(env, h, m)
    ensures
      var h' := Go(env, h, m);
      && (forall t :: t in h'.tasks ==> TaskOk(env, h', t))
      && (forall s, t :: s in h'.tasks && t in h'.tasks ==> Apart(h', s, t))
  {
    var h' := Go(env, h, m);
    forall t | t in h'.tasks ensures TaskOk(env, h', t) {
      TaskStep(env, h, m, t);
    }
    forall s, t | s in h'.tasks && t in h'.tasks ensures Apart(h', s, t) {
      ApartStep(env, h, m, s, t);
    }
  }

  lemma HouseStep(env: Env, h: House, m: Move)
    requires HouseOk(env, h) && Inv(env, h.fan) && Ready(env, h, m)
    ensures HouseOk(env, Go(env, h, m))
  {
    var h' := Go(env, h, m);
    if h.nextTask in h.tasks {
      assert false;
    }
    BooksStep(env, h, m);
    ConnsStep(env, h, m);
    forall id | id in h'.fan.conns ensures Owned(h', id) {
      OwnerStep(env, h, m, id);
    }
    TasksStep(env, h, m);
    forall id | id in h'.fan.clients ensures Greeted(h', id) {
      GreetedStep(env, h, m, id);
    }
  }

  lemma {:induction false} HouseAlways(env: Env, moves: seq<Move>)
    requires Possible(env, moves)
    ensures HouseOk(env, Reach(env, moves)) && Inv(env, Reach(env, moves).fan)
  {
    FanRunIsLegal(env, moves);
    Always(env, FanRun(env, moves));
    if moves != [] {
      HouseAlways(env, moves[..|moves| - 1]);
      HouseStep(env, Reach(env, moves[..|moves| - 1]), moves[|moves| - 1]);
    }
  }

  /** Capacity: registered connections never exceed live tasks, which hold exactly the permits that
      are out, and there are never more than `max_connections`. */
  lemma CapacityHolds(env: Env, moves: seq<Move>)
    requires Possible(env, moves)
    ensures
      var h := Reach(env, moves);
      && |h.fan.conns| <= |h.tasks| == env.config.maxConnections - h.free
      && |h.tasks| <= env.config.maxConnections
  {
    HouseAlways(env, moves);
    var h := Reach(env, moves);
    assert Those(h.tasks, OnBooks) <= h.tasks.Keys;
    SubsetSize(Those(h.tasks, OnBooks), h.tasks.Keys);
  }

  /** `connections_active` plus the adds that are inserted but not counted yet is the number of
      registered connections, and it never goes below zero. */
  lemma ActiveIsConserved(env: Env, moves: seq<Move>)
    requires Possible(env, moves)
    ensures
      var h := Reach(env, moves);
      0 <= h.active && h.active + |Those(h.tasks, Pending)| == |h.fan.conns|
  {
    HouseAlways(env, moves);
    BooksSplit(Reach(env, moves).tasks);
  }

  lemma BooksSplit(tasks: map<TaskId, Phase>)
    ensures |Those(tasks, OnBooks)| == |Those(tasks, CountedIn)| + |Those(tasks, Pending)|
  {
    assert Those(tasks, OnBooks) == Those(tasks, CountedIn) + Those(tasks, Pending);
    assert Those(tasks, CountedIn) !! Those(tasks, Pending);
  }

  /** Everything on the socket of a connection: what its task wrote before it registered, then what its
      session wrote. */
  function Wire(h: House, id: ConnId): seq<Frame>
    requires id in h.greetings && id in h.fan.clients
  {
    h.greetings[id] + h.fan.clients[id].socket
  }

  /** The text frames on the socket of every client that was ever accepted are `authenticated` followed
      by a prefix of the order in which frames entered its queue. */
  lemma OrderedWire(env: Env, moves: seq<Move>, id: ConnId)
    requires Possible(env, moves) && id in Reach(env, moves).fan.clients
    ensures
      var h := Reach(env, moves);
      && id in h.greetings && Wire(h, id) != []
      && Wire(h, id) <= [Authenticated(h.fan.clients[id].claims.subject)] + Accepted(h.fan.clients[id].log)
  {
    HouseAlways(env, moves);
    FanRunIsLegal(env, moves);
    OrderedOutput(env, FanRun(env, moves), id);
    assert Greeted(Reach(env, moves), id);
  }

  /** Every registered entry belongs to a task that presented a token the validator accepted and
      wrote `authenticated`, the first frame on its socket, before it registered. */
  lemma RegisteredMeansAuthenticated(env: Env, moves: seq<Move>, id: ConnId) returns (t: TaskId)
    requires Possible(env, moves) && id in Reach(env, moves).fan.conns
    ensures
      var h := Reach(env, moves);
      t in h.tasks && OnBooks(h.tasks[t]) && h.tasks[t].id == id &&
      var p := h.tasks[t];
      && env.validate(p.token) == Some(p.claims)
      && h.fan.conns[id].subject == p.claims.subject
      && id in h.fan.clients && id in h.greetings
      && h.greetings[id] == p.wrote == [Authenticated(p.claims.subject)]
  {
    HouseAlways(env, moves);
    t := Owner(env, Reach(env, moves), id);
  }

  lemma Owner(env: Env, h: House, id: ConnId) returns (t: TaskId)
    requires HouseOk(env, h) && Inv(env, h.fan) && id in h.fan.conns
    ensures
      t in h.tasks && OnBooks(h.tasks[t]) && h.tasks[t].id == id &&
      var p := h.tasks[t];
      && env.validate(p.token) == Some(p.claims)
      && h.fan.conns[id].subject == p.claims.subject
      && id in h.fan.clients && id in h.greetings
      && h.greetings[id] == p.wrote == [Authenticated(p.claims.subject)]
  {
    assert Owned(h, id) && ConnOk(env, h.fan, id) && Greeted(h, id);
    t :| t in h.tasks && OnBooks(h.tasks[t]) && h.tasks[t].id == id;
    assert TaskOk(env, h, t);
  }

  // ---- Counters and possibility ---------------------------------------------------------------

  /** How often moves of a kind occur. */
  function Times(moves: seq<Move>, kind: Move -> bool): nat {
    if moves == [] then 0 else Times(moves[..|moves| - 1], kind) + if kind(moves[|moves| - 1]) then 1 else 0
  }

  /** `refused_full` counts the refusals, each of which found every permit out. */
  lemma {:induction false} RefusedIsExact(env: Env, moves: seq<Move>)
    requires Possible(env, moves)
    ensures Reach(env, moves).refused == Times(moves, (m: Move) => m.Refuse?)
    ensures moves != [] && moves[|moves| - 1].Refuse? ==> |Reach(env, moves[..|moves| - 1]).tasks| == env.config.maxConnections
  {
    if moves != [] {
      RefusedIsExact(env, moves[..|moves| - 1]);
      HouseAlways(env, moves[..|moves| - 1]);
    }
  }

  /** `connections_total`, plus the adds that have yet to count themselves, is the number of connections
      ever registered. */
  lemma {:induction false} TotalIsExact(env: Env, moves: seq<Move>)
    requires Possible(env, moves)
    ensures
      var h := Reach(env, moves);
      h.total + |Those(h.tasks, (p: Phase) => p.Inserted?)| == |h.fan.clients|
  {
    if moves == [] {
      assert Those(Vacant(env).tasks, (p: Phase) => p.Inserted?) == {};
    } else {
      var before, m := moves[..|moves| - 1], moves[|moves| - 1];
      TotalIsExact(env, before);
      HouseAlways(env, before);
      TotalStep(env, Reach(env, before), m);
    }
  }

  lemma TotalStep(env: Env, h: House, m: Move)
    requires HouseOk(env, h) && Inv(env, h.fan) && Ready(env, h, m)
    requires h.total + |Those(h.tasks, (p: Phase) => p.Inserted?)| == |h.fan.clients|
    ensures
      var h' := Go(env, h, m);
      h'.total + |Those(h'.tasks, (p: Phase) => p.Inserted?)| == |h'.fan.clients|
  {
    assert h.nextTask in h.tasks ==> TaskOk(env, h, h.nextTask);
    InsertedCount(env, h, m);
    ClientsGrow(env, h, m);
  }

  lemma InsertedCount(env: Env, h: House, m: Move)
    requires Ready(env, h, m) && h.nextTask !in h.tasks
    ensures |Those(Go(env, h, m).tasks, (p: Phase) => p.Inserted?)| ==
            |Those(h.tasks, (p: Phase) => p.Inserted?)| + if m.Enter? then 1 else if m.CountTotal? then -1 else 0
  {
    TasksMove(env, h, m, (p: Phase) => p.Inserted?);
    if Actor(m).Some? && !m.Release? {
      InsertedStep(env, h, m);
    }
  }

  lemma InsertedStep(env: Env, h: House, m: Move)
    requires Ready(env, h, m) && Actor(m).Some? && !m.Release?
    ensures m.Enter? ==> NextPhase(env, h, m, h.tasks[m.t]).Inserted? && !h.tasks[m.t].Inserted?
    ensures m.CountTotal? ==> !NextPhase(env, h, m, h.tasks[m.t]).Inserted? && h.tasks[m.t].Inserted?
    ensures !m.Enter? && !m.CountTotal? ==> (NextPhase(env, h, m, h.tasks[m.t]).Inserted? <==> h.tasks[m.t].Inserted?)
  {
  }

  lemma ClientsGrow(env: Env, h: House, m: Move)
    requires Ready(env, h, m) && Inv(env, h.fan)
    ensures |Go(env, h, m).fan.clients| == |h.fan.clients| + if m.Enter? then 1 else 0
  {
    match FanLabel(h, m)
    case None =>
    case Some(l) =>
      FanLabelKind(env, h, m, l);
      ClientKeys(env, h.fan, l);
      if l.Insert? {
        assert l.id in h.fan.clients ==> ClientOk(h.fan, l.id);
      }
      MapSize(Step(env, h.fan, l).clients);
      MapSize(h.fan.clients);
  }

  lemma ClientKeys(env: Env, w: World, l: Label)
    requires Enabled(env, w, l)
    ensures Step(env, w, l).clients.Keys == if l.Insert? then w.clients.Keys + {l.id} else w.clients.Keys
  {
  }

  /** A token decides: the task ends if and only if the validator refuses it, and otherwise goes on with
      that token and the claims it stands for. */
  lemma PresentDecides(env: Env, moves: seq<Move>, t: TaskId, token: Token)
    requires Possible(env, moves + [Present(t, token)]) && Possible(env, moves)
    ensures
      var h := Reach(env, moves + [Present(t, token)]);
      && t in h.tasks && (h.tasks[t].Ending? <==> env.validate(token) == None)
      && (env.validate(token).Some? ==> h.tasks[t] == Acking(token, env.validate(token).value))
  {
    assert (moves + [Present(t, token)])[..|moves|] == moves;
  }

  lemma GoOn(env: Env, moves: seq<Move>, m: Move)
    requires Possible(env, moves) && Ready(env, Reach(env, moves), m)
    ensures Possible(env, moves + [m]) && Reach(env, moves + [m]) == Go(env, Reach(env, moves), m)
  {
    assert (moves + [m])[..|moves|] == moves;
  }

  /** A move of a task that touches nothing but its phase. */
  lemma GoQuietly(env: Env, moves: seq<Move>, m: Move)
    requires Possible(env, moves) && Ready(env, Reach(env, moves), m)
    requires m.Handshook? || m.Present? || m.AckWritten?
    ensures Possible(env, moves + [m])
    ensures
      var h := Reach(env, moves);
      m.t in h.tasks && Reach(env, moves + [m]) == h.(tasks := h.tasks[m.t := NextPhase(env, h, m, h.tasks[m.t])])
  {
    GoOn(env, moves, m);
  }

  lemma LetIn(env: Env, moves: seq<Move>)
    requires Possible(env, moves) && Reach(env, moves).free > 0
    ensures Possible(env, moves + [Accept])
    ensures
      var h := Reach(env, moves);
      Reach(env, moves + [Accept]) ==
      h.(tasks := h.tasks[h.nextTask := Handshaking], nextTask := h.nextTask + 1, free := h.free - 1)
  {
    GoOn(env, moves, Accept);
  }

  lemma ShakesHands(env: Env, moves: seq<Move>) returns (moves': seq<Move>)
    requires Possible(env, moves) && Reach(env, moves).free > 0
    ensures Possible(env, moves') && moves <= moves'
    ensures
      var h := Reach(env, moves);
      Reach(env, moves') ==
      h.(tasks := h.tasks[h.nextTask := Authenticating], nextTask := h.nextTask + 1, free := h.free - 1)
  {
    var h := Reach(env, moves);
    LetIn(env, moves);
    moves' := moves + [Accept];
    GoQuietly(env, moves', Handshook(h.nextTask));
    moves' := moves' + [Handshook(h.nextTask)];
    assert h.tasks[h.nextTask := Handshaking][h.nextTask := Authenticating] == h.tasks[h.nextTask := Authenticating];
  }

  lemma Welcomed(env: Env, moves: seq<Move>, t: TaskId, token: Token) returns (moves': seq<Move>)
    requires Possible(env, moves) && t in Reach(env, moves).tasks && Reach(env, moves).tasks[t].Authenticating?
    requires env.validate(token).Some?
    ensures Possible(env, moves') && moves <= moves'
    ensures
      var h := Reach(env, moves);
      var claims := env.validate(token).value;
      Reach(env, moves') == h.(tasks := h.tasks[t := Acked(token, claims, [Authenticated(claims.subject)])])
  {
    var h := Reach(env, moves);
    var claims := env.validate(token).value;
    GoQuietly(env, moves, Present(t, token));
    moves' := moves + [Present(t, token)];
    assert Reach(env, moves').tasks == h.tasks[t := Acking(token, claims)];
    GoQuietly(env, moves', AckWritten(t));
    moves' := moves' + [AckWritten(t)];
    assert Reach(env, moves').tasks == h.tasks[t := Acked(token, claims, [Authenticated(claims.subject)])];
  }

  /** With a permit free, a client that completes the handshake and presents a valid token is
      acknowledged. */
  lemma ShownIn(env: Env, moves: seq<Move>, token: Token) returns (moves': seq<Move>)
    requires Possible(env, moves) && Reach(env, moves).free > 0 && env.validate(token).Some?
    ensures Possible(env, moves') && moves <= moves'
    ensures
      var h, h' := Reach(env, moves), Reach(env, moves');
      var claims := env.validate(token).value;
      && h'.tasks == h.tasks[h.nextTask := Acked(token, claims, [Authenticated(claims.subject)])]
      && h'.free == h.free - 1 && h'.active == h.active && h'.total == h.total && h'.fan == h.fan
  {
    moves' := ShakesHands(env, moves);
    moves' := Welcomed(env, moves', Reach(env, moves).nextTask, token);
  }

  /** A task that is not registered yet may give up: it ends, and its permit is released. */
  lemma EarlyTaskCanLeave(env: Env, moves: seq<Move>, t: TaskId) returns (moves': seq<Move>)
    requires Possible(env, moves) && t in Reach(env, moves).tasks
    requires var p := Reach(env, moves).tasks[t]; p.Handshaking? || p.Authenticating? || p.Acking?
    ensures Possible(env, moves') && moves <= moves'
    ensures
      var h := Reach(env, moves);
      Reach(env, moves') == h.(tasks := h.tasks - {t}, free := h.free + 1)
  {
    var h := Reach(env, moves);
    GivesUp(env, moves, t);
    moves' := moves + [GiveUp(t)];
    Releases(env, moves', t);
    moves' := moves' + [Release(t)];
    assert h.tasks[t := Ending] - {t} == h.tasks - {t};
  }

  lemma GivesUp(env: Env, moves: seq<Move>, t: TaskId)
    requires Possible(env, moves) && t in Reach(env, moves).tasks
    requires var p := Reach(env, moves).tasks[t]; p.Handshaking? || p.Authenticating? || p.Acking?
    ensures Possible(env, moves + [GiveUp(t)])
    ensures
      var h := Reach(env, moves);
      Reach(env, moves + [GiveUp(t)]) == h.(tasks := h.tasks[t := Ending])
  {
    GoOn(env, moves, GiveUp(t));
  }

  lemma Counts(env: Env, moves: seq<Move>, m: Move)
    requires Possible(env, moves) && Ready(env, Reach(env, moves), m) && (m.CountTotal? || m.CountActive?)
    ensures Possible(env, moves + [m])
    ensures
      var h := Reach(env, moves);
      m.t in h.tasks && Reach(env, moves + [m]) ==
      h.(tasks := h.tasks[m.t := NextPhase(env, h, m, h.tasks[m.t])],
         active := if m.CountActive? then h.active + 1 else h.active,
         total := if m.CountTotal? then h.total + 1 else h.total)
  {
    GoOn(env, moves, m);
  }

  /** Then, with no read lock held, it is registered under a fresh id, greeted and counted. */
  lemma Enters(env: Env, moves: seq<Move>, t: TaskId) returns (moves': seq<Move>)
    requires Possible(env, moves) && t in Reach(env, moves).tasks && Reach(env, moves).tasks[t].Acked?
    requires Unlocked(Reach(env, moves).fan)
    ensures Possible(env, moves') && moves <= moves'
    ensures
      var h, h' := Reach(env, moves), Reach(env, moves');
      var p, id := h.tasks[t], h.fan.nextId;
      && h'.tasks == h.tasks[t := Running(p.token, p.claims, p.wrote, id)] && h'.free == h.free
      && h'.active == h.active + 1 && h'.total == h.total + 1
      && h'.fan.conns == h.fan.conns[id := Fresh(env, p.claims)] && id in h'.fan.clients
      && id in h'.greetings && h'.greetings[id] == p.wrote && Unlocked(h'.fan)
  {
    moves' := Draws(env, moves, t);
    moves' := IsCounted(env, moves', t);
  }

  /** A registered task counts itself in both metrics and starts its session. */
  lemma IsCounted(env: Env, moves: seq<Move>, t: TaskId) returns (moves': seq<Move>)
    requires Possible(env, moves) && t in Reach(env, moves).tasks && Reach(env, moves).tasks[t].Inserted?
    ensures Possible(env, moves') && moves <= moves'
    ensures
      var h := Reach(env, moves);
      var p := h.tasks[t];
      Reach(env, moves') ==
      h.(tasks := h.tasks[t := Running(p.token, p.claims, p.wrote, p.id)], active := h.active + 1, total := h.total + 1)
  {
    var h := Reach(env, moves);
    var p := h.tasks[t];
    Counts(env, moves, CountTotal(t));
    moves' := moves + [CountTotal(t)];
    assert Reach(env, moves').tasks == h.tasks[t := Totalled(p.token, p.claims, p.wrote, p.id)];
    Counts(env, moves', CountActive(t));
    moves' := moves' + [CountActive(t)];
    assert Reach(env, moves').tasks == h.tasks[t := Running(p.token, p.claims, p.wrote, p.id)];
  }

  lemma Draws(env: Env, moves: seq<Move>, t: TaskId) returns (moves': seq<Move>)
    requires Possible(env, moves) && t in Reach(env, moves).tasks && Reach(env, moves).tasks[t].Acked?
    requires Unlocked(Reach(env, moves).fan)
    ensures Possible(env, moves') && moves <= moves'
    ensures
      var h, h' := Reach(env, moves), Reach(env, moves');
      var p, id := h.tasks[t], h.fan.nextId;
      && h'.tasks == h.tasks[t := Inserted(p.token, p.claims, p.wrote, id)] && h'.free == h.free
      && h'.active == h.active && h'.total == h.total
      && h'.fan.conns == h.fan.conns[id := Fresh(env, p.claims)] && id in h'.fan.clients
      && id in h'.greetings && h'.greetings[id] == p.wrote && Unlocked(h'.fan)
  {
    GoOn(env, moves, DrawId(t));
    moves' := moves + [DrawId(t)];
    GoOn(env, moves', Enter(t));
    moves' := moves' + [Enter(t)];
  }

  /** From any reachable state with a permit free and no read lock held, a client with a valid token can
      come in: its session runs, registered, greeted and counted. */
  lemma ValidTokenComesIn(env: Env, moves: seq<Move>, token: Token) returns (moves': seq<Move>, t: TaskId)
    requires Possible(env, moves) && Reach(env, moves).free > 0 && Unlocked(Reach(env, moves).fan)
    requires env.validate(token).Some?
    ensures Possible(env, moves') && moves <= moves'
    ensures
      var h, h' := Reach(env, moves), Reach(env, moves');
      var claims := env.validate(token).value;
      && t in h'.tasks && h'.tasks[t] == Running(token, claims, [Authenticated(claims.subject)], h.fan.nextId)
      && h'.fan.conns == h.fan.conns[h.fan.nextId := Fresh(env, claims)]
      && h'.active == h.active + 1 && h'.total == h.total + 1 && h'.free == h.free - 1
      && h.fan.nextId in h'.fan.clients && Unlocked(h'.fan)
      && h.fan.nextId in h'.greetings && h'.greetings[h.fan.nextId] == [Authenticated(claims.subject)]
  {
    t := Reach(env, moves).nextTask;
    var mid := ShownIn(env, moves, token);
    moves' := Enters(env, mid, t);
  }

  /** A session that is not in the middle of a delivery can end at any moment, whoever holds the read
      lock: its receiver is gone, with what was still queued. */
  lemma Departs(env: Env, moves: seq<Move>, t: TaskId) returns (moves': seq<Move>)
    requires Possible(env, moves) && t in Reach(env, moves).tasks && Reach(env, moves).tasks[t].Running?
    requires Session(Reach(env, moves).tasks[t].id) !in Reach(env, moves).fan.readers
    ensures Possible(env, moves') && moves <= moves'
    ensures
      var h := Reach(env, moves);
      var p := h.tasks[t];
      p.id in h.fan.conns && p.id in h.fan.clients &&
      Reach(env, moves') == h.(tasks := h.tasks[t := Unwinding(p.token, p.claims, p.wrote, p.id)], fan := DoShut(h.fan, p.id))
  {
    TaskIsOk(env, moves, t);
    GoOn(env, moves, Leave(t));
    moves' := moves + [Leave(t)];
  }

  lemma Unregisters(env: Env, moves: seq<Move>, t: TaskId) returns (moves': seq<Move>)
    requires Possible(env, moves) && t in Reach(env, moves).tasks && Reach(env, moves).tasks[t].Unwinding?
    requires Unlocked(Reach(env, moves).fan)
    requires Reach(env, moves).tasks[t].id in Reach(env, moves).fan.conns && !Reach(env, moves).fan.conns[Reach(env, moves).tasks[t].id].open
    ensures Possible(env, moves') && moves <= moves'
    ensures
      var h := Reach(env, moves);
      Reach(env, moves') ==
      h.(tasks := h.tasks[t := Ending], active := h.active - 1, fan := DoRemove(h.fan, h.tasks[t].id))
  {
    GoOn(env, moves, Unregister(t));
    moves' := moves + [Unregister(t)];
  }

  lemma Releases(env: Env, moves: seq<Move>, t: TaskId)
    requires Possible(env, moves) && t in Reach(env, moves).tasks && Reach(env, moves).tasks[t].Ending?
    ensures Possible(env, moves + [Release(t)])
    ensures
      var h := Reach(env, moves);
      Reach(env, moves + [Release(t)]) == h.(tasks := h.tasks - {t}, free := h.free + 1)
  {
    GoOn(env, moves, Release(t));
  }

  lemma TaskIsOk(env: Env, moves: seq<Move>, t: TaskId)
    requires Possible(env, moves) && t in Reach(env, moves).tasks
    ensures TaskOk(env, Reach(env, moves), t)
  {
    HouseAlways(env, moves);
  }

  /** And it can go again: its entry is removed and its permit released. */
  lemma RunningCanLeave(env: Env, moves: seq<Move>, t: TaskId) returns (moves': seq<Move>)
    requires Possible(env, moves) && t in Reach(env, moves).tasks && Reach(env, moves).tasks[t].Running?
    requires Unlocked(Reach(env, moves).fan)
    ensures Possible(env, moves') && moves <= moves'
    ensures
      var h, h' := Reach(env, moves), Reach(env, moves');
      && h'.tasks == h.tasks - {t} && h'.free == h.free + 1 && h'.active == h.active - 1 && h'.total == h.total
      && h'.fan.conns == h.fan.conns - {h.tasks[t].id}
  {
    var h := Reach(env, moves);
    TaskIsOk(env, moves, t);
    assert Session(h.tasks[t].id) !in h.fan.readers;
    moves' := Departs(env, moves, t);
    moves' := Unregisters(env, moves', t);
    assert Reach(env, moves').tasks == h.tasks[t := Ending];
    Releases(env, moves', t);
    moves' := moves' + [Release(t)];
    assert h.tasks[t := Ending] - {t} == h.tasks - {t};
  }

  /** The move is possible and takes the machine's step. */
  ghost predicate Performs(env: Env, moves: seq<Move>, m: Move, l: Label) {
    && Possible(env, moves) && Enabled(env, Reach(env, moves).fan, l)
    && Possible(env, moves + [m]) && Reach(env, moves + [m]).fan == Step(env, Reach(env, moves).fan, l)
  }

  /** Nothing keeps publishers, the feed and deliveries from any step that the machine allows. */
  lemma OutsideStepsHaveMoves(env: Env, moves: seq<Move>, l: Label)
    requires Possible(env, moves) && Enabled(env, Reach(env, moves).fan, l)
    requires l.Record? || l.Overrun? || l.StartPublish? || l.StartBroadcast? || l.TrySend? || l.Count? || l.Mark? || l.EndRead?
    ensures Performs(env, moves, Outside(l), l)
  {
    GoOn(env, moves, Outside(l));
  }

  /** Nor a running session from any of its own. */
  lemma SessionStepsHaveMoves(env: Env, moves: seq<Move>, t: TaskId, l: Label)
    requires Possible(env, moves) && Enabled(env, Reach(env, moves).fan, l)
    requires l.Subscribe? || l.Unsubscribe? || l.Request? || l.Beat? || l.Take? || l.Lookup? || l.StartSend? || l.Check?
    requires t in Reach(env, moves).tasks && Reach(env, moves).tasks[t].Running? && Reach(env, moves).tasks[t].id == l.id
    ensures Performs(env, moves, Work(t, l), l)
  {
    GoOn(env, moves, Work(t, l));
  }

  /** While a session runs its entry stays registered and open, so its sender exists and `recv`
      never reports that the queue is finished. */
  lemma SessionKeepsItsEntry(env: Env, moves: seq<Move>, t: TaskId)
    requires Possible(env, moves) && t in Reach(env, moves).tasks && Reach(env, moves).tasks[t].Running?
    ensures
      var h := Reach(env, moves);
      h.tasks[t].id in h.fan.conns && h.fan.conns[h.tasks[t].id].open
  {
    HouseAlways(env, moves);
    assert TaskOk(env, Reach(env, moves), t);
  }
}
