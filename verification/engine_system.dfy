/** The whole engine (src/engine.rs): suspensions, resumptions, disconnections, expiry passes and
    gated transport commands as concurrent operations, each a sequence of lock acquisitions and
    commands to the three managers, interleaved with everything else those managers, the rooms
    and the clients do. */
module EngineSystem {
  import opened Types
  import C = Clients
  import H = RoomSystem
  import M = Matchmakers
  import S = SessionManagers

  type OpId = nat

  /** A command an operation sends to the matchmaker or the room manager, and waits for. */
  datatype Msg =
    | Unqueue(s: SessionId) | Enqueue(s: SessionId)
    | Tell(s: SessionId, up: bool) | Evict(s: SessionId) | Routes(s: SessionId)
    | Create(s: SessionId, capacity: nat) | Join(s: SessionId, room: RoomId) | Leave(s: SessionId, room: RoomId)

  datatype Operation = Creating(capacity: nat) | Joining(room: RoomId) | Leaving(room: RoomId) | Queueing | Cancelling

  datatype Program =
    | Suspending(s: SessionId, generation: nat)
    | Resuming(s: SessionId, proof: Token, identity: Option<Principal>, token: Token)
    | Disconnecting(s: SessionId, known: bool)
    | Expiring
    | Controlling(s: SessionId, generation: nat, operation: Operation)
  {
    /** Whose control gate the operation needs. */
    function Gate(): Option<SessionId> {
      match this
      case Suspending(s, _) => Some(s)
      case Resuming(s, _, _, _) => Some(s)
      case Disconnecting(s, known) => if known then Some(s) else None
      case Expiring => None
      case Controlling(s, _, _) => Some(s)
    }

    /** Everything but a transport command holds the global lifecycle lock. */
    predicate Vital() { !Controlling? }
  }

  function Commands(s: SessionId, operation: Operation): seq<Msg> {
    match operation
    case Creating(capacity) => [Unqueue(s), Create(s, capacity)]
    case Joining(room) => [Unqueue(s), Join(s, room)]
    case Leaving(room) => [Leave(s, room)]
    case Queueing => [Enqueue(s)]
    case Cancelling => [Unqueue(s)]
  }

  datatype Stage =
    | Wanting | Gated | Ready
    | Scanning(now: nat, todo: set<SessionId>) | Culling(todo: set<SessionId>) | Sending

  /** `tail` are the commands still to be sent or, the first one, waited for. */
  datatype Op = Op(program: Program, stage: Stage, tail: seq<Msg>)
  {
    predicate HoldsGate() { program.Gate().Some? && !stage.Wanting? }

    predicate HoldsLife() { program.Vital() && !stage.Wanting? && !stage.Gated? }
  }

  datatype Step =
    | Starts(o: OpId, program: Program)
    | LocksGate(o: OpId)
    | LocksLife(o: OpId)
    | Commits(o: OpId, now: nat)
    | Scans(o: OpId, s: SessionId) | ScansNoMore(o: OpId)
    | Culls(o: OpId, s: SessionId) | CullsNoMore(o: OpId)
    | Unqueues(o: OpId) | Enqueues(o: OpId) | Asks(o: OpId, command: H.Step) | IsDenied(o: OpId)
    | Finishes(o: OpId)
    | GivesUp(o: OpId)
    | Registers(s: SessionId, principal: Principal, client: C.Client, proof: Token)
    | HallMoves(move: H.Step)
    | QueueMoves(turn: M.Step)

  /** `serving` and `joining` are the operations whose command the room manager and the
      matchmaker are busy with; `purged` records the sessions whose eviction has completed. */
  datatype Engine = Engine(
    hall: H.Hall, queue: M.Queue, book: S.Book,
    ops: map<OpId, Op>, gates: map<SessionId, OpId>, life: Option<OpId>,
    serving: Option<OpId>, joining: Option<OpId>, purged: set<SessionId>)
  {
    function Of(s: SessionId): C.Client { hall.Of(s) }

    /** What the holder of the lifecycle lock still owes. */
    function Duties(): seq<Msg> {
      if life.Some? && life.value in ops then ops[life.value].tail else []
    }

    /** The same without the command the room manager is already busy with. */
    function Untaken(): seq<Msg> {
      if serving.Some? && serving == life && Duties() != [] then Duties()[1..] else Duties()
    }

    function With(o: OpId, op: Op): Engine { this.(ops := ops[o := op]) }

    /** The first command of an operation has been answered. */
    function Popped(o: OpId): Engine {
      if o !in ops || ops[o].tail == [] then this else
      var m := ops[o].tail[0];
      With(o, ops[o].(tail := ops[o].tail[1..])).(purged := if m.Evict? && m.s in hall.clients then purged + {m.s}
          else purged)
    }

    /** A refusal ends a command: what it would have asked for next is not sent any more. */
    function Denied(o: OpId): Engine { if o !in ops then this else With(o, ops[o].(tail := [])) }

    /** The room manager answers when it is done. */
    function Settled(): Engine {
      if serving.Some? && serving.value in ops && ops[serving.value].tail != [] && hall.job.Idle?
      then Popped(serving.value).(serving := None) else this
    }

    /** The session manager has changed a client that the hall shares. */
    function Changed(b: S.Book, s: SessionId, change: C.Change): Engine {
      this.(book := b, hall := if s in hall.clients then hall.Changes(s, change) else hall)
    }

    function Commit(o: OpId, now: nat): Engine {
      if o !in ops then this else
      match ops[o].program
      case Suspending(s, g) =>
        var (b, changed) := book.Suspend(s, g, now);
        Changed(b, s, C.Suspending(g))
        .With(o, Op(ops[o].program, Sending, if changed then [Unqueue(s), Tell(s, false)] else []))
      case Resuming(s, proof, identity, token) =>
        var (b, r) := book.Resume(s, proof, identity, token, now, true);
        (if r.Ok? then Changed(b, s, C.Attaching(true)) else this)
        .With(o, Op(ops[o].program, Sending, if r.Ok? then [Routes(s), Tell(s, true)] else []))
      case Disconnecting(s, _) =>
        (if s in book.sessions then Changed(book.Remove(s), s, C.Change.ClosingForGood)
            else this.(book := book.Remove(s)))
        .With(o, Op(ops[o].program, Sending, [Unqueue(s), Evict(s)]))
      case Expiring => With(o, Op(ops[o].program, Scanning(now, book.sessions.Keys), []))
      case Controlling(s, g, operation) =>
        With(o, Op(ops[o].program, Sending, if Of(s).IsCurrent(g) then Commands(s, operation) else []))
    }

    function Scan(o: OpId, s: SessionId): Engine {
      if o !in ops || !ops[o].stage.Scanning? then this else
      var op := ops[o];
      var rest := op.stage.(todo := op.stage.todo - {s});
      var (b, detached) := book.Scan(s, op.stage.now);
      if detached then
        Changed(b, s, C.Change.SuspendingClosed)
        .With(o, op.(stage := rest, tail := op.tail + [Unqueue(s), Tell(s, false)]))
      else With(o, op.(stage := rest))
    }

    function Cull(o: OpId, s: SessionId): Engine {
      if o !in ops || !ops[o].stage.Culling? then this else
      var op := ops[o];
      (if s in book.sessions then Changed(book.Remove(s), s, C.Change.ClosingForGood)
          else this.(book := book.Remove(s)))
      .With(o, op.(stage := Culling(op.stage.todo - {s}), tail := op.tail + [Unqueue(s), Evict(s)]))
    }

    /** Both locks are released. */
    function Without(o: OpId): Engine {
      if o !in ops then this else
      this.(ops := ops - {o}, life := if life == Some(o) then None else life,
            gates := if ops[o].HoldsGate() then gates - {ops[o].program.Gate().value} else gates)
    }

    function Enqueue(o: OpId): Engine {
      if o !in ops || ops[o].tail == [] || !queue.phase.Resting? then this else
      var s := ops[o].tail[0].s;
      var e := this.(queue := queue.TakeJoin(s, Of(s).IsClosed()));
      if e.queue.phase.Asking? then e.(joining := Some(o)) else e.Popped(o)
    }

    /** A step of the matchmaker; the answer to a Join goes to whoever waits for it. */
    ghost function Queued(step: M.Step): Engine {
      var e := this.(queue := M.Next(queue, step));
      if step.JoinAnswered? && joining.Some? && joining.value in ops && ops[joining.value].tail != []
      then e.Popped(joining.value).(joining := None) else e
    }
  }

  /** The step by which the room manager takes up a command. */
  predicate Takes(m: Msg, step: H.Step) {
    match m
    case Tell(s, up) => step == H.TakeConnection(s, up)
    case Evict(s) => step == H.TakeDisconnect(s)
    case Routes(s) => step.TakeRoutes? && step.s == s
    case Create(s, capacity) => step.TakeCreate? && step.group == [s] && step.capacity == capacity
    case Join(s, room) => step == H.TakeJoin(s, room)
    case Leave(s, room) => step == H.TakeLeave(s, room)
    case _ => false
  }

  /** What the hall does without being asked by one of these operations: the room manager goes
      on with its command, reaps, or takes commands of trusted callers and of the matchmaker;
      rooms run; connections are cancelled, dropped, read and written. */
  predicate Unasked(step: H.Step) {
    match step
    case TakeDisconnect(_) => false
    case TakeConnection(_, _) => false
    case TakeRoutes(_, _) => false
    case Arrives(_, _) => false
    case Changes(_, change) => S.Passing(change)
    case _ => true
  }

  ghost predicate Enabled(e: Engine, step: Step) {
    match step
    case Starts(o, program) =>
      && o !in e.ops
      && (program.Suspending? || program.Resuming? ==> program.s in e.book.sessions)
      && (program.Disconnecting? ==> program.s in e.hall.clients && (program.known <==> program.s in e.book.sessions))
      && (program.Controlling? ==> program.s in e.hall.clients)
    case LocksGate(o) =>
      && o in e.ops && e.ops[o].stage.Wanting?
      && (e.ops[o].program.Gate().Some? ==> e.ops[o].program.Gate().value !in e.gates)
    case LocksLife(o) => o in e.ops && e.ops[o].stage.Gated? && e.ops[o].program.Vital() && e.life.None?
    case Commits(o, _) =>
      o in e.ops && (if e.ops[o].program.Vital() then e.ops[o].stage.Ready? else e.ops[o].stage.Gated?)
    case Scans(o, s) => o in e.ops && e.ops[o].stage.Scanning? && s in e.ops[o].stage.todo && s in e.book.sessions
    case ScansNoMore(o) => o in e.ops && e.ops[o].stage.Scanning? && e.ops[o].stage.todo == {}
    case Culls(o, s) => o in e.ops && e.ops[o].stage.Culling? && s in e.ops[o].stage.todo
    case CullsNoMore(o) => o in e.ops && e.ops[o].stage.Culling? && e.ops[o].stage.todo == {}
    case Unqueues(o) => Heading(e, o) && e.ops[o].tail[0].Unqueue? && e.queue.phase.Resting?
    case Enqueues(o) => Heading(e, o) && e.ops[o].tail[0].Enqueue? && e.queue.phase.Resting?
    case Asks(o, step) => Heading(e, o) && e.serving.None? && Takes(e.ops[o].tail[0], step) && H.Enabled(e.hall, step)
    case IsDenied(o) => Heading(e, o) && e.ops[o].program.Controlling?
    case Finishes(o) => o in e.ops && e.ops[o].stage.Sending? && e.ops[o].tail == []
    case GivesUp(o) => o in e.ops && e.ops[o].program.Controlling? && (e.ops[o].stage.Wanting? || e.ops[o].stage.Gated?)
    case Registers(s, principal, client, proof) =>
      && s !in e.hall.clients && client.generation == 1 && client.transport.Some? && !client.closed
      && client.transport.value.sent == []
      && !Passes(e)
    case HallMoves(step) => Unasked(step) && H.Enabled(e.hall, step)
    case QueueMoves(step) =>
      && M.Enabled(e.queue, step)
      && (step.JoinTaken? ==> step.s in e.hall.clients && step.closed == e.Of(step.s).IsClosed())
  }

  /** The operation's next command can be sent. */
  predicate Heading(e: Engine, o: OpId) {
    o in e.ops && e.ops[o].stage.Sending? && e.ops[o].tail != [] && e.serving != Some(o) && e.joining != Some(o)
  }

  /** The session manager is in the middle of an expiry pass and takes no other command. */
  predicate Passes(e: Engine) {
    e.life.Some? && e.life.value in e.ops && (e.ops[e.life.value].stage.Scanning? || e.ops[e.life.value].stage.Culling?)
  }

  /** A step that is not possible changes nothing. */
  ghost function Next(e: Engine, step: Step): Engine {
    if !Enabled(e, step) then e else
    match step
    case Starts(o, program) => e.With(o, Op(program, Wanting, []))
    case LocksGate(o) =>
      var gate := e.ops[o].program.Gate();
      e.With(o, e.ops[o].(stage := Gated)).(gates := if gate.Some? then e.gates[gate.value := o] else e.gates)
    case LocksLife(o) => e.With(o, e.ops[o].(stage := Ready)).(life := Some(o))
    case Commits(o, now) => e.Commit(o, now)
    case Scans(o, s) => e.Scan(o, s)
    case ScansNoMore(o) => e.With(o, e.ops[o].(stage := Culling(e.book.Overdue(e.ops[o].stage.now))))
    case Culls(o, s) => e.Cull(o, s)
    case CullsNoMore(o) => e.With(o, e.ops[o].(stage := Sending))
    case Unqueues(o) => e.(queue := e.queue.TakeLeave(e.ops[o].tail[0].s)).Popped(o)
    case Enqueues(o) => e.Enqueue(o)
    case Asks(o, step) =>
      e.(hall := H.Next(e.hall, step), book := e.book.(clients := H.Next(e.hall, step).clients),
          serving := Some(o)).Settled()
    case IsDenied(o) => e.Denied(o)
    case Finishes(o) => e.Without(o)
    case GivesUp(o) => e.Without(o)
    case Registers(s, principal, client, proof) =>
      var (b, r) := e.book.Register(s, principal, client, proof, true);
      if r.Err? then e else e.(book := b, hall := H.Next(e.hall, H.Arrives(s, client)))
    case HallMoves(step) =>
      e.(hall := H.Next(e.hall, step), book := e.book.(clients := H.Next(e.hall, step).clients)).Settled()
    case QueueMoves(step) => e.Queued(step)
  }
}
