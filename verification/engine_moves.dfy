/** What operations can do when nobody is in their way: the runs by which suspensions, resumptions,
    disconnections and expiry passes are carried through. */
module EngineMoves {
  import opened Types
  import opened EngineSystem
  import opened EngineLocks
  import opened EngineCore
  import opened EngineDuties
  import opened EngineNotices
  import opened EngineRuns
  import C = Clients
  import L = RoomManagers
  import H = RoomSystem
  import HX = RoomRuns
  import HM = RoomMoves
  import M = Matchmakers
  import S = SessionManagers

  // ----- putting runs together -------------------------------------------------------

  lemma {:induction false} Chain(e: Engine, a: seq<Step>, b: seq<Step>)
    requires AllEnabled(e, a) && AllEnabled(Run(e, a), b)
    ensures AllEnabled(e, a + b) && Run(e, a + b) == Run(Run(e, a), b)
    decreases |a|
  {
    hide Enabled, Next;
    if a == [] {
      assert a + b == b;
    } else {
      assert (a + b)[1..] == a[1..] + b;
      Chain(Next(e, a[0]), a[1..], b);
    }
  }

  lemma One(e: Engine, step: Step)
    requires Enabled(e, step)
    ensures AllEnabled(e, [step]) && Run(e, [step]) == Next(e, step)
  {
    hide Enabled, Next;
    assert [step][1..] == [];
  }

  /** One step, then others. */
  lemma Before(e: Engine, step: Step, rest: seq<Step>)
    requires Enabled(e, step) && AllEnabled(Next(e, step), rest)
    ensures AllEnabled(e, [step] + rest) && Run(e, [step] + rest) == Run(Next(e, step), rest)
  {
    hide Enabled, Next;
    One(e, step);
    Chain(e, [step], rest);
  }

  predicate Leaves(step: Step) {
    (step.Asks? && step.command.TakeLeave?) || (step.HallMoves? && step.move.TakeLeave?)
  }

  predicate Stay(steps: seq<Step>) { forall step :: step in steps ==> !Leaves(step) }

  /** Nobody is made to leave but by a command of its own connection. */
  predicate Voluntary(steps: seq<Step>) { forall step :: step in steps ==> !(step.HallMoves? && step.move.TakeLeave?) }

  lemma StayIsVoluntary(steps: seq<Step>)
    requires Stay(steps)
    ensures Voluntary(steps)
  {
    forall step | step in steps ensures !(step.HallMoves? && step.move.TakeLeave?) { assert !Leaves(step); }
  }

  lemma VoluntaryOn(a: seq<Step>, b: seq<Step>)
    requires Voluntary(a) && Voluntary(b)
    ensures Voluntary(a + b)
  {
  }

  // ----- the room manager at work ----------------------------------------------------

  function Lifted(moves: seq<H.Step>): seq<Step> {
    seq(|moves|, i requires 0 <= i < |moves| => HallMoves(moves[i]))
  }

  lemma {:induction false} LiftedStays(h: H.Hall, moves: seq<H.Step>)
    requires HM.CanWork(h, moves)
    ensures Stay(Lifted(moves))
    decreases |moves|
  {
    hide H.Enabled, H.Next;
    if moves != [] {
      LiftedStays(H.Next(h, moves[0]), moves[1..]);
      assert Lifted(moves) == [HallMoves(moves[0])] + Lifted(moves[1..]);
    }
  }

  lemma {:induction false} WorkLifts(e: Engine, moves: seq<H.Step>)
    requires moves != [] && HM.CanWork(e.hall, moves) && HM.Worked(e.hall, moves).job.Idle?
    ensures AllEnabled(e, Lifted(moves)) && Run(e, Lifted(moves)) == Moved(e, HM.Worked(e.hall, moves)).Settled()
    decreases |moves|
  {
    hide H.Enabled, H.Next, Engine.Popped;
    var step, k := HallMoves(moves[0]), Next(e, HallMoves(moves[0]));
    assert Lifted(moves) == [step] + Lifted(moves[1..]);
    if |moves| == 1 {
      assert moves[1..] == [];
      assert Lifted(moves) == [step];
      One(e, step);
    } else {
      assert k == Moved(e, H.Next(e.hall, moves[0]));
      WorkLifts(k, moves[1..]);
      Before(e, step, Lifted(moves[1..]));
    }
  }

  /** The operation's next command is `m`, and nobody is being served. */
  predicate Owes(e: Engine, o: OpId, m: Msg) { Heading(e, o) && e.serving.None? && e.ops[o].tail[0] == m }

  /** A command is sent and answered. */
  lemma CommandCanRun(e: Engine, o: OpId, m: Msg, command: H.Step, moves: seq<H.Step>, k: H.Hall)
      returns (steps: seq<Step>)
    requires Owes(e, o, m) && Takes(m, command) && HM.Carries(e.hall, command, moves, k)
    ensures AllEnabled(e, steps) && Run(e, steps) == Moved(e, k).Popped(o)
    ensures Voluntary(steps) && (!command.TakeLeave? ==> Stay(steps))
  {
    hide H.Enabled, H.Next, Engine.Popped;
    var h := H.Next(e.hall, command);
    var mid := Moved(e, h).(serving := Some(o));
    PoppedServing(Moved(e, k), o);
    One(e, Asks(o, command));
    if h.job.Idle? {
      steps := [Asks(o, command)];
    } else {
      assert moves != [];
      WorkLifts(mid, moves);
      Before(e, Asks(o, command), Lifted(moves));
      LiftedStays(h, moves);
      StayIsVoluntary(Lifted(moves));
      steps := [Asks(o, command)] + Lifted(moves);
    }
  }

  lemma PoppedServing(e: Engine, o: OpId)
    requires o in e.ops && e.ops[o].tail != [] && e.serving.None?
    ensures e.(serving := Some(o)).Popped(o).(serving := None) == e.Popped(o)
  {
  }

  /** The room manager's part of a state after a notice. */
  function Notified(e: Engine, s: SessionId, up: bool): Engine {
    Moved(e, e.hall.(rooms := HM.ToldAll(e.hall, s, up, e.hall.ledger.RoomsOf(s))))
  }

  /** A notice of loss or return. */
  lemma TellCanRun(e: Engine, o: OpId, s: SessionId, up: bool) returns (steps: seq<Step>)
    requires Owes(e, o, Tell(s, up)) && e.hall.job.Idle? && HX.Sound(e.hall)
    ensures AllEnabled(e, steps) && Stay(steps) && Run(e, steps) == Notified(e, s, up).Popped(o)
  {
    hide HX.Sound, HM.CanWork, HM.Worked, HM.ToldAll, Engine.Popped;
    var h := H.Next(e.hall, H.TakeConnection(s, up));
    HX.StepKeepsSound(e.hall, H.TakeConnection(s, up));
    var moves := HM.RoundTells(h);
    HM.ToldAlike(h, e.hall, s, up, e.hall.ledger.RoomsOf(s));
    steps := CommandCanRun(e, o, Tell(s, up), H.TakeConnection(s, up), moves, Notified(e, s, up).hall);
  }

  lemma EvictCanRun(e: Engine, o: OpId, s: SessionId) returns (steps: seq<Step>, h: H.Hall)
    requires Owes(e, o, Evict(s)) && e.hall.job.Idle? && HX.Sound(e.hall)
    ensures AllEnabled(e, steps) && Stay(steps) && Run(e, steps) == Moved(e, h).Popped(o) && h.job.Idle?
  {
    hide HX.Sound, HM.CanWork, HM.Worked, Engine.Popped;
    var k := H.Next(e.hall, H.TakeDisconnect(s));
    HX.StepKeepsSound(e.hall, H.TakeDisconnect(s));
    var moves := HM.RoundEvicts(k);
    h := HM.Worked(k, moves);
    steps := CommandCanRun(e, o, Evict(s), H.TakeDisconnect(s), moves, h);
  }

  lemma {:induction false} InOrder(rooms: set<RoomId>) returns (routes: seq<RoomId>)
    ensures forall r :: r in routes <==> r in rooms
    ensures forall i, j :: 0 <= i < j < |routes| ==> routes[i] < routes[j]
    decreases |rooms|
  {
    if rooms == {} {
      routes := [];
    } else {
      var least := M.LeastExists(rooms);
      var rest := InOrder(rooms - {least});
      forall i | 0 <= i < |rest| ensures least < rest[i] {
        assert rest[i] in rest;
        assert rest[i] in rooms - {least};
      }
      routes := [least] + rest;
    }
  }

  lemma RoutesCanRun(e: Engine, o: OpId, s: SessionId) returns (steps: seq<Step>, routes: seq<RoomId>)
    requires Owes(e, o, Routes(s)) && e.hall.job.Idle? && s in e.hall.clients
    ensures AllEnabled(e, steps) && Stay(steps)
    ensures Run(e, steps) == Moved(e, e.hall.(snaps := e.hall.snaps[s := routes])).Popped(o)
  {
    hide Engine.Popped;
    routes := InOrder(set r | r in e.hall.ledger.RoomsOf(s) && e.hall.Runs(r));
    var command := H.TakeRoutes(s, routes);
    assert HM.CanWork(H.Next(e.hall, command), []);
    steps := CommandCanRun(e, o, Routes(s), command, [], H.Next(e.hall, command));
  }

  lemma LeaveRests(q: M.Queue, s: SessionId)
    requires q.Inv() && q.phase.Resting?
    ensures q.TakeLeave(s).TestLoop() == q.TakeLeave(s).(phase := M.Resting)
  {
    if s in q.index {
      assert (q.queue - {q.index[s]}).Keys == q.queue.Keys - {q.index[s]};
      assert |q.queue - {q.index[s]}| == |(q.queue - {q.index[s]}).Keys|;
      assert |q.queue| == |q.queue.Keys|;
    }
  }

  /** The matchmaker has taken a session out of its queue and rests again. */
  function Unqueued(e: Engine, s: SessionId): Engine { e.(queue := e.queue.TakeLeave(s).(phase := M.Resting)) }

  lemma UnqueueCanRun(e: Engine, o: OpId, s: SessionId) returns (steps: seq<Step>)
    requires Owes(e, o, Unqueue(s)) && e.queue.phase.Resting? && e.queue.Inv() && e.joining.None?
    ensures AllEnabled(e, steps) && Stay(steps) && Run(e, steps) == Unqueued(e, s).Popped(o)
  {
    hide M.Queue.Inv, Engine.Popped;
    var k := Next(e, Unqueues(o));
    LeaveRests(e.queue, s);
    PoppedQueue(e, o, e.queue.TakeLeave(s));
    assert Enabled(k, QueueMoves(M.LoopTested))
        && Next(k, QueueMoves(M.LoopTested)) == k.(queue := e.queue.TakeLeave(s).(phase := M.Resting));
    PoppedQueue(e, o, e.queue.TakeLeave(s).(phase := M.Resting));
    One(k, QueueMoves(M.LoopTested));
    Before(e, Unqueues(o), [QueueMoves(M.LoopTested)]);
    steps := [Unqueues(o)] + [QueueMoves(M.LoopTested)];
  }

  lemma PoppedQueue(e: Engine, o: OpId, q: M.Queue)
    requires o in e.ops && e.ops[o].tail != []
    ensures e.(queue := q).Popped(o) == e.Popped(o).(queue := q)
    ensures e.(queue := q).Popped(o).queue == q && e.(queue := q).Popped(o).joining == e.joining
  {
  }

  // ----- the matchmaker comes to rest ------------------------------------------------

  /** The room manager rests, and whoever holds the lifecycle lock has sent everything. */
  predicate AtEase(e: Engine) { e.hall.job.Idle? && (e.life.Some? ==> HasSent(e, e.life.value)) }

  lemma EasyParts(e: Engine)
    requires Inv(e) && AtEase(e)
    ensures e.serving.None? && e.queue.Inv() && (e.queue.phase.Resting? ==> e.joining.None?) && e.Duties() == []
  {
    hide Locks, Tails, Gates, Named, Owing, Dequeued, Calms, EngineGhosts.Purged, EngineGhosts.Closing;
    hide EngineRoutes.Snapped, HX.Inv, M.Queue.Inv, S.Book.Inv;
  }

  /** What the matchmaker can always do next, whatever it hears. */
  function NextTurn(phase: M.Phase): M.Step {
    match phase
    case Asking(_) => M.JoinAnswered(false)
    case Looping => M.LoopTested
    case Scanning(_) => M.Drawn
    case Judging(_, _) => M.Judged(true)
    case Submitting(_) => M.GroupSent
    case Submitted(_) => M.GroupSettled(L.Failed(Limit, []), {})
    case Resting => M.LeaveTaken(0)
  }

  lemma NextTurnDescends(q: M.Queue)
    requires q.Inv() && !q.phase.Resting?
    ensures M.Enabled(q, NextTurn(q.phase)) && !NextTurn(q.phase).JoinTaken?
    ensures var p := M.Next(q, NextTurn(q.phase));
            if q.phase.Asking? then !p.phase.Asking?
            else !p.phase.Asking? && (M.Count(p) < M.Count(q) || (M.Count(p) == M.Count(q) && M.Rank(p) < M.Rank(q)))
  {
    if !q.phase.Asking? { M.LoopDescends(q, NextTurn(q.phase)); }
  }

  /** Nothing has changed but the matchmaker, and how much the operations still have to send. */
  predicate Aside(e: Engine, k: Engine) {
    && k.ops.Keys == e.ops.Keys
    && (forall o :: o in e.ops ==>
          && k.ops[o].program == e.ops[o].program && k.ops[o].stage == e.ops[o].stage
          && (e.ops[o].tail == [] ==> k.ops[o].tail == []))
    && k.gates == e.gates && k.life == e.life && k.hall == e.hall && k.book == e.book
  }

  lemma TurnFrame(e: Engine, turn: M.Step)
    ensures Aside(e, e.Queued(turn)) && e.Queued(turn).queue == M.Next(e.queue, turn)
  {
    hide M.Next, M.Enabled;
  }

  /** Whatever the matchmaker is at, it can come to rest. */
  lemma {:induction false} RestCanRun(e: Engine) returns (steps: seq<Step>)
    requires Inv(e)
    ensures AllEnabled(e, steps) && Stay(steps) && Inv(Run(e, steps)) && Aside(e, Run(e, steps))
    ensures Run(e, steps).queue.phase.Resting?
    decreases if e.queue.phase.Asking? then 1 else 0, M.Count(e.queue), M.Rank(e.queue)
  {
    hide Inv, HX.Inv, HX.Sound, M.Queue.Inv, M.Next, M.Enabled, M.Count, M.Rank, Engine.Queued, NextTurn;
    steps := [];
    if !e.queue.phase.Resting? {
      var step := QueueMoves(NextTurn(e.queue.phase));
      InvGround(e);
      NextTurnDescends(e.queue);
      TurnFrame(e, NextTurn(e.queue.phase));
      StepKeepsInv(e, step);
      var rest := RestCanRun(Next(e, step));
      Before(e, step, rest);
      steps := [step] + rest;
    }
  }

  /** Nobody holds the lifecycle lock or waits for a manager, and both managers rest. */
  predicate Quiet(e: Engine) {
    e.life.None? && e.serving.None? && e.joining.None? && e.queue.phase.Resting? && e.hall.job.Idle?
  }

  predicate Waiting(e: Engine, o: OpId) { o in e.ops && e.ops[o].program.Controlling? && e.ops[o].stage.Gated? }

  predicate Commanding(e: Engine, o: OpId) { o in e.ops && e.ops[o].program.Controlling? && e.ops[o].stage.Sending? }

  /** If anybody holds the control gate of `s`, it is a transport command or has sent everything. */
  predicate Yielding(e: Engine, s: SessionId) {
    s in e.gates ==> Waiting(e, e.gates[s]) || Commanding(e, e.gates[s]) || HasSent(e, e.gates[s])
  }

  /** The operation gives up, or has nothing left to do. */
  predicate MayEnd(e: Engine, o: OpId, step: Step) {
    (step == GivesUp(o) && Waiting(e, o)) || (step == Finishes(o) && HasSent(e, o))
  }

  /** Whoever holds the lifecycle lock gives it back. */
  lemma LifeCanEnd(e: Engine, s: SessionId) returns (steps: seq<Step>)
    requires Inv(e) && AtEase(e) && e.queue.phase.Resting? && Yielding(e, s)
    ensures AllEnabled(e, steps) && Stay(steps) && Inv(Run(e, steps))
    ensures Quiet(Run(e, steps)) && Yielding(Run(e, steps), s)
    ensures Run(e, steps).hall == e.hall && Run(e, steps).book == e.book && Run(e, steps).ops.Keys <= e.ops.Keys
  {
    hide Inv, Core, Tails, Calms, Owing, Named, Serving, EngineGhosts.Purged, M.Queue.Inv, Engine.Duties;
    EasyParts(e);
    steps := [];
    if e.life.Some? {
      InvParts(e);
      One(e, Finishes(e.life.value));
      steps := [Finishes(e.life.value)];
    }
    EngineRun(e, steps);
  }

  /** Whatever a transport command still has to send, it may be refused. */
  lemma DenialsCanRun(e: Engine, o: OpId) returns (steps: seq<Step>)
    requires Quiet(e) && Commanding(e, o)
    ensures AllEnabled(e, steps) && Stay(steps) && Aside(e, Run(e, steps)) && Quiet(Run(e, steps))
    ensures HasSent(Run(e, steps), o)
  {
    steps := if e.ops[o].tail != [] then [IsDenied(o)] else [];
  }

  /** The gate is free, and nothing else has changed for `s` or the rooms. */
  predicate Freed(e: Engine, k: Engine, s: SessionId) {
    Quiet(k) && s !in k.gates && k.hall == e.hall && k.book == e.book && k.ops.Keys <= e.ops.Keys
  }

  lemma GateCanOpen(e: Engine, s: SessionId) returns (steps: seq<Step>)
    requires Inv(e) && Quiet(e) && Yielding(e, s)
    ensures AllEnabled(e, steps) && Stay(steps) && Inv(Run(e, steps)) && Freed(e, Run(e, steps), s)
  {
    hide Inv, HoldsGateOf, Enabled, Next;
    steps := [];
    if s in e.gates {
      var o := e.gates[s];
      GateIsHeld(e, s);
      if MayEnd(e, o, GivesUp(o)) {
        HolderEnds(e, o, s, GivesUp(o));
        One(e, GivesUp(o));
        steps := [GivesUp(o)];
      } else if MayEnd(e, o, Finishes(o)) {
        HolderEnds(e, o, s, Finishes(o));
        One(e, Finishes(o));
        steps := [Finishes(o)];
      } else {
        steps := DenialsCanRun(e, o);
        var k := Run(e, steps);
        HoldsOn(e, k, o, s);
        HolderEnds(k, o, s, Finishes(o));
        FreedLater(e, k, Next(k, Finishes(o)), s);
        One(k, Finishes(o));
        Chain(e, steps, [Finishes(o)]);
        steps := steps + [Finishes(o)];
      }
    }
    EngineRun(e, steps);
  }

  predicate HoldsGateOf(e: Engine, o: OpId, s: SessionId) {
    Quiet(e) && s in e.gates && e.gates[s] == o && o in e.ops && e.ops[o].HoldsGate()
        && e.ops[o].program.Gate() == Some(s)
  }

  lemma GateIsHeld(e: Engine, s: SessionId)
    requires Inv(e) && Quiet(e) && s in e.gates
    ensures HoldsGateOf(e, e.gates[s], s)
  {
    hide Inv, Core, Tails, Calms, Owing, Named, Serving, EngineGhosts.Purged;
    InvParts(e);
  }

  lemma HoldsOn(e: Engine, k: Engine, o: OpId, s: SessionId)
    requires HoldsGateOf(e, o, s) && Aside(e, k) && Quiet(k)
    ensures HoldsGateOf(k, o, s)
  {
  }

  lemma HolderEnds(e: Engine, o: OpId, s: SessionId, step: Step)
    requires HoldsGateOf(e, o, s) && MayEnd(e, o, step)
    ensures Enabled(e, step) && Freed(e, Next(e, step), s) && !Leaves(step)
  {
  }

  lemma FreedLater(e: Engine, k: Engine, z: Engine, s: SessionId)
    requires Aside(e, k) && Freed(k, z, s)
    ensures Freed(e, z, s)
  {
  }

  // ----- operations ------------------------------------------------------------------

  /** The managers rest, and the operation has just these commands to send. */
  predicate SendsAll(e: Engine, o: OpId, tail: seq<Msg>) {
    && o in e.ops && e.ops[o].stage.Sending? && e.ops[o].tail == tail
    && e.serving.None? && e.joining.None? && e.queue.phase.Resting? && e.hall.job.Idle?
  }

  /** It suspends, disconnects or expires. */
  predicate Detaches(e: Engine, o: OpId) { o in e.ops && Detaching(e.ops[o].program) }

  predicate Detaching(program: Program) { program.Suspending? || program.Disconnecting? || program.Expiring? }

  predicate Is(e: Engine, o: OpId, program: Program) { o in e.ops && e.ops[o].program == program }

  /** The operation holds its locks and has not been committed. */
  predicate IsReady(e: Engine, o: OpId, program: Program) { o in e.ops && e.ops[o] == Op(program, Ready, []) }

  /** The operation with other commands to send. */
  function ToSend(e: Engine, o: OpId, tail: seq<Msg>): Engine {
    if o in e.ops then e.With(o, e.ops[o].(tail := tail)) else e
  }

  predicate Free(e: Engine, program: Program) { program.Gate().None? || program.Gate().value !in e.gates }

  function Opened(e: Engine, o: OpId, program: Program): Engine {
    e.(ops := e.ops[o := Op(program, Ready, [])], life := Some(o),
       gates := if program.Gate().Some? then e.gates[program.Gate().value := o] else e.gates)
  }

  /** Both locks are taken. */
  lemma OpensCanRun(e: Engine, o: OpId, program: Program) returns (steps: seq<Step>)
    requires Enabled(e, Starts(o, program)) && program.Vital() && Free(e, program) && e.life.None?
    ensures AllEnabled(e, steps) && Stay(steps) && Run(e, steps) == Opened(e, o, program)
  {
    hide H.Enabled, H.Next, M.Enabled, M.Next;
    hide Engine.Commit, Engine.Scan, Engine.Cull, Engine.Enqueue, Engine.Settled, Engine.Queued, Engine.Popped;
    hide Engine.Without;
    var e1 := Next(e, Starts(o, program));
    var e2 := Next(e1, LocksGate(o));
    assert Next(e2, LocksLife(o)) == Opened(e, o, program);
    One(e2, LocksLife(o));
    Before(e1, LocksGate(o), [LocksLife(o)]);
    Before(e, Starts(o, program), [LocksGate(o)] + [LocksLife(o)]);
    steps := [Starts(o, program)] + ([LocksGate(o)] + [LocksLife(o)]);
  }

  /** Both locks are taken, and the operation is committed. */
  lemma BeginsCanRun(e: Engine, o: OpId, program: Program, now: nat) returns (steps: seq<Step>)
    requires Inv(e) && Enabled(e, Starts(o, program)) && program.Vital() && Free(e, program) && e.life.None?
    ensures AllEnabled(e, steps) && Stay(steps) && Inv(Run(e, steps))
    ensures Run(e, steps) == Opened(e, o, program).Commit(o, now)
    ensures Inv(Opened(e, o, program))
  {
    hide Inv, AllEnabled, Run, Engine.Commit;
    var opening := OpensCanRun(e, o, program);
    var k := Opened(e, o, program);
    assert Enabled(k, Commits(o, now)) && Next(k, Commits(o, now)) == k.Commit(o, now);
    One(k, Commits(o, now));
    Chain(e, opening, [Commits(o, now)]);
    steps := opening + [Commits(o, now)];
    EngineRun(e, opening);
    EngineRun(e, steps);
  }

  /** The operation, which `e` does not know, has sent everything and holds both locks. */
  predicate Ended(e: Engine, k: Engine, o: OpId, program: Program) {
    && o !in e.ops && Free(e, program) && e.life.None? && program.Vital()
    && k.ops == e.ops[o := Op(program, Sending, [])] && k.gates == Opened(e, o, program).gates && k.life == Some(o)
  }

  /** Its locks and the operation itself are as in `e`. */
  function Closes(e: Engine, k: Engine): Engine { k.(ops := e.ops, gates := e.gates, life := None) }

  /** Both locks are given back. */
  lemma EndsCanRun(e: Engine, k: Engine, o: OpId, program: Program) returns (steps: seq<Step>)
    requires Ended(e, k, o, program)
    ensures AllEnabled(k, steps) && Stay(steps) && Run(k, steps) == Closes(e, k)
  {
    steps := [Finishes(o)];
    One(k, Finishes(o));
    assert k.ops - {o} == e.ops;
    if program.Gate().Some? { assert k.gates - {program.Gate().value} == e.gates; }
  }

  /** The same operation, with less to send. */
  predicate Sent(e: Engine, k: Engine, o: OpId, tail: seq<Msg>) {
    SendsAll(k, o, tail) && o in e.ops && k.ops == e.ops[o := e.ops[o].(tail := tail)] && k.gates == e.gates
        && k.life == e.life
  }

  lemma SentOn(e: Engine, m: Engine, k: Engine, o: OpId, some: seq<Msg>, tail: seq<Msg>)
    requires Sent(e, m, o, some) && Sent(m, k, o, tail)
    ensures Sent(e, k, o, tail)
  {
  }

  /** The first of what an operation has to send. */
  lemma FirstCanRun(e: Engine, o: OpId, m: Msg, tail: seq<Msg>) returns (steps: seq<Step>)
    requires Inv(e) && Detaches(e, o) && SendsAll(e, o, [m] + tail)
    ensures AllEnabled(e, steps) && Stay(steps) && Sent(e, Run(e, steps), o, tail)
  {
    hide Inv, HX.Sound, M.Queue.Inv, M.Queue.TakeLeave, HM.ToldAll, AllEnabled, Run, Stay;
    Parts(e, o, m);
    assert e.ops[o].tail[1..] == tail;
    match m
    case Unqueue(s) => steps := UnqueueCanRun(e, o, s);
    case Tell(s, up) => steps := TellCanRun(e, o, s, up);
    case Evict(s) => var h; steps, h := EvictCanRun(e, o, s);
    case _ =>
  }

  lemma Parts(e: Engine, o: OpId, m: Msg)
    requires Inv(e) && Detaches(e, o) && Owes(e, o, m)
    ensures HX.Sound(e.hall) && e.queue.Inv() && (m.Unqueue? || m.Tell? || m.Evict?)
  {
    hide Inv, Core, Locks, Calms, Owing, Named, Serving, HX.Inv, HX.Sound, M.Queue.Inv;
    InvGround(e);
    InvParts(e);
    assert TailOk(e.ops[o]);
    assert Sends(e.ops[o].program, m);
  }

  /** Everything an operation has to send. */
  lemma {:induction false} TailCanRun(e: Engine, o: OpId, tail: seq<Msg>) returns (steps: seq<Step>)
    requires Inv(e) && Detaches(e, o) && SendsAll(e, o, tail)
    ensures AllEnabled(e, steps) && Stay(steps) && Inv(Run(e, steps)) && Sent(e, Run(e, steps), o, [])
    ensures e.purged <= Run(e, steps).purged
    decreases |tail|
  {
    hide Inv, Enabled, Next;
    steps := [];
    if tail == [] {
      assert e.ops[o].(tail := []) == e.ops[o];
      assert e.ops[o := e.ops[o]] == e.ops;
    } else {
      assert tail == [tail[0]] + tail[1..];
      steps := FirstCanRun(e, o, tail[0], tail[1..]);
      EngineRun(e, steps);
      var m := Run(e, steps);
      var rest := TailCanRun(m, o, tail[1..]);
      Chain(e, steps, rest);
      SentOn(e, m, Run(m, rest), o, tail[1..], []);
      steps := steps + rest;
    }
  }

  /** Nothing is left of an operation that has been carried through. */
  predicate Over(e: Engine, k: Engine) { Quiet(k) && k.ops == e.ops && k.gates == e.gates }

  /** In `k` the operation `o`, which `e` does not know, has been committed. */
  predicate Committed(e: Engine, k: Engine, o: OpId, program: Program) {
    && o !in e.ops && o in k.ops && k.ops == e.ops[o := k.ops[o]] && k.ops[o].program == program
    && SendsAll(k, o, k.ops[o].tail)
    && Free(e, program) && e.life.None? && k.gates == Opened(e, o, program).gates && k.life == Some(o)
  }

  /** An operation that has been committed sends everything and ends. */
  lemma SendsAndEnds(e: Engine, k: Engine, o: OpId, program: Program) returns (steps: seq<Step>)
    requires Detaching(program) && Committed(e, k, o, program) && Inv(k)
    ensures AllEnabled(k, steps) && Stay(steps) && Inv(Run(k, steps)) && Over(e, Run(k, steps))
    ensures forall s :: Shut(k, s) ==> s in Run(k, steps).purged
  {
    hide Inv, Enabled, Next, AllEnabled, Run, Shut;
    var sending := TailCanRun(k, o, k.ops[o].tail);
    var m := Run(k, sending);
    assert m.ops == e.ops[o := Op(program, Sending, [])];
    NothingLeft(m, o);
    ClosedOnTheWay(k, sending);
    var ending := EndsCanRun(e, m, o, program);
    EngineRun(m, ending);
    Chain(k, sending, ending);
    StayOn(sending, ending);
    steps := sending + ending;
  }

  lemma NothingLeft(e: Engine, o: OpId)
    requires Inv(e) && e.life == Some(o) && SendsAll(e, o, [])
    ensures forall s :: Shut(e, s) ==> s in e.purged
  {
    hide Core, Locks, Tails, Gates, Serving, Enqueuing, Named, Owing, Dequeued, Calms, EngineGhosts.Closing;
    hide EngineRoutes.Snapped;
  }

  lemma {:induction false} ClosedOnTheWay(e: Engine, steps: seq<Step>)
    requires Inv(e) && AllEnabled(e, steps)
    ensures forall s :: Shut(e, s) ==> Shut(Run(e, steps), s)
    decreases |steps|
  {
    hide Inv, Enabled, Next;
    if steps != [] {
      StepKeepsInv(e, steps[0]);
      InvParts(e);
      EngineGhosts.ClosedStays(e, steps[0]);
      ClosedOnTheWay(Next(e, steps[0]), steps[1..]);
    }
  }

  // ----- disconnections --------------------------------------------------------------

  /** From every quiet state, of whatever rooms the session is a member, a disconnection can be
      carried through, and then the session is gone. */
  lemma DisconnectionCanRun(e: Engine, o: OpId, s: SessionId) returns (steps: seq<Step>)
    requires Inv(e) && Quiet(e) && o !in e.ops && s in e.book.sessions && s !in e.gates
    ensures AllEnabled(e, steps) && Inv(Run(e, steps)) && Over(e, Run(e, steps))
    ensures s in Run(e, steps).purged && Gone(Run(e, steps), s)
  {
    hide Inv, Engine.Commit, AllEnabled, Run, Gone, HX.Sound;
    var program := Disconnecting(s, true);
    KnownSession(e, s);
    var beginning := BeginsCanRun(e, o, program, 0);
    DisconnectionCommits(Opened(e, o, program), o, s);
    var rest := SendsAndEnds(e, Run(e, beginning), o, program);
    Chain(e, beginning, rest);
    steps := beginning + rest;
    EngineRun(e, steps);
    PurgedIsGone(Run(e, steps), s);
  }

  /** A registered session has a client, which is not closed, and is suspended exactly if it has
      no connection. */
  predicate Registered(e: Engine, s: SessionId) {
    && s in e.hall.clients && !e.hall.clients[s].closed && s in e.book.proofs
    && (s in e.book.suspended <==> e.hall.clients[s].transport.None?)
  }

  lemma KnownSession(e: Engine, s: SessionId)
    requires Inv(e) && s in e.book.sessions
    ensures Registered(e, s)
  {
    hide Inv, HX.Inv, HX.Sound, M.Queue.Inv;
    InvGround(e);
  }

  lemma DisconnectionCommits(e: Engine, o: OpId, s: SessionId)
    requires s in e.book.sessions && Registered(e, s) && Inv(e) && Is(e, o, Disconnecting(s, true))
    ensures var k := e.Commit(o, 0);
            && k == e.(ops := e.ops[o := Op(Disconnecting(s, true), Sending, [Unqueue(s), Evict(s)])],
                 hall := k.hall, book := k.book)
            && k.hall.job == e.hall.job && Shut(k, s)
  {
    hide Inv, HX.Inv, HX.Sound, M.Queue.Inv, S.Book.Remove;
    InvGround(e);
    RemovedClients(e, s);
  }

  // ----- expiry passes ---------------------------------------------------------------

  /** The pass has gone on, and nothing else has happened. */
  predicate PassesOn(e: Engine, k: Engine, o: OpId) {
    && EngineGhosts.Proceeds(e, k, o)
    && k.gates == e.gates && k.life == e.life && k.serving == e.serving && k.joining == e.joining && k.queue == e.queue
    && k.hall.job == e.hall.job
  }

  /** Whoever was suspended is, until the same deadline. */
  predicate StillSuspended(e: Engine, k: Engine) {
    forall s :: s in e.book.suspended ==> s in k.book.suspended && k.book.suspended[s] == e.book.suspended[s]
  }

  /** The pass has got to this stage. */
  predicate AtStage(e: Engine, o: OpId, stage: Stage) { o in e.ops && e.ops[o].stage == stage }

  lemma ScanPassesOn(e: Engine, o: OpId, s: SessionId, now: nat, todo: set<SessionId>)
    requires Inv(e) && AtStage(e, o, Scanning(now, todo)) && s in e.book.sessions
    ensures var k := e.Scan(o, s);
            && PassesOn(e, k, o) && k.book.sessions == e.book.sessions && StillSuspended(e, k)
            && AtStage(k, o, Scanning(now, todo - {s}))
  {
    hide Inv, HX.Inv, HX.Sound, M.Queue.Inv;
    InvGround(e);
  }

  lemma {:induction false} ScansCanRun(e: Engine, o: OpId, now: nat, todo: set<SessionId>) returns (steps: seq<Step>)
    requires Inv(e) && AtStage(e, o, Scanning(now, todo)) && todo <= e.book.sessions.Keys
    ensures AllEnabled(e, steps) && Stay(steps) && Inv(Run(e, steps))
    ensures PassesOn(e, Run(e, steps), o) && StillSuspended(e, Run(e, steps))
    ensures AtStage(Run(e, steps), o, Scanning(now, {}))
    decreases |todo|
  {
    hide Inv, Engine.Scan;
    if todo == {} {
      steps := [];
      assert e.ops[o := e.ops[o]] == e.ops;
    } else {
      var s :| s in todo;
      var k := Next(e, Scans(o, s));
      ScanPassesOn(e, o, s, now, todo);
      StepKeepsInv(e, Scans(o, s));
      var rest := ScansCanRun(k, o, now, todo - {s});
      Before(e, Scans(o, s), rest);
      steps := [Scans(o, s)] + rest;
    }
  }

  lemma CullPassesOn(e: Engine, o: OpId, s: SessionId, todo: set<SessionId>)
    requires Inv(e) && AtStage(e, o, Culling(todo)) && s in todo
    ensures var k := e.Cull(o, s); PassesOn(e, k, o) && AtStage(k, o, Culling(todo - {s})) && Shut(k, s)
  {
    hide Core, Locks, Tails, Gates, Serving, Enqueuing, Owing, Dequeued, Calms, EngineGhosts.Purged;
    hide EngineGhosts.Closing;
    hide EngineRoutes.Snapped, S.Book.Remove, C.Change.Apply;
    CulledIsKnown(e, o, s);
    RemovedClients(e, s);
  }

  lemma {:induction false} CullsCanRun(e: Engine, o: OpId, todo: set<SessionId>) returns (steps: seq<Step>)
    requires Inv(e) && AtStage(e, o, Culling(todo))
    ensures AllEnabled(e, steps) && Stay(steps) && Inv(Run(e, steps))
    ensures PassesOn(e, Run(e, steps), o) && AtStage(Run(e, steps), o, Culling({}))
    ensures forall s :: s in todo ==> Shut(Run(e, steps), s)
    decreases |todo|
  {
    hide Inv, Engine.Cull, Shut;
    if todo == {} {
      steps := [];
      assert e.ops[o := e.ops[o]] == e.ops;
    } else {
      var s :| s in todo;
      var k := Next(e, Culls(o, s));
      CullPassesOn(e, o, s, todo);
      StepKeepsInv(e, Culls(o, s));
      var rest := CullsCanRun(k, o, todo - {s});
      ClosedOnTheWay(k, rest);
      Before(e, Culls(o, s), rest);
      steps := [Culls(o, s)] + rest;
    }
  }

  /** When everybody has been scanned, the overdue are removed. */
  lemma RemovalsCanRun(e: Engine, o: OpId, now: nat) returns (steps: seq<Step>)
    requires Inv(e) && AtStage(e, o, Scanning(now, {}))
    ensures AllEnabled(e, steps) && Stay(steps) && Inv(Run(e, steps))
    ensures PassesOn(e, Run(e, steps), o) && AtStage(Run(e, steps), o, Sending)
    ensures forall s :: s in e.book.Overdue(now) ==> Shut(Run(e, steps), s)
  {
    hide Inv, AllEnabled, Run, Shut, S.Book.Overdue;
    var k := Next(e, ScansNoMore(o));
    StepKeepsInv(e, ScansNoMore(o));
    var culling := CullsCanRun(k, o, e.book.Overdue(now));
    var m := Run(k, culling);
    var ending := [CullsNoMore(o)];
    StepKeepsInv(m, CullsNoMore(o));
    One(m, CullsNoMore(o));
    ClosedOnTheWay(m, ending);
    Chain(k, culling, ending);
    Before(e, ScansNoMore(o), culling + ending);
    steps := [ScansNoMore(o)] + (culling + ending);
  }

  /** A pass from the beginning of its scan to the end of its removals. */
  lemma PassCanRun(e: Engine, o: OpId, now: nat) returns (steps: seq<Step>)
    requires Inv(e) && IsReady(e, o, Expiring)
    ensures AllEnabled(e, steps) && Stay(steps) && Inv(Run(e, steps))
    ensures PassesOn(e, Run(e, steps), o) && AtStage(Run(e, steps), o, Sending)
    ensures forall s :: s in e.book.Overdue(now) ==> Shut(Run(e, steps), s)
  {
    hide Inv, AllEnabled, Run, Shut;
    var e1 := Next(e, Commits(o, now));
    StepKeepsInv(e, Commits(o, now));
    var scanning := ScansCanRun(e1, o, now, e.book.sessions.Keys);
    var e2 := Run(e1, scanning);
    var removing := RemovalsCanRun(e2, o, now);
    Chain(e1, scanning, removing);
    Before(e, Commits(o, now), scanning + removing);
    steps := [Commits(o, now)] + (scanning + removing);
  }

  /** From every quiet state an expiry pass can be carried through, and then everybody who was
      overdue is gone. */
  lemma ExpiryCanRun(e: Engine, o: OpId, now: nat) returns (steps: seq<Step>)
    requires Inv(e) && Quiet(e) && o !in e.ops
    ensures AllEnabled(e, steps) && Inv(Run(e, steps)) && Over(e, Run(e, steps))
    ensures forall s :: s in e.book.Overdue(now) ==> s in Run(e, steps).purged && Gone(Run(e, steps), s)
  {
    hide Inv, AllEnabled, Run, Gone, S.Book.Overdue, Shut;
    var opening := OpensCanRun(e, o, Expiring);
    EngineRun(e, opening);
    var k := Opened(e, o, Expiring);
    var passing := PassCanRun(k, o, now);
    var m := Run(k, passing);
    OpsPut(e.ops, o, k.ops[o], m.ops[o]);
    var rest := SendsAndEnds(e, m, o, Expiring);
    Chain(k, passing, rest);
    Chain(e, opening, passing + rest);
    steps := opening + (passing + rest);
    forall s | s in e.book.Overdue(now) ensures s in Run(e, steps).purged && Gone(Run(e, steps), s) {
      PurgedIsGone(Run(e, steps), s);
    }
  }

  // ----- suspensions and resumptions -------------------------------------------------

  /** The connection of `s` is gone, and `s` is parked from `now` on. */
  function Detached(e: Engine, s: SessionId, now: nat): Engine {
    var clients := e.hall.clients[s := e.Of(s).(transport := None)];
    e.(hall := e.hall.(clients := clients),
       book := e.book.(clients := clients,
           suspended := e.book.suspended[s := S.Parked(e.Of(s).generation, now + e.book.grace)]))
  }

  /** What a suspension, or an expiry pass that has found just this one loss, leaves when it has
      been carried through. */
  predicate Suspended(e: Engine, k: Engine, s: SessionId, now: nat) {
    Over(e, k) && k.hall == Notified(Detached(e, s, now), s, false).hall && k.book == Detached(e, s, now).book
  }

  lemma SuspensionCommits(e: Engine, o: OpId, s: SessionId, now: nat)
    requires s in e.book.sessions && s !in e.book.suspended && Registered(e, s) && Inv(e)
    requires Is(e, o, Suspending(s, e.Of(s).generation))
    ensures e.Commit(o, now) == Detached(e, s, now).With(o,
            Op(Suspending(s, e.Of(s).generation), Sending, [Unqueue(s), Tell(s, false)]))
  {
    hide Inv, HX.Inv, HX.Sound, M.Queue.Inv;
    InvGround(e);
  }

  lemma PoppedAll(e: Engine, o: OpId, m: Msg, rest: seq<Msg>)
    requires o in e.ops && e.ops[o].tail == [m] + rest && !m.Evict?
    ensures e.Popped(o) == ToSend(e, o, rest)
  {
    assert e.ops[o].tail[1..] == rest;
  }

  /** A loss has been reported to the matchmaker and to the rooms. */
  function Reported(e: Engine, s: SessionId): Engine { Unqueued(Notified(e, s, false), s) }

  lemma LossSends(e: Engine, o: OpId, s: SessionId) returns (steps: seq<Step>)
    requires Inv(e) && Detaches(e, o) && SendsAll(e, o, [Unqueue(s), Tell(s, false)])
    ensures AllEnabled(e, steps) && Stay(steps) && Run(e, steps) == ToSend(Reported(e, s), o, [])
  {
    hide Inv, AllEnabled, Run, Stay, HX.Sound, M.Queue.Inv, M.Queue.TakeLeave, HM.ToldAll, Engine.Popped;
    Parts(e, o, Unqueue(s));
    var unqueueing := UnqueueCanRun(e, o, s);
    assert e.ops[o].tail == [Unqueue(s)] + [Tell(s, false)];
    PoppedAll(Unqueued(e, s), o, Unqueue(s), [Tell(s, false)]);
    var k := Run(e, unqueueing);
    var telling := TellCanRun(k, o, s, false);
    assert k.ops[o].tail == [Tell(s, false)] + [];
    PoppedAll(Notified(k, s, false), o, Tell(s, false), []);
    HM.ToldAlike(k.hall, e.hall, s, false, e.hall.ledger.RoomsOf(s));
    Chain(e, unqueueing, telling);
    StayOn(unqueueing, telling);
    steps := unqueueing + telling;
  }

  lemma StayOn(a: seq<Step>, b: seq<Step>)
    requires Stay(a) && Stay(b)
    ensures Stay(a + b)
  {
  }

  lemma OpsPut(ops: map<OpId, Op>, o: OpId, a: Op, b: Op)
    ensures ops[o := a][o := b] == ops[o := b]
  {
  }

  /** What an operation leaves that has found just the loss of `s`, reports it and ends. */
  lemma LossIsOver(e: Engine, o: OpId, s: SessionId, now: nat, program: Program)
    requires o !in e.ops && Quiet(e) && Free(e, program) && Detaching(program) && s in e.hall.clients
    ensures var k := Detached(Opened(e, o, program), s, now).With(o,
            Op(program, Sending, [Unqueue(s), Tell(s, false)]));
            var m := ToSend(Reported(k, s), o, []);
            Detaches(k, o) && SendsAll(k, o, [Unqueue(s), Tell(s, false)]) && Ended(e, m, o, program)
                && Suspended(e, Closes(e, m), s, now)
  {
    hide HM.ToldAll, M.Queue.TakeLeave;
    var e1 := Opened(e, o, program);
    var k := Detached(e1, s, now).With(o, Op(program, Sending, [Unqueue(s), Tell(s, false)]));
    HM.ToldAlike(k.hall, e.hall, s, false, e.hall.ledger.RoomsOf(s));
    HM.ToldAlike(Detached(e, s, now).hall, e.hall, s, false, e.hall.ledger.RoomsOf(s));
    OpsPut(e.ops, o, e1.ops[o], k.ops[o]);
    OpsPut(e.ops, o, k.ops[o], Op(program, Sending, []));
  }

  lemma SuspensionCanRun(e: Engine, o: OpId, s: SessionId, now: nat) returns (steps: seq<Step>)
    requires Inv(e) && Quiet(e) && o !in e.ops && s in e.book.sessions && s !in e.book.suspended && s !in e.gates
    ensures AllEnabled(e, steps) && Stay(steps) && Inv(Run(e, steps)) && Suspended(e, Run(e, steps), s, now)
  {
    hide Inv, AllEnabled, Run, Stay, Engine.Commit, Detached, Reported, ToSend, Suspended, Closes, Ended, SendsAll;
    hide Detaches;
    KnownSession(e, s);
    var program := Suspending(s, e.Of(s).generation);
    var beginning := BeginsCanRun(e, o, program, now);
    SuspensionCommits(Opened(e, o, program), o, s, now);
    LossIsOver(e, o, s, now, program);
    var k := Run(e, beginning);
    var sending := LossSends(k, o, s);
    var ending := EndsCanRun(e, Run(k, sending), o, program);
    steps := Through(e, beginning, sending, ending);
  }

  /** An operation as a whole. */
  lemma Through(e: Engine, beginning: seq<Step>, sending: seq<Step>, ending: seq<Step>) returns (steps: seq<Step>)
    requires Inv(e) && AllEnabled(e, beginning) && AllEnabled(Run(e, beginning), sending)
    requires AllEnabled(Run(Run(e, beginning), sending), ending) && Stay(beginning) && Stay(sending) && Stay(ending)
    ensures AllEnabled(e, steps) && Stay(steps) && Inv(Run(e, steps))
    ensures Run(e, steps) == Run(Run(Run(e, beginning), sending), ending)
  {
    hide Inv, AllEnabled, Run, Enabled, Next;
    Chain(Run(e, beginning), sending, ending);
    Chain(e, beginning, sending + ending);
    steps := beginning + (sending + ending);
    EngineRun(e, steps);
  }

  /** The session has a connection of the next generation, with nothing sent on it yet. */
  function Attached(e: Engine, s: SessionId, token: Token): Engine {
    var clients := e.hall.clients[s := C.Client(e.Of(s).generation + 1, Some(C.Transport([], 0, false, false)), false)];
    e.(hall := e.hall.(clients := clients),
       book := e.book.(clients := clients, proofs := e.book.proofs[s := token], suspended := e.book.suspended - {s}))
  }

  /** What a resumption that has been carried through leaves: such a connection, its routes
      restored, and every room told. */
  predicate Resumed(e: Engine, k: Engine, s: SessionId, token: Token) {
    && Over(e, k) && s in k.hall.snaps
    && k.hall == Notified(Attached(e, s, token), s, true).hall.(snaps := k.hall.snaps)
    && k.book == Attached(e, s, token).book
  }

  /** What a session has to present: its token and, for an account, a fresh identity. */
  predicate Presents(e: Engine, s: SessionId, program: Program) {
    && program.Resuming? && program.s == s && s in e.book.sessions && s in e.book.proofs
    && program.proof == e.book.proofs[s]
    && program.identity == if e.book.sessions[s].Account? then Some(e.book.sessions[s]) else None
  }

  /** The session can be resumed at this time. */
  predicate Resumable(e: Engine, s: SessionId, now: nat) {
    && s in e.book.sessions && e.Of(s).generation < U64_MAX
    && (s in e.book.suspended ==> now < e.book.suspended[s].deadline)
  }

  lemma ResumptionCommits(e: Engine, o: OpId, s: SessionId, program: Program, now: nat)
    requires Presents(e, s, program) && Resumable(e, s, now) && Inv(e) && Registered(e, s)
    requires Is(e, o, program)
    ensures program.Resuming?
    ensures e.Commit(o, now) == Attached(e, s, program.token)
                                .(hall := Attached(e, s, program.token).hall.(snaps := e.hall.snaps - {s}))
                                .With(o, Op(program, Sending, [Routes(s), Tell(s, true)]))
  {
    hide Inv, HX.Inv, HX.Sound, M.Queue.Inv;
    InvGround(e);
  }

  /** The routes of a session have been restored. */
  function Routed(e: Engine, s: SessionId, routes: seq<RoomId>): Engine {
    Moved(e, e.hall.(snaps := e.hall.snaps[s := routes]))
  }

  lemma ResumptionSends(e: Engine, o: OpId, s: SessionId) returns (steps: seq<Step>, routes: seq<RoomId>)
    requires Inv(e) && SendsAll(e, o, [Routes(s), Tell(s, true)]) && s in e.hall.clients
    ensures AllEnabled(e, steps) && Stay(steps)
    ensures Run(e, steps) == ToSend(Notified(Routed(e, s, routes), s, true), o, [])
  {
    hide Inv, AllEnabled, Run, Stay, HX.Sound, HX.Inv, M.Queue.Inv, HM.ToldAll, Engine.Popped;
    var listing;
    listing, routes := RoutesCanRun(e, o, s);
    EngineRun(e, listing);
    assert e.ops[o].tail == [Routes(s)] + [Tell(s, true)];
    PoppedAll(Routed(e, s, routes), o, Routes(s), [Tell(s, true)]);
    var k := Run(e, listing);
    InvGround(k);
    var telling := TellCanRun(k, o, s, true);
    assert k.ops[o].tail == [Tell(s, true)] + [];
    PoppedAll(Notified(k, s, true), o, Tell(s, true), []);
    HM.ToldAlike(k.hall, Routed(e, s, routes).hall, s, true, e.hall.ledger.RoomsOf(s));
    Chain(e, listing, telling);
    StayOn(listing, telling);
    steps := listing + telling;
  }

  lemma ResumptionIsOver(e: Engine, o: OpId, s: SessionId, program: Program, routes: seq<RoomId>)
    requires o !in e.ops && Quiet(e) && program.Resuming? && program.s == s && s !in e.gates && s in e.book.sessions
    requires s in e.hall.clients
    ensures var k := Readied(e, o, s, program); var m := ToSend(Notified(Routed(k, s, routes), s, true), o, []);
            && SendsAll(k, o, [Routes(s), Tell(s, true)]) && s in k.hall.clients
            && Ended(e, m, o, program) && Resumed(e, Closes(e, m), s, program.token)
  {
    hide HM.ToldAll;
    var e1 := Opened(e, o, program);
    var k := Readied(e, o, s, program);
    HM.ToldAlike(Routed(k, s, routes).hall, Attached(e, s, program.token).hall, s, true, e.hall.ledger.RoomsOf(s));
    OpsPut(e.ops, o, e1.ops[o], k.ops[o]);
    OpsPut(e.ops, o, k.ops[o], Op(program, Sending, []));
  }

  /** A resumption has been committed. */
  function Readied(e: Engine, o: OpId, s: SessionId, program: Program): Engine
    requires program.Resuming?
  {
    var e1 := Attached(Opened(e, o, program), s, program.token);
    e1.(hall := e1.hall.(snaps := e.hall.snaps - {s})).With(o, Op(program, Sending, [Routes(s), Tell(s, true)]))
  }

  /** From every quiet state a session can be resumed, or taken over, with its current token and
      before its deadline. */
  lemma ResumptionCanRun(e: Engine, o: OpId, s: SessionId, token: Token, now: nat) returns (steps: seq<Step>)
    requires Inv(e) && Quiet(e) && o !in e.ops && Resumable(e, s, now) && s !in e.gates
    ensures AllEnabled(e, steps) && Stay(steps) && Inv(Run(e, steps)) && Resumed(e, Run(e, steps), s, token)
  {
    hide Inv, AllEnabled, Run, Stay, Engine.Commit, Attached, ToSend, Notified, Routed, Resumed, Closes, Ended;
    hide SendsAll;
    KnownSession(e, s);
    var program := Resuming(s, e.book.proofs[s], if e.book.sessions[s].Account? then Some(e.book.sessions[s])
        else None, token);
    var beginning := BeginsCanRun(e, o, program, now);
    ResumptionCommits(Opened(e, o, program), o, s, program, now);
    ResumptionIsOver(e, o, s, program, []);
    var k := Run(e, beginning);
    var sending, routes := ResumptionSends(k, o, s);
    ResumptionIsOver(e, o, s, program, routes);
    var ending := EndsCanRun(e, Run(k, sending), o, program);
    steps := Through(e, beginning, sending, ending);
  }
}
