/** The locks of the engine, what its operations may send, and whom the managers are serving. */
module EngineLocks {
  import opened Types
  import opened EngineSystem
  import C = Clients
  import R = Rooms
  import H = RoomSystem
  import HC = RoomCopies
  import HN = RoomNotices
  import M = Matchmakers
  import S = SessionManagers

  // ----- what an operation is about --------------------------------------------------

  predicate IsSuspending(e: Engine, o: OpId) { o in e.ops && e.ops[o].program.Suspending? }

  predicate IsResuming(e: Engine, o: OpId) { o in e.ops && e.ops[o].program.Resuming? }

  predicate IsDisconnecting(e: Engine, o: OpId) { o in e.ops && e.ops[o].program.Disconnecting? }

  predicate IsExpiring(e: Engine, o: OpId) { o in e.ops && e.ops[o].program.Expiring? }

  predicate IsScanning(e: Engine, o: OpId) { o in e.ops && e.ops[o].stage.Scanning? }

  predicate IsCulling(e: Engine, o: OpId) { o in e.ops && e.ops[o].stage.Culling? }

  /** The operation has sent everything. */
  predicate HasSent(e: Engine, o: OpId) { o in e.ops && e.ops[o].stage.Sending? && e.ops[o].tail == [] }

  /** The session the operation is about. */
  function Subject(e: Engine, o: OpId): SessionId {
    if o in e.ops && !e.ops[o].program.Expiring? then e.ops[o].program.s else 0
  }

  /** The session manager alone makes clients, attaches, suspends and closes them for good. */
  predicate Permitted(move: H.Step) { !move.Arrives? && (move.Changes? ==> S.Passing(move.change)) }

  /** Only clients, their snapshots, the sessions and what operations have to do may differ. */
  predicate Apart(e: Engine, k: Engine) {
    && k.hall == e.hall.(clients := k.hall.clients, snaps := k.hall.snaps)
    && k == e.(hall := k.hall, book := k.book, ops := k.ops)
  }

  lemma GrowthIsApart(e: Engine, o: OpId, now: nat, s: SessionId)
    ensures Apart(e, e.Commit(o, now)) && Apart(e, e.Scan(o, s)) && Apart(e, e.Cull(o, s))
  {
    hide S.Book.Suspend, S.Book.Resume, S.Book.Remove, S.Book.Scan, C.Change.Apply, Commands;
  }

  // ----- the locks -------------------------------------------------------------------

  /** Whoever should hold a lock holds it, alone; and no lock is held by anybody else. */
  ghost predicate Locks(e: Engine) {
    && (forall o :: o in e.ops && e.ops[o].HoldsGate() ==>
          e.ops[o].program.Gate().value in e.gates && e.gates[e.ops[o].program.Gate().value] == o)
    && (forall s :: s in e.gates ==>
          e.gates[s] in e.ops && e.ops[e.gates[s]].HoldsGate() && e.ops[e.gates[s]].program.Gate() == Some(s))
    && (forall o :: o in e.ops && e.ops[o].HoldsLife() ==> e.life == Some(o))
    && (e.life.Some? ==> e.life.value in e.ops && e.ops[e.life.value].HoldsLife())
  }

  /** Operations have only made progress in sending. */
  predicate SameLocks(e: Engine, k: Engine) {
    && k.gates == e.gates && k.life == e.life && k.ops.Keys == e.ops.Keys
    && forall o :: o in e.ops ==> k.ops[o].program == e.ops[o].program && k.ops[o].HoldsGate() == e.ops[o].HoldsGate()
                                  && k.ops[o].HoldsLife() == e.ops[o].HoldsLife()
  }

  lemma SameLocksKeep(e: Engine, k: Engine)
    requires Locks(e) && SameLocks(e, k)
    ensures Locks(k)
  {
  }

  /** Steps that neither begin nor end an operation nor take a lock. */
  predicate Inner(step: Step) {
    !step.Starts? && !step.LocksGate? && !step.LocksLife? && !step.Finishes? && !step.GivesUp?
  }

  lemma PoppedSameLocks(e: Engine, k: Engine)
    requires k.ops == e.ops && k.gates == e.gates && k.life == e.life
    ensures SameLocks(e, k)
    ensures forall o :: o in k.ops && k.ops[o].tail != [] ==>
              && SameLocks(e, k.Popped(o))
              && SameLocks(e, k.Popped(o).(serving := None)) && SameLocks(e, k.Popped(o).(joining := None))
  {
  }

  lemma DeniedSameLocks(e: Engine, o: OpId)
    ensures SameLocks(e, e.Denied(o)) && Shrunk(e, e.Denied(o))
  {
  }

  lemma CommitSameLocks(e: Engine, o: OpId, now: nat)
    requires o in e.ops && (if e.ops[o].program.Vital() then e.ops[o].stage.Ready? else e.ops[o].stage.Gated?)
    ensures SameLocks(e, e.Commit(o, now))
  {
    hide S.Book.Suspend, S.Book.Resume, S.Book.Remove, H.Hall.Changes, Commands;
  }

  lemma PassSameLocks(e: Engine, o: OpId, s: SessionId)
    requires o in e.ops
    ensures SameLocks(e, e.Scan(o, s))
    ensures SameLocks(e, e.Cull(o, s))
  {
    hide S.Book.Scan, S.Book.Remove, H.Hall.Changes;
  }

  lemma StepSameLocks(e: Engine, step: Step)
    requires Enabled(e, step) && Inner(step)
    ensures SameLocks(e, Next(e, step))
  {
    hide S.Book.Register, S.Book.Overdue, H.Next, H.Enabled, M.Next, M.Enabled, M.Queue.TakeJoin, M.Queue.TakeLeave;
    hide SameLocks, Engine.Commit, Engine.Scan, Engine.Cull, Engine.Popped;
    var k := Next(e, step);
    match step
    case Commits(o, now) => CommitSameLocks(e, o, now);
    case Scans(o, s) => PassSameLocks(e, o, s);
    case ScansNoMore(o) => StageSameLocks(e, o);
    case Culls(o, s) => PassSameLocks(e, o, s);
    case CullsNoMore(o) => StageSameLocks(e, o);
    case Unqueues(o) => PoppedSameLocks(e, e.(queue := e.queue.TakeLeave(e.ops[o].tail[0].s)));
    case Enqueues(o) =>
      var q := e.queue.TakeJoin(e.ops[o].tail[0].s, e.Of(e.ops[o].tail[0].s).IsClosed());
      PoppedSameLocks(e, e.(queue := q));
      PoppedSameLocks(e, e.(queue := q, joining := Some(o)));
    case Asks(o, command) =>
      PoppedSameLocks(e, e.(hall := H.Next(e.hall, command),
          book := e.book.(clients := H.Next(e.hall, command).clients), serving := Some(o)));
    case IsDenied(o) => DeniedSameLocks(e, o);
    case Registers(s, principal, client, proof) => PoppedSameLocks(e, k);
    case HallMoves(move) =>
      PoppedSameLocks(e, e.(hall := H.Next(e.hall, move), book := e.book.(clients := H.Next(e.hall, move).clients)));
    case QueueMoves(turn) => PoppedSameLocks(e, e.(queue := M.Next(e.queue, turn)));
    case _ =>
  }

  lemma StageSameLocks(e: Engine, o: OpId)
    requires o in e.ops
    ensures e.ops[o].stage.Scanning? ==> forall stage: Stage :: stage.Culling? ==>
            SameLocks(e, e.With(o, e.ops[o].(stage := stage)))
    ensures e.ops[o].stage.Culling? ==> SameLocks(e, e.With(o, e.ops[o].(stage := Sending)))
  {
  }

  lemma StartKeepsLocks(e: Engine, o: OpId, program: Program)
    requires Locks(e) && o !in e.ops
    ensures Locks(e.With(o, Op(program, Wanting, [])))
  {
  }

  lemma GateKeepsLocks(e: Engine, o: OpId)
    requires Locks(e) && Enabled(e, LocksGate(o))
    ensures Locks(Next(e, LocksGate(o)))
  {
  }

  lemma LifeKeepsLocks(e: Engine, o: OpId)
    requires Locks(e) && Enabled(e, LocksLife(o))
    ensures Locks(Next(e, LocksLife(o)))
  {
  }

  lemma WithoutKeepsLocks(e: Engine, o: OpId)
    requires Locks(e) && o in e.ops
    ensures Locks(e.Without(o))
  {
  }

  lemma StepKeepsLocks(e: Engine, step: Step)
    requires Locks(e) && Enabled(e, step)
    ensures Locks(Next(e, step))
  {
    hide Locks, SameLocks, Engine.Commit, Engine.Scan, Engine.Cull, Engine.Enqueue, Engine.Settled, Engine.Queued;
    match step
    case Starts(o, program) => StartKeepsLocks(e, o, program);
    case LocksGate(o) => GateKeepsLocks(e, o);
    case LocksLife(o) => LifeKeepsLocks(e, o);
    case Finishes(o) => WithoutKeepsLocks(e, o);
    case GivesUp(o) => WithoutKeepsLocks(e, o);
    case _ => StepSameLocks(e, step); SameLocksKeep(e, Next(e, step));
  }

  /** Two operations never hold the gate of one session, or the lifecycle lock, at once. */
  lemma LocksExclude(e: Engine, o: OpId, p: OpId)
    requires Locks(e) && o in e.ops && p in e.ops
    ensures e.ops[o].HoldsGate() && e.ops[p].HoldsGate() && e.ops[o].program.Gate() == e.ops[p].program.Gate() ==>
            o == p
    ensures e.ops[o].HoldsLife() && e.ops[p].HoldsLife() ==> o == p
  {
  }

  // ----- what operations may still send ----------------------------------------------

  predicate Sends(program: Program, m: Msg) {
    match program
    case Suspending(s, _) => m == Unqueue(s) || m == Tell(s, false)
    case Resuming(s, _, _, _) => m == Routes(s) || m == Tell(s, true)
    case Disconnecting(s, _) => m == Unqueue(s) || m == Evict(s)
    case Expiring => m.Unqueue? || (m.Tell? && !m.up) || m.Evict?
    case Controlling(s, _, _) => m.s == s && (m.Unqueue? || m.Enqueue? || m.Create? || m.Join? || m.Leave?)
  }

  ghost predicate TailOk(op: Op) {
    && (forall m :: m in op.tail ==> Sends(op.program, m))
    && (op.tail != [] ==> op.stage.Sending? || op.stage.Scanning? || op.stage.Culling?)
    && (op.stage.Scanning? || op.stage.Culling? ==> op.program.Expiring?)
  }

  ghost predicate Tails(e: Engine) { forall o :: o in e.ops ==> TailOk(e.ops[o]) }

  /** Each operation has as much left to send as before, one command less, or nothing. */
  ghost predicate Shrunk(e: Engine, k: Engine) {
    && k.ops.Keys == e.ops.Keys
    && forall o :: o in e.ops ==>
         && k.ops[o].program == e.ops[o].program && k.ops[o].stage == e.ops[o].stage
         && (k.ops[o].tail == e.ops[o].tail || k.ops[o].tail == []
             || (e.ops[o].tail != [] && k.ops[o].tail == e.ops[o].tail[1..]))
  }

  predicate Forwards(step: Step) {
    step.Unqueues? || step.Enqueues? || step.Asks? || step.IsDenied? || step.Registers? || step.HallMoves?
        || step.QueueMoves?
  }

  lemma PoppedShrinks(e: Engine, k: Engine)
    requires k.ops == e.ops
    ensures Shrunk(e, k)
    ensures forall o :: o in k.ops && k.ops[o].tail != [] ==>
              && Shrunk(e, k.Popped(o))
              && Shrunk(e, k.Popped(o).(serving := None)) && Shrunk(e, k.Popped(o).(joining := None))
  {
    hide Engine.Popped;
    forall o | o in k.ops && k.ops[o].tail != []
      ensures Shrunk(e, k.Popped(o)) && Shrunk(e, k.Popped(o).(serving := None))
      ensures Shrunk(e, k.Popped(o).(joining := None))
    {
      PoppedOps(k, o);
    }
  }

  lemma PoppedOps(e: Engine, o: OpId)
    requires o in e.ops && e.ops[o].tail != []
    ensures e.Popped(o).ops == e.ops[o := e.ops[o].(tail := e.ops[o].tail[1..])]
  {
  }

  lemma StepShrinks(e: Engine, step: Step)
    requires Enabled(e, step) && Forwards(step)
    ensures Shrunk(e, Next(e, step))
  {
    hide S.Book.Register, H.Next, H.Enabled, M.Next, M.Enabled, M.Queue.TakeJoin, M.Queue.TakeLeave, Shrunk;
    hide Engine.Popped;
    var k := Next(e, step);
    match step
    case Unqueues(o) => PoppedShrinks(e, e.(queue := e.queue.TakeLeave(e.ops[o].tail[0].s)));
    case Enqueues(o) =>
      var q := e.queue.TakeJoin(e.ops[o].tail[0].s, e.Of(e.ops[o].tail[0].s).IsClosed());
      PoppedShrinks(e, e.(queue := q));
      PoppedShrinks(e, e.(queue := q, joining := Some(o)));
    case Asks(o, command) =>
      PoppedShrinks(e, e.(hall := H.Next(e.hall, command),
          book := e.book.(clients := H.Next(e.hall, command).clients), serving := Some(o)));
    case IsDenied(o) => DeniedSameLocks(e, o);
    case Registers(s, principal, client, proof) => PoppedShrinks(e, k);
    case HallMoves(move) =>
      PoppedShrinks(e, e.(hall := H.Next(e.hall, move), book := e.book.(clients := H.Next(e.hall, move).clients)));
    case QueueMoves(turn) => PoppedShrinks(e, e.(queue := M.Next(e.queue, turn)));
    case _ =>
  }

  lemma ShrunkTails(e: Engine, k: Engine)
    requires Tails(e) && Shrunk(e, k)
    ensures Tails(k)
  {
    forall o | o in k.ops ensures TailOk(k.ops[o]) {
      assert TailOk(e.ops[o]);
      ShrunkTail(e.ops[o], k.ops[o]);
    }
  }

  lemma ShrunkTail(a: Op, b: Op)
    requires TailOk(a) && b.program == a.program && b.stage == a.stage
    requires b.tail == a.tail || b.tail == [] || (a.tail != [] && b.tail == a.tail[1..])
    ensures TailOk(b)
  {
    forall m | m in b.tail ensures m in a.tail {
    }
  }

  lemma CommitTail(e: Engine, o: OpId, now: nat)
    requires o in e.ops
    ensures TailOk(e.Commit(o, now).ops[o]) && e.Commit(o, now).ops == e.ops[o := e.Commit(o, now).ops[o]]
  {
    hide S.Book.Suspend, S.Book.Resume, S.Book.Remove, H.Hall.Changes;
  }

  lemma ScanTail(e: Engine, o: OpId, s: SessionId)
    requires IsScanning(e, o) && TailOk(e.ops[o])
    ensures TailOk(e.Scan(o, s).ops[o]) && e.Scan(o, s).ops == e.ops[o := e.Scan(o, s).ops[o]]
  {
    hide S.Book.Scan, H.Hall.Changes;
  }

  lemma CullTail(e: Engine, o: OpId, s: SessionId)
    requires IsCulling(e, o) && TailOk(e.ops[o])
    ensures TailOk(e.Cull(o, s).ops[o]) && e.Cull(o, s).ops == e.ops[o := e.Cull(o, s).ops[o]]
  {
    hide S.Book.Remove, H.Hall.Changes;
  }

  lemma StepKeepsTails(e: Engine, step: Step)
    requires Tails(e) && Enabled(e, step)
    ensures Tails(Next(e, step))
  {
    hide H.Next, H.Enabled, M.Next, M.Enabled, S.Book.Overdue, Engine.Commit, Engine.Scan, Engine.Cull;
    hide Engine.Enqueue, Engine.Settled, Engine.Queued, Engine.Popped, Sends;
    match step
    case Commits(o, now) => CommitTail(e, o, now);
    case Scans(o, s) => ScanTail(e, o, s);
    case Culls(o, s) => CullTail(e, o, s);
    case _ => if Forwards(step) { StepShrinks(e, step); ShrunkTails(e, Next(e, step)); }
  }

  // ----- the control gate ------------------------------------------------------------

  /** A transport command that is being carried out belongs to the session's current generation. */
  ghost predicate GateOk(e: Engine, o: OpId) {
    o in e.ops && e.ops[o].program.Controlling? && e.ops[o].tail != [] ==>
      e.ops[o].program.s in e.hall.clients
          && e.hall.clients[e.ops[o].program.s].generation == e.ops[o].program.generation
  }

  ghost predicate Gates(e: Engine) { forall o :: o in e.ops ==> GateOk(e, o) }

  predicate SameGenerations(h: H.Hall, k: H.Hall) {
    forall s :: s in h.clients ==> s in k.clients && k.clients[s].generation == h.clients[s].generation
  }

  lemma PassingConnects(h: H.Hall, s: SessionId, change: C.Change)
    requires s in h.clients && S.Passing(change)
    ensures HN.SameConnections(h, h.Changes(s, change))
  {
    var c, d := h.clients[s], change.Apply(h.config.outboundCapacity, h.clients[s]);
    assert d.generation == c.generation && d.closed == c.closed && d.transport.Some? == c.transport.Some?;
  }

  /** Neither the room manager, nor a room, nor the transport itself attaches, suspends or
      closes a client. */
  lemma MoveConnects(h: H.Hall, move: H.Step)
    requires H.Enabled(h, move) && !move.Arrives? && (move.Changes? ==> S.Passing(move.change))
    ensures HN.SameConnections(h, H.Next(h, move))
  {
    hide HN.SameConnections, H.Hall.Changes;
    if move.Changes? { PassingConnects(h, move.s, move.change); } else { HN.StepConnects(h, move); }
  }

  /** Suspending, closing and failing to do so keep the generation. */
  lemma DetachKeepsGeneration(h: H.Hall, s: SessionId, change: C.Change)
    requires s in h.clients && (change.Suspending? || change.SuspendingClosed? || change.ClosingForGood?)
    ensures SameGenerations(h, h.Changes(s, change))
  {
  }

  lemma SettledHall(e: Engine)
    ensures e.Settled().hall == e.hall && e.Settled().book == e.book && e.Settled().queue == e.queue
    ensures e.Settled().joining == e.joining
  {
  }

  lemma CommitGenerations(e: Engine, o: OpId, now: nat)
    requires o in e.ops && !e.ops[o].program.Resuming?
    ensures SameGenerations(e.hall, e.Commit(o, now).hall)
  {
    hide S.Book.Suspend, S.Book.Remove, H.Hall.Changes, Commands, SameGenerations;
    SelfGenerations(e.hall, e.Commit(o, now).hall);
    var s := if e.ops[o].program.Expiring? then 0 else e.ops[o].program.s;
    if s in e.hall.clients {
      DetachKeepsGeneration(e.hall, s, C.Change.ClosingForGood);
      if e.ops[o].program.Suspending? { DetachKeepsGeneration(e.hall, s, C.Suspending(e.ops[o].program.generation)); }
    }
  }

  lemma PassGenerations(e: Engine, o: OpId, s: SessionId)
    ensures SameGenerations(e.hall, e.Scan(o, s).hall) && SameGenerations(e.hall, e.Cull(o, s).hall)
  {
    hide S.Book.Scan, S.Book.Remove, H.Hall.Changes, SameGenerations;
    SelfGenerations(e.hall, e.Scan(o, s).hall);
    SelfGenerations(e.hall, e.Cull(o, s).hall);
    if s in e.hall.clients {
      DetachKeepsGeneration(e.hall, s, C.Change.SuspendingClosed);
      DetachKeepsGeneration(e.hall, s, C.Change.ClosingForGood);
    }
  }

  /** Only resuming a session changes a generation, and then it is that session's. */
  lemma StepGenerations(e: Engine, step: Step)
    requires Enabled(e, step)
    requires step.Commits? ==> !IsResuming(e, step.o)
    ensures SameGenerations(e.hall, Next(e, step).hall)
  {
    hide S.Book.Register, S.Book.Overdue, H.Next, H.Enabled, M.Next, M.Enabled, H.Hall.Changes;
    hide M.Queue.TakeJoin, M.Queue.TakeLeave, SameGenerations, Engine.Commit, Engine.Scan, Engine.Cull;
    SelfGenerations(e.hall, Next(e, step).hall);
    match step
    case Commits(o, now) => CommitGenerations(e, o, now);
    case Scans(o, s) => PassGenerations(e, o, s);
    case Culls(o, s) => PassGenerations(e, o, s);
    case Asks(o, command) => MoveGenerations(e.hall, command);
    case Registers(s, principal, client, proof) => ArrivalGenerations(e.hall, s, client);
    case HallMoves(move) => MoveGenerations(e.hall, move);
    case _ =>
  }

  lemma SelfGenerations(h: H.Hall, k: H.Hall)
    ensures k == h ==> SameGenerations(h, k)
  {
  }

  lemma MoveGenerations(h: H.Hall, move: H.Step)
    requires H.Enabled(h, move) && !move.Arrives? && (move.Changes? ==> S.Passing(move.change))
    ensures SameGenerations(h, H.Next(h, move))
  {
    hide H.Next, H.Enabled;
    MoveConnects(h, move);
  }

  lemma ArrivalGenerations(h: H.Hall, s: SessionId, client: C.Client)
    requires H.Enabled(h, H.Arrives(s, client))
    ensures SameGenerations(h, H.Next(h, H.Arrives(s, client)))
  {
  }

  lemma SameGatesKeep(e: Engine, k: Engine)
    requires Gates(e) && SameGenerations(e.hall, k.hall)
    requires forall o :: o in k.ops && k.ops[o].program.Controlling? && k.ops[o].tail != [] ==>
               o in e.ops && e.ops[o].program == k.ops[o].program && e.ops[o].tail != []
    ensures Gates(k)
  {
    forall o | o in k.ops ensures GateOk(k, o) {
      if k.ops[o].program.Controlling? && k.ops[o].tail != [] { assert GateOk(e, o); }
    }
  }

  /** Taking over a session needs the gate that a command of an older generation would hold. */
  lemma ResumeKeepsGates(e: Engine, o: OpId, now: nat)
    requires Gates(e) && Locks(e) && Tails(e) && IsResuming(e, o) && e.ops[o].stage.Ready?
    ensures Gates(e.Commit(o, now))
  {
    hide S.Book.Resume, C.Client.Attach;
    var k := e.Commit(o, now);
    forall p | p in k.ops ensures GateOk(k, p) {
      if k.ops[p].program.Controlling? && k.ops[p].tail != [] {
        assert GateOk(e, p) && TailOk(e.ops[p]);
        LocksExclude(e, o, p);
      }
    }
  }

  lemma ControlKeepsGates(e: Engine, o: OpId, now: nat)
    requires Gates(e) && o in e.ops && e.ops[o].program.Controlling?
    ensures Gates(e.Commit(o, now))
  {
    var k := e.Commit(o, now);
    forall p | p in k.ops ensures GateOk(k, p) {
      if p != o { assert GateOk(e, p); }
    }
  }

  lemma DetachKeepsGates(e: Engine, o: OpId, now: nat)
    requires Gates(e) && Enabled(e, Commits(o, now)) && e.ops[o].program.Vital() && !e.ops[o].program.Resuming?
    ensures Gates(e.Commit(o, now))
  {
    hide Gates, SameGenerations, S.Book.Suspend, S.Book.Remove, H.Hall.Changes;
    StepGenerations(e, Commits(o, now));
    SameGatesKeep(e, e.Commit(o, now));
  }

  lemma PassKeepsGates(e: Engine, step: Step)
    requires Gates(e) && Tails(e) && Enabled(e, step) && (step.Scans? || step.Culls?)
    ensures Gates(Next(e, step))
  {
    hide Gates, SameGenerations, S.Book.Scan, S.Book.Remove, H.Hall.Changes;
    StepGenerations(e, step);
    assert TailOk(e.ops[step.o]);
    SameGatesKeep(e, Next(e, step));
  }

  lemma StepKeepsGates(e: Engine, step: Step)
    requires Gates(e) && Locks(e) && Tails(e) && Enabled(e, step)
    ensures Gates(Next(e, step))
  {
    hide Gates, Locks, Tails, SameGenerations, H.Next, H.Enabled, M.Next, M.Enabled, S.Book.Overdue;
    hide Engine.Commit, Engine.Scan, Engine.Cull, Engine.Enqueue, Engine.Settled, Engine.Queued, Engine.Popped;
    match step
    case Commits(o, now) =>
      if e.ops[o].program.Resuming? { ResumeKeepsGates(e, o, now); }
      else if e.ops[o].program.Controlling? { ControlKeepsGates(e, o, now); }
      else { DetachKeepsGates(e, o, now); }
    case Scans(o, s) => PassKeepsGates(e, step);
    case Culls(o, s) => PassKeepsGates(e, step);
    case _ =>
      StepGenerations(e, step);
      if Forwards(step) { StepShrinks(e, step); }
      SameGatesKeep(e, Next(e, step));
  }

  // ----- who is being served ---------------------------------------------------------

  /** The commands of the room manager that only these operations send. */
  datatype Kind = Plain | Notice(s: SessionId, up: bool) | Eviction(s: SessionId)

  function KindOf(job: H.Job): Kind {
    match job
    case Visiting(s, _, errand, all) => Among(s, errand, all)
    case Waiting(s, _, errand, next) => if next.Visiting? then Among(s, errand, next.all) else Plain
    case Heard(s, _, errand, _, next) => if next.Visiting? then Among(s, errand, next.all) else Plain
    case _ => Plain
  }

  function Among(s: SessionId, errand: H.Errand, all: bool): Kind {
    match errand
    case Enter => Plain
    case Depart => if all then Eviction(s) else Plain
    case Tell(up) => Notice(s, up)
  }

  function KindFor(m: Msg): Kind {
    match m
    case Tell(s, up) => Notice(s, up)
    case Evict(s) => Eviction(s)
    case _ => Plain
  }

  ghost predicate Serving(e: Engine) {
    if e.serving.None? then KindOf(e.hall.job) == Plain
    else
      && e.serving.value in e.ops && e.ops[e.serving.value].stage.Sending? && e.ops[e.serving.value].tail != []
      && !e.hall.job.Idle? && KindOf(e.hall.job) == KindFor(e.ops[e.serving.value].tail[0])
      && !e.ops[e.serving.value].tail[0].Unqueue? && !e.ops[e.serving.value].tail[0].Enqueue?
      && !e.ops[e.serving.value].tail[0].Routes?
  }

  ghost predicate Enqueuing(e: Engine) {
    e.joining.Some? ==>
      && e.joining.value in e.ops && e.ops[e.joining.value].stage.Sending? && e.ops[e.joining.value].tail != []
      && e.ops[e.joining.value].tail[0].Enqueue? && e.queue.phase == M.Asking(e.ops[e.joining.value].tail[0].s)
  }

  lemma VisitKind(h: H.Hall, r: RoomId)
    requires h.job.Visiting? && !h.job.errand.Enter?
    ensures KindOf(h.NextVisit(r).job) == KindOf(h.job) || h.NextVisit(r).job.Idle?
  {
    hide H.Hall.Withdrawn;
    HC.WithdrawnGoesOn(h, h.job.s, r, h.job.(todo := h.job.todo - {r}));
  }

  lemma RemovedKind(h: H.Hall, r: RoomId)
    ensures KindOf(h.Removed(r).job) == Plain
  {
  }

  lemma HearKind(h: H.Hall)
    requires HC.JobOk(h) && h.job.Heard?
    ensures KindOf(h.Hear().job) == KindOf(h.job) || h.Hear().job.Idle?
  {
    hide H.Hall.Removed, H.Hall.Withdrawn;
    RemovedKind(h.Delivered(h.job.s, C.Left(h.job.room)), h.job.room);
    HC.WithdrawnGoesOn(h, h.job.s, h.job.room, h.job.next);
  }

  lemma AnswerKind(h: H.Hall, admit: bool, callback: R.Callback)
    requires h.job.Waiting? && h.job.room in h.rooms
    ensures KindOf(h.Answers(admit, callback).job) == KindOf(h.job)
  {
    hide H.Hall.Answers;
    HN.AnswerIsTurn(h, admit, callback);
  }

  lemma MoveKind(h: H.Hall, move: H.Step)
    requires HC.JobOk(h) && H.Enabled(h, move) && Unasked(move)
    ensures H.Next(h, move).job.Idle? || KindOf(H.Next(h, move).job) == (if h.job.Idle? then Plain else KindOf(h.job))
  {
    hide HC.JobOk, H.Hall.Removed, H.Hall.Hear, H.Hall.NextVisit, H.Hall.Answers, R.TakeTurn;
    match move
    case TakeReap(task) => RemovedKind(h.(ledger := h.ledger.(tasks := h.ledger.tasks - {task})), h.ledger.tasks[task]);
    case NextJoin => RemovedKind(h, h.job.room);
    case NextVisit(r) => VisitsOnly(h); VisitKind(h, r);
    case Hear => HearKind(h);
    case Reply(_) => RemovedKind(h, h.job.room);
    case Answers(admit, callback) => AnswerKind(h, admit, callback);
    case _ =>
  }

  lemma VisitsOnly(h: H.Hall)
    requires HC.JobOk(h) && h.job.Visiting?
    ensures !h.job.errand.Enter?
  {
  }

  lemma AskKind(h: H.Hall, m: Msg, command: H.Step)
    requires Takes(m, command) && H.Enabled(h, command)
    ensures h.job.Idle? && (H.Next(h, command).job.Idle? || KindOf(H.Next(h, command).job) == KindFor(m))
    ensures !m.Unqueue? && !m.Enqueue? && (m.Routes? ==> H.Next(h, command).job.Idle?)
  {
  }

  lemma SettledServing(e: Engine)
    requires e.serving.None? ==> KindOf(e.hall.job) == Plain
    requires e.serving.Some? ==>
               && e.serving.value in e.ops && e.ops[e.serving.value].stage.Sending? && e.ops[e.serving.value].tail != []
               && !e.ops[e.serving.value].tail[0].Unqueue? && !e.ops[e.serving.value].tail[0].Enqueue?
               && (e.hall.job.Idle? || (KindOf(e.hall.job) == KindFor(e.ops[e.serving.value].tail[0])
                    && !e.ops[e.serving.value].tail[0].Routes?))
    ensures Serving(e.Settled())
  {
  }

  /** A step of one operation leaves the others, and what the managers do for them, alone. */
  predicate Alone(e: Engine, k: Engine, o: OpId) {
    && k.hall.job == e.hall.job && k.serving == e.serving && k.joining == e.joining && k.queue == e.queue
    && forall p :: p in e.ops && p != o ==> p in k.ops && k.ops[p] == e.ops[p]
  }

  lemma CommitAlone(e: Engine, o: OpId, now: nat)
    requires o in e.ops
    ensures Alone(e, e.Commit(o, now), o)
  {
    hide S.Book.Suspend, S.Book.Resume, S.Book.Remove, C.Change.Apply, Commands;
  }

  lemma PassAlone(e: Engine, o: OpId, s: SessionId)
    requires o in e.ops
    ensures Alone(e, e.Scan(o, s), o)
    ensures Alone(e, e.Cull(o, s), o)
  {
    hide S.Book.Scan, S.Book.Remove, C.Change.Apply;
  }

  lemma AloneServing(e: Engine, k: Engine, o: OpId)
    requires Serving(e) && Enqueuing(e) && Alone(e, k, o) && o in e.ops
    requires !e.ops[o].stage.Sending? || e.ops[o].tail == []
    ensures Serving(k) && Enqueuing(k)
  {
  }

  lemma StepKeepsServing(e: Engine, step: Step)
    requires Serving(e) && Enqueuing(e) && HC.JobOk(e.hall) && Enabled(e, step)
    ensures Serving(Next(e, step)) && Enqueuing(Next(e, step))
  {
    hide Serving, Enqueuing, HC.JobOk, H.Next, H.Enabled, M.Next, M.Enabled, S.Book.Overdue, S.Book.Register;
    hide M.Queue.TakeLeave;
    hide Engine.Commit, Engine.Scan, Engine.Cull, Engine.Enqueue, Engine.Queued, Engine.Settled, Engine.Popped, Alone;
    var k := Next(e, step);
    match step
    case Starts(o, program) => NewServing(e, o, program);
    case Commits(o, now) => CommitAlone(e, o, now); AloneServing(e, k, o);
    case Scans(o, s) => PassAlone(e, o, s); AloneServing(e, k, o);
    case Culls(o, s) => PassAlone(e, o, s); AloneServing(e, k, o);
    case Unqueues(o) => UnqueueServing(e, o);
    case Enqueues(o) => EnqueueServing(e, o);
    case Asks(o, command) => AskServing(e, o, command);
    case IsDenied(o) => DeniedServing(e, o);
    case Registers(s, principal, client, proof) => RegisterServing(e, step);
    case HallMoves(move) => MoveServing(e, move);
    case QueueMoves(turn) => TurnServing(e, turn);
    case _ => StageAlone(e, k, step.o); AloneServing(e, k, step.o);
  }

  lemma DeniedServing(e: Engine, o: OpId)
    requires Serving(e) && Enqueuing(e) && Heading(e, o)
    ensures Serving(e.Denied(o)) && Enqueuing(e.Denied(o))
  {
    hide Serving, Enqueuing;
    HeadingServing(e, e.Denied(o), o);
  }

  lemma NewServing(e: Engine, o: OpId, program: Program)
    requires Serving(e) && Enqueuing(e) && o !in e.ops
    ensures Serving(e.With(o, Op(program, Wanting, []))) && Enqueuing(e.With(o, Op(program, Wanting, [])))
  {
  }

  lemma StageAlone(e: Engine, k: Engine, o: OpId)
    requires k.hall == e.hall && k.serving == e.serving && k.joining == e.joining && k.queue == e.queue
    requires forall p :: p in e.ops && p != o ==> p in k.ops && k.ops[p] == e.ops[p]
    ensures Alone(e, k, o)
  {
  }

  /** Popping an operation that waits for nobody disturbs nobody. */
  lemma HeadingServing(e: Engine, k: Engine, o: OpId)
    requires Serving(e) && Enqueuing(e) && Heading(e, o)
    requires k.hall == e.hall && k.serving == e.serving && k.joining == e.joining
    requires (e.joining.Some? ==> k.queue.phase == e.queue.phase)
    requires forall p :: p in e.ops && p != o ==> p in k.ops && k.ops[p] == e.ops[p]
    ensures Serving(k) && Enqueuing(k)
  {
  }

  lemma UnqueueServing(e: Engine, o: OpId)
    requires Serving(e) && Enqueuing(e) && Enabled(e, Unqueues(o))
    ensures Serving(Next(e, Unqueues(o))) && Enqueuing(Next(e, Unqueues(o)))
  {
    hide M.Queue.TakeLeave;
    HeadingServing(e, Next(e, Unqueues(o)), o);
  }

  lemma EnqueueServing(e: Engine, o: OpId)
    requires Serving(e) && Enqueuing(e) && Enabled(e, Enqueues(o))
    ensures Serving(Next(e, Enqueues(o))) && Enqueuing(Next(e, Enqueues(o)))
  {
  }

  lemma AskServing(e: Engine, o: OpId, command: H.Step)
    requires Serving(e) && Enqueuing(e) && Enabled(e, Asks(o, command))
    ensures Serving(Next(e, Asks(o, command))) && Enqueuing(Next(e, Asks(o, command)))
  {
    hide H.Next, H.Enabled;
    AskKind(e.hall, e.ops[o].tail[0], command);
    var m := e.(hall := H.Next(e.hall, command), book := e.book.(clients := H.Next(e.hall, command).clients),
        serving := Some(o));
    SettledServing(m);
  }

  lemma RegisterServing(e: Engine, step: Step)
    requires Serving(e) && Enqueuing(e) && Enabled(e, step) && step.Registers?
    ensures Serving(Next(e, step)) && Enqueuing(Next(e, step))
  {
    hide S.Book.Register;
  }

  lemma MoveServing(e: Engine, move: H.Step)
    requires Serving(e) && Enqueuing(e) && HC.JobOk(e.hall) && Enabled(e, HallMoves(move))
    ensures Serving(Next(e, HallMoves(move))) && Enqueuing(Next(e, HallMoves(move)))
  {
    hide H.Next, H.Enabled, HC.JobOk;
    MoveKind(e.hall, move);
    SettledServing(e.(hall := H.Next(e.hall, move), book := e.book.(clients := H.Next(e.hall, move).clients)));
  }

  lemma TurnServing(e: Engine, turn: M.Step)
    requires Serving(e) && Enqueuing(e) && M.Enabled(e.queue, turn)
    ensures Serving(e.Queued(turn)) && Enqueuing(e.Queued(turn))
  {
    hide M.Next;
  }
}
