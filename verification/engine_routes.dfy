/** The route snapshot of every connection. */
module EngineRoutes {
  import opened Types
  import opened EngineSystem
  import opened EngineLocks
  import opened EngineCore
  import opened EngineDuties
  import opened EngineNotices
  import opened EngineGhosts
  import C = Clients
  import R = Rooms
  import H = RoomSystem
  import HR = RoomRoutes
  import HX = RoomRuns
  import M = Matchmakers
  import S = SessionManagers

  // ----- the snapshot of every connection --------------------------------------------

  /** Everybody connected has the routes of that connection restored, or is about to. */
  ghost predicate Snapped(e: Engine) {
    forall s :: s in e.hall.clients && e.hall.clients[s].transport.Some? ==>
        s in e.hall.snaps || Routes(s) in e.Duties()
  }

  lemma SnappedLater(e: Engine, k: Engine)
    requires Snapped(e) && e.hall.snaps.Keys <= k.hall.snaps.Keys
    requires forall s :: s in k.hall.clients && k.hall.clients[s].transport.Some? ==>
               s in k.hall.snaps || (s in e.hall.clients && e.hall.clients[s].transport.Some?)
    requires forall s :: Routes(s) in e.Duties() ==> Routes(s) in k.Duties() || s in k.hall.snaps
    ensures Snapped(k)
  {
  }

  lemma MoveSnaps(h: H.Hall, move: H.Step)
    requires H.Enabled(h, move) && Permitted(move)
    ensures h.snaps.Keys <= H.Next(h, move).snaps.Keys && (move.TakeRoutes? ==> move.s in H.Next(h, move).snaps)
  {
    hide C.Change.Apply, C.Client.Deliver, R.TakeTurn, H.Hall.Removed, H.Hall.Withdrawn;
    match move
    case TakeReap(task) =>
      HR.RemovedNoNews(h.(ledger := h.ledger.(tasks := h.ledger.tasks - {task})), h.ledger.tasks[task]);
    case NextJoin => HR.RemovedNoNews(h, h.job.room);
    case NextVisit(r) => LeftSnaps(h, h.job.s, r, h.job.(todo := h.job.todo - {r}));
    case Hear =>
      HR.RemovedNoNews(h.Delivered(h.job.s, C.Left(h.job.room)), h.job.room);
      LeftSnaps(h, h.job.s, h.job.room, h.job.next);
    case Reply(_) => HR.RemovedNoNews(h, h.job.room);
    case _ =>
  }

  lemma LeftSnaps(h: H.Hall, s: SessionId, r: RoomId, next: H.Job)
    ensures h.Withdrawn(s, r, next).snaps == h.snaps
  {
  }

  /** What an operation does first is dropped from what it owes; the rest is kept. */
  lemma DropsHead(e: Engine, k: Engine, o: OpId)
    requires Locks(e) && Tails(e) && o in e.ops && e.ops[o].tail != [] && k.ops == e.ops && k.life == e.life
    ensures forall m :: m in e.Duties() && m != e.ops[o].tail[0] ==> m in k.Popped(o).Duties()
  {
    hide Locks, Tails;
    DutiesOf(e, o);
    PoppedDuties(e, k, o);
    assert e.ops[o].tail == [e.ops[o].tail[0]] + e.ops[o].tail[1..];
  }

  lemma QuietSnaps(e: Engine, k: Engine)
    requires Snapped(e) && k.hall == e.hall && forall s :: Routes(s) in e.Duties() ==> Routes(s) in k.Duties()
    ensures Snapped(k)
  {
    hide Engine.Duties;
    SnappedLater(e, k);
  }

  lemma MoveKeepsSnapped(e: Engine, k: Engine, move: H.Step)
    requires Snapped(e) && Core(e) && H.Enabled(e.hall, move) && Permitted(move) && k.hall == H.Next(e.hall, move)
    requires forall s :: Routes(s) in e.Duties() ==> Routes(s) in k.Duties() || (move.TakeRoutes? && move.s == s)
    ensures Snapped(k)
  {
    hide Core, H.Next, H.Enabled, Engine.Duties;
    MoveSnaps(e.hall, move);
    MoveKeeps(e, k, move);
    NobodyNew(e, move);
    SnappedLater(e, k);
  }

  lemma AskSnaps(e: Engine, o: OpId, command: H.Step)
    requires Snapped(e) && Core(e) && Locks(e) && Tails(e) && Enabled(e, Asks(o, command))
    ensures Snapped(Next(e, Asks(o, command)))
  {
    hide Snapped, Core, Locks, Tails, H.Next, H.Enabled, Engine.Duties;
    var k, h := Next(e, Asks(o, command)), H.Next(e.hall, command);
    TakesIdle(e.hall, e.ops[o].tail[0], command);
    DropsHead(e, Moved(e, h).(serving := Some(o)), o);
    SameDuties(e, Moved(e, h).(serving := Some(o)));
    SameDuties(Moved(e, h).(serving := Some(o)).Popped(o), k);
    MoveKeepsSnapped(e, k, command);
  }

  lemma HallSnaps(e: Engine, move: H.Step)
    requires Snapped(e) && Core(e) && Locks(e) && Tails(e) && Serving(e) && Enabled(e, HallMoves(move))
    ensures Snapped(Next(e, HallMoves(move)))
  {
    hide Snapped, Core, Locks, Tails, H.Next, H.Enabled, Engine.Duties;
    var k, mid := Next(e, HallMoves(move)), Moved(e, H.Next(e.hall, move));
    SameDuties(e, mid);
    if mid.Settled() != mid {
      DropsHead(e, mid, e.serving.value);
      SameDuties(mid.Popped(e.serving.value), k);
    }
    MoveKeepsSnapped(e, k, move);
  }

  lemma GrowSnaps(e: Engine, k: Engine, s: SessionId, m: Msg)
    requires Snapped(e) && Grows(e, k, s, m) && k.hall.snaps == e.hall.snaps
    requires forall x :: x in k.hall.clients && k.hall.clients[x].transport.Some? ==>
            x in e.hall.clients && e.hall.clients[x].transport.Some?
    ensures Snapped(k)
  {
    hide Engine.Duties;
    SnappedLater(e, k);
  }

  /** Suspending and closing attach nobody and leave the snapshots. */
  lemma DetachingSnaps(h: H.Hall, s: SessionId, change: C.Change)
    requires s in h.clients && (change.Suspending? || change.SuspendingClosed? || change.ClosingForGood?)
    ensures h.Changes(s, change).snaps == h.snaps
    ensures forall x :: x in h.Changes(s, change).clients && h.Changes(s, change).clients[x].transport.Some? ==>
            x in h.clients && h.clients[x].transport.Some?
  {
  }

  lemma GrowingSnaps(e: Engine, k: Engine, s: SessionId, m: Msg, change: C.Change)
    requires Snapped(e) && Grows(e, k, s, m)
    requires (change.Suspending? || change.SuspendingClosed? || change.ClosingForGood?)
    requires k.hall == e.hall || (s in e.hall.clients && k.hall == e.hall.Changes(s, change))
    ensures Snapped(k)
  {
    hide Snapped, Engine.Duties, H.Hall.Changes;
    if s in e.hall.clients { DetachingSnaps(e.hall, s, change); }
    GrowSnaps(e, k, s, m);
  }

  lemma SameSnaps(e: Engine, k: Engine)
    requires Snapped(e) && k.Duties() == e.Duties() && k.hall.clients == e.hall.clients && k.hall.snaps == e.hall.snaps
    ensures Snapped(k)
  {
  }

  lemma CommitHall(e: Engine, o: OpId, now: nat)
    requires o in e.ops
    ensures var (h, p) := (e.Commit(o, now).hall, e.ops[o].program);
            match p
            case Suspending(s, g) => h == if s in e.hall.clients then e.hall.Changes(s, C.Suspending(g)) else e.hall
            case Disconnecting(s, _) =>
              h == if s in e.book.sessions && s in e.hall.clients then e.hall.Changes(s, C.Change.ClosingForGood)
                  else e.hall
            case Resuming(s, _, _, _) =>
              h == e.hall || (s in e.hall.clients && h == e.hall.Changes(s, C.Attaching(true)))
            case _ => h == e.hall
  {
    hide S.Book.Suspend, S.Book.Resume, S.Book.Remove, H.Hall.Changes, Commands;
  }

  lemma SuspendSnaps(e: Engine, o: OpId, now: nat)
    requires Snapped(e) && Core(e) && Locks(e) && Tails(e) && Enabled(e, Commits(o, now)) && IsSuspending(e, o)
    ensures Snapped(e.Commit(o, now))
  {
    hide Snapped, Core, Locks, Tails, Grows, Engine.Commit, Engine.Duties, H.Hall.Changes;
    var (s, g, k) := (e.ops[o].program.s, e.ops[o].program.generation, e.Commit(o, now));
    SuspendGrows(e, o, now);
    CommitHall(e, o, now);
    if Grows(e, k, s, Tell(s, false)) {
      GrowingSnaps(e, k, s, Tell(s, false), C.Suspending(g));
    } else {
      if s in e.hall.clients { DetachingSnaps(e.hall, s, C.Suspending(g)); }
      SameSnaps(e, k);
    }
  }

  lemma ResumeSnaps(e: Engine, o: OpId, now: nat)
    requires Snapped(e) && Core(e) && Locks(e) && Tails(e) && Enabled(e, Commits(o, now)) && IsResuming(e, o)
    ensures Snapped(e.Commit(o, now))
  {
    hide Locks, Tails, HX.Inv, M.Queue.Inv, S.Book.Resume, S.Book.Inv, C.Client.Attach;
    ReadyOwesNothing(e, o, now);
  }

  lemma CommitSnaps(e: Engine, o: OpId, now: nat)
    requires Snapped(e) && Core(e) && Locks(e) && Tails(e) && Named(e) && Enabled(e, Commits(o, now))
    ensures Snapped(e.Commit(o, now))
  {
    hide Snapped, Core, Locks, Tails, Grows, Engine.Commit, Engine.Duties, H.Hall.Changes;
    var k := e.Commit(o, now);
    CommitHall(e, o, now);
    match e.ops[o].program
    case Suspending(s, g) => SuspendSnaps(e, o, now);
    case Resuming(s, proof, identity, token) => ResumeSnaps(e, o, now);
    case Disconnecting(s, _) => DisconnectGrows(e, o, now); GrowingSnaps(e, k, s, Evict(s), C.Change.ClosingForGood);
    case Expiring => ExpireDuties(e, o, now); SameSnaps(e, k);
    case Controlling(s, g, operation) => ControlDuties(e, o, now); SameSnaps(e, k);
  }

  lemma ScanSnaps(e: Engine, o: OpId, s: SessionId)
    requires Snapped(e) && Core(e) && Locks(e) && Tails(e) && IsScanning(e, o) && s in e.book.sessions
    ensures Snapped(e.Scan(o, s))
  {
    hide Snapped, Core, Locks, Tails, Grows, Engine.Duties, H.Hall.Changes, S.Book.Scan;
    ScanGrows(e, o, s);
    if Grows(e, e.Scan(o, s), s, Tell(s, false)) {
      GrowingSnaps(e, e.Scan(o, s), s, Tell(s, false), C.Change.SuspendingClosed);
    } else {
      if s in e.hall.clients { DetachingSnaps(e.hall, s, C.Change.SuspendingClosed); }
      SameSnaps(e, e.Scan(o, s));
    }
  }

  lemma CullSnaps(e: Engine, o: OpId, s: SessionId)
    requires Snapped(e) && Core(e) && Locks(e) && Tails(e) && IsCulling(e, o) && s in e.hall.clients
    ensures Snapped(e.Cull(o, s))
  {
    hide Snapped, Core, Locks, Tails, Grows, Engine.Duties, H.Hall.Changes, S.Book.Remove;
    CullGrows(e, o, s);
    GrowingSnaps(e, e.Cull(o, s), s, Evict(s), C.Change.ClosingForGood);
  }

  lemma RegisterSnaps(e: Engine, step: Step)
    requires Snapped(e) && Enabled(e, step) && step.Registers?
    ensures Snapped(Next(e, step))
  {
    hide Snapped, S.Book.Register, Engine.Duties;
    SameDuties(e, Next(e, step));
    SnappedLater(e, Next(e, step));
  }

  lemma PopSnaps(e: Engine, step: Step)
    requires Snapped(e) && Locks(e) && Tails(e) && Enqueuing(e) && Enabled(e, step)
    requires step.Unqueues? || step.Enqueues? || step.IsDenied? || step.QueueMoves?
    ensures Snapped(Next(e, step))
  {
    hide Snapped, Locks, Tails, Engine.Duties, Engine.Popped, M.Queue.TakeJoin, M.Queue.TakeLeave, M.Next;
    hide M.Enabled, Engine.Enqueue, Engine.Queued;
    var k := Next(e, step);
    match step {
      case Unqueues(o) =>
        DropsHead(e, e.(queue := e.queue.TakeLeave(e.ops[o].tail[0].s)), o);
        PoppedHall(e.(queue := e.queue.TakeLeave(e.ops[o].tail[0].s)), o);
      case Enqueues(o) => EnqueueDrops(e, o); EnqueueHall(e, o);
      case IsDenied(o) => DeniedDuties(e, o);
      case QueueMoves(turn) => QueuedDrops(e, turn); QueuedHall(e, turn);
    }
    QuietSnaps(e, k);
  }

  lemma PoppedHall(e: Engine, o: OpId)
    requires o in e.ops && e.ops[o].tail != []
    ensures e.Popped(o).hall == e.hall
  {
  }

  lemma EnqueueHall(e: Engine, o: OpId)
    requires o in e.ops && e.ops[o].tail != [] && e.queue.phase.Resting?
    ensures e.Enqueue(o).hall == e.hall
  {
  }

  lemma QueuedHall(e: Engine, turn: M.Step)
    requires M.Enabled(e.queue, turn)
    ensures e.Queued(turn).hall == e.hall
  {
    hide M.Next, M.Enabled;
  }

  lemma StepKeepsSnapped(e: Engine, step: Step)
    requires Snapped(e) && Core(e) && Locks(e) && Tails(e) && Serving(e) && Enqueuing(e) && Named(e) && Enabled(e, step)
    ensures Snapped(Next(e, step))
  {
    hide Snapped, Core, Locks, Tails, Serving, Enqueuing, Named, H.Next, H.Enabled, M.Next, M.Enabled;
    hide S.Book.Overdue, S.Book.Register, Engine.Duties;
    hide Engine.Commit, Engine.Scan, Engine.Cull, Engine.Enqueue, Engine.Settled, Engine.Queued, Engine.Popped;
    match step
    case Commits(o, now) => CommitSnaps(e, o, now);
    case Scans(o, s) => ScanSnaps(e, o, s);
    case Culls(o, s) => CulledIsKnown(e, o, s); CullSnaps(e, o, s);
    case Asks(o, command) => AskSnaps(e, o, command);
    case Registers(s, principal, client, proof) => RegisterSnaps(e, step);
    case HallMoves(move) => HallSnaps(e, move);
    case Unqueues(o) => PopSnaps(e, step);
    case Enqueues(o) => PopSnaps(e, step);
    case IsDenied(o) => PopSnaps(e, step);
    case QueueMoves(turn) => PopSnaps(e, step);
    case _ => LockDuties(e, step); QuietSnaps(e, Next(e, step));
  }
}
