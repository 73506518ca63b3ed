/** What rooms believe about connections is right, both ways, whenever nothing is owed. */
module EngineBeliefs {
  import opened Types
  import opened EngineSystem
  import opened EngineLocks
  import opened EngineCore
  import opened EngineDuties
  import opened EngineNotices
  import opened EngineGhosts
  import opened EngineRoutes
  import C = Clients
  import R = Rooms
  import H = RoomSystem
  import HC = RoomCopies
  import HR = RoomRoutes
  import HN = RoomNotices
  import HX = RoomRuns
  import M = Matchmakers
  import S = SessionManagers

  /** A notice of return is owed only for a session that has been connected again. */
  ghost predicate Returning(e: Engine) {
    forall m :: m in e.Duties() && m.Tell? && m.up ==> m.s in e.hall.clients && e.hall.clients[m.s].transport.Some?
  }

  ghost predicate DoubtsAll(h: H.Hall, s: SessionId) { forall r :: HN.DoubtIn(h, s, r) }

  /** Of whoever has lost the connection, and is not closed, every room believes so, or is still
      to be told. */
  ghost predicate Doubts(e: Engine) {
    forall s :: Lost(e, s) && !e.hall.clients[s].closed ==> Tell(s, false) in e.Duties() || DoubtsAll(e.hall, s)
  }

  lemma ReturningLater(e: Engine, k: Engine)
    requires Returning(e) && Dropped(e, k) && Kept(e, k)
    ensures Returning(k)
  {
    hide Engine.Duties;
    assert forall m :: m in k.Duties() ==> m in e.Duties();
  }

  /** Only a resumption owes a notice of return. */
  lemma NoReturnOwed(k: Engine, o: OpId)
    requires Locks(k) && Tails(k) && o in k.ops && k.life == Some(o) && !k.ops[o].program.Resuming?
    ensures Returning(k)
  {
    hide Locks, Tails;
    DutiesOf(k, o);
  }

  lemma ResumeReturns(e: Engine, o: OpId, now: nat)
    requires Returning(e) && Core(e) && Locks(e) && Tails(e) && Enabled(e, Commits(o, now)) && IsResuming(e, o)
    ensures Returning(e.Commit(o, now))
  {
    hide Locks, Tails, HX.Inv, M.Queue.Inv, S.Book.Resume, S.Book.Inv;
    var (p, k) := (e.ops[o].program, e.Commit(o, now));
    ReadyOwesNothing(e, o, now);
    if e.book.Resume(p.s, p.proof, p.identity, p.token, now, true).1.Ok? {
      ResumeAttaches(e.book, p.s, p.proof, p.identity, p.token, now);
      ResumeLinks(e.book, p.s, p.proof, p.identity, p.token, now, e.hall.config.outboundCapacity);
    }
  }

  lemma ResumeAttaches(b: S.Book, s: SessionId, proof: Token, identity: Option<Principal>, token: Token, now: nat)
    requires b.Resume(s, proof, identity, token, now, true).1.Ok?
    ensures b.Of(s).Attach(true).Ok?
  {
  }

  lemma CommitReturns(e: Engine, o: OpId, now: nat)
    requires Returning(e) && Core(e) && Locks(e) && Tails(e) && Enabled(e, Commits(o, now))
    ensures Returning(e.Commit(o, now))
  {
    hide Core, Locks, Tails, Returning, Engine.Commit, Engine.Duties, Dropped, Kept, Nearing;
    if e.ops[o].program.Resuming? {
      ResumeReturns(e, o, now);
    } else if e.ops[o].program.Controlling? {
      ControlDuties(e, o, now);
      SameIsKept(e, e.Commit(o, now));
      ReturningLater(e, e.Commit(o, now));
    } else {
      ReadyOwesNothing(e, o, now);
      StepKeepsLocks(e, Commits(o, now));
      StepKeepsTails(e, Commits(o, now));
      CommitProgress(e, o, now);
      GrowthIsApart(e, o, now, 0);
      NoReturnOwed(e.Commit(o, now), o);
    }
  }

  lemma PassReturns(e: Engine, step: Step)
    requires Locks(e) && Tails(e) && Enabled(e, step) && (step.Scans? || step.Culls?)
    ensures Returning(Next(e, step))
  {
    hide Locks, Tails, Returning, S.Book.Scan, S.Book.Remove, C.Change.Apply;
    StepKeepsLocks(e, step);
    StepKeepsTails(e, step);
    PassingHoldsLife(e, step.o);
    NoReturnOwed(Next(e, step), step.o);
  }

  lemma StepReturns(e: Engine, step: Step)
    requires Returning(e) && Core(e) && Locks(e) && Tails(e) && Serving(e) && Enqueuing(e) && Enabled(e, step)
    ensures Returning(Next(e, step))
  {
    hide Returning, Core, Locks, Tails, Serving, Enqueuing, H.Next, H.Enabled, M.Next, M.Enabled, S.Book.Overdue;
    hide S.Book.Register;
    hide Engine.Commit, Engine.Scan, Engine.Cull, Engine.Enqueue, Engine.Settled, Engine.Queued, Engine.Popped;
    match step
    case Commits(o, now) => CommitReturns(e, o, now);
    case Scans(o, s) => PassReturns(e, step);
    case Culls(o, s) => PassReturns(e, step);
    case _ => OtherReturns(e, step);
  }

  lemma OtherReturns(e: Engine, step: Step)
    requires Returning(e) && Core(e) && Locks(e) && Tails(e) && Serving(e) && Enqueuing(e) && Enabled(e, step)
    ensures !Growing(step) ==> Returning(Next(e, step))
  {
    hide Returning, Core, Locks, Tails, Serving, Enqueuing, Dropped, Kept, Next, Enabled, HX.Inv, M.Queue.Inv;
    if !Growing(step) {
      CoreParts(e);
      StepDrops(e, step);
      StepKeepsClients(e, step);
      ReturningLater(e, Next(e, step));
    }
  }

  // ----- a notice of loss on its way -------------------------------------------------

  lemma LossIsReal(e: Engine)
    requires Locks(e) && Tails(e) && Serving(e) && Owing(e)
    ensures HN.Telling(e.hall.job) && !e.hall.job.errand.up ==> Lost(e, e.hall.job.s) && e.Of(e.hall.job.s).IsClosed()
  {
    hide Locks, Tails, Serving, Owing;
    if HN.Telling(e.hall.job) && !e.hall.job.errand.up { LossIsTaken(e, e.hall, e.hall.job.s); }
  }

  lemma HallSpreads(e: Engine, move: H.Step)
    requires HN.Spread(e.hall) && Core(e) && Locks(e) && Tails(e) && Serving(e) && Owing(e) && H.Enabled(e.hall, move)
    ensures HN.Spread(H.Next(e.hall, move))
  {
    hide HN.Spread, Core, Locks, Tails, Serving, Owing, H.Enabled, H.Next, HC.Cast, HC.Copies, HC.JobOk, HR.Told;
    hide HR.Known, HN.Paced, HX.Inv, M.Queue.Inv;
    LossIsReal(e);
    CoreParts(e);
    HallKnows(e.hall);
    HN.StepSpreads(e.hall, move);
  }

  lemma SameSpread(h: H.Hall, k: H.Hall)
    requires HN.Spread(h) && k.rooms == h.rooms && k.job == h.job
    ensures HN.Spread(k)
  {
    hide HN.DoubtIn;
    HN.RoomsDoubt(h, k);
  }

  lemma StepSpreads(e: Engine, step: Step)
    requires HN.Spread(e.hall) && Core(e) && Locks(e) && Tails(e) && Serving(e) && Owing(e) && Enabled(e, step)
    ensures HN.Spread(Next(e, step).hall)
  {
    hide HN.Spread, Core, Locks, Tails, Serving, Owing, H.Enabled, H.Next, M.Next, M.Enabled, M.Queue.TakeJoin;
    hide M.Queue.TakeLeave, S.Book.Overdue, S.Book.Register;
    hide Engine.Commit, Engine.Scan, Engine.Cull, H.Hall.Changes;
    var k := Next(e, step);
    match step
    case Commits(o, now) => GrowthIsApart(e, o, now, 0); CommitAlone(e, o, now); SameSpread(e.hall, k.hall);
    case Scans(o, s) => GrowthIsApart(e, o, 0, s); PassAlone(e, o, s); SameSpread(e.hall, k.hall);
    case Culls(o, s) => GrowthIsApart(e, o, 0, s); PassAlone(e, o, s); SameSpread(e.hall, k.hall);
    case Asks(o, command) => HallSpreads(e, command);
    case Registers(s, principal, client, proof) => RegisterSpreads(e, step);
    case HallMoves(move) => HallSpreads(e, move);
    case _ =>
  }

  lemma RegisterSpreads(e: Engine, step: Step)
    requires HN.Spread(e.hall) && Enabled(e, step) && step.Registers?
    ensures HN.Spread(Next(e, step).hall)
  {
    hide HN.Spread, S.Book.Register;
    SameSpread(e.hall, Next(e, step).hall);
  }

  // ----- what rooms believe ----------------------------------------------------------

  lemma RoomsDoubtAll(h: H.Hall, k: H.Hall)
    requires k.rooms == h.rooms
    ensures forall s :: DoubtsAll(h, s) ==> DoubtsAll(k, s)
  {
    hide HN.DoubtIn;
    HN.RoomsDoubt(h, k);
  }

  lemma DoubtsLater(e: Engine, k: Engine)
    requires Doubts(e) && Kept(e, k)
    requires forall s :: Lost(e, s) && Tell(s, false) in e.Duties() ==>
            Tell(s, false) in k.Duties() || DoubtsAll(k.hall, s)
    requires forall s :: Lost(e, s) && DoubtsAll(e.hall, s) ==> DoubtsAll(k.hall, s)
    ensures Doubts(k)
  {
    hide DoubtsAll, Engine.Duties;
  }

  lemma GrowDoubts(e: Engine, k: Engine, s: SessionId, m: Msg)
    requires Doubts(e) && Grows(e, k, s, m) && k.hall.rooms == e.hall.rooms
    ensures Doubts(k)
  {
    hide DoubtsAll, Engine.Duties;
    RoomsDoubtAll(e.hall, k.hall);
    assert m in e.Duties() + [Unqueue(s), m] by { assert (e.Duties() + [Unqueue(s), m])[|e.Duties()| + 1] == m; }
  }

  lemma SameDoubts(e: Engine, k: Engine)
    requires Doubts(e) && k.Duties() == e.Duties() && k.hall.clients == e.hall.clients && k.hall.rooms == e.hall.rooms
    ensures Doubts(k)
  {
    hide DoubtsAll, Engine.Duties;
    RoomsDoubtAll(e.hall, k.hall);
  }

  lemma ResumeDoubts(e: Engine, o: OpId, now: nat)
    requires Doubts(e) && Core(e) && Locks(e) && Tails(e) && Enabled(e, Commits(o, now)) && IsResuming(e, o)
    ensures Doubts(e.Commit(o, now))
  {
    hide Locks, Tails, HX.Inv, M.Queue.Inv, S.Book.Resume, S.Book.Inv, DoubtsAll;
    var (p, k) := (e.ops[o].program, e.Commit(o, now));
    ReadyOwesNothing(e, o, now);
    GrowthIsApart(e, o, now, 0);
    RoomsDoubtAll(e.hall, k.hall);
    if e.book.Resume(p.s, p.proof, p.identity, p.token, now, true).1.Ok? {
      ResumeAttaches(e.book, p.s, p.proof, p.identity, p.token, now);
      ResumeLinks(e.book, p.s, p.proof, p.identity, p.token, now, e.hall.config.outboundCapacity);
    }
  }

  lemma CommitDoubts(e: Engine, o: OpId, now: nat)
    requires Doubts(e) && Core(e) && Locks(e) && Tails(e) && Named(e) && Enabled(e, Commits(o, now))
    ensures Doubts(e.Commit(o, now))
  {
    hide Doubts, Core, Locks, Tails, Grows, Engine.Commit, Engine.Duties;
    var k := e.Commit(o, now);
    GrowthIsApart(e, o, now, 0);
    match e.ops[o].program
    case Suspending(s, g) =>
      SuspendGrows(e, o, now);
      if Grows(e, k, s, Tell(s, false)) { GrowDoubts(e, k, s, Tell(s, false)); } else { SameDoubts(e, k); }
    case Resuming(s, proof, identity, token) => ResumeDoubts(e, o, now);
    case Disconnecting(s, _) => DisconnectGrows(e, o, now); GrowDoubts(e, k, s, Evict(s));
    case Expiring => ExpireDuties(e, o, now); SameDoubts(e, k);
    case Controlling(s, g, operation) => ControlDuties(e, o, now); SameDoubts(e, k);
  }

  lemma ScanDoubts(e: Engine, o: OpId, s: SessionId)
    requires Doubts(e) && Core(e) && Locks(e) && Tails(e) && IsScanning(e, o) && s in e.book.sessions
    ensures Doubts(e.Scan(o, s))
  {
    hide Doubts, Core, Locks, Tails, Grows, Engine.Scan, Engine.Duties;
    GrowthIsApart(e, o, 0, s);
    ScanGrows(e, o, s);
    if Grows(e, e.Scan(o, s), s, Tell(s, false)) {
      GrowDoubts(e, e.Scan(o, s), s, Tell(s, false));
    } else {
      SameDoubts(e, e.Scan(o, s));
    }
  }

  lemma CullDoubts(e: Engine, o: OpId, s: SessionId)
    requires Doubts(e) && Core(e) && Locks(e) && Tails(e) && IsCulling(e, o) && s in e.hall.clients
    ensures Doubts(e.Cull(o, s))
  {
    hide Doubts, Core, Locks, Tails, Grows, Engine.Cull, Engine.Duties;
    GrowthIsApart(e, o, 0, s);
    CullGrows(e, o, s);
    GrowDoubts(e, e.Cull(o, s), s, Evict(s));
  }

  /** Nobody who has lost the connection is reported back. */
  lemma NoReturnOfTheLost(e: Engine, s: SessionId)
    requires Locks(e) && Tails(e) && Serving(e) && Returning(e) && KindOf(e.hall.job) == Notice(s, true)
    ensures !Lost(e, s)
  {
    hide Locks, Tails;
    var o := e.serving.value;
    DutiesOf(e, o);
    assert e.ops[o].tail[0] == Tell(s, true);
    assert Sends(e.ops[o].program, Tell(s, true));
    assert Tell(s, true) in e.Duties();
  }

  lemma MoveDoubtsAll(e: Engine, move: H.Step, s: SessionId)
    requires Core(e) && Locks(e) && Tails(e) && Serving(e) && Returning(e) && H.Enabled(e.hall, move) && Lost(e, s)
    requires DoubtsAll(e.hall, s)
    ensures DoubtsAll(H.Next(e.hall, move), s)
  {
    hide Core, Locks, Tails, Serving, Returning, HC.Cast, HC.Copies, HC.JobOk, HR.Told, HR.Known, HN.Paced, H.Next;
    hide H.Enabled, HN.DoubtIn, HX.Inv, M.Queue.Inv;
    CoreParts(e);
    HallKnows(e.hall);
    if move.Answers? && e.hall.job.Waiting? && e.hall.job.errand == H.Tell(true) && e.hall.job.s == s {
      ReturnKind(e.hall);
      NoReturnOfTheLost(e, s);
    }
    AnswersWait(e.hall, move);
    forall r ensures HN.DoubtIn(H.Next(e.hall, move), s, r) { HN.StepKeepsDoubt(e.hall, move, s, r); }
  }

  lemma ReturnKind(h: H.Hall)
    requires HC.JobOk(h) && h.job.Waiting? && h.job.errand == H.Tell(true)
    ensures KindOf(h.job) == Notice(h.job.s, true)
  {
  }

  /** A notice of loss is over only when every room has had it. */
  lemma LossIsOver(h: H.Hall, move: H.Step, s: SessionId)
    requires HC.JobOk(h) && HN.Spread(h) && H.Enabled(h, move) && Unasked(move)
    requires KindOf(h.job) == Notice(s, false) && H.Next(h, move).job.Idle?
    ensures DoubtsAll(h, s)
  {
    hide HN.DoubtIn, H.Hall.Withdrawn, R.TakeTurn, H.Hall.Answers, C.Client.Deliver;
    assert !move.Answers? by { if move.Answers? { HN.AnswerIsTurn(h, move.admit, move.callback); } }
    assert move.NextVisit? && h.job.todo == {};
  }

  lemma MoveLosses(e: Engine, h: H.Hall)
    requires Locks(e) && Tails(e) && Serving(e)
    ensures var k := Moved(e, h).Settled();
            forall s :: Tell(s, false) in e.Duties() ==>
                Tell(s, false) in k.Duties() || (h.job.Idle? && KindOf(e.hall.job) == Notice(s, false))
  {
    hide Locks, Tails;
    var mid := Moved(e, h);
    if e.serving.Some? {
      var o := e.serving.value;
      DutiesOf(e, o);
      PoppedDuties(e, mid, o);
      assert e.ops[o].tail == [e.ops[o].tail[0]] + e.ops[o].tail[1..];
    }
  }

  lemma MoveDoubts(e: Engine, move: H.Step)
    requires Doubts(e) && Returning(e) && HN.Spread(e.hall) && Core(e) && Locks(e) && Tails(e) && Serving(e)
    requires Enabled(e, HallMoves(move))
    ensures Doubts(Next(e, HallMoves(move)))
  {
    hide Doubts, Returning, Core, Locks, Tails, Serving, H.Next, H.Enabled, DoubtsAll, Engine.Settled;
    hide Engine.Duties, HN.Spread, HC.Cast, HC.Copies, HC.JobOk, HR.Told, HR.Known, HN.Paced, HX.Inv, M.Queue.Inv;
    var h, k := H.Next(e.hall, move), Next(e, HallMoves(move));
    CoreParts(e);
    HallKnows(e.hall);
    MoveLosses(e, h);
    SettledHall(Moved(e, h));
    MoveKeeps(e, k, move);
    forall s | Lost(e, s) && (DoubtsAll(e.hall, s) || (h.job.Idle? && KindOf(e.hall.job) == Notice(s, false)))
      ensures DoubtsAll(h, s)
    {
      if !DoubtsAll(e.hall, s) { LossIsOver(e.hall, move, s); }
      MoveDoubtsAll(e, move, s);
    }
    DoubtsLater(e, k);
  }

  lemma AskDoubts(e: Engine, o: OpId, command: H.Step)
    requires Doubts(e) && Returning(e) && Core(e) && Locks(e) && Tails(e) && Serving(e) && Enabled(e, Asks(o, command))
    ensures Doubts(Next(e, Asks(o, command)))
  {
    hide Doubts, Returning, Core, Locks, Tails, Serving, H.Next, H.Enabled, DoubtsAll, Engine.Duties;
    var h, k := H.Next(e.hall, command), Next(e, Asks(o, command));
    TakesIdle(e.hall, e.ops[o].tail[0], command);
    DropsHead(e, Moved(e, h).(serving := Some(o)), o);
    SameDuties(e, Moved(e, h).(serving := Some(o)));
    SameDuties(Moved(e, h).(serving := Some(o)).Popped(o), k);
    MoveKeeps(e, k, command);
    forall s | Lost(e, s) && DoubtsAll(e.hall, s) ensures DoubtsAll(h, s) { MoveDoubtsAll(e, command, s); }
    DoubtsLater(e, k);
  }

  lemma QuietDoubts(e: Engine, k: Engine)
    requires Doubts(e) && k.hall == e.hall && forall s :: Tell(s, false) in e.Duties() ==> Tell(s, false) in k.Duties()
    ensures Doubts(k)
  {
    hide Engine.Duties, DoubtsAll, Dropped, Kept, Nearing;
    SameIsKept(e, k);
    DoubtsLater(e, k);
  }

  lemma PopDoubts(e: Engine, step: Step)
    requires Doubts(e) && Locks(e) && Tails(e) && Enqueuing(e) && Enabled(e, step)
    requires step.Unqueues? || step.Enqueues? || step.IsDenied? || step.QueueMoves?
    ensures Doubts(Next(e, step))
  {
    hide Doubts, Locks, Tails, Engine.Duties, Engine.Popped, M.Queue.TakeJoin, M.Queue.TakeLeave, M.Next, M.Enabled;
    hide Engine.Enqueue, Engine.Queued;
    var k := Next(e, step);
    match step {
      case Unqueues(o) =>
        DropsHead(e, e.(queue := e.queue.TakeLeave(e.ops[o].tail[0].s)), o);
        PoppedHall(e.(queue := e.queue.TakeLeave(e.ops[o].tail[0].s)), o);
      case Enqueues(o) => EnqueueDrops(e, o); EnqueueHall(e, o);
      case IsDenied(o) => DeniedDuties(e, o);
      case QueueMoves(turn) => QueuedDrops(e, turn); QueuedHall(e, turn);
    }
    QuietDoubts(e, k);
  }

  lemma RegisterDoubts(e: Engine, step: Step)
    requires Doubts(e) && Enabled(e, step) && step.Registers?
    ensures Doubts(Next(e, step))
  {
    hide Doubts, S.Book.Register, Engine.Duties, DoubtsAll, Kept;
    var k := Next(e, step);
    RegisterKeepsClients(e, step);
    SameDuties(e, k);
    RoomsDoubtAll(e.hall, k.hall);
    DoubtsLater(e, k);
  }

  lemma StepDoubts(e: Engine, step: Step)
    requires Doubts(e) && Returning(e) && HN.Spread(e.hall) && Core(e) && Locks(e) && Tails(e) && Serving(e)
    requires Enqueuing(e) && Named(e) && Enabled(e, step)
    ensures Doubts(Next(e, step))
  {
    hide Doubts, Returning, HN.Spread, Core, Locks, Tails, Serving, Enqueuing, Named, H.Next, H.Enabled, M.Next;
    hide M.Enabled, S.Book.Overdue, S.Book.Register, Engine.Duties;
    hide Engine.Commit, Engine.Scan, Engine.Cull, Engine.Enqueue, Engine.Settled, Engine.Queued, Engine.Popped;
    match step
    case Commits(o, now) => CommitDoubts(e, o, now);
    case Scans(o, s) => ScanDoubts(e, o, s);
    case Culls(o, s) => CulledIsKnown(e, o, s); CullDoubts(e, o, s);
    case Asks(o, command) => AskDoubts(e, o, command);
    case Registers(s, principal, client, proof) => RegisterDoubts(e, step);
    case HallMoves(move) => MoveDoubts(e, move);
    case Unqueues(o) => PopDoubts(e, step);
    case Enqueues(o) => PopDoubts(e, step);
    case IsDenied(o) => PopDoubts(e, step);
    case QueueMoves(turn) => PopDoubts(e, step);
    case _ => LockDuties(e, step); QuietDoubts(e, Next(e, step));
  }
}
