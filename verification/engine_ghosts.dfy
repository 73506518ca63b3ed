/** What becomes of closed sessions. */
module EngineGhosts {
  import opened Types
  import opened EngineSystem
  import opened EngineLocks
  import opened EngineCore
  import opened EngineDuties
  import opened EngineNotices
  import C = Clients
  import R = Rooms
  import H = RoomSystem
  import HC = RoomCopies
  import HR = RoomRoutes
  import HN = RoomNotices
  import HX = RoomRuns
  import M = Matchmakers
  import S = SessionManagers

  // ----- no ghosts -------------------------------------------------------------------

  /** Closed for good, in no queue nor on the way into one, and in no room nor on the way. */
  predicate Clean(e: Engine, s: SessionId) {
    s in e.hall.clients && e.hall.clients[s].closed && s !in e.queue.Footprint() && HX.Out(e.hall, s)
  }

  /** Every closed session is clean, or its eviction is still owed. */
  ghost predicate Purged(e: Engine) {
    && (forall s :: s in e.purged ==> Clean(e, s))
    && (forall s :: s in e.hall.clients && e.hall.clients[s].closed ==> s in e.purged || Evict(s) in e.Duties())
  }

  predicate StaysClosed(e: Engine, k: Engine) {
    forall s :: s in e.hall.clients && e.hall.clients[s].closed ==> s in k.hall.clients && k.hall.clients[s].closed
  }

  lemma CleanLater(e: Engine, k: Engine, s: SessionId)
    requires Clean(e, s) && StaysClosed(e, k) && Nearing(e, k) && HX.Out(k.hall, s)
    ensures Clean(k, s)
  {
    hide M.Queue.Footprint, HX.Out;
  }

  /** No eviction is completed. */
  lemma PurgedLater(e: Engine, k: Engine)
    requires Purged(e) && k.purged == e.purged && StaysClosed(e, k) && Nearing(e, k)
    requires forall s :: Clean(e, s) ==> HX.Out(k.hall, s)
    requires forall s :: Evict(s) in e.Duties() ==> Evict(s) in k.Duties()
    requires forall s :: s in k.hall.clients && k.hall.clients[s].closed ==>
               (s in e.hall.clients && e.hall.clients[s].closed) || Evict(s) in k.Duties()
    ensures Purged(k)
  {
    hide Clean, HX.Out, Nearing, StaysClosed, Engine.Duties;
    forall s | s in k.purged ensures Clean(k, s) { CleanLater(e, k, s); }
  }

  /** The eviction of `x` is completed. */
  lemma PurgedMore(e: Engine, k: Engine, x: SessionId)
    requires Purged(e) && k.purged == e.purged + {x} && Clean(k, x) && Kept(e, k) && Nearing(e, k)
    requires forall s :: Clean(e, s) ==> HX.Out(k.hall, s)
    requires forall s :: Evict(s) in e.Duties() && s != x ==> Evict(s) in k.Duties()
    ensures Purged(k)
  {
    hide HX.Out, Nearing, Engine.Duties, M.Queue.Footprint;
    forall s | s in k.purged ensures Clean(k, s) {
      if s != x { assert Clean(e, s); CleanLater(e, k, s); }
    }
  }

  lemma KeptClosed(e: Engine, k: Engine)
    requires Kept(e, k)
    ensures StaysClosed(e, k)
    ensures forall s :: s in k.hall.clients && k.hall.clients[s].closed ==>
            s in e.hall.clients && e.hall.clients[s].closed
  {
  }

  /** Steps that leave the hall alone and complete no eviction. */
  lemma QuietPurges(e: Engine, k: Engine)
    requires Purged(e) && k.hall == e.hall && k.purged == e.purged && Nearing(e, k)
    requires forall s :: Evict(s) in e.Duties() ==> Evict(s) in k.Duties()
    ensures Purged(k)
  {
    hide Purged, Nearing, Engine.Duties, M.Queue.Footprint, HX.Out;
    PurgedLater(e, k);
  }

  lemma DroppedEvictions(e: Engine, k: Engine, o: OpId)
    requires Locks(e) && Tails(e) && Heading(e, o) && k.ops == e.ops && k.life == e.life && k.purged == e.purged
    requires e.ops[o].program.Controlling? || e.ops[o].tail[0].Unqueue? || e.ops[o].tail[0].Enqueue?
    ensures forall s :: Evict(s) in e.Duties() ==> Evict(s) in k.Popped(o).Duties()
    ensures k.Popped(o).purged == e.purged
  {
    hide Locks, Tails;
    DutiesOf(e, o);
    PoppedDuties(e, k, o);
    assert Sends(e.ops[o].program, e.ops[o].tail[0]);
    if e.life == Some(o) { assert e.ops[o].tail == [e.ops[o].tail[0]] + e.ops[o].tail[1..]; }
  }

  lemma UnqueuePurges(e: Engine, o: OpId)
    requires Purged(e) && Locks(e) && Tails(e) && Enabled(e, Unqueues(o))
    ensures Purged(Next(e, Unqueues(o)))
  {
    hide Purged, Locks, Tails, Nearing, M.Queue.TakeLeave, Engine.Duties;
    var mid := e.(queue := e.queue.TakeLeave(e.ops[o].tail[0].s));
    DroppedEvictions(e, mid, o);
    UnqueueNears(e, Next(e, Unqueues(o)), e.ops[o].tail[0].s);
    QuietPurges(e, Next(e, Unqueues(o)));
  }

  lemma EnqueuePurges(e: Engine, o: OpId)
    requires Purged(e) && Locks(e) && Tails(e) && Enabled(e, Enqueues(o))
    ensures Purged(e.Enqueue(o))
  {
    hide Purged, Locks, Tails, Nearing, M.Queue.TakeJoin, Engine.Duties;
    var s := e.ops[o].tail[0].s;
    var mid := e.(queue := e.queue.TakeJoin(s, e.Of(s).IsClosed()));
    DroppedEvictions(e, mid, o);
    EnqueueDrops(e, o);
    JoinNears(e, e.Enqueue(o), s);
    QuietPurges(e, e.Enqueue(o));
  }

  lemma DeniedPurges(e: Engine, o: OpId)
    requires Purged(e) && Locks(e) && Tails(e) && Enabled(e, IsDenied(o))
    ensures Purged(Next(e, IsDenied(o)))
  {
    hide Purged, Locks, Tails, Nearing, Engine.Duties, Dropped, Kept;
    DeniedDuties(e, o);
    SameIsKept(e, Next(e, IsDenied(o)));
    QuietPurges(e, Next(e, IsDenied(o)));
  }

  lemma TurnPurges(e: Engine, turn: M.Step)
    requires Purged(e) && Locks(e) && Tails(e) && Enqueuing(e) && e.queue.Inv() && M.Enabled(e.queue, turn)
    requires turn.JoinTaken? ==> turn.s in e.hall.clients && turn.closed == e.Of(turn.s).IsClosed()
    ensures Purged(e.Queued(turn))
  {
    hide Purged, Locks, Tails, Nearing, M.Next, M.Enabled, M.Queue.Inv, Engine.Duties;
    QueuedDrops(e, turn);
    TurnNears(e, turn);
    QuietPurges(e, e.Queued(turn));
  }

  lemma LockPurges(e: Engine, step: Step)
    requires Purged(e) && Locks(e) && Tails(e) && Enabled(e, step)
    requires step.Starts? || step.LocksGate? || step.LocksLife? || step.ScansNoMore? || step.CullsNoMore?
            || step.Finishes? || step.GivesUp?
    ensures Purged(Next(e, step))
  {
    hide Purged, Locks, Tails, Nearing, S.Book.Overdue, Engine.Duties, Dropped, Kept;
    LockDuties(e, step);
    SameIsKept(e, Next(e, step));
    QuietPurges(e, Next(e, step));
  }

  /** Whoever registers is a stranger to the rooms and to whatever is going on. */
  lemma RegisterIsApart(e: Engine, step: Step)
    requires Enabled(e, step) && step.Registers?
    ensures var k := Next(e, step);
            && k.purged == e.purged && k.ops == e.ops && k.life == e.life && k.queue == e.queue
            && k.hall.ledger == e.hall.ledger && k.hall.job == e.hall.job
  {
    hide S.Book.Register;
  }

  lemma RegisterPurges(e: Engine, step: Step)
    requires Purged(e) && Enabled(e, step) && step.Registers?
    ensures Purged(Next(e, step))
  {
    hide Purged, Nearing, Kept, Dropped, StaysClosed, Enabled, Next, M.Queue.Footprint, Engine.Duties;
    var k := Next(e, step);
    RegisterIsApart(e, step);
    RegisterKeepsClients(e, step);
    KeptClosed(e, k);
    SameDuties(e, k);
    SameIsKept(e, k);
    PurgedLater(e, k);
  }

  /** Somebody clean stays out whatever the hall does. */
  lemma MoveStaysOut(e: Engine, move: H.Step)
    requires Core(e) && H.Enabled(e.hall, move)
    ensures forall s :: Clean(e, s) ==> HX.Out(H.Next(e.hall, move), s)
  {
    hide Core, H.Next, H.Enabled, HX.Out, HC.Cast, HC.JobOk, HC.Copies, HR.Told, HN.Paced, HR.Known;
    hide M.Queue.Footprint, HX.Inv, M.Queue.Inv;
    CoreParts(e);
    HallKnows(e.hall);
    forall s | Clean(e, s) ensures HX.Out(H.Next(e.hall, move), s) { HX.ClosedStaysOut(e.hall, move, s); }
  }

  lemma AskEvictions(e: Engine, o: OpId, h: H.Hall)
    requires Locks(e) && Tails(e) && Heading(e, o) && e.serving.None? && (h.job.Idle? ==> !e.ops[o].tail[0].Evict?)
    ensures var k := Moved(e, h).(serving := Some(o)).Settled();
            k.purged == e.purged && forall s :: Evict(s) in e.Duties() ==> Evict(s) in k.Duties()
  {
    hide Locks, Tails;
    var mid := Moved(e, h).(serving := Some(o));
    DutiesOf(e, o);
    PoppedDuties(e, mid, o);
    if e.life == Some(o) { assert e.ops[o].tail == [e.ops[o].tail[0]] + e.ops[o].tail[1..]; }
  }

  lemma AskPurges(e: Engine, o: OpId, command: H.Step)
    requires Purged(e) && Core(e) && Locks(e) && Tails(e) && Enabled(e, Asks(o, command))
    ensures Purged(Next(e, Asks(o, command)))
  {
    hide Purged, Core, Locks, Tails, H.Next, H.Enabled, Kept, Nearing, StaysClosed, Clean, HX.Out, Engine.Settled;
    hide Engine.Duties, Dropped;
    var h, k := H.Next(e.hall, command), Next(e, Asks(o, command));
    TakesIdle(e.hall, e.ops[o].tail[0], command);
    AskEvictions(e, o, h);
    SettledHall(Moved(e, h).(serving := Some(o)));
    MoveKeeps(e, k, command);
    KeptClosed(e, k);
    SameIsKept(e, k);
    MoveStaysOut(e, command);
    PurgedLater(e, k);
  }

  lemma EvictionEnds(h: H.Hall, move: H.Step, s: SessionId)
    requires HC.JobOk(h) && H.Enabled(h, move) && Unasked(move) && KindOf(h.job) == Eviction(s)
    requires H.Next(h, move).job.Idle?
    ensures HX.Out(H.Next(h, move), s)
  {
    hide HC.JobOk, HX.Out, H.Hall.Withdrawn, R.TakeTurn, H.Hall.Answers, C.Client.Deliver;
    assert !move.Answers? by { if move.Answers? { HN.AnswerIsTurn(h, move.admit, move.callback); } }
    if move.Hear? { HearsOn(h); }
    if move.NextVisit? && h.job.todo != {} { VisitsOn(h, move.room); }
    HX.EvictionIsOver(h, move);
  }

  lemma HearsOn(h: H.Hall)
    requires HC.JobOk(h) && h.job.Heard? && h.job.next.Visiting?
    ensures !h.Hear().job.Idle?
  {
    hide H.Hall.Withdrawn;
    HC.WithdrawnGoesOn(h, h.job.s, h.job.room, h.job.next);
  }

  lemma VisitsOn(h: H.Hall, r: RoomId)
    requires h.job.Visiting? && h.job.todo != {}
    ensures !h.NextVisit(r).job.Idle?
  {
    hide H.Hall.Withdrawn;
    HC.WithdrawnGoesOn(h, h.job.s, r, h.job.(todo := h.job.todo - {r}));
  }

  lemma MoveEvictions(e: Engine, h: H.Hall)
    requires Locks(e) && Tails(e) && Serving(e)
    ensures var k := Moved(e, h).Settled();
            if h.job.Idle? && KindOf(e.hall.job).Eviction? && KindOf(e.hall.job).s in h.clients
            then k.purged == e.purged + {KindOf(e.hall.job).s}
                && (forall s :: Evict(s) in e.Duties() && s != KindOf(e.hall.job).s ==> Evict(s) in k.Duties())
                 && e.Duties() != [] && e.Duties()[0] == Evict(KindOf(e.hall.job).s)
            else (k.purged == e.purged
                  && forall s :: Evict(s) in e.Duties() ==>
                       Evict(s) in k.Duties() || (h.job.Idle? && KindOf(e.hall.job) == Eviction(s)))
  {
    hide Locks, Tails;
    var mid := Moved(e, h);
    if e.serving.Some? {
      var o := e.serving.value;
      DutiesOf(e, o);
      PoppedDuties(e, mid, o);
      assert Sends(e.ops[o].program, e.ops[o].tail[0]);
      assert e.ops[o].tail == [e.ops[o].tail[0]] + e.ops[o].tail[1..];
    }
  }

  lemma MovePurges(e: Engine, move: H.Step)
    requires Purged(e) && Core(e) && Locks(e) && Tails(e) && Serving(e) && Owing(e) && Enabled(e, HallMoves(move))
    ensures Purged(Next(e, HallMoves(move)))
  {
    hide Purged, Core, Locks, Tails, Serving, Owing, H.Next, H.Enabled, Kept, Nearing, StaysClosed, Clean, HX.Out;
    hide Engine.Settled, Engine.Duties, HC.JobOk, HC.Cast, HC.Copies, HR.Told, HN.Paced, HR.Known, HX.Inv;
    hide M.Queue.Inv, Dropped;
    var h, k := H.Next(e.hall, move), Next(e, HallMoves(move));
    MoveEvictions(e, h);
    SettledHall(Moved(e, h));
    MoveKeeps(e, k, move);
    KeptClosed(e, k);
    SameIsKept(e, k);
    MoveStaysOut(e, move);
    NobodyNew(e, move);
    var kind := KindOf(e.hall.job);
    if h.job.Idle? && kind.Eviction? {
      EvictionOwed(e, kind.s);
      CoreParts(e);
      HallKnows(e.hall);
      EvictionEnds(e.hall, move, kind.s);
      CleanAtLast(e, k, kind.s);
      PurgedMore(e, k, kind.s);
    } else {
      PurgedLater(e, k);
    }
  }

  lemma EvictionOwed(e: Engine, s: SessionId)
    requires Locks(e) && Tails(e) && Serving(e) && Owing(e) && KindOf(e.hall.job) == Eviction(s)
    ensures s in e.hall.clients && e.hall.clients[s].closed && s !in e.queue.Footprint()
  {
    hide Locks, Tails, M.Queue.Footprint;
    var o := e.serving.value;
    DutiesOf(e, o);
    assert e.ops[o].tail[0] == Evict(s) && Sends(e.ops[o].program, Evict(s));
    assert e.Duties()[0] == Evict(s);
  }

  lemma CleanAtLast(e: Engine, k: Engine, s: SessionId)
    requires s in e.hall.clients && e.hall.clients[s].closed && s !in e.queue.Footprint()
    requires StaysClosed(e, k) && k.queue == e.queue && HX.Out(k.hall, s)
    ensures Clean(k, s)
  {
  }

  lemma GrowPurges(e: Engine, k: Engine, s: SessionId, m: Msg)
    requires Purged(e) && Grows(e, k, s, m) && k.purged == e.purged && k.hall.ledger == e.hall.ledger
    requires k.hall.job == e.hall.job
    requires m.Tell? ==> (k.hall.clients[s].closed <==> e.hall.clients[s].closed)
    ensures Purged(k)
  {
    hide Purged, M.Queue.Footprint, Engine.Duties, Dropped, Kept, Nearing;
    SameIsKept(e, k);
    var more := [Unqueue(s), m];
    assert more[1] == m;
    assert m in e.Duties() + more by { assert (e.Duties() + more)[|e.Duties()| + 1] == m; }
    PurgedLater(e, k);
  }

  lemma DetachingClosesNobody(e: Engine, o: OpId, now: nat, s: SessionId, x: SessionId)
    requires Core(e) && o in e.ops && x in e.hall.clients
    ensures IsSuspending(e, o) ==> e.Commit(o, now).Of(x).closed == e.Of(x).closed
    ensures e.Scan(o, s).Of(x).closed == e.Of(x).closed
  {
    hide HX.Inv, M.Queue.Inv, S.Book.Suspend, S.Book.Scan, S.Book.Inv;
  }

  lemma SamePurges(e: Engine, k: Engine)
    requires Purged(e) && k.Duties() == e.Duties() && k.queue == e.queue && k.hall.clients == e.hall.clients
    requires k.purged == e.purged && k.hall.ledger == e.hall.ledger && k.hall.job == e.hall.job
    ensures Purged(k)
  {
    hide M.Queue.Footprint, Engine.Duties;
    assert forall s :: Clean(e, s) ==> Clean(k, s);
  }

  lemma ResumePurges(e: Engine, o: OpId, now: nat)
    requires Purged(e) && Core(e) && Locks(e) && Tails(e) && Enabled(e, Commits(o, now)) && IsResuming(e, o)
    ensures Purged(e.Commit(o, now))
  {
    hide Purged, Locks, Tails, HX.Inv, M.Queue.Inv, M.Queue.Footprint, S.Book.Resume, S.Book.Inv, Nearing, Dropped;
    hide Kept;
    var (p, k) := (e.ops[o].program, e.Commit(o, now));
    ReadyOwesNothing(e, o, now);
    GrowthIsApart(e, o, now, 0);
    if e.book.Resume(p.s, p.proof, p.identity, p.token, now, true).1.Ok? {
      ResumeLinks(e.book, p.s, p.proof, p.identity, p.token, now, e.hall.config.outboundCapacity);
      SameIsKept(e, k);
      PurgedLater(e, k);
    } else {
      SamePurges(e, k);
    }
  }

  lemma CommitPurges(e: Engine, o: OpId, now: nat)
    requires Purged(e) && Core(e) && Locks(e) && Tails(e) && Named(e) && Enabled(e, Commits(o, now))
    ensures Purged(e.Commit(o, now))
  {
    hide Purged, Core, Locks, Tails, Grows, Engine.Commit, Engine.Duties, M.Queue.Footprint;
    var k := e.Commit(o, now);
    GrowthIsApart(e, o, now, 0);
    match e.ops[o].program
    case Suspending(s, g) =>
      SuspendGrows(e, o, now);
      if Grows(e, k, s, Tell(s, false)) {
        DetachingClosesNobody(e, o, now, s, s);
        GrowPurges(e, k, s, Tell(s, false));
      } else {
        SamePurges(e, k);
      }
    case Resuming(s, proof, identity, token) => ResumePurges(e, o, now);
    case Disconnecting(s, _) => DisconnectGrows(e, o, now); GrowPurges(e, k, s, Evict(s));
    case Expiring => ExpireDuties(e, o, now); SamePurges(e, k);
    case Controlling(s, g, operation) => ControlDuties(e, o, now); SamePurges(e, k);
  }

  lemma ScanPurges(e: Engine, o: OpId, s: SessionId)
    requires Purged(e) && Core(e) && Locks(e) && Tails(e) && IsScanning(e, o) && s in e.book.sessions
    ensures Purged(e.Scan(o, s))
  {
    hide Purged, Core, Locks, Tails, Grows, Engine.Scan, Engine.Duties, M.Queue.Footprint;
    var k := e.Scan(o, s);
    GrowthIsApart(e, o, 0, s);
    ScanGrows(e, o, s);
    if Grows(e, k, s, Tell(s, false)) {
      DetachingClosesNobody(e, o, 0, s, s);
      GrowPurges(e, k, s, Tell(s, false));
    } else {
      SamePurges(e, k);
    }
  }

  lemma CullPurges(e: Engine, o: OpId, s: SessionId)
    requires Purged(e) && Core(e) && Locks(e) && Tails(e) && IsCulling(e, o) && s in e.hall.clients
    ensures Purged(e.Cull(o, s))
  {
    hide Purged, Core, Locks, Tails, Grows, Engine.Cull, Engine.Duties, M.Queue.Footprint;
    GrowthIsApart(e, o, 0, s);
    CullGrows(e, o, s);
    GrowPurges(e, e.Cull(o, s), s, Evict(s));
  }

  lemma StepPurges(e: Engine, step: Step)
    requires Purged(e) && Core(e) && Locks(e) && Tails(e) && Serving(e) && Enqueuing(e) && Owing(e) && Named(e)
    requires Enabled(e, step)
    ensures Purged(Next(e, step))
  {
    hide Purged, Core, Locks, Tails, Serving, Enqueuing, Owing, H.Next, H.Enabled, M.Next, M.Enabled;
    hide S.Book.Overdue, S.Book.Register, HX.Inv, M.Queue.Inv;
    hide Engine.Commit, Engine.Scan, Engine.Cull, Engine.Enqueue, Engine.Settled, Engine.Queued, Engine.Popped;
    match step
    case Commits(o, now) => CommitPurges(e, o, now);
    case Scans(o, s) => ScanPurges(e, o, s);
    case Culls(o, s) => CullPurges(e, o, s);
    case Unqueues(o) => UnqueuePurges(e, o);
    case Enqueues(o) => EnqueuePurges(e, o);
    case Asks(o, command) => AskPurges(e, o, command);
    case IsDenied(o) => DeniedPurges(e, o);
    case Registers(s, principal, client, proof) => RegisterPurges(e, step);
    case HallMoves(move) => MovePurges(e, move);
    case QueueMoves(turn) => CoreParts(e); TurnPurges(e, turn);
    case _ => LockPurges(e, step);
  }

  // ----- every run -------------------------------------------------------------------

  /** Once a disconnection has been committed, its session is closed. */
  ghost predicate Closing(e: Engine) {
    forall o :: o in e.ops && e.ops[o].program.Disconnecting? && e.ops[o].stage.Sending? ==>
        e.Of(e.ops[o].program.s).closed
  }

  lemma ClosedStays(e: Engine, step: Step)
    requires Core(e) && Locks(e) && Tails(e) && Named(e) && Enabled(e, step)
    ensures StaysClosed(e, Next(e, step))
  {
    hide Core, Locks, Tails, Named, Kept, StaysClosed, Grows, Engine.Commit, Engine.Scan, Engine.Cull;
    hide Engine.Enqueue, Engine.Settled, Engine.Queued, Engine.Popped;
    hide H.Next, H.Enabled, M.Next, M.Enabled, S.Book.Overdue, S.Book.Register;
    match step
    case Commits(o, now) => CommitClosed(e, o, now);
    case Scans(o, s) => PassClosed(e, o, s);
    case Culls(o, s) => PassClosed(e, o, s);
    case _ => StepKeepsClients(e, step); KeptClosed(e, Next(e, step));
  }

  lemma ChangesClosed(h: H.Hall, s: SessionId, change: C.Change, x: SessionId)
    requires x in h.clients && h.clients[x].closed && s in h.clients
    ensures h.Changes(s, change).clients[x].closed
  {
  }

  lemma CommitClosed(e: Engine, o: OpId, now: nat)
    requires o in e.ops
    ensures StaysClosed(e, e.Commit(o, now))
  {
    hide S.Book.Suspend, S.Book.Resume, S.Book.Remove, C.Change.Apply, Commands;
    var program := e.ops[o].program;
    var s := if program.Expiring? then 0 else program.s;
    forall x | x in e.hall.clients && e.hall.clients[x].closed
      ensures x in e.Commit(o, now).hall.clients && e.Commit(o, now).hall.clients[x].closed
    {
      if s in e.hall.clients {
        ChangesClosed(e.hall, s, C.Attaching(true), x);
        ChangesClosed(e.hall, s, C.Change.ClosingForGood, x);
        if program.Suspending? { ChangesClosed(e.hall, s, C.Suspending(program.generation), x); }
      }
    }
  }

  lemma PassClosed(e: Engine, o: OpId, s: SessionId)
    requires o in e.ops
    ensures StaysClosed(e, e.Scan(o, s))
    ensures StaysClosed(e, e.Cull(o, s))
  {
    hide S.Book.Scan, S.Book.Remove, C.Change.Apply;
    if s in e.hall.clients {
      forall x | x in e.hall.clients && e.hall.clients[x].closed
        ensures e.hall.Changes(s, C.Change.ClosingForGood).clients[x].closed
                && e.hall.Changes(s, C.Change.SuspendingClosed).clients[x].closed
      {
        ChangesClosed(e.hall, s, C.Change.ClosingForGood, x);
        ChangesClosed(e.hall, s, C.Change.SuspendingClosed, x);
      }
    }
  }

  /** No disconnection has begun to send. */
  predicate NoNewEvictions(e: Engine, k: Engine) {
    forall o :: o in k.ops && k.ops[o].program.Disconnecting? && k.ops[o].stage.Sending? ==>
      o in e.ops && e.ops[o].program == k.ops[o].program && e.ops[o].stage.Sending?
  }

  lemma ClosingLater(e: Engine, k: Engine)
    requires Closing(e) && StaysClosed(e, k) && e.hall.clients.Keys <= k.hall.clients.Keys && Named(e)
    requires NoNewEvictions(e, k)
    ensures Closing(k)
  {
  }

  lemma CommitCloses(e: Engine, o: OpId, now: nat)
    requires Closing(e) && Core(e) && Named(e) && IsDisconnecting(e, o)
    ensures Closing(e.Commit(o, now))
  {
    hide C.Change.Apply, S.Book.Remove, HX.Inv, M.Queue.Inv;
    var k := e.Commit(o, now);
    CommitClosed(e, o, now);
    RemovedClients(e, e.ops[o].program.s);
    forall p | p in k.ops && k.ops[p].program.Disconnecting? && k.ops[p].stage.Sending?
      ensures k.Of(k.ops[p].program.s).closed
    {
      if p != o { assert e.Of(e.ops[p].program.s).closed; }
    }
  }

  lemma StepKeepsClosing(e: Engine, step: Step)
    requires Closing(e) && Core(e) && Locks(e) && Tails(e) && Named(e) && Enabled(e, step)
    ensures Closing(Next(e, step))
  {
    hide Closing, Core, Locks, Tails, Named, StaysClosed, H.Next, H.Enabled, M.Next, M.Enabled, S.Book.Overdue;
    hide S.Book.Register;
    hide Engine.Commit, Engine.Scan, Engine.Cull, Engine.Enqueue, Engine.Settled, Engine.Queued, Engine.Popped;
    hide SameGenerations;
    var k := Next(e, step);
    ClosedStays(e, step);
    if step.Commits? && e.ops[step.o].program.Disconnecting? {
      CommitCloses(e, step.o, step.now);
    } else {
      NobodyForgotten(e, step);
      OpsProgress(e, step);
      ClosingLater(e, k);
    }
  }

  lemma NobodyForgotten(e: Engine, step: Step)
    requires Core(e) && Enabled(e, step)
    ensures e.hall.clients.Keys <= Next(e, step).hall.clients.Keys
  {
    hide Core, SameGenerations, Next, Enabled;
    if step.Commits? && step.o in e.ops && e.ops[step.o].program.Resuming? { ResumeForgets(e, step.o, step.now); }
    else { OtherForgets(e, step); }
  }

  lemma OtherForgets(e: Engine, step: Step)
    requires Enabled(e, step)
    ensures (step.Commits? ==> !IsResuming(e, step.o)) ==> e.hall.clients.Keys <= Next(e, step).hall.clients.Keys
  {
    hide SameGenerations, Next, H.Enabled, M.Enabled;
    if step.Commits? ==> !IsResuming(e, step.o) {
      StepGenerations(e, step);
      GenerationsKeepKeys(e.hall, Next(e, step).hall);
    }
  }

  lemma ResumeForgets(e: Engine, o: OpId, now: nat)
    requires Enabled(e, Commits(o, now)) && IsResuming(e, o)
    ensures e.hall.clients.Keys <= Next(e, Commits(o, now)).hall.clients.Keys
  {
    hide S.Book.Resume, C.Change.Apply;
  }

  lemma OpsProgress(e: Engine, step: Step)
    requires Tails(e) && Enabled(e, step) && (step.Commits? ==> !IsDisconnecting(e, step.o))
    ensures NoNewEvictions(e, Next(e, step))
  {
    hide Tails, H.Next, H.Enabled, M.Next, M.Enabled, S.Book.Overdue, S.Book.Register;
    hide Engine.Commit, Engine.Scan, Engine.Cull, Engine.Enqueue, Engine.Settled, Engine.Queued, Engine.Popped;
    match step
    case Commits(o, now) => CommitProgress(e, o, now);
    case Scans(o, s) => PassProgress(e, o, s);
    case Culls(o, s) => PassProgress(e, o, s);
    case CullsNoMore(o) => PassProgress(e, o, 0);
    case _ => if Forwards(step) { StepShrinks(e, step); }
  }

  /** The operation has gone on, and no other has. */
  predicate Proceeds(e: Engine, k: Engine, o: OpId) {
    o in e.ops && o in k.ops && k.ops == e.ops[o := k.ops[o]] && k.ops[o].program == e.ops[o].program
  }

  lemma CommitProgress(e: Engine, o: OpId, now: nat)
    requires o in e.ops
    ensures Proceeds(e, e.Commit(o, now), o)
  {
    hide S.Book.Suspend, S.Book.Resume, S.Book.Remove, C.Change.Apply, Commands;
  }

  lemma PassProgress(e: Engine, o: OpId, s: SessionId)
    requires Tails(e) && o in e.ops
    ensures IsScanning(e, o) ==> Proceeds(e, e.Scan(o, s), o) && IsScanning(e.Scan(o, s), o)
    ensures IsCulling(e, o) ==> Proceeds(e, e.Cull(o, s), o) && IsCulling(e.Cull(o, s), o)
    ensures IsScanning(e, o) || IsCulling(e, o) ==> IsExpiring(e, o)
  {
    hide S.Book.Scan, S.Book.Remove, C.Change.Apply;
    assert TailOk(e.ops[o]);
  }
}
