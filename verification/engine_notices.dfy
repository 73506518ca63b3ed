/** When rooms are told that a connection was lost or is back. */
module EngineNotices {
  import opened Types
  import opened EngineSystem
  import opened EngineLocks
  import opened EngineCore
  import opened EngineDuties
  import C = Clients
  import R = Rooms
  import H = RoomSystem
  import HC = RoomCopies
  import HR = RoomRoutes
  import HN = RoomNotices
  import HX = RoomRuns
  import M = Matchmakers
  import S = SessionManagers

  // ----- which rooms may believe that a connection is lost ----------------------------

  /** A notice of return is still owed, or the connection is lost and the notice of that has at
      least been taken up. */
  ghost predicate MayDoubt(e: Engine, s: SessionId) {
    Tell(s, true) in e.Duties() || (Lost(e, s) && Tell(s, false) !in e.Untaken())
  }

  /** Of everybody else no room believes any such thing. */
  ghost predicate Calms(e: Engine) {
    forall s :: s in e.hall.clients ==> MayDoubt(e, s) || HN.Calm(e.hall, s)
  }

  ghost predicate CalmOn(e: Engine, k: Engine, s: SessionId) {
    && (HN.Calm(e.hall, s) ==> HN.Calm(k.hall, s) || MayDoubt(k, s))
    && (MayDoubt(e, s) ==> MayDoubt(k, s) || HN.Calm(k.hall, s))
  }

  lemma CalmsLater(e: Engine, k: Engine)
    requires Calms(e) && forall s :: s in k.hall.clients ==>
            (s in e.hall.clients && CalmOn(e, k, s)) || HN.Calm(k.hall, s)
    ensures Calms(k)
  {
    hide HN.Calm, MayDoubt;
    forall s | s in k.hall.clients ensures MayDoubt(k, s) || HN.Calm(k.hall, s) {
    }
  }

  lemma UntakenInDuties(e: Engine)
    ensures forall m :: m in e.Untaken() ==> m in e.Duties()
    ensures e.serving.None? ==> e.Untaken() == e.Duties()
  {
  }

  /** Nobody's beliefs and nobody's connection change; of the duties at most a command to the
      matchmaker is dropped. */
  lemma CalmsQuiet(e: Engine, k: Engine)
    requires Calms(e) && k.hall == e.hall
    requires forall s :: Tell(s, true) in e.Duties() ==> Tell(s, true) in k.Duties()
    requires forall s :: Tell(s, false) in k.Untaken() ==> Tell(s, false) in e.Untaken()
    ensures Calms(k)
  {
    hide HN.Calm;
    CalmsLater(e, k);
  }

  lemma DropDuties(e: Engine, k: Engine, o: OpId)
    requires Locks(e) && Tails(e) && Heading(e, o) && k.ops == e.ops && k.life == e.life && k.serving == e.serving
    requires e.ops[o].program.Controlling? || e.ops[o].tail[0].Unqueue? || e.ops[o].tail[0].Enqueue?
    ensures forall s :: Tell(s, true) in e.Duties() ==> Tell(s, true) in k.Popped(o).Duties()
    ensures forall s :: Tell(s, false) in k.Popped(o).Untaken() ==> Tell(s, false) in e.Untaken()
  {
    hide Locks, Tails;
    DutiesOf(e, o);
    if e.life == Some(o) {
      assert e.Duties() == e.ops[o].tail && e.Untaken() == e.ops[o].tail;
      assert k.Popped(o).Duties() == e.ops[o].tail[1..];
      assert e.ops[o].tail == [e.ops[o].tail[0]] + e.ops[o].tail[1..];
    } else {
      PoppedDuties(e, k, o);
    }
  }

  lemma SameUntaken(e: Engine, k: Engine)
    requires k.Duties() == e.Duties() && (e.Duties() == [] || (k.serving == e.serving && k.life == e.life))
    ensures k.Untaken() == e.Untaken()
  {
  }

  lemma LockCalms(e: Engine, step: Step)
    requires Calms(e) && Locks(e) && Tails(e) && Enabled(e, step)
    requires step.Starts? || step.LocksGate? || step.LocksLife? || step.ScansNoMore? || step.CullsNoMore?
            || step.Finishes? || step.GivesUp?
    ensures Calms(Next(e, step))
  {
    hide Calms, S.Book.Overdue;
    LockDuties(e, step);
    if step.o in e.ops { assert TailOk(e.ops[step.o]); }
    SameUntaken(e, Next(e, step));
    CalmsQuiet(e, Next(e, step));
  }

  lemma UnqueueCalms(e: Engine, o: OpId)
    requires Calms(e) && Locks(e) && Tails(e) && Enabled(e, Unqueues(o))
    ensures Calms(Next(e, Unqueues(o)))
  {
    hide Calms, Locks, Tails, M.Queue.TakeLeave;
    DropDuties(e, e.(queue := e.queue.TakeLeave(e.ops[o].tail[0].s)), o);
    CalmsQuiet(e, Next(e, Unqueues(o)));
  }

  lemma DeniedCalms(e: Engine, o: OpId)
    requires Calms(e) && Locks(e) && Tails(e) && Enabled(e, IsDenied(o))
    ensures Calms(Next(e, IsDenied(o)))
  {
    hide Calms, Locks, Tails;
    DeniedDuties(e, o);
    CalmsQuiet(e, Next(e, IsDenied(o)));
  }

  lemma EnqueueCalms(e: Engine, o: OpId)
    requires Calms(e) && Locks(e) && Tails(e) && Enabled(e, Enqueues(o))
    ensures Calms(e.Enqueue(o))
  {
    hide Calms, Locks, Tails, M.Queue.TakeJoin;
    DropDuties(e, e.(queue := e.queue.TakeJoin(e.ops[o].tail[0].s, e.Of(e.ops[o].tail[0].s).IsClosed())), o);
    CalmsQuiet(e, e.Enqueue(o));
  }

  lemma TurnCalms(e: Engine, turn: M.Step)
    requires Calms(e) && Locks(e) && Tails(e) && Enqueuing(e) && M.Enabled(e.queue, turn)
    ensures Calms(e.Queued(turn))
  {
    hide Calms, Locks, Tails, M.Next;
    QueuedDrops(e, turn);
    SameUntaken(e, e.Queued(turn));
    CalmsQuiet(e, e.Queued(turn));
  }

  lemma ArrivalCalm(h: H.Hall, s: SessionId, client: C.Client)
    requires HR.Known(h) && H.Enabled(h, H.Arrives(s, client))
    ensures HN.Calm(H.Next(h, H.Arrives(s, client)), s)
  {
  }

  lemma RegisterCalms(e: Engine, step: Step)
    requires Calms(e) && Core(e) && Enabled(e, step) && step.Registers?
    ensures Calms(Next(e, step))
  {
    hide Calms, S.Book.Register, HX.Inv, S.Book.Inv, M.Queue.Inv, HN.Calm, HC.Cast, HR.Known, HC.JobOk, HC.Copies;
    hide HR.Told, HN.Paced;
    var k := Next(e, step);
    if k.hall != e.hall {
      HallKnows(e.hall);
      ArrivalCalm(e.hall, step.s, step.client);
      forall x | x in e.hall.clients ensures CalmOn(e, k, x) {
        if HN.Calm(e.hall, x) { HN.StepKeepsCalm(e.hall, H.Arrives(step.s, step.client), x); }
      }
      CalmsLater(e, k);
    } else {
      CalmsQuiet(e, k);
    }
  }

  function Moved(e: Engine, h: H.Hall): Engine { e.(hall := h, book := e.book.(clients := h.clients)) }

  lemma TakesIdle(h: H.Hall, m: Msg, command: H.Step)
    requires Takes(m, command) && H.Enabled(h, command)
    ensures m.Tell? || m.Evict? ==> !H.Next(h, command).job.Idle?
    ensures !command.Answers? && !command.Arrives? && !command.Changes?
  {
  }

  lemma AskDuties(e: Engine, o: OpId, h: H.Hall)
    requires Locks(e) && Tails(e) && Heading(e, o) && e.serving.None?
    requires h.job.Idle? ==> !e.ops[o].tail[0].Tell?
    ensures var k := Moved(e, h).(serving := Some(o)).Settled();
            && (forall s :: Tell(s, true) in e.Duties() ==> Tell(s, true) in k.Duties())
            && (forall s :: Tell(s, false) in k.Untaken() ==> Tell(s, false) in e.Untaken())
  {
    hide Locks, Tails;
    var mid := Moved(e, h).(serving := Some(o));
    DutiesOf(e, o);
    PoppedDuties(e, mid, o);
    if h.job.Idle? {
      assert mid.Settled() == mid.Popped(o).(serving := None);
      assert mid.Settled().Duties() == mid.Popped(o).Duties();
      assert e.ops[o].tail == [e.ops[o].tail[0]] + e.ops[o].tail[1..];
    } else {
      UntakenInDuties(mid);
      assert mid.Duties() == e.Duties();
    }
    UntakenInDuties(mid.Settled());
  }

  lemma AskCalms(e: Engine, o: OpId, command: H.Step)
    requires Calms(e) && Core(e) && Locks(e) && Tails(e) && Enabled(e, Asks(o, command))
    ensures Calms(Next(e, Asks(o, command)))
  {
    hide Calms, Core, Locks, Tails, H.Next, H.Enabled, HN.Calm, HC.Cast, HC.JobOk, HC.Copies, HR.Told, HN.Paced;
    hide HR.Known, Engine.Settled, Engine.Duties, Engine.Untaken, HX.Inv, M.Queue.Inv;
    var h, k := H.Next(e.hall, command), Next(e, Asks(o, command));
    TakesIdle(e.hall, e.ops[o].tail[0], command);
    AskDuties(e, o, h);
    MoveKeeps(e, Moved(e, h), command);
    SettledHall(Moved(e, h).(serving := Some(o)));
    CoreParts(e);
    HallKnows(e.hall);
    forall x | x in e.hall.clients ensures CalmOn(e, k, x) {
      if HN.Calm(e.hall, x) { HN.StepKeepsCalm(e.hall, command, x); }
    }
    NobodyNew(e, command);
    CalmsLater(e, k);
  }

  lemma NobodyNew(e: Engine, move: H.Step)
    requires Core(e) && H.Enabled(e.hall, move) && !move.Arrives?
    ensures H.Next(e.hall, move).clients.Keys == e.hall.clients.Keys
  {
    hide HX.Inv, H.Next, H.Enabled, S.Book.Inv, M.Queue.Inv;
    HallKnows(e.hall);
    HX.NobodyElseArrives(e.hall, move);
  }

  /** A notice of return is over only when every room has had it. */
  lemma ReturnIsOver(h: H.Hall, move: H.Step, s: SessionId)
    requires HC.Cast(h) && HC.JobOk(h) && HN.Paced(h) && H.Enabled(h, move) && Unasked(move)
    requires KindOf(h.job) == Notice(s, true) && H.Next(h, move).job.Idle?
    ensures HN.Calm(H.Next(h, move), s)
  {
    hide HC.Cast, HN.Paced, HN.Calm, H.Hall.Withdrawn, R.TakeTurn, H.Hall.Answers, C.Client.Deliver;
    assert !move.Answers? by { if move.Answers? { HN.AnswerIsTurn(h, move.admit, move.callback); } }
    assert move.NextVisit? && h.job.todo == {};
    HN.ReturnIsTold(h);
    HN.StepKeepsCalm(h, move, s);
  }

  lemma MoveDuties(e: Engine, h: H.Hall)
    requires Locks(e) && Tails(e) && Serving(e)
    ensures var k := Moved(e, h).Settled();
            && (forall s :: Tell(s, true) in e.Duties() ==>
                 Tell(s, true) in k.Duties() || (h.job.Idle? && KindOf(e.hall.job) == Notice(s, true)))
            && (forall s :: Tell(s, false) in k.Untaken() ==> Tell(s, false) in e.Untaken())
  {
    hide Locks, Tails;
    var mid := Moved(e, h);
    if e.serving.Some? {
      var o := e.serving.value;
      DutiesOf(e, o);
      PoppedDuties(e, mid, o);
      assert e.ops[o].tail == [e.ops[o].tail[0]] + e.ops[o].tail[1..];
    }
    UntakenInDuties(mid.Settled());
  }

  /** A room that hears of a loss is told so by the holder of the lifecycle lock, of a session
      without a connection, and for the first time. */
  lemma LossIsTaken(e: Engine, h: H.Hall, s: SessionId)
    requires Locks(e) && Tails(e) && Serving(e) && Owing(e) && KindOf(e.hall.job) == Notice(s, false)
    ensures Lost(e, s) && Tell(s, false) !in e.Untaken()
    ensures !h.job.Idle? ==> Moved(e, h).Settled() == Moved(e, h) && Moved(e, h).Untaken() == e.Untaken()
  {
    hide Locks, Tails;
    var o := e.serving.value;
    DutiesOf(e, o);
    assert e.ops[o].tail[0] == Tell(s, false);
    assert Sends(e.ops[o].program, Tell(s, false));
    assert e.Duties()[0] == Tell(s, false);
    assert e.Untaken() == e.Duties()[1..];
  }

  lemma MoveCalmOn(e: Engine, move: H.Step, x: SessionId)
    requires Core(e) && Locks(e) && Tails(e) && Serving(e) && Owing(e) && Enabled(e, HallMoves(move))
    requires x in e.hall.clients
    ensures CalmOn(e, Next(e, HallMoves(move)), x)
  {
    hide Core, Locks, Tails, Serving, Owing, H.Next, H.Enabled, HN.Calm, HC.Cast, HC.JobOk, HC.Copies, HR.Told;
    hide HN.Paced, HR.Known, Engine.Settled, Engine.Duties, Engine.Untaken, HX.Inv, M.Queue.Inv;
    var h, k := H.Next(e.hall, move), Next(e, HallMoves(move));
    CoreParts(e);
    HallKnows(e.hall);
    MoveDuties(e, h);
    MoveKeeps(e, Moved(e, h), move);
    SettledHall(Moved(e, h));
    if HN.Calm(e.hall, x) {
      if move.Answers? && e.hall.job.Waiting? && e.hall.job.errand == H.Tell(false) && e.hall.job.s == x {
        AnswersLater(e.hall, move);
        LossIsTaken(e, h, x);
      } else {
        AnswersWait(e.hall, move);
        HN.StepKeepsCalm(e.hall, move, x);
      }
    }
    if KindOf(e.hall.job) == Notice(x, true) && h.job.Idle? { ReturnIsOver(e.hall, move, x); }
  }

  lemma AnswersWait(h: H.Hall, move: H.Step)
    requires H.Enabled(h, move)
    ensures move.Answers? ==> h.job.Waiting?
  {
  }

  lemma AnswersLater(h: H.Hall, move: H.Step)
    requires HC.JobOk(h) && H.Enabled(h, move) && move.Answers? && h.job.Waiting? && h.job.errand == H.Tell(false)
    ensures !H.Next(h, move).job.Idle? && KindOf(h.job) == Notice(h.job.s, false)
  {
    hide H.Hall.Answers;
    HN.AnswerIsTurn(h, move.admit, move.callback);
  }

  lemma MoveCalms(e: Engine, move: H.Step)
    requires Calms(e) && Core(e) && Locks(e) && Tails(e) && Serving(e) && Owing(e) && Enabled(e, HallMoves(move))
    ensures Calms(Next(e, HallMoves(move)))
  {
    hide Calms, Core, Locks, Tails, Serving, Owing, H.Next, H.Enabled, CalmOn;
    var h, k := H.Next(e.hall, move), Next(e, HallMoves(move));
    SettledHall(Moved(e, h));
    NobodyNew(e, move);
    forall x | x in e.hall.clients ensures CalmOn(e, k, x) { MoveCalmOn(e, move, x); }
    CalmsLater(e, k);
  }

  lemma GrowCalms(e: Engine, k: Engine, s: SessionId, m: Msg)
    requires Calms(e) && Grows(e, k, s, m) && e.Untaken() == e.Duties() && k.Untaken() == k.Duties()
    requires m.Tell? ==> Tell(s, true) !in e.Duties()
    requires forall x :: HN.Calm(e.hall, x) ==> HN.Calm(k.hall, x)
    ensures Calms(k)
  {
    hide HN.Calm, Engine.Duties, Engine.Untaken;
    forall x | x in e.hall.clients ensures (x in e.hall.clients && CalmOn(e, k, x)) || HN.Calm(k.hall, x) {
      assert MayDoubt(e, x) || HN.Calm(e.hall, x);
      if MayDoubt(e, x) && x != s { assert MayDoubt(k, x); }
    }
    CalmsLater(e, k);
  }

  /** The holder of the lifecycle lock is not waiting for anybody before it starts sending. */
  lemma NotServedYet(e: Engine, k: Engine, o: OpId)
    requires Serving(e) && o in e.ops && !e.ops[o].stage.Sending? && e.life == Some(o) && k.life == e.life
    requires k.serving == e.serving
    ensures e.Untaken() == e.Duties() && k.Untaken() == k.Duties()
  {
  }

  lemma RoomsStayCalm(e: Engine, h: H.Hall)
    requires h.rooms == e.hall.rooms
    ensures forall x :: HN.Calm(e.hall, x) ==> HN.Calm(h, x)
  {
    forall x | HN.Calm(e.hall, x) ensures HN.Calm(h, x) {
      forall r ensures HN.CalmIn(h, x, r) { assert HN.CalmIn(e.hall, x, r); }
    }
  }

  lemma SameCalms(e: Engine, k: Engine)
    requires Calms(e) && k.Duties() == e.Duties() && k.Untaken() == e.Untaken() && k.hall.clients == e.hall.clients
    requires forall x :: HN.Calm(e.hall, x) ==> HN.Calm(k.hall, x)
    ensures Calms(k)
  {
    hide HN.Calm, Engine.Duties, Engine.Untaken;
    CalmsLater(e, k);
  }

  lemma ResumeCalms(e: Engine, o: OpId, now: nat)
    requires Calms(e) && Core(e) && Locks(e) && Tails(e) && Serving(e) && Enabled(e, Commits(o, now))
    requires IsResuming(e, o)
    ensures Calms(e.Commit(o, now))
  {
    hide Calms, Locks, Tails, Serving, HX.Inv, M.Queue.Inv, S.Book.Resume, HN.Calm, C.Client.Attach;
    var (p, k) := (e.ops[o].program, e.Commit(o, now));
    ReadyOwesNothing(e, o, now);
    NotServedYet(e, k, o);
    GrowthIsApart(e, o, now, 0);
    RoomsStayCalm(e, k.hall);
    if e.book.Resume(p.s, p.proof, p.identity, p.token, now, true).1.Ok? {
      assert Tell(p.s, true) in k.Duties();
      forall x | x in k.hall.clients ensures x in e.hall.clients && CalmOn(e, k, x) {
        ResumeLinks(e.book, p.s, p.proof, p.identity, p.token, now, e.hall.config.outboundCapacity);
      }
      CalmsLater(e, k);
    } else {
      SameCalms(e, k);
    }
  }

  lemma CommitCalms(e: Engine, o: OpId, now: nat)
    requires Calms(e) && Core(e) && Locks(e) && Tails(e) && Serving(e) && Named(e) && Enabled(e, Commits(o, now))
    ensures Calms(e.Commit(o, now))
  {
    hide Calms, Core, Locks, Tails, Serving, HN.Calm, Grows, Engine.Commit, Engine.Duties, Engine.Untaken;
    var k := e.Commit(o, now);
    GrowthIsApart(e, o, now, 0);
    RoomsStayCalm(e, k.hall);
    if e.ops[o].program.Vital() { ReadyOwesNothing(e, o, now); NotServedYet(e, k, o); }
    match e.ops[o].program
    case Suspending(s, g) =>
      SuspendGrows(e, o, now);
      if Grows(e, k, s, Tell(s, false)) { GrowCalms(e, k, s, Tell(s, false)); } else { SameCalms(e, k); }
    case Resuming(s, proof, identity, token) => ResumeCalms(e, o, now);
    case Disconnecting(s, _) => DisconnectGrows(e, o, now); GrowCalms(e, k, s, Evict(s));
    case Expiring => ExpireDuties(e, o, now); SameCalms(e, k);
    case Controlling(s, g, operation) => ControlDuties(e, o, now); SameCalms(e, k);
  }

  lemma ExpireDuties(e: Engine, o: OpId, now: nat)
    requires Locks(e) && Tails(e) && Enabled(e, Commits(o, now)) && IsExpiring(e, o)
    ensures e.Commit(o, now).Duties() == e.Duties() && e.Commit(o, now).hall == e.hall
  {
    ReadyOwesNothing(e, o, now);
  }

  lemma ControlDuties(e: Engine, o: OpId, now: nat)
    requires Locks(e) && Tails(e) && Enabled(e, Commits(o, now)) && e.ops[o].program.Controlling?
    ensures e.Commit(o, now).Duties() == e.Duties() && e.Commit(o, now).Untaken() == e.Untaken()
    ensures e.Commit(o, now).hall == e.hall
  {
    hide Commands;
  }

  lemma ScanCalms(e: Engine, o: OpId, s: SessionId)
    requires Calms(e) && Core(e) && Locks(e) && Tails(e) && Serving(e) && IsScanning(e, o) && s in e.book.sessions
    ensures Calms(e.Scan(o, s))
  {
    hide Calms, Core, Locks, Tails, Serving, HN.Calm, Grows, Engine.Duties, Engine.Untaken, S.Book.Scan, H.Hall.Changes;
    var k := e.Scan(o, s);
    GrowthIsApart(e, o, 0, s);
    RoomsStayCalm(e, k.hall);
    PassingHoldsLife(e, o);
    DutiesOf(e, o);
    NotServedYet(e, k, o);
    ScanGrows(e, o, s);
    if Grows(e, k, s, Tell(s, false)) { GrowCalms(e, k, s, Tell(s, false)); } else { SameCalms(e, k); }
  }

  lemma CullCalms(e: Engine, o: OpId, s: SessionId)
    requires Calms(e) && Core(e) && Locks(e) && Tails(e) && Serving(e) && IsCulling(e, o) && s in e.hall.clients
    ensures Calms(e.Cull(o, s))
  {
    hide Calms, Core, Locks, Tails, Serving, HN.Calm, Grows, Engine.Duties, Engine.Untaken, S.Book.Remove;
    hide H.Hall.Changes;
    var k := e.Cull(o, s);
    GrowthIsApart(e, o, 0, s);
    RoomsStayCalm(e, k.hall);
    PassingHoldsLife(e, o);
    NotServedYet(e, k, o);
    CullGrows(e, o, s);
    GrowCalms(e, k, s, Evict(s));
  }

  lemma StepKeepsCalms(e: Engine, step: Step)
    requires Calms(e) && Core(e) && Locks(e) && Tails(e) && Serving(e) && Enqueuing(e) && Owing(e) && Named(e)
    requires Enabled(e, step)
    ensures Calms(Next(e, step))
  {
    hide Calms, Core, Locks, Tails, Serving, Enqueuing, Owing, H.Next, H.Enabled, M.Next, M.Enabled, S.Book.Overdue;
    hide S.Book.Register;
    hide Engine.Commit, Engine.Scan, Engine.Cull, Engine.Enqueue, Engine.Settled, Engine.Queued, Engine.Popped;
    match step
    case Commits(o, now) => CommitCalms(e, o, now);
    case Scans(o, s) => ScanCalms(e, o, s);
    case Culls(o, s) => CullCalms(e, o, s);
    case Unqueues(o) => UnqueueCalms(e, o);
    case Enqueues(o) => EnqueueCalms(e, o);
    case Asks(o, command) => AskCalms(e, o, command);
    case IsDenied(o) => DeniedCalms(e, o);
    case Registers(s, principal, client, proof) => RegisterCalms(e, step);
    case HallMoves(move) => MoveCalms(e, move);
    case QueueMoves(turn) => TurnCalms(e, turn);
    case _ => LockCalms(e, step);
  }

  /** So a loss is only ever reported when no room believes in one yet. */
  lemma AsksInOrder(e: Engine, o: OpId, command: H.Step)
    requires Calms(e) && Locks(e) && Tails(e) && Owing(e) && Enabled(e, Asks(o, command))
    ensures HX.Orderly(e.hall, command)
  {
    hide Locks, Tails, HN.Calm;
    DutiesOf(e, o);
    UntakenInDuties(e);
    if command.TakeConnection? && !command.up {
      var s := command.s;
      assert e.ops[o].tail[0] == Tell(s, false) && Sends(e.ops[o].program, Tell(s, false));
      assert Tell(s, false) in e.Duties();
      assert Tell(s, true) in e.Duties() ==> Sends(e.ops[o].program, Tell(s, true));
      assert !MayDoubt(e, s);
    }
  }
}
