/** The session manager's tables agree with the clients that the rooms share. */
module EngineCore {
  import opened Types
  import opened EngineSystem
  import opened EngineLocks
  import C = Clients
  import H = RoomSystem
  import HC = RoomCopies
  import HR = RoomRoutes
  import HN = RoomNotices
  import HX = RoomRuns
  import M = Matchmakers
  import S = SessionManagers

  // ----- the parts and the clients they share ----------------------------------------

  ghost predicate Core(e: Engine) {
    e.book.clients == e.hall.clients && e.book.Inv() && e.queue.Inv() && HX.Inv(e.hall)
  }

  lemma CoreParts(e: Engine)
    requires Core(e)
    ensures HX.Inv(e.hall) && HC.JobOk(e.hall) && e.queue.Inv()
  {
  }

  lemma BookFollows(b: S.Book, clients: map<SessionId, C.Client>)
    requires b.Inv() && clients.Keys == b.clients.Keys
    requires forall s :: s in clients ==>
            clients[s].generation == b.clients[s].generation && clients[s].closed == b.clients[s].closed
                                          && clients[s].transport.Some? == b.clients[s].transport.Some?
    ensures b.(clients := clients).Inv()
  {
  }

  lemma HallChange(h: H.Hall, s: SessionId, change: C.Change)
    requires HX.Inv(h) && s in h.clients && !change.Delivering?
    ensures HX.Inv(h.Changes(s, change))
  {
    hide HX.Inv, C.Change.Apply;
    HX.StepKeepsInv(h, H.Changes(s, change));
  }

  lemma SuspendLinks(b: S.Book, s: SessionId, g: nat, now: nat, outbound: nat)
    requires b.Inv() && s in b.clients
    ensures b.Suspend(s, g, now).0.clients == b.clients[s := C.Suspending(g).Apply(outbound, b.clients[s])]
  {
    if !b.Suspend(s, g, now).1 { PutSame(b.clients, s); }
  }

  lemma ScanLinks(b: S.Book, s: SessionId, now: nat, outbound: nat)
    requires s in b.clients && b.Scan(s, now).1
    ensures b.Scan(s, now).0.clients == b.clients[s := C.Change.SuspendingClosed.Apply(outbound, b.clients[s])]
  {
  }

  lemma ScanKeeps(b: S.Book, s: SessionId, now: nat)
    requires b.Inv() && s in b.sessions
    ensures b.Scan(s, now).0.Inv()
  {
    if b.Scan(s, now).1 { S.ParkedKeeps(b, s, b.Of(s).SuspendClosed().0, now + b.grace); }
  }

  lemma ResumeLinks(b: S.Book, s: SessionId, proof: Token, identity: Option<Principal>, token: Token, now: nat,
                    outbound: nat)
    requires b.Inv() && b.Resume(s, proof, identity, token, now, true).1.Ok?
    ensures s in b.clients
    ensures b.Resume(s, proof, identity, token, now, true).0.clients
            == b.clients[s := C.Attaching(true).Apply(outbound, b.clients[s])]
  {
  }

  lemma RemoveLinks(b: S.Book, s: SessionId, outbound: nat)
    requires b.Inv()
    ensures s in b.sessions ==>
              && s in b.clients
              && b.Remove(s).clients == b.clients[s := C.Change.ClosingForGood.Apply(outbound, b.clients[s])]
    ensures s !in b.sessions ==> b.Remove(s).clients == b.clients
  {
  }

  lemma ChangedCore(e: Engine, b: S.Book, s: SessionId, change: C.Change)
    requires Core(e) && b.Inv() && s in e.hall.clients && !change.Delivering?
    requires b.clients == e.hall.clients[s := change.Apply(e.hall.config.outboundCapacity, e.hall.clients[s])]
    ensures Core(e.Changed(b, s, change))
  {
    hide HX.Inv, S.Book.Inv, M.Queue.Inv, C.Change.Apply;
    HallChange(e.hall, s, change);
  }

  lemma OpsCore(e: Engine, k: Engine)
    requires Core(e) && k.hall == e.hall && k.book == e.book && k.queue == e.queue
    ensures Core(k)
  {
  }

  lemma SuspendCore(e: Engine, o: OpId, now: nat)
    requires Core(e) && IsSuspending(e, o)
    ensures Core(e.Commit(o, now))
  {
    hide HX.Inv, S.Book.Inv, M.Queue.Inv, S.Book.Suspend, C.Change.Apply;
    var (s, g) := (e.ops[o].program.s, e.ops[o].program.generation);
    S.SuspendKeeps(e.book, s, g, now);
    if s in e.hall.clients {
      SuspendLinks(e.book, s, g, now, e.hall.config.outboundCapacity);
      ChangedCore(e, e.book.Suspend(s, g, now).0, s, C.Suspending(g));
    } else {
      UnknownSuspend(e.book, s, g, now);
    }
  }

  lemma UnknownSuspend(b: S.Book, s: SessionId, g: nat, now: nat)
    requires b.Inv() && s !in b.clients
    ensures b.Suspend(s, g, now) == (b, false)
  {
  }

  lemma ResumeCore(e: Engine, o: OpId, now: nat)
    requires Core(e) && IsResuming(e, o)
    ensures Core(e.Commit(o, now))
  {
    hide HX.Inv, S.Book.Inv, M.Queue.Inv, S.Book.Resume, C.Change.Apply;
    var p := e.ops[o].program;
    S.ResumeKeeps(e.book, p.s, p.proof, p.identity, p.token, now, true);
    if e.book.Resume(p.s, p.proof, p.identity, p.token, now, true).1.Ok? {
      ResumeLinks(e.book, p.s, p.proof, p.identity, p.token, now, e.hall.config.outboundCapacity);
      ChangedCore(e, e.book.Resume(p.s, p.proof, p.identity, p.token, now, true).0, p.s, C.Attaching(true));
    }
  }

  lemma RemoveCore(e: Engine, s: SessionId)
    requires Core(e)
    ensures Core(if s in e.book.sessions then e.Changed(e.book.Remove(s), s, C.Change.ClosingForGood)
            else e.(book := e.book.Remove(s)))
  {
    hide HX.Inv, S.Book.Inv, M.Queue.Inv, S.Book.Remove, C.Change.Apply;
    S.RemoveKeeps(e.book, s);
    RemoveLinks(e.book, s, e.hall.config.outboundCapacity);
    if s in e.book.sessions { ChangedCore(e, e.book.Remove(s), s, C.Change.ClosingForGood); }
  }

  lemma ScanCore(e: Engine, o: OpId, s: SessionId)
    requires Core(e) && IsScanning(e, o) && s in e.book.sessions
    ensures Core(e.Scan(o, s))
  {
    hide HX.Inv, S.Book.Inv, M.Queue.Inv, S.Book.Scan, C.Change.Apply;
    ScanKeeps(e.book, s, e.ops[o].stage.now);
    S.KnownWell(e.book);
    if e.book.Scan(s, e.ops[o].stage.now).1 {
      ScanLinks(e.book, s, e.ops[o].stage.now, e.hall.config.outboundCapacity);
      ChangedCore(e, e.book.Scan(s, e.ops[o].stage.now).0, s, C.Change.SuspendingClosed);
    }
  }

  lemma CommitCore(e: Engine, o: OpId, now: nat)
    requires Core(e) && o in e.ops
    ensures Core(e.Commit(o, now))
  {
    hide Core, S.Book.Suspend, S.Book.Resume, S.Book.Remove, H.Hall.Changes;
    match e.ops[o].program
    case Suspending(s, g) => SuspendCore(e, o, now);
    case Resuming(s, proof, identity, token) => ResumeCore(e, o, now);
    case Disconnecting(s, _) =>
      RemoveCore(e, s);
      OpsCore(if s in e.book.sessions then e.Changed(e.book.Remove(s), s, C.Change.ClosingForGood)
          else e.(book := e.book.Remove(s)), e.Commit(o, now));
    case Expiring => OpsCore(e, e.Commit(o, now));
    case Controlling(s, g, operation) => OpsCore(e, e.Commit(o, now));
  }

  lemma CullCore(e: Engine, o: OpId, s: SessionId)
    requires Core(e) && IsCulling(e, o)
    ensures Core(e.Cull(o, s))
  {
    hide Core, S.Book.Remove, H.Hall.Changes;
    RemoveCore(e, s);
    OpsCore(if s in e.book.sessions then e.Changed(e.book.Remove(s), s, C.Change.ClosingForGood)
        else e.(book := e.book.Remove(s)), e.Cull(o, s));
  }

  /** A move of the hall, with the session manager's maps as they were. */
  lemma MoveCore(e: Engine, move: H.Step)
    requires Core(e) && HX.Orderly(e.hall, move) && Permitted(move)
    ensures Core(e.(hall := H.Next(e.hall, move), book := e.book.(clients := H.Next(e.hall, move).clients)))
  {
    hide HX.Inv, S.Book.Inv, M.Queue.Inv, H.Next, H.Enabled;
    HX.StepKeepsInv(e.hall, move);
    MoveConnects(e.hall, move);
    HallKnows(e.hall);
    HX.NobodyElseArrives(e.hall, move);
    BookFollows(e.book, H.Next(e.hall, move).clients);
  }

  lemma HallKnows(h: H.Hall)
    requires HX.Inv(h)
    ensures HC.Copies(h) && HR.Told(h) && HC.JobOk(h) && HC.Cast(h) && HN.Paced(h) && HR.Known(h)
  {
  }

  lemma RegisterCore(e: Engine, step: Step)
    requires Core(e) && Enabled(e, step) && step.Registers?
    ensures Core(Next(e, step))
  {
    hide HX.Inv, S.Book.Inv, M.Queue.Inv;
    S.RegisterKeeps(e.book, step.s, step.principal, step.client, step.proof, true);
    HX.StepKeepsInv(e.hall, H.Arrives(step.s, step.client));
  }

  lemma UnqueueCore(e: Engine, s: SessionId)
    requires Core(e) && e.queue.phase.Resting?
    ensures Core(e.(queue := e.queue.TakeLeave(s)))
  {
    hide HX.Inv, S.Book.Inv;
    M.StepKeeps(e.queue, M.LeaveTaken(s));
  }

  lemma EnqueueCore(e: Engine, o: OpId)
    requires Core(e) && Enabled(e, Enqueues(o))
    ensures Core(e.Enqueue(o))
  {
    hide HX.Inv, S.Book.Inv, M.Queue.Inv, M.Queue.TakeJoin;
    var s := e.ops[o].tail[0].s;
    M.StepKeeps(e.queue, M.JoinTaken(s, e.Of(s).IsClosed()));
  }

  lemma TurnCore(e: Engine, turn: M.Step)
    requires Core(e) && M.Enabled(e.queue, turn)
    ensures Core(e.Queued(turn))
  {
    hide HX.Inv, S.Book.Inv, M.Queue.Inv, M.Next, M.Enabled;
    M.StepKeeps(e.queue, turn);
  }

  lemma StepKeepsCore(e: Engine, step: Step)
    requires Core(e) && Enabled(e, step)
    requires step.Asks? ==> HX.Orderly(e.hall, step.command)
    ensures Core(Next(e, step))
  {
    hide Core, H.Next, H.Enabled, HN.Calm, M.Next, M.Enabled, S.Book.Overdue, S.Book.Register, S.Passing;
    hide Engine.Commit, Engine.Scan, Engine.Cull, Engine.Enqueue, Engine.Settled, Engine.Queued, M.Queue.TakeLeave;
    var k := Next(e, step);
    match step
    case Commits(o, now) => CommitCore(e, o, now);
    case Scans(o, s) => ScanCore(e, o, s);
    case Culls(o, s) => CullCore(e, o, s);
    case Unqueues(o) =>
      UnqueueCore(e, e.ops[o].tail[0].s);
      OpsCore(e.(queue := e.queue.TakeLeave(e.ops[o].tail[0].s)), k);
    case Enqueues(o) => EnqueueCore(e, o);
    case Asks(o, command) => AskCore(e, o, command);
    case Registers(s, principal, client, proof) => RegisterCore(e, step);
    case HallMoves(move) =>
      MoveCore(e, move);
      SettledHall(e.(hall := H.Next(e.hall, move), book := e.book.(clients := H.Next(e.hall, move).clients)));
      OpsCore(e.(hall := H.Next(e.hall, move), book := e.book.(clients := H.Next(e.hall, move).clients)), k);
    case QueueMoves(turn) => TurnCore(e, turn);
    case _ => OpsCore(e, k);
  }

  lemma AskCore(e: Engine, o: OpId, command: H.Step)
    requires Core(e) && Enabled(e, Asks(o, command)) && HX.Orderly(e.hall, command)
    ensures Core(Next(e, Asks(o, command)))
  {
    hide Core, H.Next, H.Enabled, HN.Calm;
    MoveCore(e, command);
    var m := e.(hall := H.Next(e.hall, command), book := e.book.(clients := H.Next(e.hall, command).clients));
    SettledHall(m.(serving := Some(o)));
    OpsCore(m, Next(e, Asks(o, command)));
  }
}
