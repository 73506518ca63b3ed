/** What a suspension, a disconnection or an expiry pass still owes. */
module EngineDuties {
  import opened Types
  import opened EngineSystem
  import opened EngineLocks
  import opened EngineCore
  import C = Clients
  import H = RoomSystem
  import HX = RoomRuns
  import M = Matchmakers
  import S = SessionManagers

  // ----- what the holder of the lifecycle lock owes ----------------------------------

  /** The session has a client whose connection is gone. */
  predicate Lost(e: Engine, s: SessionId) { s in e.hall.clients && e.hall.clients[s].transport.None? }

  predicate Shut(e: Engine, s: SessionId) { s in e.hall.clients && e.hall.clients[s].closed }

  /** An eviction comes after its session has been taken out of the match queue. */
  ghost predicate Lined(d: seq<Msg>, queued: set<SessionId>) {
    forall i :: 0 <= i < |d| && d[i].Evict? ==> d[i].s !in queued || exists j :: 0 <= j < i && d[j] == Unqueue(d[i].s)
  }

  ghost predicate Single(d: seq<Msg>) {
    forall i, j :: 0 <= i < j < |d| && d[i].Tell? && !d[i].up ==> d[i] != d[j]
  }

  ghost predicate Owing(e: Engine) {
    && (forall m :: m in e.Duties() && m.Tell? && !m.up ==> Lost(e, m.s))
    && (forall m :: m in e.Duties() && m.Evict? ==> m.s in e.hall.clients && e.hall.clients[m.s].closed)
    && Lined(e.Duties(), e.queue.Footprint()) && Single(e.Duties())
  }

  /** Of those without a connection, only such as are about to be taken out can be queued. */
  ghost predicate Dequeued(e: Engine) {
    forall s :: Lost(e, s) && s in e.queue.Footprint() ==> Unqueue(s) in e.Duties()
  }

  /** The duties are the same, or the first of them has been done. */
  ghost predicate Dropped(e: Engine, k: Engine) {
    var d := e.Duties();
    k.Duties() == d || (d != [] && k.Duties() == d[1..] && (d[0].Unqueue? ==> d[0].s !in k.queue.Footprint()))
  }

  /** Whoever was connected, lost or closed still is; whoever is new is connected. */
  predicate Kept(e: Engine, k: Engine) {
    && (forall s :: s in e.hall.clients ==>
          && s in k.hall.clients && k.hall.clients[s].transport.Some? == e.hall.clients[s].transport.Some?
          && k.hall.clients[s].closed == e.hall.clients[s].closed)
    && (forall s :: s in k.hall.clients && s !in e.hall.clients ==>
         k.hall.clients[s].transport.Some? && !k.hall.clients[s].closed)
  }

  /** Nobody comes near the match queue but those who are connected. */
  ghost predicate Nearing(e: Engine, k: Engine) {
    forall s :: s in k.queue.Footprint() ==>
      s in e.queue.Footprint() || (s in k.hall.clients && k.hall.clients[s].transport.Some?
          && !k.hall.clients[s].closed)
  }

  lemma LinedTail(d: seq<Msg>, queued: set<SessionId>)
    requires Lined(d, queued) && d != [] && (d[0].Unqueue? ==> d[0].s !in queued)
    ensures Lined(d[1..], queued)
  {
    forall i | 0 <= i < |d| - 1 && d[1..][i].Evict? && d[1..][i].s in queued
      ensures exists j :: 0 <= j < i && d[1..][j] == Unqueue(d[1..][i].s)
    {
      assert d[1..][i] == d[i + 1];
      var j :| 0 <= j < i + 1 && d[j] == Unqueue(d[i + 1].s);
      assert j != 0;
      assert d[1..][j - 1] == d[j];
    }
  }

  lemma LinedElsewhere(d: seq<Msg>, queued: set<SessionId>, now: set<SessionId>)
    requires Lined(d, queued) && forall i :: 0 <= i < |d| && d[i].Evict? && d[i].s in now ==> d[i].s in queued
    ensures Lined(d, now)
  {
  }

  lemma LinedMore(d: seq<Msg>, queued: set<SessionId>, s: SessionId, m: Msg)
    requires Lined(d, queued) && m.s == s
    ensures Lined(d + [Unqueue(s), m], queued)
  {
    var more := d + [Unqueue(s), m];
    forall i | 0 <= i < |more| && more[i].Evict? && more[i].s in queued
      ensures exists j :: 0 <= j < i && more[j] == Unqueue(more[i].s)
    {
      if i < |d| {
        var j :| 0 <= j < i && d[j] == Unqueue(d[i].s);
        assert more[j] == d[j];
      } else {
        assert more[|d|] == Unqueue(s);
      }
    }
  }

  lemma SingleTail(d: seq<Msg>)
    requires Single(d) && d != []
    ensures Single(d[1..])
  {
  }

  lemma OwingLater(e: Engine, k: Engine)
    requires Owing(e) && Dequeued(e) && Dropped(e, k) && Kept(e, k) && Nearing(e, k)
    ensures Owing(k) && Dequeued(k)
  {
    hide Lined, Single, Engine.Duties, M.Queue.Footprint;
    var d := e.Duties();
    LinedElsewhere(d, e.queue.Footprint(), k.queue.Footprint());
    if k.Duties() != d {
      LinedTail(d, k.queue.Footprint());
      SingleTail(d);
      assert forall m :: m in d[1..] ==> m in d;
      assert forall m :: m in d && m != d[0] ==> m in d[1..] by { assert d == [d[0]] + d[1..]; }
    }
  }

  lemma DutiesOf(e: Engine, o: OpId)
    requires Locks(e) && Tails(e) && o in e.ops
    ensures e.life == Some(o) ==> e.ops[o].program.Vital() && e.Duties() == e.ops[o].tail
    ensures e.ops[o].tail != [] && e.ops[o].program.Vital() ==> e.life == Some(o)
    ensures forall m :: m in e.ops[o].tail ==> Sends(e.ops[o].program, m)
  {
    assert TailOk(e.ops[o]);
  }

  lemma PoppedDuties(e: Engine, k: Engine, o: OpId)
    requires k.ops == e.ops && k.life == e.life && o in e.ops && e.ops[o].tail != []
    ensures k.Popped(o).Duties() == if e.life == Some(o) then e.Duties()[1..] else e.Duties()
    ensures k.Popped(o).queue == k.queue && k.Popped(o).hall == k.hall
  {
  }

  lemma SettledDrops(e: Engine, k: Engine)
    requires Locks(e) && Tails(e) && k.ops == e.ops && k.life == e.life
    requires k.serving.Some? && k.serving.value in k.ops && k.ops[k.serving.value].tail != [] ==>
            !k.ops[k.serving.value].tail[0].Unqueue?
    ensures Dropped(e, k.Settled())
  {
    if k.serving.Some? && k.serving.value in k.ops && k.ops[k.serving.value].tail != [] {
      PoppedDuties(e, k, k.serving.value);
      DutiesOf(e, k.serving.value);
    }
  }

  /** Of duties, clients and the match queue, what is the same is kept. */
  lemma SameIsKept(e: Engine, k: Engine)
    ensures k.Duties() == e.Duties() ==> Dropped(e, k)
    ensures k.hall == e.hall ==> Kept(e, k)
    ensures k.queue == e.queue ==> Nearing(e, k)
  {
  }

  lemma UnqueueDrops(e: Engine, o: OpId)
    requires Locks(e) && Tails(e) && Enabled(e, Unqueues(o)) && e.queue.Inv()
    ensures Dropped(e, Next(e, Unqueues(o)))
  {
    hide M.Queue.Inv, M.Queue.TakeLeave, M.Queue.Footprint;
    var s := e.ops[o].tail[0].s;
    M.LeaveFootprint(e.queue, s);
    PoppedDuties(e, e.(queue := e.queue.TakeLeave(s)), o);
    DutiesOf(e, o);
  }

  /** A transport command is no duty. */
  lemma ControlDrops(e: Engine, k: Engine, o: OpId)
    requires Locks(e) && Tails(e) && o in e.ops && e.ops[o].tail != [] && k.ops == e.ops && k.life == e.life
    requires e.ops[o].program.Controlling? || e.ops[o].tail[0].Enqueue?
    ensures k.Popped(o).Duties() == e.Duties() && k.Duties() == e.Duties()
  {
    DutiesOf(e, o);
    PoppedDuties(e, k, o);
    assert Sends(e.ops[o].program, e.ops[o].tail[0]);
  }

  /** Only transport commands are refused, and they owe nobody anything. */
  lemma DeniedDuties(e: Engine, o: OpId)
    requires Locks(e) && Enabled(e, IsDenied(o))
    ensures e.Denied(o).Duties() == e.Duties() && e.Denied(o).Untaken() == e.Untaken()
  {
  }

  lemma QueuedDrops(e: Engine, turn: M.Step)
    requires Locks(e) && Tails(e) && Enqueuing(e) && M.Enabled(e.queue, turn)
    ensures e.Queued(turn).Duties() == e.Duties()
  {
    hide M.Next, Locks, Tails;
    if e.joining.Some? { ControlDrops(e, e.(queue := M.Next(e.queue, turn)), e.joining.value); }
  }

  lemma EnqueueDrops(e: Engine, o: OpId)
    requires Locks(e) && Tails(e) && Enabled(e, Enqueues(o))
    ensures e.Enqueue(o).Duties() == e.Duties()
  {
    hide M.Queue.TakeJoin, Locks, Tails;
    ControlDrops(e, e.(queue := e.queue.TakeJoin(e.ops[o].tail[0].s, e.Of(e.ops[o].tail[0].s).IsClosed())), o);
  }

  lemma LockDuties(e: Engine, step: Step)
    requires Locks(e) && Tails(e) && Enabled(e, step)
    requires step.Starts? || step.LocksGate? || step.LocksLife? || step.ScansNoMore? || step.CullsNoMore?
            || step.Finishes? || step.GivesUp?
    ensures Next(e, step).Duties() == e.Duties()
  {
    hide S.Book.Overdue;
    if step.o in e.ops { assert TailOk(e.ops[step.o]); }
  }

  predicate Growing(step: Step) { step.Commits? || step.Scans? || step.Culls? }

  lemma StepDrops(e: Engine, step: Step)
    requires Locks(e) && Tails(e) && Serving(e) && Enqueuing(e) && e.queue.Inv() && Enabled(e, step) && !Growing(step)
    ensures Dropped(e, Next(e, step))
  {
    hide Locks, Tails, M.Queue.Inv, M.Queue.Footprint, H.Next, H.Enabled, M.Next, M.Enabled, S.Book.Register;
    hide S.Book.Overdue, Kept, Nearing;
    hide Engine.Enqueue, Engine.Queued, Engine.Popped, Engine.Duties, Dropped;
    var k := Next(e, step);
    SameIsKept(e, k);
    match step
    case Unqueues(o) => UnqueueDrops(e, o);
    case Enqueues(o) => EnqueueDrops(e, o);
    case Asks(o, command) => AskDrops(e, o, command);
    case IsDenied(o) => DeniedDuties(e, o);
    case Registers(s, principal, client, proof) => SameDuties(e, k);
    case HallMoves(move) =>
      SettledDrops(e, e.(hall := H.Next(e.hall, move), book := e.book.(clients := H.Next(e.hall, move).clients)));
    case QueueMoves(turn) => QueuedDrops(e, turn);
    case _ => LockDuties(e, step);
  }

  lemma SameDuties(e: Engine, k: Engine)
    ensures k.ops == e.ops && k.life == e.life ==> k.Duties() == e.Duties()
  {
  }

  lemma AskDrops(e: Engine, o: OpId, command: H.Step)
    requires Locks(e) && Tails(e) && Enabled(e, Asks(o, command))
    ensures Dropped(e, Next(e, Asks(o, command)))
  {
    hide Locks, Tails, H.Next, H.Enabled;
    SettledDrops(e, e.(hall := H.Next(e.hall, command), book := e.book.(clients := H.Next(e.hall, command).clients),
        serving := Some(o)));
  }

  lemma MoveKeeps(e: Engine, k: Engine, move: H.Step)
    requires Core(e) && H.Enabled(e.hall, move) && Permitted(move) && k.hall == H.Next(e.hall, move)
    ensures Kept(e, k)
  {
    hide HX.Inv, S.Book.Inv, M.Queue.Inv, H.Next, H.Enabled;
    HallKnows(e.hall);
    MoveConnects(e.hall, move);
    HX.NobodyElseArrives(e.hall, move);
  }

  lemma RegisterKeepsClients(e: Engine, step: Step)
    requires Enabled(e, step) && step.Registers?
    ensures Kept(e, Next(e, step))
  {
    hide S.Book.Register;
  }

  lemma StepKeepsClients(e: Engine, step: Step)
    requires Core(e) && Enabled(e, step) && !Growing(step)
    ensures Kept(e, Next(e, step))
  {
    hide Core, Kept, Engine.Duties, M.Queue.TakeJoin, M.Queue.TakeLeave, H.Next, H.Enabled, M.Next, M.Enabled;
    hide S.Book.Register, S.Book.Overdue, S.Passing, Dropped, Nearing;
    var k := Next(e, step);
    SameIsKept(e, k);
    match step
    case Asks(o, command) => MoveKeeps(e, k, command);
    case Registers(s, principal, client, proof) => RegisterKeepsClients(e, step);
    case HallMoves(move) => MoveKeeps(e, k, move);
    case _ =>
  }

  lemma UnqueueNears(e: Engine, k: Engine, s: SessionId)
    requires e.queue.phase.Resting? && k.queue == e.queue.TakeLeave(s)
    ensures Nearing(e, k)
  {
    hide M.Queue.TakeLeave, M.Queue.Footprint;
    M.LeaveFootprint(e.queue, s);
  }

  lemma JoinNears(e: Engine, k: Engine, s: SessionId)
    requires e.queue.phase.Resting? && k.queue == e.queue.TakeJoin(s, e.Of(s).IsClosed()) && k.hall == e.hall
    ensures Nearing(e, k)
  {
    hide M.Queue.TakeJoin, M.Queue.Footprint;
    M.JoinFootprint(e.queue, s, e.Of(s).IsClosed());
  }

  lemma TurnNears(e: Engine, turn: M.Step)
    requires e.queue.Inv() && M.Enabled(e.queue, turn)
    requires turn.JoinTaken? ==> turn.s in e.hall.clients && turn.closed == e.Of(turn.s).IsClosed()
    ensures Nearing(e, e.Queued(turn))
  {
    hide M.Queue.Inv, M.Next, M.Enabled, M.Queue.Footprint;
    M.FootprintGrows(e.queue, turn);
  }

  lemma StepNears(e: Engine, step: Step)
    requires Core(e) && Enabled(e, step) && !Growing(step)
    ensures Nearing(e, Next(e, step))
  {
    hide Core, Nearing, Engine.Duties, M.Queue.TakeJoin, M.Queue.TakeLeave, H.Next, H.Enabled, M.Next, M.Enabled;
    hide S.Book.Register, S.Book.Overdue, Engine.Queued, HX.Inv, M.Queue.Inv, Dropped, Kept;
    var k := Next(e, step);
    SameIsKept(e, k);
    match step
    case Unqueues(o) => UnqueueNears(e, k, e.ops[o].tail[0].s);
    case Enqueues(o) => JoinNears(e, k, e.ops[o].tail[0].s);
    case QueueMoves(turn) => CoreParts(e); TurnNears(e, turn);
    case _ =>
  }

  /** `s` loses its connection or is closed, and it is put down what is owed for that. */
  ghost predicate Grows(e: Engine, k: Engine, s: SessionId, m: Msg) {
    && k.Duties() == e.Duties() + [Unqueue(s), m] && k.queue == e.queue && s in k.hall.clients
    && ((m == Tell(s, false) && k.hall.clients[s].transport.None? && !Lost(e, s))
         || (m == Evict(s) && k.hall.clients[s].closed))
    && k.hall.clients.Keys == e.hall.clients.Keys
    && forall x :: x in e.hall.clients ==>
         && (x != s ==> k.hall.clients[x] == e.hall.clients[x])
         && (e.hall.clients[x].closed ==> k.hall.clients[x].closed) && (Lost(e, x) ==> Lost(k, x))
  }

  lemma OwingGrows(e: Engine, k: Engine, s: SessionId, m: Msg)
    requires Owing(e) && Dequeued(e) && Grows(e, k, s, m)
    ensures Owing(k) && Dequeued(k)
  {
    var d, more := e.Duties(), [Unqueue(s), m];
    LinedMore(d, e.queue.Footprint(), s, m);
    SingleMore(d, s, m);
    forall x | x in d + more ensures x in d || x == Unqueue(s) || x == m {
    }
    assert (d + more)[|d|] == Unqueue(s);
    forall x | x in d ensures x in d + more {
    }
  }

  lemma SingleMore(d: seq<Msg>, s: SessionId, m: Msg)
    requires Single(d) && (m.Tell? ==> m !in d)
    ensures Single(d + [Unqueue(s), m])
  {
  }

  /** Whom an operation is to close is known. */
  ghost predicate Named(e: Engine) {
    forall o :: o in e.ops ==>
      && (e.ops[o].program.Disconnecting? ==> e.ops[o].program.s in e.hall.clients)
      && (e.ops[o].stage.Culling? ==> e.ops[o].stage.todo <= e.hall.clients.Keys)
  }

  lemma CommitOwes(e: Engine, o: OpId, now: nat)
    requires Owing(e) && Dequeued(e) && Core(e) && Locks(e) && Tails(e) && Named(e) && Enabled(e, Commits(o, now))
    ensures Owing(e.Commit(o, now)) && Dequeued(e.Commit(o, now))
  {
    hide Core, Owing, Dequeued, Locks, Tails, Engine.Commit;
    DutiesOf(e, o);
    match e.ops[o].program
    case Suspending(s, g) => SuspendOwes(e, o, now);
    case Resuming(s, proof, identity, token) => ResumeOwes(e, o, now);
    case Disconnecting(s, _) => DisconnectOwes(e, o, now);
    case Expiring => PlainOwes(e, o, now);
    case Controlling(s, g, operation) => PlainOwes(e, o, now);
  }

  lemma ReadyOwesNothing(e: Engine, o: OpId, now: nat)
    requires Locks(e) && Tails(e) && Enabled(e, Commits(o, now)) && e.ops[o].program.Vital()
    ensures e.life == Some(o) && e.Duties() == []
  {
    assert TailOk(e.ops[o]);
  }

  lemma SameOwing(e: Engine, k: Engine)
    requires Owing(e) && Dequeued(e) && k.Duties() == e.Duties() && k.queue == e.queue
    requires k.hall.clients == e.hall.clients
    ensures Owing(k) && Dequeued(k)
  {
  }

  lemma PlainOwes(e: Engine, o: OpId, now: nat)
    requires Owing(e) && Dequeued(e) && Locks(e) && Tails(e) && Enabled(e, Commits(o, now))
    requires (e.ops[o].program.Expiring? || e.ops[o].program.Controlling?)
    ensures Owing(e.Commit(o, now)) && Dequeued(e.Commit(o, now))
  {
    hide Owing, Dequeued, Commands;
    if e.ops[o].program.Expiring? { ReadyOwesNothing(e, o, now); }
    assert TailOk(e.ops[o]);
    SameOwing(e, e.Commit(o, now));
  }

  lemma SuspendGrows(e: Engine, o: OpId, now: nat)
    requires Core(e) && Locks(e) && Tails(e) && Enabled(e, Commits(o, now)) && IsSuspending(e, o)
    ensures var (s, k) := (Subject(e, o), e.Commit(o, now));
            Grows(e, k, s, Tell(s, false)) ==> s in e.hall.clients && s in k.hall.clients
    ensures var (s, k) := (Subject(e, o), e.Commit(o, now));
            || Grows(e, k, s, Tell(s, false))
            || (k.Duties() == e.Duties() && k.queue == e.queue && k.hall.clients == e.hall.clients)
  {
    hide Locks, Tails, HX.Inv, M.Queue.Inv;
    var (s, g, k) := (e.ops[o].program.s, e.ops[o].program.generation, e.Commit(o, now));
    ReadyOwesNothing(e, o, now);
    if !e.book.Suspend(s, g, now).1 && s in e.hall.clients { PutSame(e.hall.clients, s); }
  }

  lemma SuspendOwes(e: Engine, o: OpId, now: nat)
    requires Owing(e) && Dequeued(e) && Core(e) && Locks(e) && Tails(e) && Enabled(e, Commits(o, now))
    requires IsSuspending(e, o)
    ensures Owing(e.Commit(o, now)) && Dequeued(e.Commit(o, now))
  {
    hide Owing, Dequeued, Locks, Tails, Core, Grows, Engine.Commit;
    var (s, k) := (e.ops[o].program.s, e.Commit(o, now));
    SuspendGrows(e, o, now);
    if Grows(e, k, s, Tell(s, false)) { OwingGrows(e, k, s, Tell(s, false)); } else { SameOwing(e, k); }
  }

  /** A session that is removed has a closed client afterwards; nobody else's is touched. */
  lemma RemovedClients(e: Engine, s: SessionId)
    requires Core(e) && s in e.hall.clients
    ensures var h := if s in e.book.sessions then e.hall.Changes(s, C.Change.ClosingForGood) else e.hall;
            && h.clients.Keys == e.hall.clients.Keys && h.clients[s].closed
            && forall x :: x in e.hall.clients ==>
                 && (x != s ==> h.clients[x] == e.hall.clients[x])
                 && (e.hall.clients[x].closed ==> h.clients[x].closed)
                 && (e.hall.clients[x].transport.None? ==> h.clients[x].transport.None?)
  {
    hide HX.Inv, M.Queue.Inv;
  }

  lemma DisconnectGrows(e: Engine, o: OpId, now: nat)
    requires Core(e) && Locks(e) && Tails(e) && Enabled(e, Commits(o, now)) && IsDisconnecting(e, o)
    requires Subject(e, o) in e.hall.clients
    ensures Grows(e, e.Commit(o, now), Subject(e, o), Evict(Subject(e, o)))
  {
    hide Locks, Tails, Core, S.Book.Remove, C.Change.Apply;
    RemovedClients(e, e.ops[o].program.s);
    ReadyOwesNothing(e, o, now);
  }

  lemma DisconnectOwes(e: Engine, o: OpId, now: nat)
    requires Owing(e) && Dequeued(e) && Core(e) && Locks(e) && Tails(e) && Enabled(e, Commits(o, now))
    requires IsDisconnecting(e, o)
    requires Subject(e, o) in e.hall.clients
    ensures Owing(e.Commit(o, now)) && Dequeued(e.Commit(o, now))
  {
    hide Owing, Dequeued, Locks, Tails, Core, Grows, Engine.Commit;
    DisconnectGrows(e, o, now);
    OwingGrows(e, e.Commit(o, now), e.ops[o].program.s, Evict(e.ops[o].program.s));
  }

  lemma ResumeOwes(e: Engine, o: OpId, now: nat)
    requires Owing(e) && Dequeued(e) && Core(e) && Locks(e) && Tails(e) && Enabled(e, Commits(o, now))
    requires IsResuming(e, o)
    ensures Owing(e.Commit(o, now)) && Dequeued(e.Commit(o, now))
  {
    hide Locks, Tails, HX.Inv, M.Queue.Inv, S.Book.Resume, S.Book.Inv, M.Queue.Footprint;
    var (p, k) := (e.ops[o].program, e.Commit(o, now));
    ReadyOwesNothing(e, o, now);
    if e.book.Resume(p.s, p.proof, p.identity, p.token, now, true).1.Ok? {
      ResumeLinks(e.book, p.s, p.proof, p.identity, p.token, now, e.hall.config.outboundCapacity);
      forall s | Lost(k, s) ensures Lost(e, s) {
      }
    }
  }

  lemma PassingHoldsLife(e: Engine, o: OpId)
    requires Locks(e) && Tails(e) && o in e.ops && (e.ops[o].stage.Scanning? || e.ops[o].stage.Culling?)
    ensures e.life == Some(o) && e.Duties() == e.ops[o].tail && e.ops[o].program.Expiring?
  {
    assert TailOk(e.ops[o]);
  }

  lemma ScanGrows(e: Engine, o: OpId, s: SessionId)
    requires Core(e) && Locks(e) && Tails(e) && IsScanning(e, o) && s in e.book.sessions
    ensures Grows(e, e.Scan(o, s), s, Tell(s, false)) ==> s in e.hall.clients && s in e.Scan(o, s).hall.clients
    ensures var k := e.Scan(o, s);
            || Grows(e, k, s, Tell(s, false))
            || (k.Duties() == e.Duties() && k.queue == e.queue && k.hall.clients == e.hall.clients)
  {
    hide Locks, Tails, HX.Inv, M.Queue.Inv;
    PassingHoldsLife(e, o);
  }

  lemma ScanOwes(e: Engine, o: OpId, s: SessionId)
    requires Owing(e) && Dequeued(e) && Core(e) && Locks(e) && Tails(e) && IsScanning(e, o) && s in e.book.sessions
    ensures Owing(e.Scan(o, s)) && Dequeued(e.Scan(o, s))
  {
    hide Owing, Dequeued, Core, Locks, Tails, Grows, Engine.Scan;
    ScanGrows(e, o, s);
    if Grows(e, e.Scan(o, s), s, Tell(s, false)) {
      OwingGrows(e, e.Scan(o, s), s, Tell(s, false));
    } else {
      SameOwing(e, e.Scan(o, s));
    }
  }

  lemma CullGrows(e: Engine, o: OpId, s: SessionId)
    requires Core(e) && Locks(e) && Tails(e) && IsCulling(e, o) && s in e.hall.clients
    ensures Grows(e, e.Cull(o, s), s, Evict(s))
  {
    hide Locks, Tails, Core, S.Book.Remove, C.Change.Apply;
    RemovedClients(e, s);
    PassingHoldsLife(e, o);
  }

  lemma CullOwes(e: Engine, o: OpId, s: SessionId)
    requires Owing(e) && Dequeued(e) && Core(e) && Locks(e) && Tails(e) && IsCulling(e, o) && s in e.hall.clients
    ensures Owing(e.Cull(o, s)) && Dequeued(e.Cull(o, s))
  {
    hide Owing, Dequeued, Core, Locks, Tails, Grows, Engine.Cull;
    CullGrows(e, o, s);
    OwingGrows(e, e.Cull(o, s), s, Evict(s));
  }

  lemma GenerationsKeepKeys(h: H.Hall, k: H.Hall)
    requires SameGenerations(h, k)
    ensures h.clients.Keys <= k.clients.Keys
  {
  }

  lemma CommitNamed(e: Engine, o: OpId, now: nat)
    requires Named(e) && Core(e) && o in e.ops
    ensures Named(e.Commit(o, now))
  {
    hide S.Book.Suspend, S.Book.Resume, S.Book.Remove, C.Change.Apply, Commands, Core;
    CommitAlone(e, o, now);
  }

  lemma PassNamed(e: Engine, o: OpId, s: SessionId)
    requires Named(e) && o in e.ops
    ensures Named(e.Scan(o, s))
    ensures Named(e.Cull(o, s))
  {
    hide S.Book.Scan, S.Book.Remove, C.Change.Apply;
  }

  lemma OverdueNamed(e: Engine, o: OpId)
    requires Named(e) && Core(e) && IsScanning(e, o)
    ensures Named(e.With(o, e.ops[o].(stage := Culling(e.book.Overdue(e.ops[o].stage.now)))))
  {
    hide HX.Inv, M.Queue.Inv;
  }

  lemma StepKeepsNamed(e: Engine, step: Step)
    requires Named(e) && Core(e) && Enabled(e, step)
    ensures Named(Next(e, step))
  {
    hide Core, SameGenerations, H.Next, H.Enabled, M.Next, M.Enabled, S.Book.Overdue, S.Book.Register;
    hide Engine.Commit, Engine.Scan, Engine.Cull, Engine.Enqueue, Engine.Settled, Engine.Queued, Engine.Popped;
    match step
    case Commits(o, now) => CommitNamed(e, o, now);
    case Scans(o, s) => PassNamed(e, o, s);
    case ScansNoMore(o) => OverdueNamed(e, o);
    case Culls(o, s) => PassNamed(e, o, s);
    case _ =>
      StepGenerations(e, step);
      GenerationsKeepKeys(e.hall, Next(e, step).hall);
      if Forwards(step) { StepShrinks(e, step); }
  }

  lemma CulledIsKnown(e: Engine, o: OpId, s: SessionId)
    requires Named(e) && IsCulling(e, o) && s in e.ops[o].stage.todo
    ensures s in e.hall.clients
  {
  }

  lemma StepOwes(e: Engine, step: Step)
    requires Owing(e) && Dequeued(e) && Core(e) && Locks(e) && Tails(e) && Serving(e) && Enqueuing(e) && Named(e)
    requires Enabled(e, step)
    ensures Owing(Next(e, step)) && Dequeued(Next(e, step))
  {
    hide Owing, Dequeued, Core, Locks, Tails, Serving, Enqueuing, Named, Dropped, Kept, Nearing, H.Next, H.Enabled;
    hide M.Next, M.Enabled;
    hide Engine.Commit, Engine.Scan, Engine.Cull, Engine.Enqueue, Engine.Settled, Engine.Queued, Engine.Popped;
    hide S.Book.Overdue, S.Book.Register;
    match step
    case Commits(o, now) => CommitOwes(e, o, now);
    case Scans(o, s) => ScanOwes(e, o, s);
    case Culls(o, s) => CulledIsKnown(e, o, s); CullOwes(e, o, s);
    case _ => OtherOwes(e, step);
  }

  lemma OtherOwes(e: Engine, step: Step)
    requires Owing(e) && Dequeued(e) && Core(e) && Locks(e) && Tails(e) && Serving(e) && Enqueuing(e)
    requires Enabled(e, step)
    ensures !Growing(step) ==> Owing(Next(e, step)) && Dequeued(Next(e, step))
  {
    hide Owing, Dequeued, Core, Locks, Tails, Serving, Enqueuing, Dropped, Kept, Nearing, Next, Enabled, HX.Inv;
    hide M.Queue.Inv;
    if !Growing(step) {
      CoreParts(e);
      StepDrops(e, step);
      StepKeepsClients(e, step);
      StepNears(e, step);
      OwingLater(e, Next(e, step));
    }
  }
}
