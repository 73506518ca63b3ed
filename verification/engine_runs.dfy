/** Every run of the engine, and what it promises. */
module EngineRuns {
  import opened Types
  import opened Connections
  import opened EngineSystem
  import opened EngineLocks
  import opened EngineCore
  import opened EngineDuties
  import opened EngineNotices
  import opened EngineGhosts
  import opened EngineRoutes
  import opened EngineBeliefs
  import C = Clients
  import R = Rooms
  import L = RoomManagers
  import H = RoomSystem
  import HC = RoomCopies
  import HR = RoomRoutes
  import HN = RoomNotices
  import HX = RoomRuns
  import M = Matchmakers
  import S = SessionManagers

  ghost predicate Inv(e: Engine) {
    && Core(e) && Locks(e) && Tails(e) && Gates(e) && Serving(e) && Enqueuing(e)
    && Named(e) && Owing(e) && Dequeued(e) && Calms(e) && Purged(e) && Closing(e) && Snapped(e)
    && Returning(e) && HN.Spread(e.hall) && Doubts(e)
  }

  lemma StepKeepsInv(e: Engine, step: Step)
    requires Inv(e) && Enabled(e, step)
    ensures Inv(Next(e, step)) && e.purged <= Next(e, step).purged
  {
    hide Core, Locks, Tails, Gates, Serving, Enqueuing, Named, Owing, Dequeued, Calms, Purged, Closing, Snapped;
    hide Returning, HN.Spread, Doubts, Enabled, Next, HX.Orderly, HX.Inv, M.Queue.Inv;
    CoreParts(e);
    if step.Asks? { AsksInOrder(e, step.o, step.command); }
    StepKeepsCore(e, step);
    StepKeepsLocks(e, step);
    StepKeepsTails(e, step);
    StepKeepsGates(e, step);
    StepKeepsServing(e, step);
    StepKeepsNamed(e, step);
    StepOwes(e, step);
    StepKeepsCalms(e, step);
    StepPurges(e, step);
    StepKeepsClosing(e, step);
    StepKeepsSnapped(e, step);
    StepReturns(e, step);
    StepSpreads(e, step);
    StepDoubts(e, step);
    PurgingLasts(e, step);
  }

  lemma PurgingLasts(e: Engine, step: Step)
    requires Enabled(e, step)
    ensures e.purged <= Next(e, step).purged
  {
    hide S.Book.Suspend, S.Book.Resume, S.Book.Remove, S.Book.Scan, S.Book.Register, S.Book.Overdue, C.Change.Apply;
    hide Commands;
    hide H.Next, H.Enabled, M.Next, M.Enabled, M.Queue.TakeJoin, M.Queue.TakeLeave;
  }

  ghost predicate AllEnabled(e: Engine, steps: seq<Step>)
    decreases |steps|
  {
    steps == [] || (Enabled(e, steps[0]) && AllEnabled(Next(e, steps[0]), steps[1..]))
  }

  ghost function Run(e: Engine, steps: seq<Step>): Engine
    decreases |steps|
  {
    if steps == [] then e else Run(Next(e, steps[0]), steps[1..])
  }

  lemma {:induction false} EngineRun(e: Engine, steps: seq<Step>)
    requires Inv(e) && AllEnabled(e, steps)
    ensures Inv(Run(e, steps)) && e.purged <= Run(e, steps).purged
    decreases |steps|
  {
    hide Inv, Next, Enabled;
    if steps != [] {
      StepKeepsInv(e, steps[0]);
      EngineRun(Next(e, steps[0]), steps[1..]);
    }
  }

  function Opening(config: Config, task: L.TaskId): Engine {
    Engine(H.Opening(config, task), M.Queue(config.matchSize, config.maxSessions, map[], map[], 0, M.Resting),
           S.Opening(config.maxSessions, config.grace).book, map[], map[], None, None, None, {})
  }

  lemma OpeningCore(config: Config, task: L.TaskId)
    requires config.Accepted()
    ensures Core(Opening(config, task))
  {
    hide HX.Inv;
    HX.OpeningHolds(config, task);
    assert Opening(config, task).queue.Flying() == [];
  }

  lemma OpeningHolds(config: Config, task: L.TaskId)
    requires config.Accepted()
    ensures Inv(Opening(config, task))
  {
    hide Core, M.Queue.Footprint;
    OpeningCore(config, task);
    assert Opening(config, task).Duties() == [];
  }

  /** What the invariant says of the parts of the engine each by itself. */
  lemma InvGround(e: Engine)
    requires Inv(e)
    ensures HX.Inv(e.hall) && HX.Sound(e.hall) && e.queue.Inv() && e.book.Inv() && e.book.clients == e.hall.clients
  {
    hide Locks, Tails, Gates, Serving, Enqueuing, Named, Owing, Dequeued, Calms, Purged, Closing, Snapped;
    hide Returning, Doubts;
    hide HN.Spread, HX.Sound, HN.Paced, HN.Alternating, M.Queue.Inv, S.Book.Inv;
  }

  lemma InvParts(e: Engine)
    requires Inv(e)
    ensures Core(e) && Locks(e) && Tails(e) && Calms(e) && Owing(e) && Named(e) && Serving(e) && Purged(e)
  {
    hide Core, Locks, Tails, Gates, Serving, Enqueuing, Named, Owing, Dequeued, Calms, Purged, Closing, Snapped;
    hide Returning, Doubts;
  }

  // ----- what the engine promises ----------------------------------------------------

  /** `s` is in no session map, no queue entry, no index, no room record and no running room. */
  predicate Gone(e: Engine, s: SessionId) {
    && s !in e.book.sessions && s !in e.book.proofs && s !in e.book.suspended
    && (forall a :: a in e.book.accounts ==> e.book.accounts[a] != s)
    && s !in e.queue.Footprint()
    && e.hall.ledger.RoomsOf(s) == {} && (forall r :: r in e.hall.ledger.open ==> s !in e.hall.ledger.MembersOf(r))
    && (forall r :: r in e.hall.rooms && e.hall.rooms[r].Running() ==> s !in e.hall.rooms[r].members)
  }

  lemma CleanIsGone(e: Engine, s: SessionId)
    requires Core(e) && Clean(e, s)
    ensures Gone(e, s)
  {
    hide HX.Inv, M.Queue.Inv, M.Queue.Footprint, HR.Told, HN.Paced, HR.Known, HC.JobOk;
    CoreParts(e);
    HallKnows(e.hall);
    forall r | r in e.hall.rooms && e.hall.rooms[r].Running() ensures s !in e.hall.rooms[r].members {
      assert e.hall.Runs(r);
      assert HC.CopiesAt(e.hall, r);
      assert (s, r) in e.hall.ledger.links ==> r in e.hall.ledger.RoomsOf(s);
    }
    forall r ensures s !in e.hall.ledger.MembersOf(r) {
      assert (s, r) in e.hall.ledger.links ==> r in e.hall.ledger.RoomsOf(s);
    }
  }

  lemma PurgedIsGone(e: Engine, s: SessionId)
    requires Inv(e) && s in e.purged
    ensures Gone(e, s)
  {
    hide Core, Clean, Gone, Locks, Tails, Gates, Serving, Enqueuing, Named, Owing, Dequeued, Calms, Closing, Snapped;
    CleanIsGone(e, s);
  }

  lemma NothingOwedMeansPurged(e: Engine, s: SessionId)
    requires Purged(e) && e.Duties() == [] && s in e.hall.clients && e.hall.clients[s].closed
    ensures s in e.purged
  {
  }

  /** When a disconnection is over, its session is purged. */
  lemma FinishedMeansPurged(e: Engine, o: OpId)
    requires Inv(e) && IsDisconnecting(e, o) && HasSent(e, o)
    ensures Subject(e, o) in e.purged
  {
    hide Core, Gates, Serving, Enqueuing, Owing, Dequeued, Calms, Tails, Locks, Purged, Snapped;
    DutiesOf(e, o);
    LifeIsHeld(e, o);
    NothingOwedMeansPurged(e, e.ops[o].program.s);
  }

  lemma LifeIsHeld(e: Engine, o: OpId)
    requires Locks(e) && o in e.ops && e.ops[o].HoldsLife()
    ensures e.life == Some(o)
  {
  }

  lemma Reached(config: Config, task: L.TaskId, steps: seq<Step>)
    requires config.Accepted() && AllEnabled(Opening(config, task), steps)
    ensures Inv(Run(Opening(config, task), steps))
  {
    hide Inv, Next, Enabled;
    OpeningHolds(config, task);
    EngineRun(Opening(config, task), steps);
  }

  /** If the disconnection `o` is over in `e`, its session is gone there and in `k`. */
  ghost predicate NoGhost(e: Engine, k: Engine, o: OpId) {
    IsDisconnecting(e, o) && HasSent(e, o) ==> Gone(e, Subject(e, o)) && Gone(k, Subject(e, o))
  }

  /** No ghosts: once the disconnection of a session is over, in any run, the session is in no
      session map, queue entry, record or running room, then and in every continuation, whatever
      joins, creations, queue requests and other operations interleave. */
  lemma DisconnectedForEver(config: Config, task: L.TaskId, steps: seq<Step>, more: seq<Step>, o: OpId)
    requires config.Accepted() && AllEnabled(Opening(config, task), steps)
    requires AllEnabled(Run(Opening(config, task), steps), more)
    ensures NoGhost(Run(Opening(config, task), steps), Run(Run(Opening(config, task), steps), more), o)
  {
    hide Inv, Next, Enabled, Gone;
    Reached(config, task, steps);
    var e := Run(Opening(config, task), steps);
    if IsDisconnecting(e, o) && HasSent(e, o) {
      FinishedMeansPurged(e, o);
      EngineRun(e, more);
      PurgedIsGone(e, Subject(e, o));
      PurgedIsGone(Run(e, more), Subject(e, o));
    }
  }

  /** If `s` is closed in `e` and nothing is owed there, it is gone there and in `k`. */
  ghost predicate NoRemains(e: Engine, k: Engine, s: SessionId) {
    e.Duties() == [] && s in e.hall.clients && e.hall.clients[s].closed ==> Gone(e, s) && Gone(k, s)
  }

  /** The same of every session that is closed when nothing is owed any more, as after an expiry
      pass. */
  lemma ExpiredForEver(config: Config, task: L.TaskId, steps: seq<Step>, more: seq<Step>, s: SessionId)
    requires config.Accepted() && AllEnabled(Opening(config, task), steps)
    requires AllEnabled(Run(Opening(config, task), steps), more)
    ensures NoRemains(Run(Opening(config, task), steps), Run(Run(Opening(config, task), steps), more), s)
  {
    hide Inv, Next, Enabled, Gone, Engine.Duties;
    Reached(config, task, steps);
    var e := Run(Opening(config, task), steps);
    if e.Duties() == [] && s in e.hall.clients && e.hall.clients[s].closed {
      InvParts(e);
      NothingOwedMeansPurged(e, s);
      EngineRun(e, more);
      PurgedIsGone(e, s);
      PurgedIsGone(Run(e, more), s);
    }
  }

  /** A transport command is being carried out for the session's own generation, and whoever else
      needs the session's gate has not got it. */
  ghost predicate Guarded(e: Engine, o: OpId) {
    o in e.ops && e.ops[o].program.Controlling? && e.ops[o].stage.Sending? ==>
      && (e.ops[o].tail != [] ==> e.ops[o].program.s in e.hall.clients
                                  && e.hall.clients[e.ops[o].program.s].generation == e.ops[o].program.generation)
      && forall p :: p in e.ops && p != o && e.ops[p].program.Gate() == e.ops[o].program.Gate() ==>
           e.ops[p].stage.Wanting?
  }

  lemma GateHoldsIn(e: Engine, o: OpId)
    requires Inv(e)
    ensures Guarded(e, o)
  {
    hide Core, Serving, Enqueuing, Named, Owing, Dequeued, Calms, Purged, Closing, Tails, Snapped;
    if o in e.ops && e.ops[o].program.Controlling? && e.ops[o].stage.Sending? {
      assert GateOk(e, o);
      forall p | p in e.ops && p != o && e.ops[p].program.Gate() == e.ops[o].program.Gate()
        ensures e.ops[p].stage.Wanting?
      {
        LocksExclude(e, o, p);
      }
    }
  }

  /** The control gate, in every run and even after the caller is gone: so no create, join, leave
      or queue request of a replaced generation is sent after a takeover. */
  lemma GateHolds(config: Config, task: L.TaskId, steps: seq<Step>, o: OpId)
    requires config.Accepted() && AllEnabled(Opening(config, task), steps)
    ensures Guarded(Run(Opening(config, task), steps), o)
  {
    hide Inv, Next, Enabled, Guarded;
    Reached(config, task, steps);
    GateHoldsIn(Run(Opening(config, task), steps), o);
  }

  ghost predicate OutOfQueue(e: Engine, s: SessionId) {
    s in e.book.suspended && Unqueue(s) !in e.Duties() ==> s !in e.queue.Footprint()
  }

  lemma SuspendedIsOut(e: Engine, s: SessionId)
    requires Inv(e) && s in e.book.suspended && Unqueue(s) !in e.Duties()
    ensures s !in e.queue.Footprint()
  {
    hide Locks, Tails, Gates, Serving, Enqueuing, Named, Owing, Calms, Purged, Closing, Snapped, HX.Inv;
    hide M.Queue.Inv, M.Queue.Footprint;
  }

  /** Once the operation that suspended a session has done with the matchmaker, the session is
      not in the match queue, nor on its way there, until it resumes. */
  lemma SuspendedIsNotQueued(config: Config, task: L.TaskId, steps: seq<Step>, s: SessionId)
    requires config.Accepted() && AllEnabled(Opening(config, task), steps)
    ensures OutOfQueue(Run(Opening(config, task), steps), s)
  {
    hide Inv, Next, Enabled, M.Queue.Footprint, Engine.Duties;
    Reached(config, task, steps);
    var e := Run(Opening(config, task), steps);
    if s in e.book.suspended && Unqueue(s) !in e.Duties() { SuspendedIsOut(e, s); }
  }

  /** In every run of the engine the manager's record and a running room have the same members,
      and messages reach every game in the order of their generations. */
  lemma CopiesAgree(config: Config, task: L.TaskId, steps: seq<Step>, r: RoomId)
    requires config.Accepted() && AllEnabled(Opening(config, task), steps)
    ensures HX.Agreed(Run(Opening(config, task), steps).hall, r)
    ensures HX.MessagesInOrder(Run(Opening(config, task), steps).hall, r)
  {
    hide Inv, Next, Enabled, HX.Sound, HX.Agreed, HX.MessagesInOrder;
    Reached(config, task, steps);
    InvGround(Run(Opening(config, task), steps));
    HX.CopiesInside(Run(Opening(config, task), steps).hall, r);
    HX.MessagesOrdered(Run(Opening(config, task), steps).hall, r);
  }

  ghost predicate Knows(e: Engine, s: SessionId, r: RoomId) {
    e.Duties() == [] && s in e.book.sessions && e.hall.Runs(r) && e.hall.Member(s, r)
    ==> (R.Down(e.hall.rooms[r].trace, s) <==> s in e.book.suspended)
  }

  lemma BeliefsAreRight(e: Engine, s: SessionId, r: RoomId)
    requires Inv(e) && e.Duties() == [] && s in e.book.sessions && e.hall.Runs(r) && e.hall.Member(s, r)
    ensures R.Down(e.hall.rooms[r].trace, s) <==> s in e.book.suspended
  {
    hide Locks, Tails, Gates, Serving, Enqueuing, Named, Owing, Dequeued, Purged, Closing, Snapped, Returning;
    hide HN.Spread, HX.Inv, M.Queue.Inv, R.Down;
    UntakenInDuties(e);
    if s in e.book.suspended {
      assert HN.DoubtIn(e.hall, s, r);
    } else {
      assert !MayDoubt(e, s);
      assert HN.CalmIn(e.hall, s, r);
    }
  }

  /** Whenever nothing is owed, in every run, a running room believes that a member's connection
      is lost if and only if the session is suspended. */
  lemma RoomsKnowWhoIsLost(config: Config, task: L.TaskId, steps: seq<Step>, s: SessionId, r: RoomId)
    requires config.Accepted() && AllEnabled(Opening(config, task), steps)
    ensures Knows(Run(Opening(config, task), steps), s, r)
  {
    hide Inv, Next, Enabled, Engine.Duties, R.Down;
    Reached(config, task, steps);
    var e := Run(Opening(config, task), steps);
    if e.Duties() == [] && s in e.book.sessions && e.hall.Runs(r) && e.hall.Member(s, r) { BeliefsAreRight(e, s, r); }
  }

  /** The routing table read from the restored routes and everything delivered since is, as far
      as this room still runs, right. */
  ghost predicate Converged(h: H.Hall, s: SessionId, r: RoomId) {
    && s in h.snaps && s in h.clients && h.clients[s].transport.Some?
    && var table := Routed(Restored(h.snaps[s]) + h.clients[s].transport.value.sent, {});
       (r in table <==> h.Member(s, r)) && (h.job.Idle? ==> (r in table <==> r in h.ledger.RoomsOf(s)))
  }

  ghost predicate Converges(e: Engine, s: SessionId, r: RoomId) {
    s in e.hall.clients && e.hall.clients[s].Uncancelled() && Routes(s) !in e.Duties() && e.hall.Runs(r) ==>
        Converged(e.hall, s, r)
  }

  lemma TableConverges(e: Engine, s: SessionId, r: RoomId)
    requires Inv(e) && s in e.hall.clients && e.hall.clients[s].Uncancelled() && Routes(s) !in e.Duties()
    requires e.hall.Runs(r)
    ensures Converged(e.hall, s, r)
  {
    hide Locks, Tails, Gates, Serving, Enqueuing, Named, Owing, Dequeued, Calms, Purged, Closing, M.Queue.Inv;
    hide S.Book.Inv, HX.Sound, Routed, Restored;
    HX.RoutesConverge(e.hall, s, r);
  }

  /** After a connection has been made or resumed, in every run: as soon as the operation that
      resumed it is done with the snapshot, the table is right about every running room. */
  lemma ResumedTablesConverge(config: Config, task: L.TaskId, steps: seq<Step>, s: SessionId, r: RoomId)
    requires config.Accepted() && AllEnabled(Opening(config, task), steps)
    ensures Converges(Run(Opening(config, task), steps), s, r)
  {
    hide Inv, Next, Enabled, Converged, Engine.Duties;
    Reached(config, task, steps);
    var e := Run(Opening(config, task), steps);
    if s in e.hall.clients && e.hall.clients[s].Uncancelled() && Routes(s) !in e.Duties() && e.hall.Runs(r) {
      TableConverges(e, s, r);
    }
  }
}
