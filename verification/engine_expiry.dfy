/** What an expiry pass that has run to its end has done. */
module EngineExpiry {
  import opened Types
  import opened EngineSystem
  import opened EngineLocks
  import opened EngineCore
  import opened EngineDuties
  import opened EngineNotices
  import opened EngineGhosts
  import opened EngineRoutes
  import opened EngineBeliefs
  import opened EngineRuns
  import H = RoomSystem
  import HN = RoomNotices
  import HX = RoomRuns
  import L = RoomManagers
  import M = Matchmakers
  import S = SessionManagers

  /** The pass `o` has still to close, or to see off, some of those it found overdue. */
  predicate Busy(e: Engine, o: OpId) {
    o in e.ops && e.ops[o].program.Expiring?
        && (e.ops[o].stage.Culling? || (e.ops[o].stage.Sending? && e.ops[o].tail != []))
  }

  /** Whoever the pass `o` found overdue is closed or about to be; and is gone when the pass is
      over. */
  predicate Removes(e: Engine, o: OpId, who: set<SessionId>) {
    || who <= e.purged
    || (o in e.ops && e.ops[o].program.Expiring? && e.ops[o].stage.Culling? && forall s :: s in who ==>
         s in e.ops[o].stage.todo || Shut(e, s))
    || (o in e.ops && e.ops[o].program.Expiring? && e.ops[o].stage.Sending? && forall s :: s in who ==> Shut(e, s))
  }

  lemma EndedMeansPurged(e: Engine, o: OpId)
    requires Locks(e) && Purged(e) && IsExpiring(e, o) && HasSent(e, o)
    ensures forall s :: Shut(e, s) ==> s in e.purged
  {
    assert e.life == Some(o);
  }

  /** The operation is at the same stage. */
  predicate KeepsTo(e: Engine, k: Engine, o: OpId) {
    o in e.ops && o in k.ops && k.ops[o].program == e.ops[o].program && k.ops[o].stage == e.ops[o].stage
  }

  /** The pass has found out who is overdue. */
  predicate Clears(e: Engine, o: OpId) { IsExpiring(e, o) && (e.ops[o].stage.Culling? || e.ops[o].stage.Sending?) }

  /** The other operations leave this one at its stage. */
  lemma KeepsStage(e: Engine, step: Step, o: OpId)
    requires Tails(e) && Enabled(e, step) && Clears(e, o)
    requires step != CullsNoMore(o) && step != Finishes(o) && !(step.Culls? && step.o == o)
    ensures KeepsTo(e, Next(e, step), o)
  {
    hide Tails, H.Next, H.Enabled, M.Next, M.Enabled, S.Book.Overdue, S.Book.Register;
    hide Engine.Commit, Engine.Scan, Engine.Cull, Engine.Enqueue, Engine.Settled, Engine.Queued, Engine.Popped;
    match step
    case Commits(p, now) => CommitProgress(e, p, now);
    case Scans(p, s) => PassProgress(e, p, s);
    case Culls(p, s) => PassProgress(e, p, s);
    case _ => if Forwards(step) { StepShrinks(e, step); }
  }

  lemma CullRemoves(e: Engine, o: OpId, s: SessionId, who: set<SessionId>)
    requires Inv(e) && IsCulling(e, o) && Enabled(e, Culls(o, s))
    requires Removes(e, o, who) && StaysClosed(e, e.Cull(o, s)) && e.purged <= e.Cull(o, s).purged
    ensures Removes(e.Cull(o, s), o, who)
  {
    hide Core, Locks, Gates, Serving, Enqueuing, Owing, Dequeued, Calms, Purged, Closing, Snapped, Returning;
    hide Doubts, HN.Spread, Engine.Cull;
    var k := e.Cull(o, s);
    CulledIsKnown(e, o, s);
    CullCloses(e, o, s);
  }

  /** The pass has one session less to remove. */
  predicate OneLess(e: Engine, k: Engine, o: OpId, s: SessionId) {
    IsCulling(e, o) && Proceeds(e, k, o) && k.ops[o].stage == Culling(e.ops[o].stage.todo - {s})
  }

  lemma CullCloses(e: Engine, o: OpId, s: SessionId)
    requires Inv(e) && IsCulling(e, o) && s in e.hall.clients
    ensures var k := e.Cull(o, s);
            && Shut(k, s) && OneLess(e, k, o, s)
  {
    hide Core, Locks, Tails, Gates, Serving, Enqueuing, Named, Owing, Dequeued, Calms, Purged, Closing, Snapped;
    hide Returning, Doubts, HN.Spread, S.Book.Remove;
    RemovedClients(e, s);
  }

  lemma StepRemoves(e: Engine, step: Step, o: OpId, who: set<SessionId>)
    requires Inv(e) && Enabled(e, step) && Removes(e, o, who)
    ensures Removes(Next(e, step), o, who)
  {
    hide Core, Locks, Tails, Gates, Serving, Enqueuing, Named, Owing, Dequeued, Calms, Purged, Closing, Snapped;
    hide Returning, Doubts, HN.Spread;
    hide H.Next, H.Enabled, M.Next, M.Enabled, S.Book.Overdue, S.Book.Register;
    hide Engine.Commit, Engine.Scan, Engine.Cull, Engine.Enqueue, Engine.Settled, Engine.Queued, Engine.Popped;
    StepKeepsInv(e, step);
    ClosedStays(e, step);
    if !(who <= e.purged) {
      if step.Culls? && step.o == o { CullRemoves(e, o, step.s, who); }
      else if step == Finishes(o) { EndedMeansPurged(e, o); }
      else if step != CullsNoMore(o) { KeepsStage(e, step, o); }
    }
  }

  lemma {:induction false} RunRemoves(e: Engine, steps: seq<Step>, o: OpId, who: set<SessionId>)
    requires Inv(e) && AllEnabled(e, steps) && Removes(e, o, who)
    ensures Removes(Run(e, steps), o, who)
    decreases |steps|
  {
    hide Inv, Enabled, Next, Removes;
    if steps != [] {
      StepRemoves(e, steps[0], o, who);
      StepKeepsInv(e, steps[0]);
      RunRemoves(Next(e, steps[0]), steps[1..], o, who);
    }
  }

  /** Whom the pass finds overdue when its scan is over. */
  function Found(e: Engine, o: OpId): set<SessionId> {
    if IsScanning(e, o) then e.book.Overdue(e.ops[o].stage.now) else {}
  }

  ghost predicate AllGone(e: Engine, who: set<SessionId>) { forall s :: s in who ==> s in e.purged && Gone(e, s) }

  /** If the scan of a pass is over in a reachable state, everybody who is overdue there is gone as
      soon as the pass is over, and ever after. */
  ghost predicate ExpiresAll(e: Engine, o: OpId, more: seq<Step>) {
    Enabled(e, ScansNoMore(o)) && AllEnabled(Next(e, ScansNoMore(o)), more) ==>
      var k := Run(Next(e, ScansNoMore(o)), more);
      Busy(k, o) || AllGone(k, Found(e, o))
  }

  lemma RemovedAreGone(e: Engine, o: OpId, who: set<SessionId>)
    requires Inv(e) && Removes(e, o, who) && !Busy(e, o)
    ensures AllGone(e, who)
  {
    hide Core, Locks, Tails, Gates, Serving, Enqueuing, Named, Owing, Dequeued, Calms, Purged, Closing, Snapped;
    hide Returning, Doubts, HN.Spread, Gone;
    if o in e.ops && e.ops[o].program.Expiring? && e.ops[o].stage.Sending? && e.ops[o].tail == [] {
      EndedMeansPurged(e, o);
    }
    forall s | s in who ensures s in e.purged && Gone(e, s) { PurgedIsGone(e, s); }
  }

  lemma ScanEnds(e: Engine, o: OpId)
    requires Inv(e) && Enabled(e, ScansNoMore(o))
    ensures Removes(Next(e, ScansNoMore(o)), o, Found(e, o))
  {
    hide Core, Locks, Gates, Serving, Enqueuing, Named, Owing, Dequeued, Calms, Purged, Closing, Snapped, Returning;
    hide Doubts, HN.Spread;
    assert TailOk(e.ops[o]);
  }

  /** So whatever else happens meanwhile, an expiry pass closes all whose time was up, and when it
      has run to its end they are in no session map, queue entry, record or running room. */
  lemma ExpiryRemovesTheOverdue(config: Config, task: L.TaskId, steps: seq<Step>, o: OpId, more: seq<Step>)
    requires config.Accepted() && AllEnabled(Opening(config, task), steps)
    ensures ExpiresAll(Run(Opening(config, task), steps), o, more)
  {
    hide Inv, Enabled, Next, Removes, Busy, AllGone, Found;
    Reached(config, task, steps);
    var e := Run(Opening(config, task), steps);
    if Enabled(e, ScansNoMore(o)) && AllEnabled(Next(e, ScansNoMore(o)), more) {
      ScanEnds(e, o);
      StepKeepsInv(e, ScansNoMore(o));
      var who := Found(e, o);
      RunRemoves(Next(e, ScansNoMore(o)), more, o, who);
      EngineRun(Next(e, ScansNoMore(o)), more);
      if !Busy(Run(Next(e, ScansNoMore(o)), more), o) { RemovedAreGone(Run(Next(e, ScansNoMore(o)), more), o, who); }
    }
  }

  // ----- whom a pass detaches, and whom it spares ------------------------------------

  /** The connection of the registered session is there, but cancelled or abandoned. */
  predicate Severed(e: Engine, s: SessionId) {
    s in e.book.sessions && s in e.hall.clients && !e.Of(s).closed && e.Of(s).transport.Some? && !e.Of(s).Live()
  }

  /** The pass has parked `s`, or will come to it. */
  predicate Watched(e: Engine, o: OpId, s: SessionId) {
    IsScanning(e, o) && (s in e.book.suspended || (Severed(e, s) && s in e.ops[o].stage.todo))
  }

  /** The book is the same, and so are the connections. */
  predicate Calmly(e: Engine, k: Engine) {
    && k.book.(clients := e.book.clients) == e.book
    && (forall s :: s in e.hall.clients ==>
          s in k.hall.clients && HN.SameConnection(e.hall.clients[s], k.hall.clients[s]))
  }

  lemma ScanKeepsStage(e: Engine, step: Step, o: OpId)
    requires Locks(e) && Tails(e) && IsScanning(e, o) && Enabled(e, step)
    requires !(step.Scans? && step.o == o) && step != ScansNoMore(o)
    ensures KeepsTo(e, Next(e, step), o)
  {
    hide Tails, Locks, H.Next, H.Enabled, M.Next, M.Enabled, S.Book.Overdue, S.Book.Register;
    hide Engine.Commit, Engine.Scan, Engine.Cull, Engine.Enqueue, Engine.Settled, Engine.Queued, Engine.Popped;
    ScannerHoldsLife(e, o);
    match step
    case Commits(p, now) => CommitProgress(e, p, now);
    case Scans(p, s) => PassProgress(e, p, s);
    case Culls(p, s) => PassProgress(e, p, s);
    case _ => if Forwards(step) { StepShrinks(e, step); }
  }

  lemma AnswersStay(e: Engine, o: OpId, turn: M.Step)
    ensures e.Popped(o).hall == e.hall && e.Popped(o).book == e.book && e.Denied(o).hall == e.hall
    ensures e.Denied(o).book == e.book && e.Queued(turn).hall == e.hall && e.Queued(turn).book == e.book
    ensures e.Enqueue(o).hall == e.hall && e.Enqueue(o).book == e.book
    ensures e.Without(o).hall == e.hall && e.Without(o).book == e.book
  {
    hide M.Next, M.Queue.TakeJoin;
  }

  /** Nobody else holds the lifecycle lock during a pass. */
  lemma PassIsAlone(e: Engine, step: Step, o: OpId)
    requires Locks(e) && Tails(e) && IsScanning(e, o) && Enabled(e, step)
    requires !(step.Scans? && step.o == o) && step != ScansNoMore(o)
    ensures Calmly(e, Next(e, step))
  {
    hide Tails, H.Next, H.Enabled, M.Next, M.Enabled, S.Book.Overdue, S.Book.Register, M.Queue.TakeLeave;
    hide Engine.Commit, Engine.Scan, Engine.Cull, Engine.Settled, Engine.Queued, Engine.Enqueue, Engine.Popped;
    hide Engine.Denied, Engine.Without, HN.SameConnection, Calmly, Locks;
    ScannerHoldsLife(e, o);
    SameCalmly(e, Next(e, step));
    match step
    case Commits(p, now) => if e.ops[p].program.Vital() { LifeIsHeld(e, p); } else { ControlsCalmly(e, p, now); }
    case Scans(p, s) => ScannerHoldsLife(e, p);
    case Culls(p, s) => ScannerHoldsLife(e, p);
    case Unqueues(p) => AnswersStay(e.(queue := e.queue.TakeLeave(e.ops[p].tail[0].s)), p, M.LoopTested);
    case Enqueues(p) => AnswersStay(e, p, M.LoopTested);
    case Asks(p, command) => MoveCalmly(e, command, Some(p));
    case IsDenied(p) => AnswersStay(e, p, M.LoopTested);
    case HallMoves(move) => MoveCalmly(e, move, e.serving);
    case QueueMoves(turn) => AnswersStay(e, 0, turn);
    case Finishes(p) => AnswersStay(e, p, M.LoopTested);
    case GivesUp(p) => AnswersStay(e, p, M.LoopTested);
    case _ =>
  }

  lemma MoveCalmly(e: Engine, move: H.Step, serving: Option<OpId>)
    requires H.Enabled(e.hall, move) && !move.Arrives? && (move.Changes? ==> S.Passing(move.change))
    ensures Calmly(e, e.(hall := H.Next(e.hall, move), book := e.book.(clients := H.Next(e.hall, move).clients),
        serving := serving).Settled())
  {
    hide H.Next, H.Enabled, HN.SameConnection;
    MoveConnects(e.hall, move);
    SettledHall(e.(hall := H.Next(e.hall, move), book := e.book.(clients := H.Next(e.hall, move).clients),
        serving := serving));
  }

  lemma SameCalmly(e: Engine, k: Engine)
    ensures k.hall == e.hall && k.book == e.book ==> Calmly(e, k)
  {
  }

  lemma ScannerHoldsLife(e: Engine, o: OpId)
    requires Locks(e) && Tails(e) && (IsScanning(e, o) || IsCulling(e, o))
    ensures e.life == Some(o)
  {
    assert TailOk(e.ops[o]);
  }

  lemma ControlsCalmly(e: Engine, p: OpId, now: nat)
    requires p in e.ops && e.ops[p].program.Controlling?
    ensures e.Commit(p, now).hall == e.hall && e.Commit(p, now).book == e.book
  {
  }

  lemma ScanParks(e: Engine, o: OpId, x: SessionId, s: SessionId)
    requires Core(e) && Watched(e, o, s) && Enabled(e, Scans(o, x))
    ensures Watched(e.Scan(o, x), o, s)
  {
    hide HX.Inv, M.Queue.Inv, S.Book.Inv;
  }

  lemma StepWatches(e: Engine, step: Step, o: OpId, s: SessionId)
    requires Inv(e) && Watched(e, o, s) && Enabled(e, step) && step != ScansNoMore(o)
    ensures Watched(Next(e, step), o, s)
  {
    hide Core, Locks, Tails, Gates, Serving, Enqueuing, Named, Owing, Dequeued, Calms, Purged, Closing, Snapped;
    hide Returning, Doubts, HN.Spread, H.Enabled, M.Enabled, Engine.Scan;
    if step.Scans? && step.o == o {
      ScanParks(e, o, step.s, s);
    } else {
      PassIsAlone(e, step, o);
      ScanKeepsStage(e, step, o);
    }
  }

  lemma {:induction false} RunWatches(e: Engine, steps: seq<Step>, o: OpId, s: SessionId)
    requires Inv(e) && AllEnabled(e, steps) && ScansNoMore(o) !in steps && Watched(e, o, s)
    ensures Watched(Run(e, steps), o, s)
    decreases |steps|
  {
    hide Inv, Enabled, Next, Watched;
    if steps != [] {
      StepWatches(e, steps[0], o, s);
      StepKeepsInv(e, steps[0]);
      RunWatches(Next(e, steps[0]), steps[1..], o, s);
    }
  }

  /** Whoever has an unusable connection when the pass `o` commits is parked when its scan is over. */
  ghost predicate Detaches(e: Engine, o: OpId, now: nat, more: seq<Step>) {
    var k := Next(e, Commits(o, now));
    IsExpiring(e, o) && Enabled(e, Commits(o, now)) && AllEnabled(k, more) && ScansNoMore(o) !in more
    && Enabled(Run(k, more), ScansNoMore(o)) ==>
      forall s :: Severed(e, s) ==> s in Run(k, more).book.suspended
  }

  lemma PassBegins(e: Engine, o: OpId, now: nat)
    requires IsExpiring(e, o) && Enabled(e, Commits(o, now))
    ensures forall s :: Severed(e, s) ==> Watched(Next(e, Commits(o, now)), o, s)
  {
  }

  lemma WatchedIsParked(e: Engine, o: OpId, s: SessionId)
    requires Watched(e, o, s) && Enabled(e, ScansNoMore(o))
    ensures s in e.book.suspended
  {
  }

  /** An expiry pass detaches every session whose connection had been cancelled or abandoned when it
      began, whatever else happens during its scan. */
  lemma ExpiryDetachesTheSevered(config: Config, task: L.TaskId, steps: seq<Step>, o: OpId, now: nat, more: seq<Step>)
    requires config.Accepted() && AllEnabled(Opening(config, task), steps)
    ensures Detaches(Run(Opening(config, task), steps), o, now, more)
  {
    hide Inv, Enabled, Next, Watched, Severed, IsExpiring;
    Reached(config, task, steps);
    var e := Run(Opening(config, task), steps);
    var k := Next(e, Commits(o, now));
    if IsExpiring(e, o) && Enabled(e, Commits(o, now)) && AllEnabled(k, more) && ScansNoMore(o) !in more
       && Enabled(Run(k, more), ScansNoMore(o)) {
      PassBegins(e, o, now);
      StepKeepsInv(e, Commits(o, now));
      forall s | Severed(e, s) ensures s in Run(k, more).book.suspended {
        RunWatches(k, more, o, s);
        WatchedIsParked(Run(k, more), o, s);
      }
    }
  }

  /** The pass `o` will close nobody but of these. */
  predicate Confined(e: Engine, o: OpId, who: set<SessionId>) {
    Clears(e, o) && (e.ops[o].stage.Culling? ==> e.ops[o].stage.todo <= who)
  }

  lemma StepConfines(e: Engine, step: Step, o: OpId, who: set<SessionId>)
    requires Inv(e) && Enabled(e, step) && Confined(e, o, who) && step != Finishes(o)
    ensures Confined(Next(e, step), o, who)
    ensures step.Culls? && step.o == o ==> step.s in who
  {
    hide Core, Locks, Tails, Gates, Serving, Enqueuing, Named, Owing, Dequeued, Calms, Purged, Closing, Snapped;
    hide Returning, Doubts, HN.Spread, H.Next, H.Enabled, M.Next, M.Enabled, S.Book.Overdue, S.Book.Register;
    hide Engine.Commit, Engine.Scan, Engine.Cull, Engine.Enqueue, Engine.Settled, Engine.Queued, Engine.Popped;
    if step.Culls? && step.o == o { CulledIsKnown(e, o, step.s); CullCloses(e, o, step.s); }
    else if step != CullsNoMore(o) { KeepsStage(e, step, o); }
  }

  /** No session is closed by the pass but those it found overdue. */
  ghost predicate Spares(e: Engine, o: OpId, more: seq<Step>) {
    Enabled(e, ScansNoMore(o)) && AllEnabled(Next(e, ScansNoMore(o)), more) && Finishes(o) !in more ==>
      forall i :: 0 <= i < |more| && more[i].Culls? && more[i].o == o ==> more[i].s in Found(e, o)
  }

  lemma {:induction false} RunConfines(e: Engine, steps: seq<Step>, o: OpId, who: set<SessionId>)
    requires Inv(e) && AllEnabled(e, steps) && Finishes(o) !in steps && Confined(e, o, who)
    ensures forall i :: 0 <= i < |steps| && steps[i].Culls? && steps[i].o == o ==> steps[i].s in who
    decreases |steps|
  {
    hide Inv, Enabled, Next, Confined;
    if steps != [] {
      StepConfines(e, steps[0], o, who);
      StepKeepsInv(e, steps[0]);
      RunConfines(Next(e, steps[0]), steps[1..], o, who);
      assert forall i :: 0 <= i < |steps| - 1 ==> steps[1..][i] == steps[i + 1];
    }
  }

  lemma ScanConfines(e: Engine, o: OpId)
    requires Inv(e) && Enabled(e, ScansNoMore(o))
    ensures Confined(Next(e, ScansNoMore(o)), o, Found(e, o))
  {
    hide Core, Locks, Gates, Serving, Enqueuing, Named, Owing, Dequeued, Calms, Purged, Closing, Snapped, Returning;
    hide Doubts, HN.Spread;
    assert TailOk(e.ops[o]);
  }

  /** An expiry pass closes nobody whose time was not up when its scan was over. */
  lemma ExpirySparesTheOthers(config: Config, task: L.TaskId, steps: seq<Step>, o: OpId, more: seq<Step>)
    requires config.Accepted() && AllEnabled(Opening(config, task), steps)
    ensures Spares(Run(Opening(config, task), steps), o, more)
  {
    hide Inv, Enabled, Next, Confined, Found;
    Reached(config, task, steps);
    var e := Run(Opening(config, task), steps);
    if Enabled(e, ScansNoMore(o)) && AllEnabled(Next(e, ScansNoMore(o)), more) && Finishes(o) !in more {
      ScanConfines(e, o);
      StepKeepsInv(e, ScansNoMore(o));
      RunConfines(Next(e, ScansNoMore(o)), more, o, Found(e, o));
    }
  }
}
