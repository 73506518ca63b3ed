/** When a game that hears of a player's loss twice has heard of its return in between. */
module EngineLosses {
  import opened Types
  import opened EngineSystem
  import opened EngineLocks
  import opened EngineCore
  import opened EngineDuties
  import opened EngineNotices
  import opened EngineGhosts
  import opened EngineRoutes
  import opened EngineBeliefs
  import opened EngineRuns
  import R = Rooms
  import L = RoomManagers
  import H = RoomSystem
  import HC = RoomCopies
  import HR = RoomRoutes
  import HN = RoomNotices
  import HX = RoomRuns
  import HL = RoomLosses
  import M = Matchmakers
  import S = SessionManagers

  // ----- what every trace shows ------------------------------------------------------

  /** Two losses have the return between them, or the player's being taken out while its loss is
      believed in; and the first is always so exactly if whoever was taken out like that is
      reported back before it is lost again. */
  ghost predicate Answered(trace: seq<R.GameEvent>, s: SessionId) {
    && (forall i, j :: 0 <= i < j < |trace| && trace[i] == R.Disconnected(s) && trace[j] == R.Disconnected(s) ==>
          HL.Back(trace, i, j, s) || exists k :: i < k < j && HL.TakenOut(trace, k, s))
    && (HL.Returns(trace, s) <==>
          forall k, j :: 0 <= k < j < |trace| && HL.TakenOut(trace, k, s) && trace[j] == R.Disconnected(s) ==>
              HL.Back(trace, k, j, s))
  }

  ghost predicate AnsweredIn(h: H.Hall, r: RoomId, s: SessionId) { r in h.rooms ==> Answered(h.rooms[r].trace, s) }

  lemma TraceAnswers(h: H.Hall, r: RoomId, s: SessionId)
    requires HX.Inv(h) && r in h.rooms
    ensures Answered(h.rooms[r].trace, s)
  {
    hide HC.JobOk, HC.Copies, HC.Ledgered, HR.Told, HN.Spoken, HN.Paced, HN.Alternates, HL.Back, HL.TakenOut;
    hide HL.Returns, R.FromMembers, R.EntersOnce;
    var trace := h.rooms[r].trace;
    assert R.TraceOk(h.rooms[r]) && HN.Alternates(trace);
    HL.ReturnsExactly(trace, s);
    forall i, j | 0 <= i < j < |trace| && trace[i] == R.Disconnected(s) && trace[j] == R.Disconnected(s)
      ensures HL.Back(trace, i, j, s) || exists k :: i < k < j && HL.TakenOut(trace, k, s)
    {
      HL.BetweenTwoLosses(trace, i, j, s);
    }
  }

  lemma LossesAlternate(config: Config, task: L.TaskId, steps: seq<Step>, r: RoomId, s: SessionId)
    requires config.Accepted() && AllEnabled(Opening(config, task), steps)
    ensures AnsweredIn(Run(Opening(config, task), steps).hall, r, s)
  {
    hide Inv, Next, Enabled, Answered, HX.Inv;
    Reached(config, task, steps);
    InvGround(Run(Opening(config, task), steps));
    var h := Run(Opening(config, task), steps).hall;
    if r in h.rooms { TraceAnswers(h, r, s); }
  }

  // ----- requests to leave -----------------------------------------------------------

  /** If this is the room manager taking up a request that `s` leave `r`, the room does not
      believe that the connection of `s` is lost. `State::leave` does not check that. */
  ghost predicate InTime(e: Engine, step: Step, s: SessionId, r: RoomId) {
    match step
    case Asks(_, command) => HL.LeavesInTime(e.hall, command, s, r)
    case HallMoves(move) => HL.LeavesInTime(e.hall, move, s, r)
    case _ => true
  }

  ghost predicate AllInTime(e: Engine, steps: seq<Step>, s: SessionId, r: RoomId)
    decreases |steps|
  {
    steps == [] || (InTime(e, steps[0], s, r) && AllInTime(Next(e, steps[0]), steps[1..], s, r))
  }

  ghost predicate Good(h: H.Hall, s: SessionId, r: RoomId) { HL.Faithful(h, s, r) && HL.Gentle(h, s, r) }

  lemma SameRoomsGood(e: Engine, k: Engine, s: SessionId, r: RoomId)
    requires Good(e.hall, s, r) && k.hall.rooms == e.hall.rooms && k.hall.job == e.hall.job
    requires StaysClosed(e, k) && e.hall.clients.Keys <= k.hall.clients.Keys
    ensures Good(k.hall, s, r)
  {
    hide HL.Settled, HL.Leaving, HN.CalmIn;
    HL.UntouchedFaithful(e.hall, k.hall, s, r);
    HN.RoomsCalm(e.hall, k.hall);
  }

  /** The session of an eviction is closed. */
  lemma NobodyOrphaned(e: Engine, move: H.Step, s: SessionId, r: RoomId)
    requires Inv(e) && HL.Gentle(e.hall, s, r)
    ensures !HL.Orphans(e.hall, move, s, r)
  {
    hide Core, Locks, Tails, Gates, Serving, Enqueuing, Named, Owing, Dequeued, Calms, Purged, Closing, Snapped;
    hide Returning, Doubts, HN.Spread, HL.Gentle, HL.Orphans, HX.Inv, M.Queue.Inv;
    CoreParts(e);
    HallKnows(e.hall);
    if HL.Orphans(e.hall, move, s, r) {
      HL.OnlyEvictionsOrphan(e.hall, move, s, r);
      OrphanedByEviction(e.hall, move, s, r);
      EvictionOwed(e, s);
    }
  }

  lemma OrphanedByEviction(h: H.Hall, move: H.Step, s: SessionId, r: RoomId)
    requires HL.Orphans(h, move, s, r) && h.job.next.Visiting? && h.job.next.all
    ensures KindOf(h.job) == Eviction(s) && !(s in h.clients && h.clients[s].closed)
  {
    hide R.Down;
  }

  lemma HallKeepsGood(e: Engine, move: H.Step, s: SessionId, r: RoomId)
    requires Inv(e) && Good(e.hall, s, r) && HX.Orderly(e.hall, move) && HL.LeavesInTime(e.hall, move, s, r)
    ensures Good(H.Next(e.hall, move), s, r)
  {
    hide Inv, HL.Faithful, HL.Gentle, HL.Orphans, HL.LeavesInTime, HX.Sound, HN.Paced, HN.Alternating, HN.Calm;
    hide H.Next, H.Enabled;
    InvGround(e);
    NobodyOrphaned(e, move, s, r);
    HL.StepKeepsFaithful(e.hall, move, s, r);
    HL.StepKeepsGentle(e.hall, move, s, r);
  }

  lemma AskKeepsGood(e: Engine, o: OpId, command: H.Step, s: SessionId, r: RoomId)
    requires Inv(e) && Enabled(e, Asks(o, command)) && Good(e.hall, s, r) && HL.LeavesInTime(e.hall, command, s, r)
    ensures Good(Next(e, Asks(o, command)).hall, s, r)
  {
    hide Inv, Core, Locks, Tails, Calms, Owing, Named, Serving, Good, HL.LeavesInTime, H.Next, H.Enabled, HX.Orderly;
    InvParts(e);
    AsksInOrder(e, o, command);
    HallKeepsGood(e, command, s, r);
    SettledHall(e.(hall := H.Next(e.hall, command), book := e.book.(clients := H.Next(e.hall, command).clients),
        serving := Some(o)));
  }

  lemma MoveKeepsGood(e: Engine, move: H.Step, s: SessionId, r: RoomId)
    requires Inv(e) && Enabled(e, HallMoves(move)) && Good(e.hall, s, r) && HL.LeavesInTime(e.hall, move, s, r)
    ensures Good(Next(e, HallMoves(move)).hall, s, r)
  {
    hide Inv, Good, HL.LeavesInTime, H.Next, H.Enabled, HN.Calm;
    HallKeepsGood(e, move, s, r);
    SettledHall(e.(hall := H.Next(e.hall, move), book := e.book.(clients := H.Next(e.hall, move).clients)));
  }

  lemma RegisterKeepsGood(e: Engine, step: Step, s: SessionId, r: RoomId)
    requires Inv(e) && Enabled(e, step) && step.Registers? && Good(e.hall, s, r)
    ensures Good(Next(e, step).hall, s, r)
  {
    hide Inv, Good, S.Book.Register, H.Next;
    if Next(e, step).hall != e.hall { HallKeepsGood(e, H.Arrives(step.s, step.client), s, r); }
  }

  lemma GrowingRooms(e: Engine, step: Step)
    requires Enabled(e, step) && Growing(step)
    ensures Next(e, step).hall.rooms == e.hall.rooms && Next(e, step).hall.job == e.hall.job
  {
    hide Engine.Commit, Engine.Scan, Engine.Cull;
    match step
    case Commits(o, now) => GrowthIsApart(e, o, now, 0); CommitAlone(e, o, now);
    case Scans(o, s) => GrowthIsApart(e, o, 0, s); PassAlone(e, o, s);
    case Culls(o, s) => GrowthIsApart(e, o, 0, s); PassAlone(e, o, s);
    case _ =>
  }

  lemma GrowingKeepsGood(e: Engine, step: Step, s: SessionId, r: RoomId)
    requires Inv(e) && Enabled(e, step) && Growing(step) && Good(e.hall, s, r)
    ensures Good(Next(e, step).hall, s, r)
  {
    hide Inv, Core, Locks, Tails, Calms, Owing, Named, Serving, Good, StaysClosed, Next, Enabled;
    InvParts(e);
    GrowingRooms(e, step);
    ClosedStays(e, step);
    NobodyForgotten(e, step);
    SameRoomsGood(e, Next(e, step), s, r);
  }

  lemma StepKeepsGood(e: Engine, step: Step, s: SessionId, r: RoomId)
    requires Inv(e) && Enabled(e, step) && Good(e.hall, s, r) && InTime(e, step, s, r)
    ensures Good(Next(e, step).hall, s, r)
  {
    hide Inv, Good, H.Next, H.Enabled, M.Next, M.Enabled, M.Queue.TakeJoin, M.Queue.TakeLeave, S.Book.Overdue;
    hide S.Book.Register;
    hide HL.LeavesInTime, Engine.Commit, Engine.Scan, Engine.Cull, Engine.Settled;
    match step
    case Asks(o, command) => AskKeepsGood(e, o, command, s, r);
    case HallMoves(move) => MoveKeepsGood(e, move, s, r);
    case Registers(_, _, _, _) => RegisterKeepsGood(e, step, s, r);
    case Commits(_, _) => GrowingKeepsGood(e, step, s, r);
    case Scans(_, _) => GrowingKeepsGood(e, step, s, r);
    case Culls(_, _) => GrowingKeepsGood(e, step, s, r);
    case _ =>
  }

  lemma {:induction false} RunKeepsGood(e: Engine, steps: seq<Step>, s: SessionId, r: RoomId)
    requires Inv(e) && AllEnabled(e, steps) && Good(e.hall, s, r) && AllInTime(e, steps, s, r)
    ensures Good(Run(e, steps).hall, s, r)
    decreases |steps|
  {
    hide Inv, Enabled, Next, Good, InTime;
    if steps != [] {
      StepKeepsInv(e, steps[0]);
      StepKeepsGood(e, steps[0], s, r);
      RunKeepsGood(Next(e, steps[0]), steps[1..], s, r);
    }
  }

  ghost predicate Ruled(h: H.Hall, s: SessionId, r: RoomId) { r in h.rooms ==> HL.Returns(h.rooms[r].trace, s) }

  lemma GoodReturns(h: H.Hall, s: SessionId, r: RoomId)
    requires Good(h, s, r)
    ensures Ruled(h, s, r)
  {
    hide HL.Gentle, HL.Returns;
  }

  lemma OpeningIsGood(config: Config, task: L.TaskId, s: SessionId, r: RoomId)
    ensures Good(Opening(config, task).hall, s, r)
  {
  }

  /** In every run in which the requests that a player leave a room all come in time, two losses
      of that player in that room always have its return between them. */
  lemma ReturnsInEveryRun(config: Config, task: L.TaskId, steps: seq<Step>, s: SessionId, r: RoomId)
    requires config.Accepted() && AllEnabled(Opening(config, task), steps)
    requires AllInTime(Opening(config, task), steps, s, r)
    ensures Ruled(Run(Opening(config, task), steps).hall, s, r)
  {
    hide Inv, Enabled, Next, Good, InTime, Ruled;
    OpeningHolds(config, task);
    OpeningIsGood(config, task, s, r);
    RunKeepsGood(Opening(config, task), steps, s, r);
    GoodReturns(Run(Opening(config, task), steps).hall, s, r);
  }

  /** A request comes in time if the session is connected and its return is not still to be told. */
  lemma ConnectedLeaveInTime(e: Engine, s: SessionId, r: RoomId)
    requires Inv(e) && s in e.hall.clients && e.hall.clients[s].transport.Some? && Tell(s, true) !in e.Duties()
    ensures HN.CalmIn(e.hall, s, r)
  {
    hide Core, Locks, Tails, Gates, Serving, Enqueuing, Named, Owing, Dequeued, Purged, Closing, Snapped, Returning;
    hide Doubts, HN.Spread, HN.CalmIn;
    assert !MayDoubt(e, s);
  }

  // ----- a room that is left by its last member --------------------------------------

  lemma GrowingDooms(e: Engine, step: Step, s: SessionId, r: RoomId)
    requires Inv(e) && Enabled(e, step) && Growing(step) && HL.Doomed(e.hall, s, r)
    ensures HL.Doomed(Next(e, step).hall, s, r)
  {
    hide Inv, Core, Locks, Tails, Calms, Owing, Named, Serving, HL.Returns, Engine.Commit, Engine.Scan, Engine.Cull;
    InvParts(e);
    GrowingRooms(e, step);
    match step
    case Commits(o, now) => GrowthIsApart(e, o, now, 0);
    case Scans(o, x) => GrowthIsApart(e, o, 0, x);
    case Culls(o, x) => GrowthIsApart(e, o, 0, x);
    case _ =>
  }

  lemma StepDooms(e: Engine, step: Step, s: SessionId, r: RoomId)
    requires Inv(e) && Enabled(e, step) && HL.Doomed(e.hall, s, r)
    ensures HL.Doomed(Next(e, step).hall, s, r)
  {
    hide Inv, HX.Sound, HL.Doomed, H.Next, H.Enabled, M.Next, M.Enabled, M.Queue.TakeJoin, M.Queue.TakeLeave;
    hide S.Book.Overdue, S.Book.Register;
    hide Engine.Commit, Engine.Scan, Engine.Cull, Engine.Settled;
    InvGround(e);
    match step
    case Asks(o, command) =>
      HL.StepDooms(e.hall, command, s, r);
      SettledHall(e.(hall := H.Next(e.hall, command), book := e.book.(clients := H.Next(e.hall, command).clients),
          serving := Some(o)));
    case HallMoves(move) =>
      HL.StepDooms(e.hall, move, s, r);
      SettledHall(e.(hall := H.Next(e.hall, move), book := e.book.(clients := H.Next(e.hall, move).clients)));
    case Registers(_, _, _, _) => RegisterDooms(e, step, s, r);
    case Commits(_, _) => GrowingDooms(e, step, s, r);
    case Scans(_, _) => GrowingDooms(e, step, s, r);
    case Culls(_, _) => GrowingDooms(e, step, s, r);
    case _ =>
  }

  lemma RegisterDooms(e: Engine, step: Step, s: SessionId, r: RoomId)
    requires Inv(e) && Enabled(e, step) && step.Registers? && HL.Doomed(e.hall, s, r)
    ensures HL.Doomed(Next(e, step).hall, s, r)
  {
    hide Inv, HX.Sound, HL.Doomed, H.Next, S.Book.Register;
    InvGround(e);
    if Next(e, step).hall != e.hall { HL.StepDooms(e.hall, H.Arrives(step.s, step.client), s, r); }
  }

  lemma {:induction false} RunDooms(e: Engine, steps: seq<Step>, s: SessionId, r: RoomId)
    requires Inv(e) && AllEnabled(e, steps) && HL.Doomed(e.hall, s, r)
    ensures Ruled(Run(e, steps).hall, s, r)
    decreases |steps|
  {
    hide Inv, Enabled, Next, HL.Returns, HL.LastOneLeaves;
    if steps != [] {
      StepKeepsInv(e, steps[0]);
      StepDooms(e, steps[0], s, r);
      RunDooms(Next(e, steps[0]), steps[1..], s, r);
    }
  }
}
