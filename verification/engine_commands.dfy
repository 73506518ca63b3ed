/** What the transport commands of a session have done when they are over, told by the state of
    the match queue and by the commands the managers have taken. */
module EngineCommands {
  import opened Types
  import opened EngineSystem
  import opened EngineLocks
  import opened EngineCore
  import opened EngineDuties
  import opened EngineNotices
  import opened EngineGhosts
  import opened EngineRoutes
  import opened EngineBeliefs
  import opened EngineRuns
  import L = RoomManagers
  import C = Clients
  import R = Rooms
  import H = RoomSystem
  import HX = RoomRuns
  import HN = RoomNotices
  import M = Matchmakers
  import S = SessionManagers

  // ----- what is promised ------------------------------------------------------------

  /** By this step a manager takes a command of the operation. */
  predicate By(step: Step, o: OpId) { step == Unqueues(o) || step == Enqueues(o) || (step.Asks? && step.o == o) }

  /** The managers take commands of the operation at these moments and at no others. */
  predicate Only(steps: seq<Step>, o: OpId, at: seq<nat>) {
    && (forall i :: 0 <= i < |steps| && By(steps[i], o) ==> i in at)
    && (forall i :: i in at ==> i < |steps| && By(steps[i], o))
  }

  /** The operation is not refused anything, and is still there. */
  predicate Unhindered(steps: seq<Step>, o: OpId) { IsDenied(o) !in steps && Finishes(o) !in steps }

  ghost function At(e: Engine, steps: seq<Step>, i: nat): Engine
    requires i <= |steps|
  {
    Run(e, steps[..i])
  }

  ghost predicate Unqueued(e: Engine, s: SessionId) { s !in e.queue.Footprint() }

  /** Neither the manager's record nor the running room has `s` in it. */
  predicate OutOf(e: Engine, s: SessionId, r: RoomId) {
    (s, r) !in e.hall.ledger.links && (e.hall.Runs(r) ==> !e.hall.Member(s, r))
  }

  predicate AsksToCreate(step: Step, o: OpId, s: SessionId, capacity: nat) {
    && step.Asks? && step.o == o && step.command.TakeCreate?
    && step.command.group == [s] && step.command.capacity == capacity
  }

  /** The matchmaker has taken the join of `s`. */
  ghost predicate Enlists(e: Engine, k: Engine, s: SessionId) {
    e.queue.phase.Resting? && k.queue == e.queue.TakeJoin(s, e.Of(s).IsClosed())
  }

  /** If it asks the room manager about `s` first, it has an answer and has decided. */
  ghost predicate Replied(e: Engine, steps: seq<Step>, i: nat, s: SessionId)
    requires i <= |steps|
  {
    At(e, steps, i).queue.phase == M.Asking(s) ==>
      exists j :: i <= j < |steps| && steps[j].QueueMoves? && steps[j].turn.JoinAnswered?
                  && At(e, steps, j).queue.phase == M.Asking(s)
  }

  predicate Enters(step: Step, o: OpId) {
    step.Asks? && step.o == o && (step.command.TakeCreate? || step.command.TakeJoin?)
  }

  /** Before the room manager takes a create or a join of the operation, `s` has been out of the
      match queue. */
  ghost predicate Cautious(e: Engine, steps: seq<Step>, o: OpId, s: SessionId) {
    forall j :: 0 <= j < |steps| && Enters(steps[j], o) ==> exists i :: 0 <= i <= j && Unqueued(At(e, steps, i), s)
  }

  /** What has happened when the command of `s` is over. */
  ghost predicate CarriedOut(e: Engine, steps: seq<Step>, o: OpId, s: SessionId, operation: Operation) {
    match operation
    case Creating(capacity) =>
      exists i, j :: 0 <= i < j < |steps| && Only(steps, o, [i, j]) && Unqueued(At(e, steps, i + 1), s)
                     && AsksToCreate(steps[j], o, s, capacity)
    case Joining(room) =>
      exists i, j :: 0 <= i < j < |steps| && Only(steps, o, [i, j]) && Unqueued(At(e, steps, i + 1), s)
                     && steps[j] == Asks(o, H.TakeJoin(s, room))
    case Leaving(room) =>
      exists i, j :: 0 <= i < |steps| && i < j <= |steps| && Only(steps, o, [i]) && OutOf(At(e, steps, j), s, room)
                     && steps[i] == Asks(o, H.TakeLeave(s, room))
    case Queueing =>
      exists i :: 0 <= i < |steps| && Only(steps, o, [i]) && Enlists(At(e, steps, i), At(e, steps, i + 1), s)
                  && Replied(e, steps, i + 1, s)
    case Cancelling =>
      exists i :: 0 <= i < |steps| && Only(steps, o, [i]) && Unqueued(At(e, steps, i + 1), s)
  }

  // ----- one command after the other ---------------------------------------------------

  /** A transport command that is being carried out. */
  predicate Underway(e: Engine, o: OpId) { o in e.ops && e.ops[o].program.Controlling? && e.ops[o].stage.Sending? }

  /** The operation waits for a manager. */
  predicate Waits(e: Engine, o: OpId) { e.serving == Some(o) || e.joining == Some(o) }

  /** What no manager has taken yet. */
  function Pending(e: Engine, o: OpId): seq<Msg> {
    if o !in e.ops || e.ops[o].tail == [] then []
    else if Waits(e, o) then e.ops[o].tail[1..] else e.ops[o].tail
  }

  /** By this step a manager takes `m`. */
  ghost predicate Serves(e: Engine, k: Engine, step: Step, o: OpId, m: Msg) {
    match m
    case Unqueue(s) => step == Unqueues(o) && Unqueued(k, s)
    case Enqueue(s) => step == Enqueues(o) && Enlists(e, k, s)
    case _ => step.Asks? && step.o == o && Takes(m, step.command)
  }

  /** The first command of the operation has been answered. */
  predicate Answered(e: Engine, k: Engine, o: OpId) {
    o in e.ops && e.ops[o].tail != [] && o in k.ops && k.ops[o] == e.ops[o].(tail := e.ops[o].tail[1..]) && !Waits(k, o)
  }

  /** It is as it was. */
  predicate Unmoved(e: Engine, k: Engine, o: OpId) {
    o in e.ops && o in k.ops && k.ops[o] == e.ops[o] && (Waits(k, o) <==> Waits(e, o))
  }

  /** A manager is now busy with its first command. */
  predicate Begun(e: Engine, k: Engine, o: OpId) { o in e.ops && o in k.ops && k.ops[o] == e.ops[o] && Waits(k, o) }

  lemma AnsweredPends(e: Engine, k: Engine, o: OpId)
    ensures Answered(e, k, o) ==>
            Pending(k, o) == if Waits(e, o) then Pending(e, o) else Pending(e, o)[1..]
    ensures Unmoved(e, k, o) ==> Pending(k, o) == Pending(e, o)
  {
  }

  lemma HallAnswers(e: Engine, k: Engine, o: OpId)
    requires Serving(e) && Enqueuing(e) && Underway(e, o)
    requires k.ops == e.ops && k.joining == e.joining && k.serving == e.serving
    ensures Unmoved(e, k.Settled(), o) || (Waits(e, o) && Answered(e, k.Settled(), o))
  {
  }

  lemma PoppedElse(e: Engine, k: Engine, o: OpId, p: OpId)
    requires o in e.ops && p != o && k.ops == e.ops && k.joining == e.joining && k.serving == e.serving
    ensures Unmoved(e, k.Popped(p), o)
  {
  }

  lemma AskAnswers(e: Engine, k: Engine, o: OpId, p: OpId)
    requires Underway(e, o) && e.serving.None? && p in e.ops && p != o
    requires k.ops == e.ops && k.joining == e.joining && k.serving == e.serving
    ensures Unmoved(e, k.(serving := Some(p)).Settled(), o)
  {
  }

  /** The matchmaker rests only when it asks about nobody. */
  lemma EnqueueAnswers(e: Engine, p: OpId, o: OpId)
    requires Enqueuing(e) && Underway(e, o) && Enabled(e, Enqueues(p)) && p != o
    ensures Unmoved(e, Next(e, Enqueues(p)), o)
  {
  }

  lemma QueueAnswers(e: Engine, turn: M.Step, o: OpId)
    requires Serving(e) && Enqueuing(e) && Underway(e, o)
    ensures Unmoved(e, e.Queued(turn), o) || (Waits(e, o) && Answered(e, e.Queued(turn), o))
  {
    hide M.Next;
  }

  lemma LockAnswers(e: Engine, step: Step, o: OpId)
    requires Underway(e, o) && Enabled(e, step) && step != Finishes(o)
    requires step.Starts? || step.LocksGate? || step.LocksLife? || step.ScansNoMore? || step.CullsNoMore?
            || step.Finishes? || step.GivesUp?
    ensures Unmoved(e, Next(e, step), o)
  {
    hide S.Book.Overdue;
  }

  lemma GrowthAnswers(e: Engine, step: Step, o: OpId)
    requires Underway(e, o) && Enabled(e, step) && (step.Commits? || step.Scans? || step.Culls?)
    ensures Unmoved(e, Next(e, step), o)
  {
    hide Engine.Commit, Engine.Scan, Engine.Cull;
    match step
    case Commits(p, now) => CommitAlone(e, p, now);
    case Scans(p, s) => PassAlone(e, p, s);
    case Culls(p, s) => PassAlone(e, p, s);
  }

  lemma DeniedElse(e: Engine, p: OpId, o: OpId)
    requires Underway(e, o) && p != o
    ensures Unmoved(e, e.Denied(p), o)
  {
  }

  lemma SameAnswers(e: Engine, k: Engine, o: OpId)
    requires Underway(e, o) && k.ops == e.ops && k.joining == e.joining && k.serving == e.serving
    ensures Unmoved(e, k, o)
  {
  }

  /** Nobody but the managers answers an operation, and only one that waits for them. */
  lemma OthersAnswer(e: Engine, step: Step, o: OpId)
    requires Serving(e) && Enqueuing(e) && Underway(e, o) && Enabled(e, step)
    requires !By(step, o) && step != IsDenied(o) && step != Finishes(o)
    ensures Unmoved(e, Next(e, step), o) || (Waits(e, o) && Answered(e, Next(e, step), o))
  {
    hide S.Book.Register, H.Next, H.Enabled, M.Next, M.Enabled, M.Queue.TakeJoin, M.Queue.TakeLeave, S.Book.Overdue;
    hide Engine.Commit, Engine.Scan, Engine.Cull, Engine.Settled, Engine.Queued, Engine.Popped, Engine.Enqueue;
    hide Engine.Denied, Engine.Without, Serving, Enqueuing, Unmoved, Answered, Waits;
    match step
    case Unqueues(p) => PoppedElse(e, e.(queue := e.queue.TakeLeave(e.ops[p].tail[0].s)), o, p);
    case Enqueues(p) => EnqueueAnswers(e, p, o);
    case Asks(p, command) =>
      AskAnswers(e, e.(hall := H.Next(e.hall, command), book := e.book.(clients := H.Next(e.hall, command).clients)),
                 o, p);
    case IsDenied(p) => DeniedElse(e, p, o);
    case Registers(s, principal, client, proof) => SameAnswers(e, Next(e, step), o);
    case HallMoves(move) =>
      HallAnswers(e, e.(hall := H.Next(e.hall, move), book := e.book.(clients := H.Next(e.hall, move).clients)), o);
    case QueueMoves(turn) => QueueAnswers(e, turn, o);
    case Commits(_, _) => GrowthAnswers(e, step, o);
    case Scans(_, _) => GrowthAnswers(e, step, o);
    case Culls(_, _) => GrowthAnswers(e, step, o);
    case _ => LockAnswers(e, step, o);
  }

  lemma UnqueueTakes(e: Engine, o: OpId)
    requires Underway(e, o) && Enabled(e, Unqueues(o))
    ensures Serves(e, Next(e, Unqueues(o)), Unqueues(o), o, e.ops[o].tail[0])
    ensures Answered(e, Next(e, Unqueues(o)), o)
  {
    hide M.Queue.TakeLeave, M.Queue.Footprint;
    M.LeaveFootprint(e.queue, e.ops[o].tail[0].s);
  }

  lemma EnqueueTakes(e: Engine, o: OpId)
    requires Underway(e, o) && Enabled(e, Enqueues(o))
    ensures Serves(e, Next(e, Enqueues(o)), Enqueues(o), o, e.ops[o].tail[0])
    ensures Answered(e, Next(e, Enqueues(o)), o) || Begun(e, Next(e, Enqueues(o)), o)
  {
    hide M.Queue.TakeJoin;
  }

  lemma AskTakes(e: Engine, o: OpId, command: H.Step)
    requires Underway(e, o) && Enabled(e, Asks(o, command))
    ensures Serves(e, Next(e, Asks(o, command)), Asks(o, command), o, e.ops[o].tail[0])
    ensures Answered(e, Next(e, Asks(o, command)), o) || Begun(e, Next(e, Asks(o, command)), o)
  {
    hide H.Next, H.Enabled;
    AskKind(e.hall, e.ops[o].tail[0], command);
  }

  /** A step of the managers takes what is next, and only that. */
  lemma TakesNext(e: Engine, step: Step, o: OpId)
    requires Underway(e, o) && Enabled(e, step) && By(step, o)
    ensures Pending(e, o) != [] && Serves(e, Next(e, step), step, o, Pending(e, o)[0])
    ensures Pending(Next(e, step), o) == Pending(e, o)[1..] && Underway(Next(e, step), o)
  {
    hide H.Next, H.Enabled, M.Queue.TakeJoin, M.Queue.TakeLeave, Next, Serves;
    match step
    case Unqueues(_) => UnqueueTakes(e, o);
    case Enqueues(_) => EnqueueTakes(e, o);
    case Asks(_, command) => AskTakes(e, o, command);
  }

  lemma DeniedPends(e: Engine, o: OpId)
    requires Underway(e, o) && Enabled(e, IsDenied(o))
    ensures Underway(Next(e, IsDenied(o)), o) && Pending(Next(e, IsDenied(o)), o) == []
  {
  }

  /** A refusal leaves nothing to be taken, a manager's step one command less, and any other step as
      much as before. */
  lemma Onwards(e: Engine, step: Step, o: OpId)
    requires Inv(e) && Underway(e, o) && Enabled(e, step) && step != Finishes(o)
    ensures Underway(Next(e, step), o)
    ensures if By(step, o) then Pending(e, o) != [] && Serves(e, Next(e, step), step, o, Pending(e, o)[0])
                                && Pending(Next(e, step), o) == Pending(e, o)[1..]
            else Pending(Next(e, step), o) == if step == IsDenied(o) then [] else Pending(e, o)
  {
    hide Core, Locks, Tails, Gates, Serving, Enqueuing, Named, Owing, Dequeued, Calms, Purged, Closing, Snapped;
    hide Returning, HN.Spread, Doubts, Enabled, Next, Serves;
    if By(step, o) {
      TakesNext(e, step, o);
    } else if step == IsDenied(o) {
      DeniedPends(e, o);
    } else {
      OthersAnswer(e, step, o);
      AnsweredPends(e, Next(e, step), o);
    }
  }

  lemma AtNext(e: Engine, steps: seq<Step>, i: nat)
    requires 0 < i <= |steps|
    ensures At(e, steps, i) == At(Next(e, steps[0]), steps[1..], i - 1)
  {
    hide Next;
    assert steps[..i][1..] == steps[1..][..i - 1];
  }

  /** What the managers take are the first of these, one after the other, and nothing else. */
  ghost predicate Taken(e: Engine, steps: seq<Step>, o: OpId, at: seq<nat>, tail: seq<Msg>) {
    && |at| <= |tail| && Only(steps, o, at) && (forall i, j :: 0 <= i < j < |at| ==> at[i] < at[j])
    && forall i :: 0 <= i < |at| ==>
         at[i] < |steps| && Serves(At(e, steps, at[i]), At(e, steps, at[i] + 1), steps[at[i]], o, tail[i])
  }

  function Later(at: seq<nat>): (r: seq<nat>)
    ensures |r| == |at| && forall i :: 0 <= i < |at| ==> r[i] == at[i] + 1
  {
    seq(|at|, i requires 0 <= i < |at| => at[i] + 1)
  }

  lemma LaterServes(e: Engine, steps: seq<Step>, o: OpId, i: nat, m: Msg)
    requires i + 1 < |steps|
    ensures Serves(At(Next(e, steps[0]), steps[1..], i), At(Next(e, steps[0]), steps[1..], i + 1), steps[i + 1], o, m)
            ==> Serves(At(e, steps, i + 1), At(e, steps, i + 2), steps[i + 1], o, m)
  {
    hide At, Serves, Next;
    AtNext(e, steps, i + 1);
    AtNext(e, steps, i + 2);
  }

  lemma LaterOnly(steps: seq<Step>, o: OpId, at: seq<nat>)
    requires steps != [] && Only(steps[1..], o, at)
    ensures Only(steps, o, if By(steps[0], o) then [0] + Later(at) else Later(at))
  {
    hide By;
    var all := if By(steps[0], o) then [0] + Later(at) else Later(at);
    forall i | 0 <= i < |steps| && By(steps[i], o) ensures i in all {
      if i > 0 {
        assert steps[1..][i - 1] == steps[i];
        var j :| 0 <= j < |at| && at[j] == i - 1;
        assert Later(at)[j] == i;
      }
    }
    forall i | i in all ensures i < |steps| && By(steps[i], o) {
      if i in Later(at) {
        var j :| 0 <= j < |at| && Later(at)[j] == i;
        assert at[j] in at && steps[1..][at[j]] == steps[i];
      }
    }
  }

  lemma LaterTaken(e: Engine, steps: seq<Step>, o: OpId, at: seq<nat>, tail: seq<Msg>)
    requires steps != [] && !By(steps[0], o) && Taken(Next(e, steps[0]), steps[1..], o, at, tail)
    ensures Taken(e, steps, o, Later(at), tail)
  {
    hide At, Serves, Next, By, Only;
    LaterOnly(steps, o, at);
    forall i | 0 <= i < |at|
      ensures Later(at)[i] < |steps|
      ensures Serves(At(e, steps, Later(at)[i]), At(e, steps, Later(at)[i] + 1), steps[Later(at)[i]], o, tail[i])
    {
      LaterServes(e, steps, o, at[i], tail[i]);
    }
  }

  lemma FirstTaken(e: Engine, steps: seq<Step>, o: OpId, at: seq<nat>, m: Msg, tail: seq<Msg>)
    requires steps != [] && By(steps[0], o) && Serves(e, Next(e, steps[0]), steps[0], o, m)
    requires Taken(Next(e, steps[0]), steps[1..], o, at, tail)
    ensures Taken(e, steps, o, [0] + Later(at), [m] + tail)
  {
    hide At, Serves, Next, By, Only;
    LaterOnly(steps, o, at);
    assert At(e, steps, 0) == e && At(e, steps, 1) == Next(e, steps[0]) by { StartsAt(e, steps); }
    var all := [0] + Later(at);
    forall i | 0 <= i < |all|
      ensures all[i] < |steps|
      ensures Serves(At(e, steps, all[i]), At(e, steps, all[i] + 1), steps[all[i]], o, ([m] + tail)[i])
    {
      if i > 0 { LaterServes(e, steps, o, at[i - 1], tail[i - 1]); }
    }
  }

  lemma StartsAt(e: Engine, steps: seq<Step>)
    requires steps != []
    ensures At(e, steps, 0) == e && At(e, steps, 1) == Next(e, steps[0])
  {
    hide Next;
    AtNext(e, steps, 1);
  }

  lemma NothingPends(e: Engine, o: OpId)
    ensures Taken(e, [], o, [], Pending(e, o)) && (HasSent(e, o) ==> Pending(e, o) == [])
  {
  }

  lemma NoneTaken(e: Engine, steps: seq<Step>, o: OpId, at: seq<nat>, tail: seq<Msg>)
    ensures Taken(e, steps, o, at, []) ==> Taken(e, steps, o, at, tail)
  {
  }

  lemma {:induction false} AllTaken(e: Engine, steps: seq<Step>, o: OpId) returns (at: seq<nat>)
    requires Inv(e) && AllEnabled(e, steps) && Finishes(o) !in steps && Underway(e, o)
    ensures Taken(e, steps, o, at, Pending(e, o))
    ensures IsDenied(o) !in steps && HasSent(Run(e, steps), o) ==> |at| == |Pending(e, o)|
    decreases |steps|
  {
    hide Inv, Enabled, Next, Taken, Serves;
    if steps == [] {
      at := [];
      NothingPends(e, o);
    } else {
      Onwards(e, steps[0], o);
      StepKeepsInv(e, steps[0]);
      var rest := AllTaken(Next(e, steps[0]), steps[1..], o);
      if By(steps[0], o) {
        var m := Pending(e, o)[0];
        FirstTaken(e, steps, o, rest, m, Pending(e, o)[1..]);
        at := [0] + Later(rest);
        assert [m] + Pending(e, o)[1..] == Pending(e, o);
      } else {
        LaterTaken(e, steps, o, rest, Pending(Next(e, steps[0]), o));
        NoneTaken(e, steps, o, Later(rest), Pending(e, o));
        at := Later(rest);
      }
    }
  }

  // ----- how a leave ends ------------------------------------------------------------

  /** The room manager is taking `s` out of the room, or has just done so. */
  predicate Departs(h: H.Hall, s: SessionId, r: RoomId) {
    match h.job
    case Visiting(x, todo, errand, all) =>
      x == s && errand.Depart? && !all && (todo == {r} || (todo == {} && (s, r) !in h.ledger.links))
    case Waiting(x, room, errand, next) =>
      x == s && room == r && errand.Depart? && next == H.Visiting(s, {}, errand, false)
    case Heard(x, room, errand, _, next) =>
      x == s && room == r && errand.Depart? && next == H.Visiting(s, {}, errand, false)
    case _ => false
  }

  lemma MoveDeparts(h: H.Hall, move: H.Step, s: SessionId, r: RoomId)
    requires Departs(h, s, r) && H.Enabled(h, move)
    ensures Departs(H.Next(h, move), s, r) || (H.Next(h, move).job.Idle? && (s, r) !in H.Next(h, move).ledger.links)
  {
    hide H.Hall.Removed, R.TakeTurn, R.Actor.Join, R.Actor.Leave;
  }

  lemma ArrivalStays(h: H.Hall, s: SessionId, client: C.Client)
    ensures H.Next(h, H.Arrives(s, client)).job == h.job && H.Next(h, H.Arrives(s, client)).ledger == h.ledger
  {
  }

  /** Only the hall's own steps concern the room manager while it serves somebody. */
  lemma OthersStay(e: Engine, step: Step)
    requires Enabled(e, step) && e.serving.Some? && !step.HallMoves?
    ensures Next(e, step).hall.job == e.hall.job && Next(e, step).hall.ledger == e.hall.ledger
    ensures Next(e, step).serving == e.serving
  {
    hide S.Book.Register, S.Book.Overdue, H.Enabled, M.Next, M.Enabled, M.Queue.TakeJoin, M.Queue.TakeLeave, H.Next;
    hide Engine.Commit, Engine.Scan, Engine.Cull;
    match step
    case Registers(s, principal, client, proof) => ArrivalStays(e.hall, s, client);
    case Commits(p, now) => GrowthIsApart(e, p, now, 0); CommitAlone(e, p, now);
    case Scans(p, s) => GrowthIsApart(e, p, 0, s); PassAlone(e, p, s);
    case Culls(p, s) => GrowthIsApart(e, p, 0, s); PassAlone(e, p, s);
    case _ =>
  }

  lemma IdleIsOut(e: Engine, s: SessionId, r: RoomId)
    requires Inv(e) && e.hall.job.Idle? && (s, r) !in e.hall.ledger.links
    ensures OutOf(e, s, r)
  {
    hide Inv, HX.Sound, HX.Inv;
    InvGround(e);
    HX.CopiesInside(e.hall, r);
  }

  lemma MoveEnds(e: Engine, move: H.Step, o: OpId, s: SessionId, r: RoomId)
    requires Underway(e, o) && e.serving == Some(o) && e.ops[o].tail != []
    requires Departs(e.hall, s, r) && Enabled(e, HallMoves(move))
    ensures var k := Next(e, HallMoves(move));
      if k.hall.job.Idle? then (s, r) !in k.hall.ledger.links
      else k.ops == e.ops && k.serving == e.serving && Departs(k.hall, s, r)
  {
    hide H.Next, H.Enabled;
    MoveDeparts(e.hall, move, s, r);
    SettledHall(e.(hall := H.Next(e.hall, move), book := e.book.(clients := H.Next(e.hall, move).clients)));
  }

  /** Before the operation has its answer, the room manager has taken `s` out. */
  lemma {:induction false} LeaveEnds(e: Engine, steps: seq<Step>, o: OpId, s: SessionId, r: RoomId) returns (j: nat)
    requires Inv(e) && AllEnabled(e, steps) && Unhindered(steps, o) && Underway(e, o) && HasSent(Run(e, steps), o)
    requires e.serving == Some(o) && e.ops[o].tail != [] && Departs(e.hall, s, r)
    ensures j <= |steps| && OutOf(At(e, steps, j), s, r)
    decreases |steps|
  {
    hide Inv, Enabled, Next, OutOf, Departs;
    var (step, k) := (steps[0], Next(e, steps[0]));
    StepKeepsInv(e, step);
    Stays(e, step, o, s, r);
    if k.hall.job.Idle? {
      IdleIsOut(k, s, r);
      StartsAt(e, steps);
      j := 1;
    } else {
      var i := LeaveEnds(k, steps[1..], o, s, r);
      AtNext(e, steps, i + 1);
      j := i + 1;
    }
  }

  lemma Stays(e: Engine, step: Step, o: OpId, s: SessionId, r: RoomId)
    requires Inv(e) && Enabled(e, step) && Underway(e, o) && step != IsDenied(o) && step != Finishes(o)
    requires e.serving == Some(o) && e.ops[o].tail != [] && Departs(e.hall, s, r)
    ensures var k := Next(e, step);
      if k.hall.job.Idle? then (s, r) !in k.hall.ledger.links
      else Underway(k, o) && k.serving == e.serving && k.ops[o].tail != [] && Departs(k.hall, s, r)
  {
    hide Inv, Enabled, Next, Serving, Enqueuing, By;
    InvServes(e);
    if step.HallMoves? {
      MoveEnds(e, step.move, o, s, r);
    } else {
      OthersStay(e, step);
      BusyIsNotBy(e, step, o);
      OthersAnswer(e, step, o);
    }
  }

  lemma BusyIsNotBy(e: Engine, step: Step, o: OpId)
    requires Enabled(e, step) && e.serving == Some(o)
    ensures !By(step, o)
  {
    hide H.Enabled, M.Enabled;
  }

  lemma InvServes(e: Engine)
    requires Inv(e)
    ensures Serving(e) && Enqueuing(e)
  {
    hide Core, Locks, Tails, Gates, Serving, Enqueuing, Named, Owing, Dequeued, Calms, Purged, Closing, Snapped;
    hide Returning, HN.Spread, Doubts;
  }

  // ----- how a queue request ends ----------------------------------------------------

  predicate Decides(step: Step) { step.QueueMoves? && step.turn.JoinAnswered? }

  /** Only a decision of the matchmaker ends its asking. */
  lemma JoiningStays(e: Engine, step: Step)
    requires Enqueuing(e) && Enabled(e, step) && e.joining.Some? && !Decides(step)
    ensures Next(e, step).joining == e.joining
  {
    hide S.Book.Register, S.Book.Overdue, H.Enabled, M.Next, M.Enabled, M.Queue.TakeJoin, M.Queue.TakeLeave, H.Next;
    hide Engine.Commit, Engine.Scan, Engine.Cull;
    match step
    case Commits(p, now) => CommitAlone(e, p, now);
    case Scans(p, s) => PassAlone(e, p, s);
    case Culls(p, s) => PassAlone(e, p, s);
    case _ =>
  }

  lemma StillAsking(e: Engine, step: Step, o: OpId)
    requires Inv(e) && Enabled(e, step) && Underway(e, o) && step != IsDenied(o) && step != Finishes(o)
    requires e.joining == Some(o) && !Decides(step)
    ensures Unmoved(e, Next(e, step), o) && Next(e, step).joining == Some(o)
  {
    hide Inv, Enabled, Next, Serving, Enqueuing, By, Decides;
    InvServes(e);
    JoiningStays(e, step);
    AskedIsNotBy(e, step, o);
    OthersAnswer(e, step, o);
  }

  lemma AskedIsNotBy(e: Engine, step: Step, o: OpId)
    requires Enabled(e, step) && e.joining == Some(o)
    ensures !By(step, o)
  {
    hide H.Enabled, M.Enabled;
  }

  lemma {:induction false} JoinEnds(e: Engine, steps: seq<Step>, o: OpId, s: SessionId) returns (j: nat)
    requires Inv(e) && AllEnabled(e, steps) && Unhindered(steps, o) && Underway(e, o) && HasSent(Run(e, steps), o)
    requires e.joining == Some(o) && e.ops[o].tail != [] && e.ops[o].tail[0] == Enqueue(s)
    requires e.queue.phase == M.Asking(s)
    ensures j < |steps| && Decides(steps[j]) && At(e, steps, j).queue.phase == M.Asking(s)
    decreases |steps|
  {
    hide Inv, Enabled, Next, Serving, Enqueuing, Decides;
    var (step, k) := (steps[0], Next(e, steps[0]));
    if Decides(step) {
      j := 0;
      StartsAt(e, steps);
    } else {
      StepKeepsInv(e, step);
      StillAsking(e, step, o);
      InvServes(k);
      AskingFor(k, o);
      j := JoinEnds(k, steps[1..], o, s);
      AtNext(e, steps, j + 1);
      j := j + 1;
    }
  }

  lemma AskingFor(e: Engine, o: OpId)
    requires Enqueuing(e) && e.joining == Some(o)
    ensures o in e.ops && e.ops[o].tail != [] && e.queue.phase == M.Asking(e.ops[o].tail[0].s)
  {
  }

  lemma JoinBegins(e: Engine, o: OpId, s: SessionId)
    requires Underway(e, o) && Enabled(e, Enqueues(o)) && Next(e, Enqueues(o)).queue.phase == M.Asking(s)
    ensures var k := Next(e, Enqueues(o));
      Underway(k, o) && k.joining == Some(o) && k.ops[o].tail != [] && k.ops[o].tail[0] == Enqueue(s)
  {
  }

  lemma {:induction false} JoinAt(e: Engine, steps: seq<Step>, o: OpId, i: nat, s: SessionId) returns (j: nat)
    requires Inv(e) && AllEnabled(e, steps) && i < |steps| && steps[i] == Enqueues(o)
    requires Unhindered(steps, o) && Underway(e, o) && HasSent(Run(e, steps), o)
    requires At(e, steps, i + 1).queue.phase == M.Asking(s)
    ensures i < j < |steps| && Decides(steps[j]) && At(e, steps, j).queue.phase == M.Asking(s)
    decreases i
  {
    hide Inv, Enabled, Next, At, Underway, Decides;
    StepKeepsInv(e, steps[0]);
    AtNext(e, steps, i + 1);
    if i == 0 {
      StartsAt(e, steps);
      JoinBegins(e, o, s);
      j := JoinEnds(Next(e, steps[0]), steps[1..], o, s);
    } else {
      Onwards(e, steps[0], o);
      j := JoinAt(Next(e, steps[0]), steps[1..], o, i - 1, s);
    }
    AtNext(e, steps, j + 1);
    j := j + 1;
  }

  lemma JoinIsReplied(e: Engine, steps: seq<Step>, o: OpId, i: nat, s: SessionId)
    requires Inv(e) && AllEnabled(e, steps) && i < |steps| && steps[i] == Enqueues(o)
    requires Unhindered(steps, o) && Underway(e, o) && HasSent(Run(e, steps), o)
    ensures Replied(e, steps, i + 1, s)
  {
    hide Inv, Enabled, Next, At, Underway, Run, AllEnabled;
    if At(e, steps, i + 1).queue.phase == M.Asking(s) { var j := JoinAt(e, steps, o, i, s); }
  }

  // ----- every transport command -----------------------------------------------------

  predicate Controls(e: Engine, o: OpId) { o in e.ops && e.ops[o].program.Controlling? }

  lemma CommitPends(e: Engine, o: OpId, now: nat)
    requires Inv(e) && Controls(e, o) && Enabled(e, Commits(o, now))
    ensures var (k, program) := (Next(e, Commits(o, now)), e.ops[o].program);
      && Underway(k, o)
      && Pending(k, o) == if e.Of(program.s).IsCurrent(program.generation) then Commands(program.s, program.operation)
                          else []
  {
    hide Core, Locks, Tails, Gates, Named, Owing, Dequeued, Calms, Purged, Closing, Snapped, Commands;
    hide Returning, HN.Spread, Doubts;
  }

  lemma LeaveBegins(e: Engine, o: OpId, s: SessionId, r: RoomId)
    requires Underway(e, o) && Enabled(e, Asks(o, H.TakeLeave(s, r)))
    ensures var k := Next(e, Asks(o, H.TakeLeave(s, r)));
      Underway(k, o) && k.serving == Some(o) && k.ops[o].tail != [] && Departs(k.hall, s, r)
  {
  }

  lemma {:induction false} LeaveAt(e: Engine, steps: seq<Step>, o: OpId, i: nat, s: SessionId, r: RoomId)
    returns (j: nat)
    requires Inv(e) && AllEnabled(e, steps) && i < |steps| && steps[i] == Asks(o, H.TakeLeave(s, r))
    requires Unhindered(steps, o) && Underway(e, o) && HasSent(Run(e, steps), o)
    ensures i < j <= |steps| && OutOf(At(e, steps, j), s, r)
    decreases i
  {
    hide Inv, Enabled, Next, OutOf, Departs, At, Underway;
    StepKeepsInv(e, steps[0]);
    if i == 0 {
      LeaveBegins(e, o, s, r);
      j := LeaveEnds(Next(e, steps[0]), steps[1..], o, s, r);
    } else {
      Onwards(e, steps[0], o);
      j := LeaveAt(Next(e, steps[0]), steps[1..], o, i - 1, s, r);
    }
    AtNext(e, steps, j + 1);
    j := j + 1;
  }

  lemma CarriesOut(e: Engine, steps: seq<Step>, o: OpId, at: seq<nat>, s: SessionId, operation: Operation)
    requires Inv(e) && AllEnabled(e, steps) && Unhindered(steps, o) && Underway(e, o) && HasSent(Run(e, steps), o)
    requires Taken(e, steps, o, at, Commands(s, operation)) && |at| == |Commands(s, operation)|
    ensures CarriedOut(e, steps, o, s, operation)
  {
    hide Inv, AllEnabled, Run, At, Next, Enabled, Only, Unqueued, Enlists, OutOf;
    match operation
    case Creating(capacity) => assert at == [at[0], at[1]];
    case Joining(room) => assert at == [at[0], at[1]];
    case Leaving(room) =>
      assert at == [at[0]];
      var j := LeaveAt(e, steps, o, at[0], s, room);
    case Queueing =>
      assert at == [at[0]];
      JoinIsReplied(e, steps, o, at[0], s);
    case Cancelling => assert at == [at[0]];
  }

  lemma IsCautious(e: Engine, steps: seq<Step>, o: OpId, at: seq<nat>, s: SessionId, operation: Operation)
    requires Taken(e, steps, o, at, Commands(s, operation))
    ensures Cautious(e, steps, o, s)
  {
    hide AllEnabled, Run, At, Next, Enabled, Unqueued;
    forall j | 0 <= j < |steps| && Enters(steps[j], o) ensures exists i :: 0 <= i <= j && Unqueued(At(e, steps, i), s) {
      var n :| 0 <= n < |at| && at[n] == j;
      assert operation.Creating? || operation.Joining?;
      assert Serves(At(e, steps, at[0]), At(e, steps, at[0] + 1), steps[at[0]], o, Unqueue(s));
    }
  }

  /** If the transport command `o` commits here and is not over during `steps`: a command of a
      replaced generation does nothing; the others are cautious, and if `steps` take them to their
      end without a refusal, they have done what they are for. */
  ghost predicate Obeys(e: Engine, o: OpId, now: nat, steps: seq<Step>) {
    var k := Next(e, Commits(o, now));
    Controls(e, o) && Enabled(e, Commits(o, now)) && AllEnabled(k, steps) && Finishes(o) !in steps ==>
      var Controlling(s, g, operation) := e.ops[o].program;
      if !e.Of(s).IsCurrent(g) then Only(steps, o, [])
      else
        && Cautious(k, steps, o, s)
        && (IsDenied(o) !in steps && HasSent(Run(k, steps), o) ==> CarriedOut(k, steps, o, s, operation))
  }

  lemma CommandObeys(e: Engine, o: OpId, now: nat, steps: seq<Step>)
    requires Inv(e)
    ensures Obeys(e, o, now, steps)
  {
    hide Inv, AllEnabled, Run, Next, Enabled, Only, CarriedOut, Cautious, Commands, HasSent;
    var k := Next(e, Commits(o, now));
    if Controls(e, o) && Enabled(e, Commits(o, now)) && AllEnabled(k, steps) && Finishes(o) !in steps {
      CommitPends(e, o, now);
      StepKeepsInv(e, Commits(o, now));
      var at := AllTaken(k, steps, o);
      var Controlling(s, g, operation) := e.ops[o].program;
      if e.Of(s).IsCurrent(g) {
        IsCautious(k, steps, o, at, s, operation);
        if IsDenied(o) !in steps && HasSent(Run(k, steps), o) { CarriesOut(k, steps, o, at, s, operation); }
      } else {
        assert at == [];
      }
    }
  }

  /** In every run: a create or a join first takes the session out of the match queue and then has
      the room manager make, or ask, exactly that room, once; a leave takes it out of exactly that
      room; a queue request has the matchmaker take its join; a cancellation takes it out of the
      queue. None of them asks for anything else, and a command of a replaced generation for
      nothing. */
  lemma CommandsAreCarriedOut(config: Config, task: L.TaskId, steps: seq<Step>, o: OpId, now: nat, more: seq<Step>)
    requires config.Accepted() && AllEnabled(Opening(config, task), steps)
    ensures Obeys(Run(Opening(config, task), steps), o, now, more)
  {
    hide Inv, Next, Enabled, Obeys;
    Reached(config, task, steps);
    CommandObeys(Run(Opening(config, task), steps), o, now, more);
  }
}
