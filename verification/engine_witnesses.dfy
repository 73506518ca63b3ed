/** What becomes of a player that leaves a room which believes its connection lost: that it may be
    reported lost twice without a return, and exactly when. */
module EngineWitnesses {
  import opened Types
  import opened EngineSystem
  import opened EngineLocks
  import opened EngineCore
  import opened EngineDuties
  import opened EngineNotices
  import opened EngineRuns
  import opened EngineLosses
  import opened EngineMoves
  import C = Clients
  import R = Rooms
  import L = RoomManagers
  import H = RoomSystem
  import HC = RoomCopies
  import HR = RoomRoutes
  import HN = RoomNotices
  import HX = RoomRuns
  import HL = RoomLosses
  import HM = RoomMoves
  import M = Matchmakers

  // ----- transport commands ----------------------------------------------------------

  /** A transport command has taken its gate and passed its check. */
  function Checked(e: Engine, o: OpId, s: SessionId, operation: Operation): Engine {
    e.(ops := e.ops[o := Op(Controlling(s, e.Of(s).generation, operation), Sending, Commands(s, operation))],
        gates := e.gates[s := o])
  }

  predicate Open(e: Engine, s: SessionId) { s in e.hall.clients && e.Of(s).Live() && !e.Of(s).closed }

  /** A session that is open can take up a transport command. */
  ghost predicate Commandable(e: Engine, o: OpId, s: SessionId) {
    Inv(e) && Quiet(e) && o !in e.ops && s !in e.gates && Open(e, s)
  }

  lemma ControlCanRun(e: Engine, o: OpId, s: SessionId, operation: Operation, now: nat) returns (steps: seq<Step>)
    requires Commandable(e, o, s)
    ensures AllEnabled(e, steps) && Stay(steps) && Run(e, steps) == Checked(e, o, s, operation) && Inv(Run(e, steps))
  {
    hide Inv, Commands, H.Enabled, H.Next, M.Enabled, M.Next;
    hide Engine.Scan, Engine.Cull, Engine.Enqueue, Engine.Settled, Engine.Queued, Engine.Popped, Engine.Without;
    var program := Controlling(s, e.Of(s).generation, operation);
    var e1 := Next(e, Starts(o, program));
    var e2 := Next(e1, LocksGate(o));
    assert Next(e2, Commits(o, now)) == Checked(e, o, s, operation);
    One(e2, Commits(o, now));
    Before(e1, LocksGate(o), [Commits(o, now)]);
    Before(e, Starts(o, program), [LocksGate(o)] + [Commits(o, now)]);
    steps := [Starts(o, program)] + ([LocksGate(o)] + [Commits(o, now)]);
    EngineRun(e, steps);
  }

  /** A transport command, which `e` does not know, has only these commands to send. */
  predicate Controls(e: Engine, k: Engine, o: OpId, s: SessionId, operation: Operation, tail: seq<Msg>) {
    && o !in e.ops && s !in e.gates && SendsAll(k, o, tail) && k.life.None?
    && k.ops == e.ops[o := Op(Controlling(s, e.Of(s).generation, operation), Sending, tail)]
    && k.gates == e.gates[s := o]
  }

  lemma ControlsParts(e: Engine, k: Engine, o: OpId, s: SessionId, operation: Operation, tail: seq<Msg>)
    requires Controls(e, k, o, s, operation, tail)
    ensures SendsAll(k, o, tail)
  {
  }

  lemma ControlEnds(e: Engine, k: Engine, o: OpId, s: SessionId, operation: Operation) returns (steps: seq<Step>)
    requires Controls(e, k, o, s, operation, [])
    ensures AllEnabled(k, steps) && Stay(steps) && Run(k, steps) == Closes(e, k)
  {
    steps := [Finishes(o)];
    One(k, Finishes(o));
    assert k.ops - {o} == e.ops;
    assert k.gates - {s} == e.gates;
  }

  /** The last of its commands is sent to the room manager, and it ends. */
  lemma LastCommand(e: Engine, k: Engine, o: OpId, s: SessionId, operation: Operation, m: Msg,
                    command: H.Step, moves: seq<H.Step>, h: H.Hall) returns (steps: seq<Step>)
    requires Controls(e, k, o, s, operation, [m]) && !m.Evict? && Takes(m, command)
    requires HM.Carries(k.hall, command, moves, h)
    ensures AllEnabled(k, steps) && Voluntary(steps) && (!command.TakeLeave? ==> Stay(steps))
    ensures Run(k, steps) == Closes(e, Moved(k, h))
  {
    hide AllEnabled, Run, Takes, H.Enabled, H.Next, HM.CanWork, HM.Worked, Engine.Popped, Closes;
    var asking := CommandCanRun(k, o, m, command, moves, h);
    assert k.ops[o].tail == [m] + [];
    PoppedAll(Moved(k, h), o, m, []);
    var z := Run(k, asking);
    OpsPut(e.ops, o, k.ops[o], z.ops[o]);
    var ending := ControlEnds(e, z, o, s, operation);
    ClosesAll(e, Moved(k, h), o);
    Chain(k, asking, ending);
    StayIsVoluntary(ending);
    VoluntaryOn(asking, ending);
    steps := asking + ending;
  }

  lemma ClosesAll(e: Engine, k: Engine, o: OpId)
    ensures Closes(e, ToSend(k, o, [])) == Closes(e, k)
  {
  }

  /** A transport command that takes its session out of the queue and then asks the room manager
      for something, from beginning to end. */
  lemma TwoCommands(e: Engine, o: OpId, s: SessionId, operation: Operation, now: nat, m: Msg,
                    command: H.Step, moves: seq<H.Step>, h: H.Hall) returns (steps: seq<Step>)
    requires Commandable(e, o, s) && Commands(s, operation) == [Unqueue(s), m] && !m.Evict?
    requires Takes(m, command) && !command.TakeLeave? && HM.Carries(e.hall, command, moves, h)
    ensures AllEnabled(e, steps) && Stay(steps) && Inv(Run(e, steps)) && Run(e, steps) == Unqueued(Moved(e, h), s)
  {
    hide Inv, AllEnabled, Run, Stay, Commands, Takes, M.Queue.TakeLeave, HM.Carries, M.Queue.Inv, HX.Inv, HX.Sound;
    hide Engine.Popped;
    var opening := ControlCanRun(e, o, s, operation, now);
    var e1 := Checked(e, o, s, operation);
    InvGround(e1);
    var unqueueing := UnqueueCanRun(e1, o, s);
    assert e1.ops[o].tail == [Unqueue(s)] + [m];
    PoppedAll(Unqueued(e1, s), o, Unqueue(s), [m]);
    var e2 := ToSend(Unqueued(e1, s), o, [m]);
    OpsPut(e.ops, o, e1.ops[o], e2.ops[o]);
    var ending := LastCommand(e, e2, o, s, operation, m, command, moves, h);
    steps := Through(e, opening, unqueueing, ending);
  }

  lemma WaitsForRoom(h: H.Hall, s: SessionId, r: RoomId)
    requires h.job.Idle? && s in h.clients && h.Entry(s, r).None?
    ensures H.Enabled(h, H.TakeJoin(s, r))
    ensures H.Next(h, H.TakeJoin(s, r)) == h.(job := H.Waiting(s, r, H.Enter, H.Filling(r, [], false, s)))
  {
  }

  lemma RepliesOnce(h: H.Hall)
    requires h.job.Filling? && h.job.coming == []
    ensures HM.CanWork(h, [H.Reply(true)]) && HM.Worked(h, [H.Reply(true)]) == h.(job := H.Idle)
  {
    HM.OneMove(h, H.Reply(true));
  }

  /** Nothing keeps the room manager from taking the session into the room. */
  predicate Enterable(h: H.Hall, s: SessionId, r: RoomId) {
    h.job.Idle? && s in h.clients && h.Entry(s, r).None? && HM.Welcomes(h, s, r)
  }

  /** The room manager takes somebody into a room. */
  lemma EntryCanRun(h: H.Hall, s: SessionId, r: RoomId) returns (moves: seq<H.Step>)
    requires HX.Sound(h) && Enterable(h, s, r)
    ensures HM.Carries(h, H.TakeJoin(s, r), moves, HM.Entered(h, s, r)) && moves != []
  {
    hide HX.Sound, HM.CanWork, HM.Worked, HM.Welcomes, C.Client.Deliver, H.Hall.Entry;
    WaitsForRoom(h, s, r);
    var k := H.Next(h, H.TakeJoin(s, r));
    HX.StepKeepsSound(h, H.TakeJoin(s, r));
    SameWelcome(h, k, s, r);
    moves := HM.JoinCanRun(k, H.Filling(r, [], false, s));
    RepliesOnce(HM.Worked(k, moves));
    HM.WorkOn(k, moves, [H.Reply(true)]);
    moves := moves + [H.Reply(true)];
  }

  lemma SameWelcome(h: H.Hall, k: H.Hall, s: SessionId, r: RoomId)
    requires k == h.(job := k.job)
    ensures HM.Welcomes(k, s, r) == HM.Welcomes(h, s, r)
  {
  }

  /** A player joins a room by a command of its own connection. */
  lemma JoinByCommand(e: Engine, o: OpId, s: SessionId, r: RoomId, now: nat) returns (steps: seq<Step>)
    requires Commandable(e, o, s) && Enterable(e.hall, s, r)
    ensures AllEnabled(e, steps) && Stay(steps) && Inv(Run(e, steps))
    ensures Run(e, steps) == Unqueued(Moved(e, HM.Entered(e.hall, s, r)), s)
  {
    hide Inv, AllEnabled, Run, Stay, HX.Inv, HX.Sound, HM.Carries, Enterable, HM.Entered, Commandable;
    hide M.Queue.TakeLeave, M.Queue.Inv;
    CommandableParts(e, o, s);
    InvGround(e);
    var moves := EntryCanRun(e.hall, s, r);
    steps := TwoCommands(e, o, s, Joining(r), now, Join(s, r), H.TakeJoin(s, r), moves, HM.Entered(e.hall, s, r));
  }

  lemma CommandableParts(e: Engine, o: OpId, s: SessionId)
    requires Commandable(e, o, s)
    ensures Inv(e) && Quiet(e) && o !in e.ops && s !in e.gates
  {
    hide Inv;
  }

  // ----- a player that was taken out -------------------------------------------------

  /** The session is suspended and can still be resumed; the room has let it go, without having
      heard that it is back, and could take it in again. */
  ghost predicate Orphaned(e: Engine, s: SessionId, r: RoomId, now: nat) {
    && Inv(e) && AtEase(e) && s in e.book.suspended && Resumable(e, s, now) && Yielding(e, s)
    && e.hall.Vacant(s, r) && |e.hall.ledger.RoomsOf(s)| < e.hall.config.maxRoomsPerSession && HL.Missing(e.hall, s, r)
  }

  /** Both managers come to rest, and the gate of the session is freed. */
  lemma OrphanIsFreed(e: Engine, s: SessionId, r: RoomId, now: nat) returns (steps: seq<Step>)
    requires Orphaned(e, s, r, now)
    ensures AllEnabled(e, steps) && Stay(steps) && Orphaned(Run(e, steps), s, r, now)
    ensures Freed(e, Run(e, steps), s)
  {
    hide Inv, AllEnabled, Run, Stay, HL.Missing;
    var resting := RestCanRun(e);
    var k := Run(e, resting);
    var ending := LifeCanEnd(k, s);
    var m := Run(k, ending);
    var opening := GateCanOpen(m, s);
    Chain(k, ending, opening);
    Chain(e, resting, ending + opening);
    StayOn(ending, opening);
    StayOn(resting, ending + opening);
    steps := resting + (ending + opening);
  }

  /** A member of a running room is recorded in it. */
  predicate Recorded(h: H.Hall, s: SessionId, r: RoomId) {
    r in h.ledger.open && r in h.rooms && (s in h.rooms[r].members <==> r in h.ledger.RoomsOf(s))
  }

  lemma NotRecorded(h: H.Hall, s: SessionId, r: RoomId)
    requires HX.Sound(h) && h.job.Idle? && h.Runs(r)
    ensures Recorded(h, s, r)
  {
    hide HC.Ledgered, HR.Told, HN.Spoken, HC.JobOk;
    assert HC.CopiesAt(h, r);
    assert s in h.ledger.MembersOf(r) <==> (s, r) in h.ledger.links;
  }

  lemma ComesBack(e: Engine, k: Engine, o: OpId, s: SessionId, r: RoomId, now: nat)
    requires Orphaned(e, s, r, now) && s !in e.gates && Resumed(e, k, s, 0) && Inv(k) && o !in e.ops
    ensures Commandable(k, o, s) && Enterable(k.hall, s, r) && HL.Missing(k.hall, s, r)
    ensures s in k.book.sessions && s !in k.book.suspended
  {
    hide Inv, HX.Inv, HX.Sound, M.Queue.Inv, R.TakeTurn, HL.Unanswered;
    InvGround(e);
    NotRecorded(e.hall, s, r);
    HallIsAccepted(e.hall);
  }

  lemma HallIsAccepted(h: H.Hall)
    requires HX.Sound(h)
    ensures h.config.Accepted()
  {
    hide HC.Cast, HC.JobOk, HC.Copies, HC.Ledgered, HR.Told, HN.Spoken, Config.Accepted;
  }

  lemma HearsOfLoss(a: R.Actor, s: SessionId)
    requires a.Running() && !a.closing && s in a.members
    ensures R.TakeTurn(a, R.ConnectionTurn(s, false, R.Returns)) == a.(trace := a.trace + [R.Disconnected(s)])
  {
  }

  lemma TwiceWithoutReturn(trace: seq<R.GameEvent>, s: SessionId)
    requires HL.Unanswered(trace, s)
    ensures !HL.Returns(trace + [R.Entered(s)] + [R.Disconnected(s)], s)
  {
    HL.UnansweredMore(trace, R.Entered(s), s);
    var i := HL.LastLoss(trace, s);
    var more := trace + [R.Entered(s)] + [R.Disconnected(s)];
    assert more[i] == trace[i] && more[|trace| + 1] == R.Disconnected(s) && more[|trace|] == R.Entered(s);
    forall k | i < k < |trace| + 1 ensures more[k] != R.Reconnected(s) {
      if k < |trace| { assert more[k] == trace[k]; }
    }
    assert !HL.Back(more, i, |trace| + 1, s);
  }

  lemma LostInRoom(e1: Engine, e2: Engine, e3: Engine, s: SessionId, r: RoomId, now: nat)
    requires HL.Missing(e1.hall, s, r) && HM.Welcomes(e1.hall, s, r) && e2.hall == HM.Entered(e1.hall, s, r)
    requires Inv(e2) && e2.hall.job.Idle? && Suspended(e2, e3, s, now)
    ensures !Ruled(e3.hall, s, r)
  {
    hide Inv, HX.Sound, HL.Returns, HL.Unanswered, R.TakeTurn, C.Client.Deliver, C.Client.DeliverAt;
    InvGround(e2);
    NotRecorded(e2.hall, s, r);
    NotClosing(e2.hall, r);
    HearsOfLoss(e2.hall.rooms[r], s);
    TwiceWithoutReturn(e1.hall.rooms[r].trace, s);
  }

  lemma NotClosing(h: H.Hall, r: RoomId)
    requires HX.Sound(h)
    ensures h.Runs(r) ==> !h.rooms[r].closing
  {
    hide HC.JobOk, HC.Copies, HC.Ledgered, HR.Told, HN.Spoken, R.TraceOk;
  }

  /** Such a player can come back, join again and be lost again, all at the instant `now`, and
      then the room has heard of two losses without a return between them; nobody has to leave
      any room for that. */
  lemma LosesAgain(e: Engine, o: OpId, s: SessionId, r: RoomId, now: nat) returns (steps: seq<Step>)
    requires Orphaned(e, s, r, now) && o !in e.ops
    ensures AllEnabled(e, steps) && Stay(steps) && !Ruled(Run(e, steps).hall, s, r)
  {
    hide Inv, AllEnabled, Run, Stay, HL.Missing, Resumable, Enterable, Suspended, Resumed, HM.Entered, Commandable;
    var freeing := OrphanIsFreed(e, s, r, now);
    var e0 := Run(e, freeing);
    var resuming := ResumptionCanRun(e0, o, s, 0, now);
    var e1 := Run(e0, resuming);
    ComesBack(e0, e1, o, s, r, now);
    var joining := JoinByCommand(e1, o, s, r, now);
    var e2 := Run(e1, joining);
    CommandableParts(e1, o, s);
    EnteredIsIdle(e1.hall, s, r);
    var losing := SuspensionCanRun(e2, o, s, now);
    LostInRoom(e1, e2, Run(e2, losing), s, r, now);
    Chain(e1, joining, losing);
    Chain(e0, resuming, joining + losing);
    Chain(e, freeing, resuming + (joining + losing));
    StayOn(joining, losing);
    StayOn(resuming, joining + losing);
    StayOn(freeing, resuming + (joining + losing));
    steps := freeing + (resuming + (joining + losing));
  }

  lemma EnteredIsIdle(h: H.Hall, s: SessionId, r: RoomId)
    requires Enterable(h, s, r)
    ensures HM.Welcomes(h, s, r) && HM.Entered(h, s, r).job.Idle?
  {
  }

  // ----- leaving, and what comes of it -----------------------------------------------

  /** Whatever happens from here on, as long as later requests to leave come in time: two losses
      always have the return between them. */
  ghost predicate AlwaysReturns(e: Engine, s: SessionId, r: RoomId) {
    forall steps :: AllEnabled(e, steps) && AllInTime(e, steps, s, r) ==> Ruled(Run(e, steps).hall, s, r)
  }

  lemma {:induction false} StayInTime(e: Engine, steps: seq<Step>, s: SessionId, r: RoomId)
    requires AllEnabled(e, steps) && Stay(steps)
    ensures AllInTime(e, steps, s, r)
    decreases |steps|
  {
    hide Enabled, Next, HN.CalmIn;
    if steps != [] {
      assert !Leaves(steps[0]);
      assert forall step :: step in steps[1..] ==> step in steps;
      StayInTime(Next(e, steps[0]), steps[1..], s, r);
    }
  }

  /** A member of a running room where somebody else stays, and that can be resumed. */
  ghost predicate Leavable(e: Engine, s: SessionId, r: RoomId, now: nat) {
    Inv(e) && AtEase(e) && Resumable(e, s, now) && Yielding(e, s) && r != GLOBAL_ROOM && e.hall.InCompany(s, r)
  }

  lemma LetsGo(a: R.Actor, s: SessionId, c: C.Client, outbound: nat)
    requires a.Running() && !a.closing && s in a.members && a.members != {s}
    ensures R.TakeTurn(a, R.LeaveTurn(s, c, outbound, R.Returns)) == Released(a, s)
    ensures a.Leave(s, c, outbound, R.Returns).1 == c.Deliver(outbound, C.Left(a.id)).0
  {
    var x :| x in a.members && x != s;
    assert x in a.members - {s};
  }

  /** The room has let `s` go. */
  function Released(a: R.Actor, s: SessionId): R.Actor {
    a.(members := a.members - {s}, host := if a.host == Some(s) then None else a.host, trace := a.trace + [R.Exited(s)])
  }

  /** The room has heard of the leave, and both copies have forgotten the member. */
  function Left(h: H.Hall, s: SessionId, r: RoomId): H.Hall {
    if r !in h.rooms then h else
    h.(rooms := h.rooms[r := Released(h.rooms[r], s)],
       clients := h.clients[s := h.Of(s).Deliver(h.config.outboundCapacity, C.Left(h.rooms[r].id)).0],
       ledger := h.ledger.(links := h.ledger.links - {(s, r)}))
  }

  lemma LeaveCanRun(h: H.Hall, s: SessionId, r: RoomId) returns (moves: seq<H.Step>)
    requires HX.Sound(h) && h.job.Idle? && h.InCompany(s, r) && r != GLOBAL_ROOM
    ensures HM.Carries(h, H.TakeLeave(s, r), moves, Left(h, s, r)) && moves != []
  {
    hide HX.Sound, HM.CanWork, HM.Worked, HM.Visited, R.TakeTurn, C.Client.Deliver, Left;
    var k := H.Next(h, H.TakeLeave(s, r));
    HX.StepKeepsSound(h, H.TakeLeave(s, r));
    moves := HM.RoundLeaves(k, r);
    VisitedLeaves(h, k, s, r);
    LeftIsIdle(h, s, r);
    if moves == [] { NothingWorked(k); }
  }

  lemma NothingWorked(k: H.Hall)
    ensures HM.CanWork(k, []) && HM.Worked(k, []) == k
  {
  }

  lemma VisitedLeaves(h: H.Hall, k: H.Hall, s: SessionId, r: RoomId)
    requires HX.Sound(h) && h.job.Idle? && h.InCompany(s, r) && r != GLOBAL_ROOM
    requires k == h.(job := H.Visiting(s, {r}, H.Depart, false))
    ensures HM.Visited(k, r).(job := H.Idle) == Left(h, s, r)
  {
    hide HX.Sound, R.TakeTurn, C.Client.Deliver, R.Actor.Leave, Released;
    NotRecorded(h, s, r);
    NotClosing(h, r);
    LetsGo(h.rooms[r], s, h.Of(s), h.config.outboundCapacity);
    SomebodyStays(h, s, r);
    assert HM.Asks(k, r);
  }

  lemma SomebodyStays(h: H.Hall, s: SessionId, r: RoomId)
    requires HX.Sound(h) && h.job.Idle? && h.InCompany(s, r)
    ensures (s, r) in h.ledger.links && L.MembersIn(h.ledger.links - {(s, r)}, r) != {}
    ensures (r in h.rooms ==> h.rooms[r].id == r)
  {
    hide HC.Ledgered, HR.Told, HN.Spoken, HC.JobOk, R.TraceOk;
    assert HC.CopiesAt(h, r);
    var x :| x in h.rooms[r].members && x != s;
    assert x in h.ledger.MembersOf(r);
    assert x in L.MembersIn(h.ledger.links - {(s, r)}, r);
  }

  lemma LeftIsIdle(h: H.Hall, s: SessionId, r: RoomId)
    requires h.job.Idle?
    ensures Left(h, s, r).job.Idle?
  {
  }

  /** The room, when somebody suspended has been made to leave it. */
  lemma LeftRoom(e: Engine, s: SessionId, r: RoomId)
    requires Inv(e) && AtEase(e) && s in e.book.sessions && s in e.book.suspended && e.hall.InCompany(s, r)
    ensures var h := Left(e.hall, s, r);
            && h.Vacant(s, r) && |h.ledger.RoomsOf(s)| < h.config.maxRoomsPerSession && HL.Missing(h, s, r)
            && h.job.Idle? && h.clients == e.hall.clients
  {
    hide Inv, HX.Sound, HL.Unanswered, R.Down;
    InvGround(e);
    KnownSession(e, s);
    NotRecorded(e.hall, s, r);
    RoomFits(e.hall, s, r);
    LostIsMissing(e, s, r);
    HL.UnansweredMore(e.hall.rooms[r].trace, R.Exited(s), s);
    RoomsLeft(e.hall.ledger.links, s, r);
    FewerThan(e.hall.rooms[r].members, s);
    FewerThan(e.hall.ledger.RoomsOf(s), r);
    PutSame(e.hall.clients, s);
  }

  lemma FewerThan<T>(a: set<T>, x: T)
    requires x in a
    ensures |a - {x}| < |a|
  {
  }

  lemma RoomsLeft(links: set<L.Link>, s: SessionId, r: RoomId)
    ensures L.RoomsIn(links - {(s, r)}, s) == L.RoomsIn(links, s) - {r}
  {
  }

  lemma RoomFits(h: H.Hall, s: SessionId, r: RoomId)
    requires r in h.rooms && HX.Sound(h)
    ensures |h.rooms[r].members| <= h.rooms[r].capacity && R.FromMembers(h.rooms[r].trace)
    ensures |h.ledger.RoomsOf(s)| <= h.config.maxRoomsPerSession
  {
    hide HC.Copies, HR.Told, HN.Spoken, HC.JobOk, R.FromMembers, R.EntersOnce, L.Ledger.Numbered;
    assert R.TraceOk(h.rooms[r]);
  }

  lemma LostIsMissing(e: Engine, s: SessionId, r: RoomId)
    requires Inv(e) && AtEase(e) && s in e.book.sessions && s in e.book.suspended && e.hall.Runs(r)
    requires e.hall.Member(s, r)
    ensures HL.Missing(e.hall, s, r)
  {
    hide Inv, HX.Sound, R.Down, HL.Unanswered, R.FromMembers;
    BeliefsAreRight(e, s, r);
    InvGround(e);
    RoomFits(e.hall, s, r);
    HL.DownIsPresent(e.hall.rooms[r].trace, s);
  }

  /** The request of trusted code that a player leave, and what follows from it at once. */
  lemma LeaveByHand(e: Engine, s: SessionId, r: RoomId, now: nat) returns (steps: seq<Step>)
    requires Leavable(e, s, r, now) && s in e.book.suspended
    ensures Enabled(e, HallMoves(H.TakeLeave(s, r)))
    ensures OrphanedBy(Next(e, HallMoves(H.TakeLeave(s, r))), steps, s, r, now, e.ops)
  {
    hide Inv, AllEnabled, Run, HX.Sound, HM.CanWork, HM.Worked, H.Enabled, H.Next, Left, Resumable;
    InvGround(e);
    EasyParts(e);
    LeftRoom(e, s, r);
    var moves := LeaveCanRun(e.hall, s, r);
    var k := Next(e, HallMoves(H.TakeLeave(s, r)));
    WorkLifts(k, moves);
    LiftedStays(k.hall, moves);
    steps := Lifted(moves);
    StepKeepsInv(e, HallMoves(H.TakeLeave(s, r)));
    EngineRun(k, steps);
    StillResumable(e, Run(k, steps), s, now);
  }

  lemma StillResumable(e: Engine, k: Engine, s: SessionId, now: nat)
    requires Resumable(e, s, now) && k.book == e.book.(clients := k.book.clients) && k.hall.clients == e.hall.clients
    ensures Resumable(k, s, now)
  {
  }

  ghost predicate OrphanedBy(e: Engine, steps: seq<Step>, s: SessionId, r: RoomId, now: nat, ops: map<OpId, Op>) {
    AllEnabled(e, steps) && Stay(steps) && Orphaned(Run(e, steps), s, r, now) && Run(e, steps).ops == ops
  }

  ghost predicate Breaks(e: Engine, steps: seq<Step>, s: SessionId, r: RoomId) {
    AllEnabled(e, steps) && Stay(steps) && !Ruled(Run(e, steps).hall, s, r)
  }

  lemma LateLeaveBreaks(e: Engine, o: OpId, s: SessionId, r: RoomId, now: nat) returns (steps: seq<Step>)
    requires Leavable(e, s, r, now) && s in e.book.suspended && o !in e.ops
    ensures Enabled(e, HallMoves(H.TakeLeave(s, r))) && Breaks(Next(e, HallMoves(H.TakeLeave(s, r))), steps, s, r)
  {
    hide AllEnabled, Run, Enabled, Next, Orphaned, Leavable, Ruled, Stay;
    var leaving := LeaveByHand(e, s, r, now);
    var k := Next(e, HallMoves(H.TakeLeave(s, r)));
    var losing := LosesAgain(Run(k, leaving), o, s, r, now);
    Chain(k, leaving, losing);
    StayOn(leaving, losing);
    steps := leaving + losing;
  }

  /** A request to leave, in any state whatever, that is taken up while the room does not believe
      the player lost keeps the rule for ever. */
  lemma LeaveInTimeKeeps(e: Engine, s: SessionId, r: RoomId)
    requires Inv(e) && Good(e.hall, s, r) && HN.CalmIn(e.hall, s, r) && Enabled(e, HallMoves(H.TakeLeave(s, r)))
    ensures AlwaysReturns(Next(e, HallMoves(H.TakeLeave(s, r))), s, r)
  {
    hide Inv, Good, AllEnabled, Run, AllInTime, HN.CalmIn, Ruled, Enabled, Next;
    var step := HallMoves(H.TakeLeave(s, r));
    StepKeepsGood(e, step, s, r);
    StepKeepsInv(e, step);
    forall steps | AllEnabled(Next(e, step), steps) && AllInTime(Next(e, step), steps, s, r)
      ensures Ruled(Run(Next(e, step), steps).hall, s, r)
    {
      RunKeepsGood(Next(e, step), steps, s, r);
      GoodReturns(Run(Next(e, step), steps).hall, s, r);
    }
  }

  /** The last member leaves, and the room ends. */
  lemma LastLeaveKeeps(e: Engine, s: SessionId, r: RoomId)
    requires Inv(e) && Good(e.hall, s, r) && e.hall.Runs(r) && e.hall.Member(s, r) && !e.hall.InCompany(s, r)
    requires Enabled(e, HallMoves(H.TakeLeave(s, r)))
    ensures AlwaysReturns(Next(e, HallMoves(H.TakeLeave(s, r))), s, r)
  {
    hide Inv, HX.Sound, HL.Returns, AllEnabled, Run, AllInTime, Ruled;
    var step := HallMoves(H.TakeLeave(s, r));
    InvGround(e);
    NotRecorded(e.hall, s, r);
    StepKeepsInv(e, step);
    assert HL.Doomed(Next(e, step).hall, s, r);
    forall steps | AllEnabled(Next(e, step), steps) && AllInTime(Next(e, step), steps, s, r)
      ensures Ruled(Run(Next(e, step), steps).hall, s, r)
    {
      RunDooms(Next(e, step), steps, s, r);
    }
  }

  /** The session is a suspended member of the running room, but not the only member. */
  predicate Late(e: Engine, s: SessionId, r: RoomId) { e.hall.InCompany(s, r) && s in e.book.suspended }

  /** Whenever nothing is owed, whatever the matchmaker and transport commands are at, a request
      that a session leave a room keeps the rule for ever if and only if the session is not a
      suspended member of a room where somebody else stays: this is the check that is missing from
      `State::leave`. What is still owed may remove the session, or everybody else in the room. */
  lemma LeaveDecides(e: Engine, o: OpId, s: SessionId, r: RoomId, now: nat)
    requires Inv(e) && AtEase(e) && Good(e.hall, s, r) && o !in e.ops && Yielding(e, s) && Resumable(e, s, now)
    requires r != GLOBAL_ROOM
    ensures Enabled(e, HallMoves(H.TakeLeave(s, r)))
    ensures AlwaysReturns(Next(e, HallMoves(H.TakeLeave(s, r))), s, r) <==> !Late(e, s, r)
  {
    hide Inv, Good, AllEnabled, Run, AllInTime, Ruled, Next, Stay, HN.CalmIn;
    if Late(e, s, r) {
      var steps := LateLeaveBreaks(e, o, s, r, now);
      StayInTime(Next(e, HallMoves(H.TakeLeave(s, r))), steps, s, r);
    } else if e.hall.Runs(r) && e.hall.Member(s, r) && !e.hall.InCompany(s, r) {
      LastLeaveKeeps(e, s, r);
    } else {
      CalmUnlessLate(e, s, r);
      LeaveInTimeKeeps(e, s, r);
    }
  }

  lemma CalmUnlessLate(e: Engine, s: SessionId, r: RoomId)
    requires Inv(e) && AtEase(e) && s in e.book.sessions
    requires (e.hall.Runs(r) && e.hall.Member(s, r) ==> s !in e.book.suspended)
    ensures HN.CalmIn(e.hall, s, r)
  {
    hide Inv, R.Down;
    if e.hall.Runs(r) && e.hall.Member(s, r) {
      KnownSession(e, s);
      ConnectedLeaveInTime(e, s, r);
    }
  }
}
