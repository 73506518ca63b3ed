/** From the start of the engine to a game that hears twice of one player's loss and never of its
    return, without any server code that makes anybody leave: a player asks to leave, its
    connection breaks before the room manager has heard of that, and an expiry pass, which needs
    no control gate, reports the loss first. */
module EngineScenario {
  import opened Types
  import opened EngineSystem
  import opened EngineLocks
  import opened EngineCore
  import opened EngineDuties
  import opened EngineNotices
  import opened EngineRuns
  import opened EngineLosses
  import opened EngineMoves
  import opened EngineWitnesses
  import C = Clients
  import R = Rooms
  import L = RoomManagers
  import H = RoomSystem
  import HL = RoomLosses
  import HM = RoomMoves
  import HX = RoomRuns
  import M = Matchmakers
  import S = SessionManagers

  // ----- a leave that comes too late -------------------------------------------------

  /** Everybody is connected, nothing is going on, and `s` is in the running room `r` with
      somebody else. */
  ghost predicate Gathered(e: Engine, s: SessionId, r: RoomId) {
    && Inv(e) && Quiet(e) && e.ops == map[] && e.gates == map[] && e.book.suspended == map[] && e.book.grace > 0
    && s in e.book.sessions && e.Of(s).generation < U64_MAX && r != GLOBAL_ROOM
    && (forall x :: x in e.book.sessions ==> Open(e, x)) && e.hall.InCompany(s, r)
  }

  /** A pass would find that the connection of `s` was abandoned, and nothing else. */
  predicate OnlyLoss(e: Engine, s: SessionId) {
    && e.book.clients == e.hall.clients && e.book.suspended == map[] && e.book.grace > 0
    && s in e.book.sessions && s in e.hall.clients && !e.Of(s).closed
    && e.Of(s).transport.Some? && e.Of(s).transport.value.cancelled
    && forall x :: x in e.book.sessions && x != s ==> Open(e, x)
  }

  /** The connection of `s` is cancelled. */
  function Broken(e: Engine, s: SessionId): Engine {
    Moved(e, e.hall.(clients := e.hall.clients[s := e.Of(s).Cancel()]))
  }

  lemma BreakCanRun(e: Engine, s: SessionId)
    requires s in e.hall.clients && e.serving.None?
    ensures Enabled(e, HallMoves(H.Changes(s, C.Cancelling)))
    ensures Next(e, HallMoves(H.Changes(s, C.Cancelling))) == Broken(e, s)
  {
  }

  /** Nobody else's connection is found abandoned. */
  lemma {:induction false} ScansOfTheConnected(e: Engine, o: OpId, now: nat, todo: set<SessionId>)
      returns (steps: seq<Step>)
    requires AtStage(e, o, Scanning(now, todo)) && todo <= e.book.sessions.Keys
    requires e.book.clients == e.hall.clients && forall x :: x in todo ==> Open(e, x)
    ensures AllEnabled(e, steps) && Stay(steps)
    ensures Run(e, steps) == e.With(o, e.ops[o].(stage := Scanning(now, {})))
    decreases |todo|
  {
    hide S.Book.Overdue;
    if todo == {} {
      steps := [];
      assert e.ops[o := e.ops[o]] == e.ops;
    } else {
      var x :| x in todo;
      var k := Next(e, Scans(o, x));
      assert k == e.With(o, e.ops[o].(stage := Scanning(now, todo - {x})));
      var rest := ScansOfTheConnected(k, o, now, todo - {x});
      Before(e, Scans(o, x), rest);
      OpsPut(e.ops, o, k.ops[o], e.ops[o].(stage := Scanning(now, {})));
      steps := [Scans(o, x)] + rest;
    }
  }

  lemma FoundAbandoned(e: Engine, o: OpId, s: SessionId, now: nat)
    requires o in e.ops && e.ops[o] == Op(Expiring, Scanning(now, e.book.sessions.Keys), []) && OnlyLoss(e, s)
    ensures Enabled(e, Scans(o, s))
    ensures Next(e, Scans(o, s))
            == Detached(e, s, now).With(o, Op(Expiring, Scanning(now, e.book.sessions.Keys - {s}),
                [Unqueue(s), Tell(s, false)]))
  {
    assert [] + [Unqueue(s), Tell(s, false)] == [Unqueue(s), Tell(s, false)];
  }

  lemma NobodyOverdue(e: Engine, o: OpId, s: SessionId, now: nat)
    requires e.book.suspended.Keys == {s} && e.book.suspended[s].deadline > now
    requires o in e.ops && e.ops[o] == Op(Expiring, Scanning(now, {}), [Unqueue(s), Tell(s, false)])
    ensures AllEnabled(e, [ScansNoMore(o)] + [CullsNoMore(o)])
    ensures Run(e, [ScansNoMore(o)] + [CullsNoMore(o)])
            == e.With(o, Op(Expiring, Sending, [Unqueue(s), Tell(s, false)]))
  {
    assert e.book.Overdue(now) == {};
    var k := Next(e, ScansNoMore(o));
    One(k, CullsNoMore(o));
    Before(e, ScansNoMore(o), [CullsNoMore(o)]);
  }

  /** The pass as far as the end of its removals. */
  lemma PassFindsIt(e: Engine, o: OpId, s: SessionId, now: nat) returns (steps: seq<Step>)
    requires IsReady(e, o, Expiring) && OnlyLoss(e, s)
    ensures AllEnabled(e, steps) && Stay(steps)
    ensures Run(e, steps) == Detached(e, s, now).With(o, Op(Expiring, Sending, [Unqueue(s), Tell(s, false)]))
  {
    hide AllEnabled, Run, S.Book.Scan, S.Book.Overdue;
    var e1 := Next(e, Commits(o, now));
    FoundAbandoned(e1, o, s, now);
    var e2 := Next(e1, Scans(o, s));
    var scanning := ScansOfTheConnected(e2, o, now, e.book.sessions.Keys - {s});
    var e3 := Run(e2, scanning);
    NobodyOverdue(e3, o, s, now);
    var ending := [ScansNoMore(o)] + [CullsNoMore(o)];
    Chain(e2, scanning, ending);
    Before(e1, Scans(o, s), scanning + ending);
    Before(e, Commits(o, now), [Scans(o, s)] + (scanning + ending));
    steps := [Commits(o, now)] + ([Scans(o, s)] + (scanning + ending));
    OpsPut(e.ops, o, e1.ops[o], e2.ops[o]);
    OpsPut(e.ops, o, e2.ops[o], e3.ops[o]);
    OpsPut(e.ops, o, e3.ops[o], Op(Expiring, Sending, [Unqueue(s), Tell(s, false)]));
  }

  /** A pass that finds nothing but this one loss, from beginning to end. */
  lemma PassReports(e: Engine, o: OpId, s: SessionId, now: nat) returns (steps: seq<Step>)
    requires Inv(e) && Quiet(e) && o !in e.ops && OnlyLoss(e, s)
    ensures AllEnabled(e, steps) && Stay(steps) && Inv(Run(e, steps)) && Suspended(e, Run(e, steps), s, now)
  {
    hide Inv, AllEnabled, Run, Stay, Detached, Reported, ToSend, Suspended, Closes, Ended, SendsAll, Detaches, OnlyLoss;
    OnlyLossIsKnown(e, o, s);
    var opening := OpensCanRun(e, o, Expiring);
    var e1 := Opened(e, o, Expiring);
    var passing := PassFindsIt(e1, o, s, now);
    LossIsOver(e, o, s, now, Expiring);
    var e2 := Run(e1, passing);
    Chain(e, opening, passing);
    EngineRun(e, opening + passing);
    var sending := LossSends(e2, o, s);
    var ending := EndsCanRun(e, Run(e2, sending), o, Expiring);
    StayOn(opening, passing);
    steps := Through(e, opening + passing, sending, ending);
  }

  lemma OnlyLossIsKnown(e: Engine, o: OpId, s: SessionId)
    requires OnlyLoss(e, s)
    ensures s in e.hall.clients && OnlyLoss(Opened(e, o, Expiring), s)
  {
  }

  /** A leave that was asked for while the session was connected, and is sent now. */
  lemma LateCommand(e: Engine, k: Engine, o: OpId, s: SessionId, r: RoomId) returns (steps: seq<Step>)
    requires Controls(e, k, o, s, Leaving(r), [Leave(s, r)]) && Inv(k) && k.hall.InCompany(s, r) && r != GLOBAL_ROOM
    ensures AllEnabled(k, steps) && Voluntary(steps) && Run(k, steps) == Closes(e, Moved(k, Left(k.hall, s, r)))
  {
    hide Inv, AllEnabled, Run, HX.Inv, HX.Sound, M.Queue.Inv, HM.Carries, Left, Controls;
    InvGround(k);
    ControlsParts(e, k, o, s, Leaving(r), [Leave(s, r)]);
    var moves := LeaveCanRun(k.hall, s, r);
    steps := LastCommand(e, k, o, s, Leaving(r), Leave(s, r), H.TakeLeave(s, r), moves, Left(k.hall, s, r));
  }

  /** From any such state the leave can come too late. */
  lemma LeaveComesLate(e: Engine, o: OpId, p: OpId, s: SessionId, r: RoomId, now: nat) returns (steps: seq<Step>)
    requires Gathered(e, s, r) && o != p
    ensures AllEnabled(e, steps) && Voluntary(steps) && Orphaned(Run(e, steps), s, r, now) && Run(e, steps).ops == map[]
  {
    hide Inv, AllEnabled, Run, Stay, Voluntary, HX.Inv, HX.Sound, M.Queue.Inv, HM.ToldAll, Left, Orphaned, S.Book.Inv;
    InvGround(e);
    var asking := ControlCanRun(e, o, s, Leaving(r), now);
    var e1 := Checked(e, o, s, Leaving(r));
    var cut := HallMoves(H.Changes(s, C.Cancelling));
    BreakCanRun(e1, s);
    StepKeepsInv(e1, cut);
    var e2 := Broken(e1, s);
    var passing := PassReports(e2, p, s, now);
    var e3 := Run(e2, passing);
    StillThere(e, e2, e3, s, r, now);
    var leaving := LateCommand(e, e3, o, s, r);
    EngineRun(e3, leaving);
    OrphanedAtLast(e3, Run(e3, leaving), s, r, now);
    Chain(e2, passing, leaving);
    Before(e1, cut, passing + leaving);
    Chain(e, asking, [cut] + (passing + leaving));
    steps := asking + ([cut] + (passing + leaving));
    StayIsVoluntary(passing);
    StayIsVoluntary(asking);
    VoluntaryOn(passing, leaving);
    CutIsVoluntary(s);
    VoluntaryOn([cut], passing + leaving);
    VoluntaryOn(asking, [cut] + (passing + leaving));
  }

  lemma CutIsVoluntary(s: SessionId)
    ensures Voluntary([HallMoves(H.Changes(s, C.Cancelling))])
  {
  }

  /** The room believes the loss, and the member is still in it. */
  lemma StillThere(e: Engine, m: Engine, k: Engine, s: SessionId, r: RoomId, now: nat)
    requires Gathered(e, s, r) && Suspended(m, k, s, now)
    requires m.hall.rooms == e.hall.rooms && m.hall.ledger == e.hall.ledger
    ensures k.hall.InCompany(s, r)
  {
    hide Inv, HX.Inv, HX.Sound, M.Queue.Inv, R.TakeTurn;
    InvGround(e);
    NotRecorded(e.hall, s, r);
    NotClosing(e.hall, r);
    HearsOfLoss(e.hall.rooms[r], s);
  }

  lemma OrphanedAtLast(k: Engine, z: Engine, s: SessionId, r: RoomId, now: nat)
    requires Inv(k) && Quiet(k) && k.hall.InCompany(s, r) && s in k.book.suspended && Resumable(k, s, now)
    requires Inv(z) && z == Moved(k, Left(k.hall, s, r)).(ops := map[], gates := map[], life := None)
    ensures Orphaned(z, s, r, now)
  {
    hide Inv, Left, HL.Missing;
    LeftRoom(k, s, r);
  }

  // ----- from the start of the engine ------------------------------------------------

  function Newcomer(): C.Client { C.Client(1, Some(C.Transport([], 0, false, false)), false) }

  /** The engine with a newcomer registered. */
  function Joined(e: Engine, s: SessionId): Engine {
    var clients := e.hall.clients[s := Newcomer()];
    e.(book := e.book.(clients := clients, sessions := e.book.sessions[s := Guest], proofs := e.book.proofs[s := s]),
       hall := e.hall.(clients := clients, snaps := e.hall.snaps[s := []]))
  }

  lemma RegisterCanRun(e: Engine, s: SessionId)
    requires e.book.clients == e.hall.clients && e.life.None? && s !in e.hall.clients
    requires |e.book.sessions| < e.book.capacity
    ensures Enabled(e, Registers(s, Guest, Newcomer(), s))
    ensures Next(e, Registers(s, Guest, Newcomer(), s)) == Joined(e, s)
  {
  }

  /** The engine takes a newcomer into the global room. */
  lemma EnterByHand(e: Engine, s: SessionId, r: RoomId) returns (steps: seq<Step>)
    requires Inv(e) && Quiet(e) && Enterable(e.hall, s, r)
    ensures AllEnabled(e, steps) && Stay(steps) && Inv(Run(e, steps))
    ensures Run(e, steps) == Moved(e, HM.Entered(e.hall, s, r))
  {
    hide Inv, AllEnabled, Run, HX.Inv, HX.Sound, M.Queue.Inv, HM.CanWork, HM.Worked, Enterable, HM.Entered;
    hide H.Enabled, H.Next;
    InvGround(e);
    var moves := EntryCanRun(e.hall, s, r);
    var step := HallMoves(H.TakeJoin(s, r));
    var k := Next(e, step);
    WorkLifts(k, moves);
    LiftedStays(k.hall, moves);
    Before(e, step, Lifted(moves));
    steps := [step] + Lifted(moves);
    EngineRun(e, steps);
  }

  /** A hall in which a room has just been made. */
  function Made(h: H.Hall, s: SessionId, capacity: nat, task: L.TaskId): H.Hall {
    h.(ledger := L.Prepared(h.ledger, task),
        rooms := h.rooms[h.ledger.nextId := R.Fresh(h.ledger.nextId, capacity, Some(s))])
  }

  /** The session can make a room that it is then taken into. */
  predicate Creatable(h: H.Hall, s: SessionId, capacity: nat, task: L.TaskId) {
    && h.job.Idle? && s in h.clients && task !in h.ledger.tasks && h.ledger.Allows(h.config, [s], capacity)
    && Enterable(Made(h, s, capacity, task), s, h.ledger.nextId)
  }

  lemma MakesRoom(h: H.Hall, s: SessionId, capacity: nat, task: L.TaskId) returns (moves: seq<H.Step>)
    requires HX.Sound(h) && Creatable(h, s, capacity, task)
    ensures HM.Carries(h, H.TakeCreate([s], capacity, task, true), moves,
            HM.Entered(Made(h, s, capacity, task), s, h.ledger.nextId))
  {
    hide HX.Sound, HM.CanWork, HM.Worked, HM.Welcomes, H.Hall.Entry, C.Client.Deliver, L.Ledger.Allows, L.Prepared;
    var (r, command) := (h.ledger.nextId, H.TakeCreate([s], capacity, task, true));
    var h1 := H.Next(h, command);
    HX.StepKeepsSound(h, command);
    assert h1 == Made(h, s, capacity, task).(job := H.Filling(r, [s], true, s));
    SameEntry(Made(h, s, capacity, task), h1, s, r);
    HM.OneMove(h1, H.NextJoin);
    var h2 := H.Next(h1, H.NextJoin);
    HX.StepKeepsSound(h1, H.NextJoin);
    assert [s][1..] == [];
    assert h2 == h1.(job := H.Waiting(s, r, H.Enter, H.Filling(r, [], true, s)));
    SameWelcome(Made(h, s, capacity, task), h2, s, r);
    var joining := HM.JoinCanRun(h2, H.Filling(r, [], true, s));
    RepliesOnce(HM.Worked(h2, joining));
    HM.WorkOn(h2, joining, [H.Reply(true)]);
    HM.WorkOn(h1, [H.NextJoin], joining + [H.Reply(true)]);
    moves := [H.NextJoin] + (joining + [H.Reply(true)]);
  }

  lemma SameEntry(h: H.Hall, k: H.Hall, s: SessionId, r: RoomId)
    requires k == h.(job := k.job)
    ensures k.Entry(s, r) == h.Entry(s, r)
  {
  }

  /** A player makes a room by a command of its connection. */
  lemma CreateByCommand(e: Engine, o: OpId, s: SessionId, capacity: nat, task: L.TaskId) returns (steps: seq<Step>)
    requires Commandable(e, o, s) && Creatable(e.hall, s, capacity, task)
    ensures AllEnabled(e, steps) && Stay(steps) && Inv(Run(e, steps))
    ensures Run(e, steps) == Unqueued(Moved(e, HM.Entered(Made(e.hall, s, capacity, task), s, e.hall.ledger.nextId)), s)
  {
    hide Inv, AllEnabled, Run, Stay, HX.Inv, HX.Sound, M.Queue.Inv, HM.Carries, HM.Entered, Creatable;
    hide M.Queue.TakeLeave, L.Prepared, Commandable;
    CommandableParts(e, o, s);
    InvGround(e);
    var moves := MakesRoom(e.hall, s, capacity, task);
    var command := H.TakeCreate([s], capacity, task, true);
    var h := HM.Entered(Made(e.hall, s, capacity, task), s, e.hall.ledger.nextId);
    steps := TwoCommands(e, o, s, Creating(capacity), 0, Create(s, capacity), command, moves, h);
  }

  function Told(rooms: seq<RoomId>): C.Client {
    C.Client(1, Some(C.Transport(seq(|rooms|, i requires 0 <= i < |rooms| => C.Joined(rooms[i])), 0, false, false)),
        false)
  }

  /** Two players in the global room, and nothing going on. */
  ghost predicate Lobby(e: Engine, config: Config, task: L.TaskId) {
    && Quiet(e) && e.ops == map[] && e.gates == map[]
    && e.book.suspended == map[] && e.book.grace == config.grace && e.book.sessions == map[1 := Guest, 2 := Guest]
    && e.hall.config == config
    && e.hall.ledger == L.Ledger(1, {GLOBAL_ROOM}, {(1, GLOBAL_ROOM), (2, GLOBAL_ROOM)}, map[task := GLOBAL_ROOM])
    && e.hall.clients == map[1 := Told([GLOBAL_ROOM]), 2 := Told([GLOBAL_ROOM])] && Inv(e)
  }

  /** The hall after each of the two has been taken into the global room. */
  function Lounge(config: Config, task: L.TaskId, members: set<SessionId>, trace: seq<R.GameEvent>,
                  links: set<L.Link>, one: C.Client, two: C.Client): H.Hall {
    H.Hall(config, L.Ledger(1, {GLOBAL_ROOM}, links, map[task := GLOBAL_ROOM]),
           map[GLOBAL_ROOM := R.Fresh(GLOBAL_ROOM, config.maxSessions, None).(members := members, trace := trace)],
           map[1 := one, 2 := two], map[1 := [], 2 := []], H.Idle)
  }

  lemma NobodyYet(s: SessionId)
    ensures L.RoomsIn({}, s) == {}
    ensures L.RoomsIn({(1, GLOBAL_ROOM)}, 2) == {}
  {
  }

  lemma FirstEnters(config: Config, task: L.TaskId)
    requires config.Accepted() && config.maxSessions > 1
    ensures var h := Lounge(config, task, {}, [], {}, Newcomer(), Newcomer());
            && Enterable(h, 1, GLOBAL_ROOM)
            && HM.Entered(h, 1, GLOBAL_ROOM)
                 == Lounge(config, task, {1}, [R.Entered(1)], {(1, GLOBAL_ROOM)}, Told([GLOBAL_ROOM]), Newcomer())
  {
    NobodyYet(1);
    Heard([], GLOBAL_ROOM);
    assert [] + [GLOBAL_ROOM] == [GLOBAL_ROOM];
    var h, k := Lounge(config, task, {}, [], {}, Newcomer(), Newcomer()),
        Lounge(config, task, {1}, [R.Entered(1)], {(1, GLOBAL_ROOM)}, Told([GLOBAL_ROOM]), Newcomer());
    assert {} + {(1, GLOBAL_ROOM)} == {(1, GLOBAL_ROOM)};
    assert [] + [R.Entered(1)] == [R.Entered(1)] && {} + {1} == {1};
    assert HM.Entered(h, 1, GLOBAL_ROOM).clients == k.clients && HM.Entered(h, 1, GLOBAL_ROOM).rooms == k.rooms;
  }

  lemma SecondEnters(config: Config, task: L.TaskId)
    requires config.Accepted() && config.maxSessions > 1
    ensures var h := Lounge(config, task, {1}, [R.Entered(1)], {(1, GLOBAL_ROOM)}, Told([GLOBAL_ROOM]), Newcomer());
            && Enterable(h, 2, GLOBAL_ROOM)
            && HM.Entered(h, 2, GLOBAL_ROOM)
            == Lounge(config, task, {1, 2}, [R.Entered(1), R.Entered(2)], {(1, GLOBAL_ROOM), (2, GLOBAL_ROOM)},
                Told([GLOBAL_ROOM]), Told([GLOBAL_ROOM]))
  {
    NobodyYet(2);
    Heard([], GLOBAL_ROOM);
    assert [] + [GLOBAL_ROOM] == [GLOBAL_ROOM];
    assert {(1, GLOBAL_ROOM)} + {(2, GLOBAL_ROOM)} == {(1, GLOBAL_ROOM), (2, GLOBAL_ROOM)};
    assert [R.Entered(1)] + [R.Entered(2)] == [R.Entered(1), R.Entered(2)];
    assert {1} + {2} == {1, 2};
    var h, links := Lounge(config, task, {1}, [R.Entered(1)], {(1, GLOBAL_ROOM)}, Told([GLOBAL_ROOM]), Newcomer()),
        {(1, GLOBAL_ROOM), (2, GLOBAL_ROOM)};
    var k := Lounge(config, task, {1, 2}, [R.Entered(1), R.Entered(2)], links, Told([GLOBAL_ROOM]),
        Told([GLOBAL_ROOM]));
    assert HM.Entered(h, 2, GLOBAL_ROOM).clients == k.clients && HM.Entered(h, 2, GLOBAL_ROOM).rooms == k.rooms;
  }

  /** A route delivered to a connection that has room for it. */
  lemma Heard(rooms: seq<RoomId>, r: RoomId)
    ensures Told([]) == Newcomer()
    ensures forall capacity: nat :: capacity > |rooms| ==>
            Told(rooms).Deliver(capacity, C.Joined(r)).0 == Told(rooms + [r])
  {
    var before, after := Told(rooms).transport.value.sent, Told(rooms + [r]).transport.value.sent;
    assert before + [C.Joined(r)] == after;
    assert Told([]).transport.value.sent == [];
  }

  /** Two have registered, and no room has let them in yet. */
  ghost predicate Arrived(e: Engine, config: Config, task: L.TaskId) {
    && Quiet(e) && e.hall == Lounge(config, task, {}, [], {}, Newcomer(), Newcomer())
    && e.ops == map[] && e.gates == map[] && e.book.suspended == map[] && e.book.grace == config.grace
    && e.book.sessions == map[1 := Guest, 2 := Guest] && Inv(e)
  }

  lemma TwoRegister(config: Config, task: L.TaskId) returns (steps: seq<Step>)
    requires config.Accepted() && config.maxSessions > 1
    ensures AllEnabled(Opening(config, task), steps) && Voluntary(steps)
    ensures Arrived(Run(Opening(config, task), steps), config, task)
  {
    hide Inv, AllEnabled, Run, Lounge, Voluntary;
    var e := Opening(config, task);
    OpeningHolds(config, task);
    var (first, second) := (Registers(1, Guest, Newcomer(), 1), Registers(2, Guest, Newcomer(), 2));
    RegisterCanRun(e, 1);
    RegisterCanRun(Joined(e, 1), 2);
    One(Joined(e, 1), second);
    Before(e, first, [second]);
    steps := [first] + [second];
    EngineRun(e, steps);
    BothJoined(config, task);
    RegisteringIsVoluntary(first);
    RegisteringIsVoluntary(second);
    VoluntaryOn([first], [second]);
  }

  lemma LobbyCanRun(config: Config, task: L.TaskId) returns (steps: seq<Step>)
    requires config.Accepted() && config.maxSessions > 1
    ensures AllEnabled(Opening(config, task), steps) && Voluntary(steps)
    ensures Lobby(Run(Opening(config, task), steps), config, task)
  {
    hide Inv, AllEnabled, Run, Stay, Voluntary, HM.Entered, Enterable, Lounge, Opening;
    var arriving := TwoRegister(config, task);
    var e1 := Run(Opening(config, task), arriving);
    FirstEnters(config, task);
    var first := EnterByHand(e1, 1, GLOBAL_ROOM);
    var e2 := Run(e1, first);
    SecondEnters(config, task);
    var second := EnterByHand(e2, 2, GLOBAL_ROOM);
    TheLobby(e1, Run(e2, second), config, task);
    Chain(e1, first, second);
    Chain(Opening(config, task), arriving, first + second);
    StayIsVoluntary(first);
    StayIsVoluntary(second);
    VoluntaryOn(first, second);
    VoluntaryOn(arriving, first + second);
    steps := arriving + (first + second);
  }

  lemma RegisteringIsVoluntary(step: Step)
    requires step.Registers?
    ensures Voluntary([step])
  {
  }

  lemma BothJoined(config: Config, task: L.TaskId)
    ensures var e := Joined(Joined(Opening(config, task), 1), 2);
            && e.hall == Lounge(config, task, {}, [], {}, Newcomer(), Newcomer()) && Quiet(e)
            && e.ops == map[] && e.gates == map[] && e.book.suspended == map[] && e.book.grace == config.grace
            && e.book.sessions == map[1 := Guest, 2 := Guest]
  {
  }

  lemma TheLobby(e: Engine, k: Engine, config: Config, task: L.TaskId)
    requires Arrived(e, config, task) && Inv(k)
    requires k == Moved(e, Lounge(config, task, {1, 2}, [R.Entered(1), R.Entered(2)],
            {(1, GLOBAL_ROOM), (2, GLOBAL_ROOM)},
                                  Told([GLOBAL_ROOM]), Told([GLOBAL_ROOM])))
    ensures Lobby(k, config, task)
  {
    hide Inv;
  }

  // ----- two players in a room of their own ------------------------------------------

  lemma OneCreates(e: Engine, config: Config, task: L.TaskId)
    requires Lobby(e, config, task) && config.Accepted() && config.maxRooms > 1 && config.maxRoomPlayers > 1
    ensures Commandable(e, 0, 1) && Creatable(e.hall, 1, 2, task + 1) && e.hall.ledger.nextId == 1
  {
    hide Inv;
    assert L.RoomsIn({(1, GLOBAL_ROOM), (2, GLOBAL_ROOM)}, 1) == {GLOBAL_ROOM};
  }

  /** The first of the two has made a room. */
  ghost predicate Hosting(e: Engine, k: Engine, task: L.TaskId) {
    k == Unqueued(Moved(e, HM.Entered(Made(e.hall, 1, 2, task + 1), 1, 1)), 1) && Inv(k)
  }

  lemma AnotherJoins(e: Engine, k: Engine, config: Config, task: L.TaskId)
    requires Lobby(e, config, task) && config.Accepted() && Hosting(e, k, task)
    ensures Commandable(k, 0, 2) && Enterable(k.hall, 2, 1)
  {
    hide Inv, C.Client.Deliver, M.Queue.TakeLeave;
    var links := {(1, GLOBAL_ROOM), (2, GLOBAL_ROOM)} + {(1, 1)};
    assert L.RoomsIn(links, 2) == {GLOBAL_ROOM};
    assert k.hall.Of(2) == Told([GLOBAL_ROOM]);
  }

  lemma GatheredAtLast(e: Engine, k: Engine, z: Engine, config: Config, task: L.TaskId)
    requires Lobby(e, config, task) && config.Accepted() && Hosting(e, k, task)
    requires Inv(z) && z == Unqueued(Moved(k, HM.Entered(k.hall, 2, 1)), 2)
    ensures Gathered(z, 1, 1)
  {
    hide Inv, C.Client.Deliver, M.Queue.TakeLeave;
    Heard([GLOBAL_ROOM], 1);
    assert z.hall.clients[1] == Told([GLOBAL_ROOM] + [1]) && z.hall.clients[2] == Told([GLOBAL_ROOM] + [1]);
    assert 2 in z.hall.rooms[1].members;
  }

  lemma TwoGather(e: Engine, config: Config, task: L.TaskId) returns (steps: seq<Step>)
    requires Lobby(e, config, task) && config.Accepted() && config.maxRooms > 1 && config.maxRoomPlayers > 1
    ensures AllEnabled(e, steps) && Stay(steps) && Gathered(Run(e, steps), 1, 1)
  {
    hide Inv, AllEnabled, Run, Stay, HM.Entered, Enterable, Creatable, Made, M.Queue.TakeLeave, Open, Commandable;
    OneCreates(e, config, task);
    var creating := CreateByCommand(e, 0, 1, 2, task + 1);
    var k := Run(e, creating);
    AnotherJoins(e, k, config, task);
    var joining := JoinByCommand(k, 0, 2, 1, 0);
    GatheredAtLast(e, k, Run(k, joining), config, task);
    Chain(e, creating, joining);
    StayOn(creating, joining);
    steps := creating + joining;
  }

  /** Under every configuration that allows of two players in a room, the engine has a run in
      which a game hears twice that one player's connection was lost and not once that it was
      back, although nobody left a room but by its own command. */
  lemma LossesMayRepeat(config: Config, task: L.TaskId) returns (steps: seq<Step>)
    requires config.Accepted() && config.maxSessions > 1 && config.maxRooms > 1 && config.maxRoomPlayers > 1
    ensures AllEnabled(Opening(config, task), steps) && Voluntary(steps)
    ensures !Ruled(Run(Opening(config, task), steps).hall, 1, 1)
  {
    hide AllEnabled, Run, Stay, Voluntary, Lobby, Gathered, Orphaned, Ruled;
    var arriving := LobbyCanRun(config, task);
    var e1 := Run(Opening(config, task), arriving);
    var gathering := TwoGather(e1, config, task);
    var e2 := Run(e1, gathering);
    var leaving := LeaveComesLate(e2, 0, 1, 1, 1, 0);
    var e3 := Run(e2, leaving);
    var losing := LosesAgain(e3, 0, 1, 1, 0);
    Chain(e2, leaving, losing);
    Chain(e1, gathering, leaving + losing);
    Chain(Opening(config, task), arriving, gathering + (leaving + losing));
    StayIsVoluntary(gathering);
    StayIsVoluntary(losing);
    VoluntaryOn(leaving, losing);
    VoluntaryOn(gathering, leaving + losing);
    VoluntaryOn(arriving, gathering + (leaving + losing));
    steps := arriving + (gathering + (leaving + losing));
  }
}
