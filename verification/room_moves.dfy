/** What the room manager can do with a command once it has taken it, rooms answering as they
    should: the runs by which commands are carried through. */
module RoomMoves {
  import opened Types
  import opened Clients
  import opened Rooms
  import opened RoomManagers
  import opened RoomSystem
  import opened RoomCopies
  import opened RoomNotices
  import opened RoomRuns

  // ----- working on one command ------------------------------------------------------

  predicate Works(move: Step) {
    move.NextJoin? || move.NextVisit? || move.Hear? || move.Reply? || move.Answers?
  }

  /** The manager is busy until the last of the moves. */
  ghost predicate CanWork(h: Hall, moves: seq<Step>)
    decreases |moves|
  {
    moves == [] || (!h.job.Idle? && Works(moves[0]) && Enabled(h, moves[0]) && CanWork(Next(h, moves[0]), moves[1..]))
  }

  ghost function Worked(h: Hall, moves: seq<Step>): Hall
    decreases |moves|
  {
    if moves == [] then h else Worked(Next(h, moves[0]), moves[1..])
  }

  lemma {:induction false} WorkOn(h: Hall, moves: seq<Step>, more: seq<Step>)
    requires CanWork(h, moves) && CanWork(Worked(h, moves), more)
    ensures CanWork(h, moves + more) && Worked(h, moves + more) == Worked(Worked(h, moves), more)
    decreases |moves|
  {
    hide Enabled, Next;
    if moves == [] {
      assert moves + more == more;
    } else {
      assert (moves + more)[1..] == moves[1..] + more;
      WorkOn(Next(h, moves[0]), moves[1..], more);
    }
  }

  lemma OneMove(h: Hall, move: Step)
    requires !h.job.Idle? && Works(move) && Enabled(h, move)
    ensures CanWork(h, [move]) && Worked(h, [move]) == Next(h, move)
  {
    hide Enabled, Next;
    assert [move][1..] == [];
  }

  lemma {:induction false} WorkIsSound(h: Hall, moves: seq<Step>)
    requires Sound(h) && CanWork(h, moves)
    ensures Sound(Worked(h, moves))
    decreases |moves|
  {
    hide Sound, Enabled, Next;
    if moves != [] {
      StepKeepsSound(h, moves[0]);
      WorkIsSound(Next(h, moves[0]), moves[1..]);
    }
  }

  /** The manager takes a command and carries it through. */
  ghost predicate Carries(h: Hall, command: Step, moves: seq<Step>, k: Hall) {
    && Enabled(h, command) && CanWork(Next(h, command), moves) && Worked(Next(h, command), moves) == k
    && k.job.Idle? && (Next(h, command).job.Idle? ==> moves == [])
  }

  // ----- one visit -------------------------------------------------------------------

  predicate Asks(h: Hall, r: RoomId) {
    h.job.Visiting? && r in h.ledger.open && (h.job.errand.Tell? || (h.job.s, r) in h.ledger.links)
  }

  /** The room has heard the notice. */
  function Told(h: Hall, s: SessionId, up: bool, r: RoomId): Hall {
    if r in h.rooms then h.(rooms := h.rooms[r := TakeTurn(h.rooms[r], ConnectionTurn(s, up, Returns))]) else h
  }

  /** The room has let the session go. */
  function Freed(h: Hall, s: SessionId, r: RoomId): Hall {
    if r in h.rooms && h.rooms[r].alive
    then h.(rooms := h.rooms[r := TakeTurn(h.rooms[r], LeaveTurn(s, h.Of(s), h.config.outboundCapacity, Returns))],
            clients := h.clients[s := h.rooms[r].Leave(s, h.Of(s), h.config.outboundCapacity, Returns).1])
    else h
  }

  function Visited(h: Hall, r: RoomId): Hall {
    if !h.job.Visiting? then h else
    var rest := h.job.(todo := h.job.todo - {r});
    match h.job.errand
    case Tell(up) => (if Asks(h, r) then Told(h, h.job.s, up, r) else h).(job := rest)
    case _ => (if Asks(h, r) then Freed(h, h.job.s, r) else h).Withdrawn(h.job.s, r, rest)
  }

  lemma AnswersAndHears(h: Hall)
    requires JobOk(h) && h.job.Waiting? && !h.job.errand.Enter? && h.job.room in h.rooms
    ensures var moves := [Answers(true, Returns), Hear];
            var (s, r, next) := (h.job.s, h.job.room, h.job.next);
            && CanWork(h, moves)
            && Worked(h, moves) == (match h.job.errand
                                    case Tell(up) => Told(h, s, up, r).(job := next)
                                    case _ => Freed(h, s, r).Withdrawn(s, r, next))
  {
    hide TakeTurn, Actor.Leave, JobOk, CanWork, Worked;
    var k := h.Answers(true, Returns);
    assert k.job.Heard?;
    OneMove(h, Answers(true, Returns));
    OneMove(k, Hear);
    WorkOn(h, [Answers(true, Returns)], [Hear]);
    assert [Answers(true, Returns)] + [Hear] == [Answers(true, Returns), Hear];
    if h.job.errand.Tell? && !h.rooms[h.job.room].alive {
      PutSame(h.rooms, h.job.room);
      DeadTurn(h.rooms[h.job.room], ConnectionTurn(h.job.s, h.job.errand.up, Returns));
    }
  }

  lemma DeadTurn(a: Actor, turn: Turn)
    requires !a.alive
    ensures TakeTurn(a, turn) == a
  {
  }

  lemma VisitCanRun(h: Hall, r: RoomId) returns (moves: seq<Step>)
    requires Sound(h) && h.job.Visiting? && r in h.job.todo
    ensures CanWork(h, moves) && Worked(h, moves) == Visited(h, r)
  {
    hide Cast, Copies, Ledgered, RoomRoutes.Told, Spoken, TakeTurn, Hall.Withdrawn, Freed, Told;
    var k := h.NextVisit(r);
    OneMove(h, NextVisit(r));
    moves := [NextVisit(r)];
    if Asks(h, r) {
      StepKeepsSound(h, NextVisit(r));
      OpenIsThere(h, r);
      AnswersAndHears(k);
      WorkOn(h, moves, [Answers(true, Returns), Hear]);
      moves := moves + [Answers(true, Returns), Hear];
      IgnoresJob(h, k, h.job.s, r);
    }
  }

  lemma OpenIsThere(h: Hall, r: RoomId)
    requires Cast(h) && r in h.ledger.open
    ensures r in h.rooms
  {
  }

  lemma IgnoresJob(h: Hall, k: Hall, s: SessionId, r: RoomId)
    requires k == h.(job := k.job)
    ensures forall up :: Told(k, s, up, r) == Told(h, s, up, r).(job := k.job)
    ensures Freed(k, s, r) == Freed(h, s, r).(job := k.job)
    ensures forall next :: Freed(k, s, r).Withdrawn(s, r, next) == Freed(h, s, r).Withdrawn(s, r, next)
  {
    hide TakeTurn, Actor.Leave;
  }

  lemma EndsRound(h: Hall)
    requires h.job.Visiting? && h.job.todo == {}
    ensures CanWork(h, [NextVisit(0)]) && Worked(h, [NextVisit(0)]) == h.(job := Idle)
  {
    OneMove(h, NextVisit(0));
  }

  // ----- whole rounds ----------------------------------------------------------------

  /** Every recorded room among `some` has heard the notice. */
  function ToldAll(h: Hall, s: SessionId, up: bool, some: set<RoomId>): map<RoomId, Actor> {
    map r | r in h.rooms :: if r in some && r in h.ledger.open
        then TakeTurn(h.rooms[r], ConnectionTurn(s, up, Returns)) else h.rooms[r]
  }

  lemma ToldOneMore(h: Hall, s: SessionId, up: bool, some: set<RoomId>, r: RoomId)
    requires r in some
    ensures var k := if r in h.ledger.open then Told(h, s, up, r) else h;
            ToldAll(k, s, up, some - {r}) == ToldAll(h, s, up, some)
  {
    hide TakeTurn;
  }

  /** A notice goes round all the rooms it is for. */
  lemma {:induction false} RoundTells(h: Hall) returns (moves: seq<Step>)
    requires Sound(h) && h.job.Visiting? && h.job.errand.Tell?
    ensures CanWork(h, moves)
    ensures Worked(h, moves) == h.(rooms := ToldAll(h, h.job.s, h.job.errand.up, h.job.todo), job := Idle)
    decreases h.job.todo
  {
    hide Sound, CanWork, Worked, TakeTurn, ToldAll;
    if h.job.todo == {} {
      moves := [NextVisit(0)];
      EndsRound(h);
      NobodyTold(h, h.job.s, h.job.errand.up);
    } else {
      var r :| r in h.job.todo;
      moves := VisitCanRun(h, r);
      WorkIsSound(h, moves);
      var k := Visited(h, r);
      var rest := RoundTells(k);
      WorkOn(h, moves, rest);
      moves := moves + rest;
      ToldOneMore(h, h.job.s, h.job.errand.up, h.job.todo, r);
      ToldAlike(k, if r in h.ledger.open then Told(h, h.job.s, h.job.errand.up, r)
          else h, h.job.s, h.job.errand.up, h.job.todo - {r});
    }
  }

  lemma NobodyTold(h: Hall, s: SessionId, up: bool)
    ensures ToldAll(h, s, up, {}) == h.rooms
  {
  }

  lemma ToldAlike(h: Hall, k: Hall, s: SessionId, up: bool, some: set<RoomId>)
    requires k.rooms == h.rooms && k.ledger.open == h.ledger.open
    ensures ToldAll(k, s, up, some) == ToldAll(h, s, up, some)
  {
  }

  /** An eviction goes round all the rooms of its session. */
  lemma {:induction false} RoundEvicts(h: Hall) returns (moves: seq<Step>)
    requires Sound(h) && h.job.Visiting? && h.job.errand.Depart? && h.job.all
    ensures CanWork(h, moves) && Worked(h, moves).job.Idle? && Worked(h, moves).ledger.RoomsOf(h.job.s) == {}
    decreases h.job.todo
  {
    hide Sound, CanWork, Worked, TakeTurn, Freed, Hall.Withdrawn;
    if h.job.todo == {} {
      moves := [NextVisit(0)];
      EndsRound(h);
      EvictedIsOut(h);
    } else {
      var r :| r in h.job.todo;
      moves := VisitCanRun(h, r);
      WorkIsSound(h, moves);
      WithdrawnGoesOn(if Asks(h, r) then Freed(h, h.job.s, r) else h, h.job.s, r, h.job.(todo := h.job.todo - {r}));
      var rest := RoundEvicts(Visited(h, r));
      WorkOn(h, moves, rest);
      moves := moves + rest;
    }
  }

  lemma EvictedIsOut(h: Hall)
    requires Sound(h) && h.job.Visiting? && h.job.errand.Depart? && h.job.all && h.job.todo == {}
    ensures h.ledger.RoomsOf(h.job.s) == {}
  {
    hide Cast, Copies, Ledgered, RoomRoutes.Told, Spoken;
  }

  /** Leaving one room. */
  lemma RoundLeaves(h: Hall, r: RoomId) returns (moves: seq<Step>)
    requires Sound(h) && h.job.Visiting? && h.job.errand.Depart? && h.job.todo == {r}
    ensures CanWork(h, moves) && Worked(h, moves) == Visited(h, r).(job := Idle)
  {
    hide Sound, CanWork, Worked, TakeTurn, Freed, Hall.Withdrawn;
    moves := VisitCanRun(h, r);
    WithdrawnGoesOn(if Asks(h, r) then Freed(h, h.job.s, r) else h, h.job.s, r, h.job.(todo := h.job.todo - {r}));
    assert h.job.todo - {r} == {};
    EndsRound(Visited(h, r));
    WorkOn(h, moves, [NextVisit(0)]);
    moves := moves + [NextVisit(0)];
  }

  // ----- joining ---------------------------------------------------------------------

  /** The room is open to somebody who is not in it. */
  predicate Welcomes(h: Hall, s: SessionId, r: RoomId) {
    h.Vacant(s, r) && !h.Of(s).IsClosed() && h.Of(s).transport.value.Queued() < h.config.outboundCapacity
  }

  function Entered(h: Hall, s: SessionId, r: RoomId): Hall {
    if r !in h.rooms then h else
    h.(rooms := h.rooms[r := h.rooms[r].(members := h.rooms[r].members + {s},
        trace := h.rooms[r].trace + [GameEvent.Entered(s)])],
       clients := h.clients[s := h.Of(s).Deliver(h.config.outboundCapacity, Joined(r)).0],
       ledger := h.ledger.Grant(s, r))
  }

  lemma EntersRoom(a: Actor, s: SessionId, c: Client, outbound: nat)
    requires a.Running() && !a.closing && s !in a.members && |a.members| < a.capacity
    requires !c.IsClosed() && c.transport.value.Queued() < outbound
    ensures var b := a.(members := a.members + {s}, trace := a.trace + [GameEvent.Entered(s)]);
            && TakeTurn(a, JoinTurn(s, c, outbound, true, Returns)) == b
            && a.Join(s, c, outbound, true, Returns) == (b, c.Deliver(outbound, Joined(a.id)).0, Ok(()))
  {
  }

  lemma JoinCanRun(h: Hall, next: Job) returns (moves: seq<Step>)
    requires Sound(h) && h.job.Waiting? && h.job.errand.Enter? && h.job.next == next && Welcomes(h, h.job.s, h.job.room)
    ensures CanWork(h, moves) && Worked(h, moves) == Entered(h, h.job.s, h.job.room).(job := next)
  {
    hide TakeTurn, Actor.Join, Client.Deliver, Client.IsClosed, Copies, Ledgered, RoomRoutes.Told, Spoken, JobOk;
    hide TraceOk;
    var (s, r) := (h.job.s, h.job.room);
    assert !h.rooms[r].closing;
    EntersRoom(h.rooms[r], s, h.Of(s), h.config.outboundCapacity);
    var k := h.Answers(true, Returns);
    assert k.job == Heard(s, r, Enter, true, next);
    OneMove(h, Answers(true, Returns));
    OneMove(k, Hear);
    WorkOn(h, [Answers(true, Returns)], [Hear]);
    moves := [Answers(true, Returns)] + [Hear];
  }
}
