/** One room actor (src/actors/room.rs): its members, its host and the order in which its
    game sees events. */
module Rooms {
  import opened Types
  import opened Clients

  datatype GameEvent =
    | Entered(player: SessionId) | Exited(player: SessionId)
    | Disconnected(player: SessionId) | Reconnected(player: SessionId)
    | Message(player: SessionId, generation: Option<nat>)
    | System | Tick | Closing

  /** What a game callback may do besides sending frames. */
  datatype Callback = Returns | AsksToClose | Panics

  datatype Actor = Actor(
    id: RoomId, capacity: nat, host: Option<SessionId>, members: set<SessionId>,
    closing: bool, alive: bool, stopped: bool, trace: seq<GameEvent>)
  {
    /** Its handle is open: the actor still reads its mailbox and nobody told it to stop. */
    predicate Running() { alive && !stopped }

    function Dispatch(event: GameEvent, callback: Callback): Actor {
      this.(trace := trace + [event],
            closing := closing || (callback.AsksToClose? && id != GLOBAL_ROOM),
            alive := alive && !callback.Panics?)
    }

    /** Leaving the loop: the game hears of it and the handle is closed. */
    function Shut(): Actor {
      if alive then this.(trace := trace + [GameEvent.Closing], stopped := true, alive := false) else this
    }

    function EndTurn(): Actor { if closing then Shut() else this }

    /** The Join command, up to its reply: the actor, the client and what the manager hears (a
        panic drops the reply, which the manager reads as a missing room). */
    function Join(s: SessionId, c: Client, outbound: nat, admit: bool, callback: Callback): (Actor, Client,
                  Result<()>) {
      if c.IsClosed() then (this, c, Err(Error.Closed))
      else if s in members then (this, c, Ok(()))
      else if |members| >= capacity then (this, c, Err(RoomFull))
      else if !admit then (this, c, Err(Denied))
      else
        var (d, sent) := c.Deliver(outbound, Joined(id));
        if sent.Err? then (this, d, sent)
        else
          var a := this.(members := members + {s}).Dispatch(Entered(s), callback);
          (a, d, if a.alive then Ok(()) else Err(RoomNotFound))
    }

    /** The reply of a Join could not be delivered: a new member is taken out again. */
    function Retract(s: SessionId, callback: Callback): Actor {
      if alive && s in members then this.(members := members - {s}).Dispatch(Exited(s), callback) else this
    }

    function Leave(s: SessionId, c: Client, outbound: nat, callback: Callback): (Actor, Client) {
      if s !in members then (ShutIfEmpty(), c)
      else
        var d := c.Deliver(outbound, Left(id)).0;
        var a := this.(members := members - {s}, host := if host == Some(s) then None else host);
        (a.Dispatch(Exited(s), callback).ShutIfEmpty(), d)
    }

    function ShutIfEmpty(): Actor {
      if id != GLOBAL_ROOM && members == {} then Shut() else this
    }

    function Connection(s: SessionId, up: bool, callback: Callback): Actor {
      if s in members
      then Dispatch(if up then Reconnected(s) else Disconnected(s), callback)
      else this
    }

    function Packet(s: SessionId, c: Client, g: Option<nat>, allowInput: bool, callback: Callback): Actor {
      if allowInput && s in members && (if g.Some? then c.IsCurrent(g.value) else !c.IsClosed())
      then Dispatch(Message(s, g), callback)
      else this
    }
  }

  function Fresh(id: RoomId, capacity: nat, host: Option<SessionId>): Actor {
    Actor(id, capacity, host, {}, false, true, false, [])
  }

  // ----- the trace -------------------------------------------------------------------

  /** Players who have entered and not yet exited. */
  function Present(trace: seq<GameEvent>): set<SessionId> {
    if trace == [] then {}
    else
      var before := Present(trace[..|trace| - 1]);
      match trace[|trace| - 1]
      case Entered(s) => before + {s}
      case Exited(s) => before - {s}
      case _ => before
  }

  /** The game last heard that this player's transport was lost during the current stay. */
  predicate Down(trace: seq<GameEvent>, s: SessionId) {
    trace != [] &&
    match trace[|trace| - 1]
    case Entered(x) => if x == s then false else Down(trace[..|trace| - 1], s)
    case Exited(x) => if x == s then false else Down(trace[..|trace| - 1], s)
    case Reconnected(x) => if x == s then false else Down(trace[..|trace| - 1], s)
    case Disconnected(x) => if x == s then true else Down(trace[..|trace| - 1], s)
    case _ => Down(trace[..|trace| - 1], s)
  }

  predicate NeedsMember(event: GameEvent) {
    event.Message? || event.Disconnected? || event.Reconnected? || event.Exited?
  }

  /** The player an event is about was a member when the game heard it. */
  ghost predicate FromMembers(trace: seq<GameEvent>) {
    forall i :: 0 <= i < |trace| && NeedsMember(trace[i]) ==> trace[i].player in Present(trace[..i])
  }

  /** Nobody enters twice without exiting in between. */
  ghost predicate EntersOnce(trace: seq<GameEvent>) {
    forall i :: 0 <= i < |trace| && trace[i].Entered? ==> trace[i].player !in Present(trace[..i])
  }

  ghost predicate TraceOk(a: Actor) {
    && Present(a.trace) == a.members
    && FromMembers(a.trace)
    && EntersOnce(a.trace)
    && |a.members| <= a.capacity
  }

  lemma Extend(trace: seq<GameEvent>, event: GameEvent)
    ensures (trace + [event])[..|trace|] == trace
    ensures event.Entered? ==> Present(trace + [event]) == Present(trace) + {event.player}
    ensures event.Exited? ==> Present(trace + [event]) == Present(trace) - {event.player}
    ensures !event.Entered? && !event.Exited? ==> Present(trace + [event]) == Present(trace)
    ensures forall s :: Down(trace + [event], s) ==
                        (if (event.Entered? || event.Exited? || event.Reconnected?) && event.player == s then false
                         else if event == Disconnected(s) then true
                         else Down(trace, s))
    ensures forall i :: 0 <= i <= |trace| ==> (trace + [event])[..i] == trace[..i]
  {
    assert (trace + [event])[..|trace|] == trace;
  }

  /** One more event about a present player keeps the trace well formed. */
  lemma DispatchKeepsTrace(a: Actor, event: GameEvent, callback: Callback)
    requires FromMembers(a.trace) && EntersOnce(a.trace)
    requires event.Entered? ==> event.player !in Present(a.trace)
    requires NeedsMember(event) ==> event.player in Present(a.trace)
    ensures FromMembers(a.Dispatch(event, callback).trace) && EntersOnce(a.Dispatch(event, callback).trace)
  {
    Extend(a.trace, event);
  }

  lemma ShutKeepsTrace(a: Actor)
    requires TraceOk(a)
    ensures TraceOk(a.Shut()) && TraceOk(a.EndTurn()) && TraceOk(a.ShutIfEmpty())
  {
    Extend(a.trace, GameEvent.Closing);
    DispatchKeepsTrace(a, GameEvent.Closing, Returns);
  }

  /** A command the actor takes from its mailbox, with the state its client is in by then and
      the behaviour of the game. */
  datatype Turn =
    | JoinTurn(s: SessionId, c: Client, outbound: nat, admit: bool, callback: Callback)
    | JoinUnheard(s: SessionId, c: Client, outbound: nat, admit: bool, callback: Callback, second: Callback)
    | LeaveTurn(s: SessionId, c: Client, outbound: nat, callback: Callback)
    | ConnectionTurn(s: SessionId, up: bool, callback: Callback)
    | PacketTurn(s: SessionId, c: Client, generation: Option<nat>, allowInput: bool, callback: Callback)
    | WorkerTurn(tick: bool, callback: Callback)
    | Stopped
    | Crashed

  function Handle(a: Actor, turn: Turn): Actor {
    match turn
    case JoinTurn(s, c, outbound, admit, callback) => a.Join(s, c, outbound, admit, callback).0
    case JoinUnheard(s, c, outbound, admit, callback, second) =>
      var b := a.Join(s, c, outbound, admit, callback).0;
      if s in a.members then b else b.Retract(s, second)
    case LeaveTurn(s, c, outbound, callback) => a.Leave(s, c, outbound, callback).0
    case ConnectionTurn(s, up, callback) => a.Connection(s, up, callback)
    case PacketTurn(s, c, g, allowInput, callback) => a.Packet(s, c, g, allowInput, callback)
    case WorkerTurn(tick, callback) => a.Dispatch(if tick then Tick else System, callback)
    case Stopped => a.(stopped := true).Shut()
    case Crashed => a.(alive := false)
  }

  function TakeTurn(a: Actor, turn: Turn): Actor {
    if a.alive then Handle(a, turn).EndTurn() else a
  }

  lemma JoinKeepsTrace(a: Actor, s: SessionId, c: Client, outbound: nat, admit: bool, callback: Callback)
    requires TraceOk(a)
    ensures TraceOk(a.Join(s, c, outbound, admit, callback).0)
  {
    if s !in a.members && |a.members| < a.capacity {
      Extend(a.trace, Entered(s));
      DispatchKeepsTrace(a, Entered(s), callback);
    }
  }

  lemma RemovalKeepsTrace(a: Actor, b: Actor, s: SessionId, callback: Callback)
    requires TraceOk(a) && s in a.members
    requires b.trace == a.trace && b.members == a.members - {s} && b.capacity == a.capacity
    ensures TraceOk(b.Dispatch(Exited(s), callback))
  {
    Extend(a.trace, Exited(s));
    DispatchKeepsTrace(a, Exited(s), callback);
  }

  lemma PlainEventKeepsTrace(a: Actor, event: GameEvent, callback: Callback)
    requires TraceOk(a) && !event.Entered? && !event.Exited?
    requires NeedsMember(event) ==> event.player in a.members
    ensures TraceOk(a.Dispatch(event, callback))
  {
    Extend(a.trace, event);
    DispatchKeepsTrace(a, event, callback);
  }

  lemma LeaveKeepsTrace(a: Actor, s: SessionId, c: Client, outbound: nat, callback: Callback)
    requires TraceOk(a)
    ensures TraceOk(a.Leave(s, c, outbound, callback).0)
  {
    if s in a.members {
      var b := a.(members := a.members - {s}, host := if a.host == Some(s) then None else a.host);
      RemovalKeepsTrace(a, b, s, callback);
      ShutKeepsTrace(b.Dispatch(Exited(s), callback));
    } else {
      ShutKeepsTrace(a);
    }
  }

  lemma RetractKeepsTrace(a: Actor, s: SessionId, callback: Callback)
    requires TraceOk(a)
    ensures TraceOk(a.Retract(s, callback))
  {
    if a.alive && s in a.members { RemovalKeepsTrace(a, a.(members := a.members - {s}), s, callback); }
  }

  lemma HandlingKeepsTrace(a: Actor, turn: Turn)
    requires TraceOk(a)
    ensures TraceOk(Handle(a, turn))
  {
    match turn {
      case JoinTurn(s, c, outbound, admit, callback) =>
        JoinKeepsTrace(a, s, c, outbound, admit, callback);
      case JoinUnheard(s, c, outbound, admit, callback, second) =>
        JoinKeepsTrace(a, s, c, outbound, admit, callback);
        RetractKeepsTrace(a.Join(s, c, outbound, admit, callback).0, s, second);
      case LeaveTurn(s, c, outbound, callback) => LeaveKeepsTrace(a, s, c, outbound, callback);
      case ConnectionTurn(s, up, callback) =>
        if s in a.members { PlainEventKeepsTrace(a, if up then Reconnected(s) else Disconnected(s), callback); }
      case PacketTurn(s, c, g, allowInput, callback) =>
        if s in a.members { PlainEventKeepsTrace(a, Message(s, g), callback); }
      case WorkerTurn(tick, callback) => PlainEventKeepsTrace(a, if tick then Tick else System, callback);
      case Stopped => ShutKeepsTrace(a.(stopped := true));
      case Crashed =>
    }
  }

  lemma TurnKeepsTrace(a: Actor, turn: Turn)
    requires TraceOk(a)
    ensures TraceOk(TakeTurn(a, turn))
  {
    HandlingKeepsTrace(a, turn);
    ShutKeepsTrace(Handle(a, turn));
  }

  /** What one step of an actor never does: unsay an event, appoint a host, or move. */
  predicate Extends(a: Actor, b: Actor) {
    a.trace <= b.trace && (b.host == a.host || b.host == None) && b.id == a.id && b.capacity == a.capacity
  }

  function TakeTurns(a: Actor, turns: seq<Turn>): Actor
    decreases |turns|
  {
    if turns == [] then a else TakeTurns(TakeTurn(a, turns[0]), turns[1..])
  }

  lemma TurnExtends(a: Actor, turn: Turn)
    ensures Extends(a, TakeTurn(a, turn))
  {
    HandlingExtends(a, turn);
    assert Extends(Handle(a, turn), Handle(a, turn).EndTurn());
  }

  lemma HandlingExtends(a: Actor, turn: Turn)
    ensures Extends(a, Handle(a, turn))
  {
    match turn {
      case JoinUnheard(s, c, outbound, admit, callback, second) =>
        var b := a.Join(s, c, outbound, admit, callback).0;
        assert Extends(a, b) && Extends(b, b.Retract(s, second));
      case LeaveTurn(s, c, outbound, callback) => LeaveExtends(a, s, c, outbound, callback);
      case _ =>
    }
  }

  lemma LeaveExtends(a: Actor, s: SessionId, c: Client, outbound: nat, callback: Callback)
    ensures Extends(a, a.Leave(s, c, outbound, callback).0)
  {
    var b := a.(members := a.members - {s}, host := if a.host == Some(s) then None else a.host)
             .Dispatch(Exited(s), callback);
    assert Extends(a, b) && Extends(b, b.ShutIfEmpty());
  }

  /** Over every run of a room, with worker events limited to System: the member set is always
      exactly the players Entered and not yet Exited, messages and connection events are only
      ever about members, the capacity holds, events are never unsaid, and the host is the
      initial one until it becomes nobody for good. */
  lemma {:induction false} RoomRun(a: Actor, turns: seq<Turn>)
    requires TraceOk(a)
    ensures var b := TakeTurns(a, turns);
            && TraceOk(b)
            && Extends(a, b)
            && (!a.alive ==> b == a)
    decreases |turns|
  {
    if turns != [] {
      TurnKeepsTrace(a, turns[0]);
      TurnExtends(a, turns[0]);
      RoomRun(TakeTurn(a, turns[0]), turns[1..]);
    }
  }

  // ----- who comes and goes ----------------------------------------------------------

  /** A join that takes effect: of an open client that is not in the room yet, fits, can be told, and
      is admitted by the game. */
  predicate Comes(a: Actor, turn: Turn) {
    && a.alive && (turn.JoinTurn? || turn.JoinUnheard?) && turn.admit
    && turn.s !in a.members && |a.members| < a.capacity && Accepts(turn.outbound, turn.c, None)
  }

  /** If nobody hears the reply, only a game that panics at its entry leaves it in the dead room. */
  predicate Enters(a: Actor, turn: Turn, s: SessionId) {
    Comes(a, turn) && turn.s == s && (turn.JoinUnheard? ==> turn.callback.Panics?)
  }

  predicate Departs(a: Actor, turn: Turn, s: SessionId) { a.alive && turn.LeaveTurn? && turn.s == s && s in a.members }

  lemma JoinEnters(a: Actor, turn: Turn)
    requires a.alive && (turn.JoinTurn? || turn.JoinUnheard?)
    ensures a.Join(turn.s, turn.c, turn.outbound, turn.admit, turn.callback).0
         == if Comes(a, turn) then a.(members := a.members + {turn.s}).Dispatch(Entered(turn.s), turn.callback) else a
  {
    hide Actor.Dispatch;
    DeliveryIsExact(turn.outbound, turn.c, None, Joined(a.id));
  }

  lemma LeaveIsExact(a: Actor, s: SessionId, c: Client, outbound: nat, callback: Callback)
    ensures var b := a.Leave(s, c, outbound, callback).0;
            b.members == a.members - {s} && b.host == if s in a.members && a.host == Some(s) then None else a.host
  {
    hide Client.DeliverAt;
  }

  lemma EndingStays(a: Actor)
    ensures a.EndTurn().members == a.members && a.EndTurn().host == a.host
  {
  }

  /** A command brings in whom the game admits and takes out who leaves, and nobody else; and the
      host stays the host for as long as it does not leave itself. */
  lemma TurnIsExact(a: Actor, turn: Turn, s: SessionId)
    ensures s in TakeTurn(a, turn).members <==> Enters(a, turn, s) || (s in a.members && !Departs(a, turn, s))
    ensures TakeTurn(a, turn).host == if a.host.Some? && Departs(a, turn, a.host.value) then None else a.host
  {
    hide Actor.Join, Actor.Leave, Actor.EndTurn, Client.IsClosed, Client.IsCurrent, Accepts;
    EndingStays(Handle(a, turn));
    match turn
    case JoinTurn(_, _, _, _, _) => if a.alive { JoinEnters(a, turn); }
    case JoinUnheard(_, _, _, _, _, _) => if a.alive { JoinEnters(a, turn); }
    case LeaveTurn(x, c, outbound, callback) => LeaveIsExact(a, x, c, outbound, callback);
    case _ =>
  }

  /** The game admits `s`. */
  predicate Admits(turn: Turn, s: SessionId) { (turn.JoinTurn? || turn.JoinUnheard?) && turn.s == s && turn.admit }

  predicate Quits(turn: Turn, s: SessionId) { turn.LeaveTurn? && turn.s == s }

  /** Over every run, whoever is in the room was in it at the start or has been admitted by the
      game, whoever is not any more has left, and the host is who it was unless it has left. */
  lemma {:induction false} RunIsWanted(a: Actor, turns: seq<Turn>, s: SessionId)
    ensures var b := TakeTurns(a, turns);
            && (s in b.members && s !in a.members ==> exists i :: 0 <= i < |turns| && Admits(turns[i], s))
            && (s in a.members && s !in b.members ==> exists i :: 0 <= i < |turns| && Quits(turns[i], s))
            && (a.host == Some(s) && b.host != a.host ==> exists i :: 0 <= i < |turns| && Quits(turns[i], s))
    decreases |turns|
  {
    hide TakeTurn;
    if turns != [] {
      TurnIsExact(a, turns[0], s);
      RunIsWanted(TakeTurn(a, turns[0]), turns[1..], s);
      assert forall i :: 0 <= i < |turns| - 1 ==> turns[1..][i] == turns[i + 1];
    }
  }

  // ----- what the game hears, and when the room ends -----------------------------------

  function Hears(a: Actor, turn: Turn): seq<GameEvent> {
    match turn
    case JoinTurn(s, _, _, _, _) => if Comes(a, turn) then [Entered(s)] else []
    case JoinUnheard(s, _, _, _, callback, _) =>
      if !Comes(a, turn) then [] else if callback.Panics? then [Entered(s)] else [Entered(s), Exited(s)]
    case LeaveTurn(s, _, _, _) => if s in a.members then [Exited(s)] else []
    case ConnectionTurn(s, up, _) =>
      if s !in a.members then [] else if up then [Reconnected(s)] else [Disconnected(s)]
    case PacketTurn(s, c, g, allowInput, _) =>
      if allowInput && s in a.members && !c.closed && c.Live() && (g == None || g == Some(c.generation))
      then [Message(s, g)] else []
    case WorkerTurn(tick, _) => if tick then [Tick] else [System]
    case _ => []
  }

  /** The game panics over one of these events. */
  predicate Breaks(a: Actor, turn: Turn) {
    Hears(a, turn) != [] && (turn.callback.Panics? || (turn.JoinUnheard? && turn.second.Panics?))
  }

  /** It asks to close, which the global room does not do. */
  predicate Gives(a: Actor, turn: Turn) {
    && Hears(a, turn) != [] && a.id != GLOBAL_ROOM
    && (turn.callback.AsksToClose? || (turn.JoinUnheard? && turn.second.AsksToClose?))
  }

  /** Nobody is left. */
  predicate Empties(a: Actor, turn: Turn) { turn.LeaveTurn? && a.id != GLOBAL_ROOM && a.members <= {turn.s} }

  /** `b` is what is left of `a` when the game has heard of the command, and last of the end. */
  predicate HeardOut(a: Actor, b: Actor, turn: Turn) {
    var over := turn.Stopped? || Gives(a, turn) || Empties(a, turn);
    && (b.alive <==> !(over || turn.Crashed? || Breaks(a, turn)))
    && b.trace == a.trace + Hears(a, turn) + (if over && !Breaks(a, turn) then [GameEvent.Closing] else [])
  }

  lemma JoinIsHeard(a: Actor, turn: Turn)
    requires a.alive && !a.closing && (turn.JoinTurn? || turn.JoinUnheard?)
    ensures HeardOut(a, TakeTurn(a, turn), turn)
  {
    hide Actor.Join;
    JoinEnters(a, turn);
    if Comes(a, turn) {
      var b := a.(members := a.members + {turn.s}).Dispatch(Entered(turn.s), turn.callback);
      assert b.trace + [Exited(turn.s)] == a.trace + [Entered(turn.s), Exited(turn.s)];
    }
  }

  lemma LeaveIsHeard(a: Actor, turn: Turn)
    requires a.alive && !a.closing && turn.LeaveTurn?
    ensures HeardOut(a, TakeTurn(a, turn), turn)
  {
    hide Client.DeliverAt;
    assert a.members <= {turn.s} <==> a.members - {turn.s} == {};
  }

  /** The game of a room that runs hears of each command exactly this, and of the end last; and the
      room ends exactly if it is stopped, crashes, is broken or given up by its game, or is left by
      its last player. */
  lemma TurnIsHeard(a: Actor, turn: Turn)
    requires a.alive && !a.closing
    ensures HeardOut(a, TakeTurn(a, turn), turn)
  {
    hide Actor.Join, Actor.Leave;
    match turn
    case JoinTurn(_, _, _, _, _) => JoinIsHeard(a, turn);
    case JoinUnheard(_, _, _, _, _, _) => JoinIsHeard(a, turn);
    case LeaveTurn(_, _, _, _) => LeaveIsHeard(a, turn);
    case _ =>
  }

  // ----- the object ------------------------------------------------------------------

  class Room {
    const id: RoomId
    const capacity: nat
    const allowInput: bool
    var host: Option<SessionId>
    var members: map<SessionId, ClientHandle>
    var closing: bool
    var alive: bool
    var stopped: bool
    ghost var trace: seq<GameEvent>

    ghost function View(): Actor
      reads this
    {
      Actor(id, capacity, host, members.Keys, closing, alive, stopped, trace)
    }

    /** Each session id names one logical client, so a member's handle is the one filed. */
    ghost predicate Files(client: ClientHandle)
      reads this
    {
      client.id in members ==> members[client.id] == client
    }

    constructor (id: RoomId, capacity: nat, host: Option<SessionId>, allowInput: bool)
      ensures View() == Fresh(id, capacity, host)
      ensures this.allowInput == allowInput
    {
      this.id, this.capacity, this.host, this.allowInput := id, capacity, host, allowInput;
      members, closing, alive, stopped, trace := map[], false, true, false, [];
    }

    method Dispatch(event: GameEvent, callback: Callback)
      modifies this`trace, this`closing, this`alive
      ensures View() == old(View()).Dispatch(event, callback)
    {
      trace := trace + [event];
      if callback.AsksToClose? && id != GLOBAL_ROOM { closing := true; }
      if callback.Panics? { alive := false; }
    }

    method Shut()
      modifies this`trace, this`alive, this`stopped
      ensures View() == old(View()).Shut()
    {
      if alive {
        trace := trace + [GameEvent.Closing];
        stopped := true;
        alive := false;
      }
    }

    method EndTurn()
      modifies this`trace, this`alive, this`stopped
      ensures View() == old(View()).EndTurn()
    {
      if closing { Shut(); }
    }

    /** The body of a Join command, up to its reply. */
    method Admit(client: ClientHandle, admit: bool, callback: Callback) returns (answer: Result<()>)
      requires alive && !closing && Files(client)
      modifies this`members, this`trace, this`closing, this`alive, client.Owned()
      ensures (View(), client.View(), answer)
           == old(View()).Join(client.id, old(client.View()), client.capacity, admit, callback)
      ensures members == old(members) || members == old(members)[client.id := client]
    {
      hide Actor.Dispatch, Client.IsClosed, Client.DeliverAt;
      var closed := client.IsClosed();
      if closed { return Err(Error.Closed); }
      if client.id in members { return Ok(()); }
      assert |members| == |members.Keys|;
      if |members| >= capacity { return Err(RoomFull); }
      if !admit { return Err(Denied); }
      var sent := client.DeliverAt(None, Joined(id));
      if sent.Err? { return sent; }
      members := members[client.id := client];
      assert members.Keys == old(members.Keys) + {client.id};
      Dispatch(Entered(client.id), callback);
      answer := if alive then Ok(()) else Err(RoomNotFound);
    }

    /** The whole Join command; `heard` tells whether the manager still waits for the reply. */
    method Join(client: ClientHandle, admit: bool, callback: Callback, heard: bool, second: Callback)
        returns (answer: Result<()>)
      requires alive && !closing && Files(client)
      modifies this, client.Owned()
      ensures View() == TakeTurn(old(View()),
                                 if heard then JoinTurn(client.id, old(client.View()), client.capacity, admit, callback)
                                 else JoinUnheard(client.id, old(client.View()), client.capacity,
                                                  admit, callback, second))
      ensures (client.View(), answer) ==
              (var x := old(View()).Join(client.id, old(client.View()), client.capacity, admit, callback); (x.1, x.2))
      ensures forall s :: s in members && s != client.id ==> s in old(members) && members[s] == old(members)[s]
      ensures client.id in members ==> members[client.id] == client
    {
      hide Client.IsClosed, Client.Deliver, Actor.Join, Actor.Retract, Actor.EndTurn;
      var already := client.id in members;
      answer := Admit(client, admit, callback);
      if !heard && !already { Retract(client.id, second); }
      EndTurn();
    }

    method Retract(s: SessionId, callback: Callback)
      modifies this`members, this`trace, this`closing, this`alive
      ensures View() == old(View()).Retract(s, callback)
      ensures members == old(members) || members == map x | x in old(members) && x != s :: old(members)[x]
    {
      if alive && s in members {
        members := map x | x in members && x != s :: members[x];
        assert members.Keys == old(members.Keys) - {s};
        Dispatch(Exited(s), callback);
      }
    }

    method Leave(s: SessionId, callback: Callback)
      requires alive && !closing
      requires s in members ==> members[s].id == s
      modifies this, if s in members then members[s].Owned() else {}
      ensures old(s in members) ==>
                && View() == TakeTurn(old(View()),
                     LeaveTurn(s, old(members[s].View()), old(members[s].capacity), callback))
                && old(members[s]).View() == old(View()).Leave(s, old(members[s].View()), old(members[s].capacity),
                     callback).1
      ensures old(s !in members) ==> View() == old(View()).ShutIfEmpty()
    {
      hide Client.DeliverAt;
      if s in members { Depart(s, callback); }
      ShutIfEmpty();
      EndTurn();
    }

    method Depart(s: SessionId, callback: Callback)
      requires s in members
      modifies this`members, this`host, this`trace, this`closing, this`alive, members[s].Owned()
      ensures View() == old(View()).(members := old(View()).members - {s}, host := if old(host) == Some(s) then None
              else old(host))
                        .Dispatch(Exited(s), callback)
      ensures old(members[s]).View() == old(members[s].View()).Deliver(old(members[s].capacity), Left(id)).0
    {
      hide Client.DeliverAt, Actor.Dispatch;
      var client := members[s];
      members := map x | x in members && x != s :: members[x];
      assert members.Keys == old(members.Keys) - {s};
      var _ := client.DeliverAt(None, Left(id));
      if host == Some(s) { host := None; }
      Dispatch(Exited(s), callback);
    }

    method ShutIfEmpty()
      modifies this`trace, this`alive, this`stopped
      ensures View() == old(View()).ShutIfEmpty()
    {
      assert members == map[] <==> members.Keys == {};
      if id != GLOBAL_ROOM && members == map[] { Shut(); }
    }

    method Connection(s: SessionId, up: bool, callback: Callback)
      requires alive && !closing
      modifies this`trace, this`closing, this`alive, this`stopped
      ensures View() == TakeTurn(old(View()), ConnectionTurn(s, up, callback))
    {
      if s in members { Dispatch(if up then Reconnected(s) else Disconnected(s), callback); }
      EndTurn();
    }

    method Packet(s: SessionId, g: Option<nat>, callback: Callback)
      requires alive && !closing
      modifies this`trace, this`closing, this`alive, this`stopped
      ensures s in members ==>
                View() == TakeTurn(old(View()), PacketTurn(s, old(members[s].View()), g, allowInput, callback))
      ensures s !in members ==> View() == old(View())
    {
      hide Actor.Dispatch, Client.IsClosed, Client.IsCurrent;
      if allowInput && s in members {
        var live: bool;
        if g.Some? {
          live := members[s].IsCurrent(g.value);
        } else {
          var closed := members[s].IsClosed();
          live := !closed;
        }
        if live { Dispatch(Message(s, g), callback); }
      }
      EndTurn();
    }
  }
}
