/** What games hear: messages in the order of generations, and whose connection was lost. */
module RoomNotices {
  import opened Types
  import opened Clients
  import opened Rooms
  import opened RoomManagers
  import opened Connections
  import opened RoomSystem
  import opened RoomCopies
  import opened RoomRoutes

  // ----- what every step keeps: messages and generations -----------------------------

  predicate Sent(event: GameEvent) { event.Message? && event.generation.Some? }

  /** Messages sent for a connection carry a generation that has been reached, and those of one
      player never go back. */
  ghost predicate InSequence(trace: seq<GameEvent>, clients: map<SessionId, Client>) {
    && (forall i :: 0 <= i < |trace| && Sent(trace[i]) ==>
          trace[i].player in clients && trace[i].generation.value <= clients[trace[i].player].generation)
    && (forall i, j ::
          0 <= i < j < |trace| && Sent(trace[i]) && Sent(trace[j]) && trace[i].player == trace[j].player
          ==> trace[i].generation.value <= trace[j].generation.value)
  }

  ghost predicate Spoken(h: Hall) { forall r :: r in h.rooms ==> InSequence(h.rooms[r].trace, h.clients) }

  /** Generations only grow, and nobody is forgotten. */
  predicate Grown(before: map<SessionId, Client>, after: map<SessionId, Client>) {
    forall s :: s in before ==> s in after && before[s].generation <= after[s].generation
  }

  lemma OrderedLater(trace: seq<GameEvent>, before: map<SessionId, Client>, after: map<SessionId, Client>)
    requires InSequence(trace, before) && Grown(before, after)
    ensures InSequence(trace, after)
  {
  }

  lemma OrderedMore(trace: seq<GameEvent>, tail: seq<GameEvent>, clients: map<SessionId, Client>)
    requires InSequence(trace, clients)
    requires forall i :: 0 <= i < |tail| && Sent(tail[i]) ==>
               tail[i].player in clients && tail[i].generation.value == clients[tail[i].player].generation
    ensures InSequence(trace + tail, clients)
  {
  }

  /** What the game hears of a turn, if anything, before it may hear that the room closes. */
  function Subject(turn: Turn): GameEvent {
    match turn
    case JoinTurn(s, _, _, _, _) => Entered(s)
    case LeaveTurn(s, _, _, _) => Exited(s)
    case ConnectionTurn(s, up, _) => if up then Reconnected(s) else Disconnected(s)
    case PacketTurn(s, _, g, _, _) => Message(s, g)
    case WorkerTurn(tick, _) => if tick then Tick else System
    case _ => GameEvent.Closing
  }

  function Extended(trace: seq<GameEvent>, turn: Turn, first: bool, last: bool): seq<GameEvent> {
    trace + (if first then [Subject(turn)] else []) + (if last then [GameEvent.Closing] else [])
  }

  /** A message is only heard from a current connection of a member. */
  predicate Justified(a: Actor, turn: Turn) {
    match turn
    case JoinTurn(s, _, _, _, _) => s !in a.members
    case LeaveTurn(s, _, _, _) => s in a.members
    case ConnectionTurn(s, _, _) => s in a.members
    case PacketTurn(s, c, g, _, _) => s in a.members && (g.Some? ==> c.generation == g.value)
    case _ => true
  }

  lemma HandleAdds(a: Actor, turn: Turn) returns (first: bool, last: bool)
    requires a.alive && !turn.JoinUnheard?
    ensures Handle(a, turn).trace == Extended(a.trace, turn, first, last) && (first ==> Justified(a, turn))
    ensures last ==> !Handle(a, turn).alive
  {
    match turn
    case JoinTurn(s, c, outbound, admit, callback) =>
      first, last := a.Join(s, c, outbound, admit, callback).0.trace != a.trace, false;
    case LeaveTurn(s, c, outbound, callback) => first, last := LeaveAdds(a, s, c, outbound, callback);
    case ConnectionTurn(s, up, callback) => first, last := s in a.members, false;
    case PacketTurn(s, c, g, allowInput, callback) =>
      first, last := a.Packet(s, c, g, allowInput, callback).trace != a.trace, false;
    case WorkerTurn(tick, callback) => first, last := true, false;
    case Stopped => first, last := false, true;
    case Crashed => first, last := false, false;
  }

  lemma LeaveAdds(a: Actor, s: SessionId, c: Client, outbound: nat, callback: Callback)
      returns (first: bool, last: bool)
    requires a.alive
    ensures a.Leave(s, c, outbound, callback).0.trace
            == Extended(a.trace, LeaveTurn(s, c, outbound, callback), first, last)
    ensures (first ==> s in a.members) && (last ==> !a.Leave(s, c, outbound, callback).0.alive)
  {
    hide Client.Deliver;
    first := s in a.members;
    var m := if first then a.(members := a.members - {s}, host := if a.host == Some(s) then None
        else a.host).Dispatch(Exited(s), callback) else a;
    last := m.alive && a.id != GLOBAL_ROOM && m.members == {};
  }

  lemma TurnAdds(a: Actor, turn: Turn) returns (first: bool, last: bool)
    requires !turn.JoinUnheard?
    ensures TakeTurn(a, turn).trace == Extended(a.trace, turn, first, last) && (first ==> Justified(a, turn))
  {
    hide Handle, Justified;
    first, last := false, false;
    if a.alive {
      first, last := HandleAdds(a, turn);
      last := last || (Handle(a, turn).closing && Handle(a, turn).alive);
    }
  }

  lemma TurnKeepsOrder(a: Actor, turn: Turn, clients: map<SessionId, Client>)
    requires InSequence(a.trace, clients) && !turn.JoinUnheard? && a.members <= clients.Keys
    requires turn.PacketTurn? && turn.s in clients ==> turn.c == clients[turn.s]
    ensures InSequence(TakeTurn(a, turn).trace, clients)
  {
    hide InSequence, TakeTurn;
    var first, last := TurnAdds(a, turn);
    var more := if first then [Subject(turn)] else [];
    OrderedMore(a.trace, more, clients);
    OrderedMore(a.trace + more, if last then [GameEvent.Closing] else [], clients);
  }

  lemma RoomTurnKeepsSpoken(h: Hall, k: Hall, r: RoomId, turn: Turn)
    requires Spoken(h) && r in h.rooms && !turn.JoinUnheard? && h.rooms[r].members <= h.clients.Keys
    requires turn.PacketTurn? && turn.s in h.clients ==> turn.c == h.clients[turn.s]
    requires k.rooms == h.rooms[r := TakeTurn(h.rooms[r], turn)] && Grown(h.clients, k.clients)
    ensures Spoken(k)
  {
    hide InSequence, TakeTurn, Grown;
    TurnKeepsOrder(h.rooms[r], turn, h.clients);
    forall q | q in k.rooms ensures InSequence(k.rooms[q].trace, k.clients) {
      OrderedLater(k.rooms[q].trace, h.clients, k.clients);
    }
  }

  lemma SpokenSame(h: Hall, k: Hall)
    requires Grown(h.clients, k.clients)
    requires forall r :: r in k.rooms ==> if r in h.rooms then k.rooms[r].trace == h.rooms[r].trace
            else k.rooms[r].trace == []
    ensures Spoken(h) ==> Spoken(k)
  {
    hide Grown, InSequence;
    if Spoken(h) {
      forall q | q in k.rooms ensures InSequence(k.rooms[q].trace, k.clients) {
        if q in h.rooms { OrderedLater(k.rooms[q].trace, h.clients, k.clients); } else { Silence(k.clients); }
      }
    }
  }

  lemma Silence(clients: map<SessionId, Client>)
    ensures InSequence([], clients)
  {
  }

  /** The client has the same connection, if any, alive only if it was. */
  predicate SameConnection(c: Client, d: Client) {
    d.generation == c.generation && d.closed == c.closed && d.transport.Some? == c.transport.Some?
    && (d.Live() ==> c.Live())
  }

  /** The manager and the rooms never attach, suspend or close a client. */
  predicate SameConnections(h: Hall, k: Hall) {
    && h.clients.Keys <= k.clients.Keys
    && (forall s :: s in h.clients ==> s in k.clients && SameConnection(h.clients[s], k.clients[s]))
    && (forall s :: s in k.clients && s !in h.clients ==> k.clients[s].closed)
  }

  lemma DeliveryConnects(c: Client, capacity: nat, event: Event)
    ensures var d := c.Deliver(capacity, event).0; SameConnection(c, d)
  {
  }

  lemma DeliveredConnects(h: Hall, s: SessionId, event: Event)
    ensures SameConnections(h, h.Delivered(s, event))
  {
    hide Client.Deliver;
    DeliveryConnects(h.Of(s), h.config.outboundCapacity, event);
  }

  lemma AnswerConnects(h: Hall, admit: bool, callback: Callback)
    requires h.job.Waiting? && h.job.room in h.rooms
    ensures SameConnections(h, h.Answers(admit, callback))
  {
    hide TakeTurn, Client.Deliver, Actor.Join, Actor.Leave;
    var (s, c, a) := (h.job.s, h.Of(h.job.s), h.rooms[h.job.room]);
    JoinConnects(a, s, c, h.config.outboundCapacity, admit, callback);
    LeaveConnects(a, s, c, h.config.outboundCapacity, callback);
  }

  lemma JoinConnects(a: Actor, s: SessionId, c: Client, outbound: nat, admit: bool, callback: Callback)
    ensures var d := a.Join(s, c, outbound, admit, callback).1; SameConnection(c, d)
  {
    hide Client.Deliver;
    DeliveryConnects(c, outbound, Joined(a.id));
  }

  lemma LeaveConnects(a: Actor, s: SessionId, c: Client, outbound: nat, callback: Callback)
    ensures var d := a.Leave(s, c, outbound, callback).1; SameConnection(c, d)
  {
    hide Client.Deliver;
    DeliveryConnects(c, outbound, Left(a.id));
  }

  lemma ChangeGrows(h: Hall, s: SessionId, change: Change)
    requires s in h.clients
    ensures Grown(h.clients, h.Changes(s, change).clients)
  {
    assert h.clients[s].generation <= change.Apply(h.config.outboundCapacity, h.clients[s]).generation;
  }

  lemma StepConnects(h: Hall, step: Step)
    requires Enabled(h, step) && !step.Changes? && !step.Arrives?
    ensures SameConnections(h, Next(h, step))
  {
    hide SameConnections, Hall.Hear, Hall.Notify, Hall.Answers;
    var k := Next(h, step);
    match step
    case Hear => HearConnects(h);
    case Notify(s, frame) => NotifyConnects(h, s, frame);
    case Answers(admit, callback) => AnswerConnects(h, admit, callback);
    case _ => if k.clients == h.clients { SameClients(h, k); }
  }

  lemma HearConnects(h: Hall)
    ensures SameConnections(h, h.Hear())
  {
    hide Client.Deliver, SameConnections;
    if h.job.Heard? { DeliveredConnects(h, h.job.s, Left(h.job.room)); }
    SameClients(h, h.Hear());
    if h.job.Heard? { SameClients(h.Delivered(h.job.s, Left(h.job.room)), h.Hear()); }
  }

  lemma NotifyConnects(h: Hall, s: SessionId, frame: Payload)
    requires h.job.Sweeping?
    ensures SameConnections(h, h.Notify(s, frame))
  {
    hide Client.Deliver, SameConnections;
    var m := h.Delivered(s, Left(h.job.room));
    DeliveredConnects(h, s, Left(h.job.room));
    DeliveredConnects(m, s, Frame(frame));
    ConnectsOn(h, m, m.Delivered(s, Frame(frame)));
    SameClients(m.Delivered(s, Frame(frame)), h.Notify(s, frame));
    ConnectsOn(h, m.Delivered(s, Frame(frame)), h.Notify(s, frame));
  }

  lemma SameClients(h: Hall, k: Hall)
    ensures k.clients == h.clients ==> SameConnections(h, k)
    ensures forall g: Hall :: SameConnections(g, h) && k.clients == h.clients ==> SameConnections(g, k)
  {
  }

  lemma ConnectsOn(h: Hall, m: Hall, k: Hall)
    requires SameConnections(h, m) && SameConnections(m, k)
    ensures SameConnections(h, k)
  {
  }

  lemma ClientsGrow(h: Hall, step: Step)
    requires Enabled(h, step)
    ensures Grown(h.clients, Next(h, step).clients)
  {
    hide Hall.Changes;
    match step
    case Changes(s, change) => ChangeGrows(h, s, change);
    case Arrives(s, client) =>
    case _ => StepConnects(h, step);
  }

  /** Nobody's game hears anything, and nobody comes or goes. */
  predicate Hushed(h: Hall, k: Hall) {
    && k.rooms.Keys == h.rooms.Keys
    && forall q :: q in k.rooms ==>
         && k.rooms[q].trace == h.rooms[q].trace && k.rooms[q].members == h.rooms[q].members
         && (k.rooms[q].Running() ==> h.rooms[q].Running())
  }

  lemma RemovedHushed(h: Hall, r: RoomId)
    ensures Hushed(h, h.Removed(r))
  {
  }

  lemma LeftHushed(h: Hall, s: SessionId, r: RoomId, next: Job)
    ensures Hushed(h, h.Withdrawn(s, r, next))
  {
  }

  lemma RoomsHushed(h: Hall, k: Hall)
    ensures k.rooms == h.rooms ==> Hushed(h, k)
  {
  }

  lemma StepHushed(h: Hall, step: Step)
    requires Enabled(h, step) && !step.Answers? && !step.Turns? && !step.TakeCreate?
    ensures Hushed(h, Next(h, step))
  {
    hide Client.Deliver, Change.Apply, Hushed, Hall.Removed, Hall.Withdrawn;
    var k := Next(h, step);
    RoomsHushed(h, k);
    match step
    case TakeReap(task) => ReapHushed(h, task);
    case NextJoin => RemovedHushed(h, h.job.room);
    case NextVisit(r) => LeftHushed(h, h.job.s, r, h.job.(todo := h.job.todo - {r}));
    case Hear => HearHushed(h);
    case Reply(_) => RemovedHushed(h, h.job.room);
    case _ =>
  }

  lemma ReapHushed(h: Hall, task: TaskId)
    requires task in h.ledger.tasks
    ensures Hushed(h, h.TakeReap(task))
  {
    RemovedHushed(h.(ledger := h.ledger.(tasks := h.ledger.tasks - {task})), h.ledger.tasks[task]);
  }

  lemma HearHushed(h: Hall)
    requires h.job.Heard?
    ensures Hushed(h, h.Hear())
  {
    hide Client.Deliver, Hall.Removed, Hall.Withdrawn;
    RemovedHushed(h.Delivered(h.job.s, Left(h.job.room)), h.job.room);
    LeftHushed(h, h.job.s, h.job.room, h.job.next);
  }

  lemma StepKeepsSpoken(h: Hall, step: Step)
    requires Spoken(h) && Known(h) && Enabled(h, step)
    ensures Spoken(Next(h, step))
  {
    hide InSequence, TakeTurn, Grown, Known, Spoken, Hall.Answers, Hall.TakeCreate;
    var k := Next(h, step);
    ClientsGrow(h, step);
    match step
    case Answers(admit, callback) => AnswerKeepsSpoken(h, admit, callback);
    case Turns(r, turn) => MembersArrived(h, r); RoomTurnKeepsSpoken(h, k, r, turn);
    case TakeCreate(group, capacity, task, works) => CreateKeepsSpoken(h, group, capacity, task, works);
    case _ => StepSpokenSame(h, step);
  }

  lemma StepSpokenSame(h: Hall, step: Step)
    requires Spoken(h) && Enabled(h, step)
    ensures !step.Answers? && !step.Turns? && !step.TakeCreate? ==> Spoken(Next(h, step))
  {
    hide Next, Enabled, Grown, Spoken;
    if !step.Answers? && !step.Turns? && !step.TakeCreate? {
      ClientsGrow(h, step);
      StepHushed(h, step);
      SpokenSame(h, Next(h, step));
    }
  }

  lemma MembersArrived(h: Hall, r: RoomId)
    requires Known(h) && r in h.rooms
    ensures h.rooms[r].members <= h.clients.Keys
  {
  }

  lemma CreateKeepsSpoken(h: Hall, group: seq<SessionId>, capacity: nat, task: TaskId, works: bool)
    requires Spoken(h)
    ensures Spoken(h.TakeCreate(group, capacity, task, works))
  {
    hide InSequence;
    Silence(h.clients);
  }

  lemma AnswerKeepsSpoken(h: Hall, admit: bool, callback: Callback)
    requires Spoken(h) && Known(h) && h.job.Waiting? && h.job.room in h.rooms
    requires Grown(h.clients, h.Answers(admit, callback).clients)
    ensures Spoken(h.Answers(admit, callback))
  {
    hide InSequence, TakeTurn, Grown, Spoken, Actor.Join, Actor.Leave;
    var (s, r, c, k) := (h.job.s, h.job.room, h.Of(h.job.s), h.Answers(admit, callback));
    if !h.rooms[r].alive {
      SpokenSame(h, k);
    } else {
      match h.job.errand
      case Enter => RoomTurnKeepsSpoken(h, k, r, JoinTurn(s, c, h.config.outboundCapacity, admit, callback));
      case Depart => RoomTurnKeepsSpoken(h, k, r, LeaveTurn(s, c, h.config.outboundCapacity, callback));
      case Tell(up) => RoomTurnKeepsSpoken(h, k, r, ConnectionTurn(s, up, callback));
    }
  }

  // ----- what every step keeps: who has been told that whose connection was lost -----

  /** Nobody is reported lost twice during one stay without being reported back in between. */
  ghost predicate Alternates(trace: seq<GameEvent>) {
    forall i :: 0 <= i < |trace| && trace[i].Disconnected? ==> !Down(trace[..i], trace[i].player)
  }

  ghost predicate Alternating(h: Hall) { forall r :: r in h.rooms ==> Alternates(h.rooms[r].trace) }

  ghost predicate CalmIn(h: Hall, s: SessionId, r: RoomId) {
    h.Runs(r) && h.Member(s, r) ==> !Down(h.rooms[r].trace, s)
  }

  /** No running room believes that this member's connection is lost. */
  ghost predicate Calm(h: Hall, s: SessionId) { forall r :: CalmIn(h, s, r) }

  predicate Telling(job: Job) {
    match job
    case Visiting(_, _, errand, _) => errand.Tell?
    case Waiting(_, _, errand, next) => errand.Tell? && next.Visiting?
    case Heard(_, _, errand, _, next) => errand.Tell? && next.Visiting?
    case _ => false
  }

  /** The rooms that have not handled the notice yet. */
  function Ahead(job: Job): set<RoomId>
    requires Telling(job)
  {
    match job
    case Visiting(_, todo, _, _) => todo
    case Waiting(_, r, _, next) => next.todo + {r}
    case Heard(_, _, _, _, next) => next.todo
  }

  /** A notice of return has reached every room that is not ahead; a notice of loss has reached
      none that is. */
  ghost predicate Paced(h: Hall) {
    Telling(h.job) ==>
      && (h.job.Waiting? ==> h.job.room !in h.job.next.todo)
      && (if h.job.errand.up then forall r :: r !in Ahead(h.job) ==> CalmIn(h, h.job.s, r)
          else forall r :: r in Ahead(h.job) ==> CalmIn(h, h.job.s, r))
  }

  lemma AlternatesMore(trace: seq<GameEvent>, event: GameEvent)
    requires Alternates(trace) && (event.Disconnected? ==> !Down(trace, event.player))
    ensures Alternates(trace + [event])
  {
    Extend(trace, event);
  }

  lemma ExtendedTrace(trace: seq<GameEvent>, turn: Turn, first: bool, last: bool)
    requires !turn.JoinUnheard?
    ensures var more := Extended(trace, turn, first, last);
            && (forall s :: Down(more, s) ==
                  (if first && (turn.JoinTurn? || turn.LeaveTurn? || (turn.ConnectionTurn? && turn.up))
                      && turn.s == s then false
                   else if first && turn.ConnectionTurn? && !turn.up && turn.s == s then true
                   else Down(trace, s)))
            && (forall s :: s in Present(more) && s !in Present(trace) ==> first && turn.JoinTurn? && turn.s == s)
            && (Alternates(trace) && (first && turn.ConnectionTurn? && !turn.up ==> !Down(trace, turn.s)) ==>
                 Alternates(more))
  {
    var one := if first then trace + [Subject(turn)] else trace;
    if first { Extend(trace, Subject(turn)); }
    Extend(one, GameEvent.Closing);
    assert Extended(trace, turn, first, last) == if last then one + [GameEvent.Closing] else one;
    if Alternates(trace) && (first && turn.ConnectionTurn? && !turn.up ==> !Down(trace, turn.s)) {
      if first { AlternatesMore(trace, Subject(turn)); }
      AlternatesMore(one, GameEvent.Closing);
    }
  }

  lemma TurnDown(a: Actor, turn: Turn, s: SessionId)
    requires TraceOk(a) && a.alive && !turn.JoinUnheard?
    ensures var b := TakeTurn(a, turn);
            && (s in b.members && Down(b.trace, s) ==>
                  (s in a.members && Down(a.trace, s)) || (turn.ConnectionTurn? && !turn.up && turn.s == s))
            && (turn.ConnectionTurn? && turn.up && turn.s == s && s in a.members ==> !Down(b.trace, s))
            && (Alternates(a.trace) && (turn.ConnectionTurn? && !turn.up && turn.s in a.members ==>
                 !Down(a.trace, turn.s))
                ==> Alternates(b.trace))
  {
    hide TakeTurn, FromMembers, EntersOnce, Alternates;
    var first, last := TurnAdds(a, turn);
    TurnKeepsTrace(a, turn);
    ExtendedTrace(a.trace, turn, first, last);
    if turn.ConnectionTurn? && turn.s in a.members { NoticeIsHeard(a, turn); }
  }

  lemma NoticeIsHeard(a: Actor, turn: Turn)
    requires a.alive && turn.ConnectionTurn? && turn.s in a.members
    ensures |a.trace| < |TakeTurn(a, turn).trace| && TakeTurn(a, turn).trace[|a.trace|] == Subject(turn)
  {
  }

  lemma HushedKeepsCalm(h: Hall, k: Hall, s: SessionId, r: RoomId)
    requires Hushed(h, k) && CalmIn(h, s, r)
    ensures CalmIn(k, s, r)
  {
  }

  lemma TurnKeepsCalm(h: Hall, k: Hall, q: RoomId, turn: Turn, s: SessionId, r: RoomId)
    requires Cast(h) && q in h.rooms && h.rooms[q].alive && !turn.JoinUnheard? && (turn.Stopped? ==> h.rooms[q].stopped)
    requires k.rooms == h.rooms[q := TakeTurn(h.rooms[q], turn)]
    requires CalmIn(h, s, r) && (turn.ConnectionTurn? && !turn.up ==> !(turn.s == s && q == r))
    ensures CalmIn(k, s, r)
  {
    hide TakeTurn, TraceOk;
    TurnLives(h.rooms[q], turn);
    TurnDown(h.rooms[q], turn, s);
  }

  lemma CreateKeepsCalm(h: Hall, group: seq<SessionId>, capacity: nat, task: TaskId, works: bool, s: SessionId,
                        r: RoomId)
    requires CalmIn(h, s, r)
    ensures CalmIn(h.TakeCreate(group, capacity, task, works), s, r)
  {
  }

  /** What the manager's command makes the room do. */
  function TurnFor(h: Hall, admit: bool, callback: Callback): Turn
    requires h.job.Waiting?
  {
    match h.job.errand
    case Enter => JoinTurn(h.job.s, h.Of(h.job.s), h.config.outboundCapacity, admit, callback)
    case Depart => LeaveTurn(h.job.s, h.Of(h.job.s), h.config.outboundCapacity, callback)
    case Tell(up) => ConnectionTurn(h.job.s, up, callback)
  }

  lemma AnswerIsTurn(h: Hall, admit: bool, callback: Callback)
    requires h.job.Waiting? && h.job.room in h.rooms
    ensures var k := h.Answers(admit, callback);
            && k.rooms == (if h.rooms[h.job.room].alive then h.rooms[h.job.room := TakeTurn(h.rooms[h.job.room],
                 TurnFor(h, admit, callback))] else h.rooms)
            && k.job.Heard? && k.job.s == h.job.s && k.job.room == h.job.room && k.job.errand == h.job.errand
            && k.job.next == h.job.next
  {
    hide TakeTurn, Actor.Join, Actor.Leave;
  }

  /** Only a notice of loss disturbs a calm. */
  lemma StepKeepsCalmIn(h: Hall, step: Step, s: SessionId, r: RoomId)
    requires Cast(h) && Enabled(h, step) && CalmIn(h, s, r)
    requires !(step.Answers? && h.job.errand == Tell(false) && h.job.s == s && h.job.room == r)
    ensures CalmIn(Next(h, step), s, r)
  {
    hide Cast, CalmIn, Hall.Answers, Hall.TakeCreate, TakeTurn;
    var k := Next(h, step);
    match step
    case Answers(admit, callback) => AnswerKeepsCalmIn(h, admit, callback, s, r);
    case Turns(q, turn) => TurnKeepsCalm(h, k, q, turn, s, r);
    case TakeCreate(group, capacity, task, works) => CreateKeepsCalm(h, group, capacity, task, works, s, r);
    case _ => OtherKeepsCalmIn(h, step, s, r);
  }

  lemma OtherKeepsCalmIn(h: Hall, step: Step, s: SessionId, r: RoomId)
    requires Enabled(h, step) && CalmIn(h, s, r)
    ensures !step.Answers? && !step.Turns? && !step.TakeCreate? ==> CalmIn(Next(h, step), s, r)
  {
    hide Next, Enabled, CalmIn;
    if !step.Answers? && !step.Turns? && !step.TakeCreate? {
      StepHushed(h, step);
      HushedKeepsCalm(h, Next(h, step), s, r);
    }
  }

  lemma AnswerKeepsCalmIn(h: Hall, admit: bool, callback: Callback, s: SessionId, r: RoomId)
    requires Cast(h) && h.job.Waiting? && h.job.room in h.rooms && CalmIn(h, s, r)
    requires !(h.job.errand == Tell(false) && h.job.s == s && h.job.room == r)
    ensures CalmIn(h.Answers(admit, callback), s, r)
  {
    hide Cast, Hall.Answers, TakeTurn;
    var k := h.Answers(admit, callback);
    AnswerIsTurn(h, admit, callback);
    if h.rooms[h.job.room].alive { TurnKeepsCalm(h, k, h.job.room, TurnFor(h, admit, callback), s, r); }
  }

  lemma StepKeepsCalm(h: Hall, step: Step, s: SessionId)
    requires Cast(h) && Enabled(h, step) && Calm(h, s)
    requires !(step.Answers? && h.job.errand == Tell(false) && h.job.s == s)
    ensures Calm(Next(h, step), s)
  {
    hide Cast, Enabled, Next;
    forall r ensures CalmIn(Next(h, step), s, r) { StepKeepsCalmIn(h, step, s, r); }
  }

  /** A notice of return that has been round everywhere leaves a calm. */
  lemma ReturnIsTold(h: Hall)
    requires Paced(h) && h.job.Visiting? && h.job.errand == Tell(true) && h.job.todo == {}
    ensures Calm(h, h.job.s)
  {
  }

  lemma EverybodyAhead(h: Hall, s: SessionId)
    requires Cast(h) && Copies(h) && h.job.Idle?
    ensures forall r :: r !in h.ledger.RoomsOf(s) ==> CalmIn(h, s, r)
  {
    forall r | r !in h.ledger.RoomsOf(s) ensures CalmIn(h, s, r) {
      if h.Runs(r) {
        assert CopiesAt(h, r);
        assert s !in h.ledger.MembersOf(r);
      }
    }
  }

  lemma NextVisitPaces(h: Hall, r: RoomId)
    requires Paced(h) && Cast(h) && Telling(h.job) && h.job.Visiting? && r in h.job.todo
    ensures Paced(h.NextVisit(r))
  {
    hide Cast, CalmIn;
    var k := h.NextVisit(r);
    RoomsCalm(h, k);
    assert (h.job.todo - {r}) + {r} == h.job.todo;
    if r !in h.ledger.open { Unrecorded(h, h.job.s, r); }
  }

  lemma Unrecorded(h: Hall, s: SessionId, r: RoomId)
    requires Cast(h) && r !in h.ledger.open
    ensures CalmIn(h, s, r)
  {
    assert !h.Runs(r);
  }

  lemma AnswerPaces(h: Hall, admit: bool, callback: Callback)
    requires Paced(h) && Cast(h) && h.job.Waiting? && h.job.room in h.rooms && Telling(h.job)
    ensures Paced(h.Answers(admit, callback))
  {
    hide Cast, CalmIn, Hall.Answers;
    var k, s, up, a := h.Answers(admit, callback), h.job.s, h.job.errand.up, h.rooms[h.job.room];
    AnswerIsTurn(h, admit, callback);
    forall r | (if up then r !in Ahead(h.job) else r in Ahead(k.job)) ensures CalmIn(k, s, r) {
      AnswerKeepsCalmIn(h, admit, callback, s, r);
    }
    if up { ReturnCalms(h, admit, callback); }
  }

  lemma ReturnCalms(h: Hall, admit: bool, callback: Callback)
    requires Cast(h) && h.job.Waiting? && h.job.room in h.rooms && h.job.errand == Tell(true)
    ensures CalmIn(h.Answers(admit, callback), h.job.s, h.job.room)
  {
    hide TraceOk, TakeTurn, Hall.Answers;
    AnswerIsTurn(h, admit, callback);
    var a, turn := h.rooms[h.job.room], ConnectionTurn(h.job.s, true, callback);
    if a.alive {
      OwnTurnMembers(a, turn);
      TurnDown(a, turn, h.job.s);
    }
  }

  lemma StepPaces(h: Hall, step: Step)
    requires Paced(h) && Cast(h) && Copies(h) && JobOk(h) && Enabled(h, step)
    requires step.TakeConnection? && !step.up ==> Calm(h, step.s)
    ensures Paced(Next(h, step))
  {
    hide Paced, Cast, Copies, CalmIn, JobOk, Hall.Answers, Hall.Hear, Next, Enabled;
    if step.TakeConnection? {
      ConnectionPaces(h, step.s, step.up);
    } else if !Telling(h.job) {
      NothingNewIsTold(h, step);
      UntoldPaces(Next(h, step));
    } else {
      TellingGoesOn(h, step);
      match step
      case NextVisit(r) => VisitsPace(h, r);
      case Answers(admit, callback) => AnswerPaces(h, admit, callback);
      case Hear => HearingPaces(h);
      case _ => OthersPace(h, step);
    }
  }

  lemma UntoldPaces(h: Hall)
    requires !Telling(h.job)
    ensures Paced(h)
  {
  }

  /** While a notice goes round, the manager does nothing else. */
  lemma TellingGoesOn(h: Hall, step: Step)
    requires Telling(h.job) && Enabled(h, step)
    ensures step.NextVisit? || step.Answers? || step.Hear? || step.Turns? || step.Changes? || step.Arrives?
    ensures step.NextVisit? ==> h.job.Visiting? && Next(h, step) == h.NextVisit(step.room)
    ensures step.NextVisit? ==> step.room in h.job.todo || h.NextVisit(step.room).job.Idle?
    ensures step.Answers? ==>
              h.job.Waiting? && h.job.room in h.rooms && Next(h, step) == h.Answers(step.admit, step.callback)
    ensures step.Hear? ==> h.job.Heard? && Next(h, step) == h.Hear()
  {
    hide Hall.Answers, Hall.Hear;
  }

  /** Only a command to do so makes a notice go round. */
  lemma NothingNewIsTold(h: Hall, step: Step)
    requires JobOk(h) && Enabled(h, step) && !Telling(h.job) && !step.TakeConnection?
    ensures !Telling(Next(h, step).job)
  {
    hide Hall.Answers, Hall.TakeCreate, Client.Deliver, Change.Apply, TakeTurn;
    match step
    case Answers(admit, callback) => AnswerIsTurn(h, admit, callback);
    case TakeCreate(group, capacity, task, works) => CreatingTellsNobody(h, group, capacity, task, works);
    case _ =>
  }

  lemma CreatingTellsNobody(h: Hall, group: seq<SessionId>, capacity: nat, task: TaskId, works: bool)
    requires h.job.Idle?
    ensures !Telling(h.TakeCreate(group, capacity, task, works).job)
  {
  }

  lemma ConnectionPaces(h: Hall, s: SessionId, up: bool)
    requires Cast(h) && Copies(h) && Enabled(h, TakeConnection(s, up)) && (!up ==> Calm(h, s))
    ensures Paced(Next(h, TakeConnection(s, up)))
  {
    hide Cast, Copies, CalmIn;
    EverybodyAhead(h, s);
    RoomsCalm(h, Next(h, TakeConnection(s, up)));
  }

  lemma VisitsPace(h: Hall, r: RoomId)
    requires Paced(h) && Cast(h) && Telling(h.job) && h.job.Visiting? && (r in h.job.todo || h.NextVisit(r).job.Idle?)
    ensures Paced(h.NextVisit(r))
  {
    hide Paced, Cast;
    if r in h.job.todo { NextVisitPaces(h, r); } else { UntoldPaces(h.NextVisit(r)); }
  }

  lemma HearingPaces(h: Hall)
    requires Paced(h) && JobOk(h) && Telling(h.job) && h.job.Heard?
    ensures Paced(h.Hear())
  {
    hide CalmIn;
    RoomsCalm(h, h.Hear());
  }

  lemma RoomsCalm(h: Hall, k: Hall)
    requires k.rooms == h.rooms
    ensures forall s, r :: CalmIn(h, s, r) ==> CalmIn(k, s, r)
  {
  }

  lemma OthersPace(h: Hall, step: Step)
    requires Paced(h) && Cast(h) && Telling(h.job) && Enabled(h, step)
    requires (step.Turns? || step.Changes? || step.Arrives?)
    ensures Paced(Next(h, step))
  {
    hide Cast, CalmIn;
    var k, s := Next(h, step), h.job.s;
    forall r | CalmIn(h, s, r) ensures CalmIn(k, s, r) { StepKeepsCalmIn(h, step, s, r); }
  }

  lemma TurnKeepsAlternating(h: Hall, k: Hall, r: RoomId, turn: Turn)
    requires Alternating(h) && Cast(h) && r in h.rooms && h.rooms[r].alive && !turn.JoinUnheard?
    requires k.rooms == h.rooms[r := TakeTurn(h.rooms[r], turn)]
    requires turn.ConnectionTurn? && !turn.up && turn.s in h.rooms[r].members ==> !Down(h.rooms[r].trace, turn.s)
    ensures Alternating(k)
  {
    hide Alternates, TakeTurn, TraceOk, Down;
    TurnDown(h.rooms[r], turn, 0);
  }

  lemma HushedAlternating(h: Hall, k: Hall)
    requires Alternating(h) && Hushed(h, k)
    ensures Alternating(k)
  {
  }

  lemma StepKeepsAlternating(h: Hall, step: Step)
    requires Alternating(h) && Paced(h) && Cast(h) && JobOk(h) && Enabled(h, step)
    ensures Alternating(Next(h, step))
  {
    hide Alternating, Cast, Paced, JobOk, TakeTurn, Hall.Answers, Hall.TakeCreate;
    var k := Next(h, step);
    match step
    case Answers(admit, callback) => AnswerAlternates(h, admit, callback);
    case Turns(q, turn) => TurnKeepsAlternating(h, k, q, turn);
    case TakeCreate(group, capacity, task, works) => CreateAlternates(h, group, capacity, task, works);
    case _ => OtherAlternates(h, step);
  }

  lemma CreateAlternates(h: Hall, group: seq<SessionId>, capacity: nat, task: TaskId, works: bool)
    requires Alternating(h)
    ensures Alternating(h.TakeCreate(group, capacity, task, works))
  {
  }

  lemma OtherAlternates(h: Hall, step: Step)
    requires Alternating(h) && Enabled(h, step)
    ensures !step.Answers? && !step.Turns? && !step.TakeCreate? ==> Alternating(Next(h, step))
  {
    hide Next, Enabled, Alternating;
    if !step.Answers? && !step.Turns? && !step.TakeCreate? {
      StepHushed(h, step);
      HushedAlternating(h, Next(h, step));
    }
  }

  lemma AnswerAlternates(h: Hall, admit: bool, callback: Callback)
    requires Alternating(h) && Paced(h) && Cast(h) && JobOk(h) && h.job.Waiting? && h.job.room in h.rooms
    ensures Alternating(h.Answers(admit, callback))
  {
    hide Alternating, TakeTurn, TraceOk, Hall.Answers, Down;
    var k := h.Answers(admit, callback);
    AnswerIsTurn(h, admit, callback);
    if h.rooms[h.job.room].alive {
      if h.job.errand == Tell(false) { assert CalmIn(h, h.job.s, h.job.room); }
      TurnKeepsAlternating(h, k, h.job.room, TurnFor(h, admit, callback));
    } else {
      HushedAlternating(h, k);
    }
  }

  // ----- who still believes in a loss ------------------------------------------------

  /** The room, if it runs and the session is in it, believes that its connection is lost. */
  ghost predicate DoubtIn(h: Hall, s: SessionId, r: RoomId) {
    h.Runs(r) && h.Member(s, r) ==> Down(h.rooms[r].trace, s)
  }

  lemma TurnDoubts(a: Actor, turn: Turn, s: SessionId)
    requires TraceOk(a) && a.alive && !turn.JoinUnheard?
    ensures var b := TakeTurn(a, turn);
            && (s in b.members && !Down(b.trace, s) ==>
                  (s in a.members && !Down(a.trace, s)) || (turn.ConnectionTurn? && turn.up && turn.s == s)
                      || (turn.JoinTurn? && turn.s == s && !turn.c.IsClosed()))
            && (turn.ConnectionTurn? && !turn.up && turn.s == s && s in a.members ==> Down(b.trace, s))
  {
    hide TakeTurn, FromMembers, EntersOnce;
    var first, last := TurnAdds(a, turn);
    TurnKeepsTrace(a, turn);
    ExtendedTrace(a.trace, turn, first, last);
    if turn.ConnectionTurn? && turn.s in a.members { NoticeIsHeard(a, turn); }
    if turn.JoinTurn? && turn.c.IsClosed() { ClosedDoNotEnter(a, turn); }
    if turn.LeaveTurn? { LeaveMembers(a, turn.s, turn.c, turn.outbound, turn.callback); }
  }

  lemma ClosedDoNotEnter(a: Actor, turn: Turn)
    requires turn.JoinTurn? && turn.c.IsClosed()
    ensures TakeTurn(a, turn).members == a.members
  {
  }

  lemma TurnKeepsDoubt(h: Hall, k: Hall, q: RoomId, turn: Turn, s: SessionId, r: RoomId)
    requires Cast(h) && q in h.rooms && h.rooms[q].alive && !turn.JoinUnheard? && (turn.Stopped? ==> h.rooms[q].stopped)
    requires k.rooms == h.rooms[q := TakeTurn(h.rooms[q], turn)]
    requires DoubtIn(h, s, r) && !(turn.ConnectionTurn? && turn.up && turn.s == s && q == r)
    requires turn.JoinTurn? && turn.s == s ==> turn.c.IsClosed()
    ensures DoubtIn(k, s, r)
  {
    hide TakeTurn, TraceOk, Client.IsClosed;
    TurnLives(h.rooms[q], turn);
    TurnDoubts(h.rooms[q], turn, s);
  }

  lemma HushedKeepsDoubt(h: Hall, k: Hall, s: SessionId, r: RoomId)
    requires Hushed(h, k) && DoubtIn(h, s, r)
    ensures DoubtIn(k, s, r)
  {
  }

  lemma CreateKeepsDoubt(h: Hall, group: seq<SessionId>, capacity: nat, task: TaskId, works: bool, s: SessionId,
                         r: RoomId)
    requires DoubtIn(h, s, r)
    ensures DoubtIn(h.TakeCreate(group, capacity, task, works), s, r)
  {
  }

  lemma AnswerKeepsDoubt(h: Hall, admit: bool, callback: Callback, s: SessionId, r: RoomId)
    requires Cast(h) && h.job.Waiting? && h.job.room in h.rooms && DoubtIn(h, s, r) && h.Of(s).IsClosed()
    requires !(h.job.errand == Tell(true) && h.job.s == s && h.job.room == r)
    ensures DoubtIn(h.Answers(admit, callback), s, r)
  {
    hide Cast, Hall.Answers, TakeTurn, Client.IsClosed;
    AnswerIsTurn(h, admit, callback);
    if h.rooms[h.job.room].alive {
      TurnKeepsDoubt(h, h.Answers(admit, callback), h.job.room, TurnFor(h, admit, callback), s, r);
    }
  }

  lemma OtherKeepsDoubt(h: Hall, step: Step, s: SessionId, r: RoomId)
    requires Enabled(h, step) && DoubtIn(h, s, r)
    ensures !step.Answers? && !step.Turns? && !step.TakeCreate? ==> DoubtIn(Next(h, step), s, r)
  {
    hide Next, Enabled, DoubtIn;
    if !step.Answers? && !step.Turns? && !step.TakeCreate? {
      StepHushed(h, step);
      HushedKeepsDoubt(h, Next(h, step), s, r);
    }
  }

  /** Of someone who is not connected only a notice of return changes what rooms believe. */
  lemma StepKeepsDoubt(h: Hall, step: Step, s: SessionId, r: RoomId)
    requires Cast(h) && Enabled(h, step) && DoubtIn(h, s, r) && h.Of(s).IsClosed()
    requires !(step.Answers? && h.job.errand == Tell(true) && h.job.s == s && h.job.room == r)
    ensures DoubtIn(Next(h, step), s, r)
  {
    hide Cast, DoubtIn, Hall.Answers, Hall.TakeCreate, TakeTurn, Client.IsClosed;
    var k := Next(h, step);
    match step
    case Answers(admit, callback) => AnswerKeepsDoubt(h, admit, callback, s, r);
    case Turns(q, turn) => TurnKeepsDoubt(h, k, q, turn, s, r);
    case TakeCreate(group, capacity, task, works) => CreateKeepsDoubt(h, group, capacity, task, works, s, r);
    case _ => OtherKeepsDoubt(h, step, s, r);
  }

  /** A room that has handled the notice of a loss believes in it. */
  lemma LossIsBelieved(h: Hall, admit: bool, callback: Callback)
    requires Cast(h) && h.job.Waiting? && h.job.room in h.rooms && h.job.errand == Tell(false)
    ensures DoubtIn(h.Answers(admit, callback), h.job.s, h.job.room)
  {
    hide TraceOk, TakeTurn, Hall.Answers;
    AnswerIsTurn(h, admit, callback);
    var a, turn := h.rooms[h.job.room], ConnectionTurn(h.job.s, false, callback);
    if a.alive {
      OwnTurnMembers(a, turn);
      TurnDoubts(a, turn, h.job.s);
    }
  }

  lemma OutsidersBelieveAnything(h: Hall, s: SessionId)
    requires Cast(h) && Copies(h) && h.job.Idle?
    ensures forall r :: r !in h.ledger.RoomsOf(s) ==> DoubtIn(h, s, r)
  {
    forall r | r !in h.ledger.RoomsOf(s) ensures DoubtIn(h, s, r) {
      if h.Runs(r) {
        assert CopiesAt(h, r);
        assert s !in h.ledger.MembersOf(r);
      }
    }
  }

  /** A notice of loss has reached every room that is not ahead. */
  ghost predicate Spread(h: Hall) {
    Telling(h.job) && !h.job.errand.up ==> forall r :: r !in Ahead(h.job) ==> DoubtIn(h, h.job.s, r)
  }

  lemma RoomsDoubt(h: Hall, k: Hall)
    requires k.rooms == h.rooms
    ensures forall s, r :: DoubtIn(h, s, r) ==> DoubtIn(k, s, r)
  {
  }

  lemma NextVisitSpreads(h: Hall, r: RoomId)
    requires Spread(h) && Cast(h) && Telling(h.job) && h.job.Visiting? && r in h.job.todo
    ensures Spread(h.NextVisit(r))
  {
    hide Cast, DoubtIn;
    var k := h.NextVisit(r);
    RoomsDoubt(h, k);
    assert (h.job.todo - {r}) + {r} == h.job.todo;
    if r !in h.ledger.open { UnrecordedDoubt(h, h.job.s, r); }
  }

  lemma UnrecordedDoubt(h: Hall, s: SessionId, r: RoomId)
    requires Cast(h) && r !in h.ledger.open
    ensures DoubtIn(h, s, r)
  {
    assert !h.Runs(r);
  }

  lemma AnswerSpreads(h: Hall, admit: bool, callback: Callback)
    requires Spread(h) && Cast(h) && h.job.Waiting? && h.job.room in h.rooms && Telling(h.job)
    requires !h.job.errand.up ==> h.Of(h.job.s).IsClosed()
    ensures Spread(h.Answers(admit, callback))
  {
    hide Cast, DoubtIn, Hall.Answers, Client.IsClosed;
    var k, s := h.Answers(admit, callback), h.job.s;
    AnswerIsTurn(h, admit, callback);
    if !h.job.errand.up {
      forall r | r !in Ahead(h.job) ensures DoubtIn(k, s, r) { AnswerKeepsDoubt(h, admit, callback, s, r); }
      LossIsBelieved(h, admit, callback);
    }
  }

  lemma OthersSpread(h: Hall, step: Step)
    requires Spread(h) && Cast(h) && Telling(h.job) && Enabled(h, step)
    requires (step.Turns? || step.Changes? || step.Arrives?)
    requires !h.job.errand.up ==> h.Of(h.job.s).IsClosed()
    ensures Spread(Next(h, step))
  {
    hide Cast, DoubtIn, Client.IsClosed;
    var k, s := Next(h, step), h.job.s;
    if !h.job.errand.up {
      forall r | DoubtIn(h, s, r) ensures DoubtIn(k, s, r) { StepKeepsDoubt(h, step, s, r); }
    }
  }

  lemma StepSpreads(h: Hall, step: Step)
    requires Spread(h) && Cast(h) && Copies(h) && JobOk(h) && Enabled(h, step)
    requires Telling(h.job) && !h.job.errand.up ==> h.Of(h.job.s).IsClosed()
    ensures Spread(Next(h, step))
  {
    hide Spread, Cast, Copies, JobOk, DoubtIn, Hall.Answers, Hall.Hear, Client.IsClosed, Next, Enabled;
    if step.TakeConnection? {
      ConnectionSpreads(h, step.s, step.up);
    } else if !Telling(h.job) {
      NothingNewIsTold(h, step);
      UntoldSpreads(Next(h, step));
    } else {
      TellingGoesOn(h, step);
      match step
      case NextVisit(r) => VisitsSpread(h, r);
      case Answers(admit, callback) => AnswerSpreads(h, admit, callback);
      case Hear => HearingSpreads(h);
      case _ => OthersSpread(h, step);
    }
  }

  lemma UntoldSpreads(h: Hall)
    requires !Telling(h.job)
    ensures Spread(h)
  {
  }

  lemma ConnectionSpreads(h: Hall, s: SessionId, up: bool)
    requires Cast(h) && Copies(h) && Enabled(h, TakeConnection(s, up))
    ensures Spread(Next(h, TakeConnection(s, up)))
  {
    hide Cast, Copies, DoubtIn;
    OutsidersBelieveAnything(h, s);
    RoomsDoubt(h, Next(h, TakeConnection(s, up)));
  }

  lemma VisitsSpread(h: Hall, r: RoomId)
    requires Spread(h) && Cast(h) && Telling(h.job) && h.job.Visiting? && (r in h.job.todo || h.NextVisit(r).job.Idle?)
    ensures Spread(h.NextVisit(r))
  {
    hide Spread, Cast;
    if r in h.job.todo { NextVisitSpreads(h, r); } else { UntoldSpreads(h.NextVisit(r)); }
  }

  lemma HearingSpreads(h: Hall)
    requires Spread(h) && JobOk(h) && Telling(h.job) && h.job.Heard?
    ensures Spread(h.Hear())
  {
    hide DoubtIn;
    RoomsDoubt(h, h.Hear());
  }
}
