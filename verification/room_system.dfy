/** The room manager, its rooms and the clients running side by side. One step takes the manager
    from one of its awaits to the next, or one room through one command, or is one thing that
    happens to a client; a join or a leave is a rendezvous in the middle of which the room may
    crash and the client may be cancelled, suspended, resumed or closed. */
module RoomSystem {
  import opened Types
  import opened Clients
  import opened Rooms
  import opened RoomManagers
  import opened Connections

  /** What the manager wants of a room. */
  datatype Errand = Enter | Depart | Tell(up: bool)

  /** Where the manager is. `Waiting`: the command is in the room's mailbox; `Heard`: the reply
      has come, or has been dropped (not `ok`). */
  datatype Job =
    | Idle
    | Filling(room: RoomId, coming: seq<SessionId>, creating: bool, first: SessionId)
    | Visiting(s: SessionId, todo: set<RoomId>, errand: Errand, all: bool)
    | Waiting(s: SessionId, room: RoomId, errand: Errand, next: Job)
    | Heard(s: SessionId, room: RoomId, errand: Errand, ok: bool, next: Job)
    | Sweeping(room: RoomId, left: set<SessionId>)

  datatype Step =
    // The manager takes a command.
    | TakeJoin(s: SessionId, room: RoomId)
    | TakeCreate(group: seq<SessionId>, capacity: nat, task: TaskId, factoryWorks: bool)
    | TakeLeave(s: SessionId, room: RoomId)
    | TakeDisconnect(s: SessionId)
    | TakeConnection(s: SessionId, up: bool)
    | TakeRoutes(s: SessionId, routes: seq<RoomId>)
    | TakeReap(task: TaskId)
    // It goes on with the command it has.
    | NextJoin
    | NextVisit(room: RoomId)
    | Hear
    | Reply(heard: bool)
    | Notify(s: SessionId, frame: Payload)
    // A room handles the manager's command, or does something else.
    | Answers(admit: bool, callback: Callback)
    | Turns(room: RoomId, turn: Turn)
    // Something happens to a client.
    | Changes(s: SessionId, change: Change)
    | Arrives(s: SessionId, client: Client)

  /** `snaps` are the routes restored into the inbox of each session's current connection: none
      for a first connection. */
  datatype Hall = Hall(
    config: Config, ledger: Ledger, rooms: map<RoomId, Actor>,
    clients: map<SessionId, Client>, snaps: map<SessionId, seq<RoomId>>, job: Job)
  {
    function Of(s: SessionId): Client { if s in clients then clients[s] else Client(0, None, true) }

    predicate Runs(r: RoomId) { r in rooms && rooms[r].Running() }

    predicate Member(s: SessionId, r: RoomId) { r in rooms && s in rooms[r].members }

    /** `s` is in the running room, and somebody else is too. */
    predicate InCompany(s: SessionId, r: RoomId) { Runs(r) && s in rooms[r].members && rooms[r].members != {s} }

    /** The running room has room for `s`, who is not in it. */
    predicate Vacant(s: SessionId, r: RoomId) {
      Runs(r) && s !in rooms[r].members && |rooms[r].members| < rooms[r].capacity
    }

    /** The start of `join`. */
    function Entry(s: SessionId, r: RoomId): Option<Result<()>> {
      ledger.Entry(config.maxRoomsPerSession, s, r, Of(s).IsClosed())
    }

    function Delivered(s: SessionId, event: Event): Hall {
      this.(clients := clients[s := Of(s).Deliver(config.outboundCapacity, event).0])
    }

    function Stopped(r: RoomId): map<RoomId, Actor> {
      if r in rooms then rooms[r := rooms[r].(stopped := true)] else rooms
    }

    /** `remove_room`; whoever was recorded is told afterwards, one by one. */
    function Removed(r: RoomId): Hall {
      if r !in ledger.open then this.(job := Idle)
      else
        var left := ledger.MembersOf(r);
        this.(ledger := ledger.Erase(r), rooms := Stopped(r), job := if left == {} then Idle else Sweeping(r, left))
    }

    /** The end of `leave`: a room that nobody is recorded in any more is stopped. */
    function Withdrawn(s: SessionId, r: RoomId, next: Job): Hall {
      var after := ledger.Revoke(s, r);
      this.(ledger := after, rooms := if r in ledger.open && r !in after.open then Stopped(r) else rooms, job := next)
    }

    function TakeJoin(s: SessionId, r: RoomId): Hall {
      if Entry(s, r).Some? then this else this.(job := Waiting(s, r, Enter, Filling(r, [], false, s)))
    }

    function TakeCreate(group: seq<SessionId>, capacity: nat, task: TaskId, factoryWorks: bool): Hall {
      var id := ledger.nextId;
      if !ledger.Allows(config, group, capacity) then this
      else if !factoryWorks then this.(ledger := ledger.(nextId := id + 1))
      else this.(ledger := Prepared(ledger, task), rooms := rooms[id := Fresh(id, capacity, Some(group[0]))],
                 job := Filling(id, group, true, group[0]))
    }

    function NextJoin(): Hall {
      if !job.Filling? || job.coming == [] then this else
      var s, rest := job.coming[0], job.(coming := job.coming[1..]);
      match Entry(s, job.room)
      case None => this.(job := Waiting(s, job.room, Enter, rest))
      case Some(Ok(_)) => this.(job := rest)
      case Some(Err(_)) => Removed(job.room)
    }

    /** The reply of a join or a creation; a result nobody hears is undone. */
    function Reply(heard: bool): Hall {
      if !job.Filling? then this else
      if heard then this.(job := Idle)
      else if job.creating then Removed(job.room)
      else this.(job := Visiting(job.first, {job.room}, Depart, false))
    }

    function NextVisit(r: RoomId): Hall {
      if !job.Visiting? then this else
      if job.todo == {} then this.(job := Idle)
      else
        var rest := job.(todo := job.todo - {r});
        if r in ledger.open && (job.errand.Tell? || (job.s, r) in ledger.links)
        then this.(job := Waiting(job.s, r, job.errand, rest))
        else if job.errand.Tell? then this.(job := rest)
        else Withdrawn(job.s, r, rest)
    }

    function Answers(admit: bool, callback: Callback): Hall {
      if !job.Waiting? || job.room !in rooms then this else
      var (s, r, a, c) := (job.s, job.room, rooms[job.room], Of(job.s));
      var heard := Heard(s, r, job.errand, a.alive, job.next);
      if !a.alive then this.(job := heard)
      else
        match job.errand
        case Enter =>
          var (_, d, answer) := a.Join(s, c, config.outboundCapacity, admit, callback);
          this.(rooms := rooms[r := TakeTurn(a, JoinTurn(s, c, config.outboundCapacity, admit, callback))],
                clients := clients[s := d], job := heard.(ok := answer.Ok?))
        case Depart =>
          this.(rooms := rooms[r := TakeTurn(a, LeaveTurn(s, c, config.outboundCapacity, callback))],
                clients := clients[s := a.Leave(s, c, config.outboundCapacity, callback).1], job := heard)
        case Tell(up) =>
          this.(rooms := rooms[r := TakeTurn(a, ConnectionTurn(s, up, callback))], job := heard)
    }

    function Hear(): Hall {
      if !job.Heard? then this else
      var (s, r, next) := (job.s, job.room, job.next);
      match job.errand
      case Enter =>
        if job.ok then this.(ledger := ledger.Grant(s, r), job := next)
        else if next.Filling? && next.creating then Delivered(s, Left(r)).Removed(r)
        else Delivered(s, Left(r)).(job := Idle)
      case Depart => Withdrawn(s, r, next)
      case Tell(_) => this.(job := next)
    }

    function Notify(s: SessionId, frame: Payload): Hall {
      if !job.Sweeping? then this else
      var left := job.left - {s};
      Delivered(s, Left(job.room)).Delivered(s, Frame(frame)).(job := if left == {} then Idle else job.(left := left))
    }

    /** A room task has ended. */
    function TakeReap(task: TaskId): Hall {
      if task !in ledger.tasks then this else
      this.(ledger := ledger.(tasks := ledger.tasks - {task})).Removed(ledger.tasks[task])
    }

    function Changes(s: SessionId, change: Change): Hall {
      this.(clients := clients[s := change.Apply(config.outboundCapacity, Of(s))],
            snaps := if change.Attaching? && Of(s).Attach(change.resumed).Ok? then snaps - {s} else snaps)
    }
  }

  /** The rooms of a session whose actors still run, in the order of their ids, as `Routes`
      lists them. */
  ghost predicate Lists(h: Hall, s: SessionId, routes: seq<RoomId>) {
    && (forall r :: r in routes <==> r in h.ledger.RoomsOf(s) && h.Runs(r))
    && (forall i, j :: 0 <= i < j < |routes| ==> routes[i] < routes[j])
  }

  /** A room does nothing to its members of its own accord. */
  predicate Own(h: Hall, r: RoomId, turn: Turn) {
    match turn
    case PacketTurn(s, c, _, _, _) => c == h.Of(s)
    case WorkerTurn(_, _) => true
    case Stopped => r in h.rooms && h.rooms[r].stopped
    case Crashed => true
    case _ => false
  }

  /** Routes are only ever announced by rooms and by their manager. */
  predicate Outside(change: Change) { change.Delivering? ==> change.event.Frame? }

  ghost predicate Enabled(h: Hall, step: Step) {
    match step
    case TakeJoin(s, _) => h.job.Idle? && s in h.clients
    case TakeCreate(group, _, task, _) =>
      h.job.Idle? && task !in h.ledger.tasks && forall s :: s in group ==> s in h.clients
    case TakeLeave(_, r) => h.job.Idle? && r != GLOBAL_ROOM
    case TakeDisconnect(_) => h.job.Idle?
    case TakeConnection(_, _) => h.job.Idle?
    case TakeRoutes(s, routes) => h.job.Idle? && s in h.clients && Lists(h, s, routes)
    case TakeReap(task) =>
      && h.job.Idle? && task in h.ledger.tasks
      && h.ledger.tasks[task] != GLOBAL_ROOM && h.ledger.tasks[task] in h.rooms && !h.rooms[h.ledger.tasks[task]].alive
    case NextJoin => h.job.Filling? && h.job.coming != []
    case NextVisit(r) => h.job.Visiting? && (h.job.todo == {} || r in h.job.todo)
    case Hear => h.job.Heard?
    case Reply(_) => h.job.Filling? && h.job.coming == []
    case Notify(s, _) => h.job.Sweeping? && s in h.job.left
    case Answers(_, _) => h.job.Waiting? && h.job.room in h.rooms
    case Turns(r, turn) => r in h.rooms && h.rooms[r].alive && Own(h, r, turn)
    case Changes(s, change) => s in h.clients && Outside(change)
    case Arrives(s, client) => s !in h.clients && (client.transport.Some? ==> client.transport.value.sent == [])
  }

  /** A step that is not possible changes nothing. */
  ghost function Next(h: Hall, step: Step): Hall {
    if !Enabled(h, step) then h else
    match step
    case TakeJoin(s, r) => h.TakeJoin(s, r)
    case TakeCreate(group, capacity, task, works) => h.TakeCreate(group, capacity, task, works)
    case TakeLeave(s, r) => h.(job := Visiting(s, {r}, Depart, false))
    case TakeDisconnect(s) => h.(job := Visiting(s, h.ledger.RoomsOf(s), Depart, true))
    case TakeConnection(s, up) => h.(job := Visiting(s, h.ledger.RoomsOf(s), Tell(up), true))
    case TakeRoutes(s, routes) => h.(snaps := h.snaps[s := routes])
    case TakeReap(task) => h.TakeReap(task)
    case NextJoin => h.NextJoin()
    case NextVisit(r) => h.NextVisit(r)
    case Hear => h.Hear()
    case Reply(heard) => h.Reply(heard)
    case Notify(s, frame) => h.Notify(s, frame)
    case Answers(admit, callback) => h.Answers(admit, callback)
    case Turns(r, turn) => h.(rooms := h.rooms[r := TakeTurn(h.rooms[r], turn)])
    case Changes(s, change) => h.Changes(s, change)
    case Arrives(s, client) => h.(clients := h.clients[s := client], snaps := h.snaps[s := []])
  }

  function Opening(config: Config, task: TaskId): Hall {
    Hall(config, Ledger(1, {GLOBAL_ROOM}, {}, map[task := GLOBAL_ROOM]),
         map[GLOBAL_ROOM := Fresh(GLOBAL_ROOM, config.maxSessions, None)], map[], map[], Idle)
  }
}
