/** What every step of the room manager and its rooms keeps of the rooms themselves: who is in
    them, whom the manager has recorded, and the manager's limits and numbers. */
module RoomCopies {
  import opened Types
  import opened Clients
  import opened Rooms
  import opened RoomManagers
  import opened Connections
  import opened RoomSystem

  // ----- what every step keeps: rooms ------------------------------------------------

  /** Rooms are filed under their own ids, which are never reused, and tell no lies about their
      members; one that has been asked to close does not live on. A room is recorded as long as it
      runs; one that is told to stop is not. */
  ghost predicate Cast(h: Hall) {
    && (forall r :: r in h.rooms ==>
          && h.rooms[r].id == r < h.ledger.nextId && TraceOk(h.rooms[r])
          && (h.rooms[r].alive ==> !h.rooms[r].closing))
    && (forall r :: r in h.ledger.open ==> r in h.rooms && (h.rooms[r].alive ==> !h.rooms[r].stopped))
    && (forall r :: h.Runs(r) ==> r in h.ledger.open)
  }

  lemma TurnLives(a: Actor, turn: Turn)
    ensures var b := TakeTurn(a, turn);
            && b.id == a.id && (b.alive ==> a.alive && (turn != Stopped ==> b.stopped == a.stopped))
            && (b.Running() ==> a.Running()) && (b.alive ==> !b.closing)
  {
  }

  lemma RoomTurnKeepsCast(h: Hall, r: RoomId, turn: Turn, k: Hall)
    requires Cast(h) && r in h.rooms && (turn == Stopped ==> h.rooms[r].stopped)
    requires k.ledger == h.ledger && k.rooms == h.rooms[r := TakeTurn(h.rooms[r], turn)]
    ensures Cast(k)
  {
    hide TraceOk, TakeTurn;
    TurnKeepsTrace(h.rooms[r], turn);
    TurnLives(h.rooms[r], turn);
  }

  lemma RemovedKeepsCast(h: Hall, r: RoomId)
    requires Cast(h)
    ensures Cast(h.Removed(r))
  {
    hide TraceOk;
    StoppedKeepsTrace(h, r);
  }

  lemma StoppedKeepsTrace(h: Hall, r: RoomId)
    requires r in h.rooms ==> TraceOk(h.rooms[r])
    ensures r in h.rooms ==> TraceOk(h.Stopped(r)[r])
  {
  }

  lemma LeftKeepsCast(h: Hall, s: SessionId, r: RoomId, next: Job)
    requires Cast(h)
    ensures Cast(h.Withdrawn(s, r, next))
  {
    hide TraceOk;
    StoppedKeepsTrace(h, r);
  }

  lemma FreshIsTruthful(r: RoomId, capacity: nat, host: Option<SessionId>)
    ensures TraceOk(Fresh(r, capacity, host))
  {
  }

  lemma CreateKeepsCast(h: Hall, group: seq<SessionId>, capacity: nat, task: TaskId, works: bool)
    requires Cast(h)
    ensures Cast(h.TakeCreate(group, capacity, task, works))
  {
    hide TraceOk;
    if group != [] { FreshIsTruthful(h.ledger.nextId, capacity, Some(group[0])); }
  }

  lemma StepKeepsCast(h: Hall, step: Step)
    requires Cast(h) && Enabled(h, step)
    ensures Cast(Next(h, step))
  {
    hide Cast;
    match step
    case TakeCreate(group, capacity, task, works) => CreateKeepsCast(h, group, capacity, task, works);
    case TakeReap(task) => SameCast(h, h.(ledger := h.ledger.(tasks := h.ledger.tasks - {task})));
      RemovedKeepsCast(h.(ledger := h.ledger.(tasks := h.ledger.tasks - {task})), h.ledger.tasks[task]);
    case NextJoin => RemovedKeepsCast(h, h.job.room); SameCast(h, Next(h, step));
    case NextVisit(r) =>
      SameCast(h, Next(h, step));
      LeftKeepsCast(h, h.job.s, r, h.job.(todo := h.job.todo - {r}));
    case Hear => HearKeepsCast(h);
    case Reply(heard) => RemovedKeepsCast(h, h.job.room); SameCast(h, Next(h, step));
    case Answers(admit, callback) => AnswerKeepsCast(h, admit, callback);
    case Turns(r, turn) => RoomTurnKeepsCast(h, r, turn, Next(h, step));
    case _ => SameCast(h, Next(h, step));
  }

  lemma SameCast(h: Hall, k: Hall)
    ensures Cast(h) && k.rooms == h.rooms && k.ledger.open == h.ledger.open && k.ledger.nextId == h.ledger.nextId ==>
            Cast(k)
  {
  }

  lemma HearKeepsCast(h: Hall)
    requires Cast(h) && h.job.Heard?
    ensures Cast(h.Hear())
  {
    hide Cast;
    var (s, r) := (h.job.s, h.job.room);
    SameCast(h, h.Hear());
    SameCast(h, h.Delivered(s, Left(r)));
    RemovedKeepsCast(h.Delivered(s, Left(r)), r);
    LeftKeepsCast(h, s, r, h.job.next);
  }

  lemma AnswerKeepsCast(h: Hall, admit: bool, callback: Callback)
    requires Cast(h) && h.job.Waiting? && h.job.room in h.rooms
    ensures Cast(h.Answers(admit, callback))
  {
    hide Cast, TakeTurn;
    var (s, r, c, k) := (h.job.s, h.job.room, h.Of(h.job.s), h.Answers(admit, callback));
    if !h.rooms[r].alive {
      SameCast(h, k);
    } else {
      match h.job.errand
      case Enter => RoomTurnKeepsCast(h, r, JoinTurn(s, c, h.config.outboundCapacity, admit, callback), k);
      case Depart => RoomTurnKeepsCast(h, r, LeaveTurn(s, c, h.config.outboundCapacity, callback), k);
      case Tell(up) => RoomTurnKeepsCast(h, r, ConnectionTurn(s, up, callback), k);
    }
  }

  // ----- what every step keeps: the manager's place in its command -------------------

  /** `s` is on its way into a room it is not recorded in, with room to spare. */
  ghost predicate Entering(h: Hall, s: SessionId, r: RoomId, next: Job) {
    && r in h.ledger.open && (s, r) !in h.ledger.links && |h.ledger.RoomsOf(s)| < h.config.maxRoomsPerSession
    && next.Filling? && next.room == r && (next.creating || next.coming == [])
  }

  /** `s` is on its way out of a room it is recorded in. */
  ghost predicate Departing(h: Hall, s: SessionId, r: RoomId, next: Job) {
    && r in h.ledger.open && (s, r) in h.ledger.links
    && next.Visiting? && next.s == s && next.errand == Depart
    && (next.all ==> h.ledger.RoomsOf(s) <= next.todo + {r})
  }

  ghost predicate Underway(h: Hall, s: SessionId, r: RoomId, errand: Errand, next: Job) {
    match errand
    case Enter => Entering(h, s, r, next)
    case Depart => Departing(h, s, r, next)
    case Tell(_) => r in h.ledger.open && next.Visiting? && next.s == s && next.errand == errand
  }

  ghost predicate JobOk(h: Hall) {
    match h.job
    case Idle => true
    case Filling(r, coming, creating, _) => r in h.ledger.open && (creating || coming == [])
    case Visiting(s, todo, errand, all) => !errand.Enter? && (errand.Depart? && all ==> h.ledger.RoomsOf(s) <= todo)
    case Waiting(s, r, errand, next) => Underway(h, s, r, errand, next)
    case Heard(s, r, errand, _, next) => Underway(h, s, r, errand, next)
    case Sweeping(r, _) => r in h.rooms && r !in h.ledger.open
  }

  lemma EntryAsks(h: Hall, s: SessionId, r: RoomId, next: Job)
    requires h.Entry(s, r).None? && h.config.Accepted()
    requires next.Filling? && next.room == r && (next.creating || next.coming == [])
    ensures Entering(h, s, r, next)
  {
  }

  lemma RemovedJobOk(h: Hall, r: RoomId)
    requires Cast(h)
    ensures JobOk(h.Removed(r))
  {
  }

  lemma WithdrawnGoesOn(h: Hall, s: SessionId, r: RoomId, next: Job)
    ensures h.Withdrawn(s, r, next).job == next
  {
  }

  lemma LeftJobOk(h: Hall, s: SessionId, r: RoomId, next: Job)
    requires next.Visiting? && next.s == s && next.errand == Depart
    requires (next.all ==> h.ledger.RoomsOf(s) <= next.todo + {r})
    ensures JobOk(h.Withdrawn(s, r, next))
  {
  }

  lemma GrantJobOk(h: Hall, s: SessionId, r: RoomId, next: Job)
    requires Entering(h, s, r, next)
    ensures JobOk(h.(ledger := h.ledger.Grant(s, r), job := next))
  {
  }

  lemma NextVisitJobOk(h: Hall, r: RoomId)
    requires JobOk(h) && h.job.Visiting? && (h.job.todo == {} || r in h.job.todo)
    ensures JobOk(h.NextVisit(r))
  {
    if h.job.todo != {} && h.job.errand.Depart? {
      assert (h.job.todo - {r}) + {r} == h.job.todo;
      LeftJobOk(h, h.job.s, r, h.job.(todo := h.job.todo - {r}));
    }
  }

  lemma HearJobOk(h: Hall)
    requires JobOk(h) && Cast(h) && h.job.Heard?
    ensures JobOk(h.Hear())
  {
    hide Cast;
    var (s, r, next) := (h.job.s, h.job.room, h.job.next);
    match h.job.errand
    case Enter =>
      GrantJobOk(h, s, r, next);
      SameCast(h, h.Delivered(s, Left(r)));
      RemovedJobOk(h.Delivered(s, Left(r)), r);
    case Depart => LeftJobOk(h, s, r, next);
    case Tell(_) =>
  }

  lemma StepKeepsJobOk(h: Hall, step: Step)
    requires h.config.Accepted() && JobOk(h) && Cast(h) && Enabled(h, step)
    ensures JobOk(Next(h, step))
  {
    hide Cast, TakeTurn, Actor.Join, Actor.Leave, Client.Deliver, Change.Apply;
    match step
    case TakeJoin(s, r) => if h.Entry(s, r).None? { EntryAsks(h, s, r, Filling(r, [], false, s)); }
    case TakeCreate(group, capacity, task, works) =>
    case TakeReap(task) =>
      SameCast(h, h.(ledger := h.ledger.(tasks := h.ledger.tasks - {task})));
      RemovedJobOk(h.(ledger := h.ledger.(tasks := h.ledger.tasks - {task})), h.ledger.tasks[task]);
    case NextJoin =>
      RemovedJobOk(h, h.job.room);
      if h.Entry(h.job.coming[0], h.job.room).None? {
        EntryAsks(h, h.job.coming[0], h.job.room, h.job.(coming := h.job.coming[1..]));
      }
    case NextVisit(r) => NextVisitJobOk(h, r);
    case Hear => HearJobOk(h);
    case Reply(heard) => RemovedJobOk(h, h.job.room);
    case Answers(admit, callback) =>
    case Turns(r, turn) =>
    case _ =>
  }

  // ----- what every step keeps: the two copies of a room's members -------------------

  /** Whom a room must know, given what the manager has recorded and what is on its way. */
  function Expected(h: Hall, r: RoomId): set<SessionId> {
    var recorded := h.ledger.MembersOf(r);
    if h.job.Heard? && h.job.room == r && h.job.errand.Enter? && h.job.ok then recorded + {h.job.s}
    else if h.job.Heard? && h.job.room == r && h.job.errand.Depart? then recorded - {h.job.s}
    else recorded
  }

  ghost predicate CopiesAt(h: Hall, r: RoomId) {
    r in h.rooms && Expected(h, r) <= h.rooms[r].members && (h.rooms[r].alive ==> Expected(h, r) == h.rooms[r].members)
  }

  /** Every recorded room, running or dead, knows whom the manager has recorded; one that runs
      knows nobody else. */
  ghost predicate Copies(h: Hall) {
    (forall r :: r in h.ledger.open ==> CopiesAt(h, r)) && (forall p :: p in h.ledger.links ==> p.1 in h.ledger.open)
  }

  lemma JoinMembers(a: Actor, s: SessionId, c: Client, outbound: nat, admit: bool, callback: Callback)
    requires a.alive
    ensures var b := TakeTurn(a, JoinTurn(s, c, outbound, admit, callback));
            var answer := a.Join(s, c, outbound, admit, callback).2;
            && a.members <= b.members <= a.members + {s}
            && (answer.Ok? ==> b.members == a.members + {s})
            && (answer.Err? && b.alive ==> b.members == a.members)
  {
  }

  lemma LeaveMembers(a: Actor, s: SessionId, c: Client, outbound: nat, callback: Callback)
    requires a.alive
    ensures TakeTurn(a, LeaveTurn(s, c, outbound, callback)).members == a.members - {s}
  {
  }

  lemma OwnTurnMembers(a: Actor, turn: Turn)
    requires turn.PacketTurn? || turn.WorkerTurn? || turn.Stopped? || turn.Crashed? || turn.ConnectionTurn?
    ensures TakeTurn(a, turn).members == a.members && (TakeTurn(a, turn).alive ==> a.alive)
  {
  }

  lemma SameCopies(h: Hall, k: Hall)
    requires k.ledger.open == h.ledger.open && k.ledger.links == h.ledger.links && k.rooms == h.rooms
    requires !h.job.Heard? && !k.job.Heard?
    ensures Copies(h) ==> Copies(k)
  {
  }

  predicate SaysNo(h: Hall)
    requires h.job.Filling? && h.job.coming != []
  {
    h.Entry(h.job.coming[0], h.job.room).Some? && h.Entry(h.job.coming[0], h.job.room).value.Err?
  }

  lemma RemovedKeepsCopies(h: Hall, r: RoomId)
    requires Copies(h) && !(h.job.Heard? && h.job.room != r)
    ensures Copies(h.Removed(r))
  {
    var k := h.Removed(r);
    forall q | q in k.ledger.open ensures CopiesAt(k, q) {
      assert CopiesAt(h, q);
      if r in h.ledger.open { assert MembersIn(k.ledger.links, q) == MembersIn(h.ledger.links, q); }
    }
  }

  lemma LeftKeepsCopies(h: Hall, s: SessionId, r: RoomId, next: Job)
    requires Copies(h) && next.Visiting?
    requires (h.job.Heard? && h.job.errand.Depart? && h.job.s == s && h.job.room == r)
            || (!h.job.Heard? && (s, r) !in h.ledger.links)
    ensures Copies(h.Withdrawn(s, r, next))
  {
    var k := h.Withdrawn(s, r, next);
    assert MembersIn(k.ledger.links, r) == MembersIn(h.ledger.links, r) - {s};
    forall q | q in k.ledger.open ensures CopiesAt(k, q) {
      assert CopiesAt(h, q);
      if q != r { assert MembersIn(k.ledger.links, q) == MembersIn(h.ledger.links, q); }
    }
    forall p | p in k.ledger.links ensures p.1 in k.ledger.open {
      assert p.0 in MembersIn(k.ledger.links, p.1);
    }
  }

  lemma GrantKeepsCopies(h: Hall)
    requires Copies(h) && h.job.Heard? && h.job.errand.Enter? && h.job.ok && h.job.room in h.ledger.open
    requires !h.job.next.Heard?
    ensures Copies(h.(ledger := h.ledger.Grant(h.job.s, h.job.room), job := h.job.next))
  {
    var k := h.(ledger := h.ledger.Grant(h.job.s, h.job.room), job := h.job.next);
    forall q | q in k.ledger.open ensures CopiesAt(k, q) {
      assert CopiesAt(h, q);
      assert MembersIn(k.ledger.links, q) == if q == h.job.room then MembersIn(h.ledger.links, q) + {h.job.s}
          else MembersIn(h.ledger.links, q);
    }
  }

  lemma CreateKeepsCopies(h: Hall, group: seq<SessionId>, capacity: nat, task: TaskId, works: bool)
    requires Copies(h) && Cast(h) && h.job.Idle?
    ensures Copies(h.TakeCreate(group, capacity, task, works))
  {
    hide TraceOk;
    var k := h.TakeCreate(group, capacity, task, works);
    forall q | q in k.ledger.open ensures CopiesAt(k, q) {
      if q in h.ledger.open {
        assert CopiesAt(h, q);
      } else {
        NobodyOutside(h.ledger, q);
      }
    }
  }

  lemma AnswerKeepsCopies(h: Hall, admit: bool, callback: Callback)
    requires Copies(h) && h.job.Waiting? && h.job.room in h.rooms
    requires Underway(h, h.job.s, h.job.room, h.job.errand, h.job.next)
    ensures Copies(h.Answers(admit, callback))
  {
    hide TakeTurn, Actor.Join, Actor.Leave;
    var (s, r, c, k) := (h.job.s, h.job.room, h.Of(h.job.s), h.Answers(admit, callback));
    var a := h.rooms[r];
    assert CopiesAt(h, r);
    if a.alive {
      match h.job.errand
      case Enter => JoinMembers(a, s, c, h.config.outboundCapacity, admit, callback);
      case Depart => LeaveMembers(a, s, c, h.config.outboundCapacity, callback);
      case Tell(up) => OwnTurnMembers(a, ConnectionTurn(s, up, callback));
    }
    forall q | q in k.ledger.open ensures CopiesAt(k, q) {
      assert CopiesAt(h, q);
    }
  }

  lemma TurnKeepsCopies(h: Hall, r: RoomId, turn: Turn)
    requires Copies(h) && r in h.rooms && Own(h, r, turn)
    ensures Copies(h.(rooms := h.rooms[r := TakeTurn(h.rooms[r], turn)]))
  {
    hide TakeTurn;
    OwnTurnMembers(h.rooms[r], turn);
    var k := h.(rooms := h.rooms[r := TakeTurn(h.rooms[r], turn)]);
    forall q | q in k.ledger.open ensures CopiesAt(k, q) {
      assert CopiesAt(h, q);
    }
  }

  lemma HearKeepsCopies(h: Hall)
    requires Copies(h) && JobOk(h) && h.job.Heard?
    ensures Copies(h.Hear())
  {
    hide Copies;
    var (s, r, next) := (h.job.s, h.job.room, h.job.next);
    match h.job.errand
    case Enter =>
      if h.job.ok {
        GrantKeepsCopies(h);
      } else {
        NothingExpected(h, h.(job := Idle));
        NothingExpected(h.(job := Idle), h.Delivered(s, Left(r)).(job := Idle));
        SameCopies(h.(job := Idle), h.Delivered(s, Left(r)).(job := Idle));
        RemovedIgnoresJob(h.Delivered(s, Left(r)), r);
        RemovedKeepsCopies(h.Delivered(s, Left(r)).(job := Idle), r);
      }
    case Depart => LeftKeepsCopies(h, s, r, next);
    case Tell(_) => NothingExpected(h, h.(job := next));
  }

  /** A refusal and a notice leave nothing on its way. */
  lemma NothingExpected(h: Hall, k: Hall)
    requires h.job.Heard? ==> h.job.errand.Tell? || (h.job.errand.Enter? && !h.job.ok)
    requires k.ledger == h.ledger && k.rooms == h.rooms && !k.job.Heard?
    ensures Copies(h) ==> Copies(k)
  {
    if Copies(h) {
      forall q | q in k.ledger.open ensures CopiesAt(k, q) {
        assert CopiesAt(h, q);
      }
    }
  }

  lemma RemovedIgnoresJob(h: Hall, r: RoomId)
    ensures h.Removed(r) == h.(job := Idle).Removed(r)
  {
  }

  lemma StepKeepsCopies(h: Hall, step: Step)
    requires Copies(h) && Cast(h) && JobOk(h) && Enabled(h, step)
    ensures Copies(Next(h, step))
  {
    hide Copies, Cast;
    match step
    case TakeCreate(group, capacity, task, works) => CreateKeepsCopies(h, group, capacity, task, works);
    case TakeReap(task) =>
      var m := h.(ledger := h.ledger.(tasks := h.ledger.tasks - {task}));
      SameCopies(h, m);
      RemovedKeepsCopies(m, h.ledger.tasks[task]);
    case NextJoin => RemovedKeepsCopies(h, h.job.room); if !SaysNo(h) { SameCopies(h, Next(h, step)); }
    case NextVisit(r) =>
      if r in h.job.todo && h.job.errand.Depart? && !(r in h.ledger.open && (h.job.s, r) in h.ledger.links) {
        LinkedAreOpen(h, h.job.s, r);
        LeftKeepsCopies(h, h.job.s, r, h.job.(todo := h.job.todo - {r}));
      } else {
        SameCopies(h, Next(h, step));
      }
    case Hear => HearKeepsCopies(h);
    case Reply(heard) =>
      RemovedKeepsCopies(h, h.job.room); if heard || !h.job.creating { SameCopies(h, Next(h, step)); }
    case Answers(admit, callback) => AnswerKeepsCopies(h, admit, callback);
    case Turns(r, turn) => TurnKeepsCopies(h, r, turn);
    case Changes(s, change) => ClientsDoNotMatter(h, Next(h, step));
    case Arrives(s, client) => ClientsDoNotMatter(h, Next(h, step));
    case _ => SameCopies(h, Next(h, step));
  }

  lemma ClientsDoNotMatter(h: Hall, k: Hall)
    requires k.ledger == h.ledger && k.rooms == h.rooms && k.job == h.job
    ensures Copies(h) ==> Copies(k)
  {
    if Copies(h) {
      forall q | q in k.ledger.open ensures CopiesAt(k, q) {
        assert CopiesAt(h, q);
      }
    }
  }

  lemma LinkedAreOpen(h: Hall, s: SessionId, r: RoomId)
    requires Copies(h)
    ensures (s, r) in h.ledger.links ==> r in h.ledger.open
  {
  }

  // ----- what every step keeps: limits and numbers -----------------------------------

  /** The room being created, which nobody may have joined yet. */
  function Setup(job: Job): set<RoomId> {
    match job
    case Filling(r, _, creating, _) => if creating then {r} else {}
    case Waiting(_, r, errand, next) => if errand.Enter? && next.Filling? && next.creating then {r} else {}
    case Heard(_, r, errand, _, next) => if errand.Enter? && next.Filling? && next.creating then {r} else {}
    case _ => {}
  }

  /** The first of a group is in, or about to be. */
  ghost predicate Led(h: Hall) {
    match h.job
    case Filling(r, coming, creating, first) =>
      creating ==> (first, r) in h.ledger.links || (coming != [] && coming[0] == first)
    case Waiting(s, r, errand, next) =>
      errand.Enter? && next.Filling? && next.creating ==> (next.first, r) in h.ledger.links || s == next.first
    case Heard(s, r, errand, _, next) =>
      errand.Enter? && next.Filling? && next.creating ==> (next.first, r) in h.ledger.links || s == next.first
    case _ => true
  }

  ghost predicate Ledgered(h: Hall) {
    h.ledger.Bounded(h.config, Setup(h.job)) && h.ledger.Numbered() && Led(h)
  }

  lemma FullySetUp(m: Ledger, config: Config, r: RoomId)
    requires m.Bounded(config, {r}) && (r !in m.open || m.MembersOf(r) != {})
    ensures m.Bounded(config, {})
  {
  }

  lemma EraseAbsent(m: Ledger, r: RoomId)
    requires r !in m.open && forall p :: p in m.links ==> p.1 in m.open
    ensures m.Erase(r) == m
  {
    assert m.Erase(r).links == m.links;
  }

  lemma RemovedKeepsLedger(h: Hall, r: RoomId)
    requires h.ledger.Bounded(h.config, Setup(h.job)) && h.ledger.Numbered() && Setup(h.job) <= {r}
    ensures Ledgered(h.Removed(r))
  {
    hide Ledger.Numbered, Ledger.Bounded;
    if Setup(h.job) == {r} { assert Setup(h.job) - {r} == {}; } else { assert Setup(h.job) == {} == {} - {r}; }
    EraseKeeps(h.ledger, h.config, Setup(h.job), r);
    LinksAreOpen(h.ledger, h.config, Setup(h.job));
    if r !in h.ledger.open { EraseAbsent(h.ledger, r); }
  }

  lemma LinksAreOpen(m: Ledger, config: Config, setup: set<RoomId>)
    requires m.Bounded(config, setup)
    ensures forall p :: p in m.links ==> p.1 in m.open
  {
  }

  lemma GrantKeepsLedger(h: Hall)
    requires Ledgered(h) && h.job.Heard? && h.job.errand.Enter? && Entering(h, h.job.s, h.job.room, h.job.next)
    ensures Ledgered(h.(ledger := h.ledger.Grant(h.job.s, h.job.room), job := h.job.next))
  {
    hide Ledger.Bounded, Ledger.Numbered;
    GrantOne(h.ledger, h.job.s, h.job.room);
    GrantAllKeeps(h.ledger, h.config, Setup(h.job), {h.job.s}, h.job.room);
    NumbersIgnoreLinks(h.ledger, h.ledger.Grant(h.job.s, h.job.room));
    SetUpAtMost(h.ledger.Grant(h.job.s, h.job.room), h.config, Setup(h.job) - {h.job.room}, Setup(h.job.next));
  }

  lemma NumbersIgnoreLinks(m: Ledger, n: Ledger)
    requires m.Numbered() && n.nextId == m.nextId && n.open == m.open && n.tasks == m.tasks
    ensures n.Numbered()
  {
  }

  lemma SetUpAtMost(m: Ledger, config: Config, a: set<RoomId>, b: set<RoomId>)
    requires m.Bounded(config, a) && a <= b
    ensures m.Bounded(config, b)
  {
  }

  lemma CreateKeepsLedger(h: Hall, group: seq<SessionId>, capacity: nat, task: TaskId, works: bool)
    requires Ledgered(h) && h.job.Idle? && task !in h.ledger.tasks
    ensures Ledgered(h.TakeCreate(group, capacity, task, works))
  {
    hide Ledger.Bounded, Ledger.Numbered;
    var k := h.TakeCreate(group, capacity, task, works);
    if k.job.Filling? {
      PreparedKeeps(h.ledger, h.config, task);
    } else {
      NumbersGoOn(h.ledger, h.config);
    }
  }

  lemma NumbersGoOn(m: Ledger, config: Config)
    requires m.Bounded(config, {}) && m.Numbered()
    ensures m.nextId < U64_MAX ==>
              m.(nextId := m.nextId + 1).Bounded(config, {}) && m.(nextId := m.nextId + 1).Numbered()
  {
  }

  lemma LeftKeepsLedger(h: Hall, s: SessionId, r: RoomId, next: Job)
    requires Ledgered(h) && Setup(h.job) == {} && next.Visiting?
    ensures Ledgered(h.Withdrawn(s, r, next))
  {
    hide Ledger.Bounded, Ledger.Numbered;
    RevokeKeeps(h.ledger, h.config, s, r);
  }

  lemma HearKeepsLedger(h: Hall)
    requires Ledgered(h) && JobOk(h) && h.job.Heard?
    ensures Ledgered(h.Hear())
  {
    hide Ledger.Bounded, Ledger.Numbered;
    var (s, r, next) := (h.job.s, h.job.room, h.job.next);
    match h.job.errand
    case Enter => GrantKeepsLedger(h); RemovedKeepsLedger(h.Delivered(s, Left(r)), r);
    case Depart => LeftKeepsLedger(h, s, r, next);
    case Tell(_) =>
  }

  lemma ReapKeepsLedger(h: Hall, task: TaskId)
    requires Ledgered(h) && h.job.Idle? && task in h.ledger.tasks
    ensures Ledgered(h.TakeReap(task))
  {
    hide Ledger.Bounded, Ledger.Numbered;
    var r := h.ledger.tasks[task];
    ReapKeeps(h.ledger, h.config, task);
    LinksAreOpen(h.ledger, h.config, {});
    if r !in h.ledger.open { EraseAbsent(h.ledger, r); }
  }

  lemma ReplyKeepsLedger(h: Hall, heard: bool)
    requires Ledgered(h) && h.job.Filling? && h.job.coming == []
    ensures Ledgered(h.Reply(heard))
  {
    hide Ledger.Bounded, Ledger.Numbered;
    RemovedKeepsLedger(h, h.job.room);
    if h.job.creating {
      assert h.job.first in h.ledger.MembersOf(h.job.room);
      FullySetUp(h.ledger, h.config, h.job.room);
    }
  }

  lemma NextJoinKeepsLedger(h: Hall)
    requires Ledgered(h) && h.job.Filling? && h.job.coming != []
    ensures Ledgered(h.NextJoin())
  {
    hide Ledger.Bounded, Ledger.Numbered;
    RemovedKeepsLedger(h, h.job.room);
  }

  lemma StepKeepsLedger(h: Hall, step: Step)
    requires Ledgered(h) && JobOk(h) && Enabled(h, step)
    ensures Ledgered(Next(h, step))
  {
    hide Ledger.Bounded, Ledger.Numbered, JobOk;
    match step
    case TakeCreate(group, capacity, task, works) => CreateKeepsLedger(h, group, capacity, task, works);
    case TakeReap(task) => ReapKeepsLedger(h, task);
    case NextJoin => NextJoinKeepsLedger(h);
    case NextVisit(r) => if h.job.todo != {} { LeftKeepsLedger(h, h.job.s, r, h.job.(todo := h.job.todo - {r})); }
    case Hear => HearKeepsLedger(h);
    case Reply(heard) => ReplyKeepsLedger(h, heard);
    case _ =>
  }
}
