/** Every run of the room manager, its rooms and the clients. */
module RoomRuns {
  import opened Types
  import opened Clients
  import opened Rooms
  import opened RoomManagers
  import opened Connections
  import opened RoomSystem
  import opened RoomCopies
  import opened RoomRoutes
  import opened RoomNotices

  // ----- every run -------------------------------------------------------------------

  /** What every step keeps, whatever is asked of the manager and in whatever order. */
  ghost predicate Sound(h: Hall) {
    h.config.Accepted() && Cast(h) && JobOk(h) && Copies(h) && Ledgered(h) && Told(h) && Spoken(h)
  }

  /** The same, and what games hear of losses and returns. */
  ghost predicate Inv(h: Hall) { Sound(h) && Paced(h) && Alternating(h) }

  lemma StepKeepsSound(h: Hall, step: Step)
    requires Sound(h) && Enabled(h, step)
    ensures Sound(Next(h, step)) && Next(h, step).config == h.config
  {
    hide Cast, JobOk, Copies, Ledgered, Told, Spoken, Enabled, Next, Config.Accepted;
    StepKeepsConfig(h, step);
    ToldKnows(h);
    StepKeepsCast(h, step);
    StepKeepsJobOk(h, step);
    StepKeepsCopies(h, step);
    StepKeepsLedger(h, step);
    StepKeepsTold(h, step);
    StepKeepsSpoken(h, step);
  }

  /** The engine reports a loss only when no room believes in one already; that it does so is
      shown where its locks are modelled. */
  ghost predicate Orderly(h: Hall, step: Step) {
    Enabled(h, step) && (step.TakeConnection? && !step.up ==> Calm(h, step.s))
  }

  lemma StepKeepsInv(h: Hall, step: Step)
    requires Inv(h) && Orderly(h, step)
    ensures Inv(Next(h, step)) && Next(h, step).config == h.config
  {
    hide Sound, Paced, Alternating, Calm, Enabled, Next;
    StepKeepsSound(h, step);
    SoundParts(h);
    StepPaces(h, step);
    StepKeepsAlternating(h, step);
  }

  lemma SoundParts(h: Hall)
    requires Sound(h)
    ensures h.config.Accepted() && Cast(h) && JobOk(h) && Copies(h) && Ledgered(h) && Told(h) && Known(h) && Spoken(h)
  {
  }

  lemma ToldKnows(h: Hall)
    requires Told(h)
    ensures Known(h)
  {
  }

  lemma StepKeepsConfig(h: Hall, step: Step)
    requires Enabled(h, step)
    ensures Next(h, step).config == h.config
  {
    hide Client.Deliver, Change.Apply, TakeTurn, Actor.Join, Actor.Leave, Ledger.Erase, Ledger.Revoke, Prepared;
  }

  lemma OpeningHolds(config: Config, task: TaskId)
    requires config.Accepted()
    ensures Inv(Opening(config, task))
  {
    hide TraceOk, Ledger.Numbered, Ledger.Bounded;
    var h := Opening(config, task);
    FreshIsTruthful(GLOBAL_ROOM, config.maxSessions, None);
    OpeningLedger(config, task);
    assert Copies(h) by { assert CopiesAt(h, GLOBAL_ROOM); }
  }

  lemma OpeningLedger(config: Config, task: TaskId)
    requires config.Accepted()
    ensures Opening(config, task).ledger.Numbered() && Opening(config, task).ledger.Bounded(config, {})
  {
    var m := Opening(config, task).ledger;
    assert m.tasks[task] == GLOBAL_ROOM;
    assert forall s :: RoomsIn({}, s) == {};
  }

  ghost predicate AllEnabled(h: Hall, steps: seq<Step>)
    decreases |steps|
  {
    steps == [] || (Enabled(h, steps[0]) && AllEnabled(Next(h, steps[0]), steps[1..]))
  }

  ghost function Run(h: Hall, steps: seq<Step>): Hall
    decreases |steps|
  {
    if steps == [] then h else Run(Next(h, steps[0]), steps[1..])
  }

  lemma {:induction false} HallRun(h: Hall, steps: seq<Step>)
    requires Sound(h) && AllEnabled(h, steps)
    ensures Sound(Run(h, steps)) && Run(h, steps).config == h.config
    decreases |steps|
  {
    hide Sound, Next, Enabled;
    if steps != [] {
      StepKeepsSound(h, steps[0]);
      HallRun(Next(h, steps[0]), steps[1..]);
    }
  }

  /** At a boundary between the manager's commands, wherever rooms have crashed: a recorded room
      that runs has exactly the members that are recorded, a dead one at least those, and no
      record exceeds its room's capacity. */
  ghost predicate Agreed(h: Hall, r: RoomId) {
    && (h.Runs(r) ==> r in h.ledger.open)
    && (h.job.Idle? && r in h.ledger.open ==>
          && r in h.rooms && h.ledger.MembersOf(r) <= h.rooms[r].members
          && (h.Runs(r) ==> h.ledger.MembersOf(r) == h.rooms[r].members)
          && |h.ledger.MembersOf(r)| <= h.rooms[r].capacity)
  }

  lemma CopiesInside(h: Hall, r: RoomId)
    requires Sound(h)
    ensures Agreed(h, r)
  {
    hide Told, Ledgered, Spoken;
    if h.job.Idle? && r in h.ledger.open {
      assert CopiesAt(h, r);
      SubsetSize(h.ledger.MembersOf(r), h.rooms[r].members);
    }
  }

  /** So it is in every run of the manager and the rooms. */
  lemma TwoCopiesAgree(config: Config, task: TaskId, steps: seq<Step>, r: RoomId)
    requires config.Accepted() && AllEnabled(Opening(config, task), steps)
    ensures Agreed(Run(Opening(config, task), steps), r)
  {
    hide Sound, Agreed;
    OpeningHolds(config, task);
    HallRun(Opening(config, task), steps);
    CopiesInside(Run(Opening(config, task), steps), r);
  }

  lemma {:induction false} IncreasingFits(routes: seq<RoomId>, rooms: set<RoomId>)
    requires forall i, j :: 0 <= i < j < |routes| ==> routes[i] < routes[j]
    requires forall r :: r in routes ==> r in rooms
    ensures |routes| <= |rooms|
  {
    if routes != [] {
      var front, last := routes[..|routes| - 1], routes[|routes| - 1];
      forall r | r in front ensures r in rooms - {last} {
        var i :| 0 <= i < |front| && front[i] == r;
        assert routes[i] == r;
      }
      IncreasingFits(front, rooms - {last});
    }
  }

  /** A snapshot never has more routes than the drain of a new connection allows for. */
  lemma SnapshotFits(h: Hall, s: SessionId, routes: seq<RoomId>)
    requires Sound(h) && Lists(h, s, routes)
    ensures |routes| <= h.config.maxRoomsPerSession
  {
    hide Cast, JobOk, Copies, Told, Spoken;
    IncreasingFits(routes, h.ledger.RoomsOf(s));
  }

  /** Once everything in an uncancelled inbox has been read, the snapshot first and then all
      that was delivered since the connection began, the routing table, as far as rooms still
      run, is the session's membership: first as the rooms know it, and at the manager's
      boundaries as it is recorded. */
  lemma RoutesConverge(h: Hall, s: SessionId, r: RoomId)
    requires Sound(h) && s in h.clients && h.clients[s].Uncancelled() && s in h.snaps && h.Runs(r)
    ensures var table := Routed(Restored(h.snaps[s]) + h.clients[s].transport.value.sent, {});
            && (r in table <==> h.Member(s, r))
            && (h.job.Idle? ==> (r in table <==> r in h.ledger.RoomsOf(s)))
  {
    hide Cast, Ledgered, Spoken, Copies, Says, Routed;
    var sent := h.clients[s].transport.value.sent;
    assert LoggedAt(h.clients[s], SnapOf(h, s), h.Member(s, r), r);
    RoutedInTwo(Restored(h.snaps[s]), sent, {});
    RestoredTable(h.snaps[s]);
    TableIsLastWord(sent, Routed(Restored(h.snaps[s]), {}), r);
    CopiesInside(h, r);
    assert s in h.ledger.MembersOf(r) <==> r in h.ledger.RoomsOf(s);
  }

  /** The convergence after any run whatever. */
  lemma EveryRunConverges(config: Config, task: TaskId, steps: seq<Step>, s: SessionId, r: RoomId)
    requires config.Accepted() && AllEnabled(Opening(config, task), steps)
    requires var h := Run(Opening(config, task), steps);
             s in h.clients && h.clients[s].Uncancelled() && s in h.snaps && h.Runs(r)
    ensures var h := Run(Opening(config, task), steps);
            var table := Routed(Restored(h.snaps[s]) + h.clients[s].transport.value.sent, {});
            && (r in table <==> h.Member(s, r))
            && (h.job.Idle? ==> (r in table <==> r in h.ledger.RoomsOf(s)))
  {
    hide Sound;
    OpeningHolds(config, task);
    HallRun(Opening(config, task), steps);
    RoutesConverge(Run(Opening(config, task), steps), s, r);
  }

  /** Messages sent with a connection's generation reach a game in the order of generations, and
      none is ahead of its session. */
  ghost predicate MessagesInOrder(h: Hall, r: RoomId) {
    r in h.rooms ==>
      forall i, j :: 0 <= i < j < |h.rooms[r].trace| && Sent(h.rooms[r].trace[i]) && Sent(h.rooms[r].trace[j])
                     && h.rooms[r].trace[i].player == h.rooms[r].trace[j].player ==>
        var (s, g, later) := (h.rooms[r].trace[i].player, h.rooms[r].trace[i].generation.value,
            h.rooms[r].trace[j].generation.value);
        g <= later && s in h.clients && later <= h.clients[s].generation
  }

  lemma MessagesOrdered(h: Hall, r: RoomId)
    requires Sound(h)
    ensures MessagesInOrder(h, r)
  {
    hide Cast, JobOk, Copies, Ledgered, Told;
    if r in h.rooms { assert InSequence(h.rooms[r].trace, h.clients); }
  }

  lemma MessagesKeepOrder(config: Config, task: TaskId, steps: seq<Step>, r: RoomId)
    requires config.Accepted() && AllEnabled(Opening(config, task), steps)
    ensures MessagesInOrder(Run(Opening(config, task), steps), r)
  {
    hide Sound, MessagesInOrder;
    OpeningHolds(config, task);
    HallRun(Opening(config, task), steps);
    MessagesOrdered(Run(Opening(config, task), steps), r);
  }

  // ----- sessions that are closed for good -------------------------------------------

  /** `s` is recorded nowhere and on its way nowhere. */
  predicate Out(h: Hall, s: SessionId) {
    h.ledger.RoomsOf(s) == {} && !((h.job.Waiting? || h.job.Heard?) && h.job.errand.Enter? && h.job.s == s)
  }

  lemma FewerLinks(links: set<Link>, more: set<Link>, s: SessionId)
    requires RoomsIn(more, s) == {} && forall p :: p in links && p.0 == s ==> p in more
    ensures RoomsIn(links, s) == {}
  {
  }

  lemma RemovedKeepsOut(h: Hall, r: RoomId, s: SessionId)
    requires h.ledger.RoomsOf(s) == {}
    ensures Out(h.Removed(r), s)
  {
    FewerLinks(h.Removed(r).ledger.links, h.ledger.links, s);
  }

  lemma LeftKeepsOut(h: Hall, x: SessionId, r: RoomId, next: Job, s: SessionId)
    requires h.ledger.RoomsOf(s) == {} && (next.Visiting? || next.Filling?)
    ensures Out(h.Withdrawn(x, r, next), s)
  {
    FewerLinks(h.Withdrawn(x, r, next).ledger.links, h.ledger.links, s);
  }

  lemma HearKeepsOut(h: Hall, s: SessionId)
    requires JobOk(h) && h.job.Heard? && Out(h, s)
    ensures Out(h.Hear(), s)
  {
    hide Hall.Removed, Hall.Withdrawn, Client.Deliver;
    var (x, r, next) := (h.job.s, h.job.room, h.job.next);
    match h.job.errand
    case Enter =>
      FewerLinks(h.ledger.Grant(x, r).links, h.ledger.links, s);
      RemovedKeepsOut(h.Delivered(x, Left(r)), r, s);
    case Depart => LeftKeepsOut(h, x, r, next, s);
    case Tell(_) =>
  }

  lemma CreateKeepsOut(h: Hall, group: seq<SessionId>, capacity: nat, task: TaskId, works: bool, s: SessionId)
    requires Out(h, s) && h.job.Idle?
    ensures Out(h.TakeCreate(group, capacity, task, works), s)
  {
  }

  lemma AnswerKeepsOut(h: Hall, admit: bool, callback: Callback, s: SessionId)
    requires Out(h, s) && h.job.Waiting?
    ensures Out(h.Answers(admit, callback), s)
  {
    hide TakeTurn, Actor.Join, Actor.Leave;
  }

  /** Someone closed for good, and out, stays out whatever the manager and the rooms do. */
  lemma ClosedStaysOut(h: Hall, step: Step, s: SessionId)
    requires JobOk(h) && Enabled(h, step) && Out(h, s) && h.Of(s).closed
    ensures Out(Next(h, step), s)
  {
    hide JobOk, Hall.Removed, Hall.Withdrawn, Hall.Hear, Hall.Answers, Hall.TakeCreate, Client.Deliver, TakeTurn;
    hide Change.Apply;
    match step
    case TakeCreate(group, capacity, task, works) => CreateKeepsOut(h, group, capacity, task, works, s);
    case Answers(admit, callback) => AnswerKeepsOut(h, admit, callback, s);
    case TakeReap(task) =>
      RemovedKeepsOut(h.(ledger := h.ledger.(tasks := h.ledger.tasks - {task})), h.ledger.tasks[task], s);
    case NextJoin => RemovedKeepsOut(h, h.job.room, s);
    case NextVisit(r) => LeftKeepsOut(h, h.job.s, r, h.job.(todo := h.job.todo - {r}), s); NextVisitEnters(h, r);
    case Hear => HearKeepsOut(h, s);
    case Reply(_) => RemovedKeepsOut(h, h.job.room, s);
    case _ =>
  }

  lemma NextVisitEnters(h: Hall, r: RoomId)
    requires JobOk(h) && h.job.Visiting?
    ensures !h.job.errand.Enter?
  {
  }

  /** When an eviction is over, its session is out. */
  lemma EvictionIsOver(h: Hall, step: Step)
    requires JobOk(h) && h.job.Visiting? && h.job.errand.Depart? && h.job.all && h.job.todo == {} && step.NextVisit?
    requires Enabled(h, step)
    ensures Out(Next(h, step), h.job.s) && Next(h, step).job.Idle?
  {
  }

  /** Only those who arrive are added to the clients. */
  lemma NobodyElseArrives(h: Hall, step: Step)
    requires Copies(h) && Told(h) && JobOk(h) && Cast(h) && Enabled(h, step) && !step.Arrives?
    ensures Next(h, step).clients.Keys == h.clients.Keys
  {
    hide Copies, Logged, Known, Cast, Hall.Removed, Hall.Withdrawn, Hall.Answers, Client.Deliver, Change.Apply;
    match step
    case TakeReap(task) =>
      RemovedNoNews(h.(ledger := h.ledger.(tasks := h.ledger.tasks - {task})), h.ledger.tasks[task]);
    case NextJoin => RemovedNoNews(h, h.job.room);
    case NextVisit(r) => LeftClients(h, h.job.s, r, h.job.(todo := h.job.todo - {r}));
    case Hear =>
      RemovedNoNews(h.Delivered(h.job.s, Left(h.job.room)), h.job.room);
      LeftClients(h, h.job.s, h.job.room, h.job.next);
    case Reply(_) => RemovedNoNews(h, h.job.room);
    case Answers(admit, callback) => AnswersClients(h, admit, callback);
    case _ =>
  }

  lemma LeftClients(h: Hall, s: SessionId, r: RoomId, next: Job)
    ensures h.Withdrawn(s, r, next).clients == h.clients
  {
  }

  lemma AnswersClients(h: Hall, admit: bool, callback: Callback)
    requires Copies(h) && Known(h) && Arrived(h) && JobOk(h) && h.job.Waiting? && h.job.room in h.rooms
    ensures h.Answers(admit, callback).clients.Keys == h.clients.Keys
  {
    hide Known, Copies, TakeTurn, Actor.Join, Actor.Leave;
    if h.job.errand.Depart? { DepartingIsMember(h, h.job.s, h.job.room); }
  }
}
