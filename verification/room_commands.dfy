/** What the room manager's commands do to its record when rooms, clients and the manager run side
    by side: each has the effect it would have alone, or none. */
module RoomCommands {
  import opened Types
  import opened Clients
  import opened Rooms
  import opened RoomManagers
  import opened RoomSystem
  import opened RoomCopies
  import opened RoomRoutes
  import opened RoomNotices
  import opened RoomRuns

  // ----- what is promised ------------------------------------------------------------

  /** The manager takes a command. */
  predicate Takes(step: Step) {
    step.TakeJoin? || step.TakeCreate? || step.TakeLeave? || step.TakeDisconnect? || step.TakeConnection?
    || step.TakeRoutes? || step.TakeReap?
  }

  /** The record that a command finds is `m` and the one it leaves is `n`; `last` is the step with
      which the manager is done with it. A join or a creation counts if its requester hears of it,
      and is undone otherwise. */
  predicate Decides(m: Ledger, command: Step, last: Step, n: Ledger) {
    match command
    case TakeJoin(s, r) => n == if last == Reply(true) then m.Grant(s, r) else m
    case TakeCreate(group, _, task, _) =>
      if last == Reply(true) then n == Created(m, group, task) else n.(nextId := m.nextId, tasks := m.tasks) == m
    case TakeLeave(s, r) => n == m.Revoke(s, r)
    case TakeDisconnect(s) => n == m.RevokeAll(s, m.RoomsOf(s))
    case TakeReap(task) => task in m.tasks && n == m.(tasks := m.tasks - {task}).Erase(m.tasks[task])
    case _ => n == m
  }

  /** The manager takes the first step's command and is done with it exactly after the last step. */
  ghost predicate OneCommand(h: Hall, steps: seq<Step>) {
    && steps != [] && h.job.Idle? && Takes(steps[0]) && AllEnabled(h, steps) && Run(h, steps).job.Idle?
    && forall i :: 0 < i < |steps| ==> !Run(h, steps[..i]).job.Idle?
  }

  // ----- how far the manager is ------------------------------------------------------

  /** The manager takes `s` out of the `rooms`, one after the other. */
  ghost predicate Departing(m: Ledger, s: SessionId, rooms: set<RoomId>, all: bool, h: Hall) {
    match h.job
    case Visiting(x, todo, errand, a) =>
      x == s && errand.Depart? && a == all && todo <= rooms && h.ledger == m.RevokeAll(s, rooms - todo)
    case Waiting(x, r, errand, next) => DepartingFrom(m, s, rooms, all, h.ledger, x, r, errand, next)
    case Heard(x, r, errand, _, next) => DepartingFrom(m, s, rooms, all, h.ledger, x, r, errand, next)
    case _ => false
  }

  predicate DepartingFrom(m: Ledger, s: SessionId, rooms: set<RoomId>, all: bool, n: Ledger, x: SessionId,
                          r: RoomId, errand: Errand, next: Job) {
    && x == s && errand.Depart? && next.Visiting? && next.s == s && next.errand.Depart? && next.all == all
    && next.todo <= rooms && r in rooms - next.todo && n == m.RevokeAll(s, rooms - next.todo - {r})
  }

  predicate Telling(m: Ledger, h: Hall) {
    && h.ledger == m
    && match h.job
       case Visiting(_, _, errand, _) => errand.Tell?
       case Waiting(_, _, errand, next) => errand.Tell? && next.Visiting? && next.errand.Tell?
       case Heard(_, _, errand, _, next) => errand.Tell? && next.Visiting? && next.errand.Tell?
       case _ => false
  }

  /** The room is asked about `s`, or has taken it in, or the manager takes it out again. */
  ghost predicate Joining(m: Ledger, s: SessionId, r: RoomId, h: Hall) {
    match h.job
    case Filling(_, _, _, _) => h.job == Filling(r, [], false, s) && h.ledger == m.Grant(s, r)
    case Waiting(x, q, Enter, next) => x == s && q == r && next == Filling(r, [], false, s) && h.ledger == m
    case Heard(x, q, Enter, _, next) => x == s && q == r && next == Filling(r, [], false, s) && h.ledger == m
    case _ => Departing(m.Grant(s, r), s, {r}, false, h)
  }

  /** All of the group but those `coming` are in the new room. */
  predicate Came(m: Ledger, group: seq<SessionId>, task: TaskId, coming: seq<SessionId>, n: Ledger) {
    |coming| <= |group| && coming == group[|group| - |coming|..]
    && n == Prepared(m, task).GrantAll(Everyone(group[..|group| - |coming|]), m.nextId)
  }

  predicate Undone(m: Ledger, task: TaskId, n: Ledger) {
    n == m.(nextId := m.nextId + 1, tasks := m.tasks[task := m.nextId])
  }

  ghost predicate Creating(m: Ledger, group: seq<SessionId>, task: TaskId, h: Hall) {
    match h.job
    case Filling(q, coming, creating, _) => q == m.nextId && creating && Came(m, group, task, coming, h.ledger)
    case Waiting(s, q, errand, next) => CreatingFor(m, group, task, h.ledger, s, q, errand, next)
    case Heard(s, q, errand, _, next) => CreatingFor(m, group, task, h.ledger, s, q, errand, next)
    case Sweeping(_, _) => Undone(m, task, h.ledger)
    case _ => false
  }

  predicate CreatingFor(m: Ledger, group: seq<SessionId>, task: TaskId, n: Ledger, s: SessionId, q: RoomId,
                        errand: Errand, next: Job) {
    && q == m.nextId && errand.Enter? && next.Filling? && next.room == q && next.creating
    && Came(m, group, task, [s] + next.coming, n)
  }

  ghost predicate Doing(m: Ledger, command: Step, h: Hall) {
    match command
    case TakeJoin(s, r) => Joining(m, s, r, h)
    case TakeCreate(group, _, task, _) => Creating(m, group, task, h)
    case TakeLeave(s, r) => Departing(m, s, {r}, false, h)
    case TakeDisconnect(s) => Departing(m, s, m.RoomsOf(s), true, h)
    case TakeConnection(_, _) => Telling(m, h)
    case TakeReap(task) => h.job.Sweeping? && Decides(m, command, command, h.ledger)
    case _ => false
  }

  /** What the manager has checked when it goes on with a command. */
  ghost predicate Checked(m: Ledger, config: Config, command: Step) {
    && m.Inv(config)
    && (command.TakeJoin? ==> (command.s, command.room) !in m.links && command.room in m.open)
  }

  // ----- one step --------------------------------------------------------------------

  /** Neither rooms nor clients touch the manager's record, and only an answer reaches the manager. */
  predicate Manages(step: Step) {
    Takes(step) || step.NextJoin? || step.NextVisit? || step.Hear? || step.Reply? || step.Notify?
  }

  lemma OthersLeaveIt(h: Hall, step: Step)
    requires Enabled(h, step) && !Manages(step)
    ensures Next(h, step).ledger == h.ledger
    ensures !step.Answers? ==> Next(h, step).job == h.job
    ensures step.Answers? ==>
              && h.job.Waiting? && Next(h, step).job.Heard?
              && Next(h, step).job.(ok := true) == Heard(h.job.s, h.job.room, h.job.errand, true, h.job.next)
  {
    hide TakeTurn, Actor.Join, Actor.Leave, Change.Apply;
  }

  lemma OthersGoOn(m: Ledger, command: Step, h: Hall, step: Step)
    requires Doing(m, command, h) && Enabled(h, step) && !Manages(step)
    ensures Doing(m, command, Next(h, step)) && !Next(h, step).job.Idle?
  {
    hide Enabled, Next, Decides, Came;
    OthersLeaveIt(h, step);
  }

  lemma DepartGoesOn(m: Ledger, s: SessionId, rooms: set<RoomId>, all: bool, h: Hall, step: Step)
    requires Departing(m, s, rooms, all, h) && Enabled(h, step) && Manages(step)
    ensures if Next(h, step).job.Idle? then Next(h, step).ledger == m.RevokeAll(s, rooms)
            else Departing(m, s, rooms, all, Next(h, step))
    ensures step != Reply(true)
  {
    hide Ledger.Revoke, Ledger.RevokeAll;
    match step
    case NextVisit(r) =>
      if h.job.todo == {} {
        assert rooms - h.job.todo == rooms;
      } else {
        var rest := h.job.todo - {r};
        assert rooms - rest - {r} == rooms - h.job.todo && rooms - rest == rooms - h.job.todo + {r};
        RevokeAllGrows(m, s, rooms - h.job.todo, r);
      }
    case Hear =>
      var (r, rest) := (h.job.room, h.job.next.todo);
      assert rooms - rest - {r} + {r} == rooms - rest;
      RevokeAllGrows(m, s, rooms - rest - {r}, r);
  }

  lemma TellGoesOn(m: Ledger, h: Hall, step: Step)
    requires Telling(m, h) && Enabled(h, step) && Manages(step)
    ensures Next(h, step).ledger == m && (Next(h, step).job.Idle? || Telling(m, Next(h, step)))
  {
  }

  lemma JoinGoesOn(m: Ledger, s: SessionId, r: RoomId, h: Hall, step: Step)
    requires Joining(m, s, r, h) && Enabled(h, step) && Manages(step)
    requires (s, r) !in m.links && r in m.open && (r == GLOBAL_ROOM || m.MembersOf(r) != {})
    ensures var k := Next(h, step);
      if k.job.Idle? then k.ledger == (if step == Reply(true) then m.Grant(s, r) else m) else Joining(m, s, r, k)
  {
    hide Ledger.Revoke, Ledger.RevokeAll, Ledger.MembersOf;
    RevokeNone(m.Grant(s, r), s);
    RevokeAllGrows(m.Grant(s, r), s, {}, r);
    GrantRollsBack(m, s, r);
    assert {r} - {r} == {} && {} + {r} == {r};
    if Departing(m.Grant(s, r), s, {r}, false, h) { DepartGoesOn(m.Grant(s, r), s, {r}, false, h, step); }
  }

  lemma CameNext(m: Ledger, group: seq<SessionId>, task: TaskId, s: SessionId, coming: seq<SessionId>, n: Ledger)
    requires Came(m, group, task, [s] + coming, n) && m.nextId !in m.open && forall p :: p in m.links ==> p.1 in m.open
    ensures Came(m, group, task, coming, n.Grant(s, m.nextId))
    ensures m.nextId in n.RoomsOf(s) ==> n.Grant(s, m.nextId) == n
  {
    hide Ledger.GrantAll;
    var i := |group| - 1 - |coming|;
    assert group[i..][0] == s && group[i..][1..] == group[i + 1..];
    OneMore(group, i);
    GrantMore(m, task, Everyone(group[..i]), s);
    if m.nextId in n.RoomsOf(s) { GrantAgain(n, s, m.nextId); }
  }

  lemma CameUndone(m: Ledger, group: seq<SessionId>, task: TaskId, coming: seq<SessionId>, n: Ledger)
    requires Came(m, group, task, coming, n) && m.nextId !in m.open && forall p :: p in m.links ==> p.1 in m.open
    ensures Undone(m, task, n.Erase(m.nextId)) && m.nextId in n.open
    ensures coming == [] ==> n == Created(m, group, task)
  {
    CreationRollsBack(m.(nextId := m.nextId + 1), m.nextId, task, Everyone(group[..|group| - |coming|]));
    if coming == [] { assert group[..|group|] == group; }
  }

  lemma CreateGoesOn(m: Ledger, group: seq<SessionId>, task: TaskId, h: Hall, step: Step)
    requires Creating(m, group, task, h) && Enabled(h, step) && Manages(step)
    requires m.nextId !in m.open && forall p :: p in m.links ==> p.1 in m.open
    ensures var k := Next(h, step);
      if k.job.Idle? then
        if step == Reply(true) then k.ledger == Created(m, group, task) else Undone(m, task, k.ledger)
      else Creating(m, group, task, k)
  {
    hide Came, Undone, Ledger.Erase, Client.DeliverAt;
    match step
    case NextJoin =>
      assert [h.job.coming[0]] + h.job.coming[1..] == h.job.coming;
      CameNext(m, group, task, h.job.coming[0], h.job.coming[1..], h.ledger);
      CameUndone(m, group, task, h.job.coming, h.ledger);
    case Hear =>
      CameNext(m, group, task, h.job.s, h.job.next.coming, h.ledger);
      CameUndone(m, group, task, [h.job.s] + h.job.next.coming, h.ledger);
    case Reply(_) => CameUndone(m, group, task, [], h.ledger);
    case _ =>
  }

  lemma SweepGoesOn(h: Hall, step: Step)
    requires h.job.Sweeping? && Enabled(h, step) && Manages(step)
    ensures Next(h, step).ledger == h.ledger && (Next(h, step).job.Idle? || Next(h, step).job.Sweeping?)
    ensures step != Reply(true)
  {
    hide Client.DeliverAt;
  }

  lemma BusyWithIt(m: Ledger, command: Step, h: Hall, step: Step)
    requires Doing(m, command, h) && Enabled(h, step)
    ensures !h.job.Idle? && !Takes(step)
  {
  }

  lemma ManagerGoesOn(m: Ledger, config: Config, command: Step, h: Hall, step: Step)
    requires Checked(m, config, command) && Doing(m, command, h) && Enabled(h, step) && Manages(step)
    ensures var k := Next(h, step);
      if k.job.Idle? then Decides(m, command, step, k.ledger) else Doing(m, command, k)
  {
    hide Enabled, Next, Departing, Joining, Creating, Telling, Ledger.Numbered, Ledger.Erase;
    match command
    case TakeJoin(s, r) => JoinGoesOn(m, s, r, h, step);
    case TakeCreate(group, _, task, _) =>
      FreshId(m, config);
      CreateGoesOn(m, group, task, h, step);
    case TakeLeave(s, r) =>
      DepartGoesOn(m, s, {r}, false, h, step);
      RevokeNone(m, s);
      RevokeAllGrows(m, s, {}, r);
      assert {} + {r} == {r};
    case TakeDisconnect(s) => DepartGoesOn(m, s, m.RoomsOf(s), true, h, step);
    case TakeConnection(_, _) => TellGoesOn(m, h, step);
    case TakeReap(task) => SweepGoesOn(h, step);
    case _ =>
  }

  lemma FreshId(m: Ledger, config: Config)
    requires m.Inv(config)
    ensures m.nextId !in m.open && forall p :: p in m.links ==> p.1 in m.open
  {
  }

  lemma GoesOn(m: Ledger, config: Config, command: Step, h: Hall, step: Step)
    requires Checked(m, config, command) && Doing(m, command, h) && Enabled(h, step)
    ensures var k := Next(h, step);
      if k.job.Idle? then Decides(m, command, step, k.ledger) else Doing(m, command, k)
  {
    hide Enabled, Next, Doing, Checked, Decides, Manages;
    BusyWithIt(m, command, h, step);
    if Manages(step) { ManagerGoesOn(m, config, command, h, step); } else { OthersGoOn(m, command, h, step); }
  }

  lemma IdleInv(h: Hall)
    requires Sound(h) && h.job.Idle?
    ensures h.ledger.Inv(h.config)
  {
    hide Cast, JobOk, Copies, Told, Spoken, Ledger.Numbered, Ledger.Bounded;
  }

  lemma CreateBegins(h: Hall, group: seq<SessionId>, capacity: nat, task: TaskId, works: bool)
    requires h.job.Idle? && Enabled(h, TakeCreate(group, capacity, task, works))
    ensures var (command, k) := (TakeCreate(group, capacity, task, works), h.TakeCreate(group, capacity, task, works));
      if k.job.Idle? then Decides(h.ledger, command, command, k.ledger) else Creating(h.ledger, group, task, k)
  {
    hide Ledger.GrantAll, Ledger.Spawned;
    GrantNobody(h.ledger, task);
    assert group[..0] == [] && group[0..] == group && Everyone([]) == {};
  }

  lemma ReapBegins(h: Hall, task: TaskId)
    requires h.job.Idle? && task in h.ledger.tasks && forall p :: p in h.ledger.links ==> p.1 in h.ledger.open
    ensures var (command, k) := (TakeReap(task), h.TakeReap(task));
      Decides(h.ledger, command, command, k.ledger) && (k.job.Idle? || k.job.Sweeping?)
  {
    hide Ledger.Erase;
    var (m, r) := (h.ledger, h.ledger.tasks[task]);
    if r !in m.open { EraseAbsent(m.(tasks := m.tasks - {task}), r); }
  }

  lemma DepartBegins(m: Ledger, s: SessionId, rooms: set<RoomId>, all: bool, h: Hall)
    requires h.ledger == m && h.job == Visiting(s, rooms, Depart, all)
    ensures Departing(m, s, rooms, all, h)
  {
    hide Ledger.RevokeAll;
    RevokeNone(m, s);
    assert rooms - rooms == {};
  }

  lemma JoinBegins(h: Hall, s: SessionId, r: RoomId)
    requires h.job.Idle?
    ensures var k := h.TakeJoin(s, r);
      if k.job.Idle? then k.ledger == h.ledger
      else Joining(h.ledger, s, r, k) && (s, r) !in h.ledger.links && r in h.ledger.open
  {
  }

  lemma Begins(h: Hall, command: Step)
    requires h.ledger.Inv(h.config) && h.job.Idle? && Enabled(h, command) && Takes(command)
    ensures var k := Next(h, command);
      if k.job.Idle? then Decides(h.ledger, command, command, k.ledger)
      else Doing(h.ledger, command, k) && Checked(h.ledger, h.config, command)
  {
    hide Ledger.Numbered, Hall.TakeJoin, Hall.TakeCreate, Hall.TakeReap, Joining, Creating, Departing;
    FreshId(h.ledger, h.config);
    match command
    case TakeJoin(s, r) => JoinBegins(h, s, r);
    case TakeCreate(group, capacity, task, works) => CreateBegins(h, group, capacity, task, works);
    case TakeLeave(s, r) => DepartBegins(h.ledger, s, {r}, false, Next(h, command));
    case TakeDisconnect(s) => DepartBegins(h.ledger, s, h.ledger.RoomsOf(s), true, Next(h, command));
    case TakeReap(task) => ReapBegins(h, task);
    case _ =>
  }

  // ----- every run -------------------------------------------------------------------

  lemma {:induction false} EndsDecided(m: Ledger, config: Config, command: Step, h: Hall, steps: seq<Step>)
    requires Checked(m, config, command) && Doing(m, command, h) && AllEnabled(h, steps)
    requires steps != [] && Run(h, steps).job.Idle? && forall i :: 0 < i < |steps| ==> !Run(h, steps[..i]).job.Idle?
    ensures Decides(m, command, steps[|steps| - 1], Run(h, steps).ledger)
    decreases |steps|
  {
    hide Enabled, Next, Doing, Checked, Decides;
    GoesOn(m, config, command, h, steps[0]);
    RunsOn(h, steps);
    if |steps| > 1 { EndsDecided(m, config, command, Next(h, steps[0]), steps[1..]); }
  }

  lemma RunsOn(h: Hall, steps: seq<Step>)
    requires steps != []
    ensures Run(h, steps[..1]) == Next(h, steps[0])
    ensures forall i :: 0 <= i < |steps| ==> Run(Next(h, steps[0]), steps[1..][..i]) == Run(h, steps[..i + 1])
  {
    hide Next;
    forall i | 0 <= i < |steps| ensures Run(Next(h, steps[0]), steps[1..][..i]) == Run(h, steps[..i + 1]) {
      assert steps[..i + 1][1..] == steps[1..][..i];
    }
  }

  lemma CommandDecides(h: Hall, steps: seq<Step>)
    requires Sound(h) && OneCommand(h, steps)
    ensures Decides(h.ledger, steps[0], steps[|steps| - 1], Run(h, steps).ledger)
  {
    hide Sound, Enabled, Next, Doing, Checked, Decides;
    IdleInv(h);
    Begins(h, steps[0]);
    RunsOn(h, steps);
    if |steps| > 1 { EndsDecided(h.ledger, h.config, steps[0], Next(h, steps[0]), steps[1..]); }
  }

  /** In every run: from the moment the manager takes a command until it takes up the next, its
      record changes exactly as if nothing happened beside it, whatever rooms and clients do and
      wherever they crash: a join or a creation counts only if its requester hears of it. */
  lemma CommandsAreAtomic(config: Config, task: TaskId, before: seq<Step>, steps: seq<Step>)
    requires config.Accepted() && AllEnabled(Opening(config, task), before)
    ensures var h := Run(Opening(config, task), before);
      OneCommand(h, steps) ==> Decides(h.ledger, steps[0], steps[|steps| - 1], Run(h, steps).ledger)
  {
    hide Sound, Enabled, Next, Decides, OneCommand;
    OpeningHolds(config, task);
    HallRun(Opening(config, task), before);
    if OneCommand(Run(Opening(config, task), before), steps) {
      CommandDecides(Run(Opening(config, task), before), steps);
    }
  }
}
