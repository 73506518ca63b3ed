/** What a connection has been told of its rooms, and why that is right. */
module RoomRoutes {
  import opened Types
  import opened Clients
  import opened Rooms
  import opened RoomManagers
  import opened Connections
  import opened RoomSystem
  import opened RoomCopies

  // ----- what every step keeps: the routes a connection has heard of -----------------

  /** Of one uncancelled connection and one room: the last word said about the room, or, if
      there was none, the restored snapshot, tells whether the session is a member. */
  ghost predicate LoggedAt(c: Client, snap: Option<seq<RoomId>>, member: bool, r: RoomId) {
    c.Uncancelled() ==>
      match Says(c.transport.value.sent, r)
      case Some(joined) => joined == member
      case None => snap.Some? ==> (r in snap.value <==> member)
  }

  function SnapOf(h: Hall, s: SessionId): Option<seq<RoomId>> { if s in h.snaps then Some(h.snaps[s]) else None }

  ghost predicate Logged(h: Hall) {
    forall s, r :: s in h.clients && h.Runs(r) ==> LoggedAt(h.clients[s], SnapOf(h, s), h.Member(s, r), r)
  }

  /** Nobody has heard of a room that does not exist yet, and no room of a session that has
      not arrived. */
  ghost predicate Known(h: Hall) {
    && h.snaps.Keys <= h.clients.Keys
    && (forall s, r :: s in h.snaps && r in h.snaps[s] ==> r in h.rooms)
    && (forall s, r ::
          s in h.clients && h.clients[s].transport.Some? && Says(h.clients[s].transport.value.sent, r).Some?
          ==> r in h.rooms)
    && (forall r :: r in h.rooms ==> h.rooms[r].members <= h.clients.Keys)
  }

  /** Everybody the manager is bringing in has arrived. */
  ghost predicate Arrived(h: Hall) {
    match h.job
    case Filling(_, coming, _, _) => forall s :: s in coming ==> s in h.clients
    case Waiting(s, _, errand, next) =>
      errand.Enter? && next.Filling? ==> s in h.clients && forall x :: x in next.coming ==> x in h.clients
    case Heard(s, _, errand, _, next) =>
      errand.Enter? && next.Filling? ==> s in h.clients && forall x :: x in next.coming ==> x in h.clients
    case Sweeping(_, left) => left <= h.clients.Keys
    case _ => true
  }

  predicate About(event: Event, r: RoomId) { event == Joined(r) || event == Left(r) }

  /** An event is delivered, or else the connection is cancelled or was not there. */
  lemma DeliverySays(c: Client, capacity: nat, event: Event)
    ensures var d := c.Deliver(capacity, event).0;
            && (d.Uncancelled() ==> c.Uncancelled() && d.transport.value.sent == c.transport.value.sent + [event])
            && (d.transport.Some? ==>
                  && c.transport.Some?
                  && (d.transport.value.sent == c.transport.value.sent
                      || d.transport.value.sent == c.transport.value.sent + [event]))
  {
  }

  lemma ChangeSays(c: Client, capacity: nat, change: Change)
    requires Outside(change)
    ensures var d := change.Apply(capacity, c);
            && (d.Uncancelled() && !(change.Attaching? && c.Attach(change.resumed).Ok?) ==> c.Uncancelled())
            && (d.transport.Some? && change.Attaching? && c.Attach(change.resumed).Ok? ==> d.transport.value.sent == [])
            && (d.transport.Some? && !(change.Attaching? && c.Attach(change.resumed).Ok?) ==>
                  && c.transport.Some?
                  && (d.transport.value.sent == c.transport.value.sent
                      || (change.Delivering? && d.transport.value.sent == c.transport.value.sent + [change.event])))
  {
  }

  /** Clients and snapshots are as before, rooms may have stopped, and those that still run
      have the same members. */
  lemma LoggedSame(h: Hall, k: Hall)
    requires k.clients == h.clients && k.snaps == h.snaps
    requires forall r :: k.Runs(r) ==> h.Runs(r) && k.rooms[r].members == h.rooms[r].members
    ensures Logged(h) ==> Logged(k)
  {
  }

  lemma KnownSame(h: Hall, k: Hall)
    requires k.clients == h.clients && k.snaps == h.snaps && h.rooms.Keys <= k.rooms.Keys
    requires forall r :: r in k.rooms && r in h.rooms ==> k.rooms[r].members <= h.rooms[r].members
    requires forall r :: r in k.rooms && r !in h.rooms ==> k.rooms[r].members == {}
    ensures Known(h) ==> Known(k)
  {
  }

  /** An event about a room is delivered to `x`, and no other membership changes. */
  lemma LoggedDelivery(h: Hall, k: Hall, x: SessionId, event: Event)
    requires x in h.clients && k.snaps == h.snaps
    requires k.clients == h.clients[x := h.clients[x].Deliver(h.config.outboundCapacity, event).0]
    requires forall r :: k.Runs(r) ==> h.Runs(r)
    requires forall s, r :: k.Runs(r) && !(s == x && About(event, r)) ==> (k.Member(s, r) <==> h.Member(s, r))
    requires k.clients[x].Uncancelled() && event.Joined? && k.Runs(event.room) ==> k.Member(x, event.room)
    requires k.clients[x].Uncancelled() && event.Left? && k.Runs(event.room) ==> !k.Member(x, event.room)
    ensures Logged(h) ==> Logged(k)
  {
    hide Client.Deliver, Client.DeliverAt, Says;
    DeliverySays(h.clients[x], h.config.outboundCapacity, event);
    if Logged(h) {
      forall s, r | s in k.clients && k.Runs(r) ensures LoggedAt(k.clients[s], SnapOf(k, s), k.Member(s, r), r) {
        assert LoggedAt(h.clients[s], SnapOf(h, s), h.Member(s, r), r);
        if s == x && k.clients[x].Uncancelled() {
          SaysOneMore(h.clients[x].transport.value.sent, event, r);
        }
      }
    }
  }

  lemma KnownDelivery(h: Hall, k: Hall, x: SessionId, event: Event)
    requires x in h.clients && k.snaps == h.snaps && k.rooms.Keys == h.rooms.Keys
    requires k.clients == h.clients[x := h.clients[x].Deliver(h.config.outboundCapacity, event).0]
    requires event.Frame? || event.room in h.rooms
    requires forall r :: r in k.rooms ==> k.rooms[r].members <= h.rooms[r].members + {x}
    ensures Known(h) ==> Known(k)
  {
    hide Client.Deliver, Client.DeliverAt, Says;
    DeliverySays(h.clients[x], h.config.outboundCapacity, event);
    if Known(h) {
      forall r | k.clients[x].transport.Some? && Says(k.clients[x].transport.value.sent, r).Some? ensures r in k.rooms {
        SaysOneMore(h.clients[x].transport.value.sent, event, r);
      }
    }
  }

  ghost predicate Told(h: Hall) { Logged(h) && Known(h) && Arrived(h) }

  lemma JoinDelivers(a: Actor, s: SessionId, c: Client, outbound: nat, admit: bool, callback: Callback)
    requires a.alive
    ensures var d := a.Join(s, c, outbound, admit, callback).1;
            var b := TakeTurn(a, JoinTurn(s, c, outbound, admit, callback));
            || (d == c && b.members == a.members)
            || (d == c.Deliver(outbound, Joined(a.id)).0 && b.members <= a.members + {s}
                && (d.Uncancelled() ==> b.members == a.members + {s}) && a.members <= b.members)
  {
    hide Client.DeliverAt;
    DeliveryFails(c, outbound, Joined(a.id));
  }

  lemma DeliveryFails(c: Client, outbound: nat, event: Event)
    ensures c.Deliver(outbound, event).1.Err? ==> !c.Deliver(outbound, event).0.Uncancelled()
  {
  }

  lemma LeaveDelivers(a: Actor, s: SessionId, c: Client, outbound: nat, callback: Callback)
    requires a.alive && s in a.members
    ensures a.Leave(s, c, outbound, callback).1 == c.Deliver(outbound, Left(a.id)).0
  {
  }

  lemma AnswerKeepsTold(h: Hall, admit: bool, callback: Callback)
    requires Told(h) && Cast(h) && Copies(h) && JobOk(h) && h.job.Waiting? && h.job.room in h.rooms
    ensures Told(h.Answers(admit, callback))
  {
    hide Logged, Known, Copies, TakeTurn, TraceOk, Actor.Join, Actor.Leave, Client.Deliver, Client.DeliverAt;
    hide Client.IsClosed;
    var (s, r, c, k) := (h.job.s, h.job.room, h.Of(h.job.s), h.Answers(admit, callback));
    var a := h.rooms[r];
    if !a.alive {
      NoNews(h, k);
    } else {
      match h.job.errand
      case Enter =>
        var turn := JoinTurn(s, c, h.config.outboundCapacity, admit, callback);
        TurnLives(a, turn);
        JoinDelivers(a, s, c, h.config.outboundCapacity, admit, callback);
        if k.clients[s] == c && k.rooms[r].members == a.members {
          assert k.clients == h.clients;
          NoNews(h, k);
        } else {
          LoggedDelivery(h, k, s, Joined(r));
          KnownDelivery(h, k, s, Joined(r));
        }
      case Depart =>
        var turn := LeaveTurn(s, c, h.config.outboundCapacity, callback);
        TurnLives(a, turn);
        LeaveMembers(a, s, c, h.config.outboundCapacity, callback);
        DepartingIsMember(h, s, r);
        LeaveDelivers(a, s, c, h.config.outboundCapacity, callback);
        LoggedDelivery(h, k, s, Left(r));
        KnownDelivery(h, k, s, Left(r));
      case Tell(up) =>
        TurnLives(a, ConnectionTurn(s, up, callback));
        OwnTurnMembers(a, ConnectionTurn(s, up, callback));
        NoNews(h, k);
    }
  }

  lemma DepartingIsMember(h: Hall, s: SessionId, r: RoomId)
    requires Copies(h) && Known(h) && !h.job.Heard? && r in h.ledger.open && (s, r) in h.ledger.links
    ensures r in h.rooms && s in h.rooms[r].members && s in h.clients
  {
    assert CopiesAt(h, r);
    assert s in h.ledger.MembersOf(r);
  }

  lemma NoNews(h: Hall, k: Hall)
    requires k.clients == h.clients && k.snaps == h.snaps && h.rooms.Keys == k.rooms.Keys
    requires forall r :: r in k.rooms ==> k.rooms[r].members <= h.rooms[r].members
    requires forall r :: k.Runs(r) ==> h.Runs(r) && k.rooms[r].members == h.rooms[r].members
    ensures Logged(h) ==> Logged(k)
    ensures Known(h) ==> Known(k)
  {
    LoggedSame(h, k);
    KnownSame(h, k);
  }

  lemma RemovedNoNews(h: Hall, r: RoomId)
    ensures var k := h.Removed(r);
            && k.clients == h.clients && k.snaps == h.snaps && h.rooms.Keys == k.rooms.Keys
            && (forall q :: q in k.rooms ==> k.rooms[q].members == h.rooms[q].members)
            && (forall q :: k.Runs(q) ==> h.Runs(q))
  {
  }

  lemma RecordedArrived(h: Hall, r: RoomId)
    requires Copies(h) && Known(h) && r in h.ledger.open && !(h.job.Heard? && h.job.errand.Depart?)
    ensures h.ledger.MembersOf(r) <= h.clients.Keys
  {
    assert CopiesAt(h, r);
  }

  lemma RemovedKeepsTold(h: Hall, r: RoomId)
    requires Logged(h) && Known(h) && Copies(h) && !(h.job.Heard? && h.job.errand.Depart?)
    ensures Told(h.Removed(r))
  {
    hide Logged, Known, Copies;
    RemovedNoNews(h, r);
    NoNews(h, h.Removed(r));
    if r in h.ledger.open { RecordedArrived(h, r); }
  }

  lemma LeftKeepsTold(h: Hall, s: SessionId, r: RoomId, next: Job)
    requires Logged(h) && Known(h) && next.Visiting?
    ensures Told(h.Withdrawn(s, r, next))
  {
    hide Logged, Known, Ledger.Revoke;
    NoNews(h, h.Withdrawn(s, r, next));
  }

  lemma HearKeepsTold(h: Hall)
    requires Told(h) && Cast(h) && Copies(h) && JobOk(h) && h.job.Heard?
    ensures Told(h.Hear())
  {
    hide Logged, Known, Copies, Cast, Client.Deliver, Client.DeliverAt;
    var (s, r, next) := (h.job.s, h.job.room, h.job.next);
    match h.job.errand
    case Enter =>
      if h.job.ok {
        NoNews(h, h.Hear());
      } else {
        var k := h.Delivered(s, Left(r)).(job := Idle);
        RefusedIsNoMember(h, s, r);
        LoggedDelivery(h, k, s, Left(r));
        KnownDelivery(h, k, s, Left(r));
        NothingExpected(h, k);
        RemovedIgnoresJob(h.Delivered(s, Left(r)), r);
        RemovedKeepsTold(k, r);
      }
    case Depart => LeftKeepsTold(h, s, r, next);
    case Tell(_) => NoNews(h, h.Hear());
  }

  /** Someone a running room refused, or never answered, is not in it. */
  lemma RefusedIsNoMember(h: Hall, s: SessionId, r: RoomId)
    requires Cast(h) && Copies(h) && h.job.Heard? && h.job.errand.Enter? && !h.job.ok && r in h.ledger.open
    requires (s, r) !in h.ledger.links
    ensures r in h.rooms && (h.Runs(r) ==> !h.Member(s, r))
  {
    assert CopiesAt(h, r);
  }

  lemma NotifyKeepsTold(h: Hall, s: SessionId, frame: Payload)
    requires Told(h) && Cast(h) && JobOk(h) && h.job.Sweeping? && s in h.job.left
    ensures Told(h.Notify(s, frame))
  {
    hide Logged, Known, TraceOk, Client.Deliver, Client.DeliverAt;
    var m := h.Delivered(s, Left(h.job.room));
    var k := m.Delivered(s, Frame(frame));
    LoggedDelivery(h, m, s, Left(h.job.room));
    KnownDelivery(h, m, s, Left(h.job.room));
    LoggedDelivery(m, k, s, Frame(frame));
    KnownDelivery(m, k, s, Frame(frame));
    NoNews(k, h.Notify(s, frame));
  }

  /** Of a room that is removed, each recorded member in turn is told that it has left and that the
      room is closed, in this order, or its connection is cancelled; and nobody else is told. */
  lemma RemovalIsTold(h: Hall, s: SessionId, frame: Payload)
    requires s in h.clients && Enabled(h, Notify(s, frame))
    ensures var (k, c, d) := (Next(h, Notify(s, frame)), h.clients[s], Next(h, Notify(s, frame)).Of(s));
            && (d.Uncancelled() ==>
                  && c.Uncancelled()
                  && d.transport.value.sent == c.transport.value.sent + [Left(h.job.room), Frame(frame)])
            && k.clients == h.clients[s := d]
            && (if h.job.left == {s} then k.job.Idle? else k.job == h.job.(left := h.job.left - {s}))
  {
    hide Client.Deliver, Client.DeliverAt;
    var n := h.config.outboundCapacity;
    var m := h.clients[s].Deliver(n, Left(h.job.room)).0;
    DeliverySays(h.clients[s], n, Left(h.job.room));
    DeliverySays(m, n, Frame(frame));
    assert [Left(h.job.room)] + [Frame(frame)] == [Left(h.job.room), Frame(frame)];
    assert h.job.left - {s} == {} <==> h.job.left == {s};
  }

  lemma ChangeKeepsTold(h: Hall, s: SessionId, change: Change)
    requires Told(h) && s in h.clients && Outside(change)
    ensures Told(h.Changes(s, change))
  {
    hide Change.Apply, Says, Client.Attach;
    var k := h.Changes(s, change);
    var c, d := h.clients[s], k.clients[s];
    ChangeSays(c, h.config.outboundCapacity, change);
    forall x, r | x in k.clients && k.Runs(r) ensures LoggedAt(k.clients[x], SnapOf(k, x), k.Member(x, r), r) {
      assert LoggedAt(h.clients[x], SnapOf(h, x), h.Member(x, r), r);
      if x == s { ChangeKeepsWord(c, d, change, r); }
    }
    forall r | d.transport.Some? && Says(d.transport.value.sent, r).Some? ensures r in k.rooms {
      ChangeKeepsWord(c, d, change, r);
    }
  }

  lemma ChangeKeepsWord(c: Client, d: Client, change: Change, r: RoomId)
    requires Outside(change)
    ensures d.transport.Some? && d.transport.value.sent == [] ==> Says(d.transport.value.sent, r) == None
    ensures d.transport.Some? && c.transport.Some?
            && (d.transport.value.sent == c.transport.value.sent
                 || (change.Delivering? && d.transport.value.sent == c.transport.value.sent + [change.event]))
            ==> Says(d.transport.value.sent, r) == Says(c.transport.value.sent, r)
  {
    if change.Delivering? && c.transport.Some? { SaysOneMore(c.transport.value.sent, change.event, r); }
  }

  lemma ArrivalKeepsTold(h: Hall, s: SessionId, client: Client)
    requires Told(h) && s !in h.clients && (client.transport.Some? ==> client.transport.value.sent == [])
    ensures Told(h.(clients := h.clients[s := client], snaps := h.snaps[s := []]))
  {
    var k := h.(clients := h.clients[s := client], snaps := h.snaps[s := []]);
    forall x, r | x in k.clients && k.Runs(r) ensures LoggedAt(k.clients[x], SnapOf(k, x), k.Member(x, r), r) {
      if x != s { assert LoggedAt(h.clients[x], SnapOf(h, x), h.Member(x, r), r); }
    }
  }

  lemma RoutesKeepTold(h: Hall, s: SessionId, routes: seq<RoomId>)
    requires Told(h) && Cast(h) && Copies(h) && h.job.Idle? && s in h.clients && Lists(h, s, routes)
    ensures Told(h.(snaps := h.snaps[s := routes]))
  {
    hide TraceOk;
    var k := h.(snaps := h.snaps[s := routes]);
    forall x, r | x in k.clients && k.Runs(r) ensures LoggedAt(k.clients[x], SnapOf(k, x), k.Member(x, r), r) {
      assert LoggedAt(h.clients[x], SnapOf(h, x), h.Member(x, r), r);
      assert CopiesAt(h, r);
      assert r in h.ledger.RoomsOf(x) <==> x in h.ledger.MembersOf(r);
    }
  }

  lemma CreateKeepsTold(h: Hall, group: seq<SessionId>, capacity: nat, task: TaskId, works: bool)
    requires Told(h) && Cast(h) && h.job.Idle? && forall s :: s in group ==> s in h.clients
    ensures Told(h.TakeCreate(group, capacity, task, works))
  {
    hide TraceOk;
    var k := h.TakeCreate(group, capacity, task, works);
    forall s, r | s in k.clients && k.Runs(r) ensures LoggedAt(k.clients[s], SnapOf(k, s), k.Member(s, r), r) {
      if r in h.rooms { assert LoggedAt(h.clients[s], SnapOf(h, s), h.Member(s, r), r); }
    }
    KnownSame(h, k);
  }

  lemma TurnKeepsTold(h: Hall, r: RoomId, turn: Turn)
    requires Told(h) && r in h.rooms && Own(h, r, turn)
    ensures Told(h.(rooms := h.rooms[r := TakeTurn(h.rooms[r], turn)]))
  {
    hide TakeTurn, Logged, Known;
    OwnTurnMembers(h.rooms[r], turn);
    TurnLives(h.rooms[r], turn);
    NoNews(h, h.(rooms := h.rooms[r := TakeTurn(h.rooms[r], turn)]));
  }

  lemma NextJoinKeepsTold(h: Hall)
    requires Told(h) && Copies(h) && h.job.Filling? && h.job.coming != []
    ensures Told(h.NextJoin())
  {
    hide Logged, Known, Copies;
    RemovedKeepsTold(h, h.job.room);
    if !SaysNo(h) { NoNews(h, h.NextJoin()); }
  }

  lemma NextVisitKeepsTold(h: Hall, r: RoomId)
    requires Told(h) && h.job.Visiting? && (h.job.errand.Enter? ==> false)
    ensures Told(h.NextVisit(r))
  {
    hide Logged, Known;
    LeftKeepsTold(h, h.job.s, r, h.job.(todo := h.job.todo - {r}));
    if h.NextVisit(r) != h.Withdrawn(h.job.s, r, h.job.(todo := h.job.todo - {r})) { NoNews(h, h.NextVisit(r)); }
  }

  lemma StepKeepsTold(h: Hall, step: Step)
    requires Told(h) && Cast(h) && Copies(h) && JobOk(h) && Enabled(h, step)
    ensures Told(Next(h, step))
  {
    hide Logged, Known, Copies, Cast;
    match step
    case TakeCreate(group, capacity, task, works) => CreateKeepsTold(h, group, capacity, task, works);
    case TakeReap(task) =>
      var m := h.(ledger := h.ledger.(tasks := h.ledger.tasks - {task}));
      SameCopies(h, m);
      NoNews(h, m);
      RemovedKeepsTold(m, h.ledger.tasks[task]);
    case TakeRoutes(s, routes) => RoutesKeepTold(h, s, routes);
    case NextJoin => NextJoinKeepsTold(h);
    case NextVisit(r) => NextVisitKeepsTold(h, r);
    case Hear => HearKeepsTold(h);
    case Reply(heard) => RemovedKeepsTold(h, h.job.room); if heard || !h.job.creating { NoNews(h, Next(h, step)); }
    case Notify(s, frame) => NotifyKeepsTold(h, s, frame);
    case Answers(admit, callback) => AnswerKeepsTold(h, admit, callback);
    case Turns(r, turn) => TurnKeepsTold(h, r, turn);
    case Changes(s, change) => ChangeKeepsTold(h, s, change);
    case Arrives(s, client) => ArrivalKeepsTold(h, s, client);
    case _ => NoNews(h, Next(h, step));
  }
}
