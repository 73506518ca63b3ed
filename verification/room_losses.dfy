/** What a game hears of a player's losses and returns: when two reports of a loss have one of a
    return between them, and when not. */
module RoomLosses {
  import opened Types
  import opened Clients
  import opened Rooms
  import opened RoomManagers
  import opened RoomSystem
  import opened RoomCopies
  import opened RoomRoutes
  import opened RoomNotices
  import opened RoomRuns

  // ----- traces ----------------------------------------------------------------------

  /** Between any two reports of this player's loss there is one of its return. */
  ghost predicate Returns(trace: seq<GameEvent>, s: SessionId) {
    forall i, j :: 0 <= i < j < |trace| && trace[i] == Disconnected(s) && trace[j] == Disconnected(s) ==>
        Back(trace, i, j, s)
  }

  ghost predicate Back(trace: seq<GameEvent>, i: nat, j: nat, s: SessionId)
    requires j <= |trace|
  {
    exists k :: i < k < j && trace[k] == Reconnected(s)
  }

  /** Of the reports about this player the last, during this stay or an earlier one, is of a loss. */
  predicate Unanswered(trace: seq<GameEvent>, s: SessionId) {
    trace != [] &&
    var before := trace[..|trace| - 1];
    match trace[|trace| - 1]
    case Disconnected(x) => x == s || Unanswered(before, s)
    case Reconnected(x) => x != s && Unanswered(before, s)
    case _ => Unanswered(before, s)
  }

  /** The room has last heard of a loss of `s`, and of no return since. */
  predicate Missing(h: Hall, s: SessionId, r: RoomId) { r in h.rooms && Unanswered(h.rooms[r].trace, s) }

  /** The player is taken out while the game believes that its connection is lost. */
  predicate TakenOut(trace: seq<GameEvent>, k: nat, s: SessionId) {
    k < |trace| && trace[k] == Exited(s) && Down(trace[..k], s)
  }

  lemma UnansweredMore(trace: seq<GameEvent>, event: GameEvent, s: SessionId)
    ensures Unanswered(trace + [event], s)
            == (event == Disconnected(s) || (event != Reconnected(s) && Unanswered(trace, s)))
  {
    assert (trace + [event])[..|trace|] == trace;
  }

  lemma {:induction false} LastLoss(trace: seq<GameEvent>, s: SessionId) returns (i: nat)
    requires Unanswered(trace, s)
    ensures i < |trace| && trace[i] == Disconnected(s) && !Back(trace, i, |trace|, s)
  {
    if trace[|trace| - 1] == Disconnected(s) {
      i := |trace| - 1;
    } else {
      i := LastLoss(trace[..|trace| - 1], s);
    }
  }

  lemma {:induction false} EveryLossAnswered(trace: seq<GameEvent>, s: SessionId, i: nat)
    requires !Unanswered(trace, s) && i < |trace| && trace[i] == Disconnected(s)
    ensures Back(trace, i, |trace|, s)
    decreases |trace|
  {
    var before := trace[..|trace| - 1];
    if trace[|trace| - 1] == Reconnected(s) {
    } else {
      EveryLossAnswered(before, s, i);
      var k :| i < k < |before| && before[k] == Reconnected(s);
      assert trace[k] == Reconnected(s);
    }
  }

  /** A report breaks the rule if and only if it is one of a loss that follows another. */
  lemma ReturnsMore(trace: seq<GameEvent>, event: GameEvent, s: SessionId)
    requires Returns(trace, s)
    ensures Returns(trace + [event], s) <==> !(event == Disconnected(s) && Unanswered(trace, s))
  {
    var more := trace + [event];
    assert forall k :: 0 <= k < |trace| ==> more[k] == trace[k];
    if event == Disconnected(s) && Unanswered(trace, s) {
      var i := LastLoss(trace, s);
      assert more[i] == Disconnected(s) && more[|trace|] == Disconnected(s);
      assert !Back(more, i, |trace|, s);
    } else {
      forall i, j | 0 <= i < j < |more| && more[i] == Disconnected(s) && more[j] == Disconnected(s)
        ensures Back(more, i, j, s)
      {
        if j < |trace| { assert Back(trace, i, j, s); } else { EveryLossAnswered(trace, s, i); }
        var k :| i < k < j && trace[k] == Reconnected(s);
        assert more[k] == Reconnected(s);
      }
    }
  }

  lemma {:induction false} DownSince(trace: seq<GameEvent>, s: SessionId) returns (i: nat)
    requires Down(trace, s)
    ensures i < |trace| && trace[i] == Disconnected(s) && forall k :: i < k < |trace| ==> !Clears(trace[k], s)
  {
    if trace[|trace| - 1] == Disconnected(s) {
      i := |trace| - 1;
    } else {
      i := DownSince(trace[..|trace| - 1], s);
    }
  }

  predicate Clears(event: GameEvent, s: SessionId) {
    event == Reconnected(s) || event == Exited(s) || event == Entered(s)
  }

  lemma {:induction false} DownIsPresent(trace: seq<GameEvent>, s: SessionId)
    requires FromMembers(trace) && Down(trace, s)
    ensures s in Present(trace) && Unanswered(trace, s)
  {
    var before := trace[..|trace| - 1];
    forall i | 0 <= i < |before| && NeedsMember(before[i]) ensures before[i].player in Present(before[..i]) {
      assert before[..i] == trace[..i] && before[i] == trace[i];
    }
    if trace[|trace| - 1] != Disconnected(s) { DownIsPresent(before, s); }
  }

  /** From one report of a loss on, the game believes in it until the player is back or out. */
  lemma {:induction false} StaysDown(trace: seq<GameEvent>, i: nat, j: nat, s: SessionId)
    requires FromMembers(trace) && EntersOnce(trace) && i < j <= |trace| && trace[i] == Disconnected(s)
    requires forall k :: i < k < j ==> trace[k] != Reconnected(s) && trace[k] != Exited(s)
    ensures Down(trace[..j], s) && s in Present(trace[..j])
    decreases j
  {
    assert trace[..j][..j - 1] == trace[..j - 1];
    if i + 1 < j { StaysDown(trace, i, j - 1, s); }
  }

  lemma {:induction false} FirstExit(trace: seq<GameEvent>, i: nat, j: nat, s: SessionId) returns (k: nat)
    requires i < j <= |trace| && exists m :: i < m < j && trace[m] == Exited(s)
    ensures i < k < j && trace[k] == Exited(s) && forall m :: i < m < k ==> trace[m] != Exited(s)
    decreases j
  {
    if m :| i < m < j - 1 && trace[m] == Exited(s) {
      k := FirstExit(trace, i, j - 1, s);
    } else {
      k := j - 1;
    }
  }

  /** Two reports of a loss have one of the return between them unless the player was taken out
      meanwhile, its loss still being believed in. */
  lemma BetweenTwoLosses(trace: seq<GameEvent>, i: nat, j: nat, s: SessionId)
    requires FromMembers(trace) && EntersOnce(trace) && Alternates(trace)
    requires i < j < |trace| && trace[i] == Disconnected(s) && trace[j] == Disconnected(s)
    ensures Back(trace, i, j, s) || exists k :: i < k < j && TakenOut(trace, k, s)
  {
    if !Back(trace, i, j, s) {
      if exists m :: i < m < j && trace[m] == Exited(s) {
        var k := FirstExit(trace, i, j, s);
        StaysDown(trace, i, k, s);
        assert TakenOut(trace, k, s);
      } else {
        StaysDown(trace, i, j, s);
      }
    }
  }

  /** Exactly: whoever is taken out like that is reported back before it is lost again. */
  lemma ReturnsExactly(trace: seq<GameEvent>, s: SessionId)
    requires FromMembers(trace) && EntersOnce(trace) && Alternates(trace)
    ensures Returns(trace, s) <==>
              forall k, j :: 0 <= k < j < |trace| && TakenOut(trace, k, s) && trace[j] == Disconnected(s) ==>
                Back(trace, k, j, s)
  {
    if Returns(trace, s) {
      forall k, j | 0 <= k < j < |trace| && TakenOut(trace, k, s) && trace[j] == Disconnected(s)
        ensures Back(trace, k, j, s)
      {
        var i := DownSince(trace[..k], s);
        forall m | i < m < k ensures trace[m] != Reconnected(s) { assert trace[..k][m] == trace[m]; }
        assert Back(trace, i, j, s);
        var m :| i < m < j && trace[m] == Reconnected(s);
      }
    } else {
      var i, j :| 0 <= i < j < |trace| && trace[i] == Disconnected(s) && trace[j] == Disconnected(s)
          && !Back(trace, i, j, s);
      BetweenTwoLosses(trace, i, j, s);
      var k :| i < k < j && TakenOut(trace, k, s);
      assert !Back(trace, k, j, s);
    }
  }

  // ----- every step ------------------------------------------------------------------

  /** The rule holds of what this game has heard of this player, and will go on holding: a loss
      that has not been answered is still believed in, or the player is out and closed for good. */
  ghost predicate Settled(trace: seq<GameEvent>, members: set<SessionId>, closed: bool, s: SessionId) {
    Returns(trace, s) && (Unanswered(trace, s) ==> Down(trace, s) || (closed && s !in members))
  }

  ghost predicate Faithful(h: Hall, s: SessionId, r: RoomId) {
    r in h.rooms ==>
      && Settled(h.rooms[r].trace, h.rooms[r].members, s in h.clients && h.clients[s].closed, s)
      && (Unanswered(h.rooms[r].trace, s) ==> s in h.clients)
  }

  lemma ClosingEndsAlternation(trace: seq<GameEvent>, s: SessionId)
    requires Returns(trace, s)
    ensures Returns(trace + [GameEvent.Closing], s)
    ensures Unanswered(trace + [GameEvent.Closing], s) == Unanswered(trace, s)
    ensures Down(trace + [GameEvent.Closing], s) == Down(trace, s)
  {
    ReturnsMore(trace, GameEvent.Closing, s);
    UnansweredMore(trace, GameEvent.Closing, s);
    Extend(trace, GameEvent.Closing);
  }

  /** One event more, as a room may hear it. */
  lemma EventSettles(trace: seq<GameEvent>, event: GameEvent, closed: bool, s: SessionId)
    requires FromMembers(trace) && Settled(trace, Present(trace), closed, s)
    requires event == Disconnected(s) ==> s in Present(trace) && !Down(trace, s)
    requires event == Entered(s) ==> s !in Present(trace) && !closed
    requires event == Exited(s) ==> !Down(trace, s) || closed
    ensures Settled(trace + [event], Present(trace + [event]), closed, s)
    ensures Unanswered(trace + [event], s) ==> Unanswered(trace, s) || s in Present(trace)
  {
    ReturnsMore(trace, event, s);
    UnansweredMore(trace, event, s);
    Extend(trace, event);
    if Down(trace, s) { DownIsPresent(trace, s); }
  }

  lemma TurnSettles(a: Actor, turn: Turn, closed: bool, s: SessionId)
    requires TraceOk(a) && !turn.JoinUnheard? && Settled(a.trace, a.members, closed, s)
    requires Alternates(TakeTurn(a, turn).trace)
    requires turn.JoinTurn? && turn.s == s && closed ==> turn.c.IsClosed()
    requires turn.LeaveTurn? && turn.s == s && s in a.members ==> !Down(a.trace, s) || closed
    ensures var b := TakeTurn(a, turn);
            Settled(b.trace, b.members, closed, s)
                && (Unanswered(b.trace, s) ==> Unanswered(a.trace, s) || s in a.members)
  {
    hide TakeTurn, FromMembers, EntersOnce, Settled, Justified, Alternates;
    var first, last := TurnAdds(a, turn);
    TurnKeepsTrace(a, turn);
    var b := TakeTurn(a, turn);
    var one := if first then a.trace + [Subject(turn)] else a.trace;
    if first {
      TurnIsFit(a, turn, closed, s, last);
      EventSettles(a.trace, Subject(turn), closed, s);
      assert one == a.trace + [Subject(turn)];
    }
    assert b.trace == if last then one + [GameEvent.Closing] else one;
    if last { ClosingSettles(one, closed, s); }
  }

  lemma ClosingSettles(trace: seq<GameEvent>, closed: bool, s: SessionId)
    requires Settled(trace, Present(trace), closed, s)
    ensures var more := trace + [GameEvent.Closing];
            Settled(more, Present(more), closed, s) && Unanswered(more, s) == Unanswered(trace, s)
                && Present(more) == Present(trace)
  {
    ClosingEndsAlternation(trace, s);
    Extend(trace, GameEvent.Closing);
  }

  lemma TurnIsFit(a: Actor, turn: Turn, closed: bool, s: SessionId, last: bool)
    requires TraceOk(a) && Alternates(TakeTurn(a, turn).trace) && Justified(a, turn) && !turn.JoinUnheard?
    requires TakeTurn(a, turn).trace == Extended(a.trace, turn, true, last)
    requires turn.JoinTurn? && turn.s == s && closed ==> turn.c.IsClosed()
    requires turn.LeaveTurn? && turn.s == s && s in a.members ==> !Down(a.trace, s) || closed
    ensures var event := Subject(turn);
            && (event == Disconnected(s) ==> s in Present(a.trace) && !Down(a.trace, s))
            && (event == Entered(s) ==> s !in Present(a.trace) && !closed)
            && (event == Exited(s) ==> !Down(a.trace, s) || closed)
  {
    hide TakeTurn, FromMembers, EntersOnce;
    var b := TakeTurn(a, turn);
    assert b.trace[|a.trace|] == Subject(turn) && b.trace[..|a.trace|] == a.trace;
    if Subject(turn) == Entered(s) && closed {
      TurnKeepsTrace(a, turn);
      ClosedDoNotEnter(a, turn);
      Extend(a.trace, Entered(s));
      Extend(a.trace + [Entered(s)], GameEvent.Closing);
    }
  }

  /** The room takes out a player whose loss it believes in, and who is not closed. */
  predicate Orphans(h: Hall, step: Step, s: SessionId, r: RoomId) {
    && step.Answers? && h.job.Waiting? && h.job.errand.Depart? && h.job.s == s && h.job.room == r
    && h.Runs(r) && h.Member(s, r) && Down(h.rooms[r].trace, s) && !h.Of(s).closed
  }

  lemma RoomTurnFaithful(h: Hall, k: Hall, q: RoomId, turn: Turn, s: SessionId, r: RoomId)
    requires Cast(h) && Known(h) && Alternating(k) && Faithful(h, s, r) && q in h.rooms && !turn.JoinUnheard?
    requires k.rooms == h.rooms[q := TakeTurn(h.rooms[q], turn)] && ClosedStay(h, k)
    requires q == r && turn.JoinTurn? && turn.s == s ==> turn.c == h.Of(s)
    requires q == r && turn.LeaveTurn? && turn.s == s && h.Member(s, r) ==> !Down(h.rooms[r].trace, s) || h.Of(s).closed
    ensures Faithful(k, s, r)
  {
    hide TakeTurn, TraceOk, Alternates, Returns, Unanswered, Down;
    if q == r {
      MembersArrived(h, r);
      TurnSettles(h.rooms[q], turn, s in h.clients && h.clients[s].closed, s);
      SettledLater(k.rooms[r], s in h.clients && h.clients[s].closed, s in k.clients && k.clients[s].closed, s);
    } else {
      UntouchedFaithful(h, k, s, r);
    }
  }

  lemma SettledLater(a: Actor, before: bool, after: bool, s: SessionId)
    requires Settled(a.trace, a.members, before, s) && (before ==> after)
    ensures Settled(a.trace, a.members, after, s)
  {
  }

  /** Whoever is closed stays closed, and nobody is forgotten. */
  predicate ClosedStay(h: Hall, k: Hall) {
    forall s :: s in h.clients ==> s in k.clients && (h.clients[s].closed ==> k.clients[s].closed)
  }

  /** Nothing was heard in the room, and nobody came or went. */
  lemma UntouchedFaithful(h: Hall, k: Hall, s: SessionId, r: RoomId)
    requires Faithful(h, s, r) && ClosedStay(h, k)
    requires r in k.rooms ==>
               if r in h.rooms then k.rooms[r].trace == h.rooms[r].trace && k.rooms[r].members == h.rooms[r].members
               else k.rooms[r].trace == []
    ensures Faithful(k, s, r)
  {
  }

  lemma StepKeepsClosed(h: Hall, step: Step)
    requires Enabled(h, step)
    ensures ClosedStay(h, Next(h, step))
  {
    hide SameConnections;
    match step
    case Changes(s, change) => assert h.Of(s).closed ==> change.Apply(h.config.outboundCapacity, h.Of(s)).closed;
    case Arrives(s, client) =>
    case _ => StepConnects(h, step); ConnectionsStayClosed(h, Next(h, step));
  }

  lemma ConnectionsStayClosed(h: Hall, k: Hall)
    requires SameConnections(h, k)
    ensures ClosedStay(h, k)
  {
  }

  lemma AnswerFaithful(h: Hall, admit: bool, callback: Callback, s: SessionId, r: RoomId)
    requires Cast(h) && Known(h) && Faithful(h, s, r) && h.job.Waiting? && h.job.room in h.rooms
    requires h.job.room in h.ledger.open
    requires !Orphans(h, Answers(admit, callback), s, r) && Alternating(h.Answers(admit, callback))
    requires ClosedStay(h, h.Answers(admit, callback))
    ensures Faithful(h.Answers(admit, callback), s, r)
  {
    hide TakeTurn, TraceOk, Known, Alternating, Faithful, ClosedStay, Hall.Answers, Down;
    var k := h.Answers(admit, callback);
    AnswerIsTurn(h, admit, callback);
    if h.rooms[h.job.room].alive {
      RoomTurnFaithful(h, k, h.job.room, TurnFor(h, admit, callback), s, r);
    } else {
      UntouchedFaithful(h, k, s, r);
    }
  }

  lemma HushedFaithful(h: Hall, k: Hall, s: SessionId, r: RoomId)
    requires Faithful(h, s, r) && Hushed(h, k) && ClosedStay(h, k)
    ensures Faithful(k, s, r)
  {
    hide Faithful, ClosedStay;
    UntouchedFaithful(h, k, s, r);
  }

  lemma CreateFaithful(h: Hall, group: seq<SessionId>, capacity: nat, task: TaskId, works: bool, s: SessionId,
                       r: RoomId)
    requires Faithful(h, s, r) && Cast(h)
    ensures Faithful(h.TakeCreate(group, capacity, task, works), s, r)
  {
    hide Faithful, TraceOk;
    UntouchedFaithful(h, h.TakeCreate(group, capacity, task, works), s, r);
  }

  /** The rule goes on holding at every step but one that takes a player out of a room that
      believes its connection lost. */
  lemma StepKeepsFaithful(h: Hall, step: Step, s: SessionId, r: RoomId)
    requires Inv(h) && Orderly(h, step) && Faithful(h, s, r) && !Orphans(h, step, s, r)
    ensures Faithful(Next(h, step), s, r)
  {
    hide Sound, Cast, Known, Alternating, Paced, Calm, Faithful, ClosedStay, Orphans, TakeTurn, Hall.Answers;
    hide Hall.TakeCreate;
    var k := Next(h, step);
    SoundParts(h);
    StepKeepsInv(h, step);
    StepKeepsClosed(h, step);
    match step
    case Answers(admit, callback) => WaitedForIsOpen(h); AnswerFaithful(h, admit, callback, s, r);
    case Turns(q, turn) => RoomTurnFaithful(h, k, q, turn, s, r);
    case TakeCreate(group, capacity, task, works) => CreateFaithful(h, group, capacity, task, works, s, r);
    case _ => OtherFaithful(h, step, s, r);
  }

  lemma WaitedForIsOpen(h: Hall)
    requires JobOk(h) && h.job.Waiting?
    ensures h.job.room in h.ledger.open
  {
  }

  lemma OtherFaithful(h: Hall, step: Step, s: SessionId, r: RoomId)
    requires Enabled(h, step) && Faithful(h, s, r) && ClosedStay(h, Next(h, step))
    ensures !step.Answers? && !step.Turns? && !step.TakeCreate? ==> Faithful(Next(h, step), s, r)
  {
    hide Next, Enabled, Faithful, ClosedStay, Hushed;
    if !step.Answers? && !step.Turns? && !step.TakeCreate? {
      StepHushed(h, step);
      HushedFaithful(h, Next(h, step), s, r);
    }
  }

  // ----- leaving ---------------------------------------------------------------------

  /** The manager is taking `s` out of `r` at somebody's request, or will do so if nobody hears
      that the session has just joined. */
  predicate Leaving(job: Job, s: SessionId, r: RoomId) {
    match job
    case Visiting(x, todo, errand, all) => errand.Depart? && !all && x == s && r in todo
    case Waiting(x, q, errand, next) =>
      errand.Depart? && x == s && next.Visiting? && !next.all && (q == r || r in next.todo)
    case Heard(x, q, errand, ok, next) =>
      if errand.Depart? then x == s && next.Visiting? && !next.all && r in next.todo
      else errand.Enter? && ok && x == s && q == r && next.Filling? && !next.creating
    case Filling(q, _, creating, first) => !creating && first == s && q == r
    case _ => false
  }

  predicate AsksForFirst(job: Job) {
    (job.Waiting? || job.Heard?) && job.errand.Enter? && job.next.Filling? && !job.next.creating ==>
        job.next.first == job.s
  }

  /** Whoever is being taken out like that is not believed lost. */
  ghost predicate Gentle(h: Hall, s: SessionId, r: RoomId) {
    AsksForFirst(h.job) && (Leaving(h.job, s, r) ==> CalmIn(h, s, r))
  }

  /** `State::leave` asks neither whether the session is connected nor whether its rooms have
      heard that it is back. Here, it happens to be so. */
  ghost predicate LeavesInTime(h: Hall, step: Step, s: SessionId, r: RoomId) {
    step == TakeLeave(s, r) ==> CalmIn(h, s, r)
  }

  lemma JoinedIsCalm(h: Hall, admit: bool, callback: Callback)
    requires Cast(h) && Copies(h) && JobOk(h) && h.job.Waiting? && h.job.errand.Enter?
    ensures h.job.room in h.rooms && CalmIn(h.Answers(admit, callback), h.job.s, h.job.room)
  {
    hide TraceOk, TakeTurn, Hall.Answers, Down;
    var (s, r) := (h.job.s, h.job.room);
    assert CopiesAt(h, r);
    assert s !in h.ledger.MembersOf(r);
    AnswerIsTurn(h, admit, callback);
    if h.rooms[r].alive { TurnDown(h.rooms[r], TurnFor(h, admit, callback), s); }
  }

  lemma AnswerKeepsGentle(h: Hall, admit: bool, callback: Callback, s: SessionId, r: RoomId)
    requires Cast(h) && Copies(h) && JobOk(h) && Gentle(h, s, r) && h.job.Waiting? && h.job.room in h.rooms
    ensures Gentle(h.Answers(admit, callback), s, r)
  {
    hide Cast, Copies, CalmIn, Hall.Answers, TakeTurn;
    var k := h.Answers(admit, callback);
    AnswerIsTurn(h, admit, callback);
    if Leaving(k.job, s, r) {
      if h.job.errand.Enter? { JoinedIsCalm(h, admit, callback); } else { AnswerKeepsCalmIn(h, admit, callback, s, r); }
    }
  }

  lemma LeavingGoesOn(h: Hall, step: Step, s: SessionId, r: RoomId)
    requires JobOk(h) && AsksForFirst(h.job) && Enabled(h, step) && !step.Answers?
    ensures AsksForFirst(Next(h, step).job)
    ensures Leaving(Next(h, step).job, s, r) ==> Leaving(h.job, s, r) || step == TakeLeave(s, r)
  {
    hide Client.Deliver, Change.Apply, TakeTurn, Hall.Removed, Hall.Withdrawn, Ledger.Allows, Ledger.Entry, Underway;
    match step
    case TakeReap(task) =>
      RemovedIsNoLeave(h.(ledger := h.ledger.(tasks := h.ledger.tasks - {task})), h.ledger.tasks[task], s, r);
    case NextJoin => RemovedIsNoLeave(h, h.job.room, s, r);
    case NextVisit(q) => WithdrawnGoesOn(h, h.job.s, q, h.job.(todo := h.job.todo - {q}));
    case Hear =>
      HeardNext(h);
      RemovedIsNoLeave(h.Delivered(h.job.s, Left(h.job.room)), h.job.room, s, r);
      WithdrawnGoesOn(h, h.job.s, h.job.room, h.job.next);
    case Reply(_) => RemovedIsNoLeave(h, h.job.room, s, r);
    case _ =>
  }

  lemma HeardNext(h: Hall)
    requires JobOk(h) && h.job.Heard?
    ensures !h.job.errand.Enter? ==>
              h.job.next.Visiting? && h.job.next.s == h.job.s && h.job.next.errand == h.job.errand
    ensures h.job.errand.Enter? ==> h.job.next.Filling? && h.job.next.room == h.job.room
  {
  }

  lemma RemovedIsNoLeave(h: Hall, q: RoomId, s: SessionId, r: RoomId)
    ensures !Leaving(h.Removed(q).job, s, r) && AsksForFirst(h.Removed(q).job)
  {
  }

  /** As long as every request to leave the room comes in time, everybody who is being taken out
      is believed to be there. */
  lemma StepKeepsGentle(h: Hall, step: Step, s: SessionId, r: RoomId)
    requires Sound(h) && Enabled(h, step) && Gentle(h, s, r) && LeavesInTime(h, step, s, r)
    ensures Gentle(Next(h, step), s, r)
  {
    hide Sound, Cast, Copies, JobOk, CalmIn, Enabled, Next, Leaving, AsksForFirst;
    SoundParts(h);
    if step.Answers? {
      AnswersGently(h, step, s, r);
    } else {
      LeavingGoesOn(h, step, s, r);
      if CalmIn(h, s, r) { StepKeepsCalmIn(h, step, s, r); }
    }
  }

  lemma AnswersGently(h: Hall, step: Step, s: SessionId, r: RoomId)
    requires Cast(h) && Copies(h) && JobOk(h) && Enabled(h, step) && Gentle(h, s, r) && step.Answers?
    ensures Gentle(Next(h, step), s, r)
  {
    hide Cast, Copies, JobOk, Gentle, Hall.Answers;
    AnswerKeepsGentle(h, step.admit, step.callback, s, r);
  }

  /** So only an eviction takes out anybody believed lost. */
  lemma OnlyEvictionsOrphan(h: Hall, step: Step, s: SessionId, r: RoomId)
    requires JobOk(h) && Gentle(h, s, r) && Orphans(h, step, s, r)
    ensures h.job.next.Visiting? && h.job.next.all
  {
    hide Down;
  }

  // ----- a room that is left by its last member --------------------------------------

  /** The room has ended, or is about to: its only member is on the way out. */
  ghost predicate Doomed(h: Hall, s: SessionId, r: RoomId) {
    && r in h.rooms && Returns(h.rooms[r].trace, s)
    && (h.rooms[r].alive ==> h.rooms[r].members <= {s} && r != GLOBAL_ROOM && LastOneLeaves(h, s, r))
  }

  predicate LastOneLeaves(h: Hall, s: SessionId, r: RoomId) {
    || (h.job == Visiting(s, {r}, Depart, false) && r in h.ledger.open && (s, r) in h.ledger.links)
    || h.job == Waiting(s, r, Depart, Visiting(s, {}, Depart, false))
  }

  lemma NoLossHeard(a: Actor, turn: Turn, s: SessionId)
    requires Returns(a.trace, s) && !turn.ConnectionTurn? && !turn.JoinUnheard?
    ensures Returns(TakeTurn(a, turn).trace, s)
  {
    hide TakeTurn, Returns, Justified;
    var first, last := TurnAdds(a, turn);
    var one := if first then a.trace + [Subject(turn)] else a.trace;
    if first { ReturnsMore(a.trace, Subject(turn), s); }
    ReturnsMore(one, GameEvent.Closing, s);
    assert Extended(a.trace, turn, first, last) == if last then one + [GameEvent.Closing] else one;
  }

  lemma LastLeaveShuts(a: Actor, s: SessionId, c: Client, outbound: nat, callback: Callback)
    requires a.members <= {s} && a.id != GLOBAL_ROOM
    ensures !TakeTurn(a, LeaveTurn(s, c, outbound, callback)).alive
  {
    hide Client.Deliver;
    assert a.members == {} || a.members - {s} == {};
  }

  lemma AnswerDooms(h: Hall, admit: bool, callback: Callback, s: SessionId, r: RoomId)
    requires Cast(h) && Doomed(h, s, r) && h.job.Waiting? && h.job.room in h.rooms
    ensures Doomed(h.Answers(admit, callback), s, r)
  {
    hide TakeTurn, TraceOk, Hall.Answers, Returns;
    AnswerIsTurn(h, admit, callback);
    if h.job.room == r && h.rooms[r].alive {
      NoLossHeard(h.rooms[r], TurnFor(h, admit, callback), s);
      LastLeaveShuts(h.rooms[r], s, h.Of(s), h.config.outboundCapacity, callback);
    }
  }

  lemma TurnDooms(h: Hall, q: RoomId, turn: Turn, s: SessionId, r: RoomId)
    requires Doomed(h, s, r) && q in h.rooms && h.rooms[q].alive && Own(h, q, turn)
    ensures Doomed(h.(rooms := h.rooms[q := TakeTurn(h.rooms[q], turn)]), s, r)
  {
    hide TakeTurn, Returns;
    if q == r {
      OwnTurnMembers(h.rooms[r], turn);
      NoLossHeard(h.rooms[r], turn, s);
    }
  }

  lemma NextVisitDooms(h: Hall, q: RoomId, s: SessionId, r: RoomId)
    requires Doomed(h, s, r) && Enabled(h, NextVisit(q))
    ensures Doomed(h.NextVisit(q), s, r)
  {
    hide Returns;
    assert {r} - {r} == {};
  }

  predicate HearsNothing(h: Hall, k: Hall, r: RoomId) {
    r in h.rooms && r in k.rooms && k.rooms[r].trace == h.rooms[r].trace && k.rooms[r].alive == h.rooms[r].alive
  }

  /** A dead room hears nothing. */
  lemma DeadStays(h: Hall, step: Step, r: RoomId)
    requires Cast(h) && Enabled(h, step) && r in h.rooms && !h.rooms[r].alive
    ensures HearsNothing(h, Next(h, step), r)
  {
    hide TakeTurn, TraceOk, Change.Apply, Hall.Answers, Hall.Hear, Hall.TakeCreate, Hall.Notify;
    hide Hall.TakeReap, Hall.NextJoin, Hall.NextVisit, Hall.Reply, Hall.TakeJoin;
    match step
    case Answers(admit, callback) => AnswerIsTurn(h, admit, callback);
    case TakeCreate(group, capacity, task, works) => DeadInCreation(h, group, capacity, task, works, r);
    case TakeJoin(s, q) => AskedRooms(h, s, q);
    case Notify(s, frame) => NotifiedRooms(h, s, frame);
    case Hear => DeadHears(h, r);
    case NextVisit(q) => DeadIsVisited(h, q, r);
    case TakeReap(_) => DeadWaits(h, step, r);
    case NextJoin => DeadWaits(h, step, r);
    case Reply(_) => DeadWaits(h, step, r);
    case _ =>
  }

  lemma DeadWaits(h: Hall, step: Step, r: RoomId)
    requires Enabled(h, step) && r in h.rooms && (step.TakeReap? || step.NextJoin? || step.Reply?)
    ensures HearsNothing(h, Next(h, step), r)
  {
    hide Hall.Removed;
    match step
    case TakeReap(task) =>
      DeadInRemoved(h.(ledger := h.ledger.(tasks := h.ledger.tasks - {task})), h.ledger.tasks[task], r);
    case NextJoin => DeadInRemoved(h, h.job.room, r);
    case Reply(_) => DeadInRemoved(h, h.job.room, r);
    case _ =>
  }

  lemma DeadIsVisited(h: Hall, q: RoomId, r: RoomId)
    requires r in h.rooms && h.job.Visiting?
    ensures HearsNothing(h, h.NextVisit(q), r)
  {
    hide Hall.Withdrawn;
    DeadInWithdrawn(h, h.job.s, q, h.job.(todo := h.job.todo - {q}), r);
  }

  lemma AskedRooms(h: Hall, s: SessionId, q: RoomId)
    ensures h.TakeJoin(s, q).rooms == h.rooms
  {
  }

  lemma DeadHears(h: Hall, r: RoomId)
    requires r in h.rooms && h.job.Heard?
    ensures HearsNothing(h, h.Hear(), r)
  {
    hide Client.Deliver, Hall.Removed, Hall.Withdrawn;
    DeadInRemoved(h.Delivered(h.job.s, Left(h.job.room)), h.job.room, r);
    DeadInWithdrawn(h, h.job.s, h.job.room, h.job.next, r);
  }

  lemma DeadInCreation(h: Hall, group: seq<SessionId>, capacity: nat, task: TaskId, works: bool, r: RoomId)
    requires Cast(h) && r in h.rooms
    ensures HearsNothing(h, h.TakeCreate(group, capacity, task, works), r)
  {
    hide TraceOk;
  }

  lemma NotifiedRooms(h: Hall, s: SessionId, frame: Payload)
    ensures h.Notify(s, frame).rooms == h.rooms
  {
  }

  lemma DeadInRemoved(h: Hall, q: RoomId, r: RoomId)
    requires r in h.rooms
    ensures HearsNothing(h, h.Removed(q), r)
  {
  }

  lemma DeadInWithdrawn(h: Hall, s: SessionId, q: RoomId, next: Job, r: RoomId)
    requires r in h.rooms
    ensures HearsNothing(h, h.Withdrawn(s, q, next), r)
  {
  }

  /** Whoever leaves a room last is never reported lost in it again. */
  lemma StepDooms(h: Hall, step: Step, s: SessionId, r: RoomId)
    requires Sound(h) && Enabled(h, step) && Doomed(h, s, r)
    ensures Doomed(Next(h, step), s, r)
  {
    hide Sound, Cast, JobOk, Returns, TakeTurn, Hall.Answers, Hall.NextVisit, Client.Deliver, Change.Apply;
    SoundParts(h);
    if !h.rooms[r].alive {
      DeadStays(h, step, r);
    } else {
      match step
      case NextVisit(q) => NextVisitDooms(h, q, s, r);
      case Answers(admit, callback) => AnswerDooms(h, admit, callback, s, r);
      case Turns(q, turn) => TurnDooms(h, q, turn, s, r);
      case _ =>
    }
  }
}
