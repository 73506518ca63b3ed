/** The matchmaker and the room manager together: the matching loop, with the manager's own
    answers and whatever else the manager does meanwhile. */
module Matching {
  import opened Types
  import opened RoomManagers
  import opened Matchmakers

  datatype Pair = Pair(config: Config, q: Queue, m: Ledger)

  /** A statement of the loop, the manager's answer to a submitted group, or anything the manager
      does for somebody else. */
  datatype Move =
    | Loops(step: Step)
    | Settles(reply: MatchReply, closed: seq<bool>, gone: set<SessionId>, after: Ledger)
    | Others(after: Ledger)

  predicate Running(q: Queue) { !q.phase.Resting? && !q.phase.Asking? }

  ghost predicate Can(p: Pair, move: Move) {
    match move
    case Loops(step) => Running(p.q) && !step.GroupSettled? && Enabled(p.q, step)
    case Settles(reply, closed, _, after) =>
      && p.q.phase.Submitted? && after.Inv(p.config) && |closed| == |Players(p.q.phase.players)|
      && MatchOutcome(p.m, after, Players(p.q.phase.players), closed, reply)
    case Others(after) => after.Inv(p.config)
  }

  ghost function Then(p: Pair, move: Move): Pair {
    if !Can(p, move) then p else
    match move
    case Loops(step) => p.(q := Next(p.q, step))
    case Settles(reply, _, gone, after) => p.(q := p.q.Settle(reply, gone), m := after)
    case Others(after) => p.(m := after)
  }

  ghost predicate Inv(p: Pair) { p.q.Inv() && p.m.Inv(p.config) && p.q.size == p.config.matchSize }

  ghost predicate CanAll(p: Pair, moves: seq<Move>)
    decreases |moves|
  {
    moves == [] || (Can(p, moves[0]) && CanAll(Then(p, moves[0]), moves[1..]))
  }

  ghost function ThenAll(p: Pair, moves: seq<Move>): Pair
    decreases |moves|
  {
    if moves == [] then p else ThenAll(Then(p, moves[0]), moves[1..])
  }

  /** How many of the moves are the matchmaker's. */
  function Statements(moves: seq<Move>): nat {
    if moves == [] then 0 else (if moves[0].Others? then 0 else 1) + Statements(moves[1..])
  }

  /** An upper bound on the statements still to come: a pass over `n` entries takes at most
      2n + 4 of them and ends with fewer entries in play. */
  function Fuel(q: Queue): nat { Passes(Count(q)) + Rank(q) }

  function Passes(n: nat): nat { if n == 0 then 0 else Passes(n - 1) + 2 * n + 3 }

  lemma {:induction false} PassesGrow(m: nat, n: nat)
    requires m < n
    ensures Passes(m) + 2 * m + 5 <= Passes(n)
    decreases n
  {
    if m < n - 1 { PassesGrow(m, n - 1); }
  }

  lemma RankIsSmall(q: Queue)
    ensures Rank(q) <= 2 * Count(q) + 4
  {
  }

  lemma FuelBurns(q: Queue, step: Step)
    requires q.Inv() && Enabled(q, step) && Running(q)
    requires step.GroupSettled? ==> Fair(q.phase.players, step.reply)
    ensures Fuel(Next(q, step)) < Fuel(q)
  {
    hide Queue.Inv, Enabled, Next, Passes;
    LoopDescends(q, step);
    RankIsSmall(Next(q, step));
    if Count(Next(q, step)) < Count(q) { PassesGrow(Count(Next(q, step)), Count(q)); }
  }

  /** The manager's answers are fair, because it only disqualifies members of the group. */
  lemma OutcomeIsFair(p: Pair, reply: MatchReply, closed: seq<bool>, after: Ledger)
    requires p.q.phase.Submitted? && |closed| == |Players(p.q.phase.players)|
    requires MatchOutcome(p.m, after, Players(p.q.phase.players), closed, reply)
    ensures Fair(p.q.phase.players, reply)
  {
    if Requeues(reply) {
      UnfitAreOfIt(p.m, Players(p.q.phase.players), closed, reply.disqualified);
      forall s | s in reply.disqualified ensures s in SessionsOf(p.q.phase.players) {
        PlayersAre(p.q.phase.players, s);
      }
    }
  }

  lemma MoveKeeps(p: Pair, move: Move)
    requires Inv(p) && Can(p, move)
    ensures Inv(Then(p, move)) && Then(p, move).config == p.config
    ensures Fuel(Then(p, move).q) + (if move.Others? then 0 else 1) <= Fuel(p.q)
  {
    hide Queue.Inv, Ledger.Inv, Fuel, MatchOutcome, Next, Fair;
    match move {
      case Loops(step) => StepKeeps(p.q, step); SizesStay(p.q, step); FuelBurns(p.q, step);
      case Settles(reply, closed, gone, after) =>
        var step := GroupSettled(reply, gone);
        assert Next(p.q, step) == p.q.Settle(reply, gone) by { SettlingIsAStep(p.q, reply, gone); }
        OutcomeIsFair(p, reply, closed, after);
        StepKeeps(p.q, step);
        SizesStay(p.q, step);
        FuelBurns(p.q, step);
      case Others(after) =>
    }
  }

  lemma SettlingIsAStep(q: Queue, reply: MatchReply, gone: set<SessionId>)
    requires q.phase.Submitted?
    ensures Next(q, GroupSettled(reply, gone)) == q.Settle(reply, gone)
  {
  }

  lemma SizesStay(q: Queue, step: Step)
    requires q.Inv() && Enabled(q, step)
    ensures Next(q, step).size == q.size
  {
    hide Loose, Spared, First;
    match step {
      case Drawn => FlyingIsLoose(q, q.phase.players); PutBack(q, q.phase.players);
      case GroupSettled(reply, gone) =>
        if Requeues(reply) {
          SparedAre(q, q.phase.players, reply.disqualified, gone);
          PutBack(q, Spared(q.phase.players, reply.disqualified, gone));
        }
      case _ =>
    }
  }

  /** The matching loop ends: whatever the manager does in between and whatever it answers, the
      matchmaker makes no more statements than it has fuel for. */
  lemma {:induction false} LoopEnds(p: Pair, moves: seq<Move>)
    requires Inv(p) && CanAll(p, moves)
    ensures Inv(ThenAll(p, moves)) && Statements(moves) + Fuel(ThenAll(p, moves).q) <= Fuel(p.q)
    decreases |moves|
  {
    hide Inv, Can, Then, Fuel;
    if moves != [] {
      MoveKeeps(p, moves[0]);
      LoopEnds(Then(p, moves[0]), moves[1..]);
    }
  }

  /** It never stops short: a statement is possible until the matchmaker rests, and then fewer
      entries than a group takes are left. */
  lemma LoopGoesOn(p: Pair) returns (move: Move)
    requires Inv(p)
    ensures Running(p.q) ==> !move.Others? && Can(p, move)
    ensures p.q.phase.Resting? && p.q.size > 0 ==> |p.q.queue| < p.q.size
  {
    hide Ledger.Inv, Queue.InFlight;
    match p.q.phase {
      case Looping => move := Loops(LoopTested);
      case Scanning(_) => move := Loops(Drawn);
      case Judging(_, _) => move := Loops(Judged(true));
      case Submitting(_) => move := Loops(GroupSent);
      case Submitted(_) =>
        var group := Players(p.q.phase.players);
        var closed := seq(|group|, i => false);
        var unfit := UnfitOf(p.m, group, closed);
        move := Settles(Failed(Denied, unfit), closed, {}, p.m);
      case _ => move := Others(p.m);
    }
  }

  /** What an answer does to everybody. A match takes `size` different sessions, the oldest of
      all, from the global room alone to the global and one fresh room, and out of the queue;
      nobody else moves in either. A failure moves nobody, and either ends the group's wait or takes
      at least one of it out of the queue, and exactly those who were not eligible for the manager or
      are closed by now: whoever is in the global room alone and open keeps its place. */
  ghost predicate SettledExactly(p: Pair, reply: MatchReply, closed: seq<bool>, gone: set<SessionId>, k: Pair)
    requires p.q.phase.Submitted? && |closed| == |p.q.phase.players|
  {
    var group, players := Players(p.q.phase.players), SetOf(p.q.phase.players);
    && Entries(p.q) - players <= Entries(k.q) < Entries(p.q)
    && (!Requeues(reply) ==>
          && Entries(k.q) == Entries(p.q) - players
          && forall e, x :: e in players && x in Entries(k.q) ==> e.key < x.key)
    && (Requeues(reply) ==>
          forall i :: 0 <= i < |closed| ==>
            (p.q.phase.players[i] in Entries(k.q) <==> Stays(p, closed, gone, i)))
    && (if reply.Matched?
        then MatchCommitted(p.m, k.m, group, reply.room) && |k.m.MembersOf(reply.room)| == |group| == p.q.size
        else k.m.links == p.m.links && k.m.open == p.m.open)
  }

  /** The player was eligible, and is open. */
  predicate Stays(p: Pair, closed: seq<bool>, gone: set<SessionId>, i: nat)
    requires p.q.phase.Submitted? && |closed| == |p.q.phase.players| && i < |closed|
  {
    var s := p.q.phase.players[i].s;
    !closed[i] && p.m.RoomsOf(s) == {GLOBAL_ROOM} && s !in gone
  }

  lemma MatchesAreExact(p: Pair, reply: MatchReply, closed: seq<bool>, gone: set<SessionId>, after: Ledger)
    requires Inv(p) && Can(p, Settles(reply, closed, gone, after))
    ensures p.q.phase.Submitted? && |closed| == |p.q.phase.players|
    ensures SettledExactly(p, reply, closed, gone, Then(p, Settles(reply, closed, gone, after)))
  {
    hide Ledger.Inv, Queue.Inverse, Queue.InFlight;
    var players := p.q.phase.players;
    assert p.q.Flying() == players;
    SettledEntries(p, reply, closed, gone, after);
    PlayersInOrder(players);
    if Requeues(reply) {
      forall i | 0 <= i < |closed|
        ensures players[i] in Entries(p.q.Settle(reply, gone)) <==> Stays(p, closed, gone, i)
      {
        PlayerStays(p, reply, closed, gone, after, i);
      }
    }
    GroupIsWhole(p.q);
    if !Requeues(reply) { SettledAreOldest(p.q, reply, gone); }
  }

  lemma GroupIsWhole(q: Queue)
    requires q.Inv() && q.phase.Submitted?
    ensures |Everyone(Players(q.phase.players))| == |Players(q.phase.players)| == q.size > 0
  {
    assert q.Flying() == q.phase.players;
    EverybodyCounts(q.phase.players);
  }

  lemma {:induction false} PlayersInOrder(players: seq<Entry>)
    ensures |Players(players)| == |players| && forall i :: 0 <= i < |players| ==> Players(players)[i] == players[i].s
  {
    if players != [] { PlayersInOrder(players[1..]); }
  }

  /** The players of a group are different, so the manager's verdict on each is its own. */
  lemma PlayerStays(p: Pair, reply: MatchReply, closed: seq<bool>, gone: set<SessionId>, after: Ledger, i: nat)
    requires p.q.Inv() && Can(p, Settles(reply, closed, gone, after)) && Requeues(reply)
    requires |closed| == |p.q.phase.players| && i < |closed|
    ensures p.q.phase.players[i] in Entries(p.q.Settle(reply, gone)) <==> Stays(p, closed, gone, i)
  {
    hide Ledger.Inv, Queue.Inverse;
    var players := p.q.phase.players;
    assert p.q.Flying() == players;
    PlayersInOrder(players);
    SettleMoves(p.q, reply, gone);
    SparedAre(p.q, players, reply.disqualified, gone);
    ApartFromFlying(p.q);
    assert players[i] in players && players[i].s == Players(players)[i];
    if players[i].s in reply.disqualified {
      var j :| 0 <= j < |closed| && Players(players)[j] == players[i].s
               && (closed[j] || p.m.RoomsOf(players[i].s) != {GLOBAL_ROOM});
      assert i == j;
    }
  }

  /** Those of the group that are not eligible. */
  lemma {:induction false} UnfitOf(m: Ledger, group: seq<SessionId>, closed: seq<bool>) returns (found: seq<SessionId>)
    requires |closed| == |group|
    ensures Unfit(m, group, closed, found)
    decreases |group|
  {
    if group == [] {
      found := [];
    } else {
      var n := |group| - 1;
      found := UnfitOf(m, group[..n], closed[..n]);
      if closed[n] || m.RoomsOf(group[n]) != {GLOBAL_ROOM} { found := found + [group[n]]; }
    }
  }

  lemma SettledEntries(p: Pair, reply: MatchReply, closed: seq<bool>, gone: set<SessionId>, after: Ledger)
    requires p.q.Inv() && Can(p, Settles(reply, closed, gone, after))
    ensures var k := p.q.Settle(reply, gone);
            && Entries(p.q) - SetOf(p.q.phase.players) <= Entries(k) < Entries(p.q)
            && (!Requeues(reply) ==> Entries(k) == Entries(p.q) - SetOf(p.q.phase.players))
  {
    var q, players := p.q, p.q.phase.players;
    SettleMoves(q, reply, gone);
    OutcomeIsFair(p, reply, closed, after);
    ApartFromFlying(q);
    if Requeues(reply) {
      SparedAre(q, players, reply.disqualified, gone);
      UnfitAreOfIt(p.m, Players(players), closed, reply.disqualified);
      PlayersAre(players, reply.disqualified[0]);
      var e :| e in players && e.s == reply.disqualified[0];
      assert e in Entries(q) && e !in SetOf(Spared(players, reply.disqualified, gone));
    } else {
      NothingFlying(q, Looping);
      assert players[0] in Entries(q) && players[0] !in Items(q.queue);
    }
  }

  lemma ApartFromFlying(q: Queue)
    requires q.Inv() && q.phase.Submitted?
    ensures Items(q.queue) !! SetOf(q.phase.players) && Entries(q) == Items(q.queue) + SetOf(q.phase.players)
    ensures q.phase.players != []
  {
    assert q.Flying() == q.phase.players;
    FlyingFirst(q, q.phase.players);
  }

  lemma SettledAreOldest(q: Queue, reply: MatchReply, gone: set<SessionId>)
    requires q.Inv() && q.phase.Submitted? && !Requeues(reply)
    ensures forall e, x :: e in SetOf(q.phase.players) && x in Entries(q.Settle(reply, gone)) ==> e.key < x.key
  {
    NothingFlying(q, Looping);
    assert q.Flying() == q.phase.players;
    FlyingFirst(q, q.phase.players);
  }
}
