/** The matchmaker (src/actors/matchmaker.rs): a first-come first-served queue with an inverse
    index, and the loop that turns its oldest eligible entries into rooms. */
module Matchmakers {
  import opened Types
  import opened RoomManagers

  datatype Entry = Entry(key: nat, s: SessionId)

  /** What the actor is doing: `Resting` between commands, otherwise at one of its awaits or
      between two of its own statements. */
  datatype Phase =
    | Resting
    | Asking(s: SessionId)                        // a Join waits for the manager's opinion
    | Looping                                     // about to test the outer loop's condition
    | Scanning(players: seq<Entry>)               // about to test the inner loop's condition
    | Judging(players: seq<Entry>, head: Entry)   // the popped head waits for an opinion
    | Submitting(players: seq<Entry>)             // a full group, not yet sent
    | Submitted(players: seq<Entry>)              // the manager is creating the room

  datatype Queue = Queue(
    size: nat, capacity: nat,
    queue: map<nat, SessionId>, index: map<SessionId, nat>, sequence: nat, phase: Phase)
  {
    /** Popped entries that are neither in the queue nor gone for good. */
    function Flying(): seq<Entry> {
      match phase
      case Scanning(players) => players
      case Judging(players, head) => players + [head]
      case Submitting(players) => players
      case Submitted(players) => players
      case _ => []
    }

    function Keys(): set<nat> { queue.Keys + KeysOf(Flying()) }

    /** Every session the matchmaker could still put, or keep, in the queue. */
    function Footprint(): set<SessionId> {
      index.Keys + SessionsOf(Flying()) + (if phase.Asking? then {phase.s} else {})
    }

    function Put(e: Entry): Queue {
      this.(queue := queue[e.key := e.s], index := index[e.s := e.key])
    }

    function PutAll(entries: seq<Entry>): Queue
      decreases |entries|
    {
      if entries == [] then this else Put(entries[0]).PutAll(entries[1..])
    }

    function TakeJoin(s: SessionId, closed: bool): Queue {
      if !phase.Resting? then this else
      this.(phase := if size == 0 || closed then Looping else Asking(s))
    }

    function AnswerJoin(eligible: bool): Queue {
      if !phase.Asking? then this else
      if !eligible || phase.s in index || |queue| >= capacity then this.(phase := Looping)
      else this.(sequence := sequence + 1, phase := Looping).Put(Entry(sequence + 1, phase.s))
    }

    function TakeLeave(s: SessionId): Queue {
      if !phase.Resting? then this else
      var q := this.(phase := Looping);
      if s in index then q.(queue := queue - {index[s]}, index := index - {s}) else q
    }

    function TestLoop(): Queue {
      if !phase.Looping? then this else
      this.(phase := if size > 0 && |queue| >= size then Scanning([]) else Resting)
    }

    function Draw(): Queue {
      if !phase.Scanning? then this
      else if |phase.players| >= size then this.(phase := Submitting(phase.players))
      else if queue == map[] then PutAll(phase.players).(phase := Resting)
      else
        var key := First(queue);
        this.(queue := queue - {key}, index := index - {queue[key]},
              phase := Judging(phase.players, Entry(key, queue[key])))
    }

    function Judge(eligible: bool): Queue {
      if !phase.Judging? then this else
      this.(phase := Scanning(if eligible then phase.players + [phase.head] else phase.players))
    }

    function Submit(): Queue {
      if !phase.Submitting? then this else
      this.(phase := Submitted(phase.players))
    }

    function Settle(reply: MatchReply, closed: set<SessionId>): Queue {
      if !phase.Submitted? then this else
      if Requeues(reply)
      then PutAll(Spared(phase.players, reply.disqualified, closed)).(phase := Looping)
      else this.(phase := Looping)
    }

    /** `index` is the exact inverse of `queue`, whose keys are sequence numbers handed out. */
    ghost predicate Inverse() {
      && (forall k :: k in queue ==> queue[k] in index && index[queue[k]] == k)
      && (forall s :: s in index ==> index[s] in queue && queue[index[s]] == s)
      && (forall k :: k in queue ==> 0 < k <= sequence)
    }

    /** The popped entries are the oldest ones, in order, of sessions that are not queued. */
    ghost predicate InFlight(flying: seq<Entry>) {
      && (forall i, j :: 0 <= i < j < |flying| ==> flying[i].key < flying[j].key && flying[i].s != flying[j].s)
      && (forall i :: 0 <= i < |flying| ==> 0 < flying[i].key <= sequence && flying[i].s !in index)
      && (forall i, k :: 0 <= i < |flying| && k in queue ==> flying[i].key < k)
    }

    ghost predicate Inv() {
      && Inverse() && InFlight(Flying())
      && (phase.Scanning? || phase.Judging? ==> size > 0 && |phase.players| + (if phase.Judging? then 1 else 0) <= size)
      && (phase.Submitting? || phase.Submitted? ==> 0 < size == |phase.players|)
      && (phase.Resting? && size > 0 ==> |queue| < size)
    }
  }

  function KeysOf(entries: seq<Entry>): set<nat> { set e | e in entries :: e.key }

  function SessionsOf(entries: seq<Entry>): set<SessionId> { set e | e in entries :: e.s }

  function Players(entries: seq<Entry>): seq<SessionId> {
    if entries == [] then [] else [entries[0].s] + Players(entries[1..])
  }

  predicate Requeues(reply: MatchReply) { reply.Failed? && reply.disqualified != [] }

  /** The members of a failed group that go back to the queue. */
  function Spared(players: seq<Entry>, disqualified: seq<SessionId>, closed: set<SessionId>): seq<Entry> {
    if players == [] then []
    else if players[0].s in disqualified || players[0].s in closed then Spared(players[1..], disqualified, closed)
    else [players[0]] + Spared(players[1..], disqualified, closed)
  }

  lemma {:induction false} LeastExists(keys: set<nat>) returns (least: nat)
    requires keys != {}
    ensures least in keys && forall k :: k in keys ==> least <= k
  {
    var x :| x in keys;
    if keys == {x} {
      least := x;
    } else {
      var rest := LeastExists(keys - {x});
      least := if x <= rest then x else rest;
      forall k | k in keys ensures least <= k {
        if k != x { assert k in keys - {x}; }
      }
    }
  }

  function First(queue: map<nat, SessionId>): (key: nat)
    requires queue != map[]
    ensures key in queue && forall k :: k in queue ==> key <= k
  {
    assert queue.Keys != {};
    LeastIn(queue.Keys);
    var key :| key in queue && forall k :: k in queue ==> key <= k;
    key
  }

  lemma LeastIn(keys: set<nat>)
    requires keys != {}
    ensures exists least :: least in keys && forall k :: k in keys ==> least <= k
  {
    var least := LeastExists(keys);
  }

  // ----- every step ------------------------------------------------------------------

  datatype Step =
    | JoinTaken(s: SessionId, closed: bool) | JoinAnswered(eligible: bool) | LeaveTaken(s: SessionId)
    | LoopTested | Drawn | Judged(eligible: bool) | GroupSent
    | GroupSettled(reply: MatchReply, gone: set<SessionId>)

  ghost predicate Enabled(q: Queue, step: Step) {
    match step
    case JoinTaken(_, _) => q.phase.Resting?
    case JoinAnswered(_) => q.phase.Asking?
    case LeaveTaken(_) => q.phase.Resting?
    case LoopTested => q.phase.Looping?
    case Drawn => q.phase.Scanning? && q.Inverse()
    case Judged(_) => q.phase.Judging?
    case GroupSent => q.phase.Submitting?
    case GroupSettled(_, _) => q.phase.Submitted?
  }

  /** A step that is not possible changes nothing. */
  ghost function Next(q: Queue, step: Step): Queue {
    if !Enabled(q, step) then q else
    match step
    case JoinTaken(s, closed) => q.TakeJoin(s, closed)
    case JoinAnswered(eligible) => q.AnswerJoin(eligible)
    case LeaveTaken(s) => q.TakeLeave(s)
    case LoopTested => q.TestLoop()
    case Drawn => q.Draw()
    case Judged(eligible) => q.Judge(eligible)
    case GroupSent => q.Submit()
    case GroupSettled(reply, closed) => q.Settle(reply, closed)
  }

  /** The entries that this step takes out of the queue for good as a group. */
  ghost function Departing(q: Queue, step: Step): set<nat> {
    if q.phase.Submitted? && step.GroupSettled? && !Requeues(step.reply) then KeysOf(q.phase.players) else {}
  }

  /** Entries that can go into the queue: known keys that are free, of sessions not queued. */
  ghost predicate Loose(q: Queue, entries: seq<Entry>) {
    && (forall i, j :: 0 <= i < j < |entries| ==> entries[i].key != entries[j].key && entries[i].s != entries[j].s)
    && (forall i :: 0 <= i < |entries| ==>
         0 < entries[i].key <= q.sequence && entries[i].key !in q.queue && entries[i].s !in q.index)
  }

  lemma PutOne(q: Queue, e: Entry)
    requires q.Inverse() && Loose(q, [e])
    ensures q.Put(e).Inverse()
    ensures q.Put(e).queue.Keys == q.queue.Keys + {e.key} && q.Put(e).index.Keys == q.index.Keys + {e.s}
  {
    assert e == [e][0];
  }

  lemma LooseRest(q: Queue, entries: seq<Entry>)
    requires Loose(q, entries) && entries != []
    ensures Loose(q, [entries[0]]) && Loose(q.Put(entries[0]), entries[1..])
  {
    forall i | 0 <= i < |entries| - 1 ensures
      var e := entries[1..][i];
      0 < e.key <= q.sequence && e.key !in q.Put(entries[0]).queue && e.s !in q.Put(entries[0]).index
    {
      assert entries[1..][i] == entries[i + 1];
    }
  }

  /** `r` is `q` with the entries put back under their own keys and nothing else touched. */
  ghost predicate Restored(q: Queue, entries: seq<Entry>, r: Queue) {
    && r.sequence == q.sequence && r.size == q.size && r.capacity == q.capacity && r.phase == q.phase
    && r.queue.Keys == q.queue.Keys + KeysOf(entries)
    && r.index.Keys == q.index.Keys + SessionsOf(entries)
    && (forall k :: k in q.queue ==> r.queue[k] == q.queue[k])
    && (forall e :: e in entries ==> e.key in r.queue && r.queue[e.key] == e.s)
  }

  lemma {:induction false} PutBack(q: Queue, entries: seq<Entry>)
    requires q.Inverse() && Loose(q, entries)
    ensures q.PutAll(entries).Inverse() && Restored(q, entries, q.PutAll(entries))
    decreases |entries|
  {
    hide Restored, Queue.Inverse, Loose;
    if entries == [] {
      RestoredNothing(q);
    } else {
      var e, rest := entries[0], entries[1..];
      LooseRest(q, entries);
      PutOne(q, e);
      PutBack(q.Put(e), rest);
      RestoredOneMore(q, e, rest, q.Put(e).PutAll(rest));
      assert entries == [e] + rest;
    }
  }

  lemma RestoredNothing(q: Queue)
    ensures Restored(q, [], q)
  {
    assert KeysOf([]) == {} && SessionsOf([]) == {};
  }

  lemma RestoredOneMore(q: Queue, e: Entry, rest: seq<Entry>, r: Queue)
    requires q.Inverse() && Loose(q, [e]) && Restored(q.Put(e), rest, r)
    ensures Restored(q, [e] + rest, r)
  {
    PutOne(q, e);
    Gather(e, rest);
    assert [e][0] == e;
    forall k | k in q.queue ensures r.queue[k] == q.queue[k] {
      assert k in q.Put(e).queue;
    }
  }

  lemma Gather(e: Entry, rest: seq<Entry>)
    ensures KeysOf([e] + rest) == {e.key} + KeysOf(rest)
    ensures SessionsOf([e] + rest) == {e.s} + SessionsOf(rest)
  {
  }

  /** Whoever is spared kept its key, its session and its place in the order. */
  lemma {:induction false} SparedAre(q: Queue, players: seq<Entry>, disqualified: seq<SessionId>,
                                     closed: set<SessionId>)
    requires q.InFlight(players)
    ensures Loose(q, Spared(players, disqualified, closed))
    ensures forall e :: e in Spared(players, disqualified, closed) <==>
            e in players && e.s !in disqualified && e.s !in closed
    decreases |players|
  {
    if players != [] {
      SparedAre(q, players[1..], disqualified, closed);
    }
  }

  lemma JoinKeeps(q: Queue, eligible: bool)
    requires q.Inv() && q.phase.Asking?
    ensures q.AnswerJoin(eligible).Inv()
  {
    hide Queue.Put, Queue.Inv, Queue.Inverse, Loose;
    InvIsInverse(q);
    if !eligible || q.phase.s in q.index || |q.queue| >= q.capacity {
      Grounded(q, Looping);
    } else {
      var p, e := q.(sequence := q.sequence + 1), Entry(q.sequence + 1, q.phase.s);
      NextKeyIsLoose(q, p, e);
      PutOne(p, e);
      Grounded(p.Put(e), Looping);
      PutOtherPhase(p, e);
    }
  }

  lemma InvIsInverse(q: Queue)
    requires q.Inv()
    ensures q.Inverse()
  {
  }

  lemma NextKeyIsLoose(q: Queue, p: Queue, e: Entry)
    requires q.Inverse() && p == q.(sequence := q.sequence + 1) && e.key == p.sequence && e.s !in q.index
    ensures p.Inverse() && Loose(p, [e])
  {
  }

  lemma PutOtherPhase(q: Queue, e: Entry)
    ensures q.(phase := Looping).Put(e) == q.Put(e).(phase := Looping)
  {
  }

  lemma Grounded(q: Queue, phase: Phase)
    requires q.Inverse() && (phase.Looping? || (phase.Resting? && (q.size > 0 ==> |q.queue| < q.size)))
    ensures q.(phase := phase).Inv()
  {
    assert q.(phase := phase).Flying() == [];
  }

  lemma FlyingFirst(q: Queue, flying: seq<Entry>)
    requires q.InFlight(flying)
    ensures forall e, k :: e in flying && k in q.queue ==> e.key < k
  {
  }

  lemma FlyingIsLoose(q: Queue, flying: seq<Entry>)
    requires q.InFlight(flying)
    ensures Loose(q, flying)
  {
  }

  lemma FewRestored(q: Queue, entries: seq<Entry>, r: Queue)
    requires Restored(q, entries, r) && q.queue == map[]
    ensures |r.queue| <= |entries|
  {
    KeyCount(entries);
    assert r.queue.Keys == KeysOf(entries);
    assert |r.queue| == |r.queue.Keys|;
  }

  lemma DrawEmptyKeeps(q: Queue)
    requires q.Inv() && q.phase.Scanning? && |q.phase.players| < q.size && q.queue == map[]
    ensures q.Draw().Inv()
  {
    FlyingIsLoose(q, q.phase.players);
    PutBack(q, q.phase.players);
    FewRestored(q, q.phase.players, q.PutAll(q.phase.players));
    Grounded(q.PutAll(q.phase.players), Resting);
  }

  /** The oldest entry is taken out: it is younger than whatever was popped before. */
  lemma HeadIsTaken(q: Queue, players: seq<Entry>, key: nat)
    requires q.Inverse() && q.InFlight(players) && key in q.queue && forall k :: k in q.queue ==> key <= k
    ensures var p := q.(queue := q.queue - {key}, index := q.index - {q.queue[key]});
            p.Inverse() && p.InFlight(players) && p.InFlight(players + [Entry(key, q.queue[key])])
  {
  }

  lemma DrawHeadKeeps(q: Queue)
    requires q.Inv() && q.phase.Scanning? && |q.phase.players| < q.size && q.queue != map[]
    ensures q.Draw().Inv()
  {
    hide Queue.Inverse, Queue.InFlight;
    var r := q.Draw();
    assert r.Flying() == q.phase.players + [r.phase.head];
    HeadIsTaken(q, q.phase.players, r.phase.head.key);
    InEveryPhase(q.(queue := r.queue, index := r.index), r, r.Flying());
  }

  lemma InEveryPhase(q: Queue, p: Queue, flying: seq<Entry>)
    requires q.Inverse() && q.InFlight(flying) && p == q.(phase := p.phase)
    ensures p.Inverse() && p.InFlight(flying)
  {
  }

  lemma DrawKeeps(q: Queue)
    requires q.Inv() && q.phase.Scanning?
    ensures q.Draw().Inv()
  {
    if |q.phase.players| >= q.size {
    } else if q.queue == map[] {
      DrawEmptyKeeps(q);
    } else {
      DrawHeadKeeps(q);
    }
  }

  lemma {:induction false} KeyCount(entries: seq<Entry>)
    ensures |KeysOf(entries)| <= |entries|
  {
    if entries != [] {
      assert entries == [entries[0]] + entries[1..];
      Gather(entries[0], entries[1..]);
      KeyCount(entries[1..]);
    }
  }

  lemma SettleKeeps(q: Queue, reply: MatchReply, closed: set<SessionId>)
    requires q.Inv() && q.phase.Submitted?
    ensures q.Settle(reply, closed).Inv()
  {
    if Requeues(reply) {
      SparedAre(q, q.phase.players, reply.disqualified, closed);
      PutBack(q, Spared(q.phase.players, reply.disqualified, closed));
      Grounded(q.PutAll(Spared(q.phase.players, reply.disqualified, closed)), Looping);
    } else {
      Grounded(q, Looping);
    }
  }

  lemma JudgeKeeps(q: Queue, eligible: bool)
    requires q.Inv() && q.phase.Judging?
    ensures q.Judge(eligible).Inv()
  {
    var flying := q.phase.players + [q.phase.head];
    assert forall i :: 0 <= i < |q.phase.players| ==> q.phase.players[i] == flying[i];
  }

  /** Every step keeps the index the exact inverse of the queue, and the in-flight entries the
      oldest of all, in order. */
  lemma LeaveKeeps(q: Queue, s: SessionId)
    requires q.Inv()
    ensures q.TakeLeave(s).Inv()
  {
  }

  lemma StepKeeps(q: Queue, step: Step)
    requires q.Inv() && Enabled(q, step)
    ensures Next(q, step).Inv()
  {
    hide Queue.TakeLeave, Queue.Draw, Queue.Judge, Queue.Settle, Queue.AnswerJoin;
    match step {
      case JoinTaken(s, closed) =>
      case JoinAnswered(eligible) => JoinKeeps(q, eligible);
      case LeaveTaken(s) => LeaveKeeps(q, s);
      case LoopTested =>
      case Drawn => DrawKeeps(q);
      case Judged(eligible) => JudgeKeeps(q, eligible);
      case GroupSent =>
      case GroupSettled(reply, closed) => SettleKeeps(q, reply, closed);
    }
  }

  // ----- who can be in the queue at all ----------------------------------------------

  lemma PutBackSessions(q: Queue, entries: seq<Entry>, phase: Phase)
    requires q.Inverse() && Loose(q, entries) && (phase.Resting? || phase.Looping?)
    ensures q.PutAll(entries).(phase := phase).Footprint() == q.index.Keys + SessionsOf(entries)
  {
    hide Queue.Inverse, Loose;
    PutBack(q, entries);
    assert q.PutAll(entries).(phase := phase).Flying() == [];
  }

  lemma DrawFootprint(q: Queue)
    requires q.Inv() && q.phase.Scanning?
    ensures q.Draw().Footprint() <= q.Footprint()
  {
    var players := q.phase.players;
    if |players| >= q.size {
      assert q.Draw().Flying() == players;
    } else if q.queue == map[] {
      FlyingIsLoose(q, players);
      PutBackSessions(q, players, Resting);
    } else {
      assert q.Draw().Flying() == players + [q.Draw().phase.head];
    }
  }

  lemma SettleFootprint(q: Queue, reply: MatchReply, gone: set<SessionId>)
    requires q.Inv() && q.phase.Submitted?
    ensures q.Settle(reply, gone).Footprint() <= q.Footprint()
  {
    if Requeues(reply) {
      SparedAre(q, q.phase.players, reply.disqualified, gone);
      PutBackSessions(q, Spared(q.phase.players, reply.disqualified, gone), Looping);
    } else {
      assert q.Settle(reply, gone).Flying() == [];
    }
  }

  lemma JudgeFootprint(q: Queue, eligible: bool)
    requires q.phase.Judging?
    ensures q.Judge(eligible).Footprint() <= q.Footprint()
  {
    assert q.Judge(eligible).Flying() == if eligible then q.Flying() else q.phase.players;
  }

  lemma AnswerFootprint(q: Queue, eligible: bool)
    requires q.phase.Asking?
    ensures q.AnswerJoin(eligible).Footprint() <= q.Footprint()
  {
    assert q.AnswerJoin(eligible).Flying() == [];
  }

  lemma JoinFootprint(q: Queue, s: SessionId, closed: bool)
    requires q.phase.Resting?
    ensures q.TakeJoin(s, closed).Footprint() <= q.Footprint() + if closed then {} else {s}
  {
  }

  /** Whoever the matchmaker asks about is queued afterwards exactly if it was before or is eligible
      and there is room; and a new entry is the last one. */
  lemma AnswerIsExact(q: Queue, eligible: bool)
    requires q.Inv() && q.phase.Asking?
    ensures var (s, k) := (q.phase.s, q.AnswerJoin(eligible));
            && (s in k.index <==> s in q.index || (eligible && |q.queue| < q.capacity))
            && (forall x :: x in q.index ==> x in k.index && k.index[x] == q.index[x])
            && (forall x :: x in k.index && x !in q.index ==>
                  x == s && forall key :: key in q.queue ==> key < k.index[s])
  {
  }

  lemma LeaveFootprint(q: Queue, s: SessionId)
    requires q.phase.Resting?
    ensures q.TakeLeave(s).Footprint() <= q.Footprint() - {s}
  {
    assert q.TakeLeave(s).Flying() == [];
  }

  lemma WalkFootprint(q: Queue)
    ensures q.phase.Looping? ==> q.TestLoop().Footprint() == q.Footprint()
    ensures q.phase.Submitting? ==> q.Submit().Footprint() == q.Footprint()
  {
  }

  /** Only the Join of a client that is not closed brings a session near the queue; a Leave
      takes it away. */
  lemma FootprintGrows(q: Queue, step: Step)
    requires q.Inv() && Enabled(q, step)
    ensures Next(q, step).Footprint() <= q.Footprint() + (if step.JoinTaken? && !step.closed then {step.s} else {})
    ensures step.LeaveTaken? ==> step.s !in Next(q, step).Footprint()
  {
    hide Queue.Footprint, Queue.Inv, Queue.Inverse, Queue.Draw, Queue.Settle, Queue.Judge, Queue.AnswerJoin;
    hide Queue.TakeJoin, Queue.TakeLeave, Queue.TestLoop, Queue.Submit;
    match step
    case JoinTaken(s, closed) => JoinFootprint(q, s, closed);
    case JoinAnswered(eligible) => AnswerFootprint(q, eligible);
    case LeaveTaken(s) => LeaveFootprint(q, s);
    case LoopTested => WalkFootprint(q);
    case Drawn => DrawFootprint(q);
    case Judged(eligible) => JudgeFootprint(q, eligible);
    case GroupSent => WalkFootprint(q);
    case GroupSettled(reply, closed) => SettleFootprint(q, reply, closed);
  }

  // ----- what a submitted group is ---------------------------------------------------

  lemma {:induction false} EverybodyCounts(players: seq<Entry>)
    requires forall i, j :: 0 <= i < j < |players| ==> players[i].s != players[j].s
    ensures |Everyone(Players(players))| == |players| == |Players(players)|
    ensures forall s :: s in Players(players) ==> exists i :: 0 <= i < |players| && players[i].s == s
  {
    if players != [] {
      var rest := players[1..];
      assert forall i :: 0 <= i < |rest| ==> rest[i] == players[i + 1];
      EverybodyCounts(rest);
      assert players[0].s !in Players(rest);
      assert Everyone(Players(players)) == {players[0].s} + Everyone(Players(rest));
    }
  }

  /** A group the matchmaker submits consists of `size` different sessions. If each of them is
      in the global room alone, a room created for them has exactly them in it, moves nobody
      else, and keeps to every limit: the one on rooms per session cannot be the one to fail. */
  lemma SubmittedGroupsFit(q: Queue, m: Ledger, config: Config, task: TaskId)
    requires q.Inv() && q.phase.Submitted? && q.size == config.matchSize && config.Accepted()
    requires m.Inv(config) && CanSpawn(m, config, task)
    requires forall s :: s in Players(q.phase.players) ==> m.RoomsOf(s) == {GLOBAL_ROOM}
    ensures var group := Players(q.phase.players);
            var after := Created(m, group, task);
            && 0 < |group| == q.size <= config.maxRoomPlayers
            && MatchCommitted(m, after, group, m.nextId) && |after.MembersOf(m.nextId)| == q.size
            && after.Inv(config)
  {
    var group := Players(q.phase.players);
    assert q.Flying() == q.phase.players;
    EverybodyCounts(q.phase.players);
    PreparedKeeps(m, config, task);
    LinksStayOpen(m, config);
    MatchIsExact(m, group, task);
    assert group[0] in Everyone(group);
    CreationKeeps(m, config, task, Everyone(group));
  }

  // ----- nobody who stays is overtaken -----------------------------------------------

  function Items(queue: map<nat, SessionId>): (items: set<Entry>)
    ensures forall e :: e in items <==> e.key in queue && queue[e.key] == e.s
  {
    set k | k in queue :: Entry(k, queue[k])
  }

  function SetOf(entries: seq<Entry>): set<Entry> { set e | e in entries }

  /** Every entry that has not left for good. */
  function Entries(q: Queue): set<Entry> { Items(q.queue) + SetOf(q.Flying()) }

  ghost predicate AllEnabled(q: Queue, steps: seq<Step>)
    decreases |steps|
  {
    steps == [] || (Enabled(q, steps[0]) && AllEnabled(Next(q, steps[0]), steps[1..]))
  }

  ghost function Run(q: Queue, steps: seq<Step>): Queue
    decreases |steps|
  {
    if steps == [] then q else Run(Next(q, steps[0]), steps[1..])
  }

  /** The keys of every group that left for good during a run. */
  ghost function Departed(q: Queue, steps: seq<Step>): set<nat>
    decreases |steps|
  {
    if steps == [] then {} else Departing(q, steps[0]) + Departed(Next(q, steps[0]), steps[1..])
  }

  lemma ItemsRestored(q: Queue, entries: seq<Entry>, r: Queue)
    requires Restored(q, entries, r)
    ensures Items(r.queue) == Items(q.queue) + SetOf(entries)
  {
    forall e | e in Items(r.queue) ensures e in Items(q.queue) + SetOf(entries) {
      if e.key in q.queue {
        assert r.queue[e.key] == q.queue[e.key];
      } else {
        assert e.key in KeysOf(entries);
        var x :| x in entries && x.key == e.key;
      }
    }
    forall e | e in Items(q.queue) + SetOf(entries) ensures e in Items(r.queue) {
      assert e.key in r.queue;
    }
  }

  lemma PutBackMoves(q: Queue, entries: seq<Entry>)
    requires q.Inverse() && Loose(q, entries)
    ensures Items(q.PutAll(entries).queue) == Items(q.queue) + SetOf(entries)
    ensures q.PutAll(entries).sequence == q.sequence
  {
    PutBack(q, entries);
    ItemsRestored(q, entries, q.PutAll(entries));
  }

  lemma DrawEmptyMoves(q: Queue)
    requires q.Inv() && q.phase.Scanning? && |q.phase.players| < q.size && q.queue == map[]
    ensures Entries(q.Draw()) == Entries(q) && q.Draw().sequence == q.sequence
  {
    FlyingIsLoose(q, q.phase.players);
    PutBackMoves(q, q.phase.players);
    NothingFlying(q.PutAll(q.phase.players), Resting);
  }

  lemma NothingFlying(q: Queue, phase: Phase)
    requires phase.Resting? || phase.Looping?
    ensures Entries(q.(phase := phase)) == Items(q.queue)
  {
    assert q.(phase := phase).Flying() == [];
  }

  lemma DrawHeadMoves(q: Queue)
    requires q.Inverse() && q.phase.Scanning? && |q.phase.players| < q.size && q.queue != map[]
    ensures Entries(q.Draw()) == Entries(q) && q.Draw().sequence == q.sequence
  {
    var head := q.Draw().phase.head;
    assert SetOf(q.phase.players + [head]) == SetOf(q.phase.players) + {head};
    assert Items(q.queue) == Items(q.Draw().queue) + {head};
  }

  lemma DrawMoves(q: Queue)
    requires q.Inv() && q.phase.Scanning?
    ensures Entries(q.Draw()) == Entries(q) && q.Draw().sequence == q.sequence
  {
    if |q.phase.players| >= q.size {
    } else if q.queue == map[] {
      DrawEmptyMoves(q);
    } else {
      DrawHeadMoves(q);
    }
  }

  lemma SettleMoves(q: Queue, reply: MatchReply, gone: set<SessionId>)
    requires q.Inv() && q.phase.Submitted?
    ensures Entries(q.Settle(reply, gone)) <= Entries(q) && q.Settle(reply, gone).sequence == q.sequence
    ensures Requeues(reply) ==>
              Entries(q.Settle(reply, gone))
                  == Items(q.queue) + SetOf(Spared(q.phase.players, reply.disqualified, gone))
  {
    if Requeues(reply) {
      var spared := Spared(q.phase.players, reply.disqualified, gone);
      SparedAre(q, q.phase.players, reply.disqualified, gone);
      PutBackMoves(q, spared);
      NothingFlying(q.PutAll(spared), Looping);
    } else {
      NothingFlying(q, Looping);
    }
  }

  /** A step only ever adds an entry under a new, larger number. */
  lemma StepEntries(q: Queue, step: Step)
    requires q.Inv() && Enabled(q, step)
    ensures q.sequence <= Next(q, step).sequence
    ensures forall e :: e in Entries(Next(q, step)) ==> e in Entries(q) || q.sequence < e.key
  {
    match step {
      case Drawn => DrawMoves(q);
      case GroupSettled(reply, gone) => SettleMoves(q, reply, gone);
      case _ =>
    }
  }

  ghost predicate Above(q: Queue, floor: nat) {
    floor <= q.sequence && forall e :: e in Entries(q) ==> floor < e.key
  }

  lemma DepartingIsOldest(q: Queue, step: Step, key: nat)
    requires q.Inv() && Enabled(q, step) && key in Departing(q, step)
    ensures Above(Next(q, step), key)
  {
    var i :| 0 <= i < |q.phase.players| && q.phase.players[i].key == key;
    assert q.Flying() == q.phase.players;
    assert Next(q, step).Flying() == [];
  }

  lemma {:induction false} StaysAbove(q: Queue, steps: seq<Step>, floor: nat)
    requires q.Inv() && AllEnabled(q, steps) && Above(q, floor)
    ensures Above(Run(q, steps), floor)
    decreases |steps|
  {
    if steps != [] {
      StepKeeps(q, steps[0]);
      StepEntries(q, steps[0]);
      StaysAbove(Next(q, steps[0]), steps[1..], floor);
    }
  }

  /** Over every run, whatever the manager answers and whoever comes and goes: every entry
      still waiting at the end arrived later than every member of every group that left for
      good on the way. So a session that stays queued is never overtaken. */
  lemma {:induction false} NeverOvertaken(q: Queue, steps: seq<Step>)
    requires q.Inv() && AllEnabled(q, steps)
    ensures Run(q, steps).Inv()
    ensures forall key, e :: key in Departed(q, steps) && e in Entries(Run(q, steps)) ==> key < e.key
    decreases |steps|
  {
    if steps != [] {
      var p := Next(q, steps[0]);
      StepKeeps(q, steps[0]);
      NeverOvertaken(p, steps[1..]);
      forall key, e | key in Departing(q, steps[0]) && e in Entries(Run(p, steps[1..])) ensures key < e.key {
        DepartingIsOldest(q, steps[0], key);
        StaysAbove(p, steps[1..], key);
      }
    }
  }

  /** Nobody loses its place without a reason: it asked to leave, the manager called it
      ineligible or disqualified it, its client was closed, or its group was settled. */
  lemma LossHasAReason(q: Queue, step: Step, e: Entry)
    requires q.Inv() && Enabled(q, step) && e in Entries(q) && e !in Entries(Next(q, step))
    ensures || step == LeaveTaken(e.s)
            || (step == Judged(false) && e == q.phase.head)
            || (step.GroupSettled? && e in q.phase.players
                && (!Requeues(step.reply) || e.s in step.reply.disqualified || e.s in step.gone))
  {
    match step {
      case LeaveTaken(s) =>
        assert q.Flying() == [];
      case Drawn => DrawMoves(q);
      case Judged(eligible) =>
        assert Next(q, step).Flying() == if eligible then q.Flying() else q.phase.players;
      case GroupSettled(reply, gone) =>
        SettleMoves(q, reply, gone);
        if Requeues(reply) { SparedAre(q, q.phase.players, reply.disqualified, gone); }
      case _ =>
    }
  }

  // ----- whoever is submitted was called eligible ------------------------------------

  /** The entries in hand about which the manager has been asked. */
  function Approved(q: Queue): seq<Entry> {
    match q.phase
    case Scanning(players) => players
    case Judging(players, _) => players
    case Submitting(players) => players
    case Submitted(players) => players
    case _ => []
  }

  lemma StepApproves(q: Queue, step: Step, e: Entry)
    requires q.Inv() && Enabled(q, step) && e in Approved(Next(q, step))
    ensures e in Approved(q) || (step == Judged(true) && q.phase.Judging? && q.phase.head == e)
  {
  }

  /** At step `i` the manager called the entry, which had just been popped, eligible, and ever since
      it has been in hand. */
  ghost predicate VouchedAt(q: Queue, steps: seq<Step>, e: Entry, i: nat) {
    && i < |steps| && steps[i] == Judged(true)
    && Run(q, steps[..i]).phase.Judging? && Run(q, steps[..i]).phase.head == e
    && forall j :: i < j <= |steps| ==> e in Approved(Run(q, steps[..j]))
  }

  ghost predicate Vouched(q: Queue, steps: seq<Step>, e: Entry) { exists i :: VouchedAt(q, steps, e, i) }

  lemma {:induction false} RunOneMore(q: Queue, steps: seq<Step>, step: Step)
    ensures Run(q, steps + [step]) == Next(Run(q, steps), step)
    ensures AllEnabled(q, steps + [step]) <==> AllEnabled(q, steps) && Enabled(Run(q, steps), step)
    decreases |steps|
  {
    hide Enabled, Next;
    if steps == [] {
      assert [step][1..] == [] && [] + [step] == [step];
    } else {
      assert (steps + [step])[1..] == steps[1..] + [step];
      RunOneMore(Next(q, steps[0]), steps[1..], step);
    }
  }

  lemma VouchedLater(q: Queue, steps: seq<Step>, step: Step, e: Entry)
    requires Vouched(q, steps, e) && e in Approved(Run(q, steps + [step]))
    ensures Vouched(q, steps + [step], e)
  {
    hide Next, Enabled;
    var i: nat :| VouchedAt(q, steps, e, i);
    var more := steps + [step];
    assert more[..i] == steps[..i];
    forall j | i < j <= |more| ensures e in Approved(Run(q, more[..j])) {
      if j <= |steps| { assert more[..j] == steps[..j]; } else { assert more[..j] == more; }
    }
    assert VouchedAt(q, more, e, i);
  }

  /** In every run: everybody in a group that is submitted was popped and then called eligible by the
      manager, and has been in hand ever since. */
  lemma {:induction false} SubmittedAreVouchedFor(q: Queue, steps: seq<Step>)
    requires q.Inv() && AllEnabled(q, steps) && Approved(q) == []
    ensures Run(q, steps).Inv()
    ensures forall e :: e in Approved(Run(q, steps)) ==> Vouched(q, steps, e)
    decreases |steps|
  {
    hide Queue.Inv, Enabled, Next, Approved, VouchedAt;
    if steps != [] {
      var n := |steps| - 1;
      var (before, last) := (steps[..n], steps[n]);
      assert steps == before + [last];
      RunOneMore(q, before, last);
      SubmittedAreVouchedFor(q, before);
      StepKeeps(Run(q, before), last);
      forall e | e in Approved(Run(q, steps)) ensures Vouched(q, steps, e) {
        StepApproves(Run(q, before), last, e);
        if e in Approved(Run(q, before)) { VouchedLater(q, before, last, e); } else { VouchedNow(q, before, last, e); }
      }
    }
  }

  lemma VouchedNow(q: Queue, steps: seq<Step>, step: Step, e: Entry)
    requires step == Judged(true) && Run(q, steps).phase.Judging? && Run(q, steps).phase.head == e
    requires e in Approved(Run(q, steps + [step]))
    ensures Vouched(q, steps + [step], e)
  {
    hide Enabled, Next, Approved;
    var more := steps + [step];
    assert more[..|steps|] == steps && more[..|more|] == more;
    assert VouchedAt(q, more, e, |steps|);
  }

  // ----- the loop ends ---------------------------------------------------------------

  /** Entries in play, and how far the current pass over them has come. */
  function Count(q: Queue): nat { |q.queue| + |q.Flying()| }

  function Rank(q: Queue): nat {
    match q.phase
    case Looping => 2 * |q.queue| + 4
    case Scanning(_) => 2 * |q.queue| + 3
    case Judging(_, _) => 2 * |q.queue| + 4
    case Submitting(_) => 2
    case Submitted(_) => 1
    case _ => 0
  }

  lemma {:induction false} SparedCount(players: seq<Entry>, disqualified: seq<SessionId>, gone: set<SessionId>)
    ensures |Spared(players, disqualified, gone)| <= |players|
    ensures (exists e :: e in players && e.s in disqualified) ==> |Spared(players, disqualified, gone)| < |players|
  {
    if players != [] {
      SparedCount(players[1..], disqualified, gone);
      if e :| e in players && e.s in disqualified {
        assert e == players[0] || e in players[1..];
      }
    }
  }

  lemma RestoredCount(q: Queue, entries: seq<Entry>, r: Queue)
    requires Restored(q, entries, r)
    ensures |r.queue| <= |q.queue| + |entries|
  {
    KeyCount(entries);
    assert |r.queue| == |r.queue.Keys|;
    assert |q.queue| == |q.queue.Keys|;
  }

  /** The manager only ever disqualifies members of the group it was sent. */
  ghost predicate Fair(players: seq<Entry>, reply: MatchReply) {
    Requeues(reply) ==> forall s :: s in reply.disqualified ==> s in SessionsOf(players)
  }

  lemma SettleDescends(q: Queue, reply: MatchReply, gone: set<SessionId>)
    requires q.Inv() && q.phase.Submitted? && Fair(q.phase.players, reply)
    ensures Count(q.Settle(reply, gone)) < Count(q)
  {
    assert q.Settle(reply, gone).Flying() == [];
    if Requeues(reply) {
      var spared := Spared(q.phase.players, reply.disqualified, gone);
      SparedAre(q, q.phase.players, reply.disqualified, gone);
      PutBack(q, spared);
      RestoredCount(q, spared, q.PutAll(spared));
      assert reply.disqualified[0] in SessionsOf(q.phase.players);
      SparedCount(q.phase.players, reply.disqualified, gone);
    }
  }

  lemma DrawDescends(q: Queue)
    requires q.Inv() && q.phase.Scanning?
    ensures var p := q.Draw(); Count(p) < Count(q) || (Count(p) == Count(q) && Rank(p) < Rank(q))
  {
    var players := q.phase.players;
    if |players| >= q.size {
      assert q.Draw().Flying() == players;
    } else if q.queue == map[] {
      FlyingIsLoose(q, players);
      PutBack(q, players);
      RestoredCount(q, players, q.PutAll(players));
      assert q.Draw().Flying() == [];
    } else {
      var key := First(q.queue);
      assert (q.queue - {key}).Keys == q.queue.Keys - {key};
      assert |q.queue - {key}| == |(q.queue - {key}).Keys|;
      assert |q.queue| == |q.queue.Keys|;
    }
  }

  /** Every statement of the matching loop comes closer to its end: either there are fewer
      entries in play, or as many and the pass is further on. */
  lemma LoopDescends(q: Queue, step: Step)
    requires q.Inv() && Enabled(q, step) && !q.phase.Resting? && !q.phase.Asking?
    requires step.GroupSettled? ==> Fair(q.phase.players, step.reply)
    ensures var p := Next(q, step);
            Count(p) < Count(q) || (Count(p) == Count(q) && Rank(p) < Rank(q))
  {
    match step {
      case Drawn => DrawDescends(q);
      case GroupSettled(reply, gone) => SettleDescends(q, reply, gone);
      case _ =>
    }
  }

  lemma SetOfAppend(players: seq<Entry>, head: Entry)
    ensures SetOf(players + [head]) == SetOf(players) + {head}
  {
  }

  lemma {:induction false} PlayersAre(players: seq<Entry>, s: SessionId)
    ensures s in Players(players) <==> exists e :: e in players && e.s == s
  {
    if players != [] {
      PlayersAre(players[1..], s);
      assert players == [players[0]] + players[1..];
    }
  }

  /** An entry gone from a queue that gained none makes it smaller. */
  lemma Shrinks(before: map<nat, SessionId>, after: map<nat, SessionId>, out: Entry)
    requires Items(after) <= Items(before) && out in Items(before) && out !in Items(after)
    ensures after.Keys < before.Keys
  {
    forall k | k in after ensures k in before && before[k] == after[k] {
      assert Entry(k, after[k]) in Items(after);
    }
  }

  // ----- the object ------------------------------------------------------------------

  /** What the actor hears when it asks, at whatever time: is the client eligible, is it
      closed, and what became of a group submitted for creation. */
  datatype World = World(
    eligible: (nat, SessionId) -> bool,
    closed: (nat, SessionId) -> bool,
    outcome: (nat, seq<SessionId>) -> MatchReply)
  {
    ghost predicate Fair() {
      forall t, group :: Requeues(outcome(t, group)) ==>
        forall s :: s in outcome(t, group).disqualified ==> s in group
    }

    /** At some time from `from` on, and before `to`, the session was called ineligible or closed,
        or was disqualified. */
    ghost predicate Against(s: SessionId, from: nat, to: nat) {
      || (exists t :: from <= t < to && !eligible(t, s))
      || (exists t :: from <= t < to && closed(t, s))
      || (exists t, group :: from <= t < to && Requeues(outcome(t, group)) && s in outcome(t, group).disqualified)
    }

    /** In that time the session was called eligible. */
    ghost predicate For(s: SessionId, from: nat, to: nat) { exists t :: from <= t < to && eligible(t, s) }

    /** Of entries asked about one after the other from `t` on, those that were called eligible. */
    function Picked(asked: seq<Entry>, t: nat): seq<Entry> {
      if asked == [] then [] else
      var n := |asked| - 1;
      Picked(asked[..n], t) + if eligible(t + n, asked[n].s) then [asked[n]] else []
    }

    lemma {:induction false} PickedAreFor(asked: seq<Entry>, t: nat)
      ensures forall e :: e in Picked(asked, t) ==> e in asked && For(e.s, t, t + |asked|)
      ensures forall e :: e in asked && e !in Picked(asked, t) ==> Against(e.s, t, t + |asked|)
    {
      if asked != [] {
        var n := |asked| - 1;
        PickedAreFor(asked[..n], t);
        assert asked == asked[..n] + [asked[n]];
        forall e | e in Picked(asked, t) ensures For(e.s, t, t + |asked|) {
          if e in Picked(asked[..n], t) { LongerFor(e.s, t, t + n, t, t + |asked|); }
        }
        forall e | e in asked && e !in Picked(asked, t) ensures Against(e.s, t, t + |asked|) {
          if e in asked[..n] { LongerAgainst(e.s, t, t + n, t, t + |asked|); }
        }
      }
    }

    lemma LongerFor(s: SessionId, from: nat, to: nat, from2: nat, to2: nat)
      requires For(s, from, to) && from2 <= from && to <= to2
      ensures For(s, from2, to2)
    {
    }

    lemma LongerAgainst(s: SessionId, from: nat, to: nat, from2: nat, to2: nat)
      requires Against(s, from, to) && from2 <= from && to <= to2
      ensures Against(s, from2, to2)
    {
    }
  }

  /** The frame sent to everybody of a group that left the queue for good. */
  datatype Notice = Notice(group: seq<Entry>, reply: MatchReply)

  function GroupOf(notice: Option<Notice>): set<Entry> { if notice.Some? then SetOf(notice.value.group) else {} }

  /** The notice repeats what the manager said of exactly this group, when it had called everybody
      in it eligible. */
  ghost predicate FairNotice(world: World, n: Notice, from: nat, to: nat) {
    && !Requeues(n.reply)
    && exists t :: from <= t < to && n.reply == world.outcome(t, Players(n.group)) && AllFor(world, n.group, from, t)
  }

  ghost predicate AllFor(world: World, group: seq<Entry>, from: nat, to: nat) {
    forall e :: e in group ==> world.For(e.s, from, to)
  }

  lemma LongerFair(world: World, n: Notice, from: nat, to: nat, from2: nat, to2: nat)
    requires FairNotice(world, n, from, to) && from2 <= from && to <= to2
    ensures FairNotice(world, n, from2, to2)
  {
    var t :| from <= t < to && n.reply == world.outcome(t, Players(n.group)) && AllFor(world, n.group, from, t);
    forall e | e in n.group ensures world.For(e.s, from2, t) { world.LongerFor(e.s, from, t, from2, t); }
    assert AllFor(world, n.group, from2, t);
  }

  /** What the manager says of a group after everybody in it was called eligible. */
  lemma Answered(world: World, group: seq<Entry>, from: nat, at: nat, to: nat)
    requires from <= at < to && AllFor(world, group, from, at)
    ensures var reply := world.outcome(at, Players(group));
            !Requeues(reply) ==> FairNotice(world, Notice(group, reply), from, to)
  {
    hide World.For;
  }

  lemma GroupIs(notice: Option<Notice>)
    ensures GroupOf(notice) == if notice.Some? then SetOf(notice.value.group) else {}
  {
  }

  lemma AllLongerAgainst(world: World, lost: set<Entry>, from: nat, to: nat, from2: nat, to2: nat)
    requires from2 <= from && to <= to2 && forall e :: e in lost ==> world.Against(e.s, from, to)
    ensures forall e :: e in lost ==> world.Against(e.s, from2, to2)
  {
    forall e | e in lost ensures world.Against(e.s, from2, to2) { world.LongerAgainst(e.s, from, to, from2, to2); }
  }

  lemma ToldMore(notices: seq<Notice>, n: Option<Notice>)
    ensures Told(notices + if n.Some? then [n.value] else []) == Told(notices) + GroupOf(n)
    ensures notices + [] == notices
  {
  }

  lemma Regroup<T>(all: set<T>, queued: set<T>, told: set<T>, lost: set<T>, left: set<T>, group: set<T>, passed: set<T>)
    requires all == queued + told + lost && queued == left + group + passed
    ensures all == left + (told + group) + (lost + passed)
  {
  }

  lemma PassedOn<T>(before: set<T>, middle: set<T>, after: set<T>, asked: set<T>, players: set<T>, passed: set<T>,
                    group: set<T>, dropped: set<T>)
    requires before == middle + asked && asked == players + passed && middle + players == after + group + dropped
    ensures before == after + group + (passed + dropped) && after <= before && players <= before
  {
  }

  lemma NothingLeft()
    ensures SetOf([]) == {} && KeysOf([]) == {} && Items(map[]) == {}
  {
  }

  lemma InGroup(group: seq<Entry>, e: Entry)
    requires e in group
    ensures e in SetOf(group)
  {
  }

  lemma Divide(kept: set<Entry>, lost: set<Entry>, rest: seq<Entry>)
    requires rest != []
    ensures kept + lost + SetOf(rest) == (kept + {rest[0]}) + lost + SetOf(rest[1..])
    ensures kept + lost + SetOf(rest) == kept + (lost + {rest[0]}) + SetOf(rest[1..])
  {
    assert rest == [rest[0]] + rest[1..];
  }

  lemma SameKeys(items: set<Entry>, queue: map<nat, SessionId>)
    requires Items(queue) <= items
    ensures forall k :: k in queue ==> exists e :: e in items && e.key == k
  {
    forall k | k in queue ensures exists e :: e in items && e.key == k {
      assert Entry(k, queue[k]) in items;
    }
  }

  lemma NobodyAsked(world: World, t: nat)
    ensures world.Picked([], t) == []
    ensures forall q: Queue :: q.InFlight([])
  {
  }

  /** One more entry has been popped and asked about. */
  lemma AskedMore(world: World, players: seq<Entry>, asked: seq<Entry>, lost: set<Entry>, head: Entry, t: nat)
    requires players == world.Picked(asked, t) && SetOf(asked) == SetOf(players) + lost
    requires forall e :: e in lost ==> world.Against(e.s, t, t + |asked|)
    ensures var (n, yes) := (|asked|, world.eligible(t + |asked|, head.s));
            && world.Picked(asked + [head], t) == players + (if yes then [head] else [])
            && SetOf(asked + [head]) == SetOf(asked) + {head} && SetOf(players + [head]) == SetOf(players) + {head}
            && (forall e :: e in lost ==> world.Against(e.s, t, t + n + 1))
            && (!yes ==> world.Against(head.s, t, t + n + 1))
  {
    hide World.Against;
    assert (asked + [head])[..|asked|] == asked;
    SetOfAppend(players, head);
    SetOfAppend(asked, head);
    AllLongerAgainst(world, lost, t, t + |asked|, t, t + |asked| + 1);
    if !world.eligible(t + |asked|, head.s) { CalledIneligible(world, head.s, t + |asked|, t); }
  }

  lemma CalledIneligible(world: World, s: SessionId, at: nat, from: nat)
    requires from <= at && !world.eligible(at, s)
    ensures world.Against(s, from, at + 1)
  {
  }

  lemma AllForPicked(world: World, asked: seq<Entry>, t: nat)
    ensures AllFor(world, world.Picked(asked, t), t, t + |asked|)
  {
    world.PickedAreFor(asked, t);
  }

  /** The player, looked at in its turn from `t` on, is neither disqualified nor closed. */
  ghost predicate Spares(world: World, players: seq<Entry>, disqualified: seq<SessionId>, t: nat, i: nat) {
    i < |players| && players[i].s !in disqualified && !world.closed(t + i, players[i].s)
  }

  lemma SparesIs(world: World, players: seq<Entry>, disqualified: seq<SessionId>, t: nat, i: nat)
    requires i < |players|
    ensures Spares(world, players, disqualified, t, i)
            <==> players[i].s !in disqualified && !world.closed(t + i, players[i].s)
  {
  }

  /** Somebody of the group is disqualified. */
  lemma Disqualified(players: seq<Entry>, disqualified: seq<SessionId>) returns (out: Entry)
    requires disqualified != [] && forall s :: s in disqualified ==> s in Players(players)
    ensures out in players && out.s in disqualified
  {
    PlayersAre(players, disqualified[0]);
    out :| out in players && out.s == disqualified[0];
  }

  /** Entries in flight are different, and not in the queue. */
  lemma FlyingApart(q: Queue, flying: seq<Entry>)
    requires q.InFlight(flying)
    ensures forall i, j :: 0 <= i < j < |flying| ==> flying[i] != flying[j]
    ensures forall e :: e in flying ==> e !in Items(q.queue)
  {
  }

  lemma KeptExactly(world: World, players: seq<Entry>, disqualified: seq<SessionId>, t: nat,
                    items: set<Entry>, kept: set<Entry>, out: Entry)
    requires forall i, j :: 0 <= i < j < |players| ==> players[i] != players[j]
    requires (forall e :: e in players ==> e !in items) && out in players && out.s in disqualified
    requires kept == set i | 0 <= i < |players| && Spares(world, players, disqualified, t, i) :: players[i]
    ensures forall i :: 0 <= i < |players| ==>
              (players[i] in items + kept <==> Spares(world, players, disqualified, t, i))
    ensures out !in items + kept
  {
  }

  /** Whoever of a failed group is not spared had somebody speak against it. */
  lemma SparedOrAgainst(world: World, players: seq<Entry>, from: nat, to: nat)
    requires Requeues(world.outcome(from, Players(players))) && to == from + 1 + |players|
    ensures forall i :: 0 <= i < |players| ==>
              Spares(world, players, world.outcome(from, Players(players)).disqualified, from + 1, i)
              || world.Against(players[i].s, from, to)
  {
  }

  function Told(notices: seq<Notice>): set<Entry> { set n, e | n in notices && e in n.group :: e }

  class Matchmaker {
    const size: nat
    const capacity: nat
    var queue: map<nat, SessionId>
    var index: map<SessionId, nat>
    var sequence: nat
    var clock: nat

    ghost function View(phase: Phase): Queue
      reads this
    {
      Queue(size, capacity, queue, index, sequence, phase)
    }

    ghost predicate Valid()
      reads this
    {
      View(Resting).Inverse()
    }

    constructor (size: nat, capacity: nat)
      ensures Valid() && queue == map[] && sequence == 0
      ensures this.size == size && this.capacity == capacity
    {
      this.size, this.capacity := size, capacity;
      queue, index, sequence, clock := map[], map[], 0, 0;
    }

    /** The Join command. */
    method Join(s: SessionId, closed: bool, eligible: bool) returns (result: Result<()>)
      requires Valid()
      modifies this`queue, this`index, this`sequence
      ensures Valid()
      ensures result.Ok? ==>
                && size > 0 && !closed && eligible && s !in old(index) && |old(queue)| < capacity
                && sequence == old(sequence) + 1 && queue == old(queue)[sequence := s]
                && forall k :: k in old(queue) ==> k < sequence
      ensures result.Err? ==> queue == old(queue) && sequence == old(sequence)
      ensures result == if size == 0 then Err(Denied) else if closed then Err(Closed)
                        else if !eligible then Err(Denied) else if s in old(index) then Err(AlreadyQueued)
                        else if |old(queue)| >= capacity then Err(Limit) else Ok(())
      ensures View(Looping) == (if size == 0 || closed then old(View(Resting)).TakeJoin(s, closed)
                                else old(View(Asking(s))).AnswerJoin(eligible))
    {
      if size == 0 { return Err(Denied); }
      if closed { return Err(Closed); }
      if !eligible { return Err(Denied); }
      if s in index { return Err(AlreadyQueued); }
      if |queue| >= capacity { return Err(Limit); }
      sequence := sequence + 1;
      index := index[s := sequence];
      queue := queue[sequence := s];
      result := Ok(());
    }

    method Leave(s: SessionId)
      requires Valid()
      modifies this`queue, this`index
      ensures Valid() && s !in index && View(Looping) == old(View(Resting)).TakeLeave(s)
      ensures forall e :: e in Items(queue) <==> e in Items(old(queue)) && e.s != s
    {
      if s in index {
        queue := queue - {index[s]};
        index := index - {s};
      }
    }

    /** The inner loop: pop the oldest entries, `asked`, and ask about each, until `size` eligible
        ones are in hand. */
    method PopGroup(world: World) returns (players: seq<Entry>, ghost asked: seq<Entry>, ghost lost: set<Entry>)
      requires Valid()
      modifies this`queue, this`index, this`clock
      ensures Valid() && View(Resting).InFlight(players) && |players| <= size
      ensures |players| < size ==> queue == map[]
      ensures clock == old(clock) + |asked| && players == world.Picked(asked, old(clock))
      ensures Items(old(queue)) == Items(queue) + SetOf(asked) && SetOf(asked) == SetOf(players) + lost
      ensures AllFor(world, players, old(clock), clock)
      ensures forall e :: e in lost ==> world.Against(e.s, old(clock), clock)
    {
      hide Queue.Inverse, Queue.InFlight, World.Against, World.For, World.Picked, Items, SetOf;
      NothingLeft();
      NobodyAsked(world, clock);
      players, asked, lost := [], [], {};
      while |players| < size
        invariant Valid() && View(Resting).InFlight(players) && |players| <= size
        invariant clock == old(clock) + |asked| && players == world.Picked(asked, old(clock))
        invariant Items(old(queue)) == Items(queue) + SetOf(asked) && SetOf(asked) == SetOf(players) + lost
        invariant forall e :: e in lost ==> world.Against(e.s, old(clock), clock)
        decreases queue.Keys
      {
        if queue == map[] { break; }
        var head := PopFirst(players);
        var eligible := world.eligible(clock, head.s);
        clock := clock + 1;
        AskedMore(world, players, asked, lost, head, old(clock));
        asked := asked + [head];
        if eligible { players := players + [head]; } else { lost := lost + {head}; }
      }
      AllForPicked(world, asked, old(clock));
    }

    /** `pop_first`, and the entry's removal from the index. */
    method PopFirst(ghost players: seq<Entry>) returns (head: Entry)
      requires Valid() && queue != map[] && View(Resting).InFlight(players)
      modifies this`queue, this`index
      ensures Valid() && View(Resting).InFlight(players) && View(Resting).InFlight(players + [head])
      ensures Items(old(queue)) == Items(queue) + {head} && queue.Keys == old(queue).Keys - {head.key}
      ensures head.key in old(queue)
      ensures |players| < size ==> View(Judging(players, head)) == old(View(Scanning(players))).Draw()
    {
      hide Queue.Inverse, Queue.InFlight;
      var key := First(queue);
      HeadIsTaken(View(Resting), players, key);
      head := Entry(key, queue[key]);
      queue := queue - {key};
      index := index - {head.s};
    }

    method Put(e: Entry)
      requires Valid() && Loose(View(Resting), [e])
      modifies this`queue, this`index
      ensures Valid() && View(Resting) == old(View(Resting)).Put(e)
      ensures Items(queue) == Items(old(queue)) + {e} && queue.Keys == old(queue).Keys + {e.key}
    {
      PutOne(View(Resting), e);
      assert [e][0] == e;
      index := index[e.s := e.key];
      queue := queue[e.key := e.s];
    }

    /** A group that is too small goes back as it was. */
    method Restore(players: seq<Entry>)
      requires Valid() && Loose(View(Resting), players)
      modifies this`queue, this`index
      ensures Valid() && Items(queue) == Items(old(queue)) + SetOf(players)
      ensures queue.Keys == old(queue).Keys + KeysOf(players)
      ensures View(Resting) == old(View(Resting)).PutAll(players)
    {
      hide Queue.Inverse, Loose, Items, SetOf, KeysOf, Queue.Put;
      NothingLeft();
      var rest := players;
      while rest != []
        invariant Valid() && Loose(View(Resting), rest)
        invariant View(Resting).PutAll(rest) == old(View(Resting)).PutAll(players)
        invariant Items(queue) + SetOf(rest) == Items(old(queue)) + SetOf(players)
        invariant queue.Keys + KeysOf(rest) == old(queue).Keys + KeysOf(players)
        decreases |rest|
      {
        LooseRest(View(Resting), rest);
        Divide(Items(queue), {}, rest);
        Gather(rest[0], rest[1..]);
        assert [rest[0]] + rest[1..] == rest;
        Put(rest[0]);
        rest := rest[1..];
      }
    }

    method GiveUp(players: seq<Entry>)
      requires Valid() && View(Resting).InFlight(players) && queue == map[]
      modifies this`queue, this`index
      ensures Valid() && Items(queue) == SetOf(players) && |queue| <= |players|
    {
      FlyingIsLoose(View(Resting), players);
      Restore(players);
      KeyCount(players);
      assert queue.Keys == KeysOf(players);
      assert |queue| == |queue.Keys|;
    }

    /** Of a failed group, exactly those go back who are neither disqualified nor closed by now; each
        is looked at in turn. */
    method Requeue(world: World, players: seq<Entry>, disqualified: seq<SessionId>)
        returns (ghost kept: set<Entry>, ghost lost: set<Entry>)
      requires Valid() && Loose(View(Resting), players)
      modifies this`queue, this`index, this`clock
      ensures Valid() && Items(queue) == Items(old(queue)) + kept && SetOf(players) == kept + lost
      ensures clock == old(clock) + |players|
      ensures kept == set i | 0 <= i < |players| && Spares(world, players, disqualified, old(clock), i) :: players[i]
      ensures lost == set i | 0 <= i < |players| && !Spares(world, players, disqualified, old(clock), i) :: players[i]
    {
      hide Queue.Inverse, Loose, Items, SetOf, Spares;
      NothingLeft();
      kept, lost := {}, {};
      ghost var i := 0;
      var rest := players;
      while rest != []
        invariant i <= |players| && rest == players[i..] && clock == old(clock) + i
        invariant Valid() && Loose(View(Resting), rest)
        invariant Items(queue) == Items(old(queue)) + kept
        invariant SetOf(players) == kept + lost + SetOf(rest)
        invariant kept == set j | 0 <= j < i && Spares(world, players, disqualified, old(clock), j) :: players[j]
        invariant lost == set j | 0 <= j < i && !Spares(world, players, disqualified, old(clock), j) :: players[j]
        decreases |rest|
      {
        var again := Reconsider(world, rest, disqualified);
        SparesIs(world, players, disqualified, old(clock), i);
        Divide(kept, lost, rest);
        if again { kept := kept + {rest[0]}; } else { lost := lost + {rest[0]}; }
        rest := rest[1..];
        i := i + 1;
      }
    }

    method Reconsider(world: World, players: seq<Entry>, disqualified: seq<SessionId>) returns (again: bool)
      requires Valid() && players != [] && Loose(View(Resting), players)
      modifies this`queue, this`index, this`clock
      ensures Valid() && Loose(View(Resting), players[1..]) && clock == old(clock) + 1
      ensures Items(queue) == Items(old(queue)) + (if again then {players[0]} else {})
      ensures again <==> players[0].s !in disqualified && !world.closed(old(clock), players[0].s)
    {
      LooseRest(View(Resting), players);
      var closed := world.closed(clock, players[0].s);
      clock := clock + 1;
      again := players[0].s !in disqualified && !closed;
      if again {
        Put(players[0]);
      } else {
        assert forall i :: 0 <= i < |players| - 1 ==> players[1..][i] == players[i + 1];
      }
    }

    /** A full group is submitted: it leaves for good with a notice, or it is disqualified in part;
        then whoever is not, and is open, is back, and nobody else of it. */
    method Decide(world: World, players: seq<Entry>) returns (notice: Option<Notice>, ghost lost: set<Entry>)
      requires Valid() && world.Fair() && View(Resting).InFlight(players) && players != []
      modifies this`queue, this`index, this`clock
      ensures Valid() && Items(old(queue)) + SetOf(players) == Items(queue) + GroupOf(notice) + lost
      ensures old(clock) < clock && forall e :: e in lost ==> world.Against(e.s, old(clock), clock)
      ensures exists e :: e in players && e !in Items(queue)
      ensures var reply := world.outcome(old(clock), Players(players));
              if !Requeues(reply) then notice == Some(Notice(players, reply)) && queue == old(queue)
              else notice == None && forall i :: 0 <= i < |players| ==>
                     (players[i] in Items(queue) <==> Spares(world, players, reply.disqualified, old(clock) + 1, i))
    {
      hide World.Against, Spares, Items, SetOf, Loose, Queue.Inverse, Queue.InFlight;
      FlyingIsLoose(View(Resting), players);
      FlyingApart(View(Resting), players);
      ghost var items := Items(queue);
      lost := {};
      var reply := world.outcome(clock, Players(players));
      clock := clock + 1;
      if !Requeues(reply) {
        notice := Some(Notice(players, reply));
        assert players[0] in players;
        return;
      }
      ghost var out := Disqualified(players, reply.disqualified);
      ghost var kept;
      kept, lost := Requeue(world, players, reply.disqualified);
      SparedOrAgainst(world, players, old(clock), clock);
      KeptExactly(world, players, reply.disqualified, old(clock) + 1, items, kept, out);
      notice := None;
    }

    /** One pass of the outer loop; `again` tells whether it goes on. */
    method Round(world: World) returns (notice: Option<Notice>, ghost lost: set<Entry>, again: bool)
      requires Valid() && world.Fair() && 0 < size <= |queue|
      modifies this`queue, this`index, this`clock
      ensures Valid() && Items(old(queue)) == Items(queue) + GroupOf(notice) + lost && old(clock) <= clock
      ensures forall e :: e in lost ==> world.Against(e.s, old(clock), clock)
      ensures notice.Some? ==>
                && |notice.value.group| == size && FairNotice(world, notice.value, old(clock), clock)
                && forall e, k :: e in notice.value.group && k in queue ==> e.key < k
      ensures if again then queue.Keys < old(queue).Keys else |queue| < size
    {
      hide Queue.Inverse, Queue.InFlight, World.Against, World.For, AllFor, Spares, Items, SetOf, GroupOf, FairNotice;
      NothingLeft();
      var players;
      ghost var asked, passed;
      players, asked, passed := PopGroup(world);
      ghost var popped := clock;
      FlyingFirst(View(Resting), players);
      if |players| < size {
        GiveUp(players);
        GroupIs(None);
        return None, passed, false;
      }
      ghost var (middle, dropped) := (Items(queue), {});
      notice, dropped := Decide(world, players);
      PassedOn(Items(old(queue)), middle, Items(queue), SetOf(asked), SetOf(players), passed, GroupOf(notice), dropped);
      ghost var out :| out in players && out !in Items(queue);
      InGroup(players, out);
      Shrinks(old(queue), queue, out);
      AllLongerAgainst(world, passed, old(clock), popped, old(clock), clock);
      AllLongerAgainst(world, dropped, popped, clock, old(clock), clock);
      Answered(world, players, old(clock), popped, clock);
      GroupIs(notice);
      lost, again := passed + dropped, true;
    }

    /** The matching loop after a command. When it ends no full group of entries is left;
        nobody was added, renumbered or overtaken; whoever is gone was in a group that was
        settled after everybody in it had been called eligible, or somebody spoke against it; and all
        that since the loop began. */
    method Match(world: World) returns (notices: seq<Notice>, ghost lost: set<Entry>)
      requires Valid() && world.Fair()
      modifies this`queue, this`index, this`clock
      ensures Valid() && (size > 0 ==> |queue| < size) && old(clock) <= clock
      ensures Items(old(queue)) == Items(queue) + Told(notices) + lost
      ensures forall e :: e in lost ==> world.Against(e.s, old(clock), clock)
      ensures forall e, k :: e in Told(notices) && k in queue ==> e.key < k
      ensures forall n :: n in notices ==> |n.group| == size && FairNotice(world, n, old(clock), clock)
    {
      hide World.Against, World.For, FairNotice;
      notices, lost := [], {};
      while size > 0 && |queue| >= size
        invariant Valid() && old(clock) <= clock
        invariant Items(old(queue)) == Items(queue) + Told(notices) + lost
        invariant forall e :: e in lost ==> world.Against(e.s, old(clock), clock)
        invariant forall e, k :: e in Told(notices) && k in queue ==> e.key < k
        invariant forall n :: n in notices ==> |n.group| == size && FairNotice(world, n, old(clock), clock)
        decreases queue.Keys
      {
        ghost var (queued, before) := (Items(queue), clock);
        var notice, again;
        ghost var passed;
        notice, passed, again := Round(world);
        SameKeys(queued, queue);
        Regroup(Items(old(queue)), queued, Told(notices), lost, Items(queue), GroupOf(notice), passed);
        ToldMore(notices, notice);
        AllLongerAgainst(world, lost, old(clock), before, old(clock), clock);
        AllLongerAgainst(world, passed, before, clock, old(clock), clock);
        lost := lost + passed;
        forall n | n in notices ensures FairNotice(world, n, old(clock), clock) {
          LongerFair(world, n, old(clock), before, old(clock), clock);
        }
        if notice.Some? {
          LongerFair(world, notice.value, before, clock, old(clock), clock);
          notices := notices + [notice.value];
        }
        assert Items(old(queue)) == Items(queue) + Told(notices) + lost;
        if !again { break; }
      }
    }
  }
}
