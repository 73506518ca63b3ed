/** The room manager (src/actors/room_manager.rs): which rooms exist, who is recorded in them,
    and the per-session index of the same facts. */
module RoomManagers {
  import opened Types

  type TaskId = nat
  type Link = (SessionId, RoomId)

  function RoomsIn(links: set<Link>, s: SessionId): (rooms: set<RoomId>)
    ensures forall r :: r in rooms <==> (s, r) in links
  {
    set p | p in links && p.0 == s :: p.1
  }

  function MembersIn(links: set<Link>, r: RoomId): (members: set<SessionId>)
    ensures forall s :: s in members <==> (s, r) in links
  {
    set p | p in links && p.1 == r :: p.0
  }

  function Everyone(clients: seq<SessionId>): set<SessionId> { set s | s in clients }

  function LinksOf(who: set<SessionId>, r: RoomId): set<Link> { set s | s in who :: (s, r) }

  /** What the manager knows: the rooms that exist and who is a member of which. The object
      below keeps the second fact twice, once per room and once per session. */
  datatype Ledger = Ledger(nextId: nat, open: set<RoomId>, links: set<Link>, tasks: map<TaskId, RoomId>)
  {
    function RoomsOf(s: SessionId): set<RoomId> { RoomsIn(links, s) }

    function MembersOf(r: RoomId): set<SessionId> { MembersIn(links, r) }

    function Spawned(r: RoomId, task: TaskId): Ledger {
      this.(open := open + {r}, tasks := tasks[task := r])
    }

    function GrantAll(who: set<SessionId>, r: RoomId): Ledger { this.(links := links + LinksOf(who, r)) }

    function Grant(s: SessionId, r: RoomId): Ledger { this.(links := links + {(s, r)}) }

    /** `remove_room` */
    function Erase(r: RoomId): Ledger {
      this.(open := open - {r}, links := set p | p in links && p.1 != r)
    }

    /** `leave`, once the room has answered. */
    function Revoke(s: SessionId, r: RoomId): Ledger {
      var rest := links - {(s, r)};
      this.(links := rest, open := if r != GLOBAL_ROOM && MembersIn(rest, r) == {} then open - {r} else open)
    }

    /** Leaving every room of `some`. */
    function RevokeAll(s: SessionId, some: set<RoomId>): Ledger {
      var rest := set p | p in links && !(p.0 == s && p.1 in some);
      this.(links := rest, open := set r | r in open && (r in some && r != GLOBAL_ROOM ==> MembersIn(rest, r) != {}))
    }

    /** How `join` begins: refused, already a member, or the room has to be asked (`None`). */
    function Entry(limit: nat, s: SessionId, r: RoomId, closed: bool): Option<Result<()>> {
      if closed then Some(Err(Closed))
      else if r in RoomsOf(s) then Some(Ok(()))
      else if RoomsOf(s) != {} && |RoomsOf(s)| >= limit then Some(Err(Limit))
      else if r !in open then Some(Err(RoomNotFound))
      else None
    }

    /** The checks with which `create` begins. */
    predicate Allows(config: Config, clients: seq<SessionId>, capacity: nat) {
      0 < |clients| <= capacity <= config.maxRoomPlayers && |open| < config.maxRooms && nextId < U64_MAX
    }

    predicate EligibleFor(s: SessionId, closed: bool) {
      !closed && RoomsOf(s) == {GLOBAL_ROOM}
    }

    /** Members are members of rooms that exist; rooms and sessions keep to the limits; every
        game room but those being set up has somebody in it. */
    ghost predicate Bounded(config: Config, setup: set<RoomId>) {
      && (forall p :: p in links ==> p.1 in open)
      && |open| <= config.maxRooms
      && (forall s :: |RoomsIn(links, s)| <= config.maxRoomsPerSession)
      && (forall r :: r in open && r != GLOBAL_ROOM && r !in setup ==> MembersIn(links, r) != {})
    }

    /** Each room was spawned by one task of its own, under an id never given out before. */
    ghost predicate Numbered() {
      && GLOBAL_ROOM < nextId <= U64_MAX
      && (forall r :: r in open ==> r < nextId)
      && (forall t :: t in tasks ==> tasks[t] < nextId)
      && (forall t, u :: t in tasks && u in tasks && tasks[t] == tasks[u] ==> t == u)
      && (forall r :: r in open ==> exists t :: t in tasks && tasks[t] == r)
    }

    ghost predicate Inv(config: Config) {
      Bounded(config, {}) && Numbered()
    }
  }

  // ----- the invariant and the exactness of rolling back -----------------------------

  lemma OneLinkTaken(links: set<Link>, s: SessionId, r: RoomId)
    ensures forall x :: RoomsIn(links - {(s, r)}, x) == if x == s then RoomsIn(links, x) - {r} else RoomsIn(links, x)
    ensures forall q :: MembersIn(links - {(s, r)}, q) == if q == r then MembersIn(links, q) - {s}
            else MembersIn(links, q)
  {
  }

  lemma LinkCounts(links: set<Link>, p: Link)
    requires p in links
    ensures p.0 in MembersIn(links, p.1) && p.1 in RoomsIn(links, p.0)
  {
  }

  lemma OtherRoomsKept(m: Ledger, r: RoomId)
    ensures forall q :: q != r ==> MembersIn(m.Erase(r).links, q) == MembersIn(m.links, q)
  {
  }

  lemma FewerNumbered(m: Ledger, n: Ledger)
    requires m.Numbered() && n.open <= m.open && n.nextId == m.nextId && n.tasks == m.tasks
    ensures n.Numbered()
  {
  }

  lemma FewerRooms(links: set<Link>, more: set<Link>, limit: nat)
    requires links <= more
    requires forall s :: |RoomsIn(more, s)| <= limit
    ensures forall s :: |RoomsIn(links, s)| <= limit
  {
    forall s ensures |RoomsIn(links, s)| <= limit {
      SubsetSize(RoomsIn(links, s), RoomsIn(more, s));
    }
  }

  lemma GrantedRooms(links: set<Link>, who: set<SessionId>, r: RoomId)
    ensures forall s :: RoomsIn(links + LinksOf(who, r), s) == if s in who then RoomsIn(links, s) + {r}
            else RoomsIn(links, s)
    ensures forall q :: MembersIn(links + LinksOf(who, r), q) == if q == r then MembersIn(links, q) + who
            else MembersIn(links, q)
  {
    forall s
      ensures RoomsIn(links + LinksOf(who, r), s) == if s in who then RoomsIn(links, s) + {r} else RoomsIn(links, s)
    {
    }
    forall q
      ensures MembersIn(links + LinksOf(who, r), q) == if q == r then MembersIn(links, q) + who else MembersIn(links, q)
    {
    }
  }

  lemma GrantAllKeeps(m: Ledger, config: Config, setup: set<RoomId>, who: set<SessionId>, r: RoomId)
    requires m.Bounded(config, setup) && r in m.open
    requires forall s :: s in who ==> |m.RoomsOf(s)| < config.maxRoomsPerSession
    ensures m.GrantAll(who, r).Bounded(config, if who == {} then setup else setup - {r})
  {
    GrantedRooms(m.links, who, r);
    forall s ensures |RoomsIn(m.GrantAll(who, r).links, s)| <= config.maxRoomsPerSession {
      assert |m.RoomsOf(s)| <= config.maxRoomsPerSession;
      assert s in who ==> |m.RoomsOf(s)| < config.maxRoomsPerSession;
    }
  }

  lemma GrantOne(m: Ledger, s: SessionId, r: RoomId)
    ensures m.Grant(s, r) == m.GrantAll({s}, r)
  {
    assert LinksOf({s}, r) == {(s, r)};
  }

  lemma GrantAgain(m: Ledger, s: SessionId, r: RoomId)
    requires r in m.RoomsOf(s)
    ensures m.Grant(s, r) == m
  {
    assert m.links + {(s, r)} == m.links;
  }

  lemma GrantKeeps(m: Ledger, config: Config, s: SessionId, r: RoomId)
    requires m.Inv(config) && r in m.open && |m.RoomsOf(s)| < config.maxRoomsPerSession
    ensures m.Grant(s, r).Inv(config)
  {
    GrantOne(m, s, r);
    GrantAllKeeps(m, config, {}, {s}, r);
    assert {} - {r} == {};
  }

  lemma EraseKeeps(m: Ledger, config: Config, setup: set<RoomId>, r: RoomId)
    requires m.Bounded(config, setup) && m.Numbered()
    ensures m.Erase(r).Bounded(config, setup - {r}) && m.Erase(r).Numbered()
  {
    hide Ledger.Numbered, RoomsIn, MembersIn;
    var n := m.Erase(r);
    FewerNumbered(m, n);
    FewerRooms(n.links, m.links, config.maxRoomsPerSession);
    SubsetSize(n.open, m.open);
    OtherRoomsKept(m, r);
  }

  lemma RevokeKeeps(m: Ledger, config: Config, s: SessionId, r: RoomId)
    requires m.Inv(config)
    ensures m.Revoke(s, r).Inv(config)
  {
    hide Ledger.Numbered, RoomsIn, MembersIn;
    var n := m.Revoke(s, r);
    FewerNumbered(m, n);
    FewerRooms(n.links, m.links, config.maxRoomsPerSession);
    SubsetSize(n.open, m.open);
    OneLinkTaken(m.links, s, r);
    forall p | p in n.links ensures p.1 in n.open { LinkCounts(n.links, p); }
  }

  lemma RevokeAllKeeps(m: Ledger, config: Config, s: SessionId, some: set<RoomId>)
    requires m.Inv(config)
    ensures m.RevokeAll(s, some).Inv(config)
  {
    hide Ledger.Numbered, RoomsIn;
    var n := m.RevokeAll(s, some);
    FewerNumbered(m, n);
    FewerRooms(n.links, m.links, config.maxRoomsPerSession);
    SubsetSize(n.open, m.open);
    forall q | q !in some ensures MembersIn(n.links, q) == MembersIn(m.links, q) {
    }
    forall p | p in n.links ensures p.1 in n.open { LinkCounts(n.links, p); }
  }

  /** Rolling back a creation, however far it got, is exact. */
  lemma CreationRollsBack(m: Ledger, r: RoomId, task: TaskId, who: set<SessionId>)
    requires r !in m.open && forall p :: p in m.links ==> p.1 in m.open
    ensures m.Spawned(r, task).GrantAll(who, r).Erase(r) == m.(tasks := m.tasks[task := r])
  {
    var n := m.Spawned(r, task).GrantAll(who, r).Erase(r);
    assert n.open == m.open;
    assert n.links == m.links;
  }

  /** Taking back a membership just granted in a room that had somebody in it is exact. */
  lemma GrantRollsBack(m: Ledger, s: SessionId, r: RoomId)
    requires (s, r) !in m.links && r in m.open && (r == GLOBAL_ROOM || m.MembersOf(r) != {})
    ensures m.Grant(s, r).Revoke(s, r) == m
  {
    assert m.links + {(s, r)} - {(s, r)} == m.links;
  }

  lemma RevokeAllGrows(m: Ledger, s: SessionId, some: set<RoomId>, r: RoomId)
    ensures m.RevokeAll(s, some).Revoke(s, r) == m.RevokeAll(s, some + {r})
  {
    var a, b := m.RevokeAll(s, some).Revoke(s, r), m.RevokeAll(s, some + {r});
    assert a.links == b.links;
    forall q | q != r ensures MembersIn(m.RevokeAll(s, some).links, q) == MembersIn(b.links, q) {
    }
    assert MembersIn(m.RevokeAll(s, some).links, r) >= MembersIn(b.links, r);
    assert a.open == b.open;
  }

  lemma RevokeNone(m: Ledger, s: SessionId)
    ensures m.RevokeAll(s, {}) == m
  {
    assert m.RevokeAll(s, {}).links == m.links;
    assert m.RevokeAll(s, {}).open == m.open;
  }

  /** After a disconnect the session is a member of nothing; nobody else moved. */
  lemma Evicted(m: Ledger, s: SessionId)
    ensures var n := m.RevokeAll(s, m.RoomsOf(s));
            && n.RoomsOf(s) == {}
            && (forall r :: n.MembersOf(r) == m.MembersOf(r) - {s})
            && (forall x :: x != s ==> n.RoomsOf(x) == m.RoomsOf(x))
  {
    var n := m.RevokeAll(s, m.RoomsOf(s));
    forall r ensures n.MembersOf(r) == m.MembersOf(r) - {s} {
    }
    forall x | x != s ensures n.RoomsOf(x) == m.RoomsOf(x) {
    }
  }

  /** The id just taken, and a room spawned under it. */
  function Prepared(m: Ledger, task: TaskId): Ledger {
    m.(nextId := m.nextId + 1).Spawned(m.nextId, task)
  }

  /** The manager after a creation that went through. */
  function Created(m: Ledger, clients: seq<SessionId>, task: TaskId): Ledger {
    Prepared(m, task).GrantAll(Everyone(clients), m.nextId)
  }

  predicate CanSpawn(m: Ledger, config: Config, task: TaskId) {
    m.nextId < U64_MAX && task !in m.tasks && |m.open| < config.maxRooms
  }

  lemma PreparedKeeps(m: Ledger, config: Config, task: TaskId)
    requires m.Inv(config) && CanSpawn(m, config, task)
    ensures Prepared(m, task).Bounded(config, {m.nextId}) && Prepared(m, task).Numbered()
    ensures m.nextId !in m.open
  {
    hide RoomsIn, MembersIn, Ledger.Numbered;
    NumberedOn(m, task);
  }

  lemma NumberedOn(m: Ledger, task: TaskId)
    requires m.Numbered() && m.nextId < U64_MAX && task !in m.tasks
    ensures Prepared(m, task).Numbered() && m.nextId !in m.open
  {
    var n := Prepared(m, task);
    assert n.tasks[task] == m.nextId;
    forall r | r in n.open ensures exists t :: t in n.tasks && n.tasks[t] == r {
      if r in m.open {
        var t :| t in m.tasks && m.tasks[t] == r;
        assert t in n.tasks && n.tasks[t] == r;
      } else {
        assert task in n.tasks && n.tasks[task] == r;
      }
    }
  }

  /** A creation keeps the invariant whether it is kept or rolled back. */
  lemma CreationKeeps(m: Ledger, config: Config, task: TaskId, who: set<SessionId>)
    requires m.Inv(config) && CanSpawn(m, config, task)
    requires forall s :: s in who ==> |m.RoomsOf(s)| < config.maxRoomsPerSession
    ensures var n := Prepared(m, task).GrantAll(who, m.nextId);
            && n.Bounded(config, if who == {} then {m.nextId} else {}) && n.Numbered()
            && n.Erase(m.nextId) == m.(nextId := m.nextId + 1, tasks := m.tasks[task := m.nextId])
            && n.Erase(m.nextId).Inv(config)
  {
    PreparedKeeps(m, config, task);
    GrantAllKeeps(Prepared(m, task), config, {m.nextId}, who, m.nextId);
    CreationRollsBack(m.(nextId := m.nextId + 1), m.nextId, task, who);
    EraseKeeps(Prepared(m, task).GrantAll(who, m.nextId), config, {m.nextId}, m.nextId);
    assert {m.nextId} - {m.nextId} == {};
  }

  /** `after` is `before` with one room more, recording exactly the group, and with nobody
      outside the group moved. */
  ghost predicate MatchCommitted(before: Ledger, after: Ledger, group: seq<SessionId>, r: RoomId) {
    && r !in before.open && after.open == before.open + {r}
    && after.MembersOf(r) == Everyone(group)
    && (forall q :: q != r ==> after.MembersOf(q) == before.MembersOf(q))
    && (forall s :: s in group ==> before.RoomsOf(s) == {GLOBAL_ROOM} && after.RoomsOf(s) == {GLOBAL_ROOM, r})
    && (forall s :: s !in group ==> after.RoomsOf(s) == before.RoomsOf(s))
  }

  lemma NobodyOutside(m: Ledger, r: RoomId)
    requires (forall p :: p in m.links ==> p.1 in m.open) && r !in m.open
    ensures m.MembersOf(r) == {}
  {
    forall s ensures s !in m.MembersOf(r) {
      var p := (s, r);
      assert p in m.links ==> p.1 in m.open;
    }
  }

  lemma CreatedLooks(m: Ledger, group: seq<SessionId>, task: TaskId)
    ensures var n := Created(m, group, task);
            && (forall s :: n.RoomsOf(s) == if s in group then m.RoomsOf(s) + {m.nextId} else m.RoomsOf(s))
            && (forall q :: n.MembersOf(q) == if q == m.nextId then m.MembersOf(q) + Everyone(group)
                 else m.MembersOf(q))
            && n.open == m.open + {m.nextId}
  {
    GrantedRooms(m.links, Everyone(group), m.nextId);
  }

  lemma MatchIsExact(m: Ledger, group: seq<SessionId>, task: TaskId)
    requires (forall p :: p in m.links ==> p.1 in m.open) && m.nextId !in m.open
    requires forall s :: s in group ==> m.RoomsOf(s) == {GLOBAL_ROOM}
    ensures MatchCommitted(m, Created(m, group, task), group, m.nextId)
  {
    CreatedLooks(m, group, task);
    NobodyOutside(m, m.nextId);
    assert {} + Everyone(group) == Everyone(group);
  }

  lemma LinksStayOpen(m: Ledger, config: Config)
    requires m.Inv(config)
    ensures (forall p :: p in m.links ==> p.1 in m.open) && m.nextId !in m.open
  {
  }

  lemma ReapKeeps(m: Ledger, config: Config, task: TaskId)
    requires m.Inv(config) && task in m.tasks
    ensures m.Erase(m.tasks[task]).(tasks := m.tasks - {task}).Inv(config)
  {
    var r := m.tasks[task];
    EraseKeeps(m, config, {}, r);
    assert {} - {r} == {};
    var b := m.Erase(r).(tasks := m.tasks - {task});
    forall q | q in b.open ensures exists t :: t in b.tasks && b.tasks[t] == q {
      var t :| t in m.tasks && m.tasks[t] == q;
      assert t in b.tasks && b.tasks[t] == q;
    }
  }

  // ----- the two copies --------------------------------------------------------------

  type Index = map<SessionId, set<RoomId>>
  type Records = map<RoomId, set<SessionId>>

  /** The records and the index both say exactly `links`; no index entry is empty. */
  ghost predicate Agree(rooms: Records, index: Index, links: set<Link>) {
    && (forall r :: r in rooms ==> rooms[r] == MembersIn(links, r))
    && (forall s :: s in index ==> index[s] == RoomsIn(links, s) && index[s] != {})
    && (forall p :: p in links ==> p.0 in index && p.1 in rooms)
  }

  /** Agreeing copies are determined by what they agree on. */
  lemma OneReading(rooms: Records, index: Index, rooms2: Records, index2: Index, links: set<Link>)
    requires Agree(rooms, index, links) && Agree(rooms2, index2, links) && rooms.Keys == rooms2.Keys
    ensures rooms == rooms2 && index == index2
  {
    forall s ensures s in index <==> s in index2 {
      if s in index {
        var r :| r in index[s];
        assert (s, r) in links;
      }
      if s in index2 {
        var r :| r in index2[s];
        assert (s, r) in links;
      }
    }
  }

  /** And they can agree on one thing only. */
  lemma OneRelation(rooms: Records, index: Index, links: set<Link>, links2: set<Link>)
    requires Agree(rooms, index, links) && Agree(rooms, index, links2)
    ensures links == links2
  {
    forall p ensures p in links <==> p in links2 {
      assert p in links ==> p.1 in rooms && p.0 in MembersIn(links, p.1);
      assert p in links2 ==> p.1 in rooms && p.0 in MembersIn(links2, p.1);
    }
  }

  /** The two copies agree both ways: the index lists a room iff its record lists the session. */
  lemma IndexIsInverse(rooms: Records, index: Index, links: set<Link>)
    requires Agree(rooms, index, links)
    ensures forall s, r :: (s in index && r in index[s]) <==> (r in rooms && s in rooms[r])
  {
    forall s, r ensures (s in index && r in index[s]) <==> (r in rooms && s in rooms[r]) {
      var p := (s, r);
      assert p in links ==> p.0 in index && p.1 in rooms;
    }
  }

  lemma AgreeOnGrant(rooms: Records, index: Index, links: set<Link>, s: SessionId, r: RoomId)
    requires Agree(rooms, index, links) && r in rooms
    ensures Agree(rooms[r := rooms[r] + {s}], Listing(index, s, r), links + {(s, r)})
  {
    hide RoomsIn, MembersIn;
    OneLinkPut(links, s, r);
    Listed(rooms, index, links, s);
  }

  lemma OneLinkPut(links: set<Link>, s: SessionId, r: RoomId)
    ensures forall x :: RoomsIn(links + {(s, r)}, x) == if x == s then RoomsIn(links, x) + {r} else RoomsIn(links, x)
    ensures forall q :: MembersIn(links + {(s, r)}, q) == if q == r then MembersIn(links, q) + {s}
            else MembersIn(links, q)
  {
  }

  /** A record lists the members of its room. */
  lemma RecordReads(rooms: Records, index: Index, links: set<Link>, r: RoomId)
    requires Agree(rooms, index, links)
    ensures r in rooms ==> rooms[r] == MembersIn(links, r)
  {
  }

  /** `insert` on an entry of the index, made if missing. */
  function Listing(index: Index, s: SessionId, r: RoomId): Index {
    index[s := (if s in index then index[s] else {}) + {r}]
  }

  lemma Listed(rooms: Records, index: Index, links: set<Link>, s: SessionId)
    requires Agree(rooms, index, links)
    ensures s in index <==> RoomsIn(links, s) != {}
    ensures s in index ==> index[s] == RoomsIn(links, s)
  {
    if r :| r in RoomsIn(links, s) { assert (s, r) in links; }
  }

  lemma AgreeWithoutEmpty(rooms: Records, index: Index, links: set<Link>, r: RoomId)
    requires Agree(rooms[r := {}], index, links) && r !in rooms
    ensures Agree(rooms, index, links)
  {
    var full := rooms[r := {}];
    assert full[r] == MembersIn(links, r);
    forall p | p in links ensures p.1 in rooms {
      assert p.0 !in MembersIn(links, r);
    }
    forall q | q in rooms ensures rooms[q] == MembersIn(links, q) {
      assert full[q] == rooms[q];
    }
  }

  /** Taking one link out of the index and, if the room is still recorded, out of its record. */
  lemma AgreeOnUnlink(rooms: Records, index: Index, links: set<Link>, s: SessionId, r: RoomId)
    requires Agree(rooms, index, links)
    ensures Agree(if r in rooms then rooms[r := rooms[r] - {s}] else rooms, Unlisted(index, s, r), links - {(s, r)})
  {
    hide RoomsIn, MembersIn;
    OneLinkTaken(links, s, r);
    forall p | p in links - {(s, r)} ensures p.0 in Unlisted(index, s, r) {
      LinkCounts(links, p);
      if p.0 == s { assert p.1 in index[s] - {r}; }
    }
  }

  /** `remove` on an entry of the index, dropping it when that empties it. */
  function Unlisted(index: Index, s: SessionId, r: RoomId): Index {
    if s !in index then index
    else if index[s] - {r} == {} then index - {s}
    else index[s := index[s] - {r}]
  }

  lemma OneLinkMore(links: set<Link>, told: set<SessionId>, s: SessionId, r: RoomId)
    ensures links - LinksOf(told, r) - {(s, r)} == links - LinksOf(told + {s}, r)
  {
  }

  lemma WholeRoomGone(links: set<Link>, r: RoomId)
    ensures links - LinksOf(MembersIn(links, r), r) == (set p | p in links && p.1 != r)
  {
  }

  lemma OneMore(clients: seq<SessionId>, i: nat)
    requires i < |clients|
    ensures Everyone(clients[..i + 1]) == Everyone(clients[..i]) + {clients[i]}
  {
    assert clients[..i + 1] == clients[..i] + [clients[i]];
  }

  lemma GrantNobody(m: Ledger, task: TaskId)
    ensures Prepared(m, task).GrantAll({}, m.nextId) == Prepared(m, task)
  {
    assert LinksOf({}, m.nextId) == {};
  }

  lemma UnfitAreOfIt(m: Ledger, group: seq<SessionId>, closed: seq<bool>, found: seq<SessionId>)
    requires |closed| == |group| && Unfit(m, group, closed, found)
    ensures forall s :: s in found ==> s in group
  {
  }

  lemma GrantMore(m: Ledger, task: TaskId, who: set<SessionId>, s: SessionId)
    requires m.nextId !in m.open && forall p :: p in m.links ==> p.1 in m.open
    ensures Prepared(m, task).GrantAll(who, m.nextId).Grant(s, m.nextId)
            == Prepared(m, task).GrantAll(who + {s}, m.nextId)
    ensures var n := Prepared(m, task).GrantAll(who, m.nextId);
            && (m.nextId in n.RoomsOf(s) <==> s in who)
            && (s !in who ==> n.RoomsOf(s) == m.RoomsOf(s))
  {
    var n := Prepared(m, task).GrantAll(who, m.nextId);
    assert n.links + {(s, m.nextId)} == Prepared(m, task).GrantAll(who + {s}, m.nextId).links;
    NobodyOutside(m, m.nextId);
    GrantedRooms(m.links, who, m.nextId);
    assert n.RoomsOf(s) == RoomsIn(m.links + LinksOf(who, m.nextId), s);
  }

  lemma UndoneCreation(m: Ledger, config: Config, clients: seq<SessionId>, task: TaskId)
    requires m.nextId !in m.open && forall p :: p in m.links ==> p.1 in m.open
    requires Created(m, clients, task).Inv(config)
    ensures var n := Created(m, clients, task).Erase(m.nextId);
            n.Inv(config) && n.links == m.links && n.open == m.open
  {
    CreationRollsBack(m.(nextId := m.nextId + 1), m.nextId, task, Everyone(clients));
    EraseKeeps(Created(m, clients, task), config, {}, m.nextId);
  }

  lemma MoveOne(done: set<RoomId>, todo: set<RoomId>, r: RoomId)
    requires r in todo
    ensures done + {r} + (todo - {r}) == done + todo
  {
  }

  /** The new room takes the client in: it is open, and was taken in before or has not reached its
      limit and is welcome. */
  ghost predicate Agrees(m: Ledger, config: Config, clients: seq<SessionId>, asked: seq<Asked>, i: nat)
    requires |asked| == |clients|
  {
    i < |clients| ==>
      && !asked[i].closed
      && (clients[i] in clients[..i] || (asked[i].answer.Ok? && |m.RoomsOf(clients[i])| < config.maxRoomsPerSession))
  }

  ghost predicate AllAgree(m: Ledger, config: Config, clients: seq<SessionId>, asked: seq<Asked>)
    requires |asked| == |clients|
  {
    forall i :: 0 <= i < |clients| ==> Agrees(m, config, clients, asked, i)
  }

  /** These are those of the group that are closed, or are not in the global room and in no other. */
  ghost predicate Unfit(m: Ledger, group: seq<SessionId>, closed: seq<bool>, found: seq<SessionId>)
    requires |closed| == |group|
  {
    forall s :: s in found <==>
      exists i :: 0 <= i < |group| && group[i] == s && (closed[i] || m.RoomsOf(s) != {GLOBAL_ROOM})
  }

  ghost predicate AllEligible(m: Ledger, clients: seq<SessionId>, closed: seq<bool>)
    requires |closed| == |clients|
  {
    forall i :: 0 <= i < |clients| ==> m.EligibleFor(clients[i], closed[i])
  }

  /** An eligible client is in the global room alone, so no limit per session can stop it. */
  lemma EligibleGroup(m: Ledger, config: Config, clients: seq<SessionId>, closed: seq<bool>, asked: seq<Asked>)
    requires config.Accepted() && |closed| == |clients| && |asked| == |clients|
    requires AllEligible(m, clients, closed)
    ensures forall s :: s in clients ==> m.RoomsOf(s) == {GLOBAL_ROOM}
    ensures (forall i :: 0 <= i < |clients| ==> !asked[i].closed && asked[i].answer.Ok?) ==>
            AllAgree(m, config, clients, asked)
  {
    forall i | 0 <= i < |clients| ensures m.RoomsOf(clients[i]) == {GLOBAL_ROOM} {
      assert m.EligibleFor(clients[i], closed[i]);
    }
  }

  /** What may come of a group that the matchmaker submits: the match exactly, or nobody moves
      and exactly those of the group are disqualified that are not eligible. */
  ghost predicate MatchOutcome(before: Ledger, after: Ledger, group: seq<SessionId>, closed: seq<bool>,
                               reply: MatchReply)
    requires |closed| == |group|
  {
    match reply
    case Matched(r) => r == before.nextId && MatchCommitted(before, after, group, r)
    case Failed(_, disqualified) =>
      after.open == before.open && after.links == before.links && Unfit(before, group, closed, disqualified)
  }

  // ----- the object ------------------------------------------------------------------

  /** What one `join` meets: whether the client is closed on entry, and what the room answers
      if it is asked. */
  datatype Asked = Asked(closed: bool, answer: Result<()>)

  datatype MatchReply = Matched(room: RoomId) | Failed(error: Error, disqualified: seq<SessionId>)

  class RoomManager {
    const config: Config
    var nextId: nat
    var rooms: Records
    var membership: Index
    var tasks: map<TaskId, RoomId>
    ghost var links: set<Link>

    ghost function View(): Ledger
      reads this
    {
      Ledger(nextId, rooms.Keys, links, tasks)
    }

    ghost predicate Copies()
      reads this
    {
      Agree(rooms, membership, links)
    }

    ghost predicate Valid()
      reads this
    {
      config.Accepted() && Copies() && View().Inv(config)
    }

    /** The manager starts with the global room, spawned by the task `task`. */
    constructor (config: Config, task: TaskId)
      requires config.Accepted()
      ensures Valid() && this.config == config
      ensures View() == Ledger(1, {GLOBAL_ROOM}, {}, map[task := GLOBAL_ROOM])
    {
      this.config := config;
      nextId, rooms, membership, tasks, links := 1, map[GLOBAL_ROOM := {}], map[], map[task := GLOBAL_ROOM], {};
      new;
      assert tasks[task] == GLOBAL_ROOM;
      assert forall s :: RoomsIn({}, s) == {};
    }

    /** `retracted` tells that a Left was published for a route the room may have announced. */
    method Join(s: SessionId, r: RoomId, asked: Asked) returns (result: Result<()>, retracted: bool)
      requires Copies()
      modifies this`rooms, this`membership, this`links
      ensures Copies()
      ensures View() == if result.Ok? then old(View()).Grant(s, r) else old(View())
      ensures result.Err? ==> rooms == old(rooms) && membership == old(membership)
      ensures var known := old(View()).Entry(config.maxRoomsPerSession, s, r, asked.closed);
              && result == (match known case Some(outcome) => outcome case None => asked.answer)
              && (retracted <==> known.None? && asked.answer.Err?)
    {
      retracted := false;
      if asked.closed { return Err(Closed), false; }
      Listed(rooms, membership, links, s);
      if s in membership {
        if r in membership[s] {
          GrantAgain(View(), s, r);
          return Ok(()), false;
        }
        if |membership[s]| >= config.maxRoomsPerSession { return Err(Limit), false; }
      }
      if r !in rooms { return Err(RoomNotFound), false; }
      if asked.answer.Err? { return asked.answer, true; }
      Record(s, r);
      result := asked.answer;
    }

    method Record(s: SessionId, r: RoomId)
      requires Copies() && r in rooms
      modifies this`rooms, this`membership, this`links
      ensures Copies() && View() == old(View()).Grant(s, r)
    {
      AgreeOnGrant(rooms, membership, links, s, r);
      rooms := rooms[r := rooms[r] + {s}];
      membership := Listing(membership, s, r);
      links := links + {(s, r)};
    }

    /** Everybody in `told` is sent Left and ROOM_CLOSED, in any order; if it is the global room
        that is gone, the connection of everybody in it is closed as well. */
    method RemoveRoom(r: RoomId) returns (told: set<SessionId>, closed: set<SessionId>)
      requires Copies()
      modifies this`rooms, this`membership, this`links
      ensures Copies() && View() == old(View()).Erase(r)
      ensures told == old(View()).MembersOf(r) && closed == (if r == GLOBAL_ROOM then told else {})
    {
      hide Agree;
      told, closed := {}, {};
      NobodyUnrecorded(r);
      RecordIs(r);
      if r !in rooms {
        assert View().Erase(r) == View();
        return;
      }
      var members := rooms[r];
      rooms := rooms - {r};
      assert members - told == members && rooms[r := members] == old(rooms);
      while members - told != {}
        invariant told <= members && closed == (if r == GLOBAL_ROOM then told else {})
        invariant rooms == old(rooms) - {r}
        invariant links == old(links) - LinksOf(told, r)
        invariant Agree(rooms[r := members - told], membership, links)
        decreases members - told
      {
        var s :| s in members - told;
        assert members - told - {s} == members - (told + {s});
        OneLinkMore(old(links), told, s, r);
        DropOne(rooms, membership, links, s, r, members - told);
        membership := Unlisted(membership, s, r);
        links := links - {(s, r)};
        told := told + {s};
        if r == GLOBAL_ROOM { closed := closed + {s}; }
      }
      assert members == told + (members - told);
      AgreeWithoutEmpty(rooms, membership, links, r);
      WholeRoomGone(old(links), r);
    }

    lemma DropOne(records: Records, index: Index, pairs: set<Link>, s: SessionId, r: RoomId, left: set<SessionId>)
      requires Agree(records[r := left], index, pairs)
      ensures Agree(records[r := left - {s}], Unlisted(index, s, r), pairs - {(s, r)})
    {
      var all := records[r := left];
      AgreeOnUnlink(all, index, pairs, s, r);
      assert all[r := all[r] - {s}] == records[r := left - {s}];
    }

    lemma RecordIs(r: RoomId)
      requires Copies()
      ensures r in rooms ==> rooms[r] == MembersIn(links, r)
    {
    }

    lemma NobodyUnrecorded(r: RoomId)
      requires Copies()
      ensures r !in rooms ==> MembersIn(links, r) == {} && View().Erase(r).links == links
    {
      if r !in rooms {
        forall s ensures (s, r) !in links {
          var p := (s, r);
          assert p in links ==> p.1 in rooms;
        }
        assert View().Erase(r).links == links;
      }
    }

    method Leave(s: SessionId, r: RoomId)
      requires Copies()
      modifies this`rooms, this`membership, this`links
      ensures Copies() && View() == old(View()).Revoke(s, r)
    {
      hide Agree, RoomsIn, MembersIn, Unlisted;
      ghost var records := if r in rooms then rooms[r := rooms[r] - {s}] else rooms;
      AgreeOnUnlink(rooms, membership, links, s, r);
      RecordReads(records, Unlisted(membership, s, r), links - {(s, r)}, r);
      assert r !in rooms ==> rooms.Keys - {r} == rooms.Keys;
      if r in rooms {
        rooms := rooms[r := rooms[r] - {s}];
        // Here the room is told, and its answer awaited, before the record is looked at again.
        if r != GLOBAL_ROOM && rooms[r] == {} {
          rooms := rooms - {r};     // `remove_room` on a record that lists nobody
          assert rooms[r := {}] == records;
          AgreeWithoutEmpty(rooms, Unlisted(membership, s, r), links - {(s, r)}, r);
        }
      }
      membership := Unlisted(membership, s, r);
      links := links - {(s, r)};
    }

    method NextId()
      requires Valid() && nextId < U64_MAX
      modifies this`nextId
      ensures Valid() && nextId == old(nextId) + 1
    {
      nextId := nextId + 1;
    }

    method Spawn(id: RoomId, task: TaskId, factoryWorks: bool) returns (result: Result<()>)
      requires Copies() && id !in rooms
      modifies this`rooms, this`tasks
      ensures Copies()
      ensures factoryWorks ==> result.Ok? && View() == old(View()).Spawned(id, task)
      ensures !factoryWorks ==> result == Err(Unavailable) && View() == old(View()) && rooms == old(rooms)
    {
      if !factoryWorks { return Err(Unavailable); }
      NobodyUnrecorded(id);
      rooms, tasks := rooms[id := {}], tasks[task := id];
      result := Ok(());
    }

    method Create(clients: seq<SessionId>, capacity: nat, task: TaskId, factoryWorks: bool, asked: seq<Asked>)
      returns (result: Result<RoomId>)
      requires Valid() && task !in tasks && |asked| == |clients|
      modifies this`rooms, this`membership, this`links, this`nextId, this`tasks
      ensures Valid()
      ensures result.Ok? ==> result.value == old(nextId) && View() == Created(old(View()), clients, task)
      ensures result.Err? ==> rooms == old(rooms) && membership == old(membership)
      ensures if !old(View()).Allows(config, clients, capacity) then result == Err(Limit) && View() == old(View())
              else nextId == old(nextId) + 1 && (!factoryWorks ==> result == Err(Unavailable))
      ensures result.Ok? <==>
                && old(View()).Allows(config, clients, capacity) && factoryWorks
                && AllAgree(old(View()), config, clients, asked)
    {
      assert |rooms.Keys| == |rooms|;
      if capacity == 0 || capacity > config.maxRoomPlayers || clients == [] || |clients| > capacity {
        return Err(Limit);
      }
      if |rooms| >= config.maxRooms { return Err(Limit); }
      var id := nextId;
      if id >= U64_MAX { return Err(Limit); }
      NextId();
      var spawned := Spawn(id, task, factoryWorks);
      if spawned.Err? { return Err(spawned.error); }
      result := Populate(clients, id, task, asked, old(View()), old(rooms), old(membership));
    }

    /** `m` is the manager before the creation took its id and spawned its room. */
    method Populate(clients: seq<SessionId>, id: RoomId, task: TaskId, asked: seq<Asked>,
                    ghost m: Ledger, ghost rooms0: Records, ghost index0: Index) returns (result: Result<RoomId>)
      requires config.Accepted() && clients != [] && |asked| == |clients|
      requires m.Inv(config) && CanSpawn(m, config, task) && id == m.nextId && Agree(rooms0, index0, m.links)
      requires rooms0.Keys == m.open
      requires Copies() && View() == Prepared(m, task)
      modifies this`rooms, this`membership, this`links
      ensures Valid()
      ensures result.Ok? ==> result.value == id && View() == Created(m, clients, task)
      ensures result.Err? ==> rooms == rooms0 && membership == index0
      ensures AllAgree(m, config, clients, asked) <==> result.Ok?
    {
      ghost var who;
      result, who := Fill(clients, id, asked, m, task);
      CreationKeeps(m, config, task, who);
      if result.Err? {
        var _, _ := RemoveRoom(id);
        OneReading(rooms, membership, rooms0, index0, links);
      } else {
        assert clients[0] in who;
      }
    }

    /** The joins of a creation, one client after the other; on failure `who` got in before. */
    method Fill(clients: seq<SessionId>, id: RoomId, asked: seq<Asked>, ghost m: Ledger, ghost task: TaskId)
      returns (result: Result<RoomId>, ghost who: set<SessionId>)
      requires config.Accepted() && |asked| == |clients|
      requires Copies() && View() == Prepared(m, task) && id == m.nextId
      requires m.nextId !in m.open && forall p :: p in m.links ==> p.1 in m.open
      modifies this`rooms, this`membership, this`links
      ensures Copies() && View() == Prepared(m, task).GrantAll(who, id)
      ensures forall s :: s in who ==> |m.RoomsOf(s)| < config.maxRoomsPerSession
      ensures result.Ok? ==> result.value == id && who == Everyone(clients)
      ensures AllAgree(m, config, clients, asked) <==> result.Ok?
    {
      hide Agrees, Agree, RoomsIn, MembersIn, Ledger.GrantAll;
      who := {};
      NobodyOutside(m, id);
      GrantNobody(m, task);
      for i := 0 to |clients|
        invariant who == Everyone(clients[..i])
        invariant Copies() && View() == Prepared(m, task).GrantAll(who, id)
        invariant forall s :: s in who ==> |m.RoomsOf(s)| < config.maxRoomsPerSession
        invariant forall j :: 0 <= j < i ==> Agrees(m, config, clients, asked, j)
      {
        var joined := JoinNext(clients, i, id, asked, m, task, who);
        if joined.Err? { return Err(joined.error), who; }
        OneMore(clients, i);
        who := who + {clients[i]};
      }
      assert clients[..|clients|] == clients;
      result := Ok(id);
    }

    method JoinNext(clients: seq<SessionId>, i: nat, id: RoomId, asked: seq<Asked>, ghost m: Ledger,
                    ghost task: TaskId, ghost who: set<SessionId>)
      returns (joined: Result<()>)
      requires i < |clients| == |asked| && who == Everyone(clients[..i])
      requires config.Accepted() && Copies() && View() == Prepared(m, task).GrantAll(who, id) && id == m.nextId
      requires m.nextId !in m.open && forall p :: p in m.links ==> p.1 in m.open
      modifies this`rooms, this`membership, this`links
      ensures Copies()
      ensures joined.Ok? ==>
                && View() == Prepared(m, task).GrantAll(who + {clients[i]}, id)
                && (clients[i] !in who ==> |m.RoomsOf(clients[i])| < config.maxRoomsPerSession)
      ensures joined.Err? ==> View() == old(View())
      ensures joined.Ok? <==> Agrees(m, config, clients, asked, i)
    {
      GrantMore(m, task, who, clients[i]);
      var answer, _ := Join(clients[i], id, asked[i]);
      joined := answer;
    }

    method Eligible(s: SessionId, closed: bool) returns (r: bool)
      requires Copies()
      ensures r == View().EligibleFor(s, closed)
    {
      Listed(rooms, membership, links, s);
      r := !closed && s in membership && GLOBAL_ROOM in membership[s]
           && (forall id :: id in membership[s] ==> id == GLOBAL_ROOM);
      if r { assert membership[s] == {GLOBAL_ROOM}; }
    }

    /** Which of the clients are not eligible, in order. */
    method Ineligible(clients: seq<SessionId>, closed: seq<bool>) returns (r: seq<SessionId>)
      requires Copies() && |closed| == |clients|
      ensures Unfit(View(), clients, closed, r)
      ensures r == [] <==> AllEligible(View(), clients, closed)
    {
      r := [];
      for i := 0 to |clients|
        invariant r == [] <==> forall j :: 0 <= j < i ==> View().EligibleFor(clients[j], closed[j])
        invariant forall s :: s in r ==>
                    exists j :: 0 <= j < i && clients[j] == s && (closed[j] || View().RoomsOf(s) != {GLOBAL_ROOM})
        invariant forall j :: 0 <= j < i && (closed[j] || View().RoomsOf(clients[j]) != {GLOBAL_ROOM}) ==>
                    clients[j] in r
      {
        var e := Eligible(clients[i], closed[i]);
        if !e { r := r + [clients[i]]; }
      }
    }

    /** A match takes everybody of the group from the global room alone to the global room and
        a fresh one, or moves nobody; a failure disqualifies exactly those of the group that were
        not eligible at first or, if all were, are not when the creation has failed; and the match
        goes through exactly if all are eligible, a room can be made, and it lets everybody in. */
    method MatchCreate(clients: seq<SessionId>, capacity: nat, task: TaskId, factoryWorks: bool,
                       closed: seq<bool>, asked: seq<Asked>, closedAfter: seq<bool>)
      returns (reply: MatchReply)
      requires Valid() && task !in tasks
      requires |asked| == |clients| && |closed| == |clients| && |closedAfter| == |clients|
      modifies this`rooms, this`membership, this`links, this`nextId, this`tasks
      ensures Valid()
      ensures MatchOutcome(old(View()), View(), clients,
                           if AllEligible(old(View()), clients, closed) then closedAfter else closed, reply)
      ensures reply.Matched? ==> 0 < |clients| <= capacity
      ensures reply.Failed? ==> rooms == old(rooms) && membership == old(membership)
      ensures reply.Matched? <==>
                && 0 < |clients| <= capacity <= config.maxRoomPlayers && factoryWorks
                && |old(rooms)| < config.maxRooms && old(nextId) < U64_MAX
                && AllEligible(old(View()), clients, closed) && AllAgree(old(View()), config, clients, asked)
      ensures AllEligible(old(View()), clients, closed)
              && (forall i :: 0 <= i < |clients| ==> !asked[i].closed && asked[i].answer.Ok?)
              ==> AllAgree(old(View()), config, clients, asked)
      ensures !AllEligible(old(View()), clients, closed) ==>
              reply.Failed? && reply.error == Denied && reply.disqualified != []
    {
      hide Agree, MatchCommitted, Ledger.Bounded, Ledger.Numbered;
      ghost var m := View();
      assert |rooms.Keys| == |rooms|;
      var disqualified := Ineligible(clients, closed);
      if disqualified != [] { return Failed(Denied, disqualified); }
      EligibleGroup(m, config, clients, closed, asked);
      var created := Create(clients, capacity, task, factoryWorks, asked);
      if created.Ok? {
        LinksStayOpen(m, config);
        MatchIsExact(m, clients, task);
        return Matched(created.value);
      }
      OneRelation(rooms, membership, links, old(links));
      disqualified := Ineligible(clients, closedAfter);
      reply := Failed(created.error, disqualified);
    }

    // The command loop. `heard` tells whether the requester still waits for the reply.

    method OnCreate(clients: seq<SessionId>, capacity: nat, task: TaskId, factoryWorks: bool, asked: seq<Asked>,
                    heard: bool)
      returns (result: Result<RoomId>)
      requires Valid() && task !in tasks && |asked| == |clients|
      modifies this`rooms, this`membership, this`links, this`nextId, this`tasks
      ensures Valid()
      ensures result.Err? || !heard ==> rooms == old(rooms) && membership == old(membership)
      ensures result.Ok? && heard ==> View() == Created(old(View()), clients, task) && result.value == old(nextId)
      ensures result.Ok? <==>
                && 0 < |clients| <= capacity <= config.maxRoomPlayers && factoryWorks
                && |old(rooms)| < config.maxRooms && old(nextId) < U64_MAX
                && AllAgree(old(View()), config, clients, asked)
      ensures !old(View()).Allows(config, clients, capacity) ==> result == Err(Limit)
    {
      ghost var m := View();
      assert |rooms.Keys| == |rooms|;
      result := Create(clients, capacity, task, factoryWorks, asked);
      if result.Ok? && !heard {
        UndoneCreation(m, config, clients, task);
        var _, _ := RemoveRoom(result.value);
        OneReading(rooms, membership, old(rooms), old(membership), links);
      }
    }

    method OnJoin(s: SessionId, r: RoomId, asked: Asked, heard: bool) returns (result: Result<()>)
      requires Valid()
      modifies this`rooms, this`membership, this`links
      ensures Valid()
      ensures View() == if result.Ok? && heard then old(View()).Grant(s, r) else old(View())
      ensures result.Err? || !heard ==> rooms == old(rooms) && membership == old(membership)
      ensures var mine := old(View()).RoomsOf(s);
              result == if asked.closed then Err(Closed)
                        else if r in mine then Ok(())
                        else if |mine| >= config.maxRoomsPerSession then Err(Limit)
                        else if r !in old(rooms) then Err(RoomNotFound)
                        else asked.answer
    {
      ghost var m := View();
      Listed(rooms, membership, links, s);
      var already := s in membership && r in membership[s];
      var joined, _ := Join(s, r, asked);
      result := joined;
      if result.Ok? {
        if already { GrantAgain(m, s, r); } else { GrantKeeps(m, config, s, r); }
        if !heard && !already {
          GrantRollsBack(m, s, r);
          Leave(s, r);
        }
        if !heard { OneReading(rooms, membership, old(rooms), old(membership), links); }
      }
    }

    method OnLeave(s: SessionId, r: RoomId) returns (result: Result<()>)
      requires Valid()
      modifies this`rooms, this`membership, this`links
      ensures Valid()
      ensures r == GLOBAL_ROOM ==> result == Err(Denied) && View() == old(View())
      ensures r != GLOBAL_ROOM ==> result.Ok? && View() == old(View()).Revoke(s, r)
    {
      if r == GLOBAL_ROOM { return Err(Denied); }
      RevokeKeeps(View(), config, s, r);
      Leave(s, r);
      result := Ok(());
    }

    /** Leaving every room, in any order, purges the session and touches nobody else. */
    method OnDisconnect(s: SessionId)
      requires Valid()
      modifies this`rooms, this`membership, this`links
      ensures Valid()
      ensures View() == old(View()).RevokeAll(s, old(View()).RoomsOf(s))
      ensures s !in membership && forall r :: r in rooms ==> s !in rooms[r]
      ensures forall x :: x != s ==> View().RoomsOf(x) == old(View()).RoomsOf(x)
    {
      ghost var m := View();
      RevokeAllKeeps(m, config, s, m.RoomsOf(s));
      Evicted(m, s);
      LeaveAll(s);
      Listed(rooms, membership, links, s);
      IndexIsInverse(rooms, membership, links);
    }

    method LeaveAll(s: SessionId)
      requires Copies()
      modifies this`rooms, this`membership, this`links
      ensures Copies() && View() == old(View()).RevokeAll(s, old(View()).RoomsOf(s))
    {
      ghost var m := View();
      Listed(rooms, membership, links, s);
      var todo := if s in membership then membership[s] else {};
      ghost var done: set<RoomId> := {};
      RevokeNone(m, s);
      while todo != {}
        invariant done + todo == m.RoomsOf(s)
        invariant Copies() && View() == m.RevokeAll(s, done)
        decreases todo
      {
        var r :| r in todo;
        RevokeAllGrows(m, s, done, r);
        Leave(s, r);
        MoveOne(done, todo, r);
        done, todo := done + {r}, todo - {r};
      }
      assert done == m.RoomsOf(s);
    }

    /** A room task has ended: its own room goes, and no other. */
    method Reap(task: TaskId)
      requires Valid() && task in tasks
      modifies this`rooms, this`membership, this`links, this`tasks
      ensures Valid()
      ensures View() == old(View()).Erase(old(tasks)[task]).(tasks := old(tasks) - {task})
      ensures forall t :: t in tasks ==> old(tasks)[t] != old(tasks)[task]
    {
      ReapKeeps(View(), config, task);
      var r := tasks[task];
      tasks := tasks - {task};
      var _, _ := RemoveRoom(r);
    }
  }
}
