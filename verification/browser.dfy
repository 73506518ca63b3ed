/** The browser client (client/index.mjs): request ids with wrap-around, the table of pending
    requests, their timers, and how every one of them is settled. */
module Browsers {
  import opened Types

  const MAX_ID: nat := 0xFFFF_FFFF

  type RequestId = nat
  type SocketId = nat

  /** A promise and the timer created with it. */
  type Ticket = nat

  datatype Item = Item(ticket: Ticket, responseTag: nat)

  /** What an armed timer will do: fail the request filed under this id, or give up the
      connection. */
  datatype Alarm = ForRequest(id: RequestId) | ForSocket(socket: SocketId)

  datatype Outcome = Resolved | Rejected

  // ----- request ids -----------------------------------------------------------------

  function Following(id: RequestId): RequestId { if id == MAX_ID then 1 else id + 1 }

  /** The `k`-th candidate from `start` on, around the ring of 32-bit ids without zero. */
  function Nth(start: RequestId, k: nat): RequestId {
    if k == 0 then start else Following(Nth(start, k - 1))
  }

  lemma {:induction false} NthIs(start: RequestId, k: nat)
    requires 1 <= start <= MAX_ID && k < MAX_ID
    ensures Nth(start, k) == if start + k <= MAX_ID then start + k else start + k - MAX_ID
  {
    if k > 0 { NthIs(start, k - 1); }
  }

  lemma NthAreDistinct(start: RequestId, j: nat, k: nat)
    requires 1 <= start <= MAX_ID && j < k < MAX_ID
    ensures Nth(start, j) != Nth(start, k)
  {
    NthIs(start, j);
    NthIs(start, k);
  }

  /** The first `k` candidates. */
  function Tried(start: RequestId, k: nat): set<RequestId> {
    if k == 0 then {} else Tried(start, k - 1) + {Nth(start, k - 1)}
  }

  /** The first candidate that is not taken. */
  ghost predicate FirstFree(start: RequestId, taken: set<RequestId>, id: RequestId) {
    id !in taken && exists k: nat :: id == Nth(start, k) && Tried(start, k) <= taken
  }

  lemma {:induction false} TriedSize(start: RequestId, k: nat)
    requires 1 <= start <= MAX_ID && k <= MAX_ID
    ensures |Tried(start, k)| == k
    ensures k < MAX_ID ==> Nth(start, k) !in Tried(start, k)
  {
    if k > 0 {
      TriedSize(start, k - 1);
      NotTried(start, k - 1, k - 1);
      if k < MAX_ID { NotTried(start, k, k); }
    }
  }

  lemma {:induction false} NotTried(start: RequestId, j: nat, k: nat)
    requires 1 <= start <= MAX_ID && j <= k < MAX_ID
    ensures Nth(start, k) !in Tried(start, j)
  {
    if j > 0 {
      NotTried(start, j - 1, k);
      NthAreDistinct(start, j - 1, k);
    }
  }

  function Ring(n: nat): (ids: set<RequestId>)
    ensures forall id :: id in ids <==> 1 <= id <= n
  {
    if n == 0 then {} else Ring(n - 1) + {n}
  }

  lemma {:induction false} RingSize(n: nat)
    ensures |Ring(n)| == n
  {
    if n > 0 { RingSize(n - 1); }
  }

  /** There is an id to find iff fewer than all of them are taken. */
  lemma FreeIdExists(taken: set<RequestId>)
    requires forall id :: id in taken ==> 1 <= id <= MAX_ID
    ensures |taken| <= MAX_ID
    ensures (exists id :: 1 <= id <= MAX_ID && id !in taken) <==> |taken| < MAX_ID
  {
    RingSize(MAX_ID);
    SubsetSize(taken, Ring(MAX_ID));
    if |taken| < MAX_ID {
      assert exists id :: id in Ring(MAX_ID) && id !in taken by {
        if forall id :: id in Ring(MAX_ID) ==> id in taken { assert taken == Ring(MAX_ID); }
      }
    }
  }

  // ----- pending requests, timers and promises ---------------------------------------

  /** What the client has filed, and what the runtime around it holds: the timers that are
      armed, the promises that are settled and all promises ever handed out. */
  datatype Desk = Desk(
    socket: Option<SocketId>, dialling: Option<Ticket>, pending: map<RequestId, Item>,
    armed: map<Ticket, Alarm>, settled: map<Ticket, Outcome>, issued: set<Ticket>)
  {
    /** Live timers match what they are for, one to one. */
    ghost predicate Timed() {
      && (forall id :: id in pending ==> pending[id].ticket in armed && armed[pending[id].ticket] == ForRequest(id))
      && (forall t :: t in armed && armed[t].ForRequest? ==> armed[t].id in pending && pending[armed[t].id].ticket == t)
      && (forall t :: t in armed && armed[t].ForSocket? ==> dialling == Some(t) && socket == Some(armed[t].socket))
      && (dialling.Some? ==> dialling.value in armed && armed[dialling.value].ForSocket?)
    }

    /** Every promise is settled, or has its timer running and is still owed, never both. */
    ghost predicate Balanced() {
      issued == settled.Keys + armed.Keys && settled.Keys !! armed.Keys
    }

    ghost predicate Inv() {
      && Timed() && Balanced()
      && (forall id :: id in pending ==> 1 <= id <= MAX_ID)
      && (socket.None? ==> pending == map[])
    }

    function File(id: RequestId, t: Ticket, responseTag: nat): Desk {
      this.(pending := pending[id := Item(t, responseTag)], armed := armed[t := ForRequest(id)], issued := issued + {t})
    }

    function Settle(id: RequestId, outcome: Outcome): Desk
      requires id in pending
    {
      var t := pending[id].ticket;
      this.(pending := pending - {id}, armed := armed - {t}, settled := settled[t := outcome])
    }

    function Tickets(): set<Ticket> { set id | id in pending :: pending[id].ticket }

    /** `#rejectRequests` */
    function RejectAll(): Desk {
      this.(pending := map[], armed := armed - Tickets(),
            settled := settled + map t | t in Tickets() :: Rejected)
    }

    function Dial(k: SocketId, t: Ticket): Desk {
      this.(socket := Some(k), dialling := Some(t), armed := armed[t := ForSocket(k)], issued := issued + {t})
    }

    function Answer(outcome: Outcome): Desk {
      if dialling.None? then this
      else this.(dialling := None, armed := armed - {dialling.value}, settled := settled[dialling.value := outcome])
    }

    /** `#disconnect` */
    function Hangup(): Desk {
      if socket.None? then this else Answer(Rejected).RejectAll().(socket := None)
    }
  }

  lemma FileKeeps(d: Desk, id: RequestId, t: Ticket, responseTag: nat)
    requires d.Inv() && id !in d.pending && 1 <= id <= MAX_ID && t !in d.issued && d.socket.Some?
    ensures d.File(id, t, responseTag).Inv()
  {
  }

  lemma SettleKeeps(d: Desk, id: RequestId, outcome: Outcome)
    requires d.Inv() && id in d.pending
    ensures d.Settle(id, outcome).Inv() && d.pending[id].ticket !in d.settled
  {
  }

  /** The promise was still owed in `d`, and has this outcome in `e`. */
  predicate Ends(d: Desk, e: Desk, t: Ticket, outcome: Outcome) {
    t !in d.settled && t in e.settled && e.settled[t] == outcome
  }

  lemma RejectAllKeeps(d: Desk)
    requires d.Inv()
    ensures d.RejectAll().Inv() && d.Tickets() !! d.settled.Keys
    ensures d.RejectAll().issued == d.issued
    ensures forall id :: id in d.pending ==> Ends(d, d.RejectAll(), d.pending[id].ticket, Rejected)
  {
    var e := d.RejectAll();
    assert e.settled.Keys == d.settled.Keys + d.Tickets();
    assert d.Tickets() <= d.armed.Keys;
    assert e.armed.Keys == d.armed.Keys - d.Tickets();
  }

  lemma DialKeeps(d: Desk, k: SocketId, t: Ticket)
    requires d.Inv() && d.socket.None? && d.dialling.None? && t !in d.issued
    ensures d.Dial(k, t).Inv()
  {
  }

  lemma AnswerKeeps(d: Desk, outcome: Outcome)
    requires d.Inv()
    ensures d.Answer(outcome).Inv()
    ensures d.dialling.Some? ==> Ends(d, d.Answer(outcome), d.dialling.value, outcome)
  {
  }

  lemma SocketGoesLast(d: Desk)
    ensures d.(socket := None).Answer(Rejected).RejectAll() == d.Answer(Rejected).RejectAll().(socket := None)
  {
  }

  /** After a disconnect nothing is pending, no timer runs, and every promise ever handed out
      has been settled: whatever was still owed, a connection attempt or a request, is rejected. */
  lemma HangupSettlesAll(d: Desk)
    requires d.Inv()
    ensures d.Hangup().Inv()
    ensures d.socket.Some? ==>
              var k := d.Hangup(); k.pending == map[] && k.armed == map[] && k.issued == k.settled.Keys
    ensures d.socket.Some? ==> forall t :: t in d.issued && t !in d.settled ==> Ends(d, d.Hangup(), t, Rejected)
  {
    AnswerKeeps(d, Rejected);
    RejectAllKeeps(d.Answer(Rejected));
    NothingLeft(d.Answer(Rejected).RejectAll());
    forall t | d.socket.Some? && t in d.issued && t !in d.settled ensures Ends(d, d.Hangup(), t, Rejected) {
      assert t in d.armed;
    }
  }

  lemma NothingLeft(d: Desk)
    requires d.Inv() && d.pending == map[] && d.dialling.None?
    ensures d.armed == map[] && d.(socket := None).Inv() && d.issued == d.settled.Keys
  {
    forall t ensures t !in d.armed {
    }
    assert d.armed.Keys == {};
  }

  /** Everything that can happen to the client. */
  datatype Happening =
    | Dials(k: SocketId, t: Ticket) | Answers(outcome: Outcome) | HangsUp
    | Files(id: RequestId, t: Ticket, responseTag: nat) | Settles(id: RequestId, outcome: Outcome) | RejectsAll

  predicate Possible(d: Desk, h: Happening) {
    match h
    case Dials(_, t) => d.socket.None? && t !in d.issued
    case Files(id, t, _) => d.socket.Some? && id !in d.pending && 1 <= id <= MAX_ID && t !in d.issued
    case Settles(id, _) => id in d.pending
    case _ => true
  }

  function Do(d: Desk, h: Happening): Desk
    requires Possible(d, h)
  {
    match h
    case Dials(k, t) => d.Dial(k, t)
    case Answers(outcome) => d.Answer(outcome)
    case HangsUp => d.Hangup()
    case Files(id, t, tag) => d.File(id, t, tag)
    case Settles(id, outcome) => d.Settle(id, outcome)
    case RejectsAll => d.RejectAll()
  }

  ghost predicate AllPossible(d: Desk, hs: seq<Happening>)
    decreases |hs|
  {
    hs == [] || (Possible(d, hs[0]) && AllPossible(Do(d, hs[0]), hs[1..]))
  }

  ghost function DoAll(d: Desk, hs: seq<Happening>): Desk
    requires AllPossible(d, hs)
    decreases |hs|
  {
    if hs == [] then d else DoAll(Do(d, hs[0]), hs[1..])
  }

  predicate Final(d: Desk, e: Desk) {
    d.issued <= e.issued && forall t :: t in d.settled ==> t in e.settled && e.settled[t] == d.settled[t]
  }

  lemma HappeningKeeps(d: Desk, h: Happening)
    requires d.Inv() && Possible(d, h)
    ensures Do(d, h).Inv() && Final(d, Do(d, h))
  {
    match h
    case Dials(k, t) => DialKeeps(d, k, t);
    case Answers(outcome) => AnswerKeeps(d, outcome);
    case HangsUp => HangupSettlesAll(d); HangupIsFinal(d);
    case Files(id, t, tag) => FileKeeps(d, id, t, tag);
    case Settles(id, outcome) => SettleKeeps(d, id, outcome);
    case RejectsAll => RejectAllKeeps(d);
  }

  lemma HangupIsFinal(d: Desk)
    requires d.Inv()
    ensures Final(d, d.Hangup())
  {
    AnswerKeeps(d, Rejected);
    RejectAllKeeps(d.Answer(Rejected));
    assert Final(d, d.Answer(Rejected));
  }

  /** Over every run: an outcome once given is never given again or changed, and every promise
      ever handed out is either settled or the one thing its still running timer will settle. */
  lemma {:induction false} EachRequestEndsOnce(d: Desk, hs: seq<Happening>)
    requires d.Inv() && AllPossible(d, hs)
    ensures var e := DoAll(d, hs);
            && e.Inv() && Final(d, e)
            && (forall t :: t in e.issued ==> (t in e.settled) != (t in e.armed))
            && (e.socket.None? ==> e.issued == e.settled.Keys)
    decreases |hs|
  {
    if hs != [] {
      HappeningKeeps(d, hs[0]);
      EachRequestEndsOnce(Do(d, hs[0]), hs[1..]);
    } else if d.socket.None? {
      NothingLeft(d);
    }
  }

  // ----- the object ------------------------------------------------------------------

  class GameClient {
    var socket: Option<SocketId>
    var session: bool
    var connecting: Option<Ticket>
    var pending: map<RequestId, Item>
    var nextId: RequestId
    // The runtime around the client.
    var armed: map<Ticket, Alarm>
    var settled: map<Ticket, Outcome>
    ghost var issued: set<Ticket>
    var next: Ticket

    ghost function View(): Desk
      reads this
    {
      Desk(socket, connecting, pending, armed, settled, issued)
    }

    ghost predicate Valid()
      reads this
    {
      && View().Inv() && 1 <= nextId <= MAX_ID
      && (forall t :: t in issued ==> t < next)
      && (session ==> socket.Some? && connecting.None?)
    }

    constructor ()
      ensures Valid() && View() == Desk(None, None, map[], map[], map[], {}) && nextId == 1
    {
      socket, session, connecting, pending, nextId := None, false, None, map[], 1;
      armed, settled, issued, next := map[], map[], {}, 0;
    }

    /** A number for a new promise and its timer. */
    method Mint() returns (t: Ticket)
      requires Valid()
      modifies this`next
      ensures Valid() && t !in issued && t < next
    {
      t := next;
      next := next + 1;
    }

    /** `works` tells whether the auth frame encodes and the socket can be created. */
    method Connect(k: SocketId, works: bool) returns (promise: Option<Ticket>)
      requires Valid()
      modifies this
      ensures Valid()
      ensures promise.None? <==> old(socket).Some? || !works
      ensures promise.None? ==> View() == old(View())
      ensures promise.Some? ==> promise.value !in old(issued) && View() == old(View()).Dial(k, promise.value)
    {
      if socket.Some? || !works { return None; }
      var t := Mint();
      DialKeeps(View(), k, t);
      socket, connecting := Some(k), Some(t);
      armed := armed[t := ForSocket(k)];
      issued := issued + {t};
      promise := Some(t);
    }

    /** The wrap-around search: the first id from `nextId` on that no pending request has. */
    method FreeId() returns (id: RequestId, ghost skipped: nat)
      requires Valid() && |pending| < MAX_ID
      ensures 1 <= id <= MAX_ID && id !in pending
      ensures id == Nth(nextId, skipped) && Tried(nextId, skipped) <= pending.Keys
    {
      hide Desk.Inv;
      id, skipped := nextId, 0;
      while id in pending
        invariant skipped < MAX_ID && id == Nth(nextId, skipped) && 1 <= id <= MAX_ID
        invariant Tried(nextId, skipped) <= pending.Keys
        decreases MAX_ID - skipped
      {
        id := if id == MAX_ID then 1 else id + 1;
        skipped := skipped + 1;
        TriedSize(nextId, skipped);
        SubsetSize(Tried(nextId, skipped), pending.Keys);
      }
    }

    /** `command` and `requestRaw`. `ready` tells whether the socket is open, `valid` whether
        the arguments pass, `encodes` and `sends` whether encoding and sending work. A request
        that fails before it is filed leaves no trace; one whose frame cannot be sent is
        filed and settled at once. */
    method Request(responseTag: nat, ready: bool, valid: bool, encodes: bool, sends: bool)
      returns (promise: Option<Ticket>, id: RequestId)
      requires Valid() && |pending| < MAX_ID
      modifies this
      ensures Valid()
      ensures promise.Some? <==> valid && ready && old(session) && encodes
      ensures session == old(session)
      ensures if valid && ready && old(session)
              then FirstFree(old(nextId), old(pending).Keys, id) && nextId == Following(id)
              else nextId == old(nextId)
      ensures promise.None? ==> View() == old(View())
      ensures promise.Some? ==>
                && id !in old(pending) && promise.value !in old(issued)
                && View() == if sends then old(View()).File(id, promise.value, responseTag)
                             else old(View()).File(id, promise.value, responseTag).Settle(id, Rejected)
    {
      hide Desk.Inv;
      id := 1;
      if !valid || !ready || !session { return None, id; }
      var free, skipped := FreeId();
      id := free;
      assert FirstFree(nextId, pending.Keys, id);
      nextId := if id == MAX_ID then 1 else id + 1;
      if !encodes { return None, id; }
      var t := File(id, responseTag);
      if !sends { Settle(id, Rejected); }
      promise := Some(t);
    }

    method File(id: RequestId, responseTag: nat) returns (t: Ticket)
      requires Valid() && id !in pending && 1 <= id <= MAX_ID && socket.Some?
      modifies this
      ensures Valid() && t !in old(issued) && View() == old(View()).File(id, t, responseTag)
      ensures nextId == old(nextId) && session == old(session)
    {
      hide Desk.Inv;
      t := Mint();
      FileKeeps(View(), id, t, responseTag);
      issued := issued + {t};
      armed := armed[t := ForRequest(id)];
      pending := pending[id := Item(t, responseTag)];
    }

    /** The entry, its timer and its promise end together. */
    method Settle(id: RequestId, outcome: Outcome)
      requires Valid() && id in pending
      modifies this`pending, this`armed, this`settled
      ensures Valid() && View() == old(View()).Settle(id, outcome)
      ensures old(pending)[id].ticket !in old(settled)
    {
      hide Desk.Inv;
      SettleKeeps(View(), id, outcome);
      var item := pending[id];
      pending := pending - {id};
      armed := armed - {item.ticket};
      settled := settled[item.ticket := outcome];
    }

    /** A timer fires. One of a request always hits that very request, even if its id has been
        used before or will be again; one of a connection gives up that connection. */
    method Fire(t: Ticket)
      requires Valid() && t in armed
      modifies this
      ensures Valid()
      ensures old(armed)[t].ForRequest? ==>
                && old(armed)[t].id in old(pending) && old(pending)[old(armed)[t].id].ticket == t
                && View() == old(View()).Settle(old(armed)[t].id, Rejected)
      ensures old(armed)[t].ForSocket? ==> View() == old(View()).Hangup()
    {
      match armed[t] {
        case ForRequest(id) =>
          SettleKeeps(View(), id, Rejected);
          pending := pending - {id};
          armed := armed - {t};
          settled := settled[t := Rejected];
        case ForSocket(k) =>
          if socket == Some(k) { Disconnect(); }
      }
    }

    /** `#disconnect` */
    method Disconnect()
      requires Valid()
      modifies this
      ensures Valid() && View() == old(View()).Hangup() && !session
      ensures old(socket).Some? ==> pending == map[] && armed == map[] && issued == settled.Keys
    {
      hide Desk.Inv, Desk.RejectAll;
      HangupSettlesAll(View());
      SocketGoesLast(View());
      if socket.None? { return; }
      socket, session := None, false;
      if connecting.Some? {
        armed := armed - {connecting.value};
        settled := settled[connecting.value := Rejected];
        connecting := None;
      }
      RejectRequests(old(View()).(socket := None).Answer(Rejected));
    }

    method RejectRequests(ghost d: Desk)
      requires View() == d
      modifies this`pending, this`armed, this`settled
      ensures View() == d.RejectAll()
    {
      var tickets := set id | id in pending :: pending[id].ticket;
      pending := map[];
      armed := armed - tickets;
      settled := settled + map t | t in tickets :: Rejected;
    }

    /** A reply settles the request it names if the tag is the one that request waits for;
        any other reply changes nothing. */
    method Reply(tag: nat, id: RequestId, error: bool)
      requires Valid()
      modifies this`pending, this`armed, this`settled
      ensures Valid()
      ensures View() == if id in old(pending) && old(pending)[id].responseTag == tag
                        then old(View()).Settle(id, if error then Rejected else Resolved) else old(View())
    {
      if id in pending && pending[id].responseTag == tag { Settle(id, if error then Rejected else Resolved); }
    }

    /** An ERROR frame fails the connection attempt, or else every pending request. */
    method ErrorFrame()
      requires Valid()
      modifies this
      ensures Valid() && pending == map[] && connecting == None
      ensures View() == if old(connecting).Some? then old(View()).Hangup() else old(View()).RejectAll()
    {
      RejectAllKeeps(View());
      if connecting.Some? { Disconnect(); } else { RejectRequests(View()); }
    }

    /** A WELCOME frame nobody waits for is an error. */
    method Welcome() returns (expected: bool)
      requires Valid()
      modifies this
      ensures Valid() && expected == old(connecting).Some?
      ensures View() == old(View()).Answer(Resolved) && (expected ==> session)
    {
      AnswerKeeps(View(), Resolved);
      if connecting.None? { return false; }
      session := true;
      armed := armed - {connecting.value};
      settled := settled[connecting.value := Resolved];
      connecting := None;
      expected := true;
    }
  }
}
