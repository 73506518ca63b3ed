/** The connection loop (src/server.rs): the routing table folded from events, the bounded
    drain with which a connection starts, and the input rate limit. */
module Connections {
  import opened Types
  import opened Clients

  /** `routing` on one event: what becomes of the table. */
  function Route(event: Event, rooms: set<RoomId>): set<RoomId> {
    match event
    case Joined(r) => rooms + {r}
    case Left(r) => rooms - {r}
    case Frame(_) => rooms
  }

  function Routed(events: seq<Event>, rooms: set<RoomId>): set<RoomId> {
    if events == [] then rooms else Route(events[|events| - 1], Routed(events[..|events| - 1], rooms))
  }

  function Frames(events: seq<Event>): seq<Payload> {
    if events == [] then []
    else
      var before := Frames(events[..|events| - 1]);
      if events[|events| - 1].Frame? then before + [events[|events| - 1].data] else before
  }

  /** What a sequence of events says last about a room: joined, left, or nothing. */
  function Says(events: seq<Event>, r: RoomId): Option<bool> {
    if events == [] then None
    else
      match events[|events| - 1]
      case Joined(x) => if x == r then Some(true) else Says(events[..|events| - 1], r)
      case Left(x) => if x == r then Some(false) else Says(events[..|events| - 1], r)
      case Frame(_) => Says(events[..|events| - 1], r)
  }

  lemma SaysOneMore(events: seq<Event>, e: Event, r: RoomId)
    ensures Says(events + [e], r) ==
            (if e == Joined(r) then Some(true) else if e == Left(r) then Some(false) else Says(events, r))
  {
    assert (events + [e])[..|events|] == events;
  }

  lemma RoutedOneMore(events: seq<Event>, e: Event, rooms: set<RoomId>)
    ensures Routed(events + [e], rooms) == Route(e, Routed(events, rooms))
    ensures Frames(events + [e]) == if e.Frame? then Frames(events) + [e.data] else Frames(events)
  {
    assert (events + [e])[..|events|] == events;
  }

  /** The table has a room iff the last word about it was that it was joined, or, if there was
      none, the room was there to begin with. */
  lemma {:induction false} TableIsLastWord(events: seq<Event>, rooms: set<RoomId>, r: RoomId)
    ensures r in Routed(events, rooms) <==> (match Says(events, r) case Some(joined) => joined case None => r in rooms)
  {
    if events != [] {
      TableIsLastWord(events[..|events| - 1], rooms, r);
    }
  }

  /** The events that `restore_routes` puts in front of everything else. */
  function Restored(rooms: seq<RoomId>): (events: seq<Event>)
    ensures |events| == |rooms| && forall i :: 0 <= i < |rooms| ==> events[i] == Joined(rooms[i])
  {
    seq(|rooms|, i requires 0 <= i < |rooms| => Joined(rooms[i]))
  }

  lemma {:induction false} RoutedInTwo(a: seq<Event>, b: seq<Event>, rooms: set<RoomId>)
    ensures Routed(a + b, rooms) == Routed(b, Routed(a, rooms))
    decreases |b|
  {
    if b == [] {
      assert a + b == a;
    } else {
      var front := b[..|b| - 1];
      assert a + b == (a + front) + [b[|b| - 1]];
      RoutedOneMore(a + front, b[|b| - 1], rooms);
      RoutedInTwo(a, front, rooms);
    }
  }

  lemma {:induction false} RestoredTable(rooms: seq<RoomId>)
    ensures Routed(Restored(rooms), {}) == set r | r in rooms
  {
    if rooms != [] {
      var front := rooms[..|rooms| - 1];
      RestoredTable(front);
      assert Restored(rooms)[..|rooms| - 1] == Restored(front);
      assert rooms == front + [rooms[|rooms| - 1]];
    }
  }

  // ----- the connection --------------------------------------------------------------

  class Connection {
    const outboundCapacity: nat
    const maxRoomsPerSession: nat
    var rooms: set<RoomId>
    ghost var seen: seq<Event>

    /** The table is the fold of everything the connection has read. */
    ghost predicate Valid()
      reads this
    {
      rooms == Routed(seen, {})
    }

    constructor (outboundCapacity: nat, maxRoomsPerSession: nat)
      ensures Valid() && seen == [] && rooms == {}
      ensures this.outboundCapacity == outboundCapacity && this.maxRoomsPerSession == maxRoomsPerSession
    {
      this.outboundCapacity, this.maxRoomsPerSession, rooms, seen := outboundCapacity, maxRoomsPerSession, {}, [];
    }

    /** `routing`: a frame is for the socket, a route is for the table. */
    method Routing(event: Event) returns (frame: Option<Payload>)
      requires Valid()
      modifies this
      ensures Valid() && seen == old(seen) + [event]
      ensures frame == if event.Frame? then Some(event.data) else None
    {
      RoutedOneMore(seen, event, {});
      seen := seen + [event];
      frame := None;
      match event {
        case Joined(r) => rooms := rooms + {r};
        case Left(r) => rooms := rooms - {r};
        case Frame(data) => frame := Some(data);
      }
    }

    /** The drain before the loop starts. `meanwhile[n]` are the events that arrive during its
        n-th turn, and `cancelled[n]` tells whether the connection is cancelled by then. Nothing
        is lost and the order is kept; and whatever the timing, without a cancellation everything
        that was queued at its start is read: a table of `maxRoomsPerSession` routes in front of
        a full channel is the most there can be. */
    method Drain(inbox: ClientInbox, meanwhile: seq<seq<Event>>, cancelled: seq<bool>)
        returns (initial: seq<Payload>, ghost read: seq<Event>)
      requires Valid() && |meanwhile| == |cancelled| == outboundCapacity + maxRoomsPerSession
      requires |inbox.pending| <= maxRoomsPerSession && |inbox.rx.queue| <= outboundCapacity
      modifies this, inbox, inbox.rx
      ensures Valid() && seen == old(seen) + read
      ensures !inbox.rx.cancelled ==> old(inbox.View()).All() <= read
      ensures inbox.rx.cancelled ==>
                (old(inbox.rx.cancelled) && read == []) || (|read| < |cancelled| && cancelled[|read|])
      ensures !inbox.rx.cancelled ==> forall n :: 0 <= n <= |read| && n < |cancelled| ==> !cancelled[n]
      ensures exists arrived :: read + inbox.View().All() == old(inbox.View()).All() + arrived
      ensures Frames(seen) == Frames(old(seen)) + initial
    {
      hide Routed, Frames, Inbox.All;
      AllSize(inbox.View());
      initial, read := [], [];
      ghost var all, arrived := inbox.View().All(), [];
      for n := 0 to outboundCapacity + maxRoomsPerSession
        invariant Valid() && seen == old(seen) + read && Frames(seen) == Frames(old(seen)) + initial
        invariant read + inbox.View().All() == all + arrived && |read| == n
        invariant inbox.rx.cancelled == old(inbox.rx.cancelled) && (inbox.rx.cancelled ==> n == 0)
        invariant forall k :: 0 <= k < n ==> !cancelled[k]
      {
        ghost var rest := inbox.View().All();
        var more, frame;
        ghost var e;
        more, frame, e := Turn(inbox, meanwhile[n], cancelled[n]);
        Conserve(read, rest, all, arrived, meanwhile[n], e, inbox.View().All());
        assert old(seen) + read + e == old(seen) + (read + e);
        arrived, read := arrived + meanwhile[n], read + e;
        if !more { break; }
        if frame.Some? { initial := initial + [frame.value]; }
      }
      if !inbox.rx.cancelled { PrefixOf(read, inbox.View().All(), all, arrived); }
    }

    /** One turn of the drain, the arrivals and a cancellation first. */
    method Turn(inbox: ClientInbox, arriving: seq<Event>, cancel: bool)
        returns (more: bool, frame: Option<Payload>, ghost e: seq<Event>)
      requires Valid()
      modifies this, inbox, inbox.rx
      ensures Valid() && seen == old(seen) + e && |e| == (if more then 1 else 0)
      ensures Frames(seen) == Frames(old(seen)) + (if frame.Some? then [frame.value] else [])
      ensures e + inbox.View().All() == old(inbox.View()).All() + arriving
      ensures inbox.rx.cancelled <==> old(inbox.rx.cancelled) || cancel
      ensures !more ==> frame.None? && (inbox.rx.cancelled || inbox.View().All() == [])
      ensures inbox.rx.cancelled ==> !more
    {
      hide Routed, Frames, Inbox.All;
      more, frame, e := false, None, [];
      var event := TryRecv(inbox, arriving, cancel);
      if event.Ready? && event.item.Some? {
        RoutedOneMore(seen, event.item.value, {});
        frame := Routing(event.item.value);
        more, e := true, [event.item.value];
      }
    }

    /** `try_recv`, after the arrivals and the cancellation. */
    method TryRecv(inbox: ClientInbox, arriving: seq<Event>, cancel: bool) returns (event: Poll<Event>)
      modifies inbox, inbox.rx
      ensures inbox.rx.cancelled <==> old(inbox.rx.cancelled) || cancel
      ensures inbox.rx.cancelled ==> event == Ready(None) && inbox.View().All() == old(inbox.View()).All() + arriving
      ensures event.Pending? ==> inbox.View().All() == [] && old(inbox.View()).All() + arriving == []
      ensures event.Ready? && !inbox.rx.cancelled ==>
                event.item.Some? && old(inbox.View()).All() + arriving == [event.item.value] + inbox.View().All()
    {
      inbox.rx.queue := inbox.rx.queue + arriving;
      if cancel { inbox.rx.cancelled := true; }
      assert inbox.View().All() == old(inbox.View()).All() + arriving;
      event := inbox.Recv();
    }
  }

  lemma AllSize(i: Inbox)
    ensures |i.All()| == |i.pending| + |i.rx|
  {
  }

  lemma Conserve(read: seq<Event>, rest: seq<Event>, all: seq<Event>, arrived: seq<Event>, more: seq<Event>,
                 e: seq<Event>, now: seq<Event>)
    requires read + rest == all + arrived && e + now == rest + more
    ensures (read + e) + now == all + (arrived + more)
  {
    assert (read + e) + now == read + (e + now) == read + (rest + more) == (read + rest) + more
        == (all + arrived) + more;
  }

  lemma PrefixOf(read: seq<Event>, rest: seq<Event>, all: seq<Event>, arrived: seq<Event>)
    requires read + rest == all + arrived && (rest == [] || |read| >= |all|)
    ensures all <= read
  {
    assert |read + rest| == |all + arrived|;
    assert forall i :: 0 <= i < |all| ==> read[i] == (read + rest)[i] == (all + arrived)[i] == all[i];
  }

  // ----- the rate limit --------------------------------------------------------------

  const SECOND: nat := 1_000_000_000

  /** The fixed window: when it was opened, the inputs counted in it, and whether the
      connection still reads. Instants are in nanoseconds. */
  datatype Window = Window(limit: nat, since: nat, messages: nat, reading: bool) {
    function Input(now: nat): Window
      requires since <= now
    {
      var w := if now - since >= SECOND then this.(since := now, messages := 0) else this;
      w.(messages := w.messages + 1, reading := w.reading && w.messages + 1 <= limit)
    }
  }

  ghost predicate Ordered(times: seq<nat>) {
    forall i, j :: 0 <= i < j < |times| ==> times[i] <= times[j]
  }

  /** How many inputs arriving in [a, b) get through. */
  function Passed(w: Window, times: seq<nat>, a: nat, b: nat): nat
    requires Ordered(times) && (times == [] || w.since <= times[0])
    decreases |times|
  {
    if times == [] then 0
    else
      var v := w.Input(times[0]);
      (if v.reading && a <= times[0] < b then 1 else 0) + Passed(v, times[1..], a, b)
  }

  /** Seconds begun in a stretch of `t` nanoseconds. */
  function Seconds(t: int): nat
    decreases if t > 0 then t else 0
  {
    if t <= 0 then 0 else 1 + Seconds(t - SECOND)
  }

  lemma {:induction false} SecondsGrow(t: int, u: int)
    requires t <= u
    ensures Seconds(t) <= Seconds(u)
    decreases if u > 0 then u else 0
  {
    if t > 0 { SecondsGrow(t - SECOND, u - SECOND); }
  }

  function Times(m: nat, n: nat): nat { m * n }

  function Max(a: int, b: int): int { if a < b then b else a }

  /** What is still let through in [a, b): the rest of the open window's allowance if it reaches
      beyond `a`, and a full one for every later window that fits before `b`, each at least a
      second after the one before. */
  function Allowance(w: Window, a: nat, b: nat): int {
    if !w.reading || b <= w.since then 0
    else if w.since + SECOND <= a then Times(w.limit, Seconds(b - a))
    else w.limit - w.messages + Times(w.limit, Seconds(b - w.since - SECOND))
  }

  lemma Multiplied(limit: nat, m: nat, n: nat)
    requires m <= n
    ensures Times(limit, m) <= Times(limit, n)
    ensures Times(limit, m + 1) == Times(limit, m) + limit
  {
  }

  lemma SameWindow(w: Window, t: nat, a: nat, b: nat)
    requires w.since <= t < w.since + SECOND && a <= t && w.messages <= w.limit && w.reading
    ensures var v := w.Input(t);
            && (v.reading ==> v.messages <= v.limit)
            && (if v.reading && t < b then 1 else 0) + Allowance(v, a, b) <= Allowance(w, a, b)
  {
    hide Times, Seconds;
  }

  lemma NextWindow(w: Window, t: nat, a: nat, b: nat)
    requires w.since + SECOND <= t && a <= t && w.messages <= w.limit && w.reading
    ensures var v := w.Input(t);
            && (v.reading ==> v.messages <= v.limit)
            && (if v.reading && t < b then 1 else 0) + Allowance(v, a, b) <= Allowance(w, a, b)
  {
    hide Times;
    var from := Max(a, w.since + SECOND);
    var m, n := Seconds(b - t - SECOND), Seconds(b - from);
    SecondsGrow(b - t, b - from);
    SecondsGrow(b - t - SECOND, b - t);
    Multiplied(w.limit, m, n);
    if t < b { Multiplied(w.limit, m + 1, n); }
  }

  lemma OneInput(w: Window, t: nat, a: nat, b: nat)
    requires w.since <= t && a <= t && (w.reading ==> w.messages <= w.limit)
    ensures var v := w.Input(t);
            && (v.reading ==> v.messages <= v.limit)
            && (if v.reading && t < b then 1 else 0) + Allowance(v, a, b) <= Allowance(w, a, b)
  {
    if w.reading {
      if t < w.since + SECOND { SameWindow(w, t, a, b); } else { NextWindow(w, t, a, b); }
    }
  }

  lemma Later(w: Window, times: seq<nat>)
    requires Ordered(times) && times != [] && w.since <= times[0]
    ensures Ordered(times[1..]) && (times[1..] == [] || w.Input(times[0]).since <= times[0] <= times[1..][0])
  {
    assert times[1..] == [] || times[1..][0] == times[1];
  }

  lemma {:induction false} FromNowOn(w: Window, times: seq<nat>, a: nat, b: nat)
    requires Ordered(times) && (times == [] || (w.since <= times[0] && a <= times[0]))
    requires w.reading ==> w.messages <= w.limit
    ensures Passed(w, times, a, b) <= Allowance(w, a, b)
    decreases |times|
  {
    hide Times, Seconds, Ordered, Window.Input;
    if times == [] {
    } else {
      Later(w, times);
      OneInput(w, times[0], a, b);
      FromNowOn(w.Input(times[0]), times[1..], a, b);
    }
  }

  /** For every arrival sequence, `length` consecutive nanoseconds let through at most one full
      allowance, and one more for every second begun after the first of them. */
  lemma {:induction false} RateIsBounded(w: Window, times: seq<nat>, a: nat, length: nat)
    requires Ordered(times) && (times == [] || w.since <= times[0])
    requires (w.reading ==> w.messages <= w.limit) && length > 0
    ensures Passed(w, times, a, a + length) <= Times(w.limit, Seconds(length - 1) + 1)
    decreases |times|
  {
    if times != [] && times[0] < a {
      Later(w, times);
      RateIsBounded(w.Input(times[0]), times[1..], a, length);
    } else {
      FromNowOn(w, times, a, a + length);
      AllowanceIsBounded(w, a, length);
    }
  }

  lemma AllowanceIsBounded(w: Window, a: nat, length: nat)
    requires length > 0
    ensures Allowance(w, a, a + length) <= Times(w.limit, Seconds(length - 1) + 1)
  {
    hide Times;
    var n := Seconds(length - 1);
    Multiplied(w.limit, n, n);
    if w.since + SECOND <= a {
      SecondsGrow(length - SECOND, length - 1);
      Multiplied(w.limit, Seconds(length), n + 1);
    } else {
      SecondsGrow(a + length - w.since - SECOND, length - 1);
      Multiplied(w.limit, Seconds(a + length - w.since - SECOND), n);
    }
  }

  lemma {:induction false} NothingInNothing(w: Window, times: seq<nat>, a: nat)
    requires Ordered(times) && (times == [] || w.since <= times[0])
    ensures Passed(w, times, a, a) == 0
    decreases |times|
  {
    if times != [] {
      Later(w, times);
      NothingInNothing(w.Input(times[0]), times[1..], a);
    }
  }

  /** In particular any half-open interval of `length` lets through at most one full allowance
      for every second begun, and one more. */
  lemma RateBound(w: Window, times: seq<nat>, a: nat, length: nat)
    requires Ordered(times) && (times == [] || w.since <= times[0])
    requires w.reading ==> w.messages <= w.limit
    ensures Passed(w, times, a, a + length) <= Times(w.limit, Seconds(length) + 1)
  {
    hide Times, Passed, Ordered;
    if length == 0 {
      NothingInNothing(w, times, a);
    } else {
      RateIsBounded(w, times, a, length);
      SecondsGrow(length - 1, length);
      Multiplied(w.limit, Seconds(length - 1) + 1, Seconds(length) + 1);
    }
  }

  // ----- the bound is the best possible ----------------------------------------------

  function Burst(count: nat, at: nat): seq<nat> { seq(count, i => at) }

  /** A full allowance at the beginning of each of `n` seconds from `at`. */
  function Bursts(limit: nat, at: nat, n: nat): seq<nat>
    decreases n
  {
    if n == 0 then [] else Burst(limit, at) + Bursts(limit, at + SECOND, n - 1)
  }

  lemma {:induction false} BurstsAreOrdered(limit: nat, at: nat, n: nat)
    ensures Ordered(Bursts(limit, at, n)) && forall i :: 0 <= i < |Bursts(limit, at, n)| ==>
            at <= Bursts(limit, at, n)[i]
    decreases n
  {
    if n > 0 { BurstsAreOrdered(limit, at + SECOND, n - 1); }
  }

  lemma BurstBegins(count: nat, at: nat, rest: seq<nat>)
    requires Ordered(rest) && (rest == [] || at <= rest[0])
    ensures Ordered(Burst(count, at) + rest) && (count > 0 ==> Burst(count, at) + rest != [])
    ensures if count == 0 then Burst(count, at) + rest == rest
            else (Burst(count, at) + rest)[0] == at && (Burst(count, at) + rest)[1..] == Burst(count - 1, at) + rest
  {
  }

  lemma PassedOne(w: Window, times: seq<nat>, a: nat, b: nat)
    requires Ordered(times) && times != [] && w.since <= times[0]
    ensures var v := w.Input(times[0]);
            Ordered(times[1..]) && (times[1..] == [] || v.since <= times[1..][0])
            && Passed(w, times, a, b) == (if v.reading && a <= times[0] < b then 1 else 0) + Passed(v, times[1..], a, b)
  {
  }

  /** A burst within the open window's allowance gets through as a whole. */
  lemma {:induction false} BurstPasses(w: Window, count: nat, at: nat, rest: seq<nat>, a: nat, b: nat)
    requires w.reading && w.since <= at < w.since + SECOND && w.messages + count <= w.limit && a <= at < b
    requires Ordered(rest) && (rest == [] || at <= rest[0])
    ensures var times := Burst(count, at) + rest;
            && Ordered(times) && (times == [] || at <= times[0])
            && Passed(w, times, a, b) == count + Passed(w.(messages := w.messages + count), rest, a, b)
    decreases count
  {
    hide Passed, Ordered, Burst;
    BurstBegins(count, at, rest);
    if count > 0 {
      PassedOne(w, Burst(count, at) + rest, a, b);
      BurstPasses(w.Input(at), count - 1, at, rest, a, b);
    }
  }

  /** So does a full allowance at a time when the window is over. */
  lemma WindowBegins(w: Window, at: nat)
    requires w.reading && w.limit > 0 && w.since + SECOND <= at
    ensures w.Input(at) == Window(w.limit, at, 1, true)
  {
  }

  lemma FullBurstPasses(w: Window, at: nat, rest: seq<nat>, a: nat, b: nat)
    requires w.reading && w.limit > 0 && w.since + SECOND <= at && a <= at < b
    requires Ordered(rest) && (rest == [] || at <= rest[0])
    ensures var times := Burst(w.limit, at) + rest;
            && Ordered(times) && at <= times[0]
            && Passed(w, times, a, b) == w.limit + Passed(Window(w.limit, at, w.limit, true), rest, a, b)
  {
    hide Passed, Ordered, Burst, Window.Input;
    WindowBegins(w, at);
    BurstBegins(w.limit, at, rest);
    var times, v := Burst(w.limit, at) + rest, Window(w.limit, at, 1, true);
    assert times[0] == at && times[1..] == Burst(w.limit - 1, at) + rest;
    PassedOne(w, times, a, b);
    assert Passed(w, times, a, b) == 1 + Passed(v, times[1..], a, b);
    BurstPasses(v, w.limit - 1, at, rest, a, b);
    assert v.(messages := 1 + (w.limit - 1)) == Window(w.limit, at, w.limit, true);
  }

  lemma {:induction false} BurstsPass(w: Window, at: nat, n: nat, a: nat, b: nat)
    requires w.reading && w.limit > 0 && w.since + SECOND <= at && a <= at && (n > 0 ==> at + Times(n - 1, SECOND) < b)
    ensures Ordered(Bursts(w.limit, at, n)) && (Bursts(w.limit, at, n) == [] || w.since <= Bursts(w.limit, at, n)[0])
    ensures Passed(w, Bursts(w.limit, at, n), a, b) == Times(w.limit, n)
    decreases n
  {
    BurstsAreOrdered(w.limit, at, n);
    if n > 0 {
      BurstsAreOrdered(w.limit, at + SECOND, n - 1);
      BurstsPass(Window(w.limit, at, w.limit, true), at + SECOND, n - 1, a, b);
      FullBurstPasses(w, at, Bursts(w.limit, at + SECOND, n - 1), a, b);
    }
  }

  lemma {:induction false} SecondsFit(t: nat)
    ensures Seconds(t) > 0 ==> Times(Seconds(t) - 1, SECOND) < t
  {
    if t > SECOND { SecondsFit(t - SECOND); }
  }

  /** The bound cannot be improved for any limit and any length: a full allowance in the last
      nanosecond of the first window, and one in the first of every second after it. */
  lemma BoundIsReached(limit: nat, length: nat) returns (times: seq<nat>)
    requires limit > 0 && length > 0
    ensures Ordered(times) && times != []
    ensures Passed(Window(limit, 0, 0, true), times, SECOND - 1, SECOND - 1 + length)
            == Times(limit, Seconds(length - 1) + 1)
  {
    var n, a := Seconds(length - 1), SECOND - 1;
    times := Burst(limit, a) + Bursts(limit, SECOND, n);
    SecondsFit(length - 1);
    BurstsAreOrdered(limit, SECOND, n);
    BurstsPass(Window(limit, 0, limit, true), SECOND, n, a, a + length);
    BurstPasses(Window(limit, 0, 0, true), limit, a, Bursts(limit, SECOND, n), a, a + length);
  }

  class RateLimiter {
    const limit: nat
    var window: nat
    var messages: nat
    var reading: bool

    ghost function View(): Window
      reads this
    {
      Window(limit, window, messages, reading)
    }

    constructor (limit: nat, now: nat)
      ensures View() == Window(limit, now, 0, true)
    {
      this.limit, window, messages, reading := limit, now, 0, true;
    }

    method Input(now: nat) returns (through: bool)
      requires window <= now && reading
      modifies this
      ensures View() == old(View()).Input(now) && through == reading
    {
      if now - window >= SECOND { window, messages := now, 0; }
      messages := messages + 1;
      if messages > limit { reading := false; }
      through := reading;
    }
  }
}
