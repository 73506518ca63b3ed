/** The logical client (src/actors/client.rs): a generation-numbered transport shared by
    every actor, and the inbox that the owner of one connection reads. */
module Clients {
  import opened Types

  type Payload = seq<nat>

  datatype Event = Frame(data: Payload) | Joined(room: RoomId) | Left(room: RoomId)

  /** One connection. `sent` is every event ever accepted for it, of which the receiver has
      taken the first `taken`; the bounded channel holds the rest. */
  datatype Transport = Transport(sent: seq<Event>, taken: nat, cancelled: bool, dropped: bool) {
    function Queued(): int { |sent| - taken }
  }

  datatype Client = Client(generation: nat, transport: Option<Transport>, closed: bool)
  {
    predicate Live() {
      transport.Some? && !transport.value.cancelled && !transport.value.dropped
    }

    predicate IsClosed() { closed || !Live() }

    predicate IsCurrent(g: nat) { generation == g && Live() && !closed }

    /** The current connection is present and has never been told to stop. */
    predicate Uncancelled() {
      transport.Some? && !transport.value.cancelled && !closed
    }

    function Attach(resumed: bool): (r: Result<Client>) {
      if closed then Err(Closed)
      else if transport.Some? && !resumed then Err(AlreadyConnected)
      else if generation >= U64_MAX then Err(Limit)
      else Ok(Client(generation + 1, Some(Transport([], 0, false, false)), false))
    }

    /** `close`: cancel the transport but leave it in place for its owner to suspend. */
    function Cancel(): Client {
      if transport.Some? then this.(transport := Some(transport.value.(cancelled := true))) else this
    }

    function CloseFinal(): Client { Client(generation, None, true) }

    function Suspend(g: nat): (Client, bool) {
      if closed || generation != g || transport.None? then (this, false)
      else (this.(transport := None), true)
    }

    function SuspendClosed(): (Client, Option<nat>) {
      if closed || transport.None? || Live() then (this, None)
      else (this.(transport := None), Some(generation))
    }

    function DeliverAt(capacity: nat, g: Option<nat>, event: Event): (Client, Result<()>) {
      if g.Some? && g.value != generation then (this, Err(Closed))
      else if transport.None? || closed || transport.value.cancelled then (this, Err(Closed))
      else
        var t := transport.value;
        if t.dropped then (Cancel(), Err(Closed))
        else if t.Queued() >= capacity then (Cancel(), Err(Busy))
        else (this.(transport := Some(t.(sent := t.sent + [event]))), Ok(()))
    }

    function Deliver(capacity: nat, event: Event): (Client, Result<()>) {
      DeliverAt(capacity, None, event)
    }
  }

  /** Everything that may happen to the shared client state, by whichever actor. */
  datatype Change =
    | Attaching(resumed: bool) | Cancelling | ClosingForGood | Suspending(generation: nat)
    | SuspendingClosed | Delivering(at: Option<nat>, event: Event)
    | InboxDropped | InboxTakes
  {
    function Apply(capacity: nat, c: Client): (r: Client) {
      match this
      case Attaching(resumed) => var a := c.Attach(resumed); if a.Ok? then a.value else c
      case Cancelling => c.Cancel()
      case ClosingForGood => c.CloseFinal()
      case Suspending(g) => c.Suspend(g).0
      case SuspendingClosed => c.SuspendClosed().0
      case Delivering(g, event) => c.DeliverAt(capacity, g, event).0
      case InboxDropped =>
        if c.transport.Some? then c.(transport := Some(c.transport.value.(dropped := true))) else c
      case InboxTakes =>
        if c.transport.Some? && c.transport.value.taken < |c.transport.value.sent|
        then c.(transport := Some(c.transport.value.(taken := c.transport.value.taken + 1)))
        else c
    }
  }

  function ApplyAll(capacity: nat, c: Client, changes: seq<Change>): Client
    decreases |changes|
  {
    if changes == [] then c else ApplyAll(capacity, changes[0].Apply(capacity, c), changes[1..])
  }

  /** What every run of changes keeps: generations never go back, closing is for ever, and
      within one generation a connection only ever gains events, is cancelled for good and,
      once taken away, does not come back. */
  predicate Evolves(c: Client, d: Client) {
    && c.generation <= d.generation
    && (c.closed ==> d.closed && d.generation == c.generation)
    && (c.generation == d.generation ==>
          && (d.transport.Some? ==> c.transport.Some?)
          && (d.transport.Some? ==>
                && c.transport.value.sent <= d.transport.value.sent
                && c.transport.value.taken <= d.transport.value.taken
                && (c.transport.value.cancelled ==> d.transport.value.cancelled)
                && (c.transport.value.dropped ==> d.transport.value.dropped)))
  }

  lemma {:induction false} RunEvolves(capacity: nat, c: Client, changes: seq<Change>)
    ensures Evolves(c, ApplyAll(capacity, c, changes))
    decreases |changes|
  {
    if changes != [] {
      var next := changes[0].Apply(capacity, c);
      assert Evolves(c, next);
      RunEvolves(capacity, next, changes[1..]);
    }
  }

  /** The channel never holds more than its capacity, and nothing is taken that was not sent. */
  predicate Fits(capacity: nat, c: Client) {
    c.transport.Some? ==> c.transport.value.taken <= |c.transport.value.sent| && c.transport.value.Queued() <= capacity
  }

  lemma {:induction false} ChannelStaysBounded(capacity: nat, c: Client, changes: seq<Change>)
    requires Fits(capacity, c)
    ensures Fits(capacity, ApplyAll(capacity, c, changes))
    decreases |changes|
  {
    if changes != [] {
      assert Fits(capacity, changes[0].Apply(capacity, c));
      ChannelStaysBounded(capacity, changes[0].Apply(capacity, c), changes[1..]);
    }
  }

  /** The client is open, its connection is live and is the one meant, and its channel has room. */
  predicate Accepts(capacity: nat, c: Client, g: Option<nat>) {
    !c.closed && c.Live() && (g == None || g == Some(c.generation)) && c.transport.value.Queued() < capacity
  }

  /** The channel is the one meant and has not been cancelled, but is full or abandoned. */
  predicate Chokes(capacity: nat, c: Client, g: Option<nat>) {
    c.Uncancelled() && (g == None || g == Some(c.generation)) && !Accepts(capacity, c, g)
  }

  /** An event is acknowledged exactly if the connection it is meant for can take it, and then it
      is the last of those in the channel; otherwise nothing is queued, and a connection that
      could not keep up, or whose reader is gone, is cancelled. */
  lemma DeliveryIsExact(capacity: nat, c: Client, g: Option<nat>, event: Event)
    ensures var (d, r) := c.DeliverAt(capacity, g, event);
            && (r.Ok? <==> Accepts(capacity, c, g))
            && d.generation == c.generation && d.closed == c.closed && d.transport.Some? == c.transport.Some?
            && (c.transport.Some? ==>
                  && d.transport.value.sent == c.transport.value.sent + (if r.Ok? then [event] else [])
                  && d.transport.value.taken == c.transport.value.taken
                  && d.transport.value.dropped == c.transport.value.dropped
                  && d.transport.value.cancelled == (c.transport.value.cancelled || Chokes(capacity, c, g)))
            && (r.Err? ==> r.error == if Chokes(capacity, c, g) && c.Live() then Busy else Closed)
  {
  }

  /** A reply addressed to a connection generation is never delivered to the connection that
      replaced it, whatever happened in between. */
  lemma {:induction false} RepliesNeverCrossGenerations(capacity: nat, c: Client, changes: seq<Change>,
                                                        resumed: bool, more: seq<Change>, event: Event)
    requires ApplyAll(capacity, c, changes).Attach(resumed).Ok?
    ensures var d := ApplyAll(capacity, ApplyAll(capacity, c, changes).Attach(resumed).value, more);
            && d.DeliverAt(capacity, Some(c.generation), event) == (d, Err(Closed))
            && !d.IsCurrent(c.generation)
            && d.Suspend(c.generation) == (d, false)
  {
    RunEvolves(capacity, c, changes);
    RunEvolves(capacity, ApplyAll(capacity, c, changes).Attach(resumed).value, more);
  }

  // ----- the objects -----------------------------------------------------------------

  /** The bounded channel between the handle and one inbox. The two ends outlive each other:
      a replaced inbox keeps its own channel. */
  class Channel {
    var queue: seq<Event>
    ghost var taken: seq<Event>
    var cancelled: bool
    var dropped: bool

    constructor ()
      ensures queue == [] && taken == [] && !cancelled && !dropped
    {
      queue, taken, cancelled, dropped := [], [], false, false;
    }

    ghost function View(): Transport
      reads this
    {
      Transport(taken + queue, |taken|, cancelled, dropped)
    }
  }

  class ClientHandle {
    const id: SessionId
    const principal: Principal
    const capacity: nat
    var generation: nat
    var transport: Channel?
    var closed: bool

    ghost function View(): Client
      reads this, transport
    {
      Client(generation, if transport == null then None else Some(transport.View()), closed)
    }

    ghost function Owned(): set<object>
      reads this
    {
      if transport == null then {this} else {this, transport}
    }

    constructor (id: SessionId, principal: Principal, capacity: nat)
      ensures this.id == id && this.principal == principal && this.capacity == capacity
      ensures View() == Client(0, None, false)
    {
      this.id, this.principal, this.capacity := id, principal, capacity;
      generation, transport, closed := 0, null, false;
    }

    method IsClosed() returns (r: bool)
      ensures r == View().IsClosed()
    {
      r := closed || transport == null || transport.cancelled || transport.dropped;
    }

    method IsCurrent(g: nat) returns (r: bool)
      ensures r == View().IsCurrent(g)
    {
      r := generation == g && transport != null && !transport.cancelled && !transport.dropped && !closed;
    }

    /** The new inbox reads a channel of its own; the one it replaces sees the cancellation. */
    method Attach(resumed: bool) returns (r: Result<ClientInbox>)
      modifies Owned()
      ensures r.Ok? <==> !old(closed) && (old(transport) == null || resumed) && old(generation) < U64_MAX
      ensures r.Ok? ==> generation == old(generation) + 1 && View().IsCurrent(generation)
      ensures r.Err? ==> r.error == if old(closed) then Closed
                                    else if old(transport) != null && !resumed then AlreadyConnected else Limit
      ensures var want := old(View()).Attach(resumed);
              && (r.Ok? <==> want.Ok?)
              && (r.Err? ==> r.error == want.error && View() == old(View()) && transport == old(transport))
              && (r.Ok? ==>
                    && View() == want.value
                    && fresh(transport) && fresh(r.value) && r.value.rx == transport
                    && r.value.View() == Inbox([], [], capacity)
                    && (old(transport) != null ==> old(transport).cancelled))
    {
      if closed { return Err(Closed); }
      if transport != null && !resumed { return Err(AlreadyConnected); }
      if generation >= U64_MAX { return Err(Limit); }
      if transport != null { transport.cancelled := true; }
      generation := generation + 1;
      transport := new Channel();
      assert transport.View() == Transport([], 0, false, false);
      var inbox := new ClientInbox(transport, capacity);
      r := Ok(inbox);
    }

    method Close()
      modifies Owned()
      ensures View() == old(View()).Cancel() && transport == old(transport)
      ensures View().IsClosed() && (transport != null ==> transport.cancelled)
    {
      if transport != null { transport.cancelled := true; }
    }

    method CloseFinal()
      modifies Owned()
      ensures View() == old(View()).CloseFinal()
      ensures closed && transport == null && generation == old(generation)
      ensures old(transport) != null ==> old(transport).cancelled
    {
      closed := true;
      if transport != null { transport.cancelled := true; }
      transport := null;
    }

    method Suspend(g: nat) returns (r: bool)
      modifies Owned()
      ensures (View(), r) == old(View()).Suspend(g)
      ensures r <==> !old(closed) && old(generation) == g && old(transport) != null
      ensures r ==> old(transport).cancelled && transport == null
      ensures !r ==> transport == old(transport)
    {
      if closed || generation != g || transport == null { return false; }
      transport.cancelled := true;
      transport := null;
      r := true;
    }

    method SuspendClosed() returns (r: Option<nat>)
      modifies Owned()
      ensures (View(), r) == old(View()).SuspendClosed()
      ensures r.Some? <==> old(!closed && transport != null && (transport.cancelled || transport.dropped))
      ensures r.None? ==> transport == old(transport)
      ensures r.Some? ==> old(transport).cancelled && transport == null && r.value == generation
    {
      if closed || transport == null || (!transport.cancelled && !transport.dropped) { return None; }
      transport.cancelled := true;
      transport := null;
      r := Some(generation);
    }

    method DeliverAt(g: Option<nat>, event: Event) returns (r: Result<()>)
      modifies Owned()
      ensures (View(), r) == old(View()).DeliverAt(capacity, g, event)
      ensures transport == old(transport)
    {
      if g.Some? && g.value != generation { return Err(Closed); }
      if transport == null || closed || transport.cancelled { return Err(Closed); }
      if transport.dropped {
        transport.cancelled := true;
        return Err(Closed);
      }
      if |transport.queue| >= capacity {
        transport.cancelled := true;
        return Err(Busy);
      }
      ghost var before := transport.View();
      transport.queue := transport.queue + [event];
      assert transport.View().sent == before.sent + [event];
      r := Ok(());
    }
  }

  // ----- the inbox -------------------------------------------------------------------

  /** What a receive future yields when polled: it is ready (with nothing more to come if
      `None`), or it would wait. */
  datatype Poll<+T> = Ready(item: Option<T>) | Pending

  function FirstRoute(events: seq<Event>): (i: nat)
    ensures i <= |events|
    ensures i < |events| ==> events[i].Joined?
    ensures forall k :: 0 <= k < i ==> !events[k].Joined?
  {
    if events == [] || events[0].Joined? then 0 else 1 + FirstRoute(events[1..])
  }

  /** `pending` is the inbox's own look-aside buffer, `rx` what is queued in its channel. */
  datatype Inbox = Inbox(pending: seq<Event>, rx: seq<Event>, capacity: nat) {

    function All(): seq<Event> { pending + rx }

    /** `recv` and `try_recv` of an uncancelled inbox: the buffer first, then the channel. */
    function Receive(): (Inbox, Poll<Event>) {
      if pending != [] then (this.(pending := pending[1..]), Ready(Some(pending[0])))
      else if rx != [] then (this.(rx := rx[1..]), Ready(Some(rx[0])))
      else (this, Pending)
    }

    /** `next_room`: the earliest buffered route, or else move events into the buffer until a
        route arrives, the buffer is full, or the channel is empty. */
    function NextRoom(): (Inbox, Poll<RoomId>) {
      var i := FirstRoute(pending);
      if i < |pending| then (this.(pending := pending[..i] + pending[i + 1..]), Ready(Some(pending[i].room)))
      else Seek()
    }

    function Seek(): (Inbox, Poll<RoomId>)
      decreases |rx|
    {
      if |pending| >= capacity then (this, Ready(None))
      else if rx == [] then (this, Pending)
      else if rx[0].Joined? then (this.(rx := rx[1..]), Ready(Some(rx[0].room)))
      else Inbox(pending + [rx[0]], rx[1..], capacity).Seek()
    }
  }

  class ClientInbox {
    const rx: Channel
    const capacity: nat
    var pending: seq<Event>

    constructor (rx: Channel, capacity: nat)
      ensures this.rx == rx && this.capacity == capacity && pending == []
    {
      this.rx, this.capacity, pending := rx, capacity, [];
    }

    ghost function View(): Inbox
      reads this, rx
    {
      Inbox(pending, rx.queue, capacity)
    }

    method RestoreRoutes(rooms: seq<RoomId>)
      modifies this
      ensures View()
           == old(View()).(pending := old(pending) + seq(|rooms|, i requires 0 <= i < |rooms| => Joined(rooms[i])))
    {
      pending := pending + seq(|rooms|, i requires 0 <= i < |rooms| => Joined(rooms[i]));
    }

    /** One poll of `recv`; `try_recv` is the same with `Pending` read as "nothing now". */
    method Recv() returns (r: Poll<Event>)
      modifies this, rx
      ensures old(rx.cancelled) ==> r == Ready(None) && View() == old(View())
      ensures !old(rx.cancelled) ==> (View(), r) == old(View()).Receive()
      ensures rx.View().sent == old(rx.View().sent) && rx.cancelled == old(rx.cancelled)
    {
      if rx.cancelled { return Ready(None); }
      if pending != [] {
        r := Ready(Some(pending[0]));
        pending := pending[1..];
        return;
      }
      r := Take();
    }

    /** `receive`: the next event of the channel itself. */
    method Take() returns (r: Poll<Event>)
      modifies rx
      ensures rx.queue == old(if rx.queue == [] then [] else rx.queue[1..])
      ensures r == old(if rx.queue == [] then Pending else Ready(Some(rx.queue[0])))
      ensures rx.View().sent == old(rx.View().sent) && rx.cancelled == old(rx.cancelled)
    {
      if rx.queue == [] { return Pending; }
      r := Ready(Some(rx.queue[0]));
      ghost var before := rx.taken + rx.queue;
      rx.taken := rx.taken + [rx.queue[0]];
      rx.queue := rx.queue[1..];
      assert rx.taken + rx.queue == before;
    }

    method NextRoom() returns (r: Poll<RoomId>)
      modifies this, rx
      ensures old(rx.cancelled) ==> r == Ready(None) && View() == old(View())
      ensures !old(rx.cancelled) ==> (View(), r) == old(View()).NextRoom()
      ensures rx.View().sent == old(rx.View().sent)
    {
      if rx.cancelled { return Ready(None); }
      var i := FirstRoute(pending);
      if i < |pending| {
        r := Ready(Some(pending[i].room));
        pending := pending[..i] + pending[i + 1..];
        return;
      }
      while |pending| < capacity
        invariant View().Seek() == old(View()).Seek()
        invariant rx.View().sent == old(rx.View().sent) && !rx.cancelled
        decreases |rx.queue|, capacity - |pending|
      {
        var event := Take();
        if event.Pending? { return Pending; }
        if event.item.value.Joined? { return Ready(Some(event.item.value.room)); }
        pending := pending + [event.item.value];
      }
      r := Ready(None);
    }
  }

  // ----- nothing is lost -------------------------------------------------------------

  /** Of a sequence of events, the routes (`true`) or everything else (`false`), in order. */
  function Only(events: seq<Event>, routes: bool): seq<Event> {
    if events == [] then []
    else if events[0].Joined? == routes then [events[0]] + Only(events[1..], routes)
    else Only(events[1..], routes)
  }

  datatype Call = Arrives(event: Event) | Receives | SeeksRoom

  /** An inbox being used: every event that ever came in, and those handed to the caller. */
  datatype Use = Use(inbox: Inbox, came: seq<Event>, handed: seq<Event>) {
    function Do(call: Call): Use {
      match call
      case Arrives(event) => Use(inbox.(rx := inbox.rx + [event]), came + [event], handed)
      case Receives =>
        var (y, r) := inbox.Receive();
        Use(y, came, if r.Ready? && r.item.Some? then handed + [r.item.value] else handed)
      case SeeksRoom =>
        var (y, r) := inbox.NextRoom();
        Use(y, came, if r.Ready? && r.item.Some? then handed + [Joined(r.item.value)] else handed)
    }

    function DoAll(calls: seq<Call>): Use
      decreases |calls|
    {
      if calls == [] then this else Do(calls[0]).DoAll(calls[1..])
    }

    /** Handed over, then still held: exactly what came. */
    predicate Lossless(routes: bool) {
      Only(handed, routes) + Only(inbox.All(), routes) == Only(came, routes)
    }
  }

  lemma {:induction false} Split(a: seq<Event>, b: seq<Event>, routes: bool)
    ensures Only(a + b, routes) == Only(a, routes) + Only(b, routes)
  {
    if a == [] {
      assert a + b == b;
    } else {
      assert (a + b)[1..] == a[1..] + b;
      Split(a[1..], b, routes);
    }
  }

  lemma {:induction false} NoRoutes(events: seq<Event>)
    requires forall k :: 0 <= k < |events| ==> !events[k].Joined?
    ensures Only(events, true) == []
  {
    if events != [] {
      NoRoutes(events[1..]);
    }
  }

  /** Handing over an event from behind events of the other kind keeps the order. */
  lemma HandOver(handed: seq<Event>, before: seq<Event>, e: Event, after: seq<Event>, routes: bool)
    requires before == [] || (e.Joined? && forall k :: 0 <= k < |before| ==> !before[k].Joined?)
    ensures Only(handed + [e], routes) + Only(before + after, routes)
         == Only(handed, routes) + Only(before + ([e] + after), routes)
  {
    Split(handed, [e], routes);
    Split(before, after, routes);
    Split(before, [e] + after, routes);
    Split([e], after, routes);
    var h, p, q, r := Only(handed, routes), Only(before, routes), Only([e], routes), Only(after, routes);
    assert p == [] || q == [] by {
      if routes && before != [] { NoRoutes(before); }
    }
    Swap(h, p, q, r);
  }

  lemma Swap(h: seq<Event>, p: seq<Event>, q: seq<Event>, r: seq<Event>)
    requires p == [] || q == []
    ensures (h + q) + (p + r) == h + (p + (q + r))
  {
  }

  lemma {:induction false} SeekMoves(x: Inbox) returns (before: seq<Event>, after: seq<Event>)
    requires forall k :: 0 <= k < |x.pending| ==> !x.pending[k].Joined?
    ensures forall k :: 0 <= k < |before| ==> !before[k].Joined?
    ensures var (y, r) := x.Seek();
            if r.Ready? && r.item.Some?
            then y.All() == before + after && x.All() == before + ([Joined(r.item.value)] + after)
            else y.All() == x.All()
    decreases |x.rx|
  {
    before, after := [], [];
    if |x.pending| >= x.capacity || x.rx == [] {
    } else if x.rx[0].Joined? {
      before, after := x.pending, x.rx[1..];
      assert [x.rx[0]] + after == x.rx;
    } else {
      var next := Inbox(x.pending + [x.rx[0]], x.rx[1..], x.capacity);
      assert next.All() == x.All();
      before, after := SeekMoves(next);
    }
  }

  lemma CallKeepsLossless(u: Use, call: Call, routes: bool)
    requires u.Lossless(routes)
    ensures u.Do(call).Lossless(routes)
  {
    var v := u.Do(call);
    match call {
      case Arrives(e) =>
        assert v.inbox.All() == u.inbox.All() + [e];
        ArrivalKeepsLossless(u.handed, u.inbox.All(), u.came, e, routes);
      case Receives =>
        if v.handed != u.handed {
          var e := v.handed[|u.handed|];
          assert u.inbox.All() == [] + ([e] + v.inbox.All());
          assert v.inbox.All() == [] + v.inbox.All();
          HandOver(u.handed, [], e, v.inbox.All(), routes);
        }
      case SeeksRoom =>
        SeekRoomKeepsLossless(u, routes);
    }
  }

  lemma ArrivalKeepsLossless(handed: seq<Event>, held: seq<Event>, came: seq<Event>, e: Event, routes: bool)
    requires Only(handed, routes) + Only(held, routes) == Only(came, routes)
    ensures Only(handed, routes) + Only(held + [e], routes) == Only(came + [e], routes)
  {
    Split(held, [e], routes);
    Split(came, [e], routes);
    Associate(Only(handed, routes), Only(held, routes), Only([e], routes));
  }

  lemma Associate(a: seq<Event>, b: seq<Event>, c: seq<Event>)
    ensures (a + b) + c == a + (b + c)
  {
  }

  lemma SeekRoomKeepsLossless(u: Use, routes: bool)
    requires u.Lossless(routes)
    ensures u.Do(SeeksRoom).Lossless(routes)
  {
    var x := u.inbox;
    var i := FirstRoute(x.pending);
    if i < |x.pending| {
      var before, after := x.pending[..i], x.pending[i + 1..] + x.rx;
      assert x.All() == before + ([x.pending[i]] + after);
      assert x.NextRoom().0.All() == before + after;
      HandOver(u.handed, before, x.pending[i], after, routes);
    } else {
      var before, after := SeekMoves(x);
      var (y, r) := x.Seek();
      if r.Ready? && r.item.Some? {
        HandOver(u.handed, before, Joined(r.item.value), after, routes);
      }
    }
  }

  /** For a connection that is never cancelled, any mix of `recv`, `try_recv` and `next_room`
      hands over every event other than a route in delivery order without a gap, and every
      route in delivery order without a gap: what was handed over followed by what is still
      held is what was held first followed by what arrived. */
  lemma {:induction false} InboxIsLossless(u: Use, calls: seq<Call>, routes: bool)
    requires u.Lossless(routes)
    ensures u.DoAll(calls).Lossless(routes)
    decreases |calls|
  {
    if calls != [] {
      CallKeepsLossless(u, calls[0], routes);
      InboxIsLossless(u.Do(calls[0]), calls[1..], routes);
    }
  }

  /** A route is handed over by `next_room`, and the first of all events held is not one. */
  predicate Overtakes(x: Inbox) {
    var i := FirstRoute(x.All());
    0 < i < |x.All()| && (i < |x.pending| || i < x.capacity)
  }

  predicate InOrder(u: Use) { u.handed + u.inbox.All() == u.came }

  lemma {:induction false} FirstRouteIs(before: seq<Event>, e: Event, after: seq<Event>)
    requires e.Joined? && forall k :: 0 <= k < |before| ==> !before[k].Joined?
    ensures FirstRoute(before + ([e] + after)) == |before|
  {
    var all := before + ([e] + after);
    assert all[|before|] == e;
    assert forall k :: 0 <= k < |before| ==> all[k] == before[k];
  }

  /** `next_room` hands over the first route there is, if its buffer is large enough to get at it. */
  lemma {:induction false} SeekReaches(x: Inbox)
    requires forall k :: 0 <= k < |x.pending| ==> !x.pending[k].Joined?
    ensures var r := x.Seek().1;
            var i := FirstRoute(x.All());
            r.Ready? && r.item.Some? <==> |x.pending| <= i < |x.All()| && i < x.capacity
    decreases |x.rx|
  {
    assert forall k :: 0 <= k < |x.pending| ==> x.All()[k] == x.pending[k];
    if |x.pending| >= x.capacity || x.rx == [] {
      assert x.rx == [] ==> x.All() == x.pending;
    } else if x.rx[0].Joined? {
      assert x.rx == [x.rx[0]] + x.rx[1..];
      FirstRouteIs(x.pending, x.rx[0], x.rx[1..]);
    } else {
      var next := Inbox(x.pending + [x.rx[0]], x.rx[1..], x.capacity);
      assert next.All() == x.All();
      assert x.All()[|x.pending|] == x.rx[0];
      SeekReaches(next);
    }
  }

  /** What `next_room` takes out of the events held, and whether it does. */
  lemma NextRoomTakes(x: Inbox) returns (before: seq<Event>, after: seq<Event>)
    ensures forall k :: 0 <= k < |before| ==> !before[k].Joined?
    ensures var (y, r) := x.NextRoom();
            if r.Ready? && r.item.Some?
            then y.All() == before + after && x.All() == before + ([Joined(r.item.value)] + after)
                && (Overtakes(x) <==> before != [])
            else y.All() == x.All() && !Overtakes(x)
  {
    if FirstRoute(x.pending) < |x.pending| {
      before, after := HeldRoute(x);
    } else {
      before, after := SeekMoves(x);
      SeekReaches(x);
      var r := x.Seek().1;
      if r.Ready? && r.item.Some? { FirstRouteIs(before, Joined(r.item.value), after); }
      else if 0 < FirstRoute(x.All()) < |x.All()| { PastThePending(x); }
    }
  }

  /** It is the earliest of the routes held back. */
  lemma HeldRoute(x: Inbox) returns (before: seq<Event>, after: seq<Event>)
    requires FirstRoute(x.pending) < |x.pending|
    ensures forall k :: 0 <= k < |before| ==> !before[k].Joined?
    ensures var (y, r) := x.NextRoom();
            && r.Ready? && r.item.Some? && y.All() == before + after
            && x.All() == before + ([Joined(r.item.value)] + after) && (Overtakes(x) <==> before != [])
  {
    var i := FirstRoute(x.pending);
    before, after := x.pending[..i], x.pending[i + 1..] + x.rx;
    assert x.All() == before + ([x.pending[i]] + after);
    assert x.NextRoom().0.All() == before + after;
    FirstRouteIs(before, x.pending[i], after);
  }

  lemma PastThePending(x: Inbox)
    requires forall k :: 0 <= k < |x.pending| ==> !x.pending[k].Joined?
    requires FirstRoute(x.All()) < |x.All()|
    ensures |x.pending| <= FirstRoute(x.All())
  {
    assert forall k :: 0 <= k < |x.pending| ==> x.All()[k] == x.pending[k];
  }

  lemma OutOfTurn(handed: seq<Event>, before: seq<Event>, e: Event, after: seq<Event>)
    requires e.Joined? && forall k :: 0 <= k < |before| ==> !before[k].Joined?
    ensures (handed + [e]) + (before + after) == handed + (before + ([e] + after)) <==> before == []
  {
    var a, b := (handed + [e]) + (before + after), handed + (before + ([e] + after));
    if before == [] {
      assert before + after == after && before + ([e] + after) == [e] + after;
    } else {
      assert a[|handed|] == e && b[|handed|] == before[0];
    }
  }

  /** One call keeps the exact order of delivery if and only if it is not a `next_room` that
      overtakes something. */
  lemma CallKeepsOrder(u: Use, call: Call)
    requires InOrder(u)
    ensures InOrder(u.Do(call)) <==> !(call.SeeksRoom? && Overtakes(u.inbox))
  {
    var v := u.Do(call);
    match call {
      case Arrives(e) =>
        assert v.inbox.All() == u.inbox.All() + [e];
        Associate(u.handed, u.inbox.All(), [e]);
      case Receives =>
        if v.handed != u.handed {
          var e := v.handed[|u.handed|];
          assert u.inbox.All() == [e] + v.inbox.All();
          Associate(u.handed, [e], v.inbox.All());
        }
      case SeeksRoom =>
        var before, after := NextRoomTakes(u.inbox);
        var r := u.inbox.NextRoom().1;
        if r.Ready? && r.item.Some? { OutOfTurn(u.handed, before, Joined(r.item.value), after); }
    }
  }

  /** The exact order of delivery holds before and after every call. */
  ghost predicate StaysInOrder(u: Use, calls: seq<Call>)
    decreases |calls|
  {
    InOrder(u) && (calls == [] || StaysInOrder(u.Do(calls[0]), calls[1..]))
  }

  /** No `next_room` among the calls finds a route behind something else. */
  ghost predicate NothingOvertaken(u: Use, calls: seq<Call>)
    decreases |calls|
  {
    calls == [] || (!(calls[0].SeeksRoom? && Overtakes(u.inbox)) && NothingOvertaken(u.Do(calls[0]), calls[1..]))
  }

  /** Any mix of calls sees the exact order of delivery, routes included, if and only if no
      `next_room` among them overtakes something. */
  lemma {:induction false} TotalOrderIsExact(u: Use, calls: seq<Call>)
    requires InOrder(u)
    ensures StaysInOrder(u, calls) <==> NothingOvertaken(u, calls)
    decreases |calls|
  {
    if calls != [] {
      CallKeepsOrder(u, calls[0]);
      if InOrder(u.Do(calls[0])) { TotalOrderIsExact(u.Do(calls[0]), calls[1..]); }
    }
  }

  /** So a reader that only uses `recv` and `try_recv`, as the connection loop does, always sees
      that order. */
  lemma {:induction false} ReceivingKeepsTotalOrder(u: Use, calls: seq<Call>)
    requires InOrder(u) && forall k :: 0 <= k < |calls| ==> !calls[k].SeeksRoom?
    ensures StaysInOrder(u, calls) && InOrder(u.DoAll(calls))
    decreases |calls|
  {
    if calls != [] {
      CallKeepsOrder(u, calls[0]);
      ReceivingKeepsTotalOrder(u.Do(calls[0]), calls[1..]);
    }
  }

  /** A room that was left and joined again is handed over before the event that it was left:
      for every such inbox, and in one call. */
  lemma NextRoomOvertakesALeave(room: RoomId, capacity: nat, came: seq<Event>)
    requires capacity > 1
    ensures var x := Inbox([], [Left(room), Joined(room)], capacity);
            var u := Use(x, came + x.All(), came);
            InOrder(u) && !InOrder(u.Do(SeeksRoom)) && u.Do(SeeksRoom).handed == came + [Joined(room)]
  {
    var x := Inbox([], [Left(room), Joined(room)], capacity);
    assert [Left(room), Joined(room)][1..] == [Joined(room)];
    assert FirstRoute([Left(room), Joined(room)]) == 1;
    assert x.All() == [Left(room), Joined(room)];
    CallKeepsOrder(Use(x, came + x.All(), came), SeeksRoom);
    assert Inbox([Left(room)], [Joined(room)], capacity).Seek().1 == Ready(Some(room));
    assert [] + [Left(room)] == [Left(room)];
    assert x.NextRoom().1 == x.Seek().1 == Ready(Some(room));
  }
}
