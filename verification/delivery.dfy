/** From the sender of an event to the reader of one connection (src/actors/client.rs): what is
    acknowledged is handed over. */
module Deliveries {
  import opened Types
  import opened Clients

  /** A client with the inbox of one of its connections: what that inbox holds back, what it has
      handed over, and every event whose delivery to the client has been acknowledged since the
      connection was made. */
  datatype Line = Line(client: Client, pending: seq<Event>, handed: seq<Event>, acked: seq<Event>) {

    /** The inbox reads what is queued in the connection's channel. */
    function Held(capacity: nat): Inbox {
      Inbox(pending,
            if client.transport.Some? && client.transport.value.taken <= |client.transport.value.sent|
            then client.transport.value.sent[client.transport.value.taken..] else [],
            capacity)
    }

    /** A cancelled inbox yields nothing. */
    predicate Readable() { client.transport.Some? && !client.transport.value.cancelled }

    function Do(capacity: nat, act: Act): Line {
      match act
      case Happens(change) =>
        var ok := change.Delivering? && client.DeliverAt(capacity, change.at, change.event).1.Ok?;
        Line(change.Apply(capacity, client), pending, handed, if ok then acked + [change.event] else acked)
      case Reads(call) =>
        if !Readable() then this else
        var (t, v) := (client.transport.value, Use(Held(capacity), [], handed).Do(call));
        var left := if |v.inbox.rx| <= |t.sent| then |t.sent| - |v.inbox.rx| else t.taken;
        Line(client.(transport := Some(t.(taken := left))), v.inbox.pending, v.handed, acked)
    }

    function DoAll(capacity: nat, acts: seq<Act>): Line
      decreases |acts|
    {
      if acts == [] then this else Do(capacity, acts[0]).DoAll(capacity, acts[1..])
    }
  }

  /** Something happens to the client, or the inbox is read. */
  datatype Act = Happens(change: Change) | Reads(call: Call)

  /** What is queued is taken by reading the inbox and in no other way. */
  predicate Sensible(act: Act) {
    match act
    case Happens(change) => !change.InboxTakes?
    case Reads(call) => !call.Arrives?
  }

  predicate AllSensible(acts: seq<Act>) { forall i :: 0 <= i < |acts| ==> Sensible(acts[i]) }

  /** No inbox is asked for a route out of turn. */
  predicate Patient(acts: seq<Act>) { forall i :: 0 <= i < |acts| ==> acts[i] != Reads(SeeksRoom) }

  /** As long as the connection of generation `g` is there, its channel was sent exactly what was
      acknowledged. */
  predicate Honest(l: Line, g: nat) {
    && g <= l.client.generation
    && (l.client.generation == g && l.client.transport.Some? ==>
          l.client.transport.value.sent == l.acked && l.client.transport.value.taken <= |l.acked|)
  }

  /** The connection of generation `g` is there. */
  predicate On(l: Line, g: nat) { l.client.generation == g && l.client.transport.Some? }

  /** Of routes, or of everything else: what has been handed over, followed by what is still held,
      is what was held at first, followed by what has been acknowledged since, without a gap. */
  predicate Arrived(l: Line, g: nat, capacity: nat, first: seq<Event>, routes: bool) {
    On(l, g) ==> Only(l.handed, routes) + Only(l.Held(capacity).All(), routes) == Only(first + l.acked, routes)
  }

  /** The same of everything together. */
  predicate ArrivedInOrder(l: Line, g: nat, capacity: nat, first: seq<Event>) {
    On(l, g) ==> l.handed + l.Held(capacity).All() == first + l.acked
  }

  lemma {:induction false} SeekTakes(x: Inbox)
    ensures var y := x.Seek().0; |y.rx| <= |x.rx| && y.rx == x.rx[|x.rx| - |y.rx|..] && y.capacity == x.capacity
    decreases |x.rx|
  {
    if |x.pending| < x.capacity && x.rx != [] && !x.rx[0].Joined? {
      SeekTakes(Inbox(x.pending + [x.rx[0]], x.rx[1..], x.capacity));
    }
  }

  /** Reading takes events from the front of the channel. */
  lemma ReadTakes(x: Inbox, handed: seq<Event>, call: Call)
    requires !call.Arrives?
    ensures var y := Use(x, [], handed).Do(call).inbox;
            |y.rx| <= |x.rx| && y.rx == x.rx[|x.rx| - |y.rx|..] && y.capacity == x.capacity
  {
    if call.SeeksRoom? && FirstRoute(x.pending) >= |x.pending| { SeekTakes(x); }
  }

  lemma ReadIsHonest(l: Line, g: nat, capacity: nat, call: Call)
    requires Honest(l, g) && !call.Arrives?
    ensures Honest(l.Do(capacity, Reads(call)), g)
    ensures var m := l.Do(capacity, Reads(call));
            && On(m, g) == On(l, g) && m.acked == l.acked
            && (On(l, g) && l.Readable() ==>
                  var v := Use(l.Held(capacity), [], l.handed).Do(call);
                  m.Held(capacity) == v.inbox && m.handed == v.handed)
  {
    if l.Readable() { ReadTakes(l.Held(capacity), l.handed, call); }
  }

  /** Delivering adds to the channel what is acknowledged; nothing else that happens to the client
      changes what a connection was sent, and no connection comes back. */
  lemma ChangeIsHonest(l: Line, g: nat, capacity: nat, change: Change)
    requires Honest(l, g) && !change.InboxTakes?
    ensures var m := l.Do(capacity, Happens(change));
            && Honest(m, g) && (On(m, g) ==> On(l, g)) && m.handed == l.handed
            && (On(m, g) ==>
                  && (m.acked == l.acked || exists e :: m.acked == l.acked + [e])
                  && m.Held(capacity).pending == l.Held(capacity).pending
                  && m.Held(capacity).rx == l.Held(capacity).rx + m.acked[|l.acked|..])
  {
    hide Client.DeliverAt;
    if change.Delivering? { DeliveryIsExact(capacity, l.client, change.at, change.event); }
  }

  /** Reading has to do with what came only by name. */
  lemma SameReading(x: Inbox, came: seq<Event>, handed: seq<Event>, call: Call)
    requires !call.Arrives?
    ensures var (u, v) := (Use(x, came, handed).Do(call), Use(x, [], handed).Do(call));
            u == Use(v.inbox, came, v.handed)
  {
  }

  lemma ActArrives(l: Line, g: nat, capacity: nat, first: seq<Event>, act: Act, routes: bool)
    requires Honest(l, g) && Arrived(l, g, capacity, first, routes) && Sensible(act)
    ensures Honest(l.Do(capacity, act), g) && Arrived(l.Do(capacity, act), g, capacity, first, routes)
  {
    hide Line.Do, Line.Held, Use.Do, Only;
    var m := l.Do(capacity, act);
    match act
    case Reads(call) =>
      ReadIsHonest(l, g, capacity, call);
      NothingRead(l, capacity, call);
      if On(m, g) && l.Readable() {
        CallKeepsLossless(Use(l.Held(capacity), first + l.acked, l.handed), call, routes);
        SameReading(l.Held(capacity), first + l.acked, l.handed, call);
      }
    case Happens(change) =>
      ChangeIsHonest(l, g, capacity, change);
      if On(m, g) && m.acked != l.acked {
        var e :| m.acked == l.acked + [e];
        MoreHeld(l.Held(capacity), m.Held(capacity), first, l.acked, m.acked, e);
        ArrivalKeepsLossless(l.handed, l.Held(capacity).All(), first + l.acked, e, routes);
      } else if On(m, g) {
        NoneHeld(l.Held(capacity), m.Held(capacity), l.acked);
      }
  }

  lemma NothingRead(l: Line, capacity: nat, call: Call)
    ensures !l.Readable() ==> l.Do(capacity, Reads(call)) == l
  {
  }

  lemma MoreHeld(x: Inbox, y: Inbox, first: seq<Event>, acked: seq<Event>, more: seq<Event>, e: Event)
    requires more == acked + [e] && y.pending == x.pending && y.rx == x.rx + more[|acked|..]
    ensures y.All() == x.All() + [e] && first + more == (first + acked) + [e]
  {
    assert more[|acked|..] == [e];
  }

  lemma NoneHeld(x: Inbox, y: Inbox, acked: seq<Event>)
    requires y.pending == x.pending && y.rx == x.rx + acked[|acked|..]
    ensures y.All() == x.All()
  {
  }

  /** Whatever happens to the client, and however its inbox is read: as long as a connection lasts,
      the events acknowledged for it are, routes and other events each in their order, exactly what
      its inbox has handed over and what it still holds. */
  lemma {:induction false} AcknowledgedArrives(l: Line, g: nat, capacity: nat, first: seq<Event>, acts: seq<Act>,
                                               routes: bool)
    requires Honest(l, g) && Arrived(l, g, capacity, first, routes) && AllSensible(acts)
    ensures Honest(l.DoAll(capacity, acts), g) && Arrived(l.DoAll(capacity, acts), g, capacity, first, routes)
    decreases |acts|
  {
    hide Honest, Arrived, Sensible, Line.Do;
    if acts != [] {
      ActArrives(l, g, capacity, first, acts[0], routes);
      AcknowledgedArrives(l.Do(capacity, acts[0]), g, capacity, first, acts[1..], routes);
    }
  }

  lemma ActArrivesInOrder(l: Line, g: nat, capacity: nat, first: seq<Event>, act: Act)
    requires Honest(l, g) && ArrivedInOrder(l, g, capacity, first) && Sensible(act) && act != Reads(SeeksRoom)
    ensures Honest(l.Do(capacity, act), g) && ArrivedInOrder(l.Do(capacity, act), g, capacity, first)
  {
    hide Line.Do, Line.Held, Use.Do;
    var m := l.Do(capacity, act);
    match act
    case Reads(call) =>
      ReadIsHonest(l, g, capacity, call);
      NothingRead(l, capacity, call);
      if On(m, g) && l.Readable() {
        CallKeepsOrder(Use(l.Held(capacity), first + l.acked, l.handed), call);
        SameReading(l.Held(capacity), first + l.acked, l.handed, call);
      }
    case Happens(change) =>
      ChangeIsHonest(l, g, capacity, change);
      if On(m, g) && m.acked != l.acked {
        var e :| m.acked == l.acked + [e];
        MoreHeld(l.Held(capacity), m.Held(capacity), first, l.acked, m.acked, e);
        Associate(l.handed, l.Held(capacity).All(), [e]);
      } else if On(m, g) {
        NoneHeld(l.Held(capacity), m.Held(capacity), l.acked);
      }
  }

  /** And if the inbox is only ever asked for whatever is next, as the connection loop does, they
      are so in the very order in which they were acknowledged. */
  lemma {:induction false} AcknowledgedArrivesInOrder(l: Line, g: nat, capacity: nat, first: seq<Event>, acts: seq<Act>)
    requires Honest(l, g) && ArrivedInOrder(l, g, capacity, first) && AllSensible(acts) && Patient(acts)
    ensures Honest(l.DoAll(capacity, acts), g) && ArrivedInOrder(l.DoAll(capacity, acts), g, capacity, first)
    decreases |acts|
  {
    hide Honest, ArrivedInOrder, Sensible, Line.Do;
    if acts != [] {
      ActArrivesInOrder(l, g, capacity, first, acts[0]);
      AcknowledgedArrivesInOrder(l.Do(capacity, acts[0]), g, capacity, first, acts[1..]);
    }
  }

  /** A new connection, whose inbox is given some routes to begin with. */
  function NewLine(c: Client, resumed: bool, first: seq<Event>): Line {
    Line(Change.Attaching(resumed).Apply(0, c), first, [], [])
  }

  lemma NewLineIsHonest(c: Client, resumed: bool, capacity: nat, first: seq<Event>, routes: bool)
    requires c.Attach(resumed).Ok?
    ensures var l := NewLine(c, resumed, first);
            && Honest(l, c.generation + 1) && ArrivedInOrder(l, c.generation + 1, capacity, first)
            && Arrived(l, c.generation + 1, capacity, first, routes)
  {
    assert NewLine(c, resumed, first).Held(capacity).All() == first;
    assert first + [] == first && [] + first == first;
  }

  /** So it is of every connection from its beginning, whatever generation it is of. */
  lemma RepliesArrive(c: Client, resumed: bool, capacity: nat, first: seq<Event>, acts: seq<Act>, routes: bool)
    requires c.Attach(resumed).Ok? && AllSensible(acts)
    ensures var m := NewLine(c, resumed, first).DoAll(capacity, acts);
            && Arrived(m, c.generation + 1, capacity, first, routes)
            && (Patient(acts) ==> ArrivedInOrder(m, c.generation + 1, capacity, first))
  {
    hide Honest, Arrived, ArrivedInOrder, AllSensible, Patient, Line.DoAll, NewLine;
    var l := NewLine(c, resumed, first);
    NewLineIsHonest(c, resumed, capacity, first, routes);
    AcknowledgedArrives(l, c.generation + 1, capacity, first, acts, routes);
    if Patient(acts) { AcknowledgedArrivesInOrder(l, c.generation + 1, capacity, first, acts); }
  }
}
