/** The session manager (src/actors/session_manager.rs): which logical sessions exist, who may
    resume them and until when. */
module SessionManagers {
  import opened Types
  import opened Clients

  datatype Parked = Parked(generation: nat, deadline: nat)

  /** Every client that was ever registered, and what is filed about those that still are. */
  datatype Book = Book(
    capacity: nat, grace: nat,
    clients: map<SessionId, Client>,
    sessions: map<SessionId, Principal>,
    proofs: map<SessionId, Token>,
    suspended: map<SessionId, Parked>,
    accounts: map<AccountId, SessionId>)
  {
    function Of(s: SessionId): Client { if s in clients then clients[s] else Client(0, None, true) }

    /** `heard` tells whether the caller still waits for the reply. */
    function Register(s: SessionId, principal: Principal, client: Client, proof: Token, heard: bool): (Book,
                      Result<()>) {
      if |sessions| >= capacity then (this, Err(Limit))
      else if principal.Account? && principal.id in accounts then (this, Err(AlreadyConnected))
      else if client.IsClosed() then (this, Err(Closed))
      else if heard then
        (this.(clients := clients[s := client], sessions := sessions[s := principal], proofs := proofs[s := proof],
               accounts := if principal.Account? then accounts[principal.id := s] else accounts), Ok(()))
      else (Move(s, client.CloseFinal()), Ok(()))
    }

    function Move(s: SessionId, c: Client): Book { this.(clients := clients[s := c]) }

    function Suspend(s: SessionId, g: nat, now: nat): (Book, bool)
    {
      if s !in sessions then (this, false)
      else
        var (c, changed) := Of(s).Suspend(g);
        if changed
        then (this.(clients := clients[s := c], suspended := suspended[s := Parked(g, now + grace)]), true)
        else (this, false)
    }

    /** Accounts present a fresh identity of the same account, guests none at all. */
    predicate Admits(s: SessionId, proof: Token, identity: Option<Principal>, now: nat) {
      && s in sessions
      && (s in suspended ==> now < suspended[s].deadline)
      && s in proofs && proofs[s] == proof
      && identity == (if sessions[s].Account? then Some(sessions[s]) else None)
    }

    function Resume(s: SessionId, proof: Token, identity: Option<Principal>, token: Token, now: nat,
                    heard: bool): (Book, Result<nat>)
    {
      if !Admits(s, proof, identity, now) then (this, Err(AuthFailed))
      else
        var attached := Of(s).Attach(true);
        if attached.Err? then (this, Err(attached.error))
        else
          var c := attached.value;
          var b := this.(clients := clients[s := c], proofs := proofs[s := token], suspended := suspended - {s});
          if heard then (b, Ok(c.generation))
          else (b.(clients := b.clients[s := c.Suspend(c.generation).0],
                   suspended := b.suspended[s := Parked(c.generation, now + grace)]), Ok(c.generation))
    }

    /** `suspend_closed` on one session of an expiry pass. */
    function Scan(s: SessionId, now: nat): (Book, bool)
    {
      var (c, g) := Of(s).SuspendClosed();
      if g.Some? then (this.(clients := clients[s := c], suspended := suspended[s := Parked(g.value, now + grace)]),
          true)
      else (this, false)
    }

    /** A session that is there is closed for good and forgotten. */
    function Remove(s: SessionId): Book
    {
      var b := this.(proofs := proofs - {s}, suspended := suspended - {s});
      if s !in sessions then b
      else b.(sessions := sessions - {s}, clients := clients[s := Of(s).CloseFinal()],
              accounts := if sessions[s].Account? then accounts - {sessions[s].id} else accounts)
    }

    /** Registered sessions whose connection was abandoned. */
    function Abandoned(): (r: set<SessionId>)
    {
      set s | s in sessions && Of(s).SuspendClosed().1.Some?
    }

    function ScanAll(some: set<SessionId>, now: nat): Book
    {
      this.(clients := map s | s in clients :: if s in some then clients[s].SuspendClosed().0 else clients[s],
            suspended := map s | s in suspended.Keys + some :: if s in some
                then Parked(Of(s).generation, now + grace) else suspended[s])
    }

    function Overdue(now: nat): set<SessionId> { set s | s in suspended && suspended[s].deadline <= now }

    function RemoveAll(some: set<SessionId>): Book
    {
      this.(proofs := proofs - some, suspended := suspended - some, sessions := sessions - some,
            clients := map s | s in clients :: if s in some && s in sessions then clients[s].CloseFinal()
                else clients[s],
            accounts := map a | a in accounts && !(accounts[a] in some) :: accounts[a])
    }

    /** One expiry pass: what it leaves, whom it detached and whom it removed. */
    function Expire(now: nat): (Book, set<SessionId>, set<SessionId>)
    {
      var b := ScanAll(Abandoned(), now);
      (b.RemoveAll(b.Overdue(now)), Abandoned(), b.Overdue(now))
    }

    /** Accounts are exactly the inverse of the account principals. */
    ghost predicate Inverse() {
      && (forall s :: s in sessions && sessions[s].Account? ==>
           sessions[s].id in accounts && accounts[sessions[s].id] == s)
      && (forall a :: a in accounts ==> accounts[a] in sessions && sessions[accounts[a]] == Account(a))
    }

    /** A registered session is parked iff its transport is absent, under its own generation. */
    ghost predicate Parking() {
      && suspended.Keys <= sessions.Keys <= clients.Keys
      && (forall s :: s in sessions ==> !clients[s].closed && (s in suspended <==> clients[s].transport.None?))
      && (forall s :: s in suspended ==> suspended[s].generation == clients[s].generation)
      && (forall s :: s in clients && s !in sessions ==> clients[s].closed)
    }

    ghost predicate Inv() {
      proofs.Keys == sessions.Keys && |sessions| <= capacity && Inverse() && Parking()
    }
  }

  // ----- every reachable state -------------------------------------------------------

  /** A command, or something that happens to a client meanwhile. Ids and tokens are fresh. */
  datatype Op =
    | Registers(s: SessionId, principal: Principal, client: Client, proof: Token, heard: bool)
    | Suspends(s: SessionId, generation: nat)
    | Resumes(s: SessionId, proof: Token, identity: Option<Principal>, token: Token, heard: bool)
    | Expires
    | Removes(s: SessionId)
    | Meanwhile(s: SessionId, change: Change, outbound: nat)

  /** Only the session manager attaches, suspends and closes for good. */
  predicate Passing(change: Change) {
    change.Cancelling? || change.Delivering? || change.InboxDropped? || change.InboxTakes?
  }

  function Do(b: Book, op: Op, now: nat): Book
  {
    match op
    case Registers(s, principal, client, proof, heard) => b.Register(s, principal, client, proof, heard).0
    case Suspends(s, g) => b.Suspend(s, g, now).0
    case Resumes(s, proof, identity, token, heard) => b.Resume(s, proof, identity, token, now, heard).0
    case Expires => b.Expire(now).0
    case Removes(s) => b.Remove(s)
    case Meanwhile(s, change, outbound) =>
      if s in b.clients then b.(clients := b.clients[s := change.Apply(outbound, b.clients[s])]) else b
  }

  /** A new client has the first generation and has not been closed; by now its connection may
      have been cancelled or abandoned. */
  predicate Possible(b: Book, op: Op, issued: set<Token>) {
    match op
    case Registers(s, _, client, proof, _) =>
      s !in b.clients && client.generation == 1 && client.transport.Some? && !client.closed && proof !in issued
    case Resumes(_, _, _, token, _) => token !in issued
    case Meanwhile(_, change, _) => Passing(change)
    case _ => true
  }

  lemma RegisterKeepsAccounts(b: Book, s: SessionId, principal: Principal, client: Client, proof: Token, heard: bool)
    requires b.Inverse() && s !in b.sessions
    ensures b.Register(s, principal, client, proof, heard).0.Inverse()
  {
  }

  lemma RegisterKeepsParking(b: Book, s: SessionId, principal: Principal, client: Client, proof: Token, heard: bool)
    requires b.Parking() && s !in b.clients && client.transport.Some? && !client.closed
    ensures b.Register(s, principal, client, proof, heard).0.Parking()
  {
  }

  lemma RegisterKeeps(b: Book, s: SessionId, principal: Principal, client: Client, proof: Token, heard: bool)
    requires b.Inv() && s !in b.clients && client.transport.Some? && !client.closed
    ensures b.Register(s, principal, client, proof, heard).0.Inv()
  {
    hide Book.Inverse, Book.Parking;
    KnownWell(b);
    RegisterKeepsAccounts(b, s, principal, client, proof, heard);
    RegisterKeepsParking(b, s, principal, client, proof, heard);
    assert |b.sessions[s := principal]| <= |b.sessions| + 1;
  }

  /** A registered session whose connection is there is not parked. */
  lemma AttachedKeeps(b: Book, s: SessionId, c: Client, token: Token)
    requires b.Inv() && s in b.sessions && c.transport.Some? && !c.closed
    ensures b.(clients := b.clients[s := c], proofs := b.proofs[s := token], suspended := b.suspended - {s}).Inv()
  {
    hide Book.Inverse;
    SameAccounts(b, b.(clients := b.clients[s := c], proofs := b.proofs[s := token], suspended := b.suspended - {s}));
  }

  /** A registered session whose connection is gone is parked under its generation. */
  lemma ParkedKeeps(b: Book, s: SessionId, c: Client, deadline: nat)
    requires b.Inv() && s in b.sessions && c.transport.None? && !c.closed
    ensures b.(clients := b.clients[s := c], suspended := b.suspended[s := Parked(c.generation, deadline)]).Inv()
  {
  }

  lemma SuspendKeeps(b: Book, s: SessionId, g: nat, now: nat)
    requires b.Inv()
    ensures b.Suspend(s, g, now).0.Inv()
  {
    if b.Suspend(s, g, now).1 {
      ParkedKeeps(b, s, b.Of(s).Suspend(g).0, now + b.grace);
    }
  }

  lemma ResumeKeeps(b: Book, s: SessionId, proof: Token, identity: Option<Principal>, token: Token, now: nat,
                    heard: bool)
    requires b.Inv()
    ensures b.Resume(s, proof, identity, token, now, heard).0.Inv()
  {
    hide Book.Inv;
    if b.Resume(s, proof, identity, token, now, heard).1.Ok? {
      var c := b.Of(s).Attach(true).value;
      AttachedKeeps(b, s, c, token);
      ParkedKeeps(b.(clients := b.clients[s := c], proofs := b.proofs[s := token], suspended := b.suspended - {s}),
                  s, c.Suspend(c.generation).0, now + b.grace);
    }
  }

  lemma RemoveKeepsAccounts(b: Book, s: SessionId)
    requires b.Inverse()
    ensures b.Remove(s).Inverse()
  {
  }

  lemma RemoveKeepsParking(b: Book, s: SessionId)
    requires b.Parking()
    ensures b.Remove(s).Parking()
  {
  }

  lemma RemoveKeeps(b: Book, s: SessionId)
    requires b.Inv()
    ensures b.Remove(s).Inv()
  {
    hide Book.Inverse, Book.Parking;
    RemoveKeepsAccounts(b, s);
    RemoveKeepsParking(b, s);
    assert (b.sessions - {s}).Keys == b.sessions.Keys - {s};
    assert |b.sessions - {s}| == |b.sessions.Keys - {s}| <= |b.sessions.Keys| == |b.sessions|;
  }

  lemma ScanAllKeeps(b: Book, now: nat)
    requires b.Inv()
    ensures b.ScanAll(b.Abandoned(), now).Inv()
  {
    hide Book.Inverse, Book.Parking;
    SameAccounts(b, b.ScanAll(b.Abandoned(), now));
    ScanAllParks(b, now);
  }

  lemma ScanAllParks(b: Book, now: nat)
    requires b.Parking()
    ensures b.ScanAll(b.Abandoned(), now).Parking()
  {
  }

  lemma RemoveAllKeeps(b: Book, some: set<SessionId>)
    requires b.Inv()
    ensures b.RemoveAll(some).Inv()
  {
    assert (b.sessions - some).Keys == b.sessions.Keys - some;
    SubsetSize(b.sessions.Keys - some, b.sessions.Keys);
    assert |b.sessions - some| == |(b.sessions - some).Keys| && |b.sessions| == |b.sessions.Keys|;
  }

  /** Whom a pass detaches it does not remove. */
  lemma Disjoint(b: Book, now: nat)
    requires b.grace > 0
    ensures b.Expire(now).1 !! b.Expire(now).2
  {
  }

  /** A whole pass is the same as scanning the sessions one at a time and removing the overdue
      ones one at a time, in any order. */
  lemma OneScanMore(b: Book, some: set<SessionId>, s: SessionId, now: nat)
    requires s in b.clients && s !in some
    ensures b.ScanAll(some, now).Scan(s, now)
         == (if b.Of(s).SuspendClosed().1.Some? then (b.ScanAll(some + {s}, now), true)
             else (b.ScanAll(some, now), false))
  {
    var p, q := b.ScanAll(some, now).Scan(s, now).0, b.ScanAll(some + {s}, now);
    if b.Of(s).SuspendClosed().1.Some? {
      assert p.clients == q.clients;
      assert p.suspended == q.suspended;
    }
  }

  lemma KnownWell(b: Book)
    requires b.Inv()
    ensures b.Inverse() && b.Parking() && b.proofs.Keys == b.sessions.Keys <= b.clients.Keys
  {
  }

  lemma ScanStarts(b: Book, now: nat)
    requires b.Inv()
    ensures b.Abandoned() - b.sessions.Keys == {} && b.ScanAll({}, now) == b
  {
    NothingToDo(b, now);
  }

  lemma ScanGoesOn(b: Book, todo: set<SessionId>, s: SessionId, now: nat)
    requires b.Inv() && todo <= b.sessions.Keys && s in todo
    ensures var done := b.Abandoned() - todo;
            var (c, detached) := b.ScanAll(done, now).Scan(s, now);
            && c == b.ScanAll(if detached then done + {s} else done, now)
            && (if detached then done + {s} else done) == b.Abandoned() - (todo - {s})
  {
    OneScanMore(b, b.Abandoned() - todo, s, now);
  }

  lemma OneRemovalMore(b: Book, some: set<SessionId>, s: SessionId)
    requires b.Inverse() && b.sessions.Keys <= b.clients.Keys
    ensures b.RemoveAll(some).Remove(s) == b.RemoveAll(some + {s})
  {
    hide Book.Remove, Book.RemoveAll, Book.Inverse;
    OneClientMore(b, some, s);
    OneAccountMore(b, some, s);
    OneTableMore(b, some, s);
  }

  lemma OneTableMore(b: Book, some: set<SessionId>, s: SessionId)
    ensures var p, q := b.RemoveAll(some).Remove(s), b.RemoveAll(some + {s});
            && p.proofs == q.proofs && p.suspended == q.suspended && p.sessions == q.sessions
            && p.capacity == q.capacity && p.grace == q.grace
  {
  }

  lemma OneClientMore(b: Book, some: set<SessionId>, s: SessionId)
    requires b.sessions.Keys <= b.clients.Keys
    ensures b.RemoveAll(some).Remove(s).clients == b.RemoveAll(some + {s}).clients
  {
  }

  lemma OneAccountMore(b: Book, some: set<SessionId>, s: SessionId)
    requires b.Inverse()
    ensures b.RemoveAll(some).Remove(s).accounts == b.RemoveAll(some + {s}).accounts
  {
  }

  lemma NothingToDo(b: Book, now: nat)
    ensures b.ScanAll({}, now) == b
    ensures b.sessions.Keys <= b.clients.Keys ==> b.RemoveAll({}) == b
  {
    assert b.ScanAll({}, now).clients == b.clients;
    assert b.ScanAll({}, now).suspended == b.suspended;
    if b.sessions.Keys <= b.clients.Keys {
      assert b.RemoveAll({}).clients == b.clients;
      assert b.RemoveAll({}).accounts == b.accounts;
      assert b.RemoveAll({}).sessions == b.sessions;
    }
  }

  lemma ExpireKeeps(b: Book, now: nat)
    requires b.Inv()
    ensures b.Expire(now).0.Inv()
  {
    ScanAllKeeps(b, now);
    RemoveAllKeeps(b.ScanAll(b.Abandoned(), now), b.ScanAll(b.Abandoned(), now).Overdue(now));
  }

  /** The four maps agree with each other and with the shared clients in every state. */
  lemma OpKeeps(b: Book, op: Op, now: nat, issued: set<Token>)
    requires b.Inv() && Possible(b, op, issued)
    ensures Do(b, op, now).Inv()
  {
    hide Book.Inv;
    match op
    case Registers(s, principal, client, proof, heard) => RegisterKeeps(b, s, principal, client, proof, heard);
    case Suspends(s, g) => SuspendKeeps(b, s, g, now);
    case Resumes(s, proof, identity, token, heard) => ResumeKeeps(b, s, proof, identity, token, now, heard);
    case Expires => ExpireKeeps(b, now);
    case Removes(s) => RemoveKeeps(b, s);
    case Meanwhile(s, change, outbound) => MeanwhileKeeps(b, s, change, outbound);
  }

  lemma MeanwhileKeeps(b: Book, s: SessionId, change: Change, outbound: nat)
    requires b.Inv() && Passing(change)
    ensures Do(b, Meanwhile(s, change, outbound), 0).Inv()
  {
    hide Book.Inverse, Change.Apply, Passing;
    if s in b.clients {
      PassingLeaves(b.clients[s], change, outbound);
      SameAccounts(b, Do(b, Meanwhile(s, change, outbound), 0));
    }
  }

  /** Whatever may happen to a client meanwhile leaves its generation and whether it is closed or
      connected. */
  lemma PassingLeaves(c: Client, change: Change, outbound: nat)
    requires Passing(change)
    ensures var d := change.Apply(outbound, c);
            d.generation == c.generation && d.closed == c.closed && d.transport.Some? == c.transport.Some?
  {
  }

  lemma SameAccounts(b: Book, c: Book)
    requires b.Inverse() && c.sessions == b.sessions && c.accounts == b.accounts
    ensures c.Inverse()
  {
  }

  lemma PutAndTake<K, V>(m: map<K, V>, k: K, v: V)
    requires k !in m
    ensures m[k := v] - {k} == m
  {
  }

  lemma PutTwice<K, V>(m: map<K, V>, k: K, v: V, w: V)
    ensures m[k := v][k := w] == m[k := w]
  {
  }

  // ----- time and tokens over whole runs ---------------------------------------------

  /** When each client that is now without a transport last lost one. This clock knows nothing
      of the manager's deadlines. */
  function Absences(before: Book, after: Book, now: nat, since: map<SessionId, nat>): map<SessionId, nat> {
    map s | s in after.clients && after.clients[s].transport.None? ::
      if s in since && s in before.clients && before.clients[s].transport.None?
         && before.clients[s].generation == after.clients[s].generation
      then since[s] else now
  }

  function Minted(op: Op): set<Token> {
    if op.Registers? then {op.proof} else if op.Resumes? then {op.token} else {}
  }

  /** As whom a session was registered, and the token last handed out for it. */
  datatype Credentials = Credentials(principal: Principal, token: Token)

  /** A run so far: `spent` are the tokens that resumed a session successfully, `holders` all that
      ever registered and were told so, with their present credentials. */
  datatype Past = Past(book: Book, now: nat, since: map<SessionId, nat>, issued: set<Token>,
                       spent: set<(SessionId, Token)>, holders: map<SessionId, Credentials>)
  {
    function Then(op: Op, at: nat): Past
    {
      var after := Do(book, op, at);
      var resumed := op.Resumes? && book.Resume(op.s, op.proof, op.identity, op.token, at, op.heard).1.Ok?;
      Past(after, at, Absences(book, after, at, since),
           issued + Minted(op),
           spent + (if resumed then {(op.s, op.proof)} else {}),
           if Admitted(op) then holders[op.s := Credentials(op.principal, op.proof)]
           else if resumed && op.s in holders then holders[op.s := holders[op.s].(token := op.token)]
           else holders)
    }

    /** A registration that succeeds and whose caller hears of it. */
    predicate Admitted(op: Op) {
      op.Registers? && op.heard && book.Register(op.s, op.principal, op.client, op.proof, op.heard).1.Ok?
    }

    /** Whoever is in the tables registered, as the principal recorded, and holds the recorded token. */
    ghost predicate Credited() {
      && holders.Keys <= book.clients.Keys
      && (forall s :: s in book.sessions ==> s in holders && book.sessions[s] == holders[s].principal)
      && (forall s :: s in book.proofs ==> s in holders && book.proofs[s] == holders[s].token)
    }

    /** Who is registered and has not been closed since. */
    function Present(): set<SessionId> { set s | s in holders && !book.Of(s).closed }

    /** What a registration of `principal` has to be told. */
    ghost function Verdict(principal: Principal, client: Client): Result<()> {
      if |Present()| >= book.capacity then Err(Limit)
      else if principal.Account? && exists s :: s in Present() && holders[s].principal == principal
      then Err(AlreadyConnected)
      else if client.IsClosed() then Err(Closed)
      else Ok(())
    }

    /** What resuming takes: the session was registered and has not been closed; it has not been
        without a connection for the grace period; the token is the last one handed out for it;
        and for an account there is a fresh identity of the account as which it was registered,
        for a guest none. */
    predicate Entitled(op: Op, at: nat) {
      && op.Resumes? && op.s in holders && !book.Of(op.s).closed
      && (op.s in since ==> at < since[op.s] + book.grace)
      && op.proof == holders[op.s].token
      && (match holders[op.s].principal
          case Account(a) => op.identity == Some(Account(a))
          case Guest => op.identity == None)
    }

    /** A deadline is the grace period after the moment the connection was lost. */
    ghost predicate Clocked() {
      && (forall s :: s in since ==> s in book.clients && book.clients[s].transport.None?)
      && (forall s :: s in book.suspended ==> s in since && book.suspended[s].deadline == since[s] + book.grace)
    }

    ghost predicate Inv() {
      && book.Inv()
      && Clocked()
      && Rotating(book.proofs, book.clients.Keys, issued, spent)
      && Credited()
    }
  }

  datatype Moment = Moment(op: Op, at: nat)

  ghost predicate AllPossible(p: Past, moments: seq<Moment>)
    decreases |moments|
  {
    moments == [] ||
    (p.now <= moments[0].at && Possible(p.book, moments[0].op, p.issued)
     && AllPossible(p.Then(moments[0].op, moments[0].at), moments[1..]))
  }

  ghost function After(p: Past, moments: seq<Moment>): Past
    requires AllPossible(p, moments)
    decreases |moments|
  {
    if moments == [] then p else After(p.Then(moments[0].op, moments[0].at), moments[1..])
  }

  /** Whoever is parked after a step was parked before and stayed away, or has just lost its
      connection and got a full grace period. */
  ghost predicate Reparks(b: Book, c: Book, now: nat) {
    && c.grace == b.grace
    && forall s :: s in c.suspended ==>
         && s in c.clients && c.clients[s].transport.None?
         && if s in b.clients && b.clients[s].transport.None? && b.clients[s].generation == c.clients[s].generation
            then s in b.suspended && c.suspended[s] == b.suspended[s]
            else c.suspended[s].deadline == now + c.grace
  }

  lemma OpReparks(b: Book, op: Op, now: nat, issued: set<Token>)
    requires b.Parking() && Possible(b, op, issued)
    ensures Reparks(b, Do(b, op, now), now) && Do(b, op, now).grace == b.grace
  {
    hide Book.Suspend, Book.Resume, Book.Expire;
    match op
    case Suspends(s, g) => SuspendReparks(b, s, g, now);
    case Resumes(s, proof, identity, token, heard) => ResumeReparks(b, s, proof, identity, token, now, heard);
    case Expires => ExpireReparks(b, now);
    case _ => OtherReparks(b, op, now, issued);
  }

  lemma SuspendReparks(b: Book, s: SessionId, g: nat, now: nat)
    requires b.Parking()
    ensures Reparks(b, b.Suspend(s, g, now).0, now)
  {
  }

  lemma OtherReparks(b: Book, op: Op, now: nat, issued: set<Token>)
    requires b.Parking() && Possible(b, op, issued) && (op.Registers? || op.Removes? || op.Meanwhile?)
    ensures Reparks(b, Do(b, op, now), now)
  {
    hide Change.Apply, Passing;
    if op.Meanwhile? && op.s in b.clients { PassingLeaves(b.clients[op.s], op.change, op.outbound); }
  }

  lemma ResumeReparks(b: Book, s: SessionId, proof: Token, identity: Option<Principal>, token: Token, now: nat,
                      heard: bool)
    requires b.Parking()
    ensures Reparks(b, b.Resume(s, proof, identity, token, now, heard).0, now)
  {
  }

  lemma ExpireReparks(b: Book, now: nat)
    requires b.Parking()
    ensures Reparks(b, b.Expire(now).0, now)
  {
    var scanned := b.ScanAll(b.Abandoned(), now);
    assert Reparks(b, scanned, now);
    assert forall s :: s in b.Expire(now).0.suspended ==> s in scanned.suspended;
  }

  lemma DeadlinesKeep(p: Past, op: Op, at: nat)
    requires p.book.Parking() && p.Clocked() && Possible(p.book, op, p.issued)
    ensures p.Then(op, at).Clocked()
  {
    hide Do, Book.Resume, Possible, Book.Parking;
    OpReparks(p.book, op, at, p.issued);
  }

  lemma OpProofs(b: Book, op: Op, now: nat)
    ensures var c := Do(b, op, now);
            && b.clients.Keys <= c.clients.Keys
            && (forall s :: s in c.proofs ==>
                  (s in b.proofs && c.proofs[s] == b.proofs[s]) || c.proofs[s] in Minted(op))
  {
    hide Client.Suspend, Client.SuspendClosed, Client.CloseFinal, Client.Live, Change.Apply, Book.Abandoned;
  }

  /** A successful resume is made with the current token, which it replaces. */
  lemma ResumeSpends(b: Book, op: Op, now: nat)
    requires op.Resumes? && b.Resume(op.s, op.proof, op.identity, op.token, now, op.heard).1.Ok?
    ensures op.s in b.proofs && b.proofs[op.s] == op.proof
    ensures op.s in Do(b, op, now).proofs && Do(b, op, now).proofs[op.s] == op.token
  {
  }

  /** Tokens in use come from those handed out; what was spent is not in use. */
  ghost predicate Rotating(proofs: map<SessionId, Token>, known: set<SessionId>, issued: set<Token>,
                           spent: set<(SessionId, Token)>) {
    && (forall s :: s in proofs ==> proofs[s] in issued)
    && (forall x :: x in spent ==> x.0 in known && x.1 in issued && (x.0 in proofs ==> proofs[x.0] != x.1))
  }

  lemma RotatingOn(proofs: map<SessionId, Token>, next: map<SessionId, Token>, known: set<SessionId>,
                   more: set<SessionId>,
                   issued: set<Token>, minted: set<Token>, spent: set<(SessionId, Token)>)
    requires Rotating(proofs, known, issued, spent) && known <= more && minted !! issued
    requires forall s :: s in next ==> (s in proofs && next[s] == proofs[s]) || next[s] in minted
    ensures Rotating(next, more, issued + minted, spent)
  {
  }

  lemma MintedIsNew(b: Book, op: Op, issued: set<Token>)
    requires Possible(b, op, issued)
    ensures Minted(op) !! issued && (op.Resumes? ==> Minted(op) == {op.token})
  {
  }

  lemma TokensKeep(p: Past, op: Op, at: nat)
    requires Rotating(p.book.proofs, p.book.clients.Keys, p.issued, p.spent) && Possible(p.book, op, p.issued)
    requires p.book.proofs.Keys <= p.book.clients.Keys
    ensures var q := p.Then(op, at); Rotating(q.book.proofs, q.book.clients.Keys, q.issued, q.spent)
  {
    hide Do, Book.Resume, Minted, Possible;
    OpProofs(p.book, op, at);
    MintedIsNew(p.book, op, p.issued);
    var q := p.Then(op, at);
    if q.spent != p.spent { ResumeSpends(p.book, op, at); }
    RotatingOn(p.book.proofs, q.book.proofs, p.book.clients.Keys, q.book.clients.Keys, p.issued, Minted(op), p.spent);
  }

  lemma CreditsKeep(p: Past, op: Op, at: nat)
    requires p.book.Inv() && p.Credited() && Possible(p.book, op, p.issued)
    ensures p.Then(op, at).Credited()
  {
    hide Book.Inverse, Absences, Minted, Book.ScanAll, Change.Apply;
    match op
    case Registers(_, _, _, _, _) => RegisterCredits(p, op, at);
    case Resumes(_, _, _, _, _) => ResumeCredits(p, op, at);
    case _ => FewerCredits(p, op, at);
  }

  lemma RegisterCredits(p: Past, op: Op, at: nat)
    requires p.book.Inv() && p.Credited() && Possible(p.book, op, p.issued) && op.Registers?
    ensures p.Then(op, at).Credited()
  {
    hide Book.Inverse, Book.Parking, Past.Then, Client.IsClosed, Client.CloseFinal;
    KnownWell(p.book);
    RegisterFiles(p, op, at);
  }

  lemma RegisterFiles(p: Past, op: Op, now: nat)
    requires op.Registers?
    ensures p.Then(op, now).book == p.book.Register(op.s, op.principal, op.client, op.proof, op.heard).0
    ensures p.Then(op, now).holders
            == if p.Admitted(op) then p.holders[op.s := Credentials(op.principal, op.proof)] else p.holders
  {
  }

  lemma ResumeCredits(p: Past, op: Op, at: nat)
    requires p.book.Inv() && p.Credited() && op.Resumes?
    ensures p.Then(op, at).Credited()
  {
    hide Book.Inverse, Absences, Minted;
  }

  lemma FewerCredits(p: Past, op: Op, at: nat)
    requires p.Credited() && !op.Registers? && !op.Resumes?
    ensures p.Then(op, at).Credited()
  {
    hide Book.Inverse, Absences, Minted, Change.Apply;
  }

  lemma MomentKeeps(p: Past, op: Op, at: nat)
    requires p.Inv() && Possible(p.book, op, p.issued)
    ensures p.Then(op, at).Inv() && p.Then(op, at).book.grace == p.book.grace
    ensures p.spent <= p.Then(op, at).spent
  {
    hide Do, Book.Inv, Book.Resume, Book.Parking, Possible, Past.Clocked, Past.Credited, Past.Admitted, Rotating;
    hide Reparks;
    KnownWell(p.book);
    OpKeeps(p.book, op, at, p.issued);
    OpReparks(p.book, op, at, p.issued);
    DeadlinesKeep(p, op, at);
    TokensKeep(p, op, at);
    CreditsKeep(p, op, at);
  }

  lemma {:induction false} RunKeeps(p: Past, moments: seq<Moment>)
    requires p.Inv() && AllPossible(p, moments)
    ensures var q := After(p, moments); q.Inv() && q.book.grace == p.book.grace && p.spent <= q.spent
    decreases |moments|
  {
    if moments != [] {
      MomentKeeps(p, moments[0].op, moments[0].at);
      RunKeeps(p.Then(moments[0].op, moments[0].at), moments[1..]);
    }
  }

  /** An expiry pass detaches exactly the sessions whose transport has been cancelled or abandoned,
      and removes exactly those that have been without one for at least the grace period without a
      break, and none of those it has itself just detached. */
  ghost predicate Graceful(p: Past, now: nat) {
    var (b, disconnected, expired) := p.book.Expire(now);
    && disconnected !! expired
    && (forall s :: s in disconnected <==> s in p.book.sessions && p.book.Of(s).transport.Some? && !p.book.Of(s).Live())
    && (forall s :: s in expired <==> s in p.book.sessions && s in p.since && p.since[s] + p.book.grace <= now)
    && (forall s :: s in expired ==> s !in b.sessions && s in b.clients && b.clients[s].closed)
    && (forall s :: s in disconnected ==> s in b.suspended && b.suspended[s].deadline == now + p.book.grace)
    && (forall s :: s in p.book.sessions && s !in expired ==> s in b.sessions)
  }

  lemma ExpiryIsGraceful(p: Past, now: nat)
    requires p.Inv() && p.book.grace > 0
    ensures Graceful(p, now)
  {
    hide Rotating, Book.Inverse, Book.Expire;
    Disjoint(p.book, now);
    WhoExpires(p.book, now);
    WhatExpiryLeaves(p.book, now);
  }

  lemma WhoExpires(b: Book, now: nat)
    requires b.Parking() && b.grace > 0
    ensures forall s :: s in b.Expire(now).2 <==> s in b.suspended && b.suspended[s].deadline <= now
    ensures forall s :: s in b.Expire(now).1 <==> s in b.sessions && b.Of(s).transport.Some? && !b.Of(s).Live()
  {
  }

  lemma WhatExpiryLeaves(b: Book, now: nat)
    requires b.Parking() && b.grace > 0
    ensures var (c, disconnected, expired) := b.Expire(now);
            && (forall s :: s in expired ==> s !in c.sessions && s in c.clients && c.clients[s].closed)
            && (forall s :: s in disconnected ==> s in c.suspended && c.suspended[s].deadline == now + b.grace)
            && (forall s :: s in b.sessions && s !in expired ==> s in c.sessions)
  {
  }

  /** Resuming works exactly for who is entitled to it; it makes the next generation, which is
      connected if the caller hears of it and parked again if not, and from then on the token
      presented is worth nothing. */
  ghost predicate Rotates(p: Past, op: Op, now: nat)
    requires op.Resumes?
  {
    var r := p.book.Resume(op.s, op.proof, op.identity, op.token, now, op.heard).1;
    && r == (if !p.Entitled(op, now) then Err(AuthFailed)
             else if p.book.Of(op.s).generation >= U64_MAX then Err(Limit)
             else Ok(p.book.Of(op.s).generation + 1))
    && (r.Ok? ==>
          var q := p.Then(op, now).book;
          && q.Of(op.s).generation == r.value && q.Of(op.s).transport.Some? == op.heard
          && (op.s in q.suspended <==> !op.heard) && (!op.heard ==> q.suspended[op.s].deadline == now + q.grace)
          && (op.s, op.proof) in p.Then(op, now).spent)
    && ((op.s, op.proof) in p.spent ==> r == Err(AuthFailed))
  }

  lemma ResumingRotates(p: Past, op: Op, now: nat)
    requires p.Inv() && op.Resumes?
    ensures Rotates(p, op, now)
  {
    hide Book.Inverse, Absences, Minted;
  }

  /** A registration is refused when all places are taken, when its account is registered already,
      or when its client has gone, and else accepted; nobody who has not heard of that is. */
  ghost predicate Enrols(p: Past, op: Op, now: nat)
    requires op.Registers?
  {
    var r := p.book.Register(op.s, op.principal, op.client, op.proof, op.heard).1;
    && r == p.Verdict(op.principal, op.client)
    && p.Then(op, now).Present() == p.Present() + (if r.Ok? && op.heard then {op.s} else {})
  }

  lemma PresentAreFiled(p: Past)
    requires p.Inv()
    ensures p.Present() == p.book.sessions.Keys && |p.Present()| == |p.book.sessions|
    ensures forall s :: s in p.Present() ==> p.holders[s].principal == p.book.sessions[s]
  {
    hide Book.Inverse, Rotating;
    assert |p.book.sessions| == |p.book.sessions.Keys|;
  }

  lemma RegisteringEnrols(p: Past, op: Op, now: nat)
    requires p.Inv() && Possible(p.book, op, p.issued) && op.Registers?
    ensures Enrols(p, op, now)
  {
    hide Past.Inv, Past.Present, Past.Then, Past.Verdict, Client.IsClosed, Client.CloseFinal;
    PresentAreFiled(p);
    MomentKeeps(p, op, now);
    PresentAreFiled(p.Then(op, now));
    RegisterFiles(p, op, now);
    RegisterAnswers(p, op);
  }

  lemma RegisterAnswers(p: Past, op: Op)
    requires p.Inv() && op.Registers?
    ensures p.book.Register(op.s, op.principal, op.client, op.proof, op.heard).1 == p.Verdict(op.principal, op.client)
  {
    hide Past.Inv, Past.Present, Client.IsClosed, Client.CloseFinal;
    PresentAreFiled(p);
    if op.principal.Account? { AccountsAreTaken(p, op.principal); }
  }

  lemma AccountsAreTaken(p: Past, principal: Principal)
    requires p.Inv() && principal.Account?
    ensures principal.id in p.book.accounts <==> exists s :: s in p.book.sessions && p.book.sessions[s] == principal
  {
    hide Book.Parking, Rotating, Past.Credited, Past.Clocked;
  }

  /** All of this holds in every reachable state, whatever the commands, their timing and lost replies. */
  lemma SessionRun(capacity: nat, grace: nat, moments: seq<Moment>, op: Op, now: nat)
    requires grace > 0 && AllPossible(Opening(capacity, grace), moments)
    ensures var q := After(Opening(capacity, grace), moments);
            && Graceful(q, now) && q.book.Inv()
            && (op.Resumes? ==> Rotates(q, op, now))
            && (op.Registers? && Possible(q.book, op, q.issued) ==> Enrols(q, op, now))
  {
    hide Graceful, Rotates, Enrols, Past.Inv, Book.Inv, Possible;
    RunKeeps(Opening(capacity, grace), moments);
    var q := After(Opening(capacity, grace), moments);
    ExpiryIsGraceful(q, now);
    if op.Resumes? { ResumingRotates(q, op, now); }
    if op.Registers? && Possible(q.book, op, q.issued) { RegisteringEnrols(q, op, now); }
    ReachedBook(q);
  }

  /** A token that has resumed its session once never does so again, however the run goes on. */
  lemma TokensStaySpent(capacity: nat, grace: nat, moments: seq<Moment>, op: Op, at: nat, more: seq<Moment>,
                        again: Op, later: nat)
    requires AllPossible(Opening(capacity, grace), moments) && op.Resumes? && again.Resumes? && again.s == op.s
    requires again.proof == op.proof
    requires var p := After(Opening(capacity, grace), moments);
             Possible(p.book, op, p.issued) && AllPossible(p.Then(op, at), more)
    ensures var p := After(Opening(capacity, grace), moments);
            p.book.Resume(op.s, op.proof, op.identity, op.token, at, op.heard).1.Ok?
            ==> After(p.Then(op, at), more).book.Resume(again.s, again.proof, again.identity, again.token, later,
                again.heard).1 == Err(AuthFailed)
  {
    hide Past.Inv, Book.Inv, Book.Resume;
    RunKeeps(Opening(capacity, grace), moments);
    var p := After(Opening(capacity, grace), moments);
    MomentKeeps(p, op, at);
    ResumingRotates(p, op, at);
    RunKeeps(p.Then(op, at), more);
    ResumingRotates(After(p.Then(op, at), more), again, later);
  }

  lemma ReachedBook(p: Past)
    requires p.Inv()
    ensures p.book.Inv()
  {
  }

  /** The run starts with an empty table. */
  function Opening(capacity: nat, grace: nat): (p: Past)
    ensures p.Inv()
  {
    Past(Book(capacity, grace, map[], map[], map[], map[], map[]), 0, map[], {}, {}, map[])
  }

  // ----- the object ------------------------------------------------------------------

  /** The client states that the actors share: a handle is an id under which to find one. */
  class ClientStore {
    var clients: map<SessionId, Client>

    constructor ()
      ensures clients == map[]
    {
      clients := map[];
    }
  }

  class SessionManager {
    const capacity: nat
    const grace: nat
    const shared: ClientStore
    var sessions: map<SessionId, Principal>
    var proofs: map<SessionId, Token>
    var suspended: map<SessionId, Parked>
    var accounts: map<AccountId, SessionId>

    ghost function View(): Book
      reads this, shared
    {
      Book(capacity, grace, shared.clients, sessions, proofs, suspended, accounts)
    }

    ghost predicate Valid()
      reads this, shared
    {
      View().Inv()
    }

    constructor (capacity: nat, grace: nat)
      ensures Valid() && View() == Opening(capacity, grace).book && fresh(shared)
    {
      this.capacity, this.grace := capacity, grace;
      sessions, proofs, suspended, accounts := map[], map[], map[], map[];
      shared := new ClientStore();
    }

    method Register(s: SessionId, principal: Principal, client: Client, proof: Token, heard: bool)
        returns (result: Result<()>)
      requires Valid() && s !in shared.clients && client.transport.Some? && !client.closed
      modifies this, shared
      ensures Valid()
      ensures (View(), result) == old(View()).Register(s, principal, client, proof, heard)
    {
      hide Book.Inv;
      KnownWell(View());
      RegisterKeeps(View(), s, principal, client, proof, heard);
      if |sessions| >= capacity { return Err(Limit); }
      if principal.Account? && principal.id in accounts { return Err(AlreadyConnected); }
      if client.IsClosed() { return Err(Closed); }
      Enter(s, principal, client, proof);
      if !heard { Withdraw(s, principal, old(View())); }
      result := Ok(());
    }

    method Enter(s: SessionId, principal: Principal, client: Client, proof: Token)
      modifies this, shared
      ensures View() == old(View()).(
                clients := old(shared.clients)[s := client], sessions := old(sessions)[s := principal],
                    proofs := old(proofs)[s := proof],
                accounts := if principal.Account? then old(accounts)[principal.id := s] else old(accounts))
    {
      if principal.Account? { accounts := accounts[principal.id := s]; }
      proofs := proofs[s := proof];
      sessions := sessions[s := principal];
      shared.clients := shared.clients[s := client];
    }

    /** The caller has gone: the new session leaves no trace but a closed client. */
    method Withdraw(s: SessionId, principal: Principal, ghost before: Book)
      requires s !in before.sessions && s !in before.proofs && s in shared.clients
      requires principal.Account? ==> principal.id !in before.accounts
      requires sessions == before.sessions[s := principal] && s in proofs && proofs == before.proofs[s := proofs[s]]
      requires accounts == if principal.Account? then before.accounts[principal.id := s] else before.accounts
      requires suspended == before.suspended && capacity == before.capacity && grace == before.grace
      requires shared.clients == before.clients[s := shared.clients[s]]
      modifies this, shared
      ensures View() == before.Move(s, old(shared.clients)[s].CloseFinal())
    {
      sessions := sessions - {s};
      if principal.Account? { accounts := accounts - {principal.id}; }
      proofs := proofs - {s};
      shared.clients := shared.clients[s := shared.clients[s].CloseFinal()];
      PutAndTake(before.sessions, s, principal);
      PutAndTake(before.proofs, s, old(proofs)[s]);
      if principal.Account? { PutAndTake(before.accounts, principal.id, s); }
      PutTwice(before.clients, s, old(shared.clients)[s], old(shared.clients)[s].CloseFinal());
    }

    method Suspend(s: SessionId, g: nat, now: nat) returns (changed: bool)
      requires Valid()
      modifies this`suspended, shared
      ensures Valid()
      ensures (View(), changed) == old(View()).Suspend(s, g, now)
      ensures changed <==> s in sessions && s !in old(suspended) && old(View()).Of(s).generation == g
      ensures suspended == if changed then old(suspended)[s := Parked(g, now + grace)] else old(suspended)
      ensures changed ==> s in suspended && shared.clients[s].transport.None?
    {
      SuspendKeeps(View(), s, g, now);
      if s !in sessions { return false; }
      var c;
      c, changed := shared.clients[s].Suspend(g).0, shared.clients[s].Suspend(g).1;
      if changed {
        shared.clients := shared.clients[s := c];
        suspended := suspended[s := Parked(g, now + grace)];
      }
    }

    method Resume(s: SessionId, proof: Token, identity: Option<Principal>, token: Token, now: nat, heard: bool)
        returns (result: Result<nat>)
      requires Valid()
      modifies this`proofs, this`suspended, shared
      ensures Valid()
      ensures (View(), result) == old(View()).Resume(s, proof, identity, token, now, heard)
    {
      hide Book.Inv, Book.Inverse;
      KnownWell(View());
      ResumeKeeps(View(), s, proof, identity, token, now, heard);
      if s !in sessions { return Err(AuthFailed); }
      if (s in suspended && suspended[s].deadline <= now) || s !in proofs || proofs[s] != proof {
        return Err(AuthFailed);
      }
      match (sessions[s], identity) {
        case (Account(account), Some(Account(presented))) => if account != presented { return Err(AuthFailed); }
        case (Guest, None) =>
        case _ => return Err(AuthFailed);
      }
      var attached := shared.clients[s].Attach(true);
      if attached.Err? { return Err(attached.error); }
      var g := attached.value.generation;
      shared.clients := shared.clients[s := attached.value];
      proofs := proofs[s := token];
      suspended := suspended - {s};
      result := Ok(g);
      if !heard {
        shared.clients := shared.clients[s := attached.value.Suspend(g).0];
        suspended := suspended[s := Parked(g, now + grace)];
      }
    }

    method Remove(s: SessionId)
      requires Valid()
      modifies this`sessions, this`proofs, this`suspended, this`accounts, shared
      ensures Valid()
      ensures View() == old(View()).Remove(s)
    {
      hide Book.Inv, Book.Inverse;
      KnownWell(View());
      RemoveKeeps(View(), s);
      proofs := proofs - {s};
      suspended := suspended - {s};
      if s in sessions {
        var principal := sessions[s];
        sessions := sessions - {s};
        shared.clients := shared.clients[s := shared.clients[s].CloseFinal()];
        if principal.Account? { accounts := accounts - {principal.id}; }
      }
    }

    /** One pass: every abandoned connection is detached, then every overdue session goes. The
        two lists come in the order in which the maps happen to be walked. */
    method Expire(now: nat) returns (disconnected: set<SessionId>, expired: set<SessionId>)
      requires Valid() && grace > 0
      modifies this`sessions, this`proofs, this`suspended, this`accounts, shared
      ensures Valid() && disconnected !! expired
      ensures (View(), disconnected, expired) == old(View()).Expire(now)
    {
      hide Book.Inv;
      ScanAllKeeps(View(), now);
      Disjoint(View(), now);
      disconnected := ScanSessions(now);
      expired := set s | s in suspended && suspended[s].deadline <= now;
      assert expired == View().Overdue(now);
      RemoveSessions(expired);
    }

    method ScanSessions(now: nat) returns (disconnected: set<SessionId>)
      requires Valid()
      modifies this`suspended, shared
      ensures disconnected == old(View()).Abandoned()
      ensures View() == old(View()).ScanAll(disconnected, now)
    {
      hide Book.Inv, Book.ScanAll, Book.Abandoned;
      ghost var b := View();
      disconnected := {};
      var todo := sessions.Keys;
      ScanStarts(b, now);
      while todo != {}
        invariant todo <= b.sessions.Keys && disconnected == b.Abandoned() - todo
        invariant View() == b.ScanAll(disconnected, now)
        decreases todo
      {
        var s :| s in todo;
        ScanGoesOn(b, todo, s, now);
        var detached := ScanOne(s, now);
        if detached { disconnected := disconnected + {s}; }
        todo := todo - {s};
      }
      assert b.Abandoned() - todo == b.Abandoned();
    }

    method ScanOne(s: SessionId, now: nat) returns (detached: bool)
      modifies this`suspended, shared
      ensures (View(), detached) == old(View()).Scan(s, now)
    {
      if s !in shared.clients { return false; }
      var (c, g) := shared.clients[s].SuspendClosed();
      if g.None? { return false; }
      shared.clients := shared.clients[s := c];
      suspended := suspended[s := Parked(g.value, now + grace)];
      detached := true;
    }

    method RemoveSessions(expired: set<SessionId>)
      requires Valid()
      modifies this`sessions, this`proofs, this`suspended, this`accounts, shared
      ensures Valid() && View() == old(View()).RemoveAll(expired)
    {
      hide Book.Inv, Book.Inverse, Book.RemoveAll, Book.Remove;
      ghost var b := View();
      KnownWell(b);
      NothingToDo(b, 0);
      var todo := expired;
      assert expired - todo == {};
      while todo != {}
        invariant todo <= expired && Valid() && View() == b.RemoveAll(expired - todo)
        decreases todo
      {
        var s :| s in todo;
        OneRemovalMore(b, expired - todo, s);
        assert expired - todo + {s} == expired - (todo - {s});
        Remove(s);
        todo := todo - {s};
      }
      assert expired - todo == expired;
    }
  }
}
