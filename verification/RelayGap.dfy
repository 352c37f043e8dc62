/** A connection's gap - what was broadcast between the answer to its Hello and its
    registration - is never sent on that connection.  So what a client misses when it is
    registered it misses as long as that stays its connection. */
module RelayGap {
  import opened Operations
  import opened Relay
  import opened RelayProof

  // ---- the gap never enters the channel ----

  ghost predicate ConnApart(conn: Conn, pending: set<Operation>) {
    && conn.gap !! Elems(conn.down) && conn.gap !! pending
    && (conn.stage == Greeted ==> Elems(conn.down) <= conn.greeting)
  }

  ghost predicate Apart(n: Net) {
    forall c :: c in n.conns ==> ConnApart(n.conns[c], n.pending)
  }

  lemma GreetedApart(conn: Conn, store: seq<Operation>, pending: set<Operation>)
    ensures ConnApart(conn.(down := Missing(store, conn.hello), stage := Greeted, greeting := Elems(store), gap := {}),
                      pending)
  {
  }

  lemma HeardApart(conn: Conn, store: set<Operation>, pending: set<Operation>, op: Operation)
    requires ConnApart(conn, pending) && ConnInv(conn, store, pending) && op in pending
    ensures ConnApart(Heard(conn, op), pending - {op})
  {
    assert Elems(conn.down + [op]) == Elems(conn.down) + {op};
  }

  lemma TailApart(conn: Conn, pending: set<Operation>)
    requires ConnApart(conn, pending) && conn.down != []
    ensures ConnApart(conn.(down := conn.down[1..]), pending)
  {
    assert Elems(conn.down[1..]) <= Elems(conn.down);
  }

  lemma TakeApart(n: Net, d: ConnId, c: ConnId)
    requires Enabled(n, Take(d)) && c in n.conns
    requires ConnInv(n.conns[c], Elems(n.store), n.pending) && ConnApart(n.conns[c], n.pending)
    ensures var m := AfterTake(n, d); c in m.conns && ConnApart(m.conns[c], m.pending)
  {
    var op := n.conns[d].up[0];
    if op.id !in Ids(Elems(n.store)) {
      assert op !in Elems(n.store);
    }
  }

  lemma StepConnApart(n: Net, e: Event, c: ConnId)
    requires Inv(n) && Apart(n) && Enabled(n, e) && c in After(n, e).conns
    ensures ConnApart(After(n, e).conns[c], After(n, e).pending)
  {
    assert c in n.conns ==> ConnApart(n.conns[c], n.pending) && ConnInv(n.conns[c], Elems(n.store), n.pending);
    match e
    case RecordBatch(i, ops) =>
    case Resend(i, x) =>
    case GoOffline(i) =>
    case GoOnline(i, d) =>
    case ConnectFails(i) =>
    case Drain(i) => if PeerAt(n, i).conn.value == c { TailApart(n.conns[c], n.pending); }
    case Greet(d) => GreetedApart(n.conns[d], n.store, n.pending);
    case Register(d) =>
    case Take(d) => TakeApart(n, d, c);
    case Broadcast(op) => HeardApart(n.conns[c], Elems(n.store), n.pending, op);
  }

  lemma StepApart(n: Net, e: Event)
    requires Inv(n) && Apart(n) && Enabled(n, e)
    ensures Apart(After(n, e))
  {
    forall c | c in After(n, e).conns ensures ConnApart(After(n, e).conns[c], After(n, e).pending) {
      StepConnApart(n, e, c);
    }
  }

  lemma {:induction false} StaysApart(events: seq<Event>)
    requires Possible(events)
    ensures Apart(Execute(events))
    decreases |events|
  {
    if events != [] {
      StaysApart(events[..|events| - 1]);
      Invariant(events[..|events| - 1]);
      StepApart(Execute(events[..|events| - 1]), events[|events| - 1]);
    }
  }

  // ---- one step on a registered connection ----

  /** Connections are not reused: a client on an old connection was on it before. */
  lemma SameConnection(n: Net, e: Event, i: ReplicaId, c: ConnId)
    requires Enabled(n, e) && c in n.conns && PeerAt(After(n, e), i).conn == Some(c)
    ensures PeerAt(n, i).conn == Some(c) && c in After(n, e).conns
  {
    match e
    case RecordBatch(j, ops) =>
    case Resend(j, x) =>
    case GoOffline(j) =>
    case GoOnline(j, d) =>
    case ConnectFails(j) =>
    case Drain(j) =>
    case Greet(d) =>
    case Register(d) =>
    case Take(d) =>
    case Broadcast(op) =>
  }

  lemma RegisteredStays(n: Net, e: Event, c: ConnId)
    requires Enabled(n, e) && c in n.conns && n.conns[c].stage == Registered
    ensures c in After(n, e).conns && After(n, e).conns[c].stage == Registered
    ensures After(n, e).conns[c].gap == n.conns[c].gap
  {
    match e
    case RecordBatch(j, ops) =>
    case Resend(j, x) =>
    case GoOffline(j) =>
    case GoOnline(j, d) =>
    case ConnectFails(j) =>
    case Drain(j) =>
    case Greet(d) =>
    case Register(d) =>
    case Take(d) =>
    case Broadcast(op) =>
  }

  /** A client's log only grows, and not by what is in the gap of its connection. */
  lemma StillMissing(n: Net, e: Event, i: ReplicaId, c: ConnId, op: Operation)
    requires Inv(n) && Apart(n) && Enabled(n, e)
    requires PeerAt(n, i).conn == Some(c) && c in n.conns && op in n.conns[c].gap && op !in PeerAt(n, i).log
    ensures op !in PeerAt(After(n, e), i).log
  {
    assert ConnApart(n.conns[c], n.pending) && ConnInv(n.conns[c], Elems(n.store), n.pending);
    assert op in n.issued;
    match e
    case RecordBatch(j, ops) =>
      assert op.id in Ids(n.issued);
    case Resend(j, x) =>
    case GoOffline(j) =>
    case GoOnline(j, d) =>
    case ConnectFails(j) =>
    case Drain(j) =>
      if j == i { assert n.conns[c].down[0] in Elems(n.conns[c].down); }
    case Greet(d) =>
    case Register(d) =>
    case Take(d) =>
    case Broadcast(x) =>
  }

  lemma LogsGrow(n: Net, e: Event, i: ReplicaId)
    requires Enabled(n, e)
    ensures PeerAt(n, i).log <= PeerAt(After(n, e), i).log
  {
    match e
    case RecordBatch(j, ops) =>
    case Resend(j, x) =>
    case GoOffline(j) =>
    case GoOnline(j, d) =>
    case ConnectFails(j) =>
    case Drain(j) =>
    case Greet(d) =>
    case Register(d) =>
    case Take(d) =>
    case Broadcast(op) =>
  }

  // ---- main results ----

  /** A gap never heals on its own connection: in any run, what a client on a registered
      connection misses of that connection's gap it misses for as long as it stays on
      that connection; and the gap is fixed at registration. */
  lemma {:induction false} GapNeverHeals(events: seq<Event>, k: nat, i: ReplicaId, c: ConnId)
    requires Possible(events) && k <= |events|
    requires c in Execute(events[..k]).conns && Execute(events[..k]).conns[c].stage == Registered
    requires PeerAt(Execute(events), i).conn == Some(c)
    ensures PeerAt(Execute(events[..k]), i).conn == Some(c)
    ensures c in Execute(events).conns && Execute(events).conns[c].stage == Registered
    ensures Execute(events).conns[c].gap == Execute(events[..k]).conns[c].gap
    ensures PeerAt(Execute(events[..k]), i).log <= PeerAt(Execute(events), i).log
    ensures forall op :: op in Execute(events[..k]).conns[c].gap && op !in PeerAt(Execute(events[..k]), i).log ==>
              op !in PeerAt(Execute(events), i).log
    decreases |events|
  {
    if k == |events| {
      assert events[..k] == events;
    } else {
      var init, e := events[..|events| - 1], events[|events| - 1];
      var n := Execute(init);
      assert init[..k] == events[..k];
      KeepsConnection(init, k, c);
      SameConnection(n, e, i, c);
      GapNeverHeals(init, k, i, c);
      Invariant(init);
      StaysApart(init);
      RegisteredStays(n, e, c);
      LogsGrow(n, e, i);
      forall op | op in n.conns[c].gap && op !in PeerAt(n, i).log ensures op !in PeerAt(After(n, e), i).log {
        StillMissing(n, e, i, c, op);
      }
    }
  }

  lemma {:induction false} KeepsConnection(events: seq<Event>, k: nat, c: ConnId)
    requires Possible(events) && k <= |events|
    requires c in Execute(events[..k]).conns && Execute(events[..k]).conns[c].stage == Registered
    ensures c in Execute(events).conns && Execute(events).conns[c].stage == Registered
    decreases |events|
  {
    if k == |events| {
      assert events[..k] == events;
    } else {
      var init := events[..|events| - 1];
      assert init[..k] == events[..k];
      KeepsConnection(init, k, c);
      RegisteredStays(Execute(init), events[|events| - 1], c);
    }
  }

  /** Exactly when a settled client has everything once the network is quiet: if and only
      if it had all of its connection's gap already when the connection was registered. */
  lemma {:induction false} SettledExactly(events: seq<Event>, k: nat, i: ReplicaId, c: ConnId)
    requires Possible(events) && k < |events| && events[k] == Register(c)
    requires Quiet(Execute(events)) && Settled(Execute(events), i) && PeerAt(Execute(events), i).conn == Some(c)
    ensures PeerAt(Execute(events), i).log == Execute(events).issued
       <==> (var registered := Execute(events[..k + 1]);
             c in registered.conns && registered.conns[c].gap <= PeerAt(registered, i).log)
  {
    JustRegistered(events, k, c);
    GapNeverHeals(events, k + 1, i, c);
    LacksOnlyGap(events, i);
    Invariant(events);
    GapIsIssued(Execute(events), c);
  }

  lemma GapIsIssued(n: Net, c: ConnId)
    requires Inv(n) && c in n.conns
    ensures n.conns[c].gap <= n.issued
  {
    assert ConnInv(n.conns[c], Elems(n.store), n.pending);
  }

  lemma {:induction false} PrefixPossible(events: seq<Event>, k: nat)
    requires Possible(events) && k <= |events|
    ensures Possible(events[..k])
    decreases |events|
  {
    if k == |events| {
      assert events[..k] == events;
    } else {
      PrefixPossible(events[..|events| - 1], k);
      assert events[..|events| - 1][..k] == events[..k];
    }
  }

  lemma JustRegistered(events: seq<Event>, k: nat, c: ConnId)
    requires Possible(events) && k < |events| && events[k] == Register(c)
    ensures c in Execute(events[..k + 1]).conns && Execute(events[..k + 1]).conns[c].stage == Registered
  {
    PrefixPossible(events, k + 1);
    assert events[..k + 1][..k] == events[..k];
  }
}
