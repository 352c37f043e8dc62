/** The relay loses nothing and converges - except for what falls in a connection's
    gap, which is healed by a later Hello. */
module RelayProof {
  import opened Operations
  import opened Replays
  import opened Relay

  // ---- every step keeps what is known ----

  lemma PublishKeepsKnown(n: Net, i: ReplicaId, ops: seq<Operation>)
    requires Known(n) && Elems(ops) <= n.issued
    ensures Known(Publish(n, i, ops))
  {
    if PeerAt(n, i).online && Connected(n, i) {
      assert Elems(ConnOf(n, i).up + ops) == Elems(ConnOf(n, i).up) + Elems(ops);
    }
  }

  lemma FreshDistinct(n: Net, ops: seq<Operation>)
    requires DistinctIds(n.issued) && Fresh(n, ops)
    ensures DistinctIds(n.issued + Elems(ops))
  {
    forall a, b | a in n.issued + Elems(ops) && b in n.issued + Elems(ops) && a.id == b.id ensures a == b {
      if a in Elems(ops) && b in Elems(ops) {
        var k :| 0 <= k < |ops| && ops[k] == a;
        var l :| 0 <= l < |ops| && ops[l] == b;
        assert k == l;
      }
    }
  }

  lemma RecordKeepsKnown(n: Net, i: ReplicaId, ops: seq<Operation>)
    requires Known(n) && Fresh(n, ops)
    ensures Known(RecordAll(n, i, ops))
  {
    FreshDistinct(n, ops);
    assert Elems(PeerAt(n, i).queue + ops) == Elems(PeerAt(n, i).queue) + Elems(ops);
  }

  lemma DrainKeepsKnown(n: Net, i: ReplicaId)
    requires Inv(n) && Enabled(n, Drain(i))
    ensures Known(AfterDrain(n, i))
  {
    var conn := ConnOf(n, i);
    assert ConnInv(conn, Elems(n.store), n.pending);
    assert conn.down[0] in Elems(conn.down);
  }

  lemma TakeKeepsKnown(n: Net, c: ConnId)
    requires Known(n) && Enabled(n, Take(c))
    ensures Known(AfterTake(n, c))
  {
    var up := n.conns[c].up;
    assert up == [up[0]] + up[1..];
    assert Elems(up[1..]) <= Elems(up) && up[0] in Elems(up);
    assert Elems(n.store + [up[0]]) == Elems(n.store) + {up[0]};
  }

  lemma OnlineKeepsKnown(n: Net, i: ReplicaId, c: ConnId)
    requires Known(n)
    ensures Known(AfterOnline(n, i, c))
  {
    assert Elems<Operation>([]) == {};
  }

  lemma StepKnown(n: Net, e: Event)
    requires Inv(n) && Enabled(n, e)
    ensures Known(After(n, e))
  {
    match e
    case RecordBatch(i, ops) =>
      RecordKeepsKnown(n, i, ops);
      PublishKeepsKnown(RecordAll(n, i, ops), i, ops);
    case Resend(i, op) => PublishKeepsKnown(n, i, [op]);
    case GoOffline(i) =>
    case GoOnline(i, c) => OnlineKeepsKnown(n, i, c);
    case ConnectFails(i) =>
    case Drain(i) => DrainKeepsKnown(n, i);
    case Greet(c) =>
    case Register(c) =>
    case Take(c) => TakeKeepsKnown(n, c);
    case Broadcast(op) =>
  }

  // ---- nothing is lost ----

  lemma PublishSafe(n: Net, i: ReplicaId, ops: seq<Operation>, op: Operation)
    requires Safe(n, op) || (PeerAt(n, i).online && Connected(n, i) && op in ops)
    ensures Safe(Publish(n, i, ops), op)
  {
    var m := Publish(n, i, ops);
    if exists j :: j in n.peers && op in n.peers[j].queue {
      var j :| j in n.peers && op in n.peers[j].queue;
      assert j in m.peers && op in m.peers[j].queue;
    } else if exists c :: c in n.conns && op in n.conns[c].up {
      var c :| c in n.conns && op in n.conns[c].up;
      assert c in m.conns && op in m.conns[c].up;
    } else if op !in n.store {
      var c := PeerAt(n, i).conn.value;
      assert c in m.conns && op in m.conns[c].up;
    }
  }

  lemma RecordSafe(n: Net, i: ReplicaId, ops: seq<Operation>, op: Operation)
    requires Linked(n, i) && (Safe(n, op) || op in ops)
    ensures Safe(Publish(RecordAll(n, i, ops), i, ops), op)
  {
    var m := RecordAll(n, i, ops);
    if Safe(n, op) || !PeerAt(n, i).online {
      if op in ops && !PeerAt(n, i).online {
        assert i in m.peers && op in m.peers[i].queue;
      } else if exists j :: j in n.peers && op in n.peers[j].queue {
        var j :| j in n.peers && op in n.peers[j].queue;
        assert j in m.peers && op in m.peers[j].queue;
      }
      assert Safe(m, op);
    }
    PublishSafe(m, i, ops, op);
  }

  lemma OnlineSafe(n: Net, i: ReplicaId, c: ConnId, op: Operation)
    requires Safe(n, op) && c !in n.conns
    ensures Safe(AfterOnline(n, i, c), op)
  {
    var m := AfterOnline(n, i, c);
    if exists j :: j in n.peers && op in n.peers[j].queue {
      var j :| j in n.peers && op in n.peers[j].queue;
      if j == i {
        assert c in m.conns && op in m.conns[c].up;
      } else {
        assert j in m.peers && op in m.peers[j].queue;
      }
    } else if exists d :: d in n.conns && op in n.conns[d].up {
      var d :| d in n.conns && op in n.conns[d].up;
      assert d in m.conns && op in m.conns[d].up;
    }
  }

  lemma TakeSafe(n: Net, c: ConnId, op: Operation)
    requires Known(n) && Enabled(n, Take(c)) && Safe(n, op)
    ensures Safe(AfterTake(n, c), op)
  {
    var m, up := AfterTake(n, c), n.conns[c].up;
    if op in n.store {
      assert op in m.store;
    } else if exists j :: j in n.peers && op in n.peers[j].queue {
      var j :| j in n.peers && op in n.peers[j].queue;
      assert j in m.peers && op in m.peers[j].queue;
    } else {
      var d :| d in n.conns && op in n.conns[d].up;
      if d == c && op !in up[1..] {
        assert up == [up[0]] + up[1..];
        assert op == up[0] && up[0] in Elems(up);
        TakenIsStored(n, c);
      } else {
        assert d in m.conns && op in m.conns[d].up;
      }
    }
  }

  lemma TakenIsStored(n: Net, c: ConnId)
    requires Known(n) && Enabled(n, Take(c))
    ensures n.conns[c].up[0] in AfterTake(n, c).store
  {
    var op := n.conns[c].up[0];
    assert op in Elems(n.conns[c].up);
    if op.id in Ids(Elems(n.store)) {
      var x :| x in Elems(n.store) && x.id == op.id;
      assert x == op;
    }
  }

  /** Steps that leave the store, the queues and the upward channels alone. */
  lemma QuietSafe(n: Net, m: Net, op: Operation)
    requires Safe(n, op)
    requires m.store == n.store
    requires forall j :: j in n.peers ==> j in m.peers && m.peers[j].queue == n.peers[j].queue
    requires forall c :: c in n.conns ==> c in m.conns && m.conns[c].up == n.conns[c].up
    ensures Safe(m, op)
  {
    if exists j :: j in n.peers && op in n.peers[j].queue {
      var j :| j in n.peers && op in n.peers[j].queue;
      assert j in m.peers && op in m.peers[j].queue;
    } else if exists c :: c in n.conns && op in n.conns[c].up {
      var c :| c in n.conns && op in n.conns[c].up;
      assert c in m.conns && op in m.conns[c].up;
    }
  }

  lemma StepSafe(n: Net, e: Event, op: Operation)
    requires Inv(n) && Enabled(n, e) && op in After(n, e).issued
    ensures Safe(After(n, e), op)
  {
    match e
    case RecordBatch(i, ops) =>
      assert Linked(n, i);
      RecordSafe(n, i, ops, op);
    case Resend(i, x) => PublishSafe(n, i, [x], op);
    case GoOnline(i, c) => OnlineSafe(n, i, c, op);
    case Take(c) => TakeSafe(n, c, op);
    case _ => QuietSafe(n, After(n, e), op);
  }

  // ---- the downward channels ----

  lemma HeardConn(conn: Conn, store: set<Operation>, pending: set<Operation>, op: Operation)
    requires ConnInv(conn, store, pending) && op in store
    ensures ConnInv(Heard(conn, op), store, pending - {op})
  {
    assert Elems(conn.down + [op]) == Elems(conn.down) + {op};
  }

  lemma GreetedConn(conn: Conn, store: seq<Operation>, pending: set<Operation>, hello: set<OpId>)
    ensures ConnInv(conn.(down := Missing(store, hello), stage := Greeted, greeting := Elems(store), gap := {}),
                    Elems(store), pending)
  {
  }

  lemma StoredConn(conn: Conn, store: set<Operation>, pending: set<Operation>, op: Operation)
    requires ConnInv(conn, store, pending) && op !in store
    ensures ConnInv(conn, store + {op}, pending + {op})
  {
  }

  lemma TailConn(conn: Conn, store: set<Operation>, pending: set<Operation>)
    requires ConnInv(conn, store, pending) && conn.down != []
    ensures ConnInv(conn.(down := conn.down[1..]), store, pending)
  {
  }

  lemma StepConn(n: Net, e: Event, c: ConnId)
    requires Inv(n) && Enabled(n, e) && c in After(n, e).conns
    ensures ConnInv(After(n, e).conns[c], Elems(After(n, e).store), After(n, e).pending)
  {
    var store := Elems(n.store);
    assert c in n.conns ==> ConnInv(n.conns[c], store, n.pending);
    match e
    case RecordBatch(i, ops) =>
    case Resend(i, x) =>
    case GoOffline(i) =>
    case GoOnline(i, d) =>
    case ConnectFails(i) =>
    case Drain(i) => if PeerAt(n, i).conn.value == c { TailConn(n.conns[c], store, n.pending); }
    case Greet(d) => GreetedConn(n.conns[d], n.store, n.pending, n.conns[d].hello);
    case Register(d) =>
    case Take(d) => TakeConn(n, d, c);
    case Broadcast(op) => HeardConn(n.conns[c], store, n.pending, op);
  }

  lemma TakeConn(n: Net, d: ConnId, c: ConnId)
    requires Enabled(n, Take(d)) && c in n.conns && ConnInv(n.conns[c], Elems(n.store), n.pending)
    ensures var m := AfterTake(n, d); c in m.conns && ConnInv(m.conns[c], Elems(m.store), m.pending)
  {
    var op := n.conns[d].up[0];
    if op.id !in Ids(Elems(n.store)) {
      assert Elems(n.store + [op]) == Elems(n.store) + {op};
      StoredConn(n.conns[c], Elems(n.store), n.pending, op);
    }
  }

  // ---- what each client's connection still owes it ----

  lemma LinkGrows(p: Peer, q: Peer, conn: Conn, store: set<Operation>, pending: set<Operation>)
    requires Link(p, conn, store, pending) && p.log <= q.log
    ensures Link(q, conn, store, pending)
  {
  }

  lemma StoredLink(p: Peer, conn: Conn, store: set<Operation>, pending: set<Operation>, op: Operation)
    requires Link(p, conn, store, pending)
    ensures Link(p, conn, store + {op}, pending + {op})
  {
  }

  lemma HeardLink(p: Peer, conn: Conn, store: set<Operation>, pending: set<Operation>, op: Operation)
    requires Link(p, conn, store, pending)
    ensures Link(p, Heard(conn, op), store, pending - {op})
  {
    assert Elems(conn.down + [op]) == Elems(conn.down) + {op};
  }

  lemma GreetedLink(n: Net, i: ReplicaId, conn: Conn)
    requires Known(n) && conn.hello <= Ids(PeerAt(n, i).log)
    ensures Link(PeerAt(n, i), conn.(down := Missing(n.store, conn.hello), stage := Greeted,
                                     greeting := Elems(n.store), gap := {}), Elems(n.store), n.pending)
  {
    var p := PeerAt(n, i);
    forall x | x in Elems(n.store) && x.id in conn.hello ensures x in p.log {
      var y :| y in p.log && y.id == x.id;
      assert y in n.issued && x in n.issued;
    }
  }

  lemma RegisteredLink(p: Peer, conn: Conn, store: set<Operation>, pending: set<Operation>)
    requires conn.stage == Greeted && ConnInv(conn, store, pending) && Link(p, conn, store, pending)
    ensures Link(p, conn.(stage := Registered), store, pending)
  {
  }

  lemma DrainedLink(p: Peer, conn: Conn, store: set<Operation>, pending: set<Operation>, issued: set<Operation>)
    requires Link(p, conn, store, pending) && conn.down != [] && DistinctIds(issued)
    requires p.log <= issued && Elems(conn.down) <= issued
    ensures var op := conn.down[0];
            Link(if op.id in Ids(p.log) then p else p.(log := p.log + {op}),
                 conn.(down := conn.down[1..]), store, pending)
  {
    var op := conn.down[0];
    assert conn.down == [op] + conn.down[1..];
    assert Elems(conn.down) == {op} + Elems(conn.down[1..]);
    if op.id in Ids(p.log) {
      var y :| y in p.log && y.id == op.id;
      assert y == op;
    }
  }

  /** A client whose own record, connection, store and pending set did not change stays linked. */
  lemma UntouchedLinked(n: Net, m: Net, i: ReplicaId)
    requires Linked(n, i) && m.store == n.store && m.pending == n.pending
    requires PeerAt(m, i) == PeerAt(n, i)
    requires PeerAt(n, i).conn.Some? ==>
               && PeerAt(n, i).conn.value in m.conns
               && m.conns[PeerAt(n, i).conn.value].(up := []) == n.conns[PeerAt(n, i).conn.value].(up := [])
    ensures Linked(m, i)
  {
  }

  lemma PublishLinked(n: Net, i: ReplicaId, ops: seq<Operation>, j: ReplicaId)
    requires Linked(n, j)
    ensures Linked(Publish(n, i, ops), j)
  {
    UntouchedLinked(n, Publish(n, i, ops), j);
  }

  lemma RecordLinked(n: Net, i: ReplicaId, ops: seq<Operation>, j: ReplicaId)
    requires Linked(n, j)
    ensures Linked(RecordAll(n, i, ops), j)
  {
    if PeerAt(n, j).conn.Some? {
      LinkGrows(PeerAt(n, j), PeerAt(RecordAll(n, i, ops), j), n.conns[PeerAt(n, j).conn.value],
                Elems(n.store), n.pending);
    }
  }

  lemma DrainLinked(n: Net, i: ReplicaId, j: ReplicaId)
    requires Inv(n) && Enabled(n, Drain(i))
    ensures Linked(AfterDrain(n, i), j)
  {
    var c := PeerAt(n, i).conn.value;
    assert Linked(n, i) && Linked(n, j);
    assert ConnInv(n.conns[c], Elems(n.store), n.pending);
    if j == i {
      DrainedLink(PeerAt(n, i), n.conns[c], Elems(n.store), n.pending, n.issued);
    } else {
      UntouchedLinked(n, AfterDrain(n, i), j);
    }
  }

  lemma TakeLinked(n: Net, c: ConnId, j: ReplicaId)
    requires Linked(n, j) && Enabled(n, Take(c))
    ensures Linked(AfterTake(n, c), j)
  {
    var op := n.conns[c].up[0];
    if op.id !in Ids(Elems(n.store)) && PeerAt(n, j).conn.Some? {
      assert Elems(n.store + [op]) == Elems(n.store) + {op};
      StoredLink(PeerAt(n, j), n.conns[PeerAt(n, j).conn.value], Elems(n.store), n.pending, op);
    }
  }

  lemma StepLinked(n: Net, e: Event, j: ReplicaId)
    requires Inv(n) && Enabled(n, e)
    ensures Linked(After(n, e), j)
  {
    var p, store := PeerAt(n, j), Elems(n.store);
    assert Linked(n, j);
    match e
    case RecordBatch(i, ops) =>
      RecordLinked(n, i, ops, j);
      PublishLinked(RecordAll(n, i, ops), i, ops, j);
    case Resend(i, x) => PublishLinked(n, i, [x], j);
    case GoOffline(i) => if j != i { UntouchedLinked(n, After(n, e), j); }
    case GoOnline(i, c) => if j != i { UntouchedLinked(n, After(n, e), j); }
    case ConnectFails(i) =>
    case Drain(i) => DrainLinked(n, i, j);
    case Greet(c) => GreetLinked(n, c, j);
    case Register(c) => RegisterLinked(n, c, j);
    case Take(c) => TakeLinked(n, c, j);
    case Broadcast(op) =>
      if p.conn.Some? { HeardLink(p, n.conns[p.conn.value], store, n.pending, op); }
  }

  lemma GreetLinked(n: Net, c: ConnId, j: ReplicaId)
    requires Inv(n) && Enabled(n, Greet(c))
    ensures Linked(After(n, Greet(c)), j)
  {
    assert Linked(n, j);
    if PeerAt(n, j).conn == Some(c) {
      GreetedLink(n, j, n.conns[c]);
    } else {
      UntouchedLinked(n, After(n, Greet(c)), j);
    }
  }

  lemma RegisterLinked(n: Net, c: ConnId, j: ReplicaId)
    requires Inv(n) && Enabled(n, Register(c))
    ensures Linked(After(n, Register(c)), j)
  {
    assert Linked(n, j) && ConnInv(n.conns[c], Elems(n.store), n.pending);
    if PeerAt(n, j).conn == Some(c) {
      RegisteredLink(PeerAt(n, j), n.conns[c], Elems(n.store), n.pending);
    } else {
      UntouchedLinked(n, After(n, Register(c)), j);
    }
  }

  lemma StepKeepsInv(n: Net, e: Event)
    requires Inv(n) && Enabled(n, e)
    ensures Inv(After(n, e))
  {
    var m := After(n, e);
    StepKnown(n, e);
    forall op | op in m.issued ensures Safe(m, op) {
      StepSafe(n, e, op);
    }
    forall c | c in m.conns ensures ConnInv(m.conns[c], Elems(m.store), m.pending) {
      StepConn(n, e, c);
    }
    forall i ensures Linked(m, i) {
      StepLinked(n, e, i);
    }
  }

  lemma {:induction false} Invariant(events: seq<Event>)
    requires Possible(events)
    ensures Inv(Execute(events))
    decreases |events|
  {
    if events != [] {
      Invariant(events[..|events| - 1]);
      StepKeepsInv(Execute(events[..|events| - 1]), events[|events| - 1]);
    }
  }

  // ---- main results ----

  /** Nothing is lost: in every run, every recorded operation is in the store, in an
      unsynced queue, or on its way to the server. */
  lemma {:induction false} NothingLost(events: seq<Event>, op: Operation)
    requires Possible(events) && op in Execute(events).issued
    ensures Safe(Execute(events), op)
  {
    Invariant(events);
  }

  /** No operation waits for the server or in a broadcast. */
  ghost predicate Quiet(n: Net) {
    && (forall i :: i in n.peers ==> n.peers[i].queue == [])
    && (forall c :: c in n.conns ==> n.conns[c].up == [])
    && n.pending == {}
  }

  /** The client is connected and registered and has drained its channel. */
  predicate Settled(n: Net, i: ReplicaId) {
    Connected(n, i) && ConnOf(n, i).stage == Registered && ConnOf(n, i).down == []
  }

  lemma QuietStore(n: Net)
    requires Inv(n) && Quiet(n)
    ensures Elems(n.store) == n.issued
  {
    forall op | op in n.issued ensures op in Elems(n.store) {
      assert Safe(n, op);
    }
  }

  lemma LogsAreIssued(n: Net, i: ReplicaId)
    requires Inv(n)
    ensures PeerAt(n, i).log <= n.issued
  {
  }

  /** Once the network is quiet, a settled client lacks at most its connection's gap. */
  lemma LacksOnlyGap(events: seq<Event>, i: ReplicaId)
    requires Possible(events)
    requires Quiet(Execute(events)) && Settled(Execute(events), i)
    ensures PeerAt(Execute(events), i).log == Execute(events).issued
       <==> ConnOf(Execute(events), i).gap <= PeerAt(Execute(events), i).log
    ensures Execute(events).issued <= PeerAt(Execute(events), i).log + ConnOf(Execute(events), i).gap
  {
    var n := Execute(events);
    Invariant(events);
    QuietStore(n);
    LogsAreIssued(n, i);
    assert Linked(n, i);
    assert ConnInv(ConnOf(n, i), Elems(n.store), n.pending);
  }

  /** The client's current connection was greeted when the store was already complete. */
  predicate UpToDate(n: Net, i: ReplicaId) {
    Connected(n, i) && ConnOf(n, i).stage != Waiting && ConnOf(n, i).down == []
    && ConnOf(n, i).greeting == Elems(n.store)
  }

  /** Convergence: once the network is quiet, any two clients whose Hello was answered
      after the last store insert hold all operations ever issued, in equal states. */
  lemma Convergence(events: seq<Event>, i: ReplicaId, j: ReplicaId)
    requires Possible(events) && Quiet(Execute(events))
    requires UpToDate(Execute(events), i) && UpToDate(Execute(events), j)
    ensures PeerAt(Execute(events), i).log == PeerAt(Execute(events), j).log == Execute(events).issued
    ensures Replay(PeerAt(Execute(events), i).log) == Replay(PeerAt(Execute(events), j).log)
  {
    var n := Execute(events);
    Invariant(events);
    QuietStore(n);
    LogsAreIssued(n, i);
    LogsAreIssued(n, j);
    assert Linked(n, i) && Linked(n, j);
  }
}
