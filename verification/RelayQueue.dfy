/** The offline queue over whole runs of the relay - it holds exactly what its client
    recorded offline since it was last connected - and the order that channels, store and
    answers keep. */
module RelayQueue {
  import opened Operations
  import opened Relay

  /** Whether the client's last attempt to connect succeeded and it has not left since. */
  predicate IsOnline(events: seq<Event>, i: ReplicaId) {
    events != [] &&
    match events[|events| - 1]
    case GoOnline(j, _) => j == i || IsOnline(events[..|events| - 1], i)
    case GoOffline(j) => j != i && IsOnline(events[..|events| - 1], i)
    case ConnectFails(j) => j != i && IsOnline(events[..|events| - 1], i)
    case _ => IsOnline(events[..|events| - 1], i)
  }

  /** The k-th event recorded op at client i, offline, and it has not connected since. */
  ghost predicate Waits(events: seq<Event>, i: ReplicaId, k: nat, op: Operation) {
    && k < |events| && events[k].RecordBatch? && events[k].i == i && op in events[k].ops
    && !IsOnline(events[..k], i)
    && forall m :: k < m < |events| ==> !(events[m].GoOnline? && events[m].i == i)
  }

  ghost predicate Waiting(events: seq<Event>, i: ReplicaId, op: Operation) {
    exists k :: Waits(events, i, k, op)
  }

  lemma WaitsOn(events: seq<Event>, i: ReplicaId, op: Operation)
    requires events != []
    ensures var init, e := events[..|events| - 1], events[|events| - 1];
            Waiting(events, i, op)
            <==> || (Waiting(init, i, op) && !(e.GoOnline? && e.i == i))
                 || (e.RecordBatch? && e.i == i && op in e.ops && !IsOnline(init, i))
  {
    var init, e := events[..|events| - 1], events[|events| - 1];
    if k: nat :| Waits(events, i, k, op) {
      if k < |init| {
        assert events[..k] == init[..k];
        assert Waits(init, i, k, op);
      } else {
        assert events[..k] == init;
      }
    }
    if Waiting(init, i, op) && !(e.GoOnline? && e.i == i) {
      var k: nat :| Waits(init, i, k, op);
      assert events[..k] == init[..k];
      assert Waits(events, i, k, op);
    }
    if e.RecordBatch? && e.i == i && op in e.ops && !IsOnline(init, i) {
      assert Waits(events, i, |init|, op);
    }
  }

  /** What one event does to a client's queue and mode. */
  lemma QueueStep(n: Net, e: Event, i: ReplicaId)
    requires Enabled(n, e)
    ensures var p, q := PeerAt(n, i), PeerAt(After(n, e), i);
            match e
            case RecordBatch(j, ops) =>
              q.online == p.online && q.queue == if j == i && !p.online then p.queue + ops else p.queue
            case GoOffline(j) =>
              q.queue == p.queue && q.online == (p.online && j != i) && q.conn == if j == i then None else p.conn
            case ConnectFails(j) => q.queue == p.queue && q.online == (p.online && j != i) && q.conn == p.conn
            case GoOnline(j, c) => q.queue == (if j == i then [] else p.queue) && q.online == (p.online || j == i)
            case _ => q.queue == p.queue && q.online == p.online
  {
    match e
    case RecordBatch(j, ops) =>
    case Resend(j, op) =>
    case GoOffline(j) =>
    case GoOnline(j, c) =>
    case ConnectFails(j) =>
    case Drain(j) =>
    case Greet(c) =>
    case Register(c) =>
    case Take(c) =>
    case Broadcast(op) =>
  }

  /** Publishing reaches the server's end of the connection, in order, and only from a
      client that is online; what is queued is not sent. */
  lemma PublishedInOrder(n: Net, i: ReplicaId, ops: seq<Operation>)
    requires Enabled(n, RecordBatch(i, ops))
    ensures Sent(n, After(n, RecordBatch(i, ops)), i, ops)
  {
  }

  lemma ResentToo(n: Net, i: ReplicaId, op: Operation)
    requires Enabled(n, Resend(i, op))
    ensures Sent(n, After(n, Resend(i, op)), i, [op])
  {
  }

  ghost predicate Sent(n: Net, m: Net, i: ReplicaId, ops: seq<Operation>) {
    if PeerAt(n, i).online && Connected(n, i)
    then Connected(m, i) && ConnOf(m, i) == ConnOf(n, i).(up := ConnOf(n, i).up + ops)
    else m.conns == n.conns
  }

  /** A broadcast goes to the end of every registered connection and to no other, and a
      client reads its connection from the front. */
  lemma HeardInOrder(n: Net, op: Operation, c: ConnId)
    requires Enabled(n, Broadcast(op)) && c in n.conns
    ensures var before, after := n.conns[c], After(n, Broadcast(op)).conns[c];
            after.down == if before.stage == Registered then before.down + [op] else before.down
  {
  }

  lemma DrainedInOrder(n: Net, i: ReplicaId)
    requires Enabled(n, Drain(i))
    ensures var m := After(n, Drain(i));
            && Connected(m, i) && ConnOf(n, i).down == [ConnOf(n, i).down[0]] + ConnOf(m, i).down
            && (ConnOf(n, i).down[0].id !in Ids(PeerAt(n, i).log) ==>
                  PeerAt(m, i).log == PeerAt(n, i).log + {ConnOf(n, i).down[0]})
  {
  }

  /** The store only grows, at its end, by operations with new ids. */
  lemma StoreGrows(n: Net, e: Event)
    requires Enabled(n, e)
    ensures var before, after := n.store, After(n, e).store;
            before <= after && forall k :: |before| <= k < |after| ==> after[k].id !in Ids(Elems(before))
  {
    match e
    case RecordBatch(j, ops) =>
    case Resend(j, op) =>
    case GoOffline(j) =>
    case GoOnline(j, c) =>
    case ConnectFails(j) =>
    case Drain(j) =>
    case Greet(c) =>
    case Register(c) =>
    case Take(c) =>
    case Broadcast(op) =>
  }

  /** A Hello is answered with all that is stored and was not named, and nothing else. */
  lemma GreetingIsMissing(n: Net, c: ConnId, op: Operation)
    requires Enabled(n, Greet(c))
    ensures op in After(n, Greet(c)).conns[c].down <==> op in n.store && op.id !in n.conns[c].hello
  {
  }

  /** A client queues exactly what it recorded offline and has not connected to send since. */
  lemma {:induction false} QueuedExactly(events: seq<Event>, i: ReplicaId)
    requires Possible(events)
    ensures PeerAt(Execute(events), i).online == IsOnline(events, i)
    ensures forall op :: op in PeerAt(Execute(events), i).queue <==> Waiting(events, i, op)
    decreases |events|
  {
    if events != [] {
      var init, e := events[..|events| - 1], events[|events| - 1];
      QueuedExactly(init, i);
      QueueStep(Execute(init), e, i);
      forall op ensures op in PeerAt(Execute(events), i).queue <==> Waiting(events, i, op) {
        WaitsOn(events, i, op);
      }
    }
  }

  /** And connecting names what the client has and sends all of it, in order, on the new
      connection. */
  lemma {:induction false} QueueIsSent(events: seq<Event>, i: ReplicaId, c: ConnId)
    requires Possible(events) && Enabled(Execute(events), GoOnline(i, c))
    ensures var n, m := Execute(events), After(Execute(events), GoOnline(i, c));
            && Connected(m, i) && ConnOf(m, i).up == PeerAt(n, i).queue && ConnOf(m, i).owner == i
            && ConnOf(m, i).hello == Ids(PeerAt(n, i).log)
            && forall op :: Waiting(events, i, op) ==> op in ConnOf(m, i).up
  {
    QueuedExactly(events, i);
  }
}
