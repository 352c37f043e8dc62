/** The gap is real: a run at whose quiet end a connected, registered and drained
    client lacks an operation, because it was broadcast between the answer to the
    client's Hello and the client's registration; and a run in which that client then
    holds a later operation of the same issuer. */
module RelayLimits {
  import opened Operations
  import opened Relay
  import opened RelayProof

  ghost predicate Reachable(n: Net) {
    exists events :: Possible(events) && Execute(events) == n
  }

  function Line(owner: ReplicaId, up: seq<Operation>, down: seq<Operation>, stage: Stage, gap: set<Operation>): Conn {
    Conn(owner, {}, up, down, stage, {}, gap)
  }

  /** A network of online clients 1 and 2 on connections 0 and 1; client 2's log is empty. */
  ghost predicate Shows(n: Net, log1: set<Operation>, c0: Conn, c1: Conn,
                        store: seq<Operation>, pending: set<Operation>, issued: set<Operation>)
  {
    && n.peers.Keys == {1, 2}
    && n.peers[1] == Peer(log1, [], true, Some(0)) && n.peers[2] == Peer({}, [], true, Some(1))
    && n.conns.Keys == {0, 1} && n.conns[0] == c0 && n.conns[1] == c1
    && n.store == store && n.pending == pending && n.issued == issued
  }

  ghost predicate Reached(log1: set<Operation>, c0: Conn, c1: Conn,
                          store: seq<Operation>, pending: set<Operation>, issued: set<Operation>)
  {
    exists n :: Reachable(n) && Shows(n, log1, c0, c1, store, pending, issued)
  }

  lemma Continue(n: Net, e: Event)
    requires Reachable(n) && Enabled(n, e)
    ensures Reachable(After(n, e))
  {
    var events :| Possible(events) && Execute(events) == n;
    assert (events + [e])[..|events|] == events;
    assert Possible(events + [e]) && Execute(events + [e]) == After(n, e);
  }

  lemma BothConnect()
    ensures Reached({}, Line(1, [], [], Waiting, {}),
                    Line(2, [], [], Waiting, {}), [], {}, {})
  {
    assert Possible([]) && Execute([]) == EMPTY_NET;
    assert Reachable(EMPTY_NET);
    Continue(EMPTY_NET, GoOnline(1, 0));
    var n := After(EMPTY_NET, GoOnline(1, 0));
    Continue(n, GoOnline(2, 1));
    assert Ids({}) == {};
    assert Shows(After(n, GoOnline(2, 1)), {}, Line(1, [], [], Waiting, {}),
                 Line(2, [], [], Waiting, {}), [], {}, {});
  }

  lemma GreetFirst()
    requires Reached({}, Line(1, [], [], Waiting, {}),
                     Line(2, [], [], Waiting, {}), [], {}, {})
    ensures Reached({}, Line(1, [], [], Greeted, {}),
                    Line(2, [], [], Waiting, {}), [], {}, {})
  {
    var n :| Reachable(n) && Shows(n, {}, Line(1, [], [], Waiting, {}),
                                      Line(2, [], [], Waiting, {}), [], {}, {});
    Continue(n, Greet(0));
    assert Shows(After(n, Greet(0)), {}, Line(1, [], [], Greeted, {}),
                 Line(2, [], [], Waiting, {}), [], {}, {});
  }

  lemma RegisterFirst()
    requires Reached({}, Line(1, [], [], Greeted, {}),
                     Line(2, [], [], Waiting, {}), [], {}, {})
    ensures Reached({}, Line(1, [], [], Registered, {}),
                    Line(2, [], [], Waiting, {}), [], {}, {})
  {
    var n :| Reachable(n) && Shows(n, {}, Line(1, [], [], Greeted, {}),
                                      Line(2, [], [], Waiting, {}), [], {}, {});
    Continue(n, Register(0));
    assert Shows(After(n, Register(0)), {}, Line(1, [], [], Registered, {}),
                 Line(2, [], [], Waiting, {}), [], {}, {});
  }

  lemma GreetSecond()
    requires Reached({}, Line(1, [], [], Registered, {}),
                     Line(2, [], [], Waiting, {}), [], {}, {})
    ensures Reached({}, Line(1, [], [], Registered, {}),
                    Line(2, [], [], Greeted, {}), [], {}, {})
  {
    var n :| Reachable(n) && Shows(n, {}, Line(1, [], [], Registered, {}),
                                      Line(2, [], [], Waiting, {}), [], {}, {});
    Continue(n, Greet(1));
    assert Shows(After(n, Greet(1)), {}, Line(1, [], [], Registered, {}),
                 Line(2, [], [], Greeted, {}), [], {}, {});
  }

  lemma RecordOne(x: Operation)
    requires x.replica == 1
    requires Reached({}, Line(1, [], [], Registered, {}),
                     Line(2, [], [], Greeted, {}), [], {}, {})
    ensures Reached({x}, Line(1, [x], [], Registered, {}),
                    Line(2, [], [], Greeted, {}), [], {}, {x})
  {
    var n :| Reachable(n) && Shows(n, {}, Line(1, [], [], Registered, {}),
                                      Line(2, [], [], Greeted, {}), [], {}, {});
    Continue(n, RecordBatch(1, [x]));
    RecordShows(n, x);
  }

  lemma RecordShows(n: Net, x: Operation)
    requires Shows(n, {}, Line(1, [], [], Registered, {}), Line(2, [], [], Greeted, {}), [], {}, {})
    requires Enabled(n, RecordBatch(1, [x]))
    ensures Shows(After(n, RecordBatch(1, [x])), {x}, Line(1, [x], [], Registered, {}),
                  Line(2, [], [], Greeted, {}), [], {}, {x})
  {
    assert [] + [x] == [x] && Elems([x]) == {x} && {} + {x} == {x};
    var m := RecordAll(n, 1, [x]);
    assert m.peers[1] == Peer({x}, [], true, Some(0)) && m.peers.Keys == {1, 2};
    assert Connected(m, 1) && ConnOf(m, 1) == n.conns[0];
  }

  lemma StoreOne(x: Operation)
    requires Reached({x}, Line(1, [x], [], Registered, {}),
                     Line(2, [], [], Greeted, {}), [], {}, {x})
    ensures Reached({x}, Line(1, [], [], Registered, {}),
                    Line(2, [], [], Greeted, {}), [x], {x}, {x})
  {
    var n :| Reachable(n) && Shows(n, {x}, Line(1, [x], [], Registered, {}),
                                      Line(2, [], [], Greeted, {}), [], {}, {x});
    Continue(n, Take(0));
    assert Shows(After(n, Take(0)), {x}, Line(1, [], [], Registered, {}),
                 Line(2, [], [], Greeted, {}), [x], {x}, {x});
  }

  lemma BroadcastOne(x: Operation)
    requires Reached({x}, Line(1, [], [], Registered, {}),
                     Line(2, [], [], Greeted, {}), [x], {x}, {x})
    ensures Reached({x}, Line(1, [], [x], Registered, {}),
                    Line(2, [], [], Greeted, {x}), [x], {}, {x})
  {
    var n :| Reachable(n) && Shows(n, {x}, Line(1, [], [], Registered, {}),
                                      Line(2, [], [], Greeted, {}), [x], {x}, {x});
    Continue(n, Broadcast(x));
    var m := After(n, Broadcast(x));
    assert m.conns[0] == Heard(n.conns[0], x) && m.conns[1] == Heard(n.conns[1], x);
    assert [] + [x] == [x] && {} + {x} == {x} && {x} - {x} == {};
    assert m.conns.Keys == {0, 1};
    assert Shows(m, {x}, Line(1, [], [x], Registered, {}),
                 Line(2, [], [], Greeted, {x}), [x], {}, {x});
  }

  lemma RegisterSecond(x: Operation)
    requires Reached({x}, Line(1, [], [x], Registered, {}),
                     Line(2, [], [], Greeted, {x}), [x], {}, {x})
    ensures Reached({x}, Line(1, [], [x], Registered, {}),
                    Line(2, [], [], Registered, {x}), [x], {}, {x})
  {
    var n :| Reachable(n) && Shows(n, {x}, Line(1, [], [x], Registered, {}),
                                      Line(2, [], [], Greeted, {x}), [x], {}, {x});
    Continue(n, Register(1));
    assert Shows(After(n, Register(1)), {x}, Line(1, [], [x], Registered, {}),
                 Line(2, [], [], Registered, {x}), [x], {}, {x});
  }

  lemma DrainFirst(x: Operation)
    requires Reached({x}, Line(1, [], [x], Registered, {}),
                     Line(2, [], [], Registered, {x}), [x], {}, {x})
    ensures Reached({x}, Line(1, [], [], Registered, {}),
                    Line(2, [], [], Registered, {x}), [x], {}, {x})
  {
    var n :| Reachable(n) && Shows(n, {x}, Line(1, [], [x], Registered, {}),
                                      Line(2, [], [], Registered, {x}), [x], {}, {x});
    Continue(n, Drain(1));
    assert Shows(After(n, Drain(1)), {x}, Line(1, [], [], Registered, {}),
                 Line(2, [], [], Registered, {x}), [x], {}, {x});
  }

  /** Client 1 is registered; client 2's Hello has been answered, from an empty store. */
  lemma HalfConnected()
    ensures Reached({}, Line(1, [], [], Registered, {}),
                    Line(2, [], [], Greeted, {}), [], {}, {})
  {
    BothConnect();
    GreetFirst();
    RegisterFirst();
    GreetSecond();
  }

  /** Client 1's operation is stored and broadcast before client 2 is registered. */
  lemma PassedBy(x: Operation)
    requires x.replica == 1
    ensures Reached({x}, Line(1, [], [x], Registered, {}),
                    Line(2, [], [], Greeted, {x}), [x], {}, {x})
  {
    HalfConnected();
    RecordOne(x);
    StoreOne(x);
    BroadcastOne(x);
  }

  lemma QuietWithout(x: Operation)
    requires x.replica == 1
    ensures Reached({x}, Line(1, [], [], Registered, {}),
                    Line(2, [], [], Registered, {x}), [x], {}, {x})
  {
    PassedBy(x);
    RegisterSecond(x);
    DrainFirst(x);
  }

  /** At the end everything is quiet and client 2, connected throughout, is settled
      without the operation. */
  lemma GapLosesOperation()
    ensures exists n, i :: Reachable(n) && Quiet(n) && Settled(n, i) && PeerAt(n, i).log != n.issued
  {
    var x := Operation(10, 1, 1, CreateTable("t"));
    QuietWithout(x);
    LostBehind(x);
  }

  lemma LostBehind(x: Operation)
    requires Reached({x}, Line(1, [], [], Registered, {}),
                     Line(2, [], [], Registered, {x}), [x], {}, {x})
    ensures exists n, i :: Reachable(n) && Quiet(n) && Settled(n, i) && PeerAt(n, i).log != n.issued
  {
    var n :| Reachable(n) && Shows(n, {x}, Line(1, [], [], Registered, {}),
                                      Line(2, [], [], Registered, {x}), [x], {}, {x});
    EndsQuiet(n, x);
  }

  lemma EndsQuiet(n: Net, x: Operation)
    requires n.peers.Keys == {1, 2} && n.peers[1].queue == [] && n.peers[2] == Peer({}, [], true, Some(1))
    requires n.conns.Keys == {0, 1} && n.conns[0].up == [] && n.conns[1] == Line(2, [], [], Registered, {x})
    requires n.pending == {} && n.issued == {x}
    ensures Quiet(n) && Settled(n, 2) && PeerAt(n, 2).log != n.issued
  {
    assert x !in PeerAt(n, 2).log && x in n.issued;
  }

  // ---- and it leaves logs that are not causally closed ----

  /** Client 1's next operation is stored, broadcast and drained by client 2. */
  lemma RecordNext(x: Operation, y: Operation)
    requires y.replica == 1 && y.id != x.id
    requires Reached({x}, Line(1, [], [], Registered, {}),
                     Line(2, [], [], Registered, {x}), [x], {}, {x})
    ensures Reached({x, y}, Line(1, [y], [], Registered, {}),
                    Line(2, [], [], Registered, {x}), [x], {}, {x, y})
  {
    var n :| Reachable(n) && Shows(n, {x}, Line(1, [], [], Registered, {}),
                                      Line(2, [], [], Registered, {x}), [x], {}, {x});
    Continue(n, RecordBatch(1, [y]));
    NextShows(n, x, y);
  }

  lemma NextShows(n: Net, x: Operation, y: Operation)
    requires Shows(n, {x}, Line(1, [], [], Registered, {}), Line(2, [], [], Registered, {x}), [x], {}, {x})
    requires Enabled(n, RecordBatch(1, [y]))
    ensures Shows(After(n, RecordBatch(1, [y])), {x, y}, Line(1, [y], [], Registered, {}),
                  Line(2, [], [], Registered, {x}), [x], {}, {x, y})
  {
    assert [] + [y] == [y] && Elems([y]) == {y} && {x} + {y} == {x, y};
    var m := RecordAll(n, 1, [y]);
    assert m.peers[1] == Peer({x, y}, [], true, Some(0)) && m.peers.Keys == {1, 2};
    assert Connected(m, 1) && ConnOf(m, 1) == n.conns[0];
  }

  lemma StoreNext(x: Operation, y: Operation)
    requires y.id != x.id
    requires Reached({x, y}, Line(1, [y], [], Registered, {}),
                     Line(2, [], [], Registered, {x}), [x], {}, {x, y})
    ensures Reached({x, y}, Line(1, [], [], Registered, {}),
                    Line(2, [], [], Registered, {x}), [x, y], {y}, {x, y})
  {
    var n :| Reachable(n) && Shows(n, {x, y}, Line(1, [y], [], Registered, {}),
                                      Line(2, [], [], Registered, {x}), [x], {}, {x, y});
    Continue(n, Take(0));
    TakeShows(n, x, y);
  }

  lemma TakeShows(n: Net, x: Operation, y: Operation)
    requires y.id != x.id
    requires Shows(n, {x, y}, Line(1, [y], [], Registered, {}), Line(2, [], [], Registered, {x}), [x], {}, {x, y})
    requires Enabled(n, Take(0))
    ensures Shows(After(n, Take(0)), {x, y}, Line(1, [], [], Registered, {}),
                  Line(2, [], [], Registered, {x}), [x, y], {y}, {x, y})
  {
    assert [x] + [y] == [x, y] && {} + {y} == {y} && Elems([x]) == {x};
    assert Ids({x}) == {x.id};
    assert n.conns[0].up == [y] && [y][1..] == [];
    assert After(n, Take(0)).conns.Keys == {0, 1};
  }

  lemma BroadcastNext(x: Operation, y: Operation)
    requires Reached({x, y}, Line(1, [], [], Registered, {}),
                     Line(2, [], [], Registered, {x}), [x, y], {y}, {x, y})
    ensures Reached({x, y}, Line(1, [], [y], Registered, {}),
                    Line(2, [], [y], Registered, {x}), [x, y], {}, {x, y})
  {
    var n :| Reachable(n) && Shows(n, {x, y}, Line(1, [], [], Registered, {}),
                                      Line(2, [], [], Registered, {x}), [x, y], {y}, {x, y});
    Continue(n, Broadcast(y));
    var m := After(n, Broadcast(y));
    assert m.conns[0] == Heard(n.conns[0], y) && m.conns[1] == Heard(n.conns[1], y);
    assert [] + [y] == [y] && {y} - {y} == {} && m.conns.Keys == {0, 1};
    assert Shows(m, {x, y}, Line(1, [], [y], Registered, {}),
                 Line(2, [], [y], Registered, {x}), [x, y], {}, {x, y});
  }

  lemma HearsOnlyNext(x: Operation, y: Operation) returns (n: Net)
    requires x != y && y.id != x.id
    requires Reached({x, y}, Line(1, [], [y], Registered, {}),
                     Line(2, [], [y], Registered, {x}), [x, y], {}, {x, y})
    ensures Reachable(n) && y in PeerAt(n, 2).log && x in PeerAt(n, 1).log && x !in PeerAt(n, 2).log
  {
    n :| Reachable(n) && Shows(n, {x, y}, Line(1, [], [y], Registered, {}),
                               Line(2, [], [y], Registered, {x}), [x, y], {}, {x, y});
    Continue(n, Drain(2));
    n := After(n, Drain(2));
  }

  /** Client i holds y but lacks x, an earlier operation of the same client. */
  predicate Skips(n: Net, i: ReplicaId, x: Operation, y: Operation) {
    && y in PeerAt(n, i).log && x !in PeerAt(n, i).log
    && x.replica == y.replica && x.time < y.time && x in PeerAt(n, x.replica).log
  }

  /** A client can hold an operation of another client and lack an earlier one of the same
      client, which that client knew when it issued the later one. */
  lemma LogNotClosed()
    ensures exists n, i, x, y :: Reachable(n) && Skips(n, i, x, y)
  {
    var x := Operation(10, 1, 1, CreateTable("t"));
    var y := Operation(11, 1, 2, CreateTable("u"));
    QuietWithout(x);
    RecordNext(x, y);
    StoreNext(x, y);
    BroadcastNext(x, y);
    var n := HearsOnlyNext(x, y);
    assert Skips(n, 2, x, y);
  }
}
