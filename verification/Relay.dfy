/** The operation relay as a protocol: clients (src/main.rs, src/client/client.rs),
    connections, and the sync server (src/server/sync_server.rs,
    src/server/operation_store.rs), interleaved in any order, over channels that
    deliver what is sent.

    Each connection is a pair of FIFO channels.  The server greets it (computes the
    missing operations from the Hello), then registers it for broadcasts, and only
    then reads its operations; storing an operation and broadcasting it are two steps. */
module Relay {
  import opened Operations

  newtype ConnId = x: int | 0 <= x

  datatype Stage = Waiting | Greeted | Registered

  /** up: client to server; down: server to client.  Two history fields: greeting, the
      store when the Hello was answered, and gap, what was broadcast between that
      answer and the registration and is therefore never sent on this connection. */
  datatype Conn = Conn(owner: ReplicaId, hello: set<OpId>, up: seq<Operation>, down: seq<Operation>,
                       stage: Stage, greeting: set<Operation>, gap: set<Operation>)

  datatype Peer = Peer(log: set<Operation>, queue: seq<Operation>, online: bool, conn: Option<ConnId>)

  /** `pending` holds what is stored but not yet broadcast; `issued` everything ever recorded. */
  datatype Net = Net(peers: map<ReplicaId, Peer>, conns: map<ConnId, Conn>, store: seq<Operation>,
                     pending: set<Operation>, issued: set<Operation>)

  datatype Event =
    | RecordBatch(i: ReplicaId, ops: seq<Operation>)  // a command: record, then publish_many
    | Resend(i: ReplicaId, op: Operation)
    | GoOffline(i: ReplicaId)
    | GoOnline(i: ReplicaId, c: ConnId)               // connect, send Hello, send the queue
    | ConnectFails(i: ReplicaId)
    | Drain(i: ReplicaId)                             // ingest one incoming operation
    | Greet(c: ConnId)                                // answer the Hello
    | Register(c: ConnId)                             // push the peer's sender
    | Take(c: ConnId)                                 // read one operation, store it if new
    | Broadcast(op: Operation)                        // send a stored operation to all peers

  const EMPTY_NET := Net(map[], map[], [], {}, {})

  function PeerAt(n: Net, i: ReplicaId): Peer {
    if i in n.peers then n.peers[i] else Peer({}, [], false, None)
  }

  predicate Connected(n: Net, i: ReplicaId) {
    PeerAt(n, i).conn.Some? && PeerAt(n, i).conn.value in n.conns
  }

  function ConnOf(n: Net, i: ReplicaId): Conn
    requires Connected(n, i)
  {
    n.conns[PeerAt(n, i).conn.value]
  }

  function SetConn(n: Net, c: ConnId, conn: Conn): Net {
    n.(conns := n.conns[c := conn])
  }

  function SetPeer(n: Net, i: ReplicaId, p: Peer): Net {
    n.(peers := n.peers[i := p])
  }

  /** publish: a client that is online sends on its connection. */
  function Publish(n: Net, i: ReplicaId, ops: seq<Operation>): Net {
    if PeerAt(n, i).online && Connected(n, i) then
      SetConn(n, PeerAt(n, i).conn.value, ConnOf(n, i).(up := ConnOf(n, i).up + ops))
    else n
  }

  /** record: the operation enters the log, and the queue while offline. */
  function WithRecorded(p: Peer, ops: seq<Operation>): Peer {
    p.(log := p.log + Elems(ops), queue := if p.online then p.queue else p.queue + ops)
  }

  /** ingest: an operation with a known id is ignored. */
  function WithIngested(p: Peer, op: Operation): Peer {
    if op.id in Ids(p.log) then p else p.(log := p.log + {op})
  }

  function RecordAll(n: Net, i: ReplicaId, ops: seq<Operation>): Net {
    SetPeer(n.(issued := n.issued + Elems(ops)), i, WithRecorded(PeerAt(n, i), ops))
  }

  /** missing_for: the stored operations whose ids the Hello did not name, in store order. */
  function Missing(store: seq<Operation>, seen: set<OpId>): (m: seq<Operation>)
    ensures forall x :: x in m <==> x in store && x.id !in seen
  {
    if store == [] then []
    else if store[0].id in seen then Missing(store[1..], seen)
    else [store[0]] + Missing(store[1..], seen)
  }

  /** A broadcast reaches the registered peers; a greeted one that lacks it falls in the gap. */
  function Heard(conn: Conn, op: Operation): Conn {
    if conn.stage == Registered then conn.(down := conn.down + [op])
    else if conn.stage == Greeted && op !in conn.greeting then conn.(gap := conn.gap + {op})
    else conn
  }

  predicate Fresh(n: Net, ops: seq<Operation>) {
    && (forall k :: 0 <= k < |ops| ==> ops[k].id !in Ids(n.issued))
    && (forall k, l :: 0 <= k < l < |ops| ==> ops[k].id != ops[l].id)
  }

  predicate Enabled(n: Net, e: Event) {
    match e
    case RecordBatch(i, ops) => Fresh(n, ops) && forall k :: 0 <= k < |ops| ==> ops[k].replica == i
    case Resend(i, op) => op in PeerAt(n, i).log
    case GoOffline(_) => true
    case GoOnline(_, c) => c !in n.conns
    case ConnectFails(_) => true
    case Drain(i) => Connected(n, i) && ConnOf(n, i).down != []
    case Greet(c) => c in n.conns && n.conns[c].stage == Waiting
    case Register(c) => c in n.conns && n.conns[c].stage == Greeted
    case Take(c) => c in n.conns && n.conns[c].stage == Registered && n.conns[c].up != []
    case Broadcast(op) => op in n.pending
  }

  function AfterOnline(n: Net, i: ReplicaId, c: ConnId): Net {
    var p := PeerAt(n, i);
    SetPeer(SetConn(n, c, Conn(i, Ids(p.log), p.queue, [], Waiting, {}, {})), i,
            Peer(p.log, [], true, Some(c)))
  }

  function AfterDrain(n: Net, i: ReplicaId): Net
    requires Enabled(n, Drain(i))
  {
    var p, conn := PeerAt(n, i), ConnOf(n, i);
    var op := conn.down[0];
    SetPeer(SetConn(n, p.conn.value, conn.(down := conn.down[1..])), i, WithIngested(p, op))
  }

  function AfterTake(n: Net, c: ConnId): Net
    requires Enabled(n, Take(c))
  {
    var conn := n.conns[c];
    var op := conn.up[0];
    var read := SetConn(n, c, conn.(up := conn.up[1..]));
    if op.id in Ids(Elems(n.store)) then read
    else read.(store := n.store + [op], pending := n.pending + {op})
  }

  function After(n: Net, e: Event): Net
    requires Enabled(n, e)
  {
    match e
    case RecordBatch(i, ops) => Publish(RecordAll(n, i, ops), i, ops)
    case Resend(i, op) => Publish(n, i, [op])
    case GoOffline(i) => SetPeer(n, i, PeerAt(n, i).(online := false, conn := None))
    case GoOnline(i, c) => AfterOnline(n, i, c)
    case ConnectFails(i) => SetPeer(n, i, PeerAt(n, i).(online := false))
    case Drain(i) => AfterDrain(n, i)
    case Greet(c) =>
      SetConn(n, c, n.conns[c].(down := Missing(n.store, n.conns[c].hello), stage := Greeted,
                                greeting := Elems(n.store), gap := {}))
    case Register(c) => SetConn(n, c, n.conns[c].(stage := Registered))
    case Take(c) => AfterTake(n, c)
    case Broadcast(op) =>
      n.(conns := map c | c in n.conns :: Heard(n.conns[c], op), pending := n.pending - {op})
  }

  predicate Possible(events: seq<Event>) {
    events == [] || (Possible(events[..|events| - 1])
                     && Enabled(Execute(events[..|events| - 1]), events[|events| - 1]))
  }

  function Execute(events: seq<Event>): Net {
    if events == [] then EMPTY_NET
    else if Enabled(Execute(events[..|events| - 1]), events[|events| - 1])
    then After(Execute(events[..|events| - 1]), events[|events| - 1])
    else Execute(events[..|events| - 1])
  }

  // ---- what every run keeps ----

  /** Everything in any log, queue, channel or the store was recorded by some client. */
  ghost predicate Known(n: Net) {
    && DistinctIds(n.issued)
    && Elems(n.store) <= n.issued
    && n.pending <= Elems(n.store)
    && (forall i :: i in n.peers ==> n.peers[i].log <= n.issued && Elems(n.peers[i].queue) <= n.issued)
    && (forall c :: c in n.conns ==> Elems(n.conns[c].up) <= n.issued)
  }

  /** Where an operation waits until the server has it. */
  ghost predicate Safe(n: Net, op: Operation) {
    || op in n.store
    || (exists i :: i in n.peers && op in n.peers[i].queue)
    || (exists c :: c in n.conns && op in n.conns[c].up)
  }

  /** What a connection's channel towards its client has been given. */
  ghost predicate ConnInv(conn: Conn, store: set<Operation>, pending: set<Operation>) {
    && Elems(conn.down) <= store
    && conn.gap <= store - conn.greeting
    && conn.greeting <= store
    && (conn.stage == Waiting ==> conn.gap == {} && conn.down == [])
    && (conn.stage == Greeted ==> store <= conn.greeting + conn.gap + pending)
  }

  /** What a client's current connection still owes it. */
  ghost predicate Link(p: Peer, conn: Conn, store: set<Operation>, pending: set<Operation>) {
    && conn.hello <= Ids(p.log)
    && (conn.stage != Waiting ==> conn.greeting <= p.log + Elems(conn.down))
    && (conn.stage == Registered ==> store <= p.log + Elems(conn.down) + conn.gap + pending)
  }

  ghost predicate Linked(n: Net, i: ReplicaId) {
    var p := PeerAt(n, i);
    && (p.online ==> p.conn.Some?)
    && (p.conn.Some? ==> && p.conn.value in n.conns && n.conns[p.conn.value].owner == i
                         && Link(p, n.conns[p.conn.value], Elems(n.store), n.pending))
  }

  ghost predicate Inv(n: Net) {
    && Known(n)
    && (forall op :: op in n.issued ==> Safe(n, op))
    && (forall c :: c in n.conns ==> ConnInv(n.conns[c], Elems(n.store), n.pending))
    && (forall i :: Linked(n, i))
  }
}
