/** The relay and durable acceptance together.  When every client records on a causally
    closed log, what the relay carries is a history in the sense of Durability, and a
    client that is up to date holds a causally closed log of it.  A client in between need
    not: it can hold an operation and lack an earlier one of the same client. */
module RelayDurability {
  import opened Operations
  import opened Replays
  import opened Durability
  import R = Relay
  import RelayProof
  import RelayGap

  // ---- what each operation's issuer knew ----

  ghost function Recorded(born: map<Operation, set<Operation>>, log: set<Operation>, ops: seq<Operation>)
    : map<Operation, set<Operation>>
  {
    if ops == [] then born
    else Recorded(born, log, ops[..|ops| - 1])[ops[|ops| - 1] := log + Elems(ops[..|ops| - 1])]
  }

  ghost function Born(events: seq<R.Event>): map<Operation, set<Operation>> {
    if events == [] then map[]
    else
      var init, e := events[..|events| - 1], events[|events| - 1];
      if e.RecordBatch? then Recorded(Born(init), R.PeerAt(R.Execute(init), e.i).log, e.ops) else Born(init)
  }

  /** Each operation of the batch is stamped after and offered on all its issuer knew. */
  ghost predicate WellIssued(log: set<Operation>, ops: seq<Operation>) {
    ops == []
    || (WellIssued(log, ops[..|ops| - 1])
        && var seen := log + Elems(ops[..|ops| - 1]);
           && (forall x :: x in seen ==> x.time < ops[|ops| - 1].time)
           && Offered(Replay(seen), ops[|ops| - 1]))
  }

  /** Every batch of the run is recorded on a causally closed log and well issued. */
  ghost predicate WellRecorded(events: seq<R.Event>) {
    events == []
    || (WellRecorded(events[..|events| - 1])
        && var init, e := events[..|events| - 1], events[|events| - 1];
           e.RecordBatch? ==>
             && CausallyClosed(R.PeerAt(R.Execute(init), e.i).log, Born(init))
             && WellIssued(R.PeerAt(R.Execute(init), e.i).log, e.ops))
  }

  ghost predicate KnowsOwnOperations(n: R.Net) {
    forall x :: x in n.issued ==> x in R.PeerAt(n, x.replica).log
  }

  lemma ElemsInit(ops: seq<Operation>)
    requires ops != []
    ensures Elems(ops) == Elems(ops[..|ops| - 1]) + {ops[|ops| - 1]}
  {
    assert ops == ops[..|ops| - 1] + [ops[|ops| - 1]];
  }

  /** New operations of one client, none of them issued before. */
  predicate NewBatch(keys: set<Operation>, ops: seq<Operation>, i: ReplicaId) {
    && (forall k :: 0 <= k < |ops| ==> ops[k].id !in Ids(keys) && ops[k].replica == i)
    && (forall k, l :: 0 <= k < l < |ops| ==> ops[k].id != ops[l].id)
  }

  lemma {:induction false} BatchHistory(born: map<Operation, set<Operation>>, log: set<Operation>, ops: seq<Operation>,
                                        i: ReplicaId)
    requires History(born) && CausallyClosed(log, born) && WellIssued(log, ops) && NewBatch(born.Keys, ops, i)
    requires forall x :: x in born && x.replica == i ==> x in log
    ensures History(Recorded(born, log, ops)) && Recorded(born, log, ops).Keys == born.Keys + Elems(ops)
    ensures CausallyClosed(log + Elems(ops), Recorded(born, log, ops))
    decreases |ops|
  {
    if ops == [] {
      assert Elems(ops) == {} && log + {} == log && born.Keys + {} == born.Keys;
    } else {
      var init, op := ops[..|ops| - 1], ops[|ops| - 1];
      NewInit(born.Keys, ops, i);
      BatchHistory(born, log, init, i);
      ElemsInit(ops);
      NewId(born.Keys, ops, i);
      OneMore(Recorded(born, log, init), log + Elems(init), op);
      SetSums(born.Keys, log, Elems(init), op);
    }
  }

  lemma SetSums(keys: set<Operation>, log: set<Operation>, init: set<Operation>, op: Operation)
    ensures keys + (init + {op}) == keys + init + {op} && log + (init + {op}) == log + init + {op}
  {
  }

  lemma OneMore(born: map<Operation, set<Operation>>, seen: set<Operation>, op: Operation)
    requires History(born) && CausallyClosed(seen, born)
    requires op.id !in Ids(born.Keys) && Offered(Replay(seen), op)
    requires forall x :: x in seen ==> x.time < op.time
    requires forall x :: x in born && x.replica == op.replica ==> x in seen
    ensures History(born[op := seen]) && born[op := seen].Keys == born.Keys + {op}
    ensures CausallyClosed(seen + {op}, born[op := seen])
  {
    RecordHistory(born, op, seen, born[op := seen]);
    RecordDistinct(born, op);
    StillClosed(born, seen, op);
  }

  lemma NewInit(keys: set<Operation>, ops: seq<Operation>, i: ReplicaId)
    requires NewBatch(keys, ops, i) && ops != []
    ensures NewBatch(keys, ops[..|ops| - 1], i)
  {
  }

  lemma NewId(keys: set<Operation>, ops: seq<Operation>, i: ReplicaId)
    requires NewBatch(keys, ops, i) && ops != []
    ensures ops[|ops| - 1].id !in Ids(keys + Elems(ops[..|ops| - 1]))
    ensures ops[|ops| - 1].replica == i
    ensures forall x :: x in Elems(ops[..|ops| - 1]) ==> x.replica == i
  {
    forall x | x in Elems(ops[..|ops| - 1]) ensures x.id != ops[|ops| - 1].id && x.replica == i {
      var k :| 0 <= k < |ops| - 1 && ops[k] == x;
    }
  }

  lemma StillClosed(born: map<Operation, set<Operation>>, seen: set<Operation>, op: Operation)
    requires CausallyClosed(seen, born) && op !in born
    ensures CausallyClosed(seen + {op}, born[op := seen])
  {
  }

  /** Steps other than recording issue nothing. */
  lemma IssuedSame(n: R.Net, e: R.Event)
    requires R.Enabled(n, e) && !e.RecordBatch?
    ensures R.After(n, e).issued == n.issued
  {
    match e
    case Resend(j, x) =>
    case GoOffline(j) =>
    case GoOnline(j, d) =>
    case ConnectFails(j) =>
    case Drain(j) =>
    case Greet(d) =>
    case Register(d) =>
    case Take(d) =>
    case Broadcast(op) =>
  }

  lemma RecordIssues(n: R.Net, i: ReplicaId, ops: seq<Operation>)
    requires R.Enabled(n, R.RecordBatch(i, ops))
    ensures R.After(n, R.RecordBatch(i, ops)).issued == n.issued + Elems(ops)
    ensures R.PeerAt(R.After(n, R.RecordBatch(i, ops)), i).log == R.PeerAt(n, i).log + Elems(ops)
  {
  }

  lemma OwnStaysKnown(n: R.Net, e: R.Event)
    requires R.Enabled(n, e) && KnowsOwnOperations(n)
    ensures KnowsOwnOperations(R.After(n, e))
  {
    if e.RecordBatch? {
      RecordIssues(n, e.i, e.ops);
    } else {
      IssuedSame(n, e);
    }
    forall x | x in R.After(n, e).issued ensures x in R.PeerAt(R.After(n, e), x.replica).log {
      RelayGap.LogsGrow(n, e, x.replica);
      if x !in n.issued {
        var k :| 0 <= k < |e.ops| && e.ops[k] == x;
      }
    }
  }

  /** Runs of the relay whose clients record on closed logs make a history. */
  lemma {:induction false} RelayHistory(events: seq<R.Event>)
    requires R.Possible(events) && WellRecorded(events)
    ensures History(Born(events)) && Born(events).Keys == R.Execute(events).issued
    ensures KnowsOwnOperations(R.Execute(events))
    decreases |events|
  {
    if events != [] {
      var init, e := events[..|events| - 1], events[|events| - 1];
      var n := R.Execute(init);
      RelayHistory(init);
      OwnStaysKnown(n, e);
      if e.RecordBatch? {
        RecordIssues(n, e.i, e.ops);
        BatchHistory(Born(init), R.PeerAt(n, e.i).log, e.ops, e.i);
      } else {
        IssuedSame(n, e);
      }
    }
  }

  /** At quiet, an up-to-date client's log is causally closed and, where issuers were
      informed, rejects no bet or transfer of a player whose leaves are outlived. */
  lemma {:induction false} UpToDateAccepts(events: seq<R.Event>, i: ReplicaId, p: PlayerId)
    requires R.Possible(events) && WellRecorded(events)
    requires RelayProof.Quiet(R.Execute(events)) && RelayProof.UpToDate(R.Execute(events), i)
    ensures R.PeerAt(R.Execute(events), i).log == Born(events).Keys
    ensures CausallyClosed(R.PeerAt(R.Execute(events), i).log, Born(events))
    ensures Informed(Born(events), Born(events).Keys, p) && LeavesOutlived(Born(events), Born(events).Keys, p) ==>
              AllAccepted(R.PeerAt(R.Execute(events), i).log, p)
  {
    var born := Born(events);
    RelayHistory(events);
    RelayProof.Convergence(events, i, i);
    forall o | o in born ensures born[o] <= born.Keys {
      assert CausallyClosed(born[o], born);
    }
    assert CausallyClosed(born.Keys, born);
    if Informed(born, born.Keys, p) && LeavesOutlived(born, born.Keys, p) {
      ClosedLogAccepts(born, born.Keys, p);
    }
  }
}
