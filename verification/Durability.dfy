/** Durable offline acceptance.  Any number of clients record operations against
    their own replay, guarded as in src/client/client.rs, and receive causally
    complete batches from each other (whole logs, current or earlier).  Where payouts are
    known, a bet or transfer that its client accepted is then accepted in the replay of
    every log that ever contains it, although other operations keep being inserted before
    it, if and only if the leaves before the bets are outlived. */
module Durability {
  import opened Operations
  import opened MapSums
  import opened Counters
  import opened BetState
  import opened Replays
  import opened Accounting
  import opened Ledgers
  import opened Views

  /** Logs and clocks per replica, and for each operation its issuer's log at issue time. */
  datatype World = World(
    logs: map<ReplicaId, set<Operation>>,
    clocks: map<ReplicaId, nat>,
    born: map<Operation, set<Operation>>)

  datatype Event =
    | Record(op: Operation)
    | Receive(at: ReplicaId, batch: set<Operation>)

  const EMPTY_WORLD := World(map[], map[], map[])

  function LogAt(w: World, r: ReplicaId): set<Operation> {
    if r in w.logs then w.logs[r] else {}
  }

  function ClockAt(w: World, r: ReplicaId): nat {
    if r in w.clocks then w.clocks[r] else 0
  }

  /** What place_bet and transfer_spending_rights check before recording.  Every
      other kind may be recorded at will, which allows more runs than the commands do. */
  ghost predicate Offered(s: State, op: Operation) {
    match op.kind
    case PlaceBet(_, p, round, amount, _, origin) => MayBet(s, op.replica, p, round, amount) && origin == BettingOpen
    case TransferRights(p, from, _, amount) =>
      from == op.replica && AsI64(amount) <= AvailableRights(s, p, op.replica)
    case _ => true
  }

  /** A log that contains, with each operation, all its issuer knew when issuing it. */
  ghost predicate CausallyClosed(log: set<Operation>, born: map<Operation, set<Operation>>) {
    forall x :: x in log ==> x in born && born[x] <= log
  }

  ghost function MaxTime(ops: set<Operation>): (t: nat)
    ensures forall x :: x in ops ==> x.time <= t
    ensures ops != {} ==> exists x :: x in ops && x.time == t
  {
    if ops == {} then 0 else
      var x :| x in ops;
      Max(x.time, MaxTime(ops - {x}))
  }

  ghost predicate Enabled(w: World, e: Event) {
    match e
    case Record(op) =>
      && op.time == ClockAt(w, op.replica) + 1
      && op.id !in Ids(w.born.Keys)
      && Offered(Replay(LogAt(w, op.replica)), op)
    case Receive(at, batch) =>
      batch <= w.born.Keys && CausallyClosed(LogAt(w, at) + batch, w.born)
  }

  ghost function After(w: World, e: Event): World {
    match e
    case Record(op) =>
      var r, log := op.replica, LogAt(w, op.replica);
      World(w.logs[r := log + {op}], w.clocks[r := op.time], w.born[op := log])
    case Receive(at, batch) =>
      w.(logs := w.logs[at := LogAt(w, at) + batch],
         clocks := w.clocks[at := Max(ClockAt(w, at), MaxTime(batch))])
  }

  ghost predicate Possible(events: seq<Event>) {
    events == [] || (Possible(events[..|events| - 1])
                     && Enabled(Execute(events[..|events| - 1]), events[|events| - 1]))
  }

  ghost function Execute(events: seq<Event>): World {
    if events == [] then EMPTY_WORLD else After(Execute(events[..|events| - 1]), events[|events| - 1])
  }

  // ---- what every run keeps ----

  ghost predicate Causal(born: map<Operation, set<Operation>>) {
    && (forall o :: o in born ==> CausallyClosed(born[o], born))
    && (forall o, x :: o in born && x in born[o] ==> x.time < o.time)
  }

  /** A replica's operations are totally ordered, each knowing the earlier ones. */
  ghost predicate OwnOrder(born: map<Operation, set<Operation>>) {
    forall a, b :: a in born && b in born && a.replica == b.replica && a != b && a.time <= b.time ==> a in born[b]
  }

  ghost predicate WasOffered(born: map<Operation, set<Operation>>, o: Operation)
    requires o in born
  {
    Offered(Replay(born[o]), o)
  }

  ghost predicate History(born: map<Operation, set<Operation>>) {
    && DistinctIds(born.Keys) && Causal(born) && OwnOrder(born)
    && forall o :: o in born ==> WasOffered(born, o)
  }

  ghost predicate LogsInv(w: World) {
    && (forall r :: CausallyClosed(LogAt(w, r), w.born))
    && (forall o :: o in w.born ==> o in LogAt(w, o.replica))
    && (forall r, x :: x in LogAt(w, r) ==> x.time <= ClockAt(w, r))
  }

  ghost predicate Inv(w: World) {
    History(w.born) && LogsInv(w)
  }

  lemma RecordDistinct(born: map<Operation, set<Operation>>, op: Operation)
    requires DistinctIds(born.Keys) && op.id !in Ids(born.Keys)
    ensures DistinctIds(born.Keys + {op})
    ensures op !in born
  {
    forall a | a in born.Keys ensures a.id != op.id {
      assert a.id in Ids(born.Keys);
    }
  }

  lemma RecordCausal(born: map<Operation, set<Operation>>, op: Operation, log: set<Operation>)
    requires Causal(born) && op !in born && CausallyClosed(log, born)
    requires forall x :: x in log ==> x.time < op.time
    ensures Causal(born[op := log])
  {
    var born' := born[op := log];
    forall o | o in born' ensures CausallyClosed(born'[o], born') {
      assert CausallyClosed(born'[o], born);
    }
  }

  lemma RecordOrder(born: map<Operation, set<Operation>>, op: Operation, log: set<Operation>)
    requires OwnOrder(born) && op !in born
    requires forall x :: x in born && x.replica == op.replica ==> x in log
    requires forall x :: x in log ==> x.time < op.time
    ensures OwnOrder(born[op := log])
  {
  }

  lemma RecordOffered(born: map<Operation, set<Operation>>, op: Operation, log: set<Operation>,
                      born': map<Operation, set<Operation>>)
    requires op !in born && Offered(Replay(log), op) && born' == born[op := log]
    requires forall o :: o in born ==> WasOffered(born, o)
    ensures forall o :: o in born' ==> WasOffered(born', o)
  {
    forall o | o in born' ensures WasOffered(born', o) {
      if o != op {
        assert WasOffered(born, o) && born'[o] == born[o];
      }
    }
  }

  lemma RecordHistory(born: map<Operation, set<Operation>>, op: Operation, log: set<Operation>,
                      born': map<Operation, set<Operation>>)
    requires History(born) && CausallyClosed(log, born) && born' == born[op := log]
    requires op.id !in Ids(born.Keys) && Offered(Replay(log), op)
    requires forall x :: x in log ==> x.time < op.time
    requires forall x :: x in born && x.replica == op.replica ==> x in log
    ensures History(born')
  {
    RecordDistinct(born, op);
    RecordCausal(born, op, log);
    RecordOrder(born, op, log);
    RecordOffered(born, op, log, born');
    assert born'.Keys == born.Keys + {op};
  }

  lemma RecordKeepsInv(w: World, op: Operation)
    requires Inv(w) && Enabled(w, Record(op))
    ensures Inv(After(w, Record(op)))
  {
    var log, w' := LogAt(w, op.replica), After(w, Record(op));
    assert CausallyClosed(log, w.born);
    RecordHistory(w.born, op, log, w'.born);
    RecordDistinct(w.born, op);
    RecordLogs(w, op);
  }

  lemma RecordLogs(w: World, op: Operation)
    requires LogsInv(w) && op !in w.born && op.time == ClockAt(w, op.replica) + 1
    ensures LogsInv(After(w, Record(op)))
  {
    var w' := After(w, Record(op));
    forall r ensures CausallyClosed(LogAt(w', r), w'.born) {
      assert CausallyClosed(LogAt(w, r), w.born);
    }
    forall r, x | x in LogAt(w', r) ensures x.time <= ClockAt(w', r) {
      assert x in LogAt(w, r) || (r == op.replica && x == op);
    }
  }

  lemma ReceiveKeepsInv(w: World, at: ReplicaId, batch: set<Operation>)
    requires LogsInv(w) && batch <= w.born.Keys && CausallyClosed(LogAt(w, at) + batch, w.born)
    ensures LogsInv(After(w, Receive(at, batch)))
  {
    var w' := After(w, Receive(at, batch));
    forall r ensures CausallyClosed(LogAt(w', r), w'.born) {
      assert CausallyClosed(LogAt(w, r), w.born);
      assert LogAt(w', r) == if r == at then LogAt(w, at) + batch else LogAt(w, r);
    }
    forall r, x | x in LogAt(w', r) ensures x.time <= ClockAt(w', r) {
      assert x in LogAt(w, r) || (r == at && x in batch);
    }
  }

  lemma StepKeepsInv(w: World, e: Event)
    requires Inv(w) && Enabled(w, e)
    ensures Inv(After(w, e))
  {
    match e
    case Record(op) => RecordKeepsInv(w, op);
    case Receive(at, batch) => ReceiveKeepsInv(w, at, batch);
  }

  lemma {:induction false} Invariant(events: seq<Event>)
    requires Possible(events)
    ensures Inv(Execute(events))
    decreases |events|
  {
    if events != [] {
      Invariant(events[..|events| - 1]);
      StepKeepsInv(Execute(events[..|events| - 1]), events[|events| - 1]);
    }
  }

  lemma MaxTimeOf(ops: set<Operation>, t: nat)
    requires forall x :: x in ops ==> x.time <= t
    requires t != 0 ==> exists x :: x in ops && x.time == t
    ensures MaxTime(ops) == t
  {
  }

  /** A client's clock shows exactly the greatest time in its log. */
  lemma {:induction false} ClockIsMax(events: seq<Event>, r: ReplicaId)
    requires Possible(events)
    ensures ClockAt(Execute(events), r) == MaxTime(LogAt(Execute(events), r))
    decreases |events|
  {
    if events == [] {
      MaxTimeOf({}, 0);
    } else {
      var w, e := Execute(events[..|events| - 1]), events[|events| - 1];
      ClockIsMax(events[..|events| - 1], r);
      ClockStep(w, e, r);
    }
  }

  lemma ClockStep(w: World, e: Event, r: ReplicaId)
    requires ClockAt(w, r) == MaxTime(LogAt(w, r)) && Enabled(w, e)
    ensures ClockAt(After(w, e), r) == MaxTime(LogAt(After(w, e), r))
  {
    var log, log' := LogAt(w, r), LogAt(After(w, e), r);
    match e
    case Record(op) =>
      if op.replica == r {
        assert op in log' && log' == log + {op};
        MaxTimeOf(log', op.time);
      }
    case Receive(at, batch) =>
      if at == r {
        assert log' == log + batch;
        MaxTimeOf(log', Max(MaxTime(log), MaxTime(batch)));
      }
  }

  // ---- growing a log in the middle keeps a replica's own rights ----

  lemma {:induction false} InitialMono(small: set<Operation>, large: set<Operation>, p: PlayerId, r: ReplicaId)
    requires DistinctIds(large) && small <= large
    ensures Of(CounterOf(Replay(small), p).initial, r) <= Of(CounterOf(Replay(large), p).initial, r)
    decreases |large|
  {
    if large == {} {
      assert small == {};
    } else {
      var x := Last(large);
      if x in small {
        LastUnique(small, x);
        InitialMono(small - {x}, large - {x}, p, r);
        StepInitial(Replay(small - {x}), x, p);
      } else {
        InitialMono(small, large - {x}, p, r);
      }
      StepInitial(Replay(large - {x}), x, p);
    }
  }

  ghost predicate NoLeaves(ops: set<Operation>, p: PlayerId) {
    forall x :: x in ops ==> !IsLeave(x, p)
  }

  /** No payout of the log with y's payout id sorts before y. */
  ghost predicate IsLeast(y: Operation, ops: set<Operation>)
    requires y.kind.ApplyPayout?
  {
    forall z :: z in ops && Pays(z, y.kind.payout) ==> !Before(z, y)
  }

  /** A payout to p that is the least with its id among all its issuer knew is the least
      with its id at all. */
  ghost predicate KnownPayouts(born: map<Operation, set<Operation>>, ops: set<Operation>, p: PlayerId)
    requires ops <= born.Keys
  {
    forall y :: y in ops && IsPayout(y, p) && IsLeast(y, born[y]) ==> IsLeast(y, ops)
  }

  /** The same between two logs. */
  ghost predicate PayoutsSettled(small: set<Operation>, large: set<Operation>, p: PlayerId) {
    forall y :: y in small && IsPayout(y, p) && IsLeast(y, small) ==> IsLeast(y, large)
  }

  /** Income of p on replica r that is cast to a negative number. */
  predicate WrapsAt(y: Operation, p: PlayerId, r: ReplicaId) {
    || (IsJoin(y, p) && TWO_63 <= GivenTo(y, r))
    || (IsPayout(y, p) && y.replica == r && TWO_63 <= y.kind.amount)
    || (IsTransfer(y, p) && y.kind.to == r && TWO_63 <= y.kind.amount)
  }

  /** Whoever issued a bet or transfer of p knew all oversized income of p on its own
      replica that sorts before it. */
  ghost predicate KnownIncome(born: map<Operation, set<Operation>>, ops: set<Operation>, p: PlayerId)
    requires ops <= born.Keys
  {
    forall y, x ::
      y in ops && x in ops && (IsBet(x, p) || IsTransfer(x, p)) && WrapsAt(y, p, x.replica) && Before(y, x) ==>
        y in born[x]
  }

  /** What issuers must know: the rivals of their payouts and their oversized income. */
  ghost predicate Informed(born: map<Operation, set<Operation>>, ops: set<Operation>, p: PlayerId)
    requires ops <= born.Keys
  {
    KnownPayouts(born, ops, p) && KnownIncome(born, ops, p)
  }

  /** The same between two logs. */
  ghost predicate IncomeSettled(small: set<Operation>, large: set<Operation>, p: PlayerId, r: ReplicaId) {
    forall y :: y in large && WrapsAt(y, p, r) ==> y in small
  }

  /** Payouts with an id that pays p come from one replica only. */
  ghost predicate SoleIssuers(ops: set<Operation>, p: PlayerId) {
    forall x, y :: x in ops && y in ops && IsPayout(x, p) && Pays(y, x.kind.payout) ==> y.replica == x.replica
  }

  /** Whatever leave of p sorts before a bet of p, whoever placed the bet knew a join of
      p that sorts after that leave. */
  ghost predicate LeavesOutlived(born: map<Operation, set<Operation>>, ops: set<Operation>, p: PlayerId)
    requires ops <= born.Keys
  {
    forall l, x :: l in ops && x in ops && IsLeave(l, p) && IsBet(x, p) && Before(l, x) ==> Outlives(born, x, l, p)
  }

  ghost predicate Outlives(born: map<Operation, set<Operation>>, x: Operation, l: Operation, p: PlayerId)
    requires x in born
  {
    exists j :: j in born[x] && IsJoin(j, p) && Before(l, j)
  }

  ghost predicate AllAccepted(ops: set<Operation>, p: PlayerId) {
    forall x :: x in ops && (IsBet(x, p) || IsTransfer(x, p)) ==> x.id !in Replay(ops).rejected
  }

  /** Everything replica r issued in the larger log is in the smaller one. */
  ghost predicate KnowsOwn(small: set<Operation>, large: set<Operation>, r: ReplicaId) {
    forall y :: y in large && y.replica == r ==> y in small
  }

  ghost predicate OwnTransfers(ops: set<Operation>) {
    forall y :: y in ops && y.kind.TransferRights? ==> y.kind.from == y.replica
  }

  lemma SpendsWithin(small: set<Operation>, large: set<Operation>, p: PlayerId, r: ReplicaId, id: OpId)
    requires Accounted(Replay(small), small, p) && Accounted(Replay(large), large, p)
    requires AllAccepted(small, p) && KnowsOwn(small, large, r)
    requires id in CounterOf(Replay(large), p).spends && CounterOf(Replay(large), p).spends[id].replica == r
    ensures id in CounterOf(Replay(small), p).spends
    ensures CounterOf(Replay(small), p).spends[id] == CounterOf(Replay(large), p).spends[id]
  {
    var y :| y in large && IsBet(y, p) && y.id == id && y.id !in Replay(large).rejected;
    assert y in small;
  }

  lemma TransfersWithin(small: set<Operation>, large: set<Operation>, p: PlayerId, r: ReplicaId, id: OpId)
    requires Accounted(Replay(small), small, p) && Accounted(Replay(large), large, p)
    requires AllAccepted(small, p) && KnowsOwn(small, large, r) && OwnTransfers(large)
    requires id in CounterOf(Replay(large), p).transfers && CounterOf(Replay(large), p).transfers[id].from == r
    ensures id in CounterOf(Replay(small), p).transfers
    ensures CounterOf(Replay(small), p).transfers[id] == CounterOf(Replay(large), p).transfers[id]
  {
    var y :| y in large && IsTransfer(y, p) && y.id == id && y.id !in Replay(large).rejected;
    assert y in small;
  }

  lemma IncomingKept(small: set<Operation>, large: set<Operation>, p: PlayerId, id: OpId)
    requires small <= large
    requires Accounted(Replay(small), small, p) && Accounted(Replay(large), large, p)
    requires AllAccepted(large, p)
    requires id in CounterOf(Replay(small), p).transfers
    ensures id in CounterOf(Replay(large), p).transfers
    ensures CounterOf(Replay(small), p).transfers[id] == CounterOf(Replay(large), p).transfers[id]
  {
    var y :| y in small && IsTransfer(y, p) && y.id == id && y.id !in Replay(small).rejected;
    assert y in large;
  }

  lemma GrantsKept(small: set<Operation>, large: set<Operation>, p: PlayerId, pid: PayoutId)
    requires small <= large
    requires Accounted(Replay(small), small, p) && Accounted(Replay(large), large, p)
    requires PayoutsSettled(small, large, p)
    requires pid in CounterOf(Replay(small), p).grants
    ensures pid in CounterOf(Replay(large), p).grants
    ensures CounterOf(Replay(small), p).grants[pid] == CounterOf(Replay(large), p).grants[pid]
  {
    var y :| y in small && IsPayout(y, p) && y.kind.payout == pid && y.id !in Replay(small).rejected;
    assert IsLeast(y, small) && IsLeast(y, large);
    assert y in large;
    assert y.id !in Replay(large).rejected;
  }

  /** Oversized grants and transfers of the larger log were in the smaller one. */
  lemma WrappedGrant(small: set<Operation>, large: set<Operation>, p: PlayerId, r: ReplicaId, pid: PayoutId)
    requires small <= large
    requires Accounted(Replay(small), small, p) && Accounted(Replay(large), large, p)
    requires IncomeSettled(small, large, p, r)
    requires pid in CounterOf(Replay(large), p).grants && CounterOf(Replay(large), p).grants[pid].replica == r
    requires TWO_63 <= CounterOf(Replay(large), p).grants[pid].amount
    ensures pid in CounterOf(Replay(small), p).grants
    ensures CounterOf(Replay(small), p).grants[pid] == CounterOf(Replay(large), p).grants[pid]
  {
    var y :| y in large && IsPayout(y, p) && y.kind.payout == pid && y.id !in Replay(large).rejected;
    assert WrapsAt(y, p, r) && y in small;
    assert forall z :: z in small && Pays(z, pid) && Before(z, y) ==> z in large;
    assert y.id !in Replay(small).rejected;
  }

  lemma WrappedTransfer(small: set<Operation>, large: set<Operation>, p: PlayerId, r: ReplicaId, id: OpId)
    requires Accounted(Replay(small), small, p) && Accounted(Replay(large), large, p)
    requires AllAccepted(small, p) && IncomeSettled(small, large, p, r)
    requires id in CounterOf(Replay(large), p).transfers && CounterOf(Replay(large), p).transfers[id].to == r
    requires TWO_63 <= CounterOf(Replay(large), p).transfers[id].amount
    ensures id in CounterOf(Replay(small), p).transfers
    ensures CounterOf(Replay(small), p).transfers[id] == CounterOf(Replay(large), p).transfers[id]
  {
    var y :| y in large && IsTransfer(y, p) && y.id == id && y.id !in Replay(large).rejected;
    assert WrapsAt(y, p, r) && y in small;
  }

  lemma SpendsKept(small: set<Operation>, large: set<Operation>, p: PlayerId, id: OpId)
    requires small <= large
    requires Accounted(Replay(small), small, p) && Accounted(Replay(large), large, p)
    requires AllAccepted(large, p)
    requires id in CounterOf(Replay(small), p).spends
    ensures id in CounterOf(Replay(large), p).spends
    ensures CounterOf(Replay(large), p).spends[id] == CounterOf(Replay(small), p).spends[id]
  {
    var y :| y in small && IsBet(y, p) && y.id == id && y.id !in Replay(small).rejected;
    assert y in large;
  }

  /** Initial rights only grow, and an oversized right was there before. */
  lemma InitialKept(small: set<Operation>, large: set<Operation>, p: PlayerId, r: ReplicaId)
    requires DistinctIds(large) && small <= large && IncomeSettled(small, large, p, r)
    ensures AsI64(Of(CounterOf(Replay(small), p).initial, r)) <= AsI64(Of(CounterOf(Replay(large), p).initial, r))
  {
    InitialMono(small, large, p, r);
    InitialRights(small, p, r);
    InitialRights(large, p, r);
    SameIfOversized(CounterOf(Replay(small), p).initial, CounterOf(Replay(large), p).initial, small, large, p, r);
  }

  lemma SameIfOversized(i: map<ReplicaId, nat>, j: map<ReplicaId, nat>, small: set<Operation>, large: set<Operation>,
                        p: PlayerId, r: ReplicaId)
    requires Of(i, r) <= Of(j, r) && InitialMatches(i, small, p, r) && InitialMatches(j, large, p, r)
    requires IncomeSettled(small, large, p, r)
    ensures AsI64(Of(i, r)) <= AsI64(Of(j, r))
  {
    if TWO_63 <= Of(j, r) {
      var y :| y in large && IsJoin(y, p) && GivenTo(y, r) == Of(j, r);
      assert WrapsAt(y, p, r) && y in small;
    }
  }

  /** Inserting operations of other replicas anywhere in a log never lowers the rights
      that the program reports for a replica all of whose own operations, and all of
      whose oversized income, were already there. */
  lemma RightsKept(small: set<Operation>, large: set<Operation>, p: PlayerId, r: ReplicaId)
    requires DistinctIds(large) && small <= large
    requires AllAccepted(small, p) && AllAccepted(large, p)
    requires PayoutsSettled(small, large, p) && OwnTransfers(large) && KnowsOwn(small, large, r)
    requires IncomeSettled(small, large, p, r)
    ensures Available(CounterOf(Replay(small), p), r) <= Available(CounterOf(Replay(large), p), r)
  {
    ReplayAccounted(small, p);
    ReplayAccounted(large, p);
    OutgoingSame(small, large, p, r);
    IncomeKept(small, large, p, r);
    NewIncomeFits(small, large, p, r);
    AvailableMono(CounterOf(Replay(small), p), CounterOf(Replay(large), p), r);
  }

  lemma OutgoingSame(small: set<Operation>, large: set<Operation>, p: PlayerId, r: ReplicaId)
    requires small <= large && Accounted(Replay(small), small, p) && Accounted(Replay(large), large, p)
    requires AllAccepted(small, p) && AllAccepted(large, p) && KnowsOwn(small, large, r) && OwnTransfers(large)
    ensures OutgoingWithin(CounterOf(Replay(large), p), CounterOf(Replay(small), p), r)
    ensures OutgoingWithin(CounterOf(Replay(small), p), CounterOf(Replay(large), p), r)
  {
    var c, d := CounterOf(Replay(small), p), CounterOf(Replay(large), p);
    forall id | id in d.spends && d.spends[id].replica == r ensures id in c.spends && c.spends[id] == d.spends[id] {
      SpendsWithin(small, large, p, r, id);
    }
    forall id | id in d.transfers && d.transfers[id].from == r
      ensures id in c.transfers && c.transfers[id] == d.transfers[id]
    {
      TransfersWithin(small, large, p, r, id);
    }
    forall id | id in c.spends ensures id in d.spends && d.spends[id] == c.spends[id] {
      SpendsKept(small, large, p, id);
    }
    forall id | id in c.transfers ensures id in d.transfers && d.transfers[id] == c.transfers[id] {
      IncomingKept(small, large, p, id);
    }
  }

  lemma IncomeKept(small: set<Operation>, large: set<Operation>, p: PlayerId, r: ReplicaId)
    requires DistinctIds(large) && small <= large
    requires Accounted(Replay(small), small, p) && Accounted(Replay(large), large, p)
    requires AllAccepted(large, p) && PayoutsSettled(small, large, p)
    ensures IncomingWithin(CounterOf(Replay(small), p), CounterOf(Replay(large), p), r)
  {
    var c, d := CounterOf(Replay(small), p), CounterOf(Replay(large), p);
    InitialMono(small, large, p, r);
    forall id | id in c.transfers ensures id in d.transfers && d.transfers[id] == c.transfers[id] {
      IncomingKept(small, large, p, id);
    }
    forall pid | pid in c.grants ensures pid in d.grants && d.grants[pid] == c.grants[pid] {
      GrantsKept(small, large, p, pid);
    }
  }

  lemma NewIncomeFits(small: set<Operation>, large: set<Operation>, p: PlayerId, r: ReplicaId)
    requires DistinctIds(large) && small <= large
    requires Accounted(Replay(small), small, p) && Accounted(Replay(large), large, p)
    requires AllAccepted(small, p) && IncomeSettled(small, large, p, r)
    ensures MoreIncomeFits(CounterOf(Replay(small), p), CounterOf(Replay(large), p), r)
  {
    var c, d := CounterOf(Replay(small), p), CounterOf(Replay(large), p);
    InitialKept(small, large, p, r);
    forall pid | pid in d.grants && d.grants[pid].replica == r && TWO_63 <= d.grants[pid].amount
      ensures pid in c.grants && c.grants[pid] == d.grants[pid]
    {
      WrappedGrant(small, large, p, r, pid);
    }
    forall id | id in d.transfers && d.transfers[id].to == r && TWO_63 <= d.transfers[id].amount
      ensures id in c.transfers && c.transfers[id] == d.transfers[id]
    {
      WrappedTransfer(small, large, p, r, id);
    }
  }

  // ---- the theorem about one causally closed log ----

  /** What an operation was offered against still holds in any larger log that sorts before it. */
  lemma StillAccepted(born: map<Operation, set<Operation>>, before: set<Operation>, x: Operation, p: PlayerId)
    requires History(born) && x in born && (IsBet(x, p) || IsTransfer(x, p))
    requires before <= born.Keys && born[x] <= before && Appends(before, x)
    requires AllAccepted(born[x], p) && AllAccepted(before, p)
    requires PayoutsSettled(born[x], before, p) && IncomeSettled(born[x], before, p, x.replica)
    requires IsBet(x, p) ==> Seated(before, p)
    ensures Accepts(Replay(before), x)
  {
    var seen, r := born[x], x.replica;
    assert DistinctIds(before) && DistinctIds(seen);
    assert KnowsOwn(seen, before, r) by {
      forall y | y in before && y.replica == r ensures y in seen {
        assert Before(y, x) && y != x && y.time <= x.time;
      }
    }
    OwnTransfersHold(born, before);
    RightsKept(seen, before, p, r);
    assert WasOffered(born, x);
    RightsOfCounter(Replay(seen), p, r);
    if IsBet(x, p) {
      PlayerVisible(before, p);
      RoundExists(seen, x.kind.round);
      RoundExists(before, x.kind.round);
    }
  }

  lemma OwnTransfersHold(born: map<Operation, set<Operation>>, ops: set<Operation>)
    requires History(born) && ops <= born.Keys
    ensures OwnTransfers(ops)
  {
    forall y | y in ops && y.kind.TransferRights? ensures y.kind.from == y.replica {
      assert WasOffered(born, y);
    }
  }

  lemma SettledBy(born: map<Operation, set<Operation>>, small: set<Operation>, large: set<Operation>, p: PlayerId)
    requires small <= large <= born.Keys && CausallyClosed(small, born) && KnownPayouts(born, large, p)
    ensures PayoutsSettled(small, large, p)
  {
    forall y | y in small && IsPayout(y, p) && IsLeast(y, small) ensures IsLeast(y, large) {
      assert IsLeast(y, born[y]);
    }
  }

  lemma IncomeSettledBy(born: map<Operation, set<Operation>>, before: set<Operation>, log: set<Operation>,
                        x: Operation, p: PlayerId)
    requires log <= born.Keys && KnownIncome(born, log, p)
    requires x in log && before <= log && Appends(before, x) && (IsBet(x, p) || IsTransfer(x, p))
    ensures IncomeSettled(born[x], before, p, x.replica)
  {
  }

  lemma SeatWithoutLeaves(before: set<Operation>, j: Operation, p: PlayerId)
    requires j in before && IsJoin(j, p) && forall l :: l in before ==> !IsLeave(l, p)
    ensures Seated(before, p)
  {
  }

  /** A join after the last leave seats its player. */
  lemma SeatAfterLeave(before: set<Operation>, j: Operation, l: Operation, p: PlayerId)
    requires j in before && IsJoin(j, p) && Before(l, j)
    requires forall m :: m in before && IsLeave(m, p) ==> m == l || Before(m, l)
    ensures Seated(before, p)
  {
    forall m | m in before && IsLeave(m, p) ensures !Before(j, m) {
    }
  }

  ghost function LeavesIn(ops: set<Operation>, p: PlayerId): set<Operation> {
    set l | l in ops && IsLeave(l, p)
  }

  lemma LastLeave(ops: set<Operation>, p: PlayerId)
    requires DistinctIds(ops) && LeavesIn(ops, p) != {}
    ensures var l := Last(LeavesIn(ops, p));
            && l in ops && IsLeave(l, p)
            && forall m :: m in ops && IsLeave(m, p) ==> m == l || Before(m, l)
  {
    var l := Last(LeavesIn(ops, p));
    forall m | m in ops && IsLeave(m, p) ensures m == l || Before(m, l) {
      assert m in LeavesIn(ops, p);
    }
  }

  /** A bet keeps its seat: the last leave before it is outlived by a join its issuer knew. */
  lemma SeatKept(born: map<Operation, set<Operation>>, log: set<Operation>, before: set<Operation>, x: Operation,
                 p: PlayerId)
    requires History(born) && CausallyClosed(log, born) && log <= born.Keys && LeavesOutlived(born, log, p)
    requires x in log && IsBet(x, p) && before == Prefix(log, x)
    ensures Seated(before, p)
  {
    assert DistinctIds(before);
    if LeavesIn(before, p) == {} {
      OfferedSeat(born, x, p);
      var j :| j in born[x] && IsJoin(j, p);
      KnownIsBefore(born, log, x, j);
      assert forall l :: l in before && IsLeave(l, p) ==> l in LeavesIn(before, p);
      SeatWithoutLeaves(before, j, p);
    } else {
      var l := Last(LeavesIn(before, p));
      LastLeave(before, p);
      assert Outlives(born, x, l, p);
      var j :| j in born[x] && IsJoin(j, p) && Before(l, j);
      KnownIsBefore(born, log, x, j);
      SeatAfterLeave(before, j, l, p);
    }
  }

  lemma OfferedSeat(born: map<Operation, set<Operation>>, x: Operation, p: PlayerId)
    requires History(born) && x in born && IsBet(x, p)
    ensures Seated(born[x], p)
  {
    assert WasOffered(born, x);
    assert DistinctIds(born[x]);
    PlayerVisible(born[x], p);
  }

  lemma KnownIsBefore(born: map<Operation, set<Operation>>, log: set<Operation>, x: Operation, j: Operation)
    requires Causal(born) && CausallyClosed(log, born) && x in log && j in born[x]
    ensures j in Prefix(log, x)
  {
  }

  lemma {:induction false} ClosedLogAccepts(born: map<Operation, set<Operation>>, log: set<Operation>, p: PlayerId)
    requires History(born) && CausallyClosed(log, born) && log <= born.Keys
    requires LeavesOutlived(born, log, p) && Informed(born, log, p)
    ensures AllAccepted(log, p)
    decreases |log|
  {
    if log != {} {
      var x := Last(log);
      var before := log - {x};
      assert DistinctIds(log);
      LastAppends(log);
      BeforeIsClosed(born, log, x);
      assert before + {x} == log;
      ClosedLogAccepts(born, before, p);
      StepVerdict(before, x);
      if IsBet(x, p) || IsTransfer(x, p) {
        LastAccepted(born, before, log, x, p);
      }
    }
  }

  lemma LastAccepted(born: map<Operation, set<Operation>>, before: set<Operation>, log: set<Operation>,
                     x: Operation, p: PlayerId)
    requires History(born) && CausallyClosed(log, born) && log <= born.Keys
    requires LeavesOutlived(born, log, p) && Informed(born, log, p)
    requires x in log && before == log - {x} && Appends(before, x)
    requires born[x] <= before && AllAccepted(before, p) && (IsBet(x, p) || IsTransfer(x, p))
    ensures Accepts(Replay(before), x)
    decreases |log|, 0
  {
    assert CausallyClosed(born[x], born);
    SmallerLog(born[x], log, x);
    ClosedLogAccepts(born, born[x], p);
    SettledBy(born, born[x], before, p);
    IncomeSettledBy(born, before, log, x, p);
    if IsBet(x, p) {
      PrefixOfLast(log, before, x);
      SeatKept(born, log, before, x, p);
    }
    StillAccepted(born, before, x, p);
  }

  lemma PrefixOfLast(log: set<Operation>, before: set<Operation>, x: Operation)
    requires x in log && before == log - {x} && Appends(before, x)
    ensures before == Prefix(log, x)
  {
  }

  lemma SmallerLog(small: set<Operation>, large: set<Operation>, x: Operation)
    requires small <= large - {x} && x in large
    ensures |small| < |large|
  {
    SubsetSize(small, large - {x});
  }

  lemma {:induction false} SubsetSize(small: set<Operation>, large: set<Operation>)
    requires small <= large
    ensures |small| <= |large|
    decreases large
  {
    if x :| x in small {
      SubsetSize(small - {x}, large - {x});
    }
  }

  lemma BeforeIsClosed(born: map<Operation, set<Operation>>, log: set<Operation>, x: Operation)
    requires History(born) && CausallyClosed(log, born) && IsLast(x, log)
    ensures CausallyClosed(log - {x}, born) && born[x] <= log - {x}
  {
    forall y | y in log ensures x !in born[y] {
      assert !Before(x, y);
    }
  }

  // ---- main results ----

  /** Durable acceptance, exactly.  Where issuers are informed, every bet and transfer of p
      is accepted in every causally closed part of the log if and only if every leave of
      p is outlived for the bets that sort after it. */
  lemma {:induction false} DurableExactly(born: map<Operation, set<Operation>>, log: set<Operation>, p: PlayerId)
    requires History(born) && CausallyClosed(log, born) && log <= born.Keys && Informed(born, log, p)
    ensures (forall part :: part <= log && CausallyClosed(part, born) ==> AllAccepted(part, p))
       <==> LeavesOutlived(born, log, p)
  {
    if LeavesOutlived(born, log, p) {
      forall part | part <= log && CausallyClosed(part, born) ensures AllAccepted(part, p) {
        ClosedLogAccepts(born, part, p);
      }
    }
    if forall part :: part <= log && CausallyClosed(part, born) ==> AllAccepted(part, p) {
      forall l, x | l in log && x in log && IsLeave(l, p) && IsBet(x, p) && Before(l, x)
        ensures Outlives(born, x, l, p)
      {
        AcceptedOutlives(born, log, l, x, p);
      }
    }
  }

  /** The part that shows it: the leave, the bet, and what their issuers knew. */
  ghost function Witness(born: map<Operation, set<Operation>>, l: Operation, x: Operation): set<Operation>
    requires l in born && x in born
  {
    born[x] + {x} + born[l] + {l}
  }

  lemma WitnessIsClosed(born: map<Operation, set<Operation>>, log: set<Operation>, l: Operation, x: Operation)
    requires Causal(born) && CausallyClosed(log, born) && l in log && x in log
    ensures Witness(born, l, x) <= log && CausallyClosed(Witness(born, l, x), born)
  {
    assert CausallyClosed(born[x], born) && CausallyClosed(born[l], born);
  }

  lemma AcceptedOutlives(born: map<Operation, set<Operation>>, log: set<Operation>, l: Operation, x: Operation,
                         p: PlayerId)
    requires History(born) && CausallyClosed(log, born) && log <= born.Keys
    requires l in log && x in log && IsLeave(l, p) && IsBet(x, p) && Before(l, x)
    requires forall part :: part <= log && CausallyClosed(part, born) ==> AllAccepted(part, p)
    ensures Outlives(born, x, l, p)
  {
    var part := Witness(born, l, x);
    WitnessIsClosed(born, log, l, x);
    assert x in part && AllAccepted(part, p);
    SeatedInPart(born, part, x, p);
    var before := Prefix(part, x);
    var j :| j in before && IsJoin(j, p) && forall m :: m in before && IsLeave(m, p) ==> !Before(j, m);
    assert l in before && !Before(j, l);
    JoinIsKnown(born, l, x, j, p);
  }

  lemma SeatedInPart(born: map<Operation, set<Operation>>, part: set<Operation>, x: Operation, p: PlayerId)
    requires DistinctIds(born.Keys) && part <= born.Keys && AllAccepted(part, p) && x in part && IsBet(x, p)
    ensures Seated(Prefix(part, x), p)
  {
    assert DistinctIds(part);
    BetVerdict(part, x);
  }

  lemma JoinIsKnown(born: map<Operation, set<Operation>>, l: Operation, x: Operation, j: Operation, p: PlayerId)
    requires Causal(born) && DistinctIds(born.Keys) && l in born && x in born && IsLeave(l, p) && IsBet(x, p)
    requires j in Witness(born, l, x) && j in born && IsJoin(j, p) && !Before(j, l)
    ensures Outlives(born, x, l, p)
  {
    assert j in born[x] && Before(l, j);
  }

  /** In every run in which issuers are informed, no causally closed log - and such is the
      log of every replica, and whatever a new replica may receive - ever rejects a bet
      or transfer of p if and only if every leave of p is outlived for the bets that
      sort after it. */
  lemma {:induction false} DurableAcceptance(events: seq<Event>, p: PlayerId)
    requires Possible(events)
    requires Informed(Execute(events).born, Execute(events).born.Keys, p)
    ensures var born := Execute(events).born;
            (forall log :: CausallyClosed(log, born) ==> AllAccepted(log, p)) <==> LeavesOutlived(born, born.Keys, p)
    ensures LeavesOutlived(Execute(events).born, Execute(events).born.Keys, p) ==>
              forall r :: AllAccepted(LogAt(Execute(events), r), p)
  {
    Invariant(events);
    InvIsDurable(Execute(events), p);
  }

  lemma {:induction false} InvIsDurable(w: World, p: PlayerId)
    requires Inv(w) && Informed(w.born, w.born.Keys, p)
    ensures (forall log :: CausallyClosed(log, w.born) ==> AllAccepted(log, p))
       <==> LeavesOutlived(w.born, w.born.Keys, p)
    ensures LeavesOutlived(w.born, w.born.Keys, p) ==> forall r :: AllAccepted(LogAt(w, r), p)
  {
    forall o | o in w.born ensures w.born[o] <= w.born.Keys {
      assert CausallyClosed(w.born[o], w.born);
    }
    assert CausallyClosed(w.born.Keys, w.born);
    DurableExactly(w.born, w.born.Keys, p);
    forall r ensures CausallyClosed(LogAt(w, r), w.born) {
    }
  }

  /** A replica that holds nothing yet can receive any causally closed log. */
  lemma ClosedLogsAreReceivable(w: World, at: ReplicaId, log: set<Operation>)
    requires LogAt(w, at) == {} && CausallyClosed(log, w.born)
    ensures Enabled(w, Receive(at, log)) && LogAt(After(w, Receive(at, log)), at) == log
  {
    assert {} + log == log;
  }

  // ---- conditions that can be read off what was issued ----

  /** Payouts issued by one replica only are known: it knew its own. */
  lemma SoleIssuersKnow(born: map<Operation, set<Operation>>, p: PlayerId)
    requires OwnOrder(born) && SoleIssuers(born.Keys, p)
    ensures KnownPayouts(born, born.Keys, p)
  {
    forall y | y in born && IsPayout(y, p) && IsLeast(y, born[y]) ensures IsLeast(y, born.Keys) {
      OwnPayoutsKnown(born, p, y);
    }
  }

  lemma OwnPayoutsKnown(born: map<Operation, set<Operation>>, p: PlayerId, y: Operation)
    requires OwnOrder(born) && SoleIssuers(born.Keys, p) && y in born && IsPayout(y, p)
    ensures IsLeast(y, born[y]) ==> IsLeast(y, born.Keys)
  {
    assert forall z :: z in born.Keys && Pays(z, y.kind.payout) && Before(z, y) ==> z in born[y];
  }

  /** Rights, prizes and transfers below 2^63 leave nothing to know. */
  lemma SmallIncomeIsKnown(born: map<Operation, set<Operation>>, p: PlayerId)
    requires forall x :: x in born ==> IncomeSafe(x, p) && (IsTransfer(x, p) ==> x.kind.amount < TWO_63)
    ensures KnownIncome(born, born.Keys, p)
  {
    forall y, r | y in born ensures !WrapsAt(y, p, r) {
      if IsJoin(y, p) {
        assert GivenTo(y, r) == Of(JoinRights(y), r);
      }
    }
  }

  /** Leaves that were known to the bets they precede are outlived: the bet was offered
      to a seated player.  In particular there may be no leaves at all, or only leaves
      that sort after every bet. */
  lemma KnownLeavesOutlived(born: map<Operation, set<Operation>>, p: PlayerId)
    requires History(born)
    requires forall l, x :: l in born && x in born && IsLeave(l, p) && IsBet(x, p) && Before(l, x) ==> l in born[x]
    ensures LeavesOutlived(born, born.Keys, p)
  {
    forall l, x | l in born && x in born && IsLeave(l, p) && IsBet(x, p) && Before(l, x)
      ensures Outlives(born, x, l, p)
    {
      OfferedSeat(born, x, p);
      var j :| j in born[x] && IsJoin(j, p) && forall m :: m in born[x] && IsLeave(m, p) ==> !Before(j, m);
      assert CausallyClosed(born[x], born);
      assert j in born && Before(l, j);
    }
  }

  lemma {:induction false} HistoryGrows(events: seq<Event>, k: nat)
    requires Possible(events) && k <= |events|
    ensures Possible(events[..k])
    ensures forall o :: o in Execute(events[..k]).born ==>
              o in Execute(events).born && Execute(events).born[o] == Execute(events[..k]).born[o]
    decreases |events|
  {
    if k == |events| {
      assert events[..k] == events;
    } else {
      var rest := events[..|events| - 1];
      HistoryGrows(rest, k);
      assert rest[..k] == events[..k];
    }
  }

  /** Merging another client's whole log, as it is or as it ever was, is always a
      causally complete delivery. */
  lemma WholeLogsAreReceivable(events: seq<Event>, k: nat, from: ReplicaId, at: ReplicaId)
    requires Possible(events) && k <= |events|
    ensures Enabled(Execute(events), Receive(at, LogAt(Execute(events[..k]), from)))
  {
    var w, earlier := Execute(events), Execute(events[..k]);
    HistoryGrows(events, k);
    Invariant(events);
    Invariant(events[..k]);
    assert CausallyClosed(LogAt(earlier, from), earlier.born);
    assert CausallyClosed(LogAt(w, at), w.born);
  }

  /** In every run, and at every replica, a player whose joins are backed by chips and
      whose amounts all stay below 2^63 has a balance of at least the reported remaining
      rights, never negative, and has spent no more than the chips and prizes of that log. */
  lemma NoReplicaOverspends(events: seq<Event>, r: ReplicaId, p: PlayerId)
    requires Possible(events) && BackedJoins(Execute(events).born.Keys, p)
    requires forall x :: x in Execute(events).born ==> CastSafe(x, p) && IncomeSafe(x, p)
    ensures var log := LogAt(Execute(events), r); var c := CounterOf(Replay(log), p);
            && PlayerBalance(Replay(log), p) >= TotalRemaining(c) >= 0
            && TotalSpent(c) <= Chips(log, p) + Total(c.grants)
            && forall i :: 0 <= AvailableRights(Replay(log), p, i)
  {
    var w := Execute(events);
    var log := LogAt(w, r);
    Invariant(events);
    assert CausallyClosed(log, w.born);
    assert log <= w.born.Keys && DistinctIds(log) && BackedJoins(log, p) && AmountsFit(log, p);
    NoNegativeBalance(log, p);
    BackedRights(log, p);
    ReplaySolvent(log, p);
    Conservation(CounterOf(Replay(log), p));
    forall i ensures 0 <= AvailableRights(Replay(log), p, i) {
      ReportsExactly(log, p, i);
    }
    ReportsExactly(log, p, r);
  }
}
