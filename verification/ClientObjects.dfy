/** The log, the client and the server's store as the program has them: objects
    updated in place (src/sync/operation_log.rs, src/client/client.rs,
    src/server/operation_store.rs).  The client's invariant: its state is the replay
    of its log, and its clock is at least every time in the log. */
module ClientObjects {
  import opened Operations
  import opened MapSums
  import opened Counters
  import opened Merges
  import opened BetState
  import opened Replays
  import opened Accounting
  import opened Views
  import opened Commands
  import opened CrdtObjects
  import opened StateObject
  import Relay

  datatype Outcome<+T> = Success(value: T) | Failure(error: ClientError)

  /** What resolving a round comes to; Overflow where a prize is no u64. */
  datatype Settlement = AllPaid(recorded: seq<Operation>) | Refused(error: ClientError) | Overflow

  datatype ClientError =
    | PlayerNotJoined | RoundMissing | RoundNotOpen | RoundNotClosed | InsufficientRights | BadDice

  // ---- operation log ----

  class OperationLog {
    var seen: set<OpId>
    var operations: seq<Operation>

    ghost predicate Valid()
      reads this
    {
      NoRepeats(operations) && seen == SeqIds(operations)
    }

    constructor ()
      ensures Valid() && operations == []
    {
      seen, operations := {}, [];
    }

    method Insert(op: Operation) returns (isNew: bool)
      requires Valid()
      modifies this
      ensures Valid()
      ensures isNew == (op.id !in old(seen))
      ensures operations == if isNew then old(operations) + [op] else old(operations)
      ensures operations == Replays.Insert(old(operations), op)
    {
      if op.id in seen {
        return false;
      }
      SeqIdsAppend(operations, op);
      seen := seen + {op.id};
      operations := operations + [op];
      return true;
    }

    method InsertAll(ops: seq<Operation>) returns (count: nat)
      requires Valid()
      modifies this
      ensures Valid()
      ensures operations == Deliver(old(operations), ops)
      ensures |operations| == |old(operations)| + count
    {
      count := 0;
      var i := 0;
      while i < |ops|
        invariant 0 <= i <= |ops| && Valid()
        invariant Deliver(operations, ops[i..]) == Deliver(old(operations), ops)
        invariant |operations| == |old(operations)| + count
      {
        DeliverNext(operations, ops, i);
        var isNew := Insert(ops[i]);
        count, i := count + (if isNew then 1 else 0), i + 1;
      }
    }

    method SortedOperations() returns (sorted: seq<Operation>)
      requires Valid()
      ensures multiset(sorted) == multiset(operations) && IsSorted(sorted)
      ensures forall i, j :: 0 <= i < j < |sorted| ==>
                || sorted[i].time < sorted[j].time
                || (sorted[i].time == sorted[j].time && sorted[i].replica < sorted[j].replica)
                || (sorted[i].time == sorted[j].time && sorted[i].replica == sorted[j].replica
                    && sorted[i].id < sorted[j].id)
      ensures Run(START, sorted) == Replay(Elems(operations))
    {
      sorted := SortOperations(operations);
      PermutationKeepsIds(operations, sorted);
      AnySortReplays(operations, sorted);
    }
  }

  lemma AppendOne<T(!new)>(log: seq<T>, tail: seq<T>, x: T)
    ensures log + tail + [x] == log + (tail + [x])
    ensures Elems(tail + [x]) == Elems(tail) + {x}
  {
  }

  lemma Associates<T>(a: seq<T>, b: seq<T>, c: seq<T>)
    ensures a + b + c == a + (b + c)
  {
  }

  lemma ElemsConcat<T(!new)>(a: seq<T>, b: seq<T>)
    ensures Elems(a + b) == Elems(a) + Elems(b)
  {
  }

  lemma TakeOne<T>(all: set<T>, left: set<T>, done: set<T>, x: T)
    requires left <= all && done == all - left && x in left
    ensures done + {x} == all - (left - {x}) && x !in done
  {
  }

  /** What inserting the next arrival leaves to deliver. */
  lemma DeliverNext(log: seq<Operation>, ops: seq<Operation>, i: nat)
    requires i < |ops|
    ensures Deliver(log, ops[i..]) == Deliver(Replays.Insert(log, ops[i]), ops[i + 1..])
  {
    assert ops[i..][1..] == ops[i + 1..];
  }

  lemma SeqIdsAppend(log: seq<Operation>, op: Operation)
    ensures SeqIds(log + [op]) == SeqIds(log) + {op.id}
  {
    var longer := log + [op];
    forall id ensures id in SeqIds(longer) <==> id in SeqIds(log) + {op.id} {
      if id in SeqIds(log) {
        var i :| 0 <= i < |log| && log[i].id == id;
        assert longer[i].id == id;
      }
      assert longer[|log|] == op;
    }
  }

  // ---- server store ----

  class OperationStore {
    var seen: set<OpId>
    var operations: seq<Operation>

    ghost predicate Valid()
      reads this
    {
      NoRepeats(operations) && seen == SeqIds(operations)
    }

    constructor ()
      ensures Valid() && operations == []
    {
      seen, operations := {}, [];
    }

    method Insert(op: Operation) returns (isNew: bool)
      requires Valid()
      modifies this
      ensures Valid()
      ensures isNew == (op.id !in old(seen))
      ensures operations == if isNew then old(operations) + [op] else old(operations)
    {
      if op.id in seen {
        return false;
      }
      SeqIdsAppend(operations, op);
      seen := seen + {op.id};
      operations := operations + [op];
      return true;
    }

    /** A client that holds what it said it had seen holds the whole store once it
        has also ingested the answer, and is sent nothing it had. */
    method MissingFor(had: set<OpId>) returns (missing: seq<Operation>)
      requires Valid()
      ensures missing == Relay.Missing(operations, had)
      ensures forall x :: x in missing ==> x in operations && x.id !in had
      ensures AllInOrder(operations, missing)
      ensures seen <= had + SeqIds(missing)
    {
      missing := [];
      var i := |operations|;
      while 0 < i
        invariant 0 <= i <= |operations|
        invariant missing == Relay.Missing(operations[i..], had)
      {
        i := i - 1;
        assert operations[i..] == [operations[i]] + operations[i + 1..];
        if operations[i].id !in had {
          missing := [operations[i]] + missing;
        }
      }
      assert operations[0..] == operations;
      MissingInOrder(operations, had);
    }
  }

  /** x stands before y in the vector. */
  ghost predicate InOrder(ops: seq<Operation>, x: Operation, y: Operation) {
    exists a, b :: 0 <= a < b < |ops| && ops[a] == x && ops[b] == y
  }

  ghost predicate AllInOrder(ops: seq<Operation>, part: seq<Operation>) {
    forall i, j :: 0 <= i < j < |part| ==> InOrder(ops, part[i], part[j])
  }

  lemma {:induction false} MissingInOrder(ops: seq<Operation>, had: set<OpId>)
    ensures AllInOrder(ops, Relay.Missing(ops, had))
  {
    if ops != [] {
      var m, rest := Relay.Missing(ops, had), Relay.Missing(ops[1..], had);
      MissingInOrder(ops[1..], had);
      forall i, j | 0 <= i < j < |m| ensures InOrder(ops, m[i], m[j]) {
        if ops[0].id in had {
          assert m == rest && InOrder(ops[1..], rest[i], rest[j]);
          LaterInOrder(ops, m[i], m[j]);
        } else {
          assert m == [ops[0]] + rest && m[j] == rest[j - 1];
          if i == 0 {
            FirstInOrder(ops, m[j]);
          } else {
            assert InOrder(ops[1..], rest[i - 1], rest[j - 1]);
            LaterInOrder(ops, m[i], m[j]);
          }
        }
      }
    }
  }

  lemma FirstInOrder(ops: seq<Operation>, y: Operation)
    requires ops != [] && y in ops[1..]
    ensures InOrder(ops, ops[0], y)
  {
    var b :| 0 <= b < |ops[1..]| && ops[1..][b] == y;
    assert ops[b + 1] == y;
  }

  lemma LaterInOrder(ops: seq<Operation>, x: Operation, y: Operation)
    requires ops != [] && InOrder(ops[1..], x, y)
    ensures InOrder(ops, x, y)
  {
    var a, b :| 0 <= a < b < |ops[1..]| && ops[1..][a] == x && ops[1..][b] == y;
    assert ops[a + 1] == x && ops[b + 1] == y;
  }

  // ---- client ----

  /** What a command added to the log it added, in order, to the queue while offline. */
  ghost predicate Queued(log: seq<Operation>, log': seq<Operation>, queue: seq<Operation>, queue': seq<Operation>,
                         online: bool)
  {
    log <= log' && queue' == if online then queue else queue + log'[|log|..]
  }

  lemma QueuedAll(log: seq<Operation>, recorded: seq<Operation>, queue: seq<Operation>, online: bool)
    ensures Queued(log, log + recorded, queue, if online then queue else queue + recorded, online)
  {
    assert (log + recorded)[|log|..] == recorded;
  }

  /** A client as a peer of the relay, its connection apart. */
  ghost function PeerOf(log: seq<Operation>, queue: seq<Operation>, online: bool): Relay.Peer {
    Relay.Peer(Elems(log), queue, online, None)
  }

  /** So every command is a recording step of the relay. */
  lemma CommandsAreRecordings(log: seq<Operation>, log': seq<Operation>, queue: seq<Operation>,
                              queue': seq<Operation>, online: bool)
    requires Queued(log, log', queue, queue', online)
    ensures PeerOf(log', queue', online) == Relay.WithRecorded(PeerOf(log, queue, online), log'[|log|..])
  {
    assert log' == log + log'[|log|..];
    ElemsConcat(log, log'[|log|..]);
  }

  /** And every arrival is one of its ingesting steps. */
  lemma ArrivalsAreIngested(log: seq<Operation>, queue: seq<Operation>, online: bool, op: Operation)
    ensures PeerOf(Replays.Insert(log, op), queue, online) == Relay.WithIngested(PeerOf(log, queue, online), op)
  {
    if op.id in SeqIds(log) {
      var i :| 0 <= i < |log| && log[i].id == op.id;
      assert log[i] in Elems(log);
    } else {
      forall x | x in Elems(log) ensures x.id != op.id {
        var i :| 0 <= i < |log| && log[i] == x;
      }
      ElemsConcat(log, [op]);
    }
  }

  /** Uuid::new_v4: an id that is in use neither in the log nor in the queue. */
  method NewId(seen: set<OpId>) returns (id: OpId)
    ensures id !in seen
  {
    id := 0;
    var left := seen;
    while left != {}
      invariant left <= seen
      invariant forall x :: x in seen && x !in left ==> x < id
      decreases |left|
    {
      var x :| x in left;
      if id <= x {
        id := x + 1;
      }
      left := left - {x};
    }
  }

  class LocalClient {
    const replica: ReplicaId
    var clock: LamportClock
    var log: OperationLog
    var state: BetSyncState
    var unsynced: seq<Operation>
    var online: bool

    ghost predicate Valid()
      reads this, clock, log, state
    {
      && log.Valid()
      && state.Model() == Replay(Elems(log.operations))
      && forall x :: x in log.operations ==> x.time <= clock.time
    }

    constructor (replica: ReplicaId)
      ensures Valid() && fresh(clock) && fresh(log) && fresh(state)
      ensures this.replica == replica && log.operations == [] && unsynced == [] && online
    {
      this.replica := replica;
      clock := new LamportClock();
      log := new OperationLog();
      state := new BetSyncState();
      unsynced, online := [], true;
      new;
      assert Elems(log.operations) == {};
    }

    method SetOnline(value: bool)
      modifies this`online
      ensures online == value
    {
      online := value;
    }

    method QueueUnsynced(op: Operation)
      modifies this`unsynced
      ensures unsynced == if op.id in SeqIds(old(unsynced)) then old(unsynced) else old(unsynced) + [op]
      ensures op.id in SeqIds(unsynced) && (NoRepeats(old(unsynced)) ==> NoRepeats(unsynced))
    {
      SeqIdsAppend(unsynced, op);
      if exists i :: 0 <= i < |unsynced| && unsynced[i].id == op.id {
        return;
      }
      unsynced := unsynced + [op];
    }

    method TakeUnsynced() returns (taken: seq<Operation>)
      modifies this`unsynced
      ensures taken == old(unsynced) && unsynced == []
    {
      taken := unsynced;
      unsynced := [];
    }

    method RebuildState()
      requires log.Valid()
      modifies this`state
      ensures fresh(state) && state.Model() == Replay(Elems(log.operations))
    {
      state := new BetSyncState.FromOperations(log.operations);
    }

    /** One arriving operation, known or new, older or newer than anything in the log. */
    method Ingest(op: Operation) returns (isNew: bool)
      requires Valid()
      modifies this`state, clock, log
      ensures Valid() && (state == old(state) || fresh(state))
      ensures isNew == (op.id !in old(log.seen)) && |log.operations| == |old(log.operations)| + if isNew then 1 else 0
      ensures log.operations == Replays.Insert(old(log.operations), op)
      ensures clock.time == Max(old(clock.time), op.time)
    {
      clock.Observe(op.time);
      isNew := log.Insert(op);
      if isNew {
        RebuildState();
      }
    }

    /** Arrivals in any order, with any repetitions. */
    method IngestMany(ops: seq<Operation>) returns (count: nat)
      requires Valid()
      modifies this`state, clock, log
      ensures Valid() && (state == old(state) || fresh(state))
      ensures log.operations == Deliver(old(log.operations), ops)
      ensures |log.operations| == |old(log.operations)| + count
    {
      ghost var size, merged := |log.operations|, Deliver(log.operations, ops);
      count := 0;
      var i := 0;
      while i < |ops|
        invariant 0 <= i <= |ops| && Valid() && (state == old(state) || fresh(state))
        invariant Deliver(log.operations, ops[i..]) == merged
        invariant |log.operations| == size + count
      {
        DeliverNext(log.operations, ops, i);
        var isNew := Ingest(ops[i]);
        count, i := count + (if isNew then 1 else 0), i + 1;
      }
    }

    /** Two logs whose ids agree merge to their union. */
    method MergeFrom(other: LocalClient) returns (count: nat)
      requires Valid() && other.Valid() && other != this && other.log != log && other.clock != clock
      modifies this`state, clock, log
      ensures Valid() && (state == old(state) || fresh(state))
      ensures |log.operations| == |old(log.operations)| + count
      ensures DistinctIds(Elems(old(log.operations)) + Elems(other.log.operations)) ==>
                Elems(log.operations) == Elems(old(log.operations)) + Elems(other.log.operations)
    {
      ghost var before := log.operations;
      count := IngestMany(other.log.operations);
      if DistinctIds(Elems(before) + Elems(other.log.operations)) {
        DeliverCollects(before, other.log.operations);
      }
    }

    /** A local operation sorts last, so rebuilding is one step on the old state. */
    method Record(kind: Kind) returns (op: Operation)
      requires Valid()
      modifies this`state, this`unsynced, clock, log
      ensures Valid() && fresh(state)
      ensures op == Operation(op.id, replica, old(clock.time) + 1, kind)
      ensures op.id !in old(log.seen) && clock.time == old(clock.time) + 1
      ensures log.operations == old(log.operations) + [op]
      ensures Appends(Elems(old(log.operations)), op)
      ensures Elems(log.operations) == Elems(old(log.operations)) + {op}
      ensures state.Model() == Step(old(state.Model()), op)
      ensures unsynced == if online then old(unsynced) else old(unsynced) + [op]
    {
      ghost var before := log.operations;
      var now := clock.Tick();
      var id := NewId(log.seen + SeqIds(unsynced));
      op := Operation(id, replica, now, kind);
      var _ := log.Insert(op);
      RebuildState();
      RecordAppends(before, op);
      if !online {
        QueueUnsynced(op);
      }
    }

    method CreateTable(name: string) returns (op: Operation)
      requires Valid()
      modifies this`state, this`unsynced, clock, log
      ensures Valid() && Queued(old(log.operations), log.operations, old(unsynced), unsynced, online)
      ensures log.operations == old(log.operations) + [op] && op.kind == Kind.CreateTable(name)
      ensures state.Model().tableName.value == Some(name)
    {
      op := Record(Kind.CreateTable(name));
      QueuedAll(old(log.operations), [op], old(unsynced), online);
      TableName(Elems(log.operations), op);
    }

    method JoinTable(player: PlayerId, displayName: string, chips: nat) returns (op: Operation)
      requires Valid()
      modifies this`state, this`unsynced, clock, log
      ensures Valid() && Queued(old(log.operations), log.operations, old(unsynced), unsynced, online)
      ensures log.operations == old(log.operations) + [op]
      ensures op.kind == Kind.JoinTable(player, displayName, chips, map[replica := chips])
      ensures Joined(old(state.Model()), state.Model(), player, chips)
    {
      op := JoinTableWithRights(player, displayName, chips, map[replica := chips]);
    }

    method JoinTableWithRights(player: PlayerId, displayName: string, chips: nat, rights: map<ReplicaId, nat>)
      returns (op: Operation)
      requires Valid()
      modifies this`state, this`unsynced, clock, log
      ensures Valid() && Queued(old(log.operations), log.operations, old(unsynced), unsynced, online)
      ensures log.operations == old(log.operations) + [op]
      ensures op.kind == Kind.JoinTable(player, displayName, chips, rights)
      ensures Joined(old(state.Model()), state.Model(), player, chips)
    {
      ghost var before := Elems(log.operations);
      op := Record(Kind.JoinTable(player, displayName, chips, rights));
      QueuedAll(old(log.operations), [op], old(unsynced), online);
      JoinSeats(before, op);
    }

    method LeaveTable(player: PlayerId) returns (op: Operation)
      requires Valid()
      modifies this`state, this`unsynced, clock, log
      ensures Valid() && Queued(old(log.operations), log.operations, old(unsynced), unsynced, online)
      ensures log.operations == old(log.operations) + [op] && op.kind == Kind.LeaveTable(player)
      ensures forall q :: Contains(state.Model().players, q) <==> q != player && Contains(old(state.Model().players), q)
    {
      ghost var before := Elems(log.operations);
      op := Record(Kind.LeaveTable(player));
      QueuedAll(old(log.operations), [op], old(unsynced), online);
      LeaveUnseats(before, op);
    }

    method CreateRound(round: RoundId, dealer: PlayerId) returns (op: Operation)
      requires Valid()
      modifies this`state, this`unsynced, clock, log
      ensures Valid() && Advances(old(state.Model()), op, state.Model(), round)
      ensures log.operations == old(log.operations) + [op] && op.kind == Kind.CreateRound(round, dealer)
      ensures unsynced == if online then old(unsynced) else old(unsynced) + [op]
    {
      op := Record(Kind.CreateRound(round, dealer));
      RankStep(old(state.Model()), op, round);
    }

    method OpenBetting(round: RoundId) returns (op: Operation)
      requires Valid()
      modifies this`state, this`unsynced, clock, log
      ensures Valid() && Advances(old(state.Model()), op, state.Model(), round)
      ensures log.operations == old(log.operations) + [op] && op.kind == Kind.OpenBetting(round)
      ensures unsynced == if online then old(unsynced) else old(unsynced) + [op]
    {
      op := Record(Kind.OpenBetting(round));
      RankStep(old(state.Model()), op, round);
    }

    method StartRound(round: RoundId, dealer: PlayerId) returns (ops: seq<Operation>)
      requires Valid()
      modifies this`state, this`unsynced, clock, log
      ensures Valid()
      ensures unsynced == if online then old(unsynced) else old(unsynced) + ops
      ensures log.operations == old(log.operations) + ops && |ops| == 2
      ensures ops[0].kind == Kind.CreateRound(round, dealer) && ops[1].kind == Kind.OpenBetting(round)
      ensures Started(old(state.Model()), state.Model(), round)
    {
      ghost var before := state.Model();
      var create := CreateRound(round, dealer);
      ghost var between := state.Model();
      var open := OpenBetting(round);
      RoundStarted(before, between, state.Model(), create, open, round);
      ops := [create, open];
      Associates(old(log.operations), [create], [open]);
      Associates(old(unsynced), [create], [open]);
    }

    method PlaceBet(player: PlayerId, round: RoundId, amount: nat, betKind: BetKind, betId: BetId)
      returns (result: Outcome<Operation>)
      requires Valid()
      modifies this`state, this`unsynced, clock, log
      ensures Valid() && Queued(old(log.operations), log.operations, old(unsynced), unsynced, online)
      ensures result.Success? <==> MayBet(old(state.Model()), replica, player, round, amount)
      ensures result.Success? ==>
                round in old(state.roundViews) && old(state.roundViews)[round].phase == BettingOpen
      ensures result.Failure? ==>
                result.error == if !Seated(Elems(old(log.operations)), player) then PlayerNotJoined
                                else if round !in old(state.roundViews) then RoundMissing
                                else if old(state.roundViews)[round].phase != BettingOpen then RoundNotOpen
                                else InsufficientRights
      ensures result.Failure? ==> state == old(state) && log.operations == old(log.operations)
                                  && clock.time == old(clock.time) && unsynced == old(unsynced)
      ensures result.Success? ==>
                && result.value.replica == replica
                && result.value.kind == Kind.PlaceBet(betId, player, round, amount, betKind, BettingOpen)
                && log.operations == old(log.operations) + [result.value]
                && result.value.id !in state.rejected
                && Bet(betId, player, round, amount, betKind, replica, clock.time) in VisibleBets(state.Model())
                && Changes(old(state.Model()), state.Model(), player, replica, 0 - amount, 0 - AsI64(amount))
    {
      PlayerVisible(Elems(log.operations), player);
      if !Contains(state.players, player) {
        return Failure(PlayerNotJoined);
      }
      var phase := RoundPhase(state.Model(), round);
      if phase == None {
        return Failure(RoundMissing);
      }
      if phase.value != BettingOpen {
        return Failure(RoundNotOpen);
      }
      var available := state.GetAvailableRights(player, replica);
      if available < AsI64(amount) {
        return Failure(InsufficientRights);
      }
      ghost var before := Elems(log.operations);
      var op := Record(Kind.PlaceBet(betId, player, round, amount, betKind, phase.value));
      QueuedAll(old(log.operations), [op], old(unsynced), online);
      BetPlaced(before, op);
      return Success(op);
    }

    method CloseBetting(round: RoundId) returns (result: Outcome<Operation>)
      requires Valid()
      modifies this`state, this`unsynced, clock, log
      ensures Valid() && Queued(old(log.operations), log.operations, old(unsynced), unsynced, online)
      ensures result.Failure? ==> result.error == RoundNotOpen
      ensures result.Success? <==> RoundPhase(old(state.Model()), round) == Some(BettingOpen)
      ensures result.Failure? ==> state == old(state) && log.operations == old(log.operations)
                                  && clock.time == old(clock.time) && unsynced == old(unsynced)
      ensures result.Success? ==>
                && log.operations == old(log.operations) + [result.value]
                && result.value.kind == Kind.CloseBetting(round)
                && RoundPhase(state.Model(), round) == Some(BettingClosed)
    {
      if RoundPhase(state.Model(), round) != Some(BettingOpen) {
        return Failure(RoundNotOpen);
      }
      ghost var before := state.Model();
      var op := Record(Kind.CloseBetting(round));
      QueuedAll(old(log.operations), [op], old(unsynced), online);
      RankStep(before, op, round);
      return Success(op);
    }

    method TransferSpendingRights(player: PlayerId, to: ReplicaId, amount: nat) returns (result: Outcome<Operation>)
      requires Valid()
      modifies this`state, this`unsynced, clock, log
      ensures Valid() && Queued(old(log.operations), log.operations, old(unsynced), unsynced, online)
      ensures result.Failure? ==> result.error == InsufficientRights
      ensures result.Success? <==> AsI64(amount) <= AvailableRights(old(state.Model()), player, replica)
      ensures result.Failure? ==> state == old(state) && log.operations == old(log.operations)
                                  && clock.time == old(clock.time) && unsynced == old(unsynced)
      ensures result.Success? ==>
                && log.operations == old(log.operations) + [result.value]
                && result.value.kind == TransferRights(player, replica, to, amount)
                && result.value.id !in state.rejected
                && Moved(old(state.Model()), state.Model(), player, replica, to, AsI64(amount))
    {
      var available := state.GetAvailableRights(player, replica);
      if available < AsI64(amount) {
        return Failure(InsufficientRights);
      }
      ghost var before := Elems(log.operations);
      var op := Record(TransferRights(player, replica, to, amount));
      QueuedAll(old(log.operations), [op], old(unsynced), online);
      RightsTransferred(before, op);
      return Success(op);
    }

    /** Resolve a closed round and pay its winning visible bets, unless the prize of one
        of them is no u64: then it stops after the resolution and the payouts of some
        others.  If bet ids are distinct, every player's balance, and the resolver's own
        rights for that player, rise by exactly what the winning bets are owed. */
    method ResolveRound(round: RoundId, dice: nat) returns (result: Settlement)
      requires Valid()
      modifies this`state, this`unsynced, clock, log
      ensures Valid() && Queued(old(log.operations), log.operations, old(unsynced), unsynced, online)
      ensures result.Refused? <==>
                !(1 <= dice <= 6 && RoundPhase(old(state.Model()), round) == Some(BettingClosed))
      ensures result.Refused? ==> result.error == if 1 <= dice <= 6 then RoundNotClosed else BadDice
      ensures !result.Refused? ==>
                (result.Overflow? <==>
                 exists b :: b in Winners(VisibleBets(old(state.Model())), round, dice) && TWO_64 <= b.Prize())
      ensures result.Refused? ==> state == old(state) && log.operations == old(log.operations)
                                  && clock.time == old(clock.time) && unsynced == old(unsynced)
      ensures result.AllPaid? ==>
                && log.operations == old(log.operations) + result.recorded
                && Settles(old(state.Model()), Elems(old(log.operations)), result.recorded, state.Model(),
                           round, dice, replica)
      ensures result.Overflow? ==>
                PaysSome(Elems(old(log.operations)), log.operations[|old(log.operations)|..],
                         Winners(VisibleBets(old(state.Model())), round, dice), round, replica)
    {
      if !(1 <= dice <= 6) {
        return Refused(BadDice);
      }
      if RoundPhase(state.Model(), round) != Some(BettingClosed) {
        return Refused(RoundNotClosed);
      }
      ghost var ops := Elems(log.operations);
      var op := Record(Kind.ResolveRound(round, dice));
      ResolvedKeepsBets(ops, op);
      var visible := state.GetVisibleBets();
      var paid, fits;
      ghost var bets;
      paid, bets, fits := PayAll(Winners(visible, round, dice), round);
      Associates(old(log.operations), [op], paid);
      Associates(old(unsynced), [op], paid);
      QueuedAll(old(log.operations), [op] + paid, old(unsynced), online);
      assert ([op] + paid)[1..] == paid;
      if !fits {
        assert log.operations[|old(log.operations)|..] == [op] + paid;
        SettledSome(ops, op, paid, bets, Winners(visible, round, dice));
        return Overflow;
      }
      SettledAll(ops, op, paid, bets);
      return AllPaid([op] + paid);
    }

    /** The payout loop of resolve_round, over the winners in some order, up to the first
        prize that overflows. */
    method PayAll(winners: set<Bet>, round: RoundId)
      returns (paid: seq<Operation>, ghost bets: seq<Bet>, fits: bool)
      requires Valid()
      modifies this`state, this`unsynced, clock, log
      ensures Valid() && log.operations == old(log.operations) + paid
      ensures unsynced == if online then old(unsynced) else old(unsynced) + paid
      ensures Elems(log.operations) == Elems(old(log.operations)) + Elems(paid)
      ensures fits <==> forall b :: b in winners ==> b.Prize() < TWO_64
      ensures if fits then Elems(bets) == winners else Elems(bets) < winners
      ensures PaysInOrder(Elems(old(log.operations)), paid, bets, round, replica)
    {
      ghost var log0, queue0 := log.operations, unsynced;
      ghost var done: set<Bet> := {};
      var left := winners;
      paid, bets := [], [];
      while left != {}
        invariant left <= winners && done == winners - left && Valid()
        invariant PaidUpTo(log0, queue0, log.operations, unsynced, online, paid, bets, done, round, replica)
        decreases |left|
      {
        var b :| b in left;
        if TWO_64 <= b.Prize() {
          ElemsConcat(log0, paid);
          return paid, bets, false;
        }
        TakeOne(winners, left, done, b);
        ghost var log1, queue1 := log.operations, unsynced;
        var op := Record(ApplyPayout(PayoutId(round, b.id), b.player, round, b.Prize()));
        PaidOneMore(log0, queue0, log1, queue1, online, paid, bets, done, round, replica, op, b);
        paid, bets := paid + [op], bets + [b];
        left, done := left - {b}, done + {b};
      }
      ElemsConcat(log0, paid);
      assert winners - {} == winners;
      fits := true;
    }
  }

  // ---- resolving ----

  /** The payouts so far: one per bet that is done, in the log and, while offline, in the queue. */
  ghost predicate PaidUpTo(log0: seq<Operation>, queue0: seq<Operation>, log: seq<Operation>, queue: seq<Operation>,
                           online: bool, paid: seq<Operation>, bets: seq<Bet>, done: set<Bet>, round: RoundId,
                           r: ReplicaId)
  {
    && log == log0 + paid && queue == (if online then queue0 else queue0 + paid)
    && Elems(bets) == done && (forall b :: b in done ==> b.Prize() < TWO_64)
    && PaysInOrder(Elems(log0), paid, bets, round, r)
  }

  lemma PaidOneMore(log0: seq<Operation>, queue0: seq<Operation>, log: seq<Operation>, queue: seq<Operation>,
                    online: bool, paid: seq<Operation>, bets: seq<Bet>, done: set<Bet>, round: RoundId, r: ReplicaId,
                    op: Operation, b: Bet)
    requires PaidUpTo(log0, queue0, log, queue, online, paid, bets, done, round, r)
    requires b !in done && b.Prize() < TWO_64 && Appends(Elems(log), op)
    requires PaysBet(op, b, round, r)
    ensures PaidUpTo(log0, queue0, log + [op], if online then queue else queue + [op], online,
                     paid + [op], bets + [b], done + {b}, round, r)
  {
    ElemsConcat(log0, paid);
    PaysOneMore(Elems(log0), paid, bets, round, r, b, op);
    AppendOne(log0, paid, op);
    AppendOne(queue0, paid, op);
    AppendOne([], bets, b);
  }

  /** A resolution, then one payout per bet, each bet once, in some order. */
  ghost predicate PaysBets(log: set<Operation>, recorded: seq<Operation>, paid: set<Bet>, round: RoundId,
                           r: ReplicaId)
  {
    && recorded != [] && recorded[0].replica == r && recorded[0].kind.ResolveRound? && recorded[0].kind.round == round
    && exists bets :: Elems(bets) == paid && PaysInOrder(log + {recorded[0]}, recorded[1..], bets, round, r)
  }

  /** A resolution, then payouts of some but not all winners. */
  ghost predicate PaysSome(log: set<Operation>, recorded: seq<Operation>, winners: set<Bet>, round: RoundId,
                           r: ReplicaId)
  {
    exists done :: done < winners && PaysBets(log, recorded, done, round, r)
  }

  lemma SettledSome(ops: set<Operation>, op: Operation, paid: seq<Operation>, bets: seq<Bet>, winners: set<Bet>)
    requires op.kind.ResolveRound? && PaysInOrder(ops + {op}, paid, bets, op.kind.round, op.replica)
    requires Elems(bets) < winners
    ensures PaysSome(ops, [op] + paid, winners, op.kind.round, op.replica)
  {
    assert ([op] + paid)[1..] == paid;
    assert PaysBets(ops, [op] + paid, Elems(bets), op.kind.round, op.replica);
  }

  /** What is recorded when all winners are paid, and what comes of it: the round shows the
      dice; the winning bets on it get their payouts, and nobody else; if bet ids are
      distinct, balances and the resolver's rights rise by exactly what was owed; and if
      nobody bet, the resolution stands alone and pays nobody. */
  ghost predicate Settles(s: State, ops: set<Operation>, recorded: seq<Operation>, t: State, round: RoundId,
                          dice: nat, r: ReplicaId)
  {
    && recorded != [] && recorded[0].kind == Kind.ResolveRound(round, dice)
    && PaysBets(ops, recorded, Winners(VisibleBets(s), round, dice), round, r)
    && PaysStakes(s, ops, recorded[1..], round, dice)
    && RoundPhase(t, round) == Some(Resolved) && t.roundViews[round].result == Some(dice)
    && (DistinctBetIds(VisibleBets(s)) ==> Prizes(s, t, Winners(VisibleBets(s), round, dice), round, r))
    && (NobodyBet(s, ops, round) ==> |recorded| == 1 && Changes(s, t, 0, 0, 0, 0))
  }

  lemma SettledAll(ops: set<Operation>, op: Operation, paid: seq<Operation>, bets: seq<Bet>)
    requires Appends(ops, op) && op.kind.ResolveRound? && Accepts(Replay(ops), op)
    requires PaysInOrder(ops + {op}, paid, bets, op.kind.round, op.replica)
    requires Elems(bets) == Winners(VisibleBets(Replay(ops)), op.kind.round, op.kind.dice)
    ensures Settles(Replay(ops), ops, [op] + paid, Replay(ops + {op} + Elems(paid)), op.kind.round, op.kind.dice,
                    op.replica)
  {
    var s := Replay(ops);
    assert ([op] + paid)[1..] == paid && DistinctIds(ops);
    ResolvedAndPaid(ops, op, paid, bets);
    WinnersArePaid(ops, ops + {op}, paid, bets, op.kind.round, op.kind.dice, op.replica);
    if NobodyBet(s, ops, op.kind.round) {
      NobodyPaid(s, ops, paid, op.kind.round, op.kind.dice);
      assert ops + {op} + Elems(paid) == ops + {op};
      ReplayExtend(ops, op);
      RoundResolved(s, op);
    }
  }

  lemma ResolvedKeepsBets(ops: set<Operation>, x: Operation)
    requires Appends(ops, x) && x.kind.ResolveRound?
    requires RoundPhase(Replay(ops), x.kind.round) == Some(BettingClosed) && 1 <= x.kind.dice <= 6
    ensures Accepts(Replay(ops), x)
    ensures VisibleBets(Replay(ops + {x})) == VisibleBets(Replay(ops))
  {
    ReplayExtend(ops, x);
    RoundResolved(Replay(ops), x);
  }

  lemma RecordAppends(before: seq<Operation>, op: Operation)
    requires NoRepeats(before) && op.id !in SeqIds(before)
    requires forall x :: x in before ==> x.time < op.time
    ensures Appends(Elems(before), op)
    ensures Elems(before + [op]) == Elems(before) + {op}
    ensures Replay(Elems(before + [op])) == Step(Replay(Elems(before)), op)
  {
    NoRepeatsDistinct(before);
    forall x | x in Elems(before) ensures x.id != op.id {
      var i :| 0 <= i < |before| && before[i] == x;
    }
    assert Elems(before + [op]) == Elems(before) + {op};
    ReplayExtend(Elems(before), op);
  }
}
