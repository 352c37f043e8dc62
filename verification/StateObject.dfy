/** BetSyncState as the program has it: one object updated in place, branch by
    branch, borrowing the CRDT it needs from its maps, changing it and putting it
    back (src/domain/state.rs).  Each branch is proved against BetState.Step. */
module StateObject {
  import opened Operations
  import opened Counters
  import opened Merges
  import opened BetState
  import opened Replays
  import opened CrdtObjects

  class BetSyncState {
    var tableName: Lww<Option<string>>
    var players: OrSet<PlayerId>
    var playerNames: map<PlayerId, Lww<string>>
    var rounds: OrSet<RoundId>
    var roundViews: map<RoundId, RoundView>
    var bets: OrSet<Bet>
    var balances: map<PlayerId, PNCounter>
    var rights: map<PlayerId, Counter>
    var payouts: set<PayoutId>
    var rejected: map<OpId, Reason>

    function Model(): State
      reads this
    {
      State(tableName, players, playerNames, rounds, roundViews, bets, balances, rights, payouts, rejected)
    }

    constructor ()
      ensures Model() == START
    {
      tableName := Lww(None, 0, 0);
      players, playerNames := OrSet(map[], map[]), map[];
      rounds, roundViews := OrSet(map[], map[]), map[];
      bets := OrSet(map[], map[]);
      balances, rights := map[], map[];
      payouts, rejected := {}, map[];
    }

    method Reject(op: Operation, reason: Reason)
      modifies this
      ensures Model() == BetState.Reject(old(Model()), op, reason)
    {
      rejected := rejected[op.id := reason];
    }

    method CreateTable(op: Operation)
      requires op.kind.CreateTable?
      modifies this
      ensures Model() == Step(old(Model()), op)
    {
      var register := new LwwRegister.Of(tableName);
      register.AssignValue(Some(op.kind.name), op.time, op.replica);
      tableName := register.Model();
    }

    method NamePlayer(op: Operation)
      requires op.kind.JoinTable?
      modifies this`playerNames
      ensures playerNames == old(playerNames)[op.kind.player := NameAfterJoin(old(Model()), op)]
    {
      var p := op.kind.player;
      if p in playerNames {
        var register := new LwwRegister.Of(playerNames[p]);
        register.AssignValue(op.kind.displayName, op.time, op.replica);
        playerNames := playerNames[p := register.Model()];
      } else {
        playerNames := playerNames[p := Lww(op.kind.displayName, op.time, op.replica)];
      }
    }

    method GiveRights(op: Operation)
      requires op.kind.JoinTable?
      modifies this`rights
      ensures rights == old(rights)[op.kind.player := CounterOf(old(Model()), op.kind.player).(
                          initial := MergeMax(CounterOf(old(Model()), op.kind.player).initial, JoinRights(op)))]
    {
      var p := op.kind.player;
      var counter := new BoundedCounter.Of(if p in rights then rights[p] else EMPTY_COUNTER);
      if op.kind.rights == map[] {
        counter.AddInitialRights(op.replica, op.kind.chips);
        SingleRight(CounterOf(Model(), p).initial, op.replica, op.kind.chips);
      } else {
        GiveAll(counter, op.kind.rights);
      }
      rights := rights[p := counter.Model()];
    }

    method Credit(p: PlayerId, r: ReplicaId, amount: nat)
      modifies this`balances
      ensures balances == old(balances)[p := Increment(BalanceOf(old(Model()), p), r, amount)]
    {
      var balance := new PositiveNegativeCounter.Of(if p in balances then balances[p] else EMPTY_PN);
      balance.Raise(r, amount);
      balances := balances[p := balance.Model()];
    }

    method JoinTable(op: Operation)
      requires op.kind.JoinTable?
      modifies this
      ensures Model() == Step(old(Model()), op)
    {
      var seats := new ObservedRemoveSet.Of(players);
      seats.Insert(op.kind.player, op.id);
      players := seats.Model();
      NamePlayer(op);
      Credit(op.kind.player, op.replica, op.kind.chips);
      GiveRights(op);
    }

    method LeaveTable(op: Operation)
      requires op.kind.LeaveTable?
      modifies this
      ensures Model() == Step(old(Model()), op)
    {
      var seats := new ObservedRemoveSet.Of(players);
      seats.Remove(op.kind.player);
      players := seats.Model();
    }

    method CreateRound(op: Operation)
      requires op.kind.CreateRound?
      modifies this
      ensures Model() == Step(old(Model()), op)
    {
      var ids := new ObservedRemoveSet.Of(rounds);
      ids.Insert(op.kind.round, op.id);
      rounds := ids.Model();
      if op.kind.round !in roundViews {
        roundViews := roundViews[op.kind.round := NewRound(op.kind.round, op.kind.dealer)];
      }
    }

    method OpenBetting(op: Operation)
      requires op.kind.OpenBetting?
      modifies this
      ensures Model() == Step(old(Model()), op)
    {
      if op.kind.round !in roundViews {
        Reject(op, NoSuchRound);
        return;
      }
      var round := new Round.Of(roundViews[op.kind.round]);
      var ok := round.Open();
      if !ok {
        Reject(op, BadOpen);
        return;
      }
      roundViews := roundViews[op.kind.round := round.View()];
    }

    method CloseBetting(op: Operation)
      requires op.kind.CloseBetting?
      modifies this
      ensures Model() == Step(old(Model()), op)
    {
      if op.kind.round !in roundViews {
        Reject(op, NoSuchRound);
        return;
      }
      var round := new Round.Of(roundViews[op.kind.round]);
      var ok := round.Close();
      if !ok {
        Reject(op, BadClose);
        return;
      }
      roundViews := roundViews[op.kind.round := round.View()];
    }

    method ResolveRound(op: Operation)
      requires op.kind.ResolveRound?
      modifies this
      ensures Model() == Step(old(Model()), op)
    {
      if op.kind.round !in roundViews {
        Reject(op, NoSuchRound);
        return;
      }
      var round := new Round.Of(roundViews[op.kind.round]);
      var ok := round.Resolve(op.kind.dice);
      if !ok {
        Reject(op, BadResolve);
        return;
      }
      roundViews := roundViews[op.kind.round := round.View()];
    }

    /** Ask the player's counter for the stake. */
    method Charge(op: Operation) returns (ok: bool)
      requires op.kind.PlaceBet?
      modifies this`rights
      ensures ok == Funded(old(Model()), op)
      ensures var c := CounterOf(old(Model()), op.kind.player);
              rights == old(rights)[op.kind.player :=
                                       if ok then RecordSpend(c, op.id, op.replica, op.kind.amount) else c]
    {
      var p := op.kind.player;
      var counter := new BoundedCounter.Of(if p in rights then rights[p] else EMPTY_COUNTER);
      ok := counter.TrySpend(op.id, op.replica, op.kind.amount);
      rights := rights[p := counter.Model()];
    }

    /** Put the stake on the table. */
    method Stake(op: Operation)
      requires op.kind.PlaceBet?
      modifies this`balances, this`bets
      ensures bets == Add(old(bets), BetOf(op), op.id)
      ensures balances == old(balances)[op.kind.player :=
                Decrement(BalanceOf(old(Model()), op.kind.player), op.replica, op.kind.amount)]
    {
      var p := op.kind.player;
      var balance := new PositiveNegativeCounter.Of(if p in balances then balances[p] else EMPTY_PN);
      balance.Lower(op.replica, op.kind.amount);
      balances := balances[p := balance.Model()];
      var placed := new ObservedRemoveSet.Of(bets);
      placed.Insert(BetOf(op), op.id);
      bets := placed.Model();
    }

    method PlaceBet(op: Operation)
      requires op.kind.PlaceBet?
      modifies this
      ensures Model() == ApplyBet(old(Model()), op, Funded(old(Model()), op))
    {
      if !Contains(players, op.kind.player) {
        Reject(op, NotJoined);
        return;
      }
      if op.kind.originPhase != BettingOpen {
        Reject(op, OriginNotOpen);
        return;
      }
      if op.kind.round !in roundViews {
        Reject(op, NoSuchRound);
        return;
      }
      var ok := Charge(op);
      if !ok {
        Reject(op, NoRights);
        return;
      }
      Stake(op);
    }

    method ApplyPayout(op: Operation)
      requires op.kind.ApplyPayout?
      modifies this
      ensures Model() == Step(old(Model()), op)
    {
      var p, pid := op.kind.player, op.kind.payout;
      if pid in payouts {
        Reject(op, DuplicatePayout);
        return;
      }
      payouts := payouts + {pid};
      Credit(p, op.replica, op.kind.amount);
      var counter := new BoundedCounter.Of(if p in rights then rights[p] else EMPTY_COUNTER);
      counter.AddGrant(pid, op.replica, op.kind.amount);
      rights := rights[p := counter.Model()];
    }

    /** Ask the player's counter to move the rights. */
    method Move(op: Operation) returns (ok: bool)
      requires op.kind.TransferRights?
      modifies this`rights
      ensures ok == Funded(old(Model()), op)
      ensures var c := CounterOf(old(Model()), op.kind.player);
              rights == old(rights)[op.kind.player :=
                if ok then RecordTransfer(c, op.id, op.kind.from, op.kind.to, op.kind.amount) else c]
    {
      var p := op.kind.player;
      var counter := new BoundedCounter.Of(if p in rights then rights[p] else EMPTY_COUNTER);
      ok := counter.TryTransfer(op.id, op.kind.from, op.kind.to, op.kind.amount);
      rights := rights[p := counter.Model()];
    }

    method TransferRights(op: Operation)
      requires op.kind.TransferRights?
      modifies this
      ensures Model() == ApplyTransfer(old(Model()), op, Funded(old(Model()), op))
    {
      var ok := Move(op);
      if !ok {
        Reject(op, NoRightsToTransfer);
      }
    }

    method ApplyOperation(op: Operation)
      modifies this
      ensures Model() == Step(old(Model()), op)
    {
      match op.kind
      case CreateTable(_) => CreateTable(op);
      case JoinTable(_, _, _, _) => JoinTable(op);
      case LeaveTable(_) => LeaveTable(op);
      case CreateRound(_, _) => CreateRound(op);
      case OpenBetting(_) => OpenBetting(op);
      case PlaceBet(_, _, _, _, _, _) => PlaceBet(op);
      case CloseBetting(_) => CloseBetting(op);
      case ResolveRound(_, _) => ResolveRound(op);
      case ApplyPayout(_, _, _, _) => ApplyPayout(op);
      case TransferRights(_, _, _, _) => TransferRights(op);
    }

    method ApplyAll(ops: seq<Operation>)
      modifies this
      ensures Model() == Run(old(Model()), ops)
    {
      var i := 0;
      ghost var start := Model();
      while i < |ops|
        invariant 0 <= i <= |ops|
        invariant Model() == Run(start, ops[..i])
      {
        RunNext(start, ops, i);
        ApplyOperation(ops[i]);
        i := i + 1;
      }
      assert ops[..|ops|] == ops;
    }

    /** from_operations: sort a copy, fold it. */
    constructor FromOperations(ops: seq<Operation>)
      ensures exists sorted :: StableSort(ops, sorted) && Model() == Run(START, sorted)
      ensures NoRepeats(ops) ==> Model() == Replay(Elems(ops))
    {
      tableName := Lww(None, 0, 0);
      players, playerNames := OrSet(map[], map[]), map[];
      rounds, roundViews := OrSet(map[], map[]), map[];
      bets := OrSet(map[], map[]);
      balances, rights := map[], map[];
      payouts, rejected := {}, map[];
      new;
      var sorted := SortOperations(ops);
      ApplyAll(sorted);
      if NoRepeats(ops) {
        AnySortReplays(ops, sorted);
      }
    }

    method GetBalance(p: PlayerId) returns (balance: int)
      ensures balance == PlayerBalance(Model(), p)
    {
      if p !in balances {
        return 0;
      }
      var counter := new PositiveNegativeCounter.Of(balances[p]);
      balance := counter.GetValue();
    }

    method GetAvailableRights(p: PlayerId, r: ReplicaId) returns (available: int)
      ensures available == AvailableRights(Model(), p, r)
    {
      if p !in rights {
        return 0;
      }
      var counter := new BoundedCounter.Of(rights[p]);
      available := counter.GetAvailable(r);
    }

    method GetVisibleBets() returns (visible: set<Bet>)
      ensures visible == VisibleBets(Model())
    {
      var placed := new ObservedRemoveSet.Of(bets);
      visible := placed.GetElements();
    }
  }

  method GiveAll(counter: BoundedCounter, given: map<ReplicaId, nat>)
    modifies counter
    ensures counter.Model() == old(counter.Model()).(initial := MergeMax(old(counter.initial), given))
  {
    var left := given;
    ghost var before := counter.Model();
    while left != map[]
      invariant counter.Model() == before.(initial := counter.initial)
      invariant MergeMax(counter.initial, left) == MergeMax(before.initial, given)
      decreases |left|
    {
      var r :| r in left;
      MaxStep(counter.initial, left, r, counter.initial[r := Max(Of(counter.initial, r), left[r])]);
      counter.AddInitialRights(r, left[r]);
      left := left - {r};
    }
    MaxDone(counter.initial);
  }

  lemma SingleRight(initial: map<ReplicaId, nat>, r: ReplicaId, amount: nat)
    ensures MergeMax(initial, map[r := amount]) == initial[r := Max(Of(initial, r), amount)]
  {
    var a, b := MergeMax(initial, map[r := amount]), initial[r := Max(Of(initial, r), amount)];
    assert a.Keys == b.Keys;
    forall q | q in b ensures a[q] == b[q] {
    }
  }

  lemma MaxDone(initial: map<ReplicaId, nat>)
    ensures MergeMax(initial, map[]) == initial
  {
    assert MergeMax(initial, map[]).Keys == initial.Keys;
  }

  /** slice::sort_by with the replay's key: a sorted permutation, elements with equal
      keys in their original order. */
  method SortOperations(ops: seq<Operation>) returns (sorted: seq<Operation>)
    ensures StableSort(ops, sorted)
  {
    sorted := [];
    var i := 0;
    while i < |ops|
      invariant 0 <= i <= |ops|
      invariant StableSort(ops[..i], sorted)
    {
      var k := |sorted|;
      while 0 < k && Before(ops[i], sorted[k - 1])
        invariant 0 <= k <= |sorted|
        invariant forall j :: k <= j < |sorted| ==> Before(ops[i], sorted[j])
      {
        k := k - 1;
      }
      InsertAt(sorted, k, ops[i]);
      InsertStable(ops[..i], sorted, k, ops[i]);
      assert ops[..i + 1] == ops[..i] + [ops[i]];
      sorted := sorted[..k] + [ops[i]] + sorted[k..];
      i := i + 1;
    }
    assert ops[..|ops|] == ops;
  }

  lemma InsertAt(sorted: seq<Operation>, k: nat, x: Operation)
    requires IsSorted(sorted) && k <= |sorted|
    requires 0 < k ==> !Before(x, sorted[k - 1])
    requires forall j :: k <= j < |sorted| ==> Before(x, sorted[j])
    ensures IsSorted(sorted[..k] + [x] + sorted[k..])
    ensures multiset(sorted[..k] + [x] + sorted[k..]) == multiset(sorted) + multiset{x}
  {
    assert sorted == sorted[..k] + sorted[k..];
    var s := sorted[..k] + [x] + sorted[k..];
    forall i, j | 0 <= i < j < |s| ensures !Before(s[j], s[i]) {
      if i < k && j == k && i < k - 1 {
        assert !Before(sorted[k - 1], sorted[i]) && !Before(x, sorted[k - 1]);
      }
    }
  }

  lemma InsertStable(ops: seq<Operation>, sorted: seq<Operation>, k: nat, x: Operation)
    requires StableSort(ops, sorted) && k <= |sorted|
    requires forall j :: k <= j < |sorted| ==> Before(x, sorted[j])
    ensures forall y :: WithKey(sorted[..k] + [x] + sorted[k..], y) == WithKey(ops + [x], y)
  {
    forall y ensures WithKey(sorted[..k] + [x] + sorted[k..], y) == WithKey(ops + [x], y) {
      assert sorted == sorted[..k] + sorted[k..] && WithKey(sorted, y) == WithKey(ops, y);
      InsertWithKey(sorted[..k], sorted[k..], x, y);
      WithKeyConcat(ops, [x], y);
    }
  }

  lemma InsertWithKey(low: seq<Operation>, high: seq<Operation>, x: Operation, y: Operation)
    requires forall z :: z in high ==> Before(x, z)
    ensures WithKey(low + [x] + high, y) == WithKey(low + high, y) + WithKey([x], y)
  {
    WithKeyConcat(low, high, y);
    WithKeyConcat(low, [x], y);
    WithKeyConcat(low + [x], high, y);
    if SameKey(x, y) {
      WithKeyEmpty(high, y);
    }
  }
}
