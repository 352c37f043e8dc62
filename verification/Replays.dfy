/** Deterministic replay (src/domain/state.rs:39-55): a log is sorted by
    (lamport time, replica, id) and folded.  The result is a function of the set
    of operations, growing a log at the end is incremental, and growing it in the
    middle never moves a round backwards. */
module Replays {
  import opened Operations
  import opened BetState

  // ---- the replay of a set of operations ----

  ghost predicate IsLast(x: Operation, ops: set<Operation>) {
    x in ops && forall y :: y in ops ==> !Before(x, y)
  }

  lemma {:induction false} LastExists(ops: set<Operation>)
    requires ops != {}
    ensures exists x :: IsLast(x, ops)
    decreases |ops|
  {
    var a :| a in ops;
    if ops == {a} {
      assert IsLast(a, ops);
    } else {
      var rest := ops - {a};
      assert a !in rest && rest != {};
      LastExists(rest);
      var b :| IsLast(b, rest);
      var x := if Before(b, a) then a else b;
      forall y | y in ops ensures !Before(x, y) {
        assert y == a || y in rest;
        assert y in rest ==> !Before(b, y);
      }
      assert IsLast(x, ops);
    }
  }

  ghost function Last(ops: set<Operation>): (x: Operation)
    requires ops != {}
    ensures IsLast(x, ops)
  {
    LastExists(ops);
    var x :| IsLast(x, ops);
    x
  }

  ghost function Replay(ops: set<Operation>): State
    decreases |ops|
  {
    if ops == {} then START else
      var x := Last(ops);
      Step(Replay(ops - {x}), x)
  }

  lemma LastUnique(ops: set<Operation>, x: Operation)
    requires DistinctIds(ops) && IsLast(x, ops)
    ensures Last(ops) == x
  {
  }

  /** Recording is incremental: an operation that sorts after a log is replayed by
      one step on the old state. */
  lemma ReplayExtend(ops: set<Operation>, x: Operation)
    requires DistinctIds(ops + {x})
    requires forall y :: y in ops ==> Before(y, x)
    ensures Replay(ops + {x}) == Step(Replay(ops), x)
  {
    assert x !in ops;
    assert IsLast(x, ops + {x});
    LastUnique(ops + {x}, x);
    assert ops + {x} - {x} == ops;
  }

  // ---- sorting a vector and folding it ----

  predicate NoRepeats(ops: seq<Operation>) {
    forall i, j :: 0 <= i < j < |ops| ==> ops[i].id != ops[j].id
  }

  ghost predicate IsSorted(ops: seq<Operation>) {
    forall i, j :: 0 <= i < j < |ops| ==> !Before(ops[j], ops[i])
  }

  ghost function Run(s: State, ops: seq<Operation>): State {
    if ops == [] then s else Step(Run(s, ops[..|ops| - 1]), ops[|ops| - 1])
  }

  lemma RunAppend(s: State, ops: seq<Operation>, x: Operation)
    ensures Run(s, ops + [x]) == Step(Run(s, ops), x)
  {
    assert (ops + [x])[..|ops|] == ops;
  }

  lemma RunNext(s: State, ops: seq<Operation>, i: nat)
    requires i < |ops|
    ensures Run(s, ops[..i + 1]) == Step(Run(s, ops[..i]), ops[i])
  {
    RunAppend(s, ops[..i], ops[i]);
    assert ops[..i] + [ops[i]] == ops[..i + 1];
  }

  /** Folding any sorted vector without repeated ids gives the replay of its set:
      the sorting algorithm, and the order the operations arrived in, do not matter. */
  lemma {:induction false} SortedRunIsReplay(ops: seq<Operation>)
    requires IsSorted(ops) && NoRepeats(ops)
    ensures Run(START, ops) == Replay(Elems(ops))
    decreases |ops|
  {
    if ops == [] {
      assert Elems(ops) == {};
    } else {
      var rest, x := ops[..|ops| - 1], ops[|ops| - 1];
      assert ops == rest + [x];
      SortedRunIsReplay(rest);
      SortedSnoc(rest, x);
      NoRepeatsDistinct(ops);
      RunAppend(START, rest, x);
      ReplayExtend(Elems(rest), x);
    }
  }

  lemma SortedSnoc(rest: seq<Operation>, x: Operation)
    requires IsSorted(rest + [x]) && NoRepeats(rest + [x])
    ensures Elems(rest + [x]) == Elems(rest) + {x}
    ensures forall y :: y in Elems(rest) ==> Before(y, x)
  {
    var ops := rest + [x];
    forall y | y in Elems(rest) ensures Before(y, x) {
      var i :| 0 <= i < |rest| && rest[i] == y;
      assert ops[i] == y && ops[|rest|] == x;
      assert !Before(ops[|rest|], ops[i]) && ops[i].id != ops[|rest|].id;
    }
  }

  lemma NoRepeatsDistinct(ops: seq<Operation>)
    requires NoRepeats(ops)
    ensures DistinctIds(Elems(ops))
  {
    forall a, b | a in Elems(ops) && b in Elems(ops) && a.id == b.id ensures a == b {
      var i :| 0 <= i < |ops| && ops[i] == a;
      var j :| 0 <= j < |ops| && ops[j] == b;
      assert i == j;
    }
  }

  lemma PermutationKeepsIds(a: seq<Operation>, b: seq<Operation>)
    requires multiset(a) == multiset(b) && NoRepeats(a)
    ensures NoRepeats(b) && Elems(a) == Elems(b)
  {
    forall x ensures x in a <==> x in b {
      assert x in multiset(a) <==> x in multiset(b);
    }
    NoRepeatsDistinct(a);
    forall i, j | 0 <= i < j < |b| ensures b[i].id != b[j].id {
      if b[i] == b[j] {
        assert b[i] in multiset(b);
        NoRepeatsOnce(a, b[i]);
        TwiceCounts(b, i, j);
      }
    }
  }

  lemma {:induction false} NoRepeatsOnce(a: seq<Operation>, x: Operation)
    requires NoRepeats(a) && x in a
    ensures multiset(a)[x] == 1
  {
    var i :| 0 <= i < |a| && a[i] == x;
    assert a == a[..i] + [x] + a[i + 1..];
    assert x !in a[..i] && x !in a[i + 1..];
  }

  lemma TwiceCounts(b: seq<Operation>, i: nat, j: nat)
    requires i < j < |b| && b[i] == b[j]
    ensures 2 <= multiset(b)[b[i]]
  {
    assert b == b[..i] + [b[i]] + b[i + 1..j] + [b[j]] + b[j + 1..];
  }

  /** What any correct sort followed by the fold computes for a duplicate-free log. */
  lemma AnySortReplays(ops: seq<Operation>, sorted: seq<Operation>)
    requires NoRepeats(ops)
    requires multiset(ops) == multiset(sorted) && IsSorted(sorted)
    ensures Run(START, sorted) == Replay(Elems(ops))
  {
    PermutationKeepsIds(ops, sorted);
    SortedRunIsReplay(sorted);
  }

  // ---- a stable sort ----

  predicate SameKey(a: Operation, b: Operation) {
    !Before(a, b) && !Before(b, a)
  }

  /** The operations with the sort key of x, in order. */
  ghost function WithKey(ops: seq<Operation>, x: Operation): seq<Operation> {
    if ops == [] then []
    else (if SameKey(ops[0], x) then [ops[0]] else []) + WithKey(ops[1..], x)
  }

  /** A sorted permutation that leaves operations with equal keys in their order. */
  ghost predicate StableSort(ops: seq<Operation>, sorted: seq<Operation>) {
    multiset(sorted) == multiset(ops) && IsSorted(sorted) && forall x :: WithKey(sorted, x) == WithKey(ops, x)
  }

  lemma {:induction false} WithKeyConcat(a: seq<Operation>, b: seq<Operation>, x: Operation)
    ensures WithKey(a + b, x) == WithKey(a, x) + WithKey(b, x)
  {
    if a == [] {
      assert a + b == b;
    } else {
      assert (a + b)[1..] == a[1..] + b;
      WithKeyConcat(a[1..], b, x);
    }
  }

  lemma {:induction false} WithKeyEmpty(ops: seq<Operation>, x: Operation)
    ensures WithKey(ops, x) == [] <==> forall y :: y in ops ==> !SameKey(y, x)
  {
    if ops != [] {
      WithKeyEmpty(ops[1..], x);
      assert forall y :: y in ops <==> y == ops[0] || y in ops[1..];
    }
  }

  /** There is only one: a stable sort is a function of its input. */
  lemma {:induction false} StableSortUnique(a: seq<Operation>, b: seq<Operation>)
    requires IsSorted(a) && IsSorted(b) && forall x :: WithKey(a, x) == WithKey(b, x)
    ensures a == b
  {
    NoKeys(a);
    NoKeys(b);
    if a != [] {
      SameFirst(a, b);
      forall x ensures WithKey(a[1..], x) == WithKey(b[1..], x) {
        assert WithKey(a, x) == WithKey(b, x);
        WithKeyTail(a, x);
        WithKeyTail(b, x);
      }
      StableSortUnique(a[1..], b[1..]);
      assert a == [a[0]] + a[1..] && b == [b[0]] + b[1..];
    }
  }

  lemma NoKeys(ops: seq<Operation>)
    ensures ops == [] <==> forall x :: WithKey(ops, x) == []
  {
    if ops == [] {
      forall x ensures WithKey(ops, x) == [] {
      }
    } else {
      assert SameKey(ops[0], ops[0]) && WithKey(ops, ops[0]) != [];
    }
  }

  lemma WithKeyTail(ops: seq<Operation>, x: Operation)
    requires ops != []
    ensures WithKey(ops[1..], x) == if SameKey(ops[0], x) then WithKey(ops, x)[1..] else WithKey(ops, x)
  {
  }

  lemma SameFirst(a: seq<Operation>, b: seq<Operation>)
    requires a != [] && b != [] && IsSorted(a) && IsSorted(b) && forall x :: WithKey(a, x) == WithKey(b, x)
    ensures a[0] == b[0]
  {
    NotLater(a, b);
    NotLater(b, a);
    assert WithKey(a, a[0])[0] == a[0] && WithKey(b, a[0])[0] == b[0];
  }

  lemma NotLater(a: seq<Operation>, b: seq<Operation>)
    requires a != [] && b != [] && IsSorted(a) && WithKey(a, b[0]) == WithKey(b, b[0])
    ensures !Before(b[0], a[0])
  {
    WithKeyEmpty(a, b[0]);
    WithKeyEmpty(b, b[0]);
    assert b[0] in b && SameKey(b[0], b[0]);
    var i :| 0 <= i < |a| && SameKey(a[i], b[0]);
    assert i == 0 || !Before(a[i], a[0]);
  }

  // ---- delivery in any order, with repetitions ----

  /** OperationLog::insert, folded over a sequence of arrivals. */
  function Deliver(log: seq<Operation>, arrivals: seq<Operation>): seq<Operation>
    decreases |arrivals|
  {
    if arrivals == [] then log
    else Deliver(Insert(log, arrivals[0]), arrivals[1..])
  }

  function SeqIds(ops: seq<Operation>): set<OpId> {
    set i | 0 <= i < |ops| :: ops[i].id
  }

  function Insert(log: seq<Operation>, op: Operation): seq<Operation> {
    if op.id in SeqIds(log) then log else log + [op]
  }

  lemma {:induction false} DeliverCollects(log: seq<Operation>, arrivals: seq<Operation>)
    requires NoRepeats(log) && DistinctIds(Elems(log) + Elems(arrivals))
    ensures NoRepeats(Deliver(log, arrivals))
    ensures Elems(Deliver(log, arrivals)) == Elems(log) + Elems(arrivals)
    decreases |arrivals|
  {
    if arrivals != [] {
      var op, rest := arrivals[0], arrivals[1..];
      var next := Insert(log, op);
      assert arrivals == [op] + rest;
      assert Elems(arrivals) == {op} + Elems(rest);
      if op.id in SeqIds(log) {
        var i :| 0 <= i < |log| && log[i].id == op.id;
        assert log[i] in Elems(log) + Elems(arrivals) && op in Elems(log) + Elems(arrivals);
        assert log[i] == op;
      }
      assert Elems(next) == Elems(log) + {op};
      assert Elems(next) + Elems(rest) == Elems(log) + Elems(arrivals);
      DeliverCollects(next, rest);
    }
  }

  /** Strong convergence: two replicas that were delivered the same set of
      operations, in any order and with any repetitions, replay to the same state,
      whatever permutations their sorts produce. */
  lemma {:induction false} StrongConvergence(first: seq<Operation>, second: seq<Operation>,
                          sorted1: seq<Operation>, sorted2: seq<Operation>)
    requires DistinctIds(Elems(first)) && Elems(first) == Elems(second)
    requires multiset(sorted1) == multiset(Deliver([], first)) && IsSorted(sorted1)
    requires multiset(sorted2) == multiset(Deliver([], second)) && IsSorted(sorted2)
    ensures Run(START, sorted1) == Run(START, sorted2) == Replay(Elems(first))
  {
    assert Elems<Operation>([]) + Elems(first) == Elems(first);
    DeliverCollects([], first);
    DeliverCollects([], second);
    AnySortReplays(Deliver([], first), sorted1);
    AnySortReplays(Deliver([], second), sorted2);
  }

  // ---- rounds never go backwards ----

  function PhaseRank(phase: Option<Phase>): nat {
    match phase
    case None => 0
    case Some(Created) => 1
    case Some(BettingOpen) => 2
    case Some(BettingClosed) => 3
    case Some(Resolved) => 4
  }

  function Rank(s: State, round: RoundId): nat {
    PhaseRank(RoundPhase(s, round))
  }

  /** The phase an operation moves a round to, from the phase just below it. */
  function Target(op: Operation, round: RoundId): nat {
    match op.kind
    case CreateRound(r, _) => if r == round then 1 else 0
    case OpenBetting(r) => if r == round then 2 else 0
    case CloseBetting(r) => if r == round then 3 else 0
    case ResolveRound(r, dice) => if r == round && 1 <= dice <= 6 then 4 else 0
    case _ => 0
  }

  ghost predicate Advances(s: State, op: Operation, t: State, round: RoundId) {
    Rank(t, round) == if Target(op, round) == Rank(s, round) + 1 then Rank(s, round) + 1 else Rank(s, round)
  }

  lemma CreateAdvances(s: State, op: Operation, round: RoundId)
    requires op.kind.CreateRound?
    ensures Advances(s, op, ApplyCreateRound(s, op), round)
  {
  }

  lemma OpenAdvances(s: State, op: Operation, round: RoundId)
    requires op.kind.OpenBetting?
    ensures Advances(s, op, ApplyOpen(s, op), round)
  {
  }

  lemma CloseAdvances(s: State, op: Operation, round: RoundId)
    requires op.kind.CloseBetting?
    ensures Advances(s, op, ApplyClose(s, op), round)
  {
  }

  lemma ResolveAdvances(s: State, op: Operation, round: RoundId)
    requires op.kind.ResolveRound?
    ensures Advances(s, op, ApplyResolve(s, op), round)
  {
  }

  lemma BetAdvances(s: State, op: Operation, funded: bool, round: RoundId)
    requires op.kind.PlaceBet?
    ensures Advances(s, op, ApplyBet(s, op, funded), round)
  {
    BetFrame(s, op, funded);
  }

  lemma PayoutAdvances(s: State, op: Operation, round: RoundId)
    requires op.kind.ApplyPayout?
    ensures Advances(s, op, ApplyPayoutOp(s, op), round)
  {
    PayoutFrame(s, op);
  }

  lemma TransferAdvances(s: State, op: Operation, funded: bool, round: RoundId)
    requires op.kind.TransferRights?
    ensures Advances(s, op, ApplyTransfer(s, op, funded), round)
  {
    TransferFrame(s, op, funded);
  }

  /** A round is a four-step automaton that waits for its next operation. */
  lemma RankStep(s: State, op: Operation, round: RoundId)
    ensures Advances(s, op, Step(s, op), round)
  {
    match op.kind
    case CreateRound(_, _) => CreateAdvances(s, op, round);
    case OpenBetting(_) => OpenAdvances(s, op, round);
    case CloseBetting(_) => CloseAdvances(s, op, round);
    case ResolveRound(_, _) => ResolveAdvances(s, op, round);
    case PlaceBet(_, _, _, _, _, _) => BetAdvances(s, op, Funded(s, op), round);
    case ApplyPayout(_, _, _, _) => PayoutAdvances(s, op, round);
    case TransferRights(_, _, _, _) => TransferAdvances(s, op, Funded(s, op), round);
    case _ =>
  }

  /** If one log is contained in another, no round is further along in the smaller
      one, however the extra operations interleave. */
  lemma {:induction false} PhasesMonotone(small: set<Operation>, large: set<Operation>, round: RoundId)
    requires DistinctIds(large) && small <= large
    ensures Rank(Replay(small), round) <= Rank(Replay(large), round)
    decreases |large|
  {
    if large == {} {
      assert small == {};
    } else {
      var x := Last(large);
      if x in small {
        LastUnique(small, x);
        PhasesMonotone(small - {x}, large - {x}, round);
        RankStep(Replay(small - {x}), x, round);
      } else {
        PhasesMonotone(small, large - {x}, round);
      }
      RankStep(Replay(large - {x}), x, round);
    }
  }
}
