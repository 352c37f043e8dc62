/** What the replayed ledgers guarantee, for every log with distinct ids and hence
    after every prefix of its replay: the redundant ledgers agree, rights go negative
    only by accepting an oversized amount, and otherwise a balance differs from the
    remaining rights by exactly the chips that the joins did not turn into rights. */
module Ledgers {
  import opened Operations
  import opened MapSums
  import opened Counters
  import opened Merges
  import opened BetState
  import opened Replays
  import opened Accounting

  // ---- rights stay non-negative ----

  /** The guards under which an accepted operation was admitted. */
  ghost predicate Guarded(c: Counter, x: Operation, p: PlayerId) {
    && (IsBet(x, p) ==> AsI64(x.kind.amount) <= Available(c, x.replica))
    && (IsTransfer(x, p) ==> AsI64(x.kind.amount) <= Available(c, x.kind.from))
    && (IsPayout(x, p) ==> x.kind.payout !in c.grants)
  }

  /** The amounts for which the guards mean what they say: up to the cast, or moved
      from a replica to itself. */
  predicate CastSafe(x: Operation, p: PlayerId) {
    && (IsBet(x, p) ==> x.kind.amount < TWO_63)
    && (IsTransfer(x, p) ==> x.kind.amount < TWO_63 || x.kind.from == x.kind.to)
  }

  /** Rights and amounts are in the range of their machine types. */
  ghost predicate InRange(c: Counter, x: Operation, p: PlayerId) {
    && (forall r :: Rights(c, r) < TWO_63)
    && (IsBet(x, p) || IsTransfer(x, p) ==> x.kind.amount < TWO_64)
  }

  lemma SolventAfter(s: State, x: Operation, accepted: bool, p: PlayerId)
    requires Solvent(CounterOf(s, p)) && OutgoingFits(CounterOf(s, p))
    requires x.id !in CounterOf(s, p).spends && x.id !in CounterOf(s, p).transfers
    requires accepted ==> Guarded(CounterOf(s, p), x, p)
    ensures (accepted ==> CastSafe(x, p)) ==>
              Solvent(CounterAfter(s, x, accepted, p)) && OutgoingFits(CounterAfter(s, x, accepted, p))
    ensures InRange(CounterOf(s, p), x, p) ==>
              (Solvent(CounterAfter(s, x, accepted, p)) <==> (accepted ==> CastSafe(x, p)))
  {
    var c := CounterOf(s, p);
    if IsJoin(x, p) {
      RaisingKeepsSolvent(c, MergeMax(c.initial, JoinRights(x)));
    } else if IsBet(x, p) && accepted {
      assert CounterAfter(s, x, accepted, p) == RecordSpend(c, x.id, x.replica, x.kind.amount);
      SolventAfterBet(c, x.id, x.replica, x.kind.amount);
    } else if IsPayout(x, p) && accepted {
      GrantKeepsSolvent(c, x.kind.payout, x.replica, x.kind.amount);
    } else if IsTransfer(x, p) && accepted {
      assert CounterAfter(s, x, accepted, p) == RecordTransfer(c, x.id, x.kind.from, x.kind.to, x.kind.amount);
      SolventAfterTransfer(c, x.id, x.kind.from, x.kind.to, x.kind.amount);
    }
  }

  lemma SolventAfterBet(c: Counter, id: OpId, r: ReplicaId, amount: nat)
    requires Solvent(c) && OutgoingFits(c) && id !in c.spends && AsI64(amount) <= Available(c, r)
    ensures amount < TWO_63 ==> Solvent(RecordSpend(c, id, r, amount)) && OutgoingFits(RecordSpend(c, id, r, amount))
    ensures Rights(c, r) < TWO_63 ==> (Solvent(RecordSpend(c, id, r, amount)) <==> amount < TWO_63)
  {
    SpendKeepsSolvent(c, id, r, amount);
  }

  lemma SolventAfterTransfer(c: Counter, id: OpId, from: ReplicaId, to: ReplicaId, amount: nat)
    requires Solvent(c) && OutgoingFits(c) && id !in c.transfers && AsI64(amount) <= Available(c, from)
    ensures var d := RecordTransfer(c, id, from, to, amount);
            && (amount < TWO_63 || from == to ==> Solvent(d) && OutgoingFits(d))
            && (Rights(c, from) < TWO_63 ==> (Solvent(d) <==> amount < TWO_63 || from == to))
  {
    TransferKeepsSolvent(c, id, from, to, amount);
  }

  /** One step of a replay, as p's ledgers see it. */
  ghost predicate Legitimate(s: State, x: Operation, accepted: bool, t: State, p: PlayerId) {
    && Effect(s, x, accepted, t, p)
    && x.id !in CounterOf(s, p).spends && x.id !in CounterOf(s, p).transfers
    && (accepted ==> Guarded(CounterOf(s, p), x, p))
  }

  lemma AcceptedIsGuarded(s: State, x: Operation, p: PlayerId)
    requires x.id !in CounterOf(s, p).spends && x.id !in CounterOf(s, p).transfers
    requires x.kind.ApplyPayout? && x.kind.payout !in s.payouts ==> x.kind.payout !in CounterOf(s, p).grants
    requires Accepts(s, x)
    ensures Guarded(CounterOf(s, p), x, p)
  {
  }

  lemma StepLegitimate(s: State, ops: set<Operation>, x: Operation, p: PlayerId)
    requires Appends(ops, x) && Accounted(s, ops, p)
    ensures Legitimate(s, x, Accepts(s, x), Step(s, x), p)
  {
    IdsAreNew(s, ops, x, p);
    if Accepts(s, x) {
      AcceptedIsGuarded(s, x, p);
    }
    ApplyEffect(s, x, Funded(s, x), p);
  }

  lemma {:induction false} ReplayLegitimate(ops: set<Operation>, p: PlayerId)
    requires DistinctIds(ops) && ops != {}
    ensures var x := Last(ops); var s := Replay(ops - {x}); Legitimate(s, x, Accepts(s, x), Replay(ops), p)
  {
    var x := Last(ops);
    LastAppends(ops);
    ReplayAccounted(ops - {x}, p);
    StepLegitimate(Replay(ops - {x}), ops - {x}, x, p);
  }

  lemma SolventStep(s: State, x: Operation, accepted: bool, t: State, p: PlayerId)
    requires Legitimate(s, x, accepted, t, p) && Solvent(CounterOf(s, p)) && OutgoingFits(CounterOf(s, p))
    ensures (accepted ==> CastSafe(x, p)) ==> Solvent(CounterOf(t, p)) && OutgoingFits(CounterOf(t, p))
    ensures InRange(CounterOf(s, p), x, p) ==> (Solvent(CounterOf(t, p)) <==> (accepted ==> CastSafe(x, p)))
  {
    SolventAfter(s, x, accepted, p);
  }

  /** No oversized bet or transfer of p was accepted. */
  ghost predicate AmountsFit(ops: set<Operation>, p: PlayerId) {
    forall x :: x in ops && x.id !in Replay(ops).rejected ==> CastSafe(x, p)
  }

  lemma AmountsFitWithoutLast(ops: set<Operation>, p: PlayerId)
    requires DistinctIds(ops) && ops != {} && AmountsFit(ops, p)
    ensures AmountsFit(ops - {Last(ops)}, p)
    ensures Accepts(Replay(ops - {Last(ops)}), Last(ops)) ==> CastSafe(Last(ops), p)
  {
    var x := Last(ops);
    LastAppends(ops);
    StepVerdict(ops - {x}, x);
    assert ops - {x} + {x} == ops;
  }

  /** Replay keeps every player's rights non-negative on every replica. */
  lemma {:induction false} ReplaySolvent(ops: set<Operation>, p: PlayerId)
    requires DistinctIds(ops) && AmountsFit(ops, p)
    ensures Solvent(CounterOf(Replay(ops), p)) && OutgoingFits(CounterOf(Replay(ops), p))
    decreases |ops|
  {
    if ops == {} {
      EmptySolvent();
    } else {
      var x := Last(ops);
      var rest := ops - {x};
      AmountsFitWithoutLast(ops, p);
      ReplaySolvent(rest, p);
      ReplayLegitimate(ops, p);
      SolventStep(Replay(rest), x, Accepts(Replay(rest), x), Replay(ops), p);
    }
  }

  /** The log up to and with x. */
  ghost function Through(ops: set<Operation>, x: Operation): set<Operation> {
    Prefix(ops, x) + {x}
  }

  lemma ThroughIsReplayed(ops: set<Operation>, x: Operation)
    requires DistinctIds(ops) && x in ops
    ensures DistinctIds(Prefix(ops, x)) && Appends(Prefix(ops, x), x)
    ensures Replay(Through(ops, x)) == Step(Replay(Prefix(ops, x)), x)
  {
    ReplayExtend(Prefix(ops, x), x);
  }

  lemma ThroughVerdict(ops: set<Operation>, x: Operation, y: Operation)
    requires DistinctIds(ops) && x in ops && y in Through(ops, x)
    ensures y.id in Replay(Through(ops, x)).rejected <==> y.id in Replay(ops).rejected
  {
    ThroughPrefix(ops, x, y);
    DistinctWithin(Through(ops, x), ops);
    VerdictAtPlace(ops, y);
    VerdictAtPlace(Through(ops, x), y);
  }

  lemma ThroughPrefix(ops: set<Operation>, x: Operation, y: Operation)
    requires x in ops && y in Through(ops, x)
    ensures y in ops && Through(ops, x) <= ops && Prefix(Through(ops, x), y) == Prefix(ops, y)
  {
  }

  lemma DistinctWithin(small: set<Operation>, large: set<Operation>)
    requires small <= large && DistinctIds(large)
    ensures DistinctIds(small)
  {
  }

  /** With rights and amounts in range, rights are non-negative all along the replay
      exactly when no oversized amount is accepted. */
  lemma {:induction false} RightsExactly(ops: set<Operation>, p: PlayerId)
    requires DistinctIds(ops)
    requires forall x :: x in ops ==> InRange(CounterOf(Replay(Prefix(ops, x)), p), x, p)
    ensures (forall x :: x in ops ==> Solvent(CounterOf(Replay(Through(ops, x)), p))) <==> AmountsFit(ops, p)
  {
    if AmountsFit(ops, p) {
      forall x | x in ops ensures Solvent(CounterOf(Replay(Through(ops, x)), p)) {
        SolventThrough(ops, x, p);
      }
    }
    if forall x :: x in ops ==> Solvent(CounterOf(Replay(Through(ops, x)), p)) {
      forall x | x in ops && x.id !in Replay(ops).rejected ensures CastSafe(x, p) {
        AcceptedFits(ops, x, p);
      }
    }
  }

  lemma SolventThrough(ops: set<Operation>, x: Operation, p: PlayerId)
    requires DistinctIds(ops) && x in ops && AmountsFit(ops, p)
    ensures Solvent(CounterOf(Replay(Through(ops, x)), p))
  {
    FitThrough(ops, x, p);
    DistinctWithin(Through(ops, x), ops);
    ReplaySolvent(Through(ops, x), p);
  }

  lemma FitThrough(ops: set<Operation>, x: Operation, p: PlayerId)
    requires DistinctIds(ops) && x in ops && AmountsFit(ops, p)
    ensures AmountsFit(Through(ops, x), p)
  {
    forall y | y in Through(ops, x) && y.id !in Replay(Through(ops, x)).rejected ensures CastSafe(y, p) {
      ThroughVerdict(ops, x, y);
    }
  }

  /** By induction over what sorts before x: there no oversized amount was accepted, so
      the rights the guard looked at were not more than there were. */
  lemma {:induction false} AcceptedFits(ops: set<Operation>, x: Operation, p: PlayerId)
    requires DistinctIds(ops) && x in ops && x.id !in Replay(ops).rejected
    requires forall y :: y in ops ==> InRange(CounterOf(Replay(Prefix(ops, y)), p), y, p)
    requires forall y :: y in ops ==> Solvent(CounterOf(Replay(Through(ops, y)), p))
    ensures CastSafe(x, p)
    decreases Prefix(ops, x)
  {
    var before := Prefix(ops, x);
    ThroughIsReplayed(ops, x);
    forall y | y in before && y.id !in Replay(before).rejected ensures CastSafe(y, p) {
      PrefixVerdict(ops, x, y);
      assert y !in Prefix(ops, y);
      AcceptedFits(ops, y, p);
    }
    ReplaySolvent(before, p);
    AcceptedStepFits(ops, x, p);
  }

  lemma PrefixVerdict(ops: set<Operation>, x: Operation, y: Operation)
    requires DistinctIds(ops) && x in ops && y in Prefix(ops, x)
    ensures y in ops && Prefix(ops, y) <= Prefix(ops, x)
    ensures y.id in Replay(Prefix(ops, x)).rejected <==> y.id in Replay(ops).rejected
  {
    PrefixOfPrefix(ops, x, y);
    DistinctWithin(Prefix(ops, x), ops);
    VerdictAtPlace(ops, y);
    VerdictAtPlace(Prefix(ops, x), y);
  }

  lemma PrefixOfPrefix(ops: set<Operation>, x: Operation, y: Operation)
    requires y in Prefix(ops, x)
    ensures Prefix(Prefix(ops, x), y) == Prefix(ops, y) && Prefix(ops, y) <= Prefix(ops, x)
  {
  }

  lemma AcceptedStepFits(ops: set<Operation>, x: Operation, p: PlayerId)
    requires DistinctIds(ops) && x in ops && x.id !in Replay(ops).rejected
    requires InRange(CounterOf(Replay(Prefix(ops, x)), p), x, p)
    requires Solvent(CounterOf(Replay(Prefix(ops, x)), p)) && OutgoingFits(CounterOf(Replay(Prefix(ops, x)), p))
    requires Solvent(CounterOf(Replay(Through(ops, x)), p))
    ensures CastSafe(x, p)
  {
    var before := Prefix(ops, x);
    ThroughIsReplayed(ops, x);
    VerdictAtPlace(ops, x);
    ReplayAccounted(before, p);
    StepLegitimate(Replay(before), before, x, p);
    SolventStep(Replay(before), x, true, Replay(Through(ops, x)), p);
  }

  // ---- what the program reports ----

  /** The rights and prizes of p that the casts keep as they are. */
  predicate IncomeSafe(x: Operation, p: PlayerId) {
    && (IsJoin(x, p) ==> forall r :: r in JoinRights(x) ==> JoinRights(x)[r] < TWO_63)
    && (IsPayout(x, p) ==> x.kind.amount < TWO_63)
  }

  lemma {:induction false} ReplayIncomeFits(ops: set<Operation>, p: PlayerId)
    requires DistinctIds(ops) && forall x :: x in ops ==> IncomeSafe(x, p)
    ensures IncomeFits(CounterOf(Replay(ops), p))
  {
    var c := CounterOf(Replay(ops), p);
    ReplayAccounted(ops, p);
    forall pid | pid in c.grants ensures c.grants[pid].amount < TWO_63 {
      var x :| x in ops && IsPayout(x, p) && x.kind.payout == pid && x.id !in Replay(ops).rejected;
    }
    forall r | r in c.initial ensures c.initial[r] < TWO_63 {
      InitialRights(ops, p, r);
      InitialFits(c.initial, ops, p, r);
    }
  }

  lemma InitialFits(initial: map<ReplicaId, nat>, ops: set<Operation>, p: PlayerId, r: ReplicaId)
    requires InitialMatches(initial, ops, p, r) && forall x :: x in ops ==> IncomeSafe(x, p)
    ensures Of(initial, r) < TWO_63
  {
    if Of(initial, r) != 0 {
      var x :| x in ops && IsJoin(x, p) && GivenTo(x, r) == Of(initial, r);
      assert IncomeSafe(x, p) && GivenTo(x, r) == Of(JoinRights(x), r);
      assert r in JoinRights(x);
    }
  }

  /** Where all amounts of p fit, the program reports exactly the rights there are; and
      where only what went out fits, never more. */
  lemma ReportsExactly(ops: set<Operation>, p: PlayerId, r: ReplicaId)
    requires DistinctIds(ops) && AmountsFit(ops, p)
    ensures AvailableRights(Replay(ops), p, r) <= Rights(CounterOf(Replay(ops), p), r)
    ensures (forall x :: x in ops ==> IncomeSafe(x, p)) ==>
              && AvailableRights(Replay(ops), p, r) == Rights(CounterOf(Replay(ops), p), r)
              && TotalRemaining(CounterOf(Replay(ops), p)) == TotalRights(CounterOf(Replay(ops), p))
  {
    var c := CounterOf(Replay(ops), p);
    ReplaySolvent(ops, p);
    AvailableAtMostRights(c, r);
    EmptyRights(r);
    if forall x :: x in ops ==> IncomeSafe(x, p) {
      ReplayIncomeFits(ops, p);
      RemainingIsRights(c);
    }
  }

  // ---- the PN-counter and the bounded counter agree ----

  ghost function JoinChips(ops: set<Operation>, p: PlayerId): map<Operation, int> {
    map x | x in ops && IsJoin(x, p) :: x.kind.chips
  }

  ghost function JoinChipsAt(ops: set<Operation>, p: PlayerId, r: ReplicaId): map<Operation, int> {
    map x | x in ops && IsJoin(x, p) && x.replica == r :: x.kind.chips
  }

  /** All the chips that p's joins brought to the table. */
  ghost function Chips(ops: set<Operation>, p: PlayerId): int {
    Sum(JoinChips(ops, p))
  }

  ghost function ChipsAt(ops: set<Operation>, p: PlayerId, r: ReplicaId): int {
    Sum(JoinChipsAt(ops, p, r))
  }

  lemma ChipsStep(ops: set<Operation>, x: Operation, p: PlayerId, r: ReplicaId)
    requires x !in ops
    ensures Chips(ops + {x}, p) == Chips(ops, p) + if IsJoin(x, p) then x.kind.chips else 0
    ensures ChipsAt(ops + {x}, p, r)
         == ChipsAt(ops, p, r) + if IsJoin(x, p) && x.replica == r then x.kind.chips else 0
  {
    TotalChipsStep(ops, x, p);
    if IsJoin(x, p) && x.replica == r {
      assert JoinChipsAt(ops + {x}, p, r) == JoinChipsAt(ops, p, r)[x := x.kind.chips];
      SumPut(JoinChipsAt(ops, p, r), x, x.kind.chips);
    } else {
      assert JoinChipsAt(ops + {x}, p, r) == JoinChipsAt(ops, p, r);
    }
  }

  lemma TotalChipsStep(ops: set<Operation>, x: Operation, p: PlayerId)
    requires x !in ops
    ensures Chips(ops + {x}, p) == Chips(ops, p) + if IsJoin(x, p) then x.kind.chips else 0
  {
    if IsJoin(x, p) {
      assert JoinChips(ops + {x}, p) == JoinChips(ops, p)[x := x.kind.chips];
      SumPut(JoinChips(ops, p), x, x.kind.chips);
    } else {
      assert JoinChips(ops + {x}, p) == JoinChips(ops, p);
    }
  }

  ghost predicate LedgersAgree(b: PNCounter, c: Counter, ops: set<Operation>, p: PlayerId) {
    && (forall r :: Of(b.decrements, r) == Held(c.spends, r))
    && (forall r :: Of(b.increments, r) == ChipsAt(ops, p, r) + Held(c.grants, r))
    && Sum<ReplicaId>(b.decrements) == Total(c.spends)
    && Sum<ReplicaId>(b.increments) == Chips(ops, p) + Total(c.grants)
  }

  lemma DecrementSum(b: PNCounter, r: ReplicaId, amount: nat)
    ensures Sum<ReplicaId>(Decrement(b, r, amount).decrements) == Sum<ReplicaId>(b.decrements) + amount
  {
    SumPut<ReplicaId>(b.decrements, r, Of(b.decrements, r) + amount);
  }

  lemma IncrementSum(b: PNCounter, r: ReplicaId, amount: nat)
    ensures Sum<ReplicaId>(Increment(b, r, amount).increments) == Sum<ReplicaId>(b.increments) + amount
  {
    SumPut<ReplicaId>(b.increments, r, Of(b.increments, r) + amount);
  }

  lemma BetKeepsLedgers(b: PNCounter, c: Counter, ops: set<Operation>, x: Operation, p: PlayerId)
    requires LedgersAgree(b, c, ops, p) && x !in ops && IsBet(x, p) && x.id !in c.spends
    ensures LedgersAgree(Decrement(b, x.replica, x.kind.amount),
                         RecordSpend(c, x.id, x.replica, x.kind.amount), ops + {x}, p)
  {
    DecrementSum(b, x.replica, x.kind.amount);
    TotalPut(c.spends, x.id, Entry(x.replica, x.kind.amount));
    forall r
      ensures Of(Decrement(b, x.replica, x.kind.amount).decrements, r)
           == Held(RecordSpend(c, x.id, x.replica, x.kind.amount).spends, r)
      ensures ChipsAt(ops + {x}, p, r) == ChipsAt(ops, p, r)
    {
      HeldPut(c.spends, x.id, Entry(x.replica, x.kind.amount), r);
      ChipsStep(ops, x, p, r);
    }
    ChipsStep(ops, x, p, 0);
  }

  lemma PayoutKeepsLedgers(b: PNCounter, c: Counter, ops: set<Operation>, x: Operation, p: PlayerId)
    requires LedgersAgree(b, c, ops, p) && x !in ops && IsPayout(x, p) && x.kind.payout !in c.grants
    ensures LedgersAgree(Increment(b, x.replica, x.kind.amount),
                         Grant(c, x.kind.payout, x.replica, x.kind.amount), ops + {x}, p)
  {
    IncrementSum(b, x.replica, x.kind.amount);
    TotalPut(c.grants, x.kind.payout, Entry(x.replica, x.kind.amount));
    forall r
      ensures Of(Increment(b, x.replica, x.kind.amount).increments, r)
           == ChipsAt(ops + {x}, p, r) + Held(Grant(c, x.kind.payout, x.replica, x.kind.amount).grants, r)
    {
      HeldPut(c.grants, x.kind.payout, Entry(x.replica, x.kind.amount), r);
      ChipsStep(ops, x, p, r);
    }
    ChipsStep(ops, x, p, 0);
  }

  lemma JoinKeepsLedgers(b: PNCounter, c: Counter, initial: map<ReplicaId, nat>, ops: set<Operation>,
                         x: Operation, p: PlayerId)
    requires LedgersAgree(b, c, ops, p) && x !in ops && IsJoin(x, p)
    ensures LedgersAgree(Increment(b, x.replica, x.kind.chips), c.(initial := initial), ops + {x}, p)
  {
    IncrementSum(b, x.replica, x.kind.chips);
    forall r
      ensures Of(Increment(b, x.replica, x.kind.chips).increments, r) == ChipsAt(ops + {x}, p, r) + Held(c.grants, r)
    {
      ChipsStep(ops, x, p, r);
    }
    ChipsStep(ops, x, p, 0);
  }

  lemma OtherKeepsLedgers(b: PNCounter, c: Counter, d: Counter, ops: set<Operation>, x: Operation, p: PlayerId)
    requires LedgersAgree(b, c, ops, p) && x !in ops && !IsJoin(x, p)
    requires d.spends == c.spends && d.grants == c.grants
    ensures LedgersAgree(b, d, ops + {x}, p)
  {
    forall r ensures ChipsAt(ops + {x}, p, r) == ChipsAt(ops, p, r) {
      ChipsStep(ops, x, p, r);
    }
    ChipsStep(ops, x, p, 0);
  }

  /** How p's balance and counter move together. */
  ghost predicate Moves(b: PNCounter, c: Counter, b': PNCounter, c': Counter, x: Operation, accepted: bool,
                        p: PlayerId)
  {
    if IsJoin(x, p) then
      b' == Increment(b, x.replica, x.kind.chips) && c' == c.(initial := c'.initial)
    else if IsBet(x, p) && accepted then
      b' == Decrement(b, x.replica, x.kind.amount) && c' == RecordSpend(c, x.id, x.replica, x.kind.amount)
    else if IsPayout(x, p) && accepted then
      b' == Increment(b, x.replica, x.kind.amount) && c' == Grant(c, x.kind.payout, x.replica, x.kind.amount)
    else
      b' == b && c'.spends == c.spends && c'.grants == c.grants
  }

  lemma EffectMoves(s: State, x: Operation, accepted: bool, p: PlayerId)
    ensures Moves(BalanceOf(s, p), CounterOf(s, p), BalanceAfter(s, x, accepted, p), CounterAfter(s, x, accepted, p),
                  x, accepted, p)
  {
  }

  lemma LedgersAfter(b: PNCounter, c: Counter, b': PNCounter, c': Counter, ops: set<Operation>,
                     x: Operation, accepted: bool, p: PlayerId)
    requires LedgersAgree(b, c, ops, p) && Moves(b, c, b', c', x, accepted, p)
    requires x !in ops && x.id !in c.spends
    requires accepted && IsPayout(x, p) ==> x.kind.payout !in c.grants
    ensures LedgersAgree(b', c', ops + {x}, p)
  {
    if IsJoin(x, p) {
      JoinKeepsLedgers(b, c, c'.initial, ops, x, p);
    } else if IsBet(x, p) && accepted {
      BetKeepsLedgers(b, c, ops, x, p);
    } else if IsPayout(x, p) && accepted {
      PayoutKeepsLedgers(b, c, ops, x, p);
    } else {
      OtherKeepsLedgers(b, c, c', ops, x, p);
    }
  }

  /** Per player and replica, decrements are that replica's spends and increments are
      the chips it joined with plus the prizes granted to it; and so in total. */
  lemma {:induction false} ReplayLedgers(ops: set<Operation>, p: PlayerId)
    requires DistinctIds(ops)
    ensures LedgersAgree(BalanceOf(Replay(ops), p), CounterOf(Replay(ops), p), ops, p)
    decreases |ops|
  {
    if ops == {} {
      EmptyLedgers(p);
    } else {
      var x := Last(ops);
      var rest := ops - {x};
      ReplayLedgers(rest, p);
      LedgersAfterLast(ops, p);
    }
  }

  lemma LedgersAfterLast(ops: set<Operation>, p: PlayerId)
    requires DistinctIds(ops) && ops != {}
    requires var rest := ops - {Last(ops)};
             LedgersAgree(BalanceOf(Replay(rest), p), CounterOf(Replay(rest), p), rest, p)
    ensures LedgersAgree(BalanceOf(Replay(ops), p), CounterOf(Replay(ops), p), ops, p)
  {
    var x := Last(ops);
    var rest := ops - {x};
    ReplayLegitimate(ops, p);
    assert rest + {x} == ops;
    LedgersStep(Replay(rest), rest, x, Accepts(Replay(rest), x), Replay(ops), p);
  }

  lemma LedgersStep(s: State, ops: set<Operation>, x: Operation, accepted: bool, t: State, p: PlayerId)
    requires Legitimate(s, x, accepted, t, p) && x !in ops
    requires LedgersAgree(BalanceOf(s, p), CounterOf(s, p), ops, p)
    ensures LedgersAgree(BalanceOf(t, p), CounterOf(t, p), ops + {x}, p)
  {
    EffectMoves(s, x, accepted, p);
    LedgersAfter(BalanceOf(s, p), CounterOf(s, p), BalanceOf(t, p), CounterOf(t, p), ops, x, accepted, p);
  }

  lemma EmptyLedgers(p: PlayerId)
    ensures LedgersAgree(EMPTY_PN, EMPTY_COUNTER, {}, p)
  {
    forall r ensures Held<OpId>(map[], r) == 0 && Held<PayoutId>(map[], r) == 0 && ChipsAt({}, p, r) == 0 {
      assert Owned<OpId>(map[], r) == map[];
      assert Owned<PayoutId>(map[], r) == map[];
      assert JoinChipsAt({}, p, r) == map[];
    }
    assert JoinChips({}, p) == map[];
    assert Amounts<OpId>(map[]) == map[] && Amounts<PayoutId>(map[]) == map[];
  }

  // ---- balances ----

  /** A balance is what remains to be spent plus the chips never turned into rights,
      in partial and out-of-order logs too. */
  lemma BalanceIdentity(ops: set<Operation>, p: PlayerId)
    requires DistinctIds(ops) && AmountsFit(ops, p)
    ensures PlayerBalance(Replay(ops), p)
         == TotalRights(CounterOf(Replay(ops), p)) + Chips(ops, p)
            - Sum<ReplicaId>(CounterOf(Replay(ops), p).initial)
    ensures 0 <= TotalRights(CounterOf(Replay(ops), p))
  {
    ReplaySolvent(ops, p);
    Conservation(CounterOf(Replay(ops), p));
    ReplayLedgers(ops, p);
  }

  /** Every join of p hands out no more rights than chips (what join_table and the
      join-split command do). */
  ghost predicate BackedJoins(ops: set<Operation>, p: PlayerId) {
    forall x :: x in ops && IsJoin(x, p) ==> Sum<ReplicaId>(JoinRights(x)) <= x.kind.chips
  }

  lemma EmptyRightsAreBacked(x: Operation)
    requires x.kind.JoinTable? && x.kind.rights == map[]
    ensures Sum<ReplicaId>(JoinRights(x)) == x.kind.chips
  {
    SumPut<ReplicaId>(map[], x.replica, x.kind.chips);
    assert map[][x.replica := x.kind.chips] == JoinRights(x);
  }

  lemma MaxSum(a: map<ReplicaId, nat>, b: map<ReplicaId, nat>)
    ensures Sum<ReplicaId>(MergeMax(a, b)) <= Sum<ReplicaId>(a) + Sum<ReplicaId>(b)
  {
    var keys := a.Keys + b.Keys;
    var wideA := map r | r in keys :: Of(a, r) as int;
    var wideB := map r | r in keys :: Of(b, r) as int;
    var both := map r | r in keys :: wideA[r] + wideB[r];
    SumPad<ReplicaId>(a, wideA);
    SumPad<ReplicaId>(b, wideB);
    SumAdd(wideA, wideB, both);
    SumMono<ReplicaId>(MergeMax(a, b), both);
  }

  lemma {:induction false} BackedRights(ops: set<Operation>, p: PlayerId)
    requires DistinctIds(ops) && BackedJoins(ops, p)
    ensures Sum<ReplicaId>(CounterOf(Replay(ops), p).initial) <= Chips(ops, p)
    decreases |ops|
  {
    if ops == {} {
      assert JoinChips({}, p) == map[];
    } else {
      var x := Last(ops);
      var rest := ops - {x};
      BackedRights(rest, p);
      BackedStep(Replay(rest), rest, x, p);
      assert rest + {x} == ops;
    }
  }

  lemma BackedStep(s: State, ops: set<Operation>, x: Operation, p: PlayerId)
    requires x !in ops
    requires IsJoin(x, p) ==> Sum<ReplicaId>(JoinRights(x)) <= x.kind.chips
    requires Sum<ReplicaId>(CounterOf(s, p).initial) <= Chips(ops, p)
    ensures Sum<ReplicaId>(CounterOf(Step(s, x), p).initial) <= Chips(ops + {x}, p)
  {
    StepInitial(s, x, p);
    TotalChipsStep(ops, x, p);
    if IsJoin(x, p) {
      MaxSum(CounterOf(s, p).initial, JoinRights(x));
    }
  }

  /** No negative balance: with backed joins, a player's balance is at least the
      remaining rights, which are never negative. */
  lemma NoNegativeBalance(ops: set<Operation>, p: PlayerId)
    requires DistinctIds(ops) && AmountsFit(ops, p) && BackedJoins(ops, p)
    ensures PlayerBalance(Replay(ops), p) >= TotalRights(CounterOf(Replay(ops), p)) >= 0
  {
    BalanceIdentity(ops, p);
    BackedRights(ops, p);
  }

  /** Exactly when a balance covers the remaining rights. */
  lemma BalanceCoversRights(ops: set<Operation>, p: PlayerId)
    requires DistinctIds(ops) && AmountsFit(ops, p)
    ensures PlayerBalance(Replay(ops), p) >= TotalRights(CounterOf(Replay(ops), p))
       <==> Sum<ReplicaId>(CounterOf(Replay(ops), p).initial) <= Chips(ops, p)
  {
    BalanceIdentity(ops, p);
  }

  // ---- who was given the initial rights ----

  /** The rights a join names for a replica: its split, or all its chips on the joining
      replica when it names none. */
  function GivenTo(x: Operation, r: ReplicaId): nat
    requires x.kind.JoinTable?
  {
    if x.kind.rights == map[] then if r == x.replica then x.kind.chips else 0
    else Of(x.kind.rights, r)
  }

  ghost predicate InitialMatches(initial: map<ReplicaId, nat>, ops: set<Operation>, p: PlayerId, r: ReplicaId) {
    && (forall x :: x in ops && IsJoin(x, p) ==> GivenTo(x, r) <= Of(initial, r))
    && (Of(initial, r) == 0 || exists x :: x in ops && IsJoin(x, p) && GivenTo(x, r) == Of(initial, r))
  }

  lemma InitialStep(initial: map<ReplicaId, nat>, ops: set<Operation>, x: Operation, p: PlayerId, r: ReplicaId)
    requires InitialMatches(initial, ops, p, r)
    ensures InitialMatches(if IsJoin(x, p) then MergeMax(initial, JoinRights(x)) else initial, ops + {x}, p, r)
  {
    var initial' := if IsJoin(x, p) then MergeMax(initial, JoinRights(x)) else initial;
    assert IsJoin(x, p) ==> Of(initial', r) == Max(Of(initial, r), GivenTo(x, r));
    if Of(initial', r) != 0 {
      if IsJoin(x, p) && Of(initial', r) == GivenTo(x, r) {
        assert x in ops + {x};
      } else {
        var y :| y in ops && IsJoin(y, p) && GivenTo(y, r) == Of(initial, r);
        assert y in ops + {x};
      }
    }
  }

  lemma StepInitial(s: State, x: Operation, p: PlayerId)
    ensures CounterOf(Step(s, x), p).initial
         == if IsJoin(x, p) then MergeMax(CounterOf(s, p).initial, JoinRights(x)) else CounterOf(s, p).initial
  {
    ApplyEffect(s, x, Funded(s, x), p);
  }

  /** Initial rights are, replica by replica, the most that any join of the player gave. */
  lemma {:induction false} InitialRights(ops: set<Operation>, p: PlayerId, r: ReplicaId)
    requires DistinctIds(ops)
    ensures InitialMatches(CounterOf(Replay(ops), p).initial, ops, p, r)
    decreases |ops|
  {
    if ops != {} {
      var x := Last(ops);
      var rest := ops - {x};
      InitialRights(rest, p, r);
      StepInitial(Replay(rest), x, p);
      InitialStep(CounterOf(Replay(rest), p).initial, rest, x, p, r);
      assert rest + {x} == ops;
    }
  }
}
