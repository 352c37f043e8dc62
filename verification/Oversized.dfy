/** The amounts for which the guards fail: `amount as i64` is negative from 2^63 up, so
    a seated player's bet and a transfer of any such amount pass every check, with machine
    arithmetic and without any overflow - and the program then reports more rights for
    whoever spent or sent it, not fewer. */
module Oversized {
  import opened Operations
  import opened MapSums
  import opened Counters
  import opened Merges
  import opened BetState
  import opened Replays
  import opened Accounting
  import opened Ledgers
  import opened Views
  import opened Commands
  import opened MachineArithmetic

  // ---- a sum with one wrapped summand ----

  /** All summands but the one at low are non-negative and add up to less than 2^63. */
  ghost predicate OneNegative<K(!new)>(exact: map<K, int>, low: K) {
    && low in exact && -TWO_63 <= exact[low] < 0
    && (forall k :: k in exact && k != low ==> 0 <= exact[k])
    && Sum(exact - {low}) < TWO_63
  }

  lemma OneNegativeFits<K(!new)>(exact: map<K, int>, low: K)
    requires OneNegative(exact, low)
    ensures Sum(exact) == exact[low] + Sum(exact - {low}) && 0 <= Sum(exact - {low}) && FitsI64(Sum(exact))
  {
    SumRemove(exact, low);
    SumNonneg(exact - {low});
  }

  lemma OneNegativeWithout<K(!new)>(exact: map<K, int>, low: K, last: K)
    requires OneNegative(exact, low) && last in exact && last != low
    ensures OneNegative(exact - {last}, low) && Sum(exact) == exact[last] + Sum(exact - {last})
  {
    SumRemove(exact, last);
    assert exact - {last} - {low} == exact - {low} - {last};
    SumWithoutLast(exact - {low}, last);
  }

  /** Exact in every order, although one summand is negative. */
  lemma {:induction false} SumI64OneNegative<K(!new)>(values: map<K, int>, exact: map<K, int>, ks: seq<K>,
                                                      low: K)
    requires Enumerates(ks, exact.Keys) && OneNegative(exact, low)
    requires forall k :: k in exact ==> k in values && values[k] == exact[k]
    ensures SumI64(values, ks) == Some(Sum(exact))
    decreases |ks|
  {
    var last := ks[|ks| - 1];
    assert (exact - {last}).Keys == exact.Keys - {last};
    OneNegativeFits(exact, low);
    if last == low {
      SumI64Exact(values, exact - {last}, ks[..|ks| - 1]);
    } else {
      OneNegativeWithout(exact, low, last);
      SumI64OneNegative(values, exact - {last}, ks[..|ks| - 1], low);
    }
  }

  /** One oversized amount among the entries of a replica overflows no sum. */
  lemma HeldI64Wraps<K(!new)>(m: map<K, Entry>, k: K, r: ReplicaId, amount: nat)
    requires k !in m && TWO_63 <= amount < TWO_64 && Held(m, r) < TWO_63
    ensures HeldI64(m[k := Entry(r, amount)], r) == Some(Held(m, r) + amount - TWO_64)
  {
    var wide := CastOwned(m[k := Entry(r, amount)], r);
    HeldBounds(m, r);
    CastExact(m, r);
    CastOwnedWith(m, k, r, amount);
    OneWrapped(CastOwned(m, r), k, amount);
    SumI64OneNegative(wide, wide, Order(wide.Keys), k);
  }

  lemma CastOwnedWith<K(!new)>(m: map<K, Entry>, k: K, r: ReplicaId, amount: nat)
    requires k !in m && TWO_63 <= amount < TWO_64
    requires forall j :: j in m && m[j].replica == r ==> m[j].amount < TWO_63
    ensures CastOwned(m[k := Entry(r, amount)], r) == CastOwned(m, r)[k := amount - TWO_64]
    ensures k !in CastOwned(m, r) && forall j :: j in CastOwned(m, r) ==> 0 <= CastOwned(m, r)[j]
  {
  }

  lemma OneWrapped<K(!new)>(owned: map<K, int>, k: K, amount: nat)
    requires k !in owned && TWO_63 <= amount < TWO_64 && Sum(owned) < TWO_63
    requires forall j :: j in owned ==> 0 <= owned[j]
    ensures var wide := owned[k := amount - TWO_64];
            OneNegative(wide, k) && Sum(wide) == Sum(owned) + amount - TWO_64
  {
    WithoutNew(owned, k, amount - TWO_64);
    SumRemove(owned[k := amount - TWO_64], k);
  }

  lemma WithoutNew<K(!new)>(m: map<K, int>, k: K, v: int)
    requires k !in m
    ensures m[k := v] - {k} == m
  {
  }

  /** The rights that the program reports, or an overflow where they reach 2^63. */
  ghost predicate Reports(c: Counter, r: ReplicaId, rights: int) {
    AvailableI64(c, r) == if rights < TWO_63 then Some(rights) else None
  }

  /** What the program reports after a spend of 2^63 or more: the rights and what is
      missing from the amount to 2^64. */
  lemma SpendRaisesRights(c: Counter, d: Counter, id: OpId, r: ReplicaId, amount: nat, rights: int)
    requires CounterVolume(c) < TWO_63 && id !in c.spends && TWO_63 <= amount < TWO_64
    requires d == RecordSpend(c, id, r, amount) && rights == Available(c, r) + TWO_64 - amount
    ensures Reports(d, r, rights)
  {
    AvailableParts(c, r);
    SpendParts(c, d, id, r, amount);
    WrappedReport(d, r, Held(c.grants, r), Held(Credits(c.transfers), r), Held(Debits(c.transfers), r),
                  Held(c.spends, r) + amount - TWO_64, rights);
  }

  lemma AvailableParts(c: Counter, r: ReplicaId)
    requires CounterVolume(c) < TWO_63
    ensures Available(c, r) == Of(c.initial, r) + Held(c.grants, r) + Held(Credits(c.transfers), r)
                             - Held(Debits(c.transfers), r) - Held(c.spends, r)
    ensures Of(c.initial, r) + Held(c.grants, r) + Held(Credits(c.transfers), r) < TWO_63
    ensures Held(Debits(c.transfers), r) + Held(c.spends, r) < TWO_63
    ensures 0 <= Held(c.grants, r) && 0 <= Held(Credits(c.transfers), r)
    ensures 0 <= Held(Debits(c.transfers), r) && 0 <= Held(c.spends, r)
  {
    AvailableIsRights(c, r);
    PartsBounded(c, r);
  }

  lemma SpendParts(c: Counter, d: Counter, id: OpId, r: ReplicaId, amount: nat)
    requires CounterVolume(c) < TWO_63 && id !in c.spends && TWO_63 <= amount < TWO_64
    requires Held(c.spends, r) < TWO_63 && d == RecordSpend(c, id, r, amount)
    ensures Parts(d, r, Held(c.grants, r), Held(Credits(c.transfers), r),
                  Held(Debits(c.transfers), r), Held(c.spends, r) + amount - TWO_64)
  {
    PartsExact(c, r);
    HeldI64Wraps(c.spends, id, r, amount);
  }

  lemma WrappedReport(c: Counter, r: ReplicaId, g: int, x: int, y: int, s: int, rights: int)
    requires Parts(c, r, g, x, y, s) && rights == Of(c.initial, r) + g + x - y - s
    requires 0 <= g && 0 <= x && 0 <= y < TWO_63 && Of(c.initial, r) + g + x < TWO_63 && -TWO_63 <= s < TWO_63
    requires -TWO_63 <= rights
    ensures Reports(c, r, rights)
  {
    RightsFromParts(c, r, g, x, y, s);
    SignedSumWraps(Of(c.initial, r), g, x, y, s);
  }

  lemma SignedSumWraps(i: nat, g: int, x: int, y: int, s: int)
    requires 0 <= g && 0 <= x && 0 <= y < TWO_63 && i + g + x < TWO_63 && -TWO_63 <= s < TWO_63
    requires -TWO_63 <= i + g + x - y - s
    ensures var total := i + g + x - y - s;
            Minus(Minus(Plus(Plus(Some(AsI64(i)), Some(g)), Some(x)), Some(y)), Some(s))
            == if total < TWO_63 then Some(total) else None
  {
  }

  // ---- bets ----

  lemma SmallLog(ops: set<Operation>, p: PlayerId, r: ReplicaId)
    requires DistinctIds(ops) && Volume(ops) < TWO_63
    ensures CounterVolume(CounterOf(Replay(ops), p)) < TWO_63
    ensures 0 <= AvailableRights(Replay(ops), p, r) == Rights(CounterOf(Replay(ops), p), r) < TWO_63
    ensures AvailableRights(Replay(ops), p, r) == Available(CounterOf(Replay(ops), p), r)
  {
    VolumeFits(ops, p);
    ReplaySolvent(ops, p);
    ReplayVolume(ops, p);
    AvailableExact(CounterOf(Replay(ops), p), r);
    RightsOfCounter(Replay(ops), p, r);
  }

  /** A small log and, sorting after it, a bet of 2^63 or more of a seated player in an
      open round, whose amount the balance can still count. */
  ghost predicate Exposed(ops: set<Operation>, x: Operation) {
    && Appends(ops, x) && Volume(ops) < TWO_63
    && x.kind.PlaceBet? && x.kind.originPhase == BettingOpen && TWO_63 <= x.kind.amount < TWO_64
    && Contains(Replay(ops).players, x.kind.player) && RoundPhase(Replay(ops), x.kind.round) == Some(BettingOpen)
    && FitsU64(Of(BalanceOf(Replay(ops), x.kind.player).decrements, x.replica) + x.kind.amount)
  }

  lemma ExposedMayBet(ops: set<Operation>, x: Operation)
    requires Exposed(ops, x)
    ensures DistinctIds(ops) && MayBet(Replay(ops), x.replica, x.kind.player, x.kind.round, x.kind.amount)
  {
    assert DistinctIds(ops);
    SmallLog(ops, x.kind.player, x.replica);
  }

  lemma MachineExtend(ops: set<Operation>, x: Operation)
    requires Appends(ops, x) && Volume(ops) < TWO_63
    requires BalanceFits(Replay(ops), x, Accepts(Replay(ops), x))
    ensures MachineReplay(ops + {x}) == Some(Replay(ops + {x}))
  {
    assert DistinctIds(ops);
    MachineReplayExact(ops);
    forall q ensures CounterVolume(CounterOf(Replay(ops), q)) < TWO_63 {
      ReplayVolume(ops, q);
    }
    VerdictExact(Replay(ops), x);
    LastAfter(ops, x);
  }

  lemma LastAfter(ops: set<Operation>, x: Operation)
    requires Appends(ops, x)
    ensures Last(ops + {x}) == x && ops + {x} - {x} == ops && Replay(ops + {x}) == Step(Replay(ops), x)
  {
    ReplayExtend(ops, x);
    LastUnique(ops + {x}, x);
  }

  lemma ExposedCounter(ops: set<Operation>, x: Operation)
    requires Exposed(ops, x)
    ensures x.id !in CounterOf(Replay(ops), x.kind.player).spends
    ensures CounterOf(Replay(ops + {x}), x.kind.player)
         == RecordSpend(CounterOf(Replay(ops), x.kind.player), x.id, x.replica, x.kind.amount)
  {
    ExposedMayBet(ops, x);
    BetAccepted(ops, x);
    AcceptedEffect(Replay(ops), x, x.kind.player);
    ReplayExtend(ops, x);
  }

  lemma ExposedSmall(ops: set<Operation>, x: Operation)
    requires Exposed(ops, x)
    ensures CounterVolume(CounterOf(Replay(ops), x.kind.player)) < TWO_63
    ensures AvailableRights(Replay(ops), x.kind.player, x.replica)
         == Available(CounterOf(Replay(ops), x.kind.player), x.replica)
         == Rights(CounterOf(Replay(ops), x.kind.player), x.replica) < TWO_63
  {
    ExposedMayBet(ops, x);
    SmallLog(ops, x.kind.player, x.replica);
  }

  /** From s to t the rights that the program reports rise by the gain, or overflow. */
  ghost predicate ReportRises(s: State, t: State, p: PlayerId, r: ReplicaId, gain: int) {
    Reports(CounterOf(t, p), r, AvailableRights(s, p, r) + gain)
  }

  lemma SpendRaisesReport(s: State, t: State, p: PlayerId, id: OpId, r: ReplicaId, amount: nat)
    requires CounterVolume(CounterOf(s, p)) < TWO_63 && id !in CounterOf(s, p).spends && TWO_63 <= amount < TWO_64
    requires CounterOf(t, p) == RecordSpend(CounterOf(s, p), id, r, amount)
    requires AvailableRights(s, p, r) == Available(CounterOf(s, p), r)
    ensures ReportRises(s, t, p, r, TWO_64 - amount)
  {
    SpendRaisesRights(CounterOf(s, p), CounterOf(t, p), id, r, amount, AvailableRights(s, p, r) + (TWO_64 - amount));
  }

  lemma ExposedReport(ops: set<Operation>, x: Operation)
    requires Exposed(ops, x)
    ensures ReportRises(Replay(ops), Replay(ops + {x}), x.kind.player, x.replica, TWO_64 - x.kind.amount)
  {
    ExposedSmall(ops, x);
    ExposedCounter(ops, x);
    SpendRaisesReport(Replay(ops), Replay(ops + {x}), x.kind.player, x.id, x.replica, x.kind.amount);
  }

  lemma ExposedOverdraws(ops: set<Operation>, x: Operation)
    requires Exposed(ops, x)
    ensures Rights(CounterOf(Replay(ops + {x}), x.kind.player), x.replica) < 0
  {
    ExposedSmall(ops, x);
    ExposedCounter(ops, x);
    SpendDebits(CounterOf(Replay(ops), x.kind.player), x.id, x.replica, x.kind.amount, x.replica);
  }

  /** Every such bet is accepted, by the machine replay too; it takes its whole amount
      from the balance and the rights, which become negative; and the program reports
      rights that rose by what is missing from the amount to 2^64. */
  lemma {:induction false} OversizedBetAccepted(ops: set<Operation>, x: Operation)
    requires Exposed(ops, x)
    ensures MachineReplay(ops + {x}) == Some(Replay(ops + {x})) && x.id !in Replay(ops + {x}).rejected
    ensures Changes(Replay(ops), Replay(ops + {x}), x.kind.player, x.replica, 0 - x.kind.amount,
                    TWO_64 - x.kind.amount)
    ensures Rights(CounterOf(Replay(ops + {x}), x.kind.player), x.replica) < 0
    ensures ReportRises(Replay(ops), Replay(ops + {x}), x.kind.player, x.replica, TWO_64 - x.kind.amount)
  {
    ExposedMayBet(ops, x);
    BetPlaced(ops, x);
    CastOversized(x.kind.amount);
    MachineExtend(ops, x);
    ExposedOverdraws(ops, x);
    ExposedReport(ops, x);
  }

  lemma CastOversized(amount: nat)
    requires TWO_63 <= amount < TWO_64
    ensures AsI64(amount) == amount - TWO_64
  {
  }

  /** The balance is a u64 sum: an accepted join, bet or payout that takes it to 2^64 overflows. */
  lemma BalanceOverflows(ops: set<Operation>, x: Operation)
    requires Appends(ops, x) && Accepts(Replay(ops), x)
    requires var b := BalanceOf(Replay(ops), if x.kind.JoinTable? || x.kind.PlaceBet? || x.kind.ApplyPayout?
                                             then x.kind.player else 0);
             || (x.kind.JoinTable? && TWO_64 <= Of(b.increments, x.replica) + x.kind.chips)
             || (x.kind.ApplyPayout? && TWO_64 <= Of(b.increments, x.replica) + x.kind.amount)
             || (x.kind.PlaceBet? && TWO_64 <= Of(b.decrements, x.replica) + x.kind.amount)
    ensures MachineReplay(ops + {x}) == None
  {
    LastAfter(ops, x);
    MachineReplayOrOverflow(ops);
    if VerdictI64(Replay(ops), x).Some? {
      VerdictSome(Replay(ops), x);
    }
  }

  // ---- transfers ----

  /** Every transfer of 2^63 or more after a small log is accepted, by the machine replay
      too, and the program then reports rights that rose for the sender and fell for the
      receiver by what is missing from the amount to 2^64. */
  lemma {:induction false} OversizedTransferAccepted(ops: set<Operation>, x: Operation)
    requires Appends(ops, x) && Volume(ops) < TWO_63
    requires x.kind.TransferRights? && TWO_63 <= x.kind.amount < TWO_64
    ensures MachineReplay(ops + {x}) == Some(Replay(ops + {x})) && x.id !in Replay(ops + {x}).rejected
    ensures Moved(Replay(ops), Replay(ops + {x}), x.kind.player, x.kind.to, x.kind.from, TWO_64 - x.kind.amount)
  {
    assert DistinctIds(ops);
    SmallLog(ops, x.kind.player, x.kind.from);
    CastOversized(x.kind.amount);
    RightsTransferred(ops, x);
    MachineExtend(ops, x);
    MovedBack(Replay(ops), Replay(ops + {x}), x.kind.player, x.kind.from, x.kind.to, x.kind.amount - TWO_64);
  }

  lemma MovedBack(s: State, t: State, p: PlayerId, from: ReplicaId, to: ReplicaId, amount: int)
    requires Moved(s, t, p, from, to, amount)
    ensures Moved(s, t, p, to, from, 0 - amount)
  {
  }

  // ---- there is such a run: 100 chips, a round, a bet of 2^64 - 1 ----

  predicate Script(p: PlayerId, join: Operation, create: Operation, open: Operation, bet: Operation) {
    && join == Operation(10, 1, 1, JoinTable(p, "p", 100, map[]))
    && create == Operation(11, 1, 2, CreateRound(3, p))
    && open == Operation(12, 1, 3, OpenBetting(3))
    && bet == Operation(13, 1, 4, PlaceBet(5, p, 3, TWO_64 - 1, Odd, BettingOpen))
  }

  lemma Opening(p: PlayerId, join: Operation, create: Operation, open: Operation, bet: Operation)
    requires Script(p, join, create, open, bet)
    ensures Replay({join}) == Step(START, join)
    ensures Replay({join, create}) == Step(Replay({join}), create)
    ensures Replay({join, create, open}) == Step(Replay({join, create}), open)
  {
    assert {} + {join} == {join};
    ReplayExtend({}, join);
    assert {join} + {create} == {join, create};
    ReplayExtend({join}, create);
    assert {join, create} + {open} == {join, create, open};
    ReplayExtend({join, create}, open);
  }

  lemma OpeningRound(p: PlayerId, join: Operation, create: Operation, open: Operation, bet: Operation)
    requires Script(p, join, create, open, bet)
    ensures RoundPhase(Replay({join, create, open}), 3) == Some(BettingOpen)
  {
    Opening(p, join, create, open, bet);
    RankStep(START, join, 3);
    RankStep(Replay({join}), create, 3);
    RankStep(Replay({join, create}), open, 3);
  }

  /** Creating and opening a round leaves the balance as the join made it. */
  lemma OpeningBalance(p: PlayerId, join: Operation, create: Operation, open: Operation, bet: Operation)
    requires Script(p, join, create, open, bet)
    ensures BalanceOf(Replay({join, create, open}), p).decrements == map[]
  {
    Opening(p, join, create, open, bet);
    ApplyEffect(START, join, true, p);
    ApplyEffect(Replay({join}), create, true, p);
    ApplyEffect(Replay({join, create}), open, true, p);
  }

  lemma OpeningSeat(p: PlayerId, join: Operation, create: Operation, open: Operation, bet: Operation)
    requires Script(p, join, create, open, bet)
    ensures Contains(Replay({join, create, open}).players, p)
  {
    var log := {join, create, open};
    assert join in log && IsJoin(join, p);
    assert Seated(log, p);
    PlayerVisible(log, p);
  }

  lemma OpeningVolume(p: PlayerId, join: Operation, create: Operation, open: Operation, bet: Operation)
    requires Script(p, join, create, open, bet)
    ensures Volume({join, create, open}) == 100
  {
    assert {} + {join} == {join} && {join} + {create} == {join, create};
    assert {join, create} + {open} == {join, create, open};
    assert (map x: Operation | x in {} :: Weight(x)) == map[];
    VolumeStep({}, join);
    VolumeStep({join}, create);
    VolumeStep({join, create}, open);
  }

  lemma ScriptExposed(p: PlayerId, join: Operation, create: Operation, open: Operation, bet: Operation)
    requires Script(p, join, create, open, bet)
    ensures Exposed({join, create, open}, bet)
  {
    OpeningRound(p, join, create, open, bet);
    OpeningBalance(p, join, create, open, bet);
    OpeningSeat(p, join, create, open, bet);
    OpeningVolume(p, join, create, open, bet);
    ScriptAppends(p, join, create, open, bet);
    AmountFits(BalanceOf(Replay({join, create, open}), p), TWO_64 - 1);
  }

  lemma AmountFits(b: PNCounter, amount: nat)
    requires b.decrements == map[] && amount < TWO_64
    ensures FitsU64(Of(b.decrements, 1) + amount)
  {
  }

  lemma ScriptAppends(p: PlayerId, join: Operation, create: Operation, open: Operation, bet: Operation)
    requires Script(p, join, create, open, bet)
    ensures Appends({join, create, open}, bet)
  {
  }

  lemma SomeBetIsExposed()
    ensures exists ops, x :: Exposed(ops, x) && Volume(ops) == 100 && x.kind.amount == TWO_64 - 1
  {
    ScriptExists();
    var p, join, create, open, bet :| Script(p, join, create, open, bet);
    ScriptExposed(p, join, create, open, bet);
    OpeningVolume(p, join, create, open, bet);
  }

  lemma ScriptExists()
    ensures exists p, join, create, open, bet :: Script(p, join, create, open, bet)
  {
    assert Script(7, Operation(10, 1, 1, JoinTable(7, "p", 100, map[])), Operation(11, 1, 2, CreateRound(3, 7)),
                  Operation(12, 1, 3, OpenBetting(3)),
                  Operation(13, 1, 4, PlaceBet(5, 7, 3, TWO_64 - 1, Odd, BettingOpen)));
  }
}
