/** The ledger computes with u64 amounts, `as i64` casts and i64 sums that overflow.
    Whatever the log, the replay with machine arithmetic overflows or is the replay of the
    model, in whatever order the maps are iterated; and as long as everything the log
    mentions adds up to less than 2^63, it does not overflow and all its queries are
    exact. */
module MachineArithmetic {
  import opened Operations
  import opened MapSums
  import opened Counters
  import opened Merges
  import opened BetState
  import opened Replays
  import opened Accounting
  import opened Ledgers
  import opened Views
  import opened Commands

  predicate FitsI64(x: int) { -TWO_63 <= x < TWO_63 }
  predicate FitsU64(x: int) { 0 <= x < TWO_64 }

  /** None is an overflow. */
  function Plus(a: Option<int>, b: Option<int>): Option<int> {
    if a.Some? && b.Some? && FitsI64(a.value + b.value) then Some(a.value + b.value) else None
  }

  function Minus(a: Option<int>, b: Option<int>): Option<int> {
    if a.Some? && b.Some? && FitsI64(a.value - b.value) then Some(a.value - b.value) else None
  }

  function PlusU64(a: Option<int>, b: int): Option<int> {
    if a.Some? && FitsU64(a.value + b) then Some(a.value + b) else None
  }

  // ---- iterator sums ----

  /** An iteration order over a set of keys: each of them once. */
  ghost predicate Enumerates<K>(ks: seq<K>, keys: set<K>) {
    if ks == [] then keys == {}
    else ks[|ks| - 1] in keys && Enumerates(ks[..|ks| - 1], keys - {ks[|ks| - 1]})
  }

  lemma {:induction false} EnumeratesOnce<K(!new)>(ks: seq<K>, keys: set<K>)
    ensures Enumerates(ks, keys) <==>
              (forall i, j :: 0 <= i < j < |ks| ==> ks[i] != ks[j]) && (forall k :: k in ks <==> k in keys)
  {
    if ks != [] {
      var rest, last := ks[..|ks| - 1], ks[|ks| - 1];
      EnumeratesOnce(rest, keys - {last});
      assert ks == rest + [last];
    }
  }

  /** iter().map(value).sum::<i64>() in the given order. */
  ghost function SumI64<K>(values: map<K, int>, ks: seq<K>): Option<int> {
    if ks == [] then Some(0)
    else if ks[|ks| - 1] in values then Plus(SumI64(values, ks[..|ks| - 1]), Some(values[ks[|ks| - 1]]))
    else None
  }

  /** values().sum::<u64>() in the given order. */
  ghost function SumU64<K>(values: map<K, nat>, ks: seq<K>): Option<int> {
    if ks == [] then Some(0)
    else if ks[|ks| - 1] in values then PlusU64(SumU64(values, ks[..|ks| - 1]), values[ks[|ks| - 1]])
    else None
  }

  lemma SumI64Last<K>(values: map<K, int>, ks: seq<K>, before: int, amount: int)
    requires ks != [] && ks[|ks| - 1] in values
    requires SumI64(values, ks[..|ks| - 1]) == Some(before) && values[ks[|ks| - 1]] == amount
    requires FitsI64(before + amount)
    ensures SumI64(values, ks) == Some(before + amount)
  {
  }

  /** An i64 iterator sum of non-negative values is exact when the total fits, in every order. */
  lemma {:induction false} SumI64Exact<K(!new)>(values: map<K, int>, exact: map<K, int>, ks: seq<K>)
    requires Enumerates(ks, exact.Keys)
    requires forall k :: k in exact ==> k in values && values[k] == exact[k] && 0 <= exact[k]
    requires Sum(exact) < TWO_63
    ensures SumI64(values, ks) == Some(Sum(exact))
    decreases |ks|
  {
    if ks == [] {
      assert exact == map[];
    } else {
      var rest, last := ks[..|ks| - 1], ks[|ks| - 1];
      SumWithoutLast(exact, last);
      assert (exact - {last}).Keys == exact.Keys - {last};
      SumI64Exact(values, exact - {last}, rest);
      SumI64Last(values, ks, Sum(exact - {last}), exact[last]);
    }
  }

  lemma SumWithoutLast<K>(exact: map<K, int>, last: K)
    requires last in exact && forall k :: k in exact ==> 0 <= exact[k]
    ensures Sum(exact) == exact[last] + Sum(exact - {last}) && 0 <= Sum(exact - {last})
  {
    SumRemove(exact, last);
    SumNonneg(exact - {last});
  }

  lemma {:induction false} SumU64Exact<K(!new)>(values: map<K, nat>, exact: map<K, int>, ks: seq<K>)
    requires Enumerates(ks, exact.Keys)
    requires forall k :: k in exact ==> k in values && values[k] == exact[k]
    requires Sum(exact) < TWO_64
    ensures SumU64(values, ks) == Some(Sum(exact))
    decreases |ks|
  {
    if ks == [] {
      assert exact == map[];
    } else {
      var rest, last := ks[..|ks| - 1], ks[|ks| - 1];
      SumWithoutLast(exact, last);
      assert (exact - {last}).Keys == exact.Keys - {last};
      SumU64Exact(values, exact - {last}, rest);
    }
  }

  lemma {:induction false} EnumerationExists<K(!new)>(keys: set<K>)
    ensures exists ks :: Enumerates(ks, keys)
    decreases |keys|
  {
    if keys == {} {
      assert Enumerates([], keys);
    } else {
      var k :| k in keys;
      EnumerationExists(keys - {k});
      var ks :| Enumerates(ks, keys - {k});
      assert (ks + [k])[..|ks|] == ks;
      assert Enumerates(ks + [k], keys);
    }
  }

  /** The order in which a map is iterated; the results above hold for any. */
  ghost function Order<K(!new)>(keys: set<K>): (ks: seq<K>)
    ensures Enumerates(ks, keys)
  {
    EnumerationExists(keys);
    var ks :| Enumerates(ks, keys);
    ks
  }

  /** An i64 iterator sum that does not overflow is the sum, whatever the signs and the order. */
  lemma {:induction false} SumI64Some<K(!new)>(values: map<K, int>, exact: map<K, int>, ks: seq<K>)
    requires Enumerates(ks, exact.Keys)
    requires forall k :: k in exact ==> k in values && values[k] == exact[k]
    ensures SumI64(values, ks).Some? ==> SumI64(values, ks) == Some(Sum(exact))
    decreases |ks|
  {
    if ks == [] {
      assert exact == map[];
    } else {
      var rest, last := ks[..|ks| - 1], ks[|ks| - 1];
      SumRemove(exact, last);
      assert (exact - {last}).Keys == exact.Keys - {last};
      SumI64Some(values, exact - {last}, rest);
    }
  }

  ghost function HeldI64<K(!new)>(m: map<K, Entry>, r: ReplicaId): Option<int> {
    SumI64(CastOwned(m, r), Order(CastOwned(m, r).Keys))
  }

  lemma HeldI64Some<K(!new)>(m: map<K, Entry>, r: ReplicaId)
    ensures HeldI64(m, r).Some? ==> HeldI64(m, r) == Some(CastHeld(m, r))
  {
    SumI64Some(CastOwned(m, r), CastOwned(m, r), Order(CastOwned(m, r).Keys));
  }

  lemma HeldI64Exact<K(!new)>(m: map<K, Entry>, r: ReplicaId)
    requires Held(m, r) < TWO_63
    ensures HeldI64(m, r) == Some(Held(m, r)) && CastHeld(m, r) == Held(m, r)
  {
    HeldBounds(m, r);
    CastExact(m, r);
    assert CastOwned(m, r) == Owned(m, r);
    SumI64Exact(CastOwned(m, r), Owned(m, r), Order(CastOwned(m, r).Keys));
  }

  // ---- the counter and the PN-counter on machine integers ----

  ghost function AvailableI64(c: Counter, r: ReplicaId): Option<int> {
    var income := Plus(Plus(Some(AsI64(Of(c.initial, r))), HeldI64(c.grants, r)), HeldI64(Credits(c.transfers), r));
    Minus(Minus(income, HeldI64(Debits(c.transfers), r)), HeldI64(c.spends, r))
  }

  ghost function ReportsBy(c: Counter, owners: set<ReplicaId>): Option<map<ReplicaId, int>> {
    if forall r :: r in owners ==> AvailableI64(c, r).Some?
    then Some(map r | r in owners :: AvailableI64(c, r).value) else None
  }

  ghost function TotalRemainingI64(c: Counter): Option<int> {
    SumReports(ReportsBy(c, Holders(c)), Holders(c))
  }

  ghost function SumReports(reports: Option<map<ReplicaId, int>>, owners: set<ReplicaId>): Option<int> {
    if reports.Some? then SumI64(reports.value, Order(owners)) else None
  }

  /** total_spent. */
  ghost function TotalSpentU64(c: Counter): Option<int> {
    SumU64(map id | id in c.spends :: c.spends[id].amount, Order(c.spends.Keys))
  }

  ghost function ValueI64(b: PNCounter): Option<int> {
    var inc, dec := SumU64(b.increments, Order(b.increments.Keys)), SumU64(b.decrements, Order(b.decrements.Keys));
    if inc.Some? && dec.Some? && 0 <= inc.value && 0 <= dec.value
    then Minus(Some(AsI64(inc.value)), Some(AsI64(dec.value))) else None
  }

  /** Everything the counter mentions. */
  ghost function CounterVolume(c: Counter): int {
    Sum<ReplicaId>(c.initial) + Total(c.grants) + Total(Credits(c.transfers)) + Total(c.spends)
  }

  lemma InitialBound(c: Counter, r: ReplicaId)
    ensures 0 <= Of(c.initial, r) <= Sum<ReplicaId>(c.initial)
  {
    SumNonneg<ReplicaId>(c.initial);
    if r in c.initial {
      SumRemove<ReplicaId>(c.initial, r);
      SumNonneg<ReplicaId>(c.initial - {r});
    }
  }

  /** The five parts of available, bounded by the volume. */
  lemma PartsBounded(c: Counter, r: ReplicaId)
    ensures Of(c.initial, r) + Held(c.grants, r) + Held(Credits(c.transfers), r) <= CounterVolume(c)
    ensures Held(Debits(c.transfers), r) + Held(c.spends, r) <= CounterVolume(c)
    ensures 0 <= Held(c.grants, r) && 0 <= Held(Credits(c.transfers), r)
    ensures 0 <= Held(Debits(c.transfers), r) && 0 <= Held(c.spends, r)
  {
    InitialBound(c, r);
    CreditsMatchDebits(c.transfers);
    HeldBounds(c.grants, r);
    HeldBounds(c.spends, r);
    HeldBounds(Credits(c.transfers), r);
    HeldBounds(Debits(c.transfers), r);
  }

  lemma SignedSumFits(i: int, g: int, x: int, y: int, s: int)
    requires FitsI64(i + g) && FitsI64(i + g + x) && FitsI64(i + g + x - y) && FitsI64(i + g + x - y - s)
    ensures Minus(Minus(Plus(Plus(Some(i), Some(g)), Some(x)), Some(y)), Some(s)) == Some(i + g + x - y - s)
  {
  }

  /** available, computed with casts and i64 sums, is what the model says it reports
      unless it overflows. */
  lemma AvailableSome(c: Counter, r: ReplicaId)
    ensures AvailableI64(c, r).Some? ==> AvailableI64(c, r) == Some(Available(c, r))
  {
    HeldI64Some(c.grants, r);
    HeldI64Some(c.spends, r);
    HeldI64Some(Credits(c.transfers), r);
    HeldI64Some(Debits(c.transfers), r);
  }

  /** The four iterator sums of available: grants, credits, debits and spends. */
  ghost predicate Parts(c: Counter, r: ReplicaId, g: int, x: int, y: int, s: int) {
    && HeldI64(c.grants, r) == Some(g) && HeldI64(Credits(c.transfers), r) == Some(x)
    && HeldI64(Debits(c.transfers), r) == Some(y) && HeldI64(c.spends, r) == Some(s)
  }

  /** The parts of available, exact and bounded when the volume is small. */
  lemma PartsExact(c: Counter, r: ReplicaId)
    requires CounterVolume(c) < TWO_63
    ensures Parts(c, r, Held(c.grants, r), Held(Credits(c.transfers), r), Held(Debits(c.transfers), r),
                  Held(c.spends, r))
    ensures CastHeld(c.grants, r) == Held(c.grants, r) && CastHeld(c.spends, r) == Held(c.spends, r)
    ensures CastHeld(Credits(c.transfers), r) == Held(Credits(c.transfers), r)
    ensures CastHeld(Debits(c.transfers), r) == Held(Debits(c.transfers), r)
    ensures Of(c.initial, r) + Held(c.grants, r) + Held(Credits(c.transfers), r) < TWO_63
    ensures Held(Debits(c.transfers), r) + Held(c.spends, r) < TWO_63
  {
    PartsBounded(c, r);
    HeldI64Exact(c.grants, r);
    HeldI64Exact(c.spends, r);
    HeldI64Exact(Credits(c.transfers), r);
    HeldI64Exact(Debits(c.transfers), r);
  }

  lemma RightsFromParts(c: Counter, r: ReplicaId, g: int, x: int, y: int, s: int)
    requires Parts(c, r, g, x, y, s)
    ensures AvailableI64(c, r)
         == Minus(Minus(Plus(Plus(Some(AsI64(Of(c.initial, r))), Some(g)), Some(x)), Some(y)), Some(s))
  {
  }

  lemma PartsReported(c: Counter, r: ReplicaId, i: int, g: int, x: int, y: int, s: int)
    requires Parts(c, r, g, x, y, s) && i == AsI64(Of(c.initial, r))
    requires FitsI64(i + g) && FitsI64(i + g + x) && FitsI64(i + g + x - y) && FitsI64(i + g + x - y - s)
    ensures AvailableI64(c, r) == Some(i + g + x - y - s)
  {
    RightsFromParts(c, r, g, x, y, s);
    SignedSumFits(i, g, x, y, s);
  }

  /** What is reported is an i64. */
  lemma ReportsFit(c: Counter, r: ReplicaId)
    ensures AvailableI64(c, r).Some? ==> -TWO_63 <= AvailableI64(c, r).value < TWO_63
    ensures TotalRemainingI64(c).Some? ==> -TWO_63 <= TotalRemainingI64(c).value < TWO_63
  {
    if ReportsBy(c, Holders(c)).Some? {
      SumI64Fits(ReportsBy(c, Holders(c)).value, Order(Holders(c)));
    }
  }

  lemma {:induction false} SumI64Fits<K>(values: map<K, int>, ks: seq<K>)
    ensures SumI64(values, ks).Some? ==> -TWO_63 <= SumI64(values, ks).value < TWO_63
  {
    if ks != [] {
      SumI64Fits(values, ks[..|ks| - 1]);
    }
  }

  lemma AvailableExact(c: Counter, r: ReplicaId)
    requires CounterVolume(c) < TWO_63
    ensures AvailableI64(c, r) == Some(Available(c, r)) && Available(c, r) == Rights(c, r)
    ensures FitsI64(Rights(c, r))
  {
    AvailableIsRights(c, r);
    RightsI64(c, r);
  }

  lemma AvailableIsRights(c: Counter, r: ReplicaId)
    requires CounterVolume(c) < TWO_63
    ensures Available(c, r) == Rights(c, r)
  {
    PartsExact(c, r);
  }

  lemma RightsI64(c: Counter, r: ReplicaId)
    requires CounterVolume(c) < TWO_63
    ensures AvailableI64(c, r) == Some(Rights(c, r)) && FitsI64(Rights(c, r))
  {
    PartsExact(c, r);
    PartsBounded(c, r);
    PartsReported(c, r, Of(c.initial, r), Held(c.grants, r), Held(Credits(c.transfers), r),
                  Held(Debits(c.transfers), r), Held(c.spends, r));
  }

  lemma RemainingExact(c: Counter, owners: set<ReplicaId>)
    requires CounterVolume(c) < TWO_63
    ensures AvailableBy(c, owners) == RightsBy(c, owners) && ReportsBy(c, owners) == Some(RightsBy(c, owners))
  {
    forall r | r in owners ensures Available(c, r) == Rights(c, r) {
      AvailableIsRights(c, r);
    }
    forall r | r in owners ensures AvailableI64(c, r) == Some(RightsBy(c, owners)[r]) {
      RightsI64(c, r);
    }
    ReportsAre(c, owners, RightsBy(c, owners));
  }

  lemma ReportsAre(c: Counter, owners: set<ReplicaId>, rights: map<ReplicaId, int>)
    requires rights.Keys == owners && forall r :: r in owners ==> AvailableI64(c, r) == Some(rights[r])
    ensures ReportsBy(c, owners) == Some(rights)
  {
    assert forall r :: r in owners ==> AvailableI64(c, r).Some?;
    assert (map r | r in owners :: AvailableI64(c, r).value) == rights;
  }

  lemma TotalRightsSmall(c: Counter)
    requires CounterVolume(c) < TWO_63 && Solvent(c)
    ensures Sum<ReplicaId>(RightsBy(c, Holders(c))) < TWO_63
  {
    Conservation(c);
    SumNonneg(Amounts(c.spends));
    CreditsMatchDebits(c.transfers);
  }

  lemma TotalRemainingExact(c: Counter)
    requires CounterVolume(c) < TWO_63 && Solvent(c)
    ensures TotalRemainingI64(c) == Some(TotalRemaining(c)) && TotalRemaining(c) == TotalRights(c)
  {
    RemainingExact(c, Holders(c));
    TotalRightsSmall(c);
    SumReportsExact(RightsBy(c, Holders(c)), Holders(c));
  }

  lemma SumReportsExact(rights: map<ReplicaId, int>, owners: set<ReplicaId>)
    requires rights.Keys == owners && (forall r :: r in owners ==> 0 <= rights[r]) && Sum<ReplicaId>(rights) < TWO_63
    ensures SumReports(Some(rights), owners) == Some(Sum<ReplicaId>(rights))
  {
    SumI64Exact<ReplicaId>(rights, rights, Order(owners));
  }

  lemma TotalSpentExact(c: Counter)
    requires TotalSpent(c) < TWO_64
    ensures TotalSpentU64(c) == Some(TotalSpent(c))
  {
    var amounts := map id | id in c.spends :: c.spends[id].amount;
    assert amounts.Keys == c.spends.Keys == Amounts(c.spends).Keys;
    SumU64Exact(amounts, Amounts(c.spends), Order(c.spends.Keys));
  }

  lemma ValueExact(b: PNCounter)
    requires Sum<ReplicaId>(b.increments) + Sum<ReplicaId>(b.decrements) < TWO_63
    ensures ValueI64(b) == Some(Value(b))
  {
    SumNonneg<ReplicaId>(b.increments);
    SumNonneg<ReplicaId>(b.decrements);
    SumU64Exact<ReplicaId>(b.increments, b.increments, Order(b.increments.Keys));
    SumU64Exact<ReplicaId>(b.decrements, b.decrements, Order(b.decrements.Keys));
  }

  /** A u64 product; None is an overflow. */
  function TimesU64(a: nat, b: nat): Option<int> {
    if FitsU64(a * b) then Some(a * b) else None
  }

  /** `bet.amount * bet.kind.multiplier()`. */
  function PrizeU64(b: Bet): Option<int> {
    TimesU64(b.amount, b.kind.Multiplier())
  }

  // ---- the volume of a log ----

  ghost function Weight(x: Operation): (w: int)
    ensures 0 <= w
  {
    match x.kind
    case JoinTable(_, _, chips, rights) => SumNonneg<ReplicaId>(rights); chips + Sum<ReplicaId>(rights)
    case PlaceBet(_, _, _, amount, _, _) => amount
    case ApplyPayout(_, _, _, amount) => amount
    case TransferRights(_, _, _, amount) => amount
    case _ => 0
  }

  /** Starting chips, rights, bets, payouts and transfers, all added up. */
  ghost function Volume(ops: set<Operation>): int {
    Sum(map x | x in ops :: Weight(x))
  }

  lemma VolumeStep(ops: set<Operation>, x: Operation)
    requires x !in ops
    ensures Volume(ops + {x}) == Volume(ops) + Weight(x)
  {
    var m := map y | y in ops :: Weight(y);
    assert (map y | y in ops + {x} :: Weight(y)) == m[x := Weight(x)];
    SumPut(m, x, Weight(x));
  }

  lemma JoinWeight(x: Operation)
    requires x.kind.JoinTable?
    ensures Sum<ReplicaId>(JoinRights(x)) <= Weight(x) && x.kind.chips <= Weight(x)
  {
    SumNonneg<ReplicaId>(x.kind.rights);
    if x.kind.rights == map[] {
      EmptyRightsAreBacked(x);
    }
  }

  lemma TransferVolume(c: Counter, x: Operation)
    requires x.kind.TransferRights? && x.id !in c.transfers
    ensures CounterVolume(RecordTransfer(c, x.id, x.kind.from, x.kind.to, x.kind.amount))
         == CounterVolume(c) + x.kind.amount
  {
    var t := c.transfers[x.id := TransferEntry(x.kind.from, x.kind.to, x.kind.amount)];
    assert Credits(t) == Credits(c.transfers)[x.id := Entry(x.kind.to, x.kind.amount)];
    TotalPut(Credits(c.transfers), x.id, Entry(x.kind.to, x.kind.amount));
  }

  lemma CounterVolumeStep(s: State, x: Operation, accepted: bool, t: State, p: PlayerId)
    requires Legitimate(s, x, accepted, t, p)
    ensures CounterVolume(CounterOf(t, p)) <= CounterVolume(CounterOf(s, p)) + Weight(x)
  {
    CounterVolumeAfter(s, x, accepted, p);
  }

  lemma CounterVolumeAfter(s: State, x: Operation, accepted: bool, p: PlayerId)
    requires x.id !in CounterOf(s, p).spends && x.id !in CounterOf(s, p).transfers
    requires accepted && IsPayout(x, p) ==> x.kind.payout !in CounterOf(s, p).grants
    ensures CounterVolume(CounterAfter(s, x, accepted, p)) <= CounterVolume(CounterOf(s, p)) + Weight(x)
  {
    var c := CounterOf(s, p);
    if IsJoin(x, p) {
      MaxSum(c.initial, JoinRights(x));
      JoinWeight(x);
    } else if IsBet(x, p) && accepted {
      TotalPut(c.spends, x.id, Entry(x.replica, x.kind.amount));
    } else if IsPayout(x, p) && accepted {
      TotalPut(c.grants, x.kind.payout, Entry(x.replica, x.kind.amount));
    } else if IsTransfer(x, p) && accepted {
      TransferVolume(c, x);
    }
  }

  ghost function BalanceVolume(b: PNCounter): int {
    Sum<ReplicaId>(b.increments) + Sum<ReplicaId>(b.decrements)
  }

  lemma BalanceVolumeStep(s: State, x: Operation, accepted: bool, t: State, p: PlayerId)
    requires Legitimate(s, x, accepted, t, p)
    ensures BalanceVolume(BalanceOf(t, p)) <= BalanceVolume(BalanceOf(s, p)) + Weight(x)
  {
    var b := BalanceOf(s, p);
    if IsJoin(x, p) {
      IncrementSum(b, x.replica, x.kind.chips);
      JoinWeight(x);
    } else if IsBet(x, p) && accepted {
      DecrementSum(b, x.replica, x.kind.amount);
    } else if IsPayout(x, p) && accepted {
      IncrementSum(b, x.replica, x.kind.amount);
    }
  }

  lemma EmptyVolume()
    ensures CounterVolume(EMPTY_COUNTER) == 0
  {
    assert Credits(map[]) == map[];
    assert Amounts<OpId>(map[]) == map[] && Amounts<PayoutId>(map[]) == map[];
  }

  lemma {:induction false} ReplayVolume(ops: set<Operation>, p: PlayerId)
    requires DistinctIds(ops)
    ensures CounterVolume(CounterOf(Replay(ops), p)) <= Volume(ops)
    ensures BalanceVolume(BalanceOf(Replay(ops), p)) <= Volume(ops)
    decreases |ops|
  {
    if ops == {} {
      EmptyVolume();
    } else {
      ReplayVolume(ops - {Last(ops)}, p);
      VolumeAfterLast(ops, p);
    }
  }

  lemma VolumeAfterLast(ops: set<Operation>, p: PlayerId)
    requires DistinctIds(ops) && ops != {}
    requires CounterVolume(CounterOf(Replay(ops - {Last(ops)}), p)) <= Volume(ops - {Last(ops)})
    requires BalanceVolume(BalanceOf(Replay(ops - {Last(ops)}), p)) <= Volume(ops - {Last(ops)})
    ensures CounterVolume(CounterOf(Replay(ops), p)) <= Volume(ops)
    ensures BalanceVolume(BalanceOf(Replay(ops), p)) <= Volume(ops)
  {
    var x := Last(ops);
    var s := Replay(ops - {x});
    ReplayLegitimate(ops, p);
    CounterVolumeStep(s, x, Accepts(s, x), Replay(ops), p);
    BalanceVolumeStep(s, x, Accepts(s, x), Replay(ops), p);
    VolumeStep(ops - {x}, x);
    assert ops - {x} + {x} == ops;
  }

  // ---- the replay on machine integers ----

  /** The guard `available < amount as i64`, negated; None if computing it overflows. */
  ghost function GuardI64(c: Counter, known: bool, r: ReplicaId, amount: nat): Option<bool> {
    if known then Some(true)
    else match AvailableI64(c, r)
         case None => None
         case Some(a) => Some(!(a < AsI64(amount)))
  }

  /** The counter's verdict on an operation, where the code asks for it. */
  ghost function VerdictI64(s: State, x: Operation): Option<bool> {
    match x.kind
    case PlaceBet(_, p, round, amount, _, origin) =>
      if Contains(s.players, p) && origin == BettingOpen && round in s.roundViews
      then GuardI64(CounterOf(s, p), x.id in CounterOf(s, p).spends, x.replica, amount)
      else Some(true)
    case TransferRights(p, from, _, amount) =>
      GuardI64(CounterOf(s, p), x.id in CounterOf(s, p).transfers, from, amount)
    case _ => Some(true)
  }

  /** Whether the u64 additions of the PN-counter stay in range. */
  predicate BalanceFits(s: State, x: Operation, accepted: bool) {
    match x.kind
    case JoinTable(p, _, chips, _) => FitsU64(Of(BalanceOf(s, p).increments, x.replica) + chips)
    case PlaceBet(_, p, _, amount, _, _) => accepted ==> FitsU64(Of(BalanceOf(s, p).decrements, x.replica) + amount)
    case ApplyPayout(_, p, _, amount) => accepted ==> FitsU64(Of(BalanceOf(s, p).increments, x.replica) + amount)
    case _ => true
  }

  ghost function MachineStep(s: State, x: Operation): Option<State> {
    match VerdictI64(s, x)
    case None => None
    case Some(funded) => if BalanceFits(s, x, Admits(s, x, funded)) then Some(Apply(s, x, funded)) else None
  }

  ghost function MachineReplay(ops: set<Operation>): Option<State>
    decreases |ops|
  {
    if ops == {} then Some(START) else
      match MachineReplay(ops - {Last(ops)})
      case None => None
      case Some(s) => MachineStep(s, Last(ops))
  }

  lemma GuardExact(c: Counter, known: bool, r: ReplicaId, amount: nat)
    requires CounterVolume(c) < TWO_63
    ensures GuardI64(c, known, r, amount) == Some(known || AsI64(amount) <= Available(c, r))
  {
    AvailableExact(c, r);
  }

  lemma GuardSome(c: Counter, known: bool, r: ReplicaId, amount: nat)
    ensures GuardI64(c, known, r, amount).Some? ==>
              GuardI64(c, known, r, amount) == Some(known || AsI64(amount) <= Available(c, r))
  {
    AvailableSome(c, r);
  }

  /** The guard of spend and transfer answers whether the rights cover the amount for
      the amounts below 2^63 and for no others: it accepts every u64 from there up. */
  lemma GuardCoversExactly(c: Counter, r: ReplicaId, amount: nat)
    requires CounterVolume(c) < TWO_63 && Solvent(c) && amount < TWO_64
    ensures GuardI64(c, false, r, amount) == Some(amount <= Rights(c, r)) <==> amount < TWO_63
  {
    GuardExact(c, false, r, amount);
    AvailableExact(c, r);
  }

  /** The verdict is only consulted where the code asks for it. */
  lemma UnaskedVerdict(s: State, x: Operation, funded: bool)
    requires x.kind.PlaceBet?
    requires !(Contains(s.players, x.kind.player) && x.kind.originPhase == BettingOpen && x.kind.round in s.roundViews)
    ensures ApplyBet(s, x, true) == ApplyBet(s, x, funded)
    ensures Admits(s, x, true) == Admits(s, x, funded)
  {
  }

  /** Where the code asks the counter, it gets the model's answer unless it overflows;
      elsewhere the answer does not matter. */
  lemma VerdictSome(s: State, x: Operation)
    requires VerdictI64(s, x).Some?
    ensures Apply(s, x, VerdictI64(s, x).value) == Step(s, x)
    ensures Admits(s, x, VerdictI64(s, x).value) == Accepts(s, x)
  {
    match x.kind
    case PlaceBet(_, p, round, amount, _, origin) => BetVerdictSome(s, x);
    case TransferRights(p, from, _, amount) =>
      GuardSome(CounterOf(s, p), x.id in CounterOf(s, p).transfers, from, amount);
    case _ =>
  }

  lemma BetVerdictSome(s: State, x: Operation)
    requires x.kind.PlaceBet? && VerdictI64(s, x).Some?
    ensures ApplyBet(s, x, VerdictI64(s, x).value) == ApplyBet(s, x, Funded(s, x))
    ensures Admits(s, x, VerdictI64(s, x).value) == Admits(s, x, Funded(s, x))
  {
    var p := x.kind.player;
    if Contains(s.players, p) && x.kind.originPhase == BettingOpen && x.kind.round in s.roundViews {
      GuardSome(CounterOf(s, p), x.id in CounterOf(s, p).spends, x.replica, x.kind.amount);
    } else {
      UnaskedVerdict(s, x, Funded(s, x));
    }
  }

  lemma VerdictExact(s: State, x: Operation)
    requires forall p :: CounterVolume(CounterOf(s, p)) < TWO_63
    ensures VerdictI64(s, x).Some?
    ensures Apply(s, x, VerdictI64(s, x).value) == Step(s, x)
    ensures Admits(s, x, VerdictI64(s, x).value) == Accepts(s, x)
  {
    VerdictSmall(s, x);
    VerdictSome(s, x);
  }

  lemma VerdictSmall(s: State, x: Operation)
    requires forall p :: CounterVolume(CounterOf(s, p)) < TWO_63
    ensures VerdictI64(s, x).Some?
  {
    match x.kind
    case PlaceBet(_, p, _, amount, _, _) =>
      GuardExact(CounterOf(s, p), x.id in CounterOf(s, p).spends, x.replica, amount);
    case TransferRights(p, from, _, amount) =>
      GuardExact(CounterOf(s, p), x.id in CounterOf(s, p).transfers, from, amount);
    case _ =>
  }

  /** The replay is the program's: for every log, whatever its amounts, replaying with
      machine integers either overflows or gives the model's state. */
  lemma {:induction false} MachineReplayOrOverflow(ops: set<Operation>)
    ensures MachineReplay(ops).Some? ==> MachineReplay(ops) == Some(Replay(ops))
    decreases |ops|
  {
    if ops != {} && MachineReplay(ops).Some? {
      MachineReplayOrOverflow(ops - {Last(ops)});
      VerdictSome(Replay(ops - {Last(ops)}), Last(ops));
    }
  }

  lemma IncrementFits(m: map<ReplicaId, nat>, r: ReplicaId, amount: nat, bound: int)
    requires Sum<ReplicaId>(m) + amount <= bound < TWO_63
    ensures FitsU64(Of(m, r) + amount)
  {
    InitialBound(EMPTY_COUNTER.(initial := m), r);
  }

  lemma BalanceExact(s: State, x: Operation, accepted: bool, bound: int)
    requires forall p :: BalanceVolume(BalanceOf(s, p)) + Weight(x) <= bound
    requires bound < TWO_63
    ensures BalanceFits(s, x, accepted)
  {
    match x.kind
    case JoinTable(p, _, chips, rights) =>
      SumNonneg<ReplicaId>(rights);
      SumNonneg<ReplicaId>(BalanceOf(s, p).decrements);
      IncrementFits(BalanceOf(s, p).increments, x.replica, chips, bound);
    case PlaceBet(_, p, _, amount, _, _) =>
      SumNonneg<ReplicaId>(BalanceOf(s, p).increments);
      IncrementFits(BalanceOf(s, p).decrements, x.replica, amount, bound);
    case ApplyPayout(_, p, _, amount) =>
      SumNonneg<ReplicaId>(BalanceOf(s, p).decrements);
      IncrementFits(BalanceOf(s, p).increments, x.replica, amount, bound);
    case _ =>
  }

  lemma VolumeNonneg(ops: set<Operation>)
    ensures 0 <= Volume(ops)
  {
    SumNonneg(map x | x in ops :: Weight(x));
  }

  /** Replaying with machine integers never overflows and gives the mathematical state. */
  lemma {:induction false} MachineReplayExact(ops: set<Operation>)
    requires DistinctIds(ops) && Volume(ops) < TWO_63
    ensures MachineReplay(ops) == Some(Replay(ops))
    decreases |ops|
  {
    if ops != {} {
      var x := Last(ops);
      var rest := ops - {x};
      var s := Replay(rest);
      assert rest + {x} == ops;
      VolumeStep(rest, x);
      VolumeNonneg(rest);
      MachineReplayExact(rest);
      forall p
        ensures CounterVolume(CounterOf(s, p)) <= Volume(rest)
        ensures BalanceVolume(BalanceOf(s, p)) <= Volume(rest)
      {
        ReplayVolume(rest, p);
      }
      VerdictExact(s, x);
      BalanceExact(s, x, Accepts(s, x), Volume(ops));
    }
  }

  lemma WeightBound(ops: set<Operation>, x: Operation)
    requires x in ops
    ensures Weight(x) <= Volume(ops)
  {
    VolumeStep(ops - {x}, x);
    VolumeNonneg(ops - {x});
    assert ops - {x} + {x} == ops;
  }

  lemma VolumeFits(ops: set<Operation>, p: PlayerId)
    requires Volume(ops) < TWO_63
    ensures AmountsFit(ops, p)
  {
    forall x | x in ops ensures CastSafe(x, p) {
      WeightBound(ops, x);
    }
  }

  lemma SpentWithinVolume(c: Counter)
    ensures TotalSpent(c) <= CounterVolume(c)
  {
    SumNonneg<ReplicaId>(c.initial);
  }

  /** And every query of that state is exact. */
  lemma MachineQueriesExact(ops: set<Operation>, p: PlayerId, r: ReplicaId)
    requires DistinctIds(ops) && Volume(ops) < TWO_63
    ensures AvailableI64(CounterOf(Replay(ops), p), r) == Some(Rights(CounterOf(Replay(ops), p), r))
    ensures TotalRemainingI64(CounterOf(Replay(ops), p)) == Some(TotalRights(CounterOf(Replay(ops), p)))
    ensures ValueI64(BalanceOf(Replay(ops), p)) == Some(Value(BalanceOf(Replay(ops), p)))
    ensures TotalSpentU64(CounterOf(Replay(ops), p)) == Some(TotalSpent(CounterOf(Replay(ops), p)))
  {
    ReplayVolume(ops, p);
    VolumeFits(ops, p);
    ReplaySolvent(ops, p);
    AvailableExact(CounterOf(Replay(ops), p), r);
    TotalRemainingExact(CounterOf(Replay(ops), p));
    ValueExact(BalanceOf(Replay(ops), p));
    SpentWithinVolume(CounterOf(Replay(ops), p));
    TotalSpentExact(CounterOf(Replay(ops), p));
  }

  /** A prize is exact up to a sixth of 2^64 for an exact bet, up to half of it for any
      other, and overflows beyond. */
  lemma PrizeExactly(b: Bet)
    ensures PrizeU64(b) == Some(b.Prize()) <==> b.amount <= (TWO_64 - 1) / b.kind.Multiplier()
    ensures PrizeU64(b).None? <==> TWO_64 <= b.Prize()
  {
  }

  /** So all winners of a log of less than 2^63 are paid exactly, unless one of them is
      an exact bet of more than a sixth of 2^64. */
  lemma {:induction false} WinnersPaidExactly(ops: set<Operation>, round: RoundId, dice: nat)
    requires DistinctIds(ops) && Volume(ops) < TWO_63
    ensures var winners := Winners(VisibleBets(Replay(ops)), round, dice);
            (forall b :: b in winners ==> PrizeU64(b) == Some(b.Prize()))
            <==> (forall b :: b in winners && b.kind.Exact? ==> b.amount <= (TWO_64 - 1) / 6)
  {
    var winners := Winners(VisibleBets(Replay(ops)), round, dice);
    forall b | b in winners
      ensures PrizeU64(b) == Some(b.Prize()) <==> (b.kind.Exact? ==> b.amount <= (TWO_64 - 1) / 6)
    {
      StakeBound(ops, b);
      PrizeExactly(b);
    }
  }

  lemma StakeBound(ops: set<Operation>, b: Bet)
    requires DistinctIds(ops) && Volume(ops) < TWO_63 && b in VisibleBets(Replay(ops))
    ensures b.amount < TWO_63
  {
    VisibleBetWasPlaced(ops, b);
    var x :| x in ops && x.kind.PlaceBet? && BetOf(x) == b;
    BetWithinVolume(ops, x);
  }

  lemma VisibleBetWasPlaced(ops: set<Operation>, b: Bet)
    requires DistinctIds(ops) && b in VisibleBets(Replay(ops))
    ensures exists x :: x in ops && x.kind.PlaceBet? && BetOf(x) == b
  {
    VisibleBetsAreAccepted(ops);
  }

  lemma BetWithinVolume(ops: set<Operation>, x: Operation)
    requires x in ops && x.kind.PlaceBet?
    ensures x.kind.amount <= Volume(ops)
  {
    WeightBound(ops, x);
  }
}
