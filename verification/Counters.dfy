/** The escrow-style bounded counter (src/crdt/bounded_counter.rs) as a value:
    what each operation does to it, what its sums conserve, and exactly when spending
    through it cannot overdraw. */
module Counters {
  import opened Operations
  import opened MapSums

  datatype TransferEntry = TransferEntry(from: ReplicaId, to: ReplicaId, amount: nat)

  datatype Counter = Counter(
    initial: map<ReplicaId, nat>,
    grants: map<PayoutId, Entry>,
    spends: map<OpId, Entry>,
    transfers: map<OpId, TransferEntry>)

  const EMPTY_COUNTER := Counter(map[], map[], map[], map[])

  function Of<K>(m: map<K, nat>, k: K): nat {
    if k in m then m[k] else 0
  }

  function Max(a: nat, b: nat): nat {
    if a < b then b else a
  }

  // ---- reading ----

  ghost function Credits(transfers: map<OpId, TransferEntry>): map<OpId, Entry> {
    map id | id in transfers :: Entry(transfers[id].to, transfers[id].amount)
  }

  ghost function Debits(transfers: map<OpId, TransferEntry>): map<OpId, Entry> {
    map id | id in transfers :: Entry(transfers[id].from, transfers[id].amount)
  }

  /** The spending rights of a replica, in true amounts. */
  ghost function Rights(c: Counter, r: ReplicaId): int {
    Of(c.initial, r) + Held(c.grants, r) + Held(Credits(c.transfers), r)
    - Held(Debits(c.transfers), r) - Held(c.spends, r)
  }

  /** What `available` reports, i64 overflow apart: the sum of the amounts as they are
      cast.  It is what the guards look at. */
  ghost function Available(c: Counter, r: ReplicaId): int {
    AsI64(Of(c.initial, r)) + CastHeld(c.grants, r) + CastHeld(Credits(c.transfers), r)
    - CastHeld(Debits(c.transfers), r) - CastHeld(c.spends, r)
  }

  /** The replicas that total_remaining enumerates: a replica known only from
      its spends is not among them. */
  function Holders(c: Counter): set<ReplicaId> {
    c.initial.Keys
    + (set id | id in c.grants :: c.grants[id].replica)
    + (set id | id in c.transfers :: c.transfers[id].from)
    + (set id | id in c.transfers :: c.transfers[id].to)
  }

  ghost function RightsBy(c: Counter, owners: set<ReplicaId>): map<ReplicaId, int> {
    map r | r in owners :: Rights(c, r)
  }

  ghost function TotalRights(c: Counter): int {
    Sum(RightsBy(c, Holders(c)))
  }

  ghost function AvailableBy(c: Counter, owners: set<ReplicaId>): map<ReplicaId, int> {
    map r | r in owners :: Available(c, r)
  }

  /** What `total_remaining` reports. */
  ghost function TotalRemaining(c: Counter): int {
    Sum(AvailableBy(c, Holders(c)))
  }

  ghost function TotalSpent(c: Counter): int {
    Total(c.spends)
  }

  ghost predicate Solvent(c: Counter) {
    forall r :: 0 <= Rights(c, r)
  }

  /** What left the counter's replicas was cast faithfully, or moved in place. */
  ghost predicate OutgoingFits(c: Counter) {
    && (forall id :: id in c.spends ==> c.spends[id].amount < TWO_63)
    && (forall id :: id in c.transfers ==>
          c.transfers[id].amount < TWO_63 || c.transfers[id].from == c.transfers[id].to)
  }

  ghost predicate IncomeFits(c: Counter) {
    && (forall r :: r in c.initial ==> c.initial[r] < TWO_63)
    && (forall pid :: pid in c.grants ==> c.grants[pid].amount < TWO_63)
  }

  // ---- the rights and what the program reports of them ----

  /** Transfers that fit, or stay in place, move what they are cast to. */
  lemma {:induction false} NetTransfers(t: map<OpId, TransferEntry>, r: ReplicaId)
    requires forall id :: id in t ==> t[id].amount < TWO_63 || t[id].from == t[id].to
    ensures CastHeld(Credits(t), r) - CastHeld(Debits(t), r) == Held(Credits(t), r) - Held(Debits(t), r)
    decreases |t|
  {
    if t == map[] {
      CastExact(Credits(t), r);
      CastExact(Debits(t), r);
    } else {
      var id := Pick(t);
      var rest, e := t - {id}, t[id];
      NetTransfers(rest, r);
      assert Credits(t) == Credits(rest)[id := Entry(e.to, e.amount)];
      assert Debits(t) == Debits(rest)[id := Entry(e.from, e.amount)];
      HeldPut(Credits(rest), id, Entry(e.to, e.amount), r);
      HeldPut(Debits(rest), id, Entry(e.from, e.amount), r);
      CastHeldPut(Credits(rest), id, Entry(e.to, e.amount), r);
      CastHeldPut(Debits(rest), id, Entry(e.from, e.amount), r);
    }
  }

  /** As long as what went out was cast faithfully, the program reports no more rights
      than there are; oversized income only makes it report fewer. */
  lemma AvailableAtMostRights(c: Counter, r: ReplicaId)
    requires OutgoingFits(c)
    ensures Available(c, r) <= Rights(c, r)
    ensures IncomeFits(c) ==> Available(c, r) == Rights(c, r)
  {
    NetTransfers(c.transfers, r);
    CastExact(c.spends, r);
    CastAtMost(c.grants, r);
    if IncomeFits(c) {
      CastExact(c.grants, r);
    }
  }

  lemma RemainingIsRights(c: Counter)
    requires OutgoingFits(c) && IncomeFits(c)
    ensures TotalRemaining(c) == TotalRights(c)
  {
    forall r | r in Holders(c) ensures AvailableBy(c, Holders(c))[r] == RightsBy(c, Holders(c))[r] {
      AvailableAtMostRights(c, r);
    }
    assert AvailableBy(c, Holders(c)) == RightsBy(c, Holders(c));
  }

  // ---- writing ----

  function SetInitialRights(c: Counter, r: ReplicaId, amount: nat): Counter {
    c.(initial := c.initial[r := Max(Of(c.initial, r), amount)])
  }

  function Grant(c: Counter, id: PayoutId, r: ReplicaId, amount: nat): Counter {
    c.(grants := c.grants[id := Entry(r, amount)])
  }

  /** The guard compares the rights with the amount cast to i64, so from 2^63 up it
      compares them with a negative number. */
  ghost predicate CanSpend(c: Counter, id: OpId, r: ReplicaId, amount: nat) {
    id in c.spends || AsI64(amount) <= Available(c, r)
  }

  function RecordSpend(c: Counter, id: OpId, r: ReplicaId, amount: nat): Counter {
    if id in c.spends then c else c.(spends := c.spends[id := Entry(r, amount)])
  }

  ghost function Spend(c: Counter, id: OpId, r: ReplicaId, amount: nat): Counter {
    if CanSpend(c, id, r, amount) then RecordSpend(c, id, r, amount) else c
  }

  ghost predicate CanTransfer(c: Counter, id: OpId, from: ReplicaId, amount: nat) {
    id in c.transfers || AsI64(amount) <= Available(c, from)
  }

  function RecordTransfer(c: Counter, id: OpId, from: ReplicaId, to: ReplicaId, amount: nat): Counter {
    if id in c.transfers then c else c.(transfers := c.transfers[id := TransferEntry(from, to, amount)])
  }

  ghost function Transfer(c: Counter, id: OpId, from: ReplicaId, to: ReplicaId, amount: nat): Counter {
    if CanTransfer(c, id, from, amount) then RecordTransfer(c, id, from, to, amount) else c
  }

  // ---- what each write does to every replica's rights ----

  lemma EmptyRights(r: ReplicaId)
    ensures Rights(EMPTY_COUNTER, r) == Available(EMPTY_COUNTER, r) == 0
  {
    assert Owned<PayoutId>(map[], r) == map[];
    assert Owned<OpId>(map[], r) == map[];
    assert Credits(map[]) == map[] && Debits(map[]) == map[];
    AvailableAtMostRights(EMPTY_COUNTER, r);
  }

  lemma EmptySolvent()
    ensures Solvent(EMPTY_COUNTER)
  {
    forall r ensures 0 <= Rights(EMPTY_COUNTER, r) {
      EmptyRights(r);
    }
  }

  lemma InitialRightsGrow(c: Counter, initial: map<ReplicaId, nat>, r: ReplicaId)
    requires Of(c.initial, r) <= Of(initial, r)
    ensures Rights(c.(initial := initial), r) == Rights(c, r) + Of(initial, r) - Of(c.initial, r)
    ensures Available(c.(initial := initial), r)
         == Available(c, r) + AsI64(Of(initial, r)) - AsI64(Of(c.initial, r))
  {
  }

  lemma GrantCredits(c: Counter, id: PayoutId, q: ReplicaId, amount: nat, r: ReplicaId)
    requires id !in c.grants
    ensures Rights(Grant(c, id, q, amount), r) == Rights(c, r) + if r == q then amount else 0
    ensures Available(Grant(c, id, q, amount), r) == Available(c, r) + if r == q then AsI64(amount) else 0
  {
    HeldPut(c.grants, id, Entry(q, amount), r);
    CastHeldPut(c.grants, id, Entry(q, amount), r);
  }

  lemma SpendDebits(c: Counter, id: OpId, q: ReplicaId, amount: nat, r: ReplicaId)
    requires id !in c.spends && CanSpend(c, id, q, amount)
    ensures Rights(Spend(c, id, q, amount), r) == Rights(c, r) - if r == q then amount else 0
    ensures Available(Spend(c, id, q, amount), r) == Available(c, r) - if r == q then AsI64(amount) else 0
  {
    HeldPut(c.spends, id, Entry(q, amount), r);
    CastHeldPut(c.spends, id, Entry(q, amount), r);
  }

  lemma TransferMoves(c: Counter, id: OpId, from: ReplicaId, to: ReplicaId, amount: nat, r: ReplicaId)
    requires id !in c.transfers && CanTransfer(c, id, from, amount)
    ensures Rights(Transfer(c, id, from, to, amount), r)
         == Rights(c, r) - (if r == from then amount else 0) + if r == to then amount else 0
    ensures Available(Transfer(c, id, from, to, amount), r)
         == Available(c, r) - (if r == from then AsI64(amount) else 0) + if r == to then AsI64(amount) else 0
  {
    var t := c.transfers[id := TransferEntry(from, to, amount)];
    assert Credits(t) == Credits(c.transfers)[id := Entry(to, amount)];
    assert Debits(t) == Debits(c.transfers)[id := Entry(from, amount)];
    HeldPut(Credits(c.transfers), id, Entry(to, amount), r);
    HeldPut(Debits(c.transfers), id, Entry(from, amount), r);
    CastHeldPut(Credits(c.transfers), id, Entry(to, amount), r);
    CastHeldPut(Debits(c.transfers), id, Entry(from, amount), r);
  }

  /** Granting a known id again replaces what it granted. */
  lemma RegrantReplaces(c: Counter, id: PayoutId, q: ReplicaId, amount: nat, r: ReplicaId)
    requires id in c.grants
    ensures Rights(Grant(c, id, q, amount), r)
         == Rights(c, r) - (if r == c.grants[id].replica then c.grants[id].amount else 0) + if r == q then amount else 0
  {
    var without := c.grants - {id};
    assert c.grants == without[id := c.grants[id]];
    assert c.grants[id := Entry(q, amount)] == without[id := Entry(q, amount)];
    HeldPut(without, id, c.grants[id], r);
    HeldPut(without, id, Entry(q, amount), r);
  }

  /** A retry of a known id succeeds and, like a refusal, changes nothing. */
  lemma RetriesChangeNothing(c: Counter, id: OpId, q: ReplicaId, to: ReplicaId, amount: nat)
    ensures id in c.spends ==> CanSpend(c, id, q, amount)
    ensures id in c.spends || Available(c, q) < AsI64(amount) ==> Spend(c, id, q, amount) == c
    ensures id in c.transfers ==> CanTransfer(c, id, q, amount)
    ensures id in c.transfers || Available(c, q) < AsI64(amount) ==> Transfer(c, id, q, to, amount) == c
  {
  }

  lemma GrantKeepsSolvent(c: Counter, id: PayoutId, q: ReplicaId, amount: nat)
    requires Solvent(c) && id !in c.grants
    ensures Solvent(Grant(c, id, q, amount))
  {
    forall r ensures 0 <= Rights(Grant(c, id, q, amount), r) {
      GrantCredits(c, id, q, amount, r);
    }
  }

  /** The guard keeps every replica's rights non-negative for a known id and for an
      amount below 2^63, and, where it accepts, for nothing else. */
  lemma SpendKeepsSolvent(c: Counter, id: OpId, q: ReplicaId, amount: nat)
    requires Solvent(c) && OutgoingFits(c)
    ensures id in c.spends || amount < TWO_63 ==>
              Solvent(Spend(c, id, q, amount)) && OutgoingFits(Spend(c, id, q, amount))
    ensures CanSpend(c, id, q, amount) && Rights(c, q) < TWO_63 ==>
              (Solvent(Spend(c, id, q, amount)) <==> id in c.spends || amount < TWO_63)
  {
    if id !in c.spends && CanSpend(c, id, q, amount) {
      AvailableAtMostRights(c, q);
      forall r
        ensures Rights(Spend(c, id, q, amount), r) == Rights(c, r) - if r == q then amount else 0
      {
        SpendDebits(c, id, q, amount, r);
      }
      assert Rights(Spend(c, id, q, amount), q) == Rights(c, q) - amount;
    }
  }

  /** And it accepts every greater u64 amount as soon as it reports no negative rights. */
  lemma OversizedIsAccepted(c: Counter, id: OpId, q: ReplicaId, amount: nat)
    requires 0 <= Available(c, q) && TWO_63 <= amount < TWO_64
    ensures CanSpend(c, id, q, amount) && CanTransfer(c, id, q, amount)
  {
  }

  lemma TransferredRights(c: Counter, d: Counter, id: OpId, from: ReplicaId, to: ReplicaId, amount: nat)
    requires id !in c.transfers && CanTransfer(c, id, from, amount) && d == Transfer(c, id, from, to, amount)
    ensures forall r :: Rights(d, r) == Rights(c, r) - (if r == from then amount else 0) + if r == to then amount else 0
  {
    forall r
      ensures Rights(d, r) == Rights(c, r) - (if r == from then amount else 0) + if r == to then amount else 0
    {
      TransferMoves(c, id, from, to, amount, r);
    }
  }

  /** As for spends; a transfer to oneself never harms. */
  lemma TransferKeepsSolvent(c: Counter, id: OpId, from: ReplicaId, to: ReplicaId, amount: nat)
    requires Solvent(c) && OutgoingFits(c)
    ensures id in c.transfers || from == to || amount < TWO_63 ==>
              Solvent(Transfer(c, id, from, to, amount)) && OutgoingFits(Transfer(c, id, from, to, amount))
    ensures CanTransfer(c, id, from, amount) && Rights(c, from) < TWO_63 ==>
              (Solvent(Transfer(c, id, from, to, amount)) <==> id in c.transfers || from == to || amount < TWO_63)
  {
    if id !in c.transfers && CanTransfer(c, id, from, amount) {
      AvailableAtMostRights(c, from);
      TransferredRights(c, Transfer(c, id, from, to, amount), id, from, to, amount);
      assert Rights(Transfer(c, id, from, to, amount), from)
          == Rights(c, from) - amount + if from == to then amount else 0;
    }
  }

  /** The failure at one input: 100 rights, a spend of 2^64 - 1 is accepted, and 101 rights
      are reported. */
  lemma OversizedSpendOverdraws()
    ensures var c := EMPTY_COUNTER.(initial := map[1 := 100]);
            && Solvent(c) && CanSpend(c, 5, 1, TWO_64 - 1)
            && Rights(Spend(c, 5, 1, TWO_64 - 1), 1) == 100 - (TWO_64 - 1)
            && Available(Spend(c, 5, 1, TWO_64 - 1), 1) == 101
  {
    var c := EMPTY_COUNTER.(initial := map[1 := 100]);
    forall r ensures Rights(c, r) == Available(c, r) == if r == 1 then 100 else 0 {
      EmptyRights(r);
      InitialRightsGrow(EMPTY_COUNTER, map[1 := 100], r);
    }
    assert AsI64(TWO_64 - 1) == -1;
    SpendDebits(c, 5, 1, TWO_64 - 1, 1);
  }

  lemma RaisingKeepsSolvent(c: Counter, initial: map<ReplicaId, nat>)
    requires Solvent(c)
    requires forall r :: Of(c.initial, r) <= Of(initial, r)
    ensures Solvent(c.(initial := initial))
  {
    forall r ensures 0 <= Rights(c.(initial := initial), r) {
      InitialRightsGrow(c, initial, r);
    }
  }

  // ---- conservation ----

  lemma CreditsMatchDebits(t: map<OpId, TransferEntry>)
    ensures Total(Credits(t)) == Total(Debits(t))
  {
    assert Amounts(Credits(t)) == Amounts(Debits(t));
  }

  lemma InitialByHolder(c: Counter, owners: set<ReplicaId>)
    requires c.initial.Keys <= owners
    ensures Sum(map r | r in owners :: Of(c.initial, r) as int) == Sum<ReplicaId>(c.initial)
  {
    SumPad<ReplicaId>(c.initial, map r | r in owners :: Of(c.initial, r) as int);
  }

  /** A replica outside Holders has no income, so in a solvent counter it spent nothing. */
  lemma OutsidersSpentNothing(c: Counter, id: OpId)
    requires Solvent(c)
    requires id in c.spends && c.spends[id].replica !in Holders(c)
    ensures c.spends[id].amount == 0
  {
    var r := c.spends[id].replica;
    assert 0 <= Rights(c, r);
    assert Owned(c.grants, r) == map[];
    assert Owned(Credits(c.transfers), r) == map[];
    HeldBounds(c.spends, r);
  }

  /** Rights are conserved: what remains plus what was spent is exactly what was
      ever handed out, transfers cancelling. */
  lemma Conservation(c: Counter)
    requires Solvent(c)
    ensures TotalRights(c) + TotalSpent(c) == Sum<ReplicaId>(c.initial) + Total(c.grants)
    ensures 0 <= TotalRights(c)
    ensures OutgoingFits(c) && IncomeFits(c) ==> TotalRemaining(c) == TotalRights(c)
  {
    if OutgoingFits(c) && IncomeFits(c) {
      RemainingIsRights(c);
    }
    var owners := Holders(c);
    var initial := map r | r in owners :: Of(c.initial, r) as int;
    var grants, spends := HeldBy(c.grants, owners), HeldBy(c.spends, owners);
    var credits, debits := HeldBy(Credits(c.transfers), owners), HeldBy(Debits(c.transfers), owners);
    forall id | id in c.spends ensures c.spends[id].replica in owners || c.spends[id].amount == 0 {
      if c.spends[id].replica !in owners {
        OutsidersSpentNothing(c, id);
      }
    }
    InitialByHolder(c, owners);
    TotalByOwner(c.grants, owners);
    TotalByOwner(c.spends, owners);
    TotalByOwner(Credits(c.transfers), owners);
    TotalByOwner(Debits(c.transfers), owners);
    CreditsMatchDebits(c.transfers);
    var gross := map r | r in owners :: Of(c.initial, r) + Held(c.grants, r) + Held(Credits(c.transfers), r);
    SumAdd3(initial, grants, credits, gross);
    SumAdd3(RightsBy(c, owners), debits, spends, gross);
    SumNonneg(RightsBy(c, owners));
  }

  lemma {:induction false} SumAdd3<K>(a: map<K, int>, b: map<K, int>, c: map<K, int>, t: map<K, int>)
    requires a.Keys == t.Keys && b.Keys == t.Keys && c.Keys == t.Keys
    requires forall k :: k in t ==> t[k] == a[k] + b[k] + c[k]
    ensures Sum(t) == Sum(a) + Sum(b) + Sum(c)
  {
    var ab := map k | k in t :: a[k] + b[k];
    assert ab.Keys == t.Keys;
    SumAdd(a, b, ab);
    SumAdd(ab, c, t);
  }

  /** Spending never exceeds what was handed out. */
  lemma NeverOverspent(c: Counter)
    requires Solvent(c)
    ensures TotalSpent(c) <= Sum<ReplicaId>(c.initial) + Total(c.grants)
  {
    Conservation(c);
  }

  // ---- comparing two counters from one replica's point of view ----

  /** Everything replica r spent or transferred away in a it also did in b. */
  ghost predicate OutgoingWithin(a: Counter, b: Counter, r: ReplicaId) {
    && (forall id :: id in a.spends && a.spends[id].replica == r ==> id in b.spends && b.spends[id] == a.spends[id])
    && (forall id :: id in a.transfers && a.transfers[id].from == r ==>
          id in b.transfers && b.transfers[id] == a.transfers[id])
  }

  /** Everything replica r received in a it also received in b. */
  ghost predicate IncomingWithin(a: Counter, b: Counter, r: ReplicaId) {
    && Of(a.initial, r) <= Of(b.initial, r)
    && (forall id :: id in a.grants && a.grants[id].replica == r ==> id in b.grants && b.grants[id] == a.grants[id])
    && (forall id :: id in a.transfers && a.transfers[id].to == r ==>
          id in b.transfers && b.transfers[id] == a.transfers[id])
  }

  /** More income and no more spending mean no fewer rights. */
  lemma RightsMono(a: Counter, b: Counter, r: ReplicaId)
    requires IncomingWithin(a, b, r)
    requires OutgoingWithin(b, a, r)
    ensures Rights(a, r) <= Rights(b, r)
  {
    HeldMono(a.grants, b.grants, r);
    HeldMono(Credits(a.transfers), Credits(b.transfers), r);
    HeldMono(b.spends, a.spends, r);
    HeldMono(Debits(b.transfers), Debits(a.transfers), r);
  }

  /** What b has more than a among the income of r was cast faithfully. */
  ghost predicate MoreIncomeFits(a: Counter, b: Counter, r: ReplicaId) {
    && AsI64(Of(a.initial, r)) <= AsI64(Of(b.initial, r))
    && (forall id :: id in b.grants && b.grants[id].replica == r ==>
          (id in a.grants && a.grants[id] == b.grants[id]) || b.grants[id].amount < TWO_63)
    && (forall id :: id in b.transfers && b.transfers[id].to == r ==>
          (id in a.transfers && a.transfers[id] == b.transfers[id]) || b.transfers[id].amount < TWO_63)
  }

  /** What a has more than b among what r gave away was cast faithfully. */
  ghost predicate MoreOutgoingFits(a: Counter, b: Counter, r: ReplicaId) {
    && (forall id :: id in a.spends && a.spends[id].replica == r ==>
          (id in b.spends && b.spends[id] == a.spends[id]) || a.spends[id].amount < TWO_63)
    && (forall id :: id in a.transfers && a.transfers[id].from == r ==>
          (id in b.transfers && b.transfers[id] == a.transfers[id]) || a.transfers[id].amount < TWO_63)
  }

  /** Then the program reports no fewer rights either. */
  lemma AvailableMono(a: Counter, b: Counter, r: ReplicaId)
    requires IncomingWithin(a, b, r) && MoreIncomeFits(a, b, r)
    requires OutgoingWithin(b, a, r) && MoreOutgoingFits(a, b, r)
    ensures Available(a, r) <= Available(b, r)
  {
    CastHeldMono(a.grants, b.grants, r);
    CastHeldMono(Credits(a.transfers), Credits(b.transfers), r);
    CastHeldMono(b.spends, a.spends, r);
    CastHeldMono(Debits(b.transfers), Debits(a.transfers), r);
  }
}
