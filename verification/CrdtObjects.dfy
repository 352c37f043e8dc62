/** The CRDTs as the program has them: objects updated in place
    (src/crdt, src/domain/round.rs, src/sync/lamport_clock.rs).  Each method is
    proved against the value it computes; the laws of those values are in Counters,
    Merges and Escrow. */
module CrdtObjects {
  import opened Operations
  import opened MapSums
  import opened Counters
  import opened Merges
  import opened BetState

  class LamportClock {
    var time: nat

    constructor ()
      ensures time == 0
    {
      time := 0;
    }

    method Tick() returns (now: nat)
      modifies this
      ensures now == time == old(time) + 1
    {
      time := time + 1;
      now := time;
    }

    method Observe(remote: nat)
      modifies this
      ensures time == Max(old(time), remote)
    {
      time := if time < remote then remote else time;
    }
  }

  class Round {
    var id: RoundId
    var dealer: PlayerId
    var phase: Phase
    var result: Option<nat>

    function View(): RoundView
      reads this
    {
      RoundView(id, dealer, phase, result)
    }

    constructor Of(view: RoundView)
      ensures View() == view
    {
      id, dealer, phase, result := view.id, view.dealer, view.phase, view.result;
    }

    method Open() returns (ok: bool)
      modifies this
      ensures ok == CanOpen(old(View())) == (old(phase) == Created)
      ensures phase == (if ok then BettingOpen else old(phase)) && result == old(result)
      ensures View() == if ok then Opened(old(View())) else old(View())
    {
      if phase != Created {
        return false;
      }
      phase := BettingOpen;
      return true;
    }

    method Close() returns (ok: bool)
      modifies this
      ensures ok == CanClose(old(View())) == (old(phase) == BettingOpen)
      ensures phase == (if ok then BettingClosed else old(phase)) && result == old(result)
      ensures View() == if ok then Closed(old(View())) else old(View())
    {
      if phase != BettingOpen {
        return false;
      }
      phase := BettingClosed;
      return true;
    }

    method Resolve(dice: nat) returns (ok: bool)
      modifies this
      ensures ok == CanResolve(old(View()), dice) == (old(phase) == BettingClosed && 1 <= dice <= 6)
      ensures if ok then phase == Resolved && result == Some(dice) else phase == old(phase) && result == old(result)
      ensures View() == if ok then ResolvedWith(old(View()), dice) else old(View())
    {
      if phase != BettingClosed || !(1 <= dice <= 6) {
        return false;
      }
      phase := Resolved;
      result := Some(dice);
      return true;
    }
  }

  class LwwRegister<T> {
    var value: T
    var time: nat
    var replica: ReplicaId

    function Model(): Lww<T>
      reads this
    {
      Lww(value, time, replica)
    }

    constructor Of(register: Lww<T>)
      ensures Model() == register
    {
      value, time, replica := register.value, register.time, register.replica;
    }

    method AssignValue(newValue: T, newTime: nat, newReplica: ReplicaId)
      modifies this
      ensures Model() == Assign(old(Model()), newValue, newTime, newReplica)
    {
      if newTime > time || (newTime == time && newReplica > replica) {
        value, time, replica := newValue, newTime, newReplica;
      }
    }

    method MergeWith(other: Lww<T>)
      modifies this
      ensures Model() == MergeLww(old(Model()), other)
    {
      if other.time > time || (other.time == time && other.replica > replica) {
        value, time, replica := other.value, other.time, other.replica;
      }
    }
  }

  // ---- sums over a map's values ----

  method SumValues<K>(m: map<K, nat>) returns (sum: nat)
    ensures sum == Sum<K>(m)
  {
    var left := m;
    sum := 0;
    while left != map[]
      invariant sum + Sum<K>(left) == Sum<K>(m)
      decreases |left|
    {
      var k :| k in left;
      SumRemove<K>(left, k);
      sum := sum + left[k];
      left := left - {k};
    }
  }

  /** values().filter(replica == r).map(amount as i64).sum() */
  method SumOwned<K>(m: map<K, Entry>, r: ReplicaId) returns (sum: int)
    ensures sum == CastHeld(m, r)
  {
    var left := m;
    sum := 0;
    while left != map[]
      invariant sum + CastHeld(left, r) == CastHeld(m, r)
      decreases |left|
    {
      var k :| k in left;
      CastHeldPut(left - {k}, k, left[k], r);
      assert (left - {k})[k := left[k]] == left;
      if left[k].replica == r {
        sum := sum + AsI64(left[k].amount);
      }
      left := left - {k};
    }
    assert CastOwned(left, r) == map[];
  }

  /** values().filter(to == r).map(amount as i64).sum() */
  method SumIncoming(m: map<OpId, TransferEntry>, r: ReplicaId) returns (sum: int)
    ensures sum == CastHeld(Credits(m), r)
  {
    var left := m;
    sum := 0;
    while left != map[]
      invariant sum + CastHeld(Credits(left), r) == CastHeld(Credits(m), r)
      decreases |left|
    {
      var k :| k in left;
      ghost var rest := Credits(left - {k});
      assert rest[k := Entry(left[k].to, left[k].amount)] == Credits(left);
      CastHeldPut(rest, k, Entry(left[k].to, left[k].amount), r);
      if left[k].to == r {
        sum := sum + AsI64(left[k].amount);
      }
      left := left - {k};
    }
    assert CastOwned(Credits(left), r) == map[];
  }

  /** values().filter(from == r).map(amount as i64).sum() */
  method SumOutgoing(m: map<OpId, TransferEntry>, r: ReplicaId) returns (sum: int)
    ensures sum == CastHeld(Debits(m), r)
  {
    var left := m;
    sum := 0;
    while left != map[]
      invariant sum + CastHeld(Debits(left), r) == CastHeld(Debits(m), r)
      decreases |left|
    {
      var k :| k in left;
      ghost var rest := Debits(left - {k});
      assert rest[k := Entry(left[k].from, left[k].amount)] == Debits(left);
      CastHeldPut(rest, k, Entry(left[k].from, left[k].amount), r);
      if left[k].from == r {
        sum := sum + AsI64(left[k].amount);
      }
      left := left - {k};
    }
    assert CastOwned(Debits(left), r) == map[];
  }

  method SumAmounts<K>(m: map<K, Entry>) returns (sum: int)
    ensures sum == Total(m)
  {
    var left := m;
    sum := 0;
    while left != map[]
      invariant sum + Total(left) == Total(m)
      decreases |left|
    {
      var k :| k in left;
      TotalPut(left - {k}, k, left[k]);
      assert (left - {k})[k := left[k]] == left;
      sum := sum + left[k].amount;
      left := left - {k};
    }
    assert Amounts(left) == map[];
  }

  // ---- map merges ----

  lemma MaxStep<K>(merged: map<K, nat>, left: map<K, nat>, k: K, next: map<K, nat>)
    requires k in left
    requires next == merged[k := Max(Of(merged, k), left[k])]
    ensures MergeMax(next, left - {k}) == MergeMax(merged, left)
  {
    var a, b := MergeMax(next, left - {k}), MergeMax(merged, left);
    forall j ensures j in a <==> j in b {
    }
    assert a.Keys == b.Keys;
    forall j | j in b ensures a[j] == b[j] {
    }
  }

  method MergeMaxMap<K(!new)>(target: map<K, nat>, source: map<K, nat>) returns (merged: map<K, nat>)
    ensures merged == MergeMax(target, source)
  {
    var left := source;
    merged := target;
    while left != map[]
      invariant MergeMax(merged, left) == MergeMax(target, source)
      decreases |left|
    {
      var k :| k in left;
      var next := merged[k := Max(Of(merged, k), left[k])];
      MaxStep(merged, left, k, next);
      merged := next;
      left := left - {k};
    }
    assert MergeMax(merged, map[]) == merged;
  }

  lemma GreaterStep<K, E(!new)>(leq: (E, E) -> bool, merged: map<K, E>, left: map<K, E>, k: K, next: map<K, E>)
    requires k in left
    requires next == if k in merged && leq(left[k], merged[k]) then merged else merged[k := left[k]]
    requires TotalOrder(leq)
    ensures MergeGreater(leq, next, left - {k}) == MergeGreater(leq, merged, left)
  {
    var a, b := MergeGreater(leq, next, left - {k}), MergeGreater(leq, merged, left);
    assert leq(left[k], left[k]);
    assert next.Keys == merged.Keys + {k};
    assert a.Keys == b.Keys;
    forall j | j in b ensures a[j] == b[j] {
      if j != k {
        assert j in left - {k} <==> j in left;
      }
    }
  }

  /** merge_entry_map, for entries with any total order. */
  method MergeEntryMap<K(!new), E(!new)>(leq: (E, E) -> bool, target: map<K, E>, source: map<K, E>)
    returns (merged: map<K, E>)
    requires TotalOrder(leq)
    ensures merged == MergeGreater(leq, target, source)
  {
    var left := source;
    merged := target;
    while left != map[]
      invariant MergeGreater(leq, merged, left) == MergeGreater(leq, target, source)
      decreases |left|
    {
      var k :| k in left;
      var next := if k in merged && leq(left[k], merged[k]) then merged else merged[k := left[k]];
      GreaterStep(leq, merged, left, k, next);
      merged := next;
      left := left - {k};
    }
    GreaterDone(leq, merged);
  }

  lemma GreaterDone<K, E(!new)>(leq: (E, E) -> bool, merged: map<K, E>)
    ensures MergeGreater(leq, merged, map[]) == merged
  {
    assert MergeGreater(leq, merged, map[]).Keys == merged.Keys;
  }

  lemma TagStep<T>(merged: map<T, set<OpId>>, left: map<T, set<OpId>>, k: T, next: map<T, set<OpId>>)
    requires k in left
    requires next == merged[k := TagsIn(merged, k) + left[k]]
    ensures MergeTags(next, left - {k}) == MergeTags(merged, left)
  {
    var a, b := MergeTags(next, left - {k}), MergeTags(merged, left);
    assert next.Keys == merged.Keys + {k};
    assert a.Keys == b.Keys;
    forall j | j in b ensures a[j] == b[j] {
      if j == k {
        assert a[j] == TagsIn(next, k) + {};
      } else {
        assert TagsIn(left - {k}, j) == TagsIn(left, j) && TagsIn(next, j) == TagsIn(merged, j);
      }
    }
  }

  lemma TagDone<T>(merged: map<T, set<OpId>>)
    ensures MergeTags(merged, map[]) == merged
  {
    var m := MergeTags(merged, map[]);
    assert m.Keys == merged.Keys;
    forall x | x in merged ensures m[x] == merged[x] {
      assert m[x] == merged[x] + {};
    }
  }

  method MergeTagMap<T(!new)>(target: map<T, set<OpId>>, source: map<T, set<OpId>>)
    returns (merged: map<T, set<OpId>>)
    ensures merged == MergeTags(target, source)
  {
    var left := source;
    merged := target;
    while left != map[]
      invariant MergeTags(merged, left) == MergeTags(target, source)
      decreases |left|
    {
      var k :| k in left;
      var next := merged[k := TagsIn(merged, k) + left[k]];
      TagStep(merged, left, k, next);
      merged := next;
      left := left - {k};
    }
    TagDone(merged);
  }

  // ---- bounded counter ----

  lemma AvailableWithout(c: Counter, owners: set<ReplicaId>, r: ReplicaId)
    requires r in owners
    ensures Sum(AvailableBy(c, owners)) == Available(c, r) + Sum(AvailableBy(c, owners - {r}))
  {
    SumRemove(AvailableBy(c, owners), r);
    FewerOwners(c, owners, r);
  }

  lemma FewerOwners(c: Counter, owners: set<ReplicaId>, r: ReplicaId)
    ensures AvailableBy(c, owners) - {r} == AvailableBy(c, owners - {r})
  {
  }

  class BoundedCounter {
    var initial: map<ReplicaId, nat>
    var grants: map<PayoutId, Entry>
    var spends: map<OpId, Entry>
    var transfers: map<OpId, TransferEntry>

    function Model(): Counter
      reads this
    {
      Counter(initial, grants, spends, transfers)
    }

    constructor Of(c: Counter)
      ensures Model() == c
    {
      initial, grants, spends, transfers := c.initial, c.grants, c.spends, c.transfers;
    }

    method AddInitialRights(r: ReplicaId, amount: nat)
      modifies this
      ensures Model() == SetInitialRights(old(Model()), r, amount)
    {
      var entry := if r in initial then initial[r] else 0;
      initial := initial[r := if entry < amount then amount else entry];
    }

    method AddGrant(id: PayoutId, r: ReplicaId, amount: nat)
      modifies this
      ensures Model() == Grant(old(Model()), id, r, amount)
    {
      grants := grants[id := Entry(r, amount)];
    }

    method GetAvailable(r: ReplicaId) returns (available: int)
      ensures available == Available(Model(), r)
    {
      var granted := SumOwned(grants, r);
      var incoming := SumIncoming(transfers, r);
      var outgoing := SumOutgoing(transfers, r);
      var spent := SumOwned(spends, r);
      available := AsI64(if r in initial then initial[r] else 0) + granted + incoming - outgoing - spent;
    }

    method TrySpend(id: OpId, r: ReplicaId, amount: nat) returns (ok: bool)
      modifies this
      ensures ok <==> CanSpend(old(Model()), id, r, amount)
      ensures Model() == Spend(old(Model()), id, r, amount)
    {
      if id in spends {
        return true;
      }
      var available := GetAvailable(r);
      if available < AsI64(amount) {
        return false;
      }
      spends := spends[id := Entry(r, amount)];
      return true;
    }

    method TryTransfer(id: OpId, from: ReplicaId, to: ReplicaId, amount: nat) returns (ok: bool)
      modifies this
      ensures ok <==> CanTransfer(old(Model()), id, from, amount)
      ensures Model() == Transfer(old(Model()), id, from, to, amount)
    {
      if id in transfers {
        return true;
      }
      var available := GetAvailable(from);
      if available < AsI64(amount) {
        return false;
      }
      transfers := transfers[id := TransferEntry(from, to, amount)];
      return true;
    }

    method GetTotalRemaining() returns (remaining: int)
      ensures remaining == TotalRemaining(Model())
    {
      var left := Holders(Model());
      remaining := 0;
      while left != {}
        invariant left <= Holders(Model())
        invariant remaining + Sum(AvailableBy(Model(), left)) == TotalRemaining(Model())
        decreases |left|
      {
        var r :| r in left;
        var available := GetAvailable(r);
        AvailableWithout(Model(), left, r);
        remaining := remaining + available;
        left := left - {r};
      }
    }

    method GetTotalSpent() returns (spent: int)
      ensures spent == TotalSpent(Model())
    {
      spent := SumAmounts(spends);
    }

    method MergeWith(other: Counter)
      modifies this
      ensures Model() == MergeCounters(old(Model()), other)
    {
      initial := MergeMaxMap(initial, other.initial);
      DerivedOrders();
      grants := MergeEntryMap(EntryLeq, grants, other.grants);
      spends := MergeEntryMap(EntryLeq, spends, other.spends);
      transfers := MergeEntryMap(TransferLeq, transfers, other.transfers);
    }
  }

  // ---- PN-counter ----

  class PositiveNegativeCounter {
    var increments: map<ReplicaId, nat>
    var decrements: map<ReplicaId, nat>

    function Model(): PNCounter
      reads this
    {
      PNCounter(increments, decrements)
    }

    constructor Of(c: PNCounter)
      ensures Model() == c
    {
      increments, decrements := c.increments, c.decrements;
    }

    method Raise(r: ReplicaId, amount: nat)
      modifies this
      ensures Model() == Increment(old(Model()), r, amount)
    {
      increments := increments[r := (if r in increments then increments[r] else 0) + amount];
    }

    method Lower(r: ReplicaId, amount: nat)
      modifies this
      ensures Model() == Decrement(old(Model()), r, amount)
    {
      decrements := decrements[r := (if r in decrements then decrements[r] else 0) + amount];
    }

    method GetValue() returns (value: int)
      ensures value == Value(Model())
    {
      var up: int := SumValues(increments);
      var down: int := SumValues(decrements);
      value := up - down;
    }

    method MergeWith(other: PNCounter)
      modifies this
      ensures Model() == MergePN(old(Model()), other)
    {
      increments := MergeMaxMap(increments, other.increments);
      decrements := MergeMaxMap(decrements, other.decrements);
    }
  }

  // ---- OR-set ----

  class ObservedRemoveSet<T(==, !new)> {
    var adds: map<T, set<OpId>>
    var removes: map<T, set<OpId>>

    function Model(): OrSet<T>
      reads this
    {
      OrSet(adds, removes)
    }

    constructor Of(s: OrSet<T>)
      ensures Model() == s
    {
      adds, removes := s.adds, s.removes;
    }

    method Insert(x: T, tag: OpId)
      modifies this
      ensures Model() == Add(old(Model()), x, tag)
    {
      adds := adds[x := (if x in adds then adds[x] else {}) + {tag}];
    }

    method Remove(x: T)
      modifies this
      ensures Model() == RemoveObserved(old(Model()), x)
    {
      if x !in adds {
        return;
      }
      var removed := if x in removes then removes[x] else {};
      ghost var before := removed;
      var left := adds[x];
      while left != {}
        invariant left <= adds[x]
        invariant removed == before + (adds[x] - left)
        decreases |left|
      {
        var tag :| tag in left;
        removed := removed + {tag};
        left := left - {tag};
      }
      assert removed == before + adds[x];
      removes := removes[x := removed];
    }

    method GetElements() returns (elements: set<T>)
      ensures elements == Elements(Model())
    {
      elements := {};
      var left := adds.Keys;
      while left != {}
        invariant left <= adds.Keys
        invariant elements == set x | x in adds.Keys - left && Contains(Model(), x)
        decreases |left|
      {
        var x :| x in left;
        if Contains(Model(), x) {
          elements := elements + {x};
        }
        left := left - {x};
      }
    }

    method MergeWith(other: OrSet<T>)
      modifies this
      ensures Model() == MergeOrSets(old(Model()), other)
    {
      adds := MergeTagMap(adds, other.adds);
      removes := MergeTagMap(removes, other.removes);
    }
  }
}
