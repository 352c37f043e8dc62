/** State-based merging of the four CRDTs (BoundedCounter, PNCounter, OrSet,
    LwwRegister): each merge is the join of a semilattice. */
module Merges {
  import opened Operations
  import opened MapSums
  import opened Counters

  // ---- maps of numbers: pointwise maximum ----

  function MergeMax<K>(a: map<K, nat>, b: map<K, nat>): map<K, nat> {
    map k | k in a.Keys + b.Keys :: Max(Of(a, k), Of(b, k))
  }

  ghost predicate MaxBelow<K>(a: map<K, nat>, b: map<K, nat>) {
    forall k :: k in a ==> k in b && a[k] <= b[k]
  }

  // ---- maps of ordered entries: the greater entry of each key ----

  ghost predicate TotalOrder<E(!new)>(leq: (E, E) -> bool) {
    && (forall x, y :: leq(x, y) || leq(y, x))
    && (forall x, y :: leq(x, y) && leq(y, x) ==> x == y)
    && (forall x, y, z :: leq(x, y) && leq(y, z) ==> leq(x, z))
  }

  function MergeGreater<K, E>(leq: (E, E) -> bool, a: map<K, E>, b: map<K, E>): map<K, E> {
    map k | k in a.Keys + b.Keys ::
      if k !in b then a[k] else if k !in a then b[k] else if leq(b[k], a[k]) then a[k] else b[k]
  }

  ghost predicate GreaterBelow<K, E>(leq: (E, E) -> bool, a: map<K, E>, b: map<K, E>) {
    forall k :: k in a ==> k in b && leq(a[k], b[k])
  }

  /** The derived order of SpendEntry and GrantEntry. */
  predicate EntryLeq(a: Entry, b: Entry) {
    a.replica < b.replica || (a.replica == b.replica && a.amount <= b.amount)
  }

  /** The derived order of TransferEntry. */
  predicate TransferLeq(a: TransferEntry, b: TransferEntry) {
    || a.from < b.from
    || (a.from == b.from && a.to < b.to)
    || (a.from == b.from && a.to == b.to && a.amount <= b.amount)
  }

  lemma DerivedOrders()
    ensures TotalOrder(EntryLeq) && TotalOrder(TransferLeq)
  {
  }

  // ---- bounded counter ----

  function MergeCounters(a: Counter, b: Counter): Counter {
    Counter(MergeMax(a.initial, b.initial), MergeGreater(EntryLeq, a.grants, b.grants),
            MergeGreater(EntryLeq, a.spends, b.spends), MergeGreater(TransferLeq, a.transfers, b.transfers))
  }

  ghost predicate CounterBelow(a: Counter, b: Counter) {
    && MaxBelow(a.initial, b.initial) && GreaterBelow(EntryLeq, a.grants, b.grants)
    && GreaterBelow(EntryLeq, a.spends, b.spends) && GreaterBelow(TransferLeq, a.transfers, b.transfers)
  }

  /** The merge is the least upper bound of its two inputs. */
  lemma CounterMergeIsJoin(a: Counter, b: Counter, upper: Counter)
    ensures CounterBelow(a, MergeCounters(a, b)) && CounterBelow(b, MergeCounters(a, b))
    ensures CounterBelow(a, upper) && CounterBelow(b, upper) ==> CounterBelow(MergeCounters(a, b), upper)
  {
    DerivedOrders();
    MaxJoin(a.initial, b.initial, upper.initial);
    GreaterJoin(EntryLeq, a.grants, b.grants, upper.grants);
    GreaterJoin(EntryLeq, a.spends, b.spends, upper.spends);
    GreaterJoin(TransferLeq, a.transfers, b.transfers, upper.transfers);
  }

  /** Where two counters disagree on an id, the entry of the greater replica id stays, and of
      the same replica the greater amount; for transfers the sender decides before the
      receiver before the amount. */
  lemma ConflictsResolved(a: Counter, b: Counter, id: OpId)
    ensures id in a.spends && id in b.spends ==>
              var x, y, z := a.spends[id], b.spends[id], MergeCounters(a, b).spends[id];
              && (x.replica < y.replica || (x.replica == y.replica && x.amount <= y.amount) ==> z == y)
              && (y.replica < x.replica || (x.replica == y.replica && y.amount <= x.amount) ==> z == x)
    ensures id in a.transfers && id in b.transfers ==>
              var x, y, z := a.transfers[id], b.transfers[id], MergeCounters(a, b).transfers[id];
              && (x.from < y.from ==> z == y)
              && (x.from == y.from && x.to < y.to ==> z == y)
              && (x.from == y.from && x.to == y.to && x.amount <= y.amount ==> z == y)
              && (z == x || z == y)
  {
  }

  lemma CounterMergeLaws(a: Counter, b: Counter, c: Counter)
    ensures MergeCounters(a, a) == a
    ensures MergeCounters(a, b) == MergeCounters(b, a)
    ensures MergeCounters(MergeCounters(a, b), c) == MergeCounters(a, MergeCounters(b, c))
  {
    MaxLaws(a.initial, b.initial, c.initial);
    DerivedOrders();
    GreaterLaws(EntryLeq, a.grants, b.grants, c.grants);
    GreaterLaws(EntryLeq, a.spends, b.spends, c.spends);
    GreaterLaws(TransferLeq, a.transfers, b.transfers, c.transfers);
  }

  lemma MaxJoin<K>(a: map<K, nat>, b: map<K, nat>, upper: map<K, nat>)
    ensures MaxBelow(a, MergeMax(a, b)) && MaxBelow(b, MergeMax(a, b))
    ensures MaxBelow(a, upper) && MaxBelow(b, upper) ==> MaxBelow(MergeMax(a, b), upper)
  {
  }

  lemma MaxAntisymmetric<K>(a: map<K, nat>, b: map<K, nat>)
    requires MaxBelow(a, b) && MaxBelow(b, a)
    ensures a == b
  {
    assert a.Keys == b.Keys;
  }

  lemma MaxTransitive<K>(a: map<K, nat>, b: map<K, nat>, c: map<K, nat>)
    requires MaxBelow(a, b) && MaxBelow(b, c)
    ensures MaxBelow(a, c)
  {
  }

  lemma MaxLaws<K>(a: map<K, nat>, b: map<K, nat>, c: map<K, nat>)
    ensures MergeMax(a, a) == a
    ensures MergeMax(a, b) == MergeMax(b, a)
    ensures MergeMax(MergeMax(a, b), c) == MergeMax(a, MergeMax(b, c))
  {
    MaxJoin(a, a, a);
    MaxAntisymmetric(MergeMax(a, a), a);
    MaxJoin(a, b, MergeMax(b, a));
    MaxJoin(b, a, MergeMax(a, b));
    MaxAntisymmetric(MergeMax(a, b), MergeMax(b, a));
    MaxAssociates(a, b, c);
  }

  /** Both groupings are the least upper bound of the three maps. */
  lemma MaxAssociates<K>(a: map<K, nat>, b: map<K, nat>, c: map<K, nat>)
    ensures MergeMax(MergeMax(a, b), c) == MergeMax(a, MergeMax(b, c))
  {
    var ab, bc := MergeMax(a, b), MergeMax(b, c);
    var left, right := MergeMax(ab, c), MergeMax(a, bc);
    MaxJoin(ab, c, right);
    MaxJoin(a, bc, left);
    MaxJoin(a, b, right);
    MaxJoin(b, c, left);
    MaxTransitive(a, ab, left);
    MaxTransitive(b, ab, left);
    MaxTransitive(b, bc, right);
    MaxTransitive(c, bc, right);
    MaxAntisymmetric(left, right);
  }

  lemma GreaterJoin<K, E(!new)>(leq: (E, E) -> bool, a: map<K, E>, b: map<K, E>, upper: map<K, E>)
    requires TotalOrder(leq)
    ensures GreaterBelow(leq, a, MergeGreater(leq, a, b)) && GreaterBelow(leq, b, MergeGreater(leq, a, b))
    ensures GreaterBelow(leq, a, upper) && GreaterBelow(leq, b, upper) ==>
              GreaterBelow(leq, MergeGreater(leq, a, b), upper)
  {
  }

  lemma GreaterAntisymmetric<K, E(!new)>(leq: (E, E) -> bool, a: map<K, E>, b: map<K, E>)
    requires TotalOrder(leq) && GreaterBelow(leq, a, b) && GreaterBelow(leq, b, a)
    ensures a == b
  {
    assert a.Keys == b.Keys;
  }

  lemma GreaterTransitive<K, E(!new)>(leq: (E, E) -> bool, a: map<K, E>, b: map<K, E>, c: map<K, E>)
    requires TotalOrder(leq) && GreaterBelow(leq, a, b) && GreaterBelow(leq, b, c)
    ensures GreaterBelow(leq, a, c)
  {
  }

  lemma GreaterLaws<K, E(!new)>(leq: (E, E) -> bool, a: map<K, E>, b: map<K, E>, c: map<K, E>)
    requires TotalOrder(leq)
    ensures MergeGreater(leq, a, a) == a
    ensures MergeGreater(leq, a, b) == MergeGreater(leq, b, a)
    ensures MergeGreater(leq, MergeGreater(leq, a, b), c) == MergeGreater(leq, a, MergeGreater(leq, b, c))
  {
    GreaterJoin(leq, a, a, a);
    GreaterAntisymmetric(leq, MergeGreater(leq, a, a), a);
    GreaterJoin(leq, a, b, MergeGreater(leq, b, a));
    GreaterJoin(leq, b, a, MergeGreater(leq, a, b));
    GreaterAntisymmetric(leq, MergeGreater(leq, a, b), MergeGreater(leq, b, a));
    GreaterAssociates(leq, a, b, c);
  }

  /** Both groupings are the least upper bound of the three maps. */
  lemma GreaterAssociates<K, E(!new)>(leq: (E, E) -> bool, a: map<K, E>, b: map<K, E>, c: map<K, E>)
    requires TotalOrder(leq)
    ensures MergeGreater(leq, MergeGreater(leq, a, b), c) == MergeGreater(leq, a, MergeGreater(leq, b, c))
  {
    var ab, bc := MergeGreater(leq, a, b), MergeGreater(leq, b, c);
    var left, right := MergeGreater(leq, ab, c), MergeGreater(leq, a, bc);
    GreaterJoin(leq, ab, c, right);
    GreaterJoin(leq, a, bc, left);
    GreaterJoin(leq, a, b, right);
    GreaterJoin(leq, b, c, left);
    GreaterTransitive(leq, a, ab, left);
    GreaterTransitive(leq, b, ab, left);
    GreaterTransitive(leq, b, bc, right);
    GreaterTransitive(leq, c, bc, right);
    GreaterAntisymmetric(leq, left, right);
  }

  // ---- PN-counter ----

  datatype PNCounter = PNCounter(increments: map<ReplicaId, nat>, decrements: map<ReplicaId, nat>)

  const EMPTY_PN := PNCounter(map[], map[])

  ghost function Value(c: PNCounter): int {
    Sum<ReplicaId>(c.increments) - Sum<ReplicaId>(c.decrements)
  }

  function Increment(c: PNCounter, r: ReplicaId, amount: nat): PNCounter {
    c.(increments := c.increments[r := Of(c.increments, r) + amount])
  }

  function Decrement(c: PNCounter, r: ReplicaId, amount: nat): PNCounter {
    c.(decrements := c.decrements[r := Of(c.decrements, r) + amount])
  }

  function MergePN(a: PNCounter, b: PNCounter): PNCounter {
    PNCounter(MergeMax(a.increments, b.increments), MergeMax(a.decrements, b.decrements))
  }

  ghost predicate PNBelow(a: PNCounter, b: PNCounter) {
    MaxBelow(a.increments, b.increments) && MaxBelow(a.decrements, b.decrements)
  }

  lemma PNMergeIsJoin(a: PNCounter, b: PNCounter, upper: PNCounter)
    ensures PNBelow(a, MergePN(a, b)) && PNBelow(b, MergePN(a, b))
    ensures PNBelow(a, upper) && PNBelow(b, upper) ==> PNBelow(MergePN(a, b), upper)
  {
  }

  lemma PNMergeLaws(a: PNCounter, b: PNCounter, c: PNCounter)
    ensures MergePN(a, a) == a
    ensures MergePN(a, b) == MergePN(b, a)
    ensures MergePN(MergePN(a, b), c) == MergePN(a, MergePN(b, c))
  {
    MaxLaws(a.increments, b.increments, c.increments);
    MaxLaws(a.decrements, b.decrements, c.decrements);
  }

  // ---- OR-set ----

  datatype OrSet<T(==)> = OrSet(adds: map<T, set<OpId>>, removes: map<T, set<OpId>>)

  function TagsIn<T>(m: map<T, set<OpId>>, x: T): set<OpId> {
    if x in m then m[x] else {}
  }

  function VisibleTags<T>(s: OrSet<T>, x: T): set<OpId> {
    TagsIn(s.adds, x) - TagsIn(s.removes, x)
  }

  predicate Contains<T>(s: OrSet<T>, x: T) {
    VisibleTags(s, x) != {}
  }

  function Elements<T>(s: OrSet<T>): set<T> {
    set x | x in s.adds.Keys && Contains(s, x)
  }

  function Add<T>(s: OrSet<T>, x: T, tag: OpId): OrSet<T> {
    s.(adds := s.adds[x := TagsIn(s.adds, x) + {tag}])
  }

  function RemoveObserved<T>(s: OrSet<T>, x: T): OrSet<T> {
    if x in s.adds then s.(removes := s.removes[x := TagsIn(s.removes, x) + s.adds[x]]) else s
  }

  function MergeTags<T>(a: map<T, set<OpId>>, b: map<T, set<OpId>>): map<T, set<OpId>> {
    map x | x in a.Keys + b.Keys :: TagsIn(a, x) + TagsIn(b, x)
  }

  function MergeOrSets<T>(a: OrSet<T>, b: OrSet<T>): OrSet<T> {
    OrSet(MergeTags(a.adds, b.adds), MergeTags(a.removes, b.removes))
  }

  ghost predicate TagsBelow<T>(a: map<T, set<OpId>>, b: map<T, set<OpId>>) {
    forall x :: x in a ==> x in b && a[x] <= b[x]
  }

  /** A tag is only ever removed after it was observed. */
  ghost predicate RemovesObserved<T>(s: OrSet<T>) {
    TagsBelow(s.removes, s.adds)
  }

  lemma TagJoin<K>(a: map<K, set<OpId>>, b: map<K, set<OpId>>, upper: map<K, set<OpId>>)
    ensures TagsBelow(a, MergeTags(a, b)) && TagsBelow(b, MergeTags(a, b))
    ensures TagsBelow(a, upper) && TagsBelow(b, upper) ==> TagsBelow(MergeTags(a, b), upper)
  {
  }

  lemma TagAntisymmetric<K>(a: map<K, set<OpId>>, b: map<K, set<OpId>>)
    requires TagsBelow(a, b) && TagsBelow(b, a)
    ensures a == b
  {
    assert a.Keys == b.Keys;
    assert forall k :: k in a ==> a[k] == b[k];
  }

  lemma TagTransitive<K>(a: map<K, set<OpId>>, b: map<K, set<OpId>>, c: map<K, set<OpId>>)
    requires TagsBelow(a, b) && TagsBelow(b, c)
    ensures TagsBelow(a, c)
  {
  }

  lemma TagLaws<K>(a: map<K, set<OpId>>, b: map<K, set<OpId>>, c: map<K, set<OpId>>)
    ensures MergeTags(a, a) == a
    ensures MergeTags(a, b) == MergeTags(b, a)
    ensures MergeTags(MergeTags(a, b), c) == MergeTags(a, MergeTags(b, c))
  {
    TagJoin(a, a, a);
    TagAntisymmetric(MergeTags(a, a), a);
    TagJoin(a, b, MergeTags(b, a));
    TagJoin(b, a, MergeTags(a, b));
    TagAntisymmetric(MergeTags(a, b), MergeTags(b, a));
    TagAssociates(a, b, c);
  }

  /** Both groupings are the least upper bound of the three maps. */
  lemma {:induction false} TagAssociates<K>(a: map<K, set<OpId>>, b: map<K, set<OpId>>, c: map<K, set<OpId>>)
    ensures MergeTags(MergeTags(a, b), c) == MergeTags(a, MergeTags(b, c))
  {
    var ab, bc := MergeTags(a, b), MergeTags(b, c);
    var left, right := MergeTags(ab, c), MergeTags(a, bc);
    TagJoin(ab, c, right);
    TagJoin(a, bc, left);
    TagJoin(a, b, right);
    TagJoin(b, c, left);
    TagTransitive(a, ab, left);
    TagTransitive(b, ab, left);
    TagTransitive(b, bc, right);
    TagTransitive(c, bc, right);
    TagAntisymmetric(left, right);
  }

  lemma OrSetMergeIsJoin<T>(a: OrSet<T>, b: OrSet<T>, c: OrSet<T>)
    ensures var m := MergeOrSets(a, b);
            && TagsBelow(a.adds, m.adds) && TagsBelow(a.removes, m.removes)
            && TagsBelow(b.adds, m.adds) && TagsBelow(b.removes, m.removes)
            && (TagsBelow(a.adds, c.adds) && TagsBelow(b.adds, c.adds) ==> TagsBelow(m.adds, c.adds))
            && (TagsBelow(a.removes, c.removes) && TagsBelow(b.removes, c.removes) ==> TagsBelow(m.removes, c.removes))
    ensures RemovesObserved(a) && RemovesObserved(b) ==> RemovesObserved(MergeOrSets(a, b))
  {
    TagJoin(a.adds, b.adds, c.adds);
    TagJoin(a.removes, b.removes, c.removes);
    var m := MergeOrSets(a, b);
    if RemovesObserved(a) && RemovesObserved(b) {
      TagTransitive(a.removes, a.adds, m.adds);
      TagTransitive(b.removes, b.adds, m.adds);
      TagJoin(a.removes, b.removes, m.adds);
    }
  }

  lemma OrSetMergeLaws<T>(a: OrSet<T>, b: OrSet<T>, c: OrSet<T>)
    ensures MergeOrSets(a, a) == a
    ensures MergeOrSets(a, b) == MergeOrSets(b, a)
    ensures MergeOrSets(MergeOrSets(a, b), c) == MergeOrSets(a, MergeOrSets(b, c))
  {
    TagLaws(a.adds, b.adds, c.adds);
    TagLaws(a.removes, b.removes, c.removes);
  }

  /** Observed-remove: an add that the removing replica had not seen survives the
      merge, and every add it had seen does not. */
  lemma UnobservedAddSurvives<T>(a: OrSet<T>, b: OrSet<T>, x: T, tag: OpId)
    requires RemovesObserved(b)
    ensures tag in VisibleTags(MergeOrSets(a, RemoveObserved(b, x)), x)
       <==> tag in VisibleTags(a, x) && tag !in TagsIn(b.adds, x)
  {
    var observed := RemoveObserved(b, x);
    MergedTags(a.adds, observed.adds, x);
    MergedTags(a.removes, observed.removes, x);
  }

  lemma MergedTags<T>(a: map<T, set<OpId>>, b: map<T, set<OpId>>, x: T)
    ensures TagsIn(MergeTags(a, b), x) == TagsIn(a, x) + TagsIn(b, x)
  {
  }

  // ---- last-writer-wins register ----

  datatype Lww<T> = Lww(value: T, time: nat, replica: ReplicaId)

  predicate WinsOver<T>(a: Lww<T>, b: Lww<T>) {
    a.time > b.time || (a.time == b.time && a.replica > b.replica)
  }

  function Assign<T>(a: Lww<T>, value: T, time: nat, replica: ReplicaId): Lww<T> {
    var candidate := Lww(value, time, replica);
    if WinsOver(candidate, a) then candidate else a
  }

  function MergeLww<T>(a: Lww<T>, b: Lww<T>): Lww<T> {
    if WinsOver(b, a) then b else a
  }

  /** LWW merging is always associative and idempotent; it is commutative exactly
      for registers whose (time, replica) stamp determines the value. */
  lemma LwwMergeIsJoin<T>(a: Lww<T>, b: Lww<T>, c: Lww<T>)
    ensures MergeLww(a, a) == a
    ensures MergeLww(MergeLww(a, b), c) == MergeLww(a, MergeLww(b, c))
    ensures MergeLww(a, b) == MergeLww(b, a) <==> (a.time == b.time && a.replica == b.replica ==> a.value == b.value)
    ensures !WinsOver(a, MergeLww(a, b)) && !WinsOver(b, MergeLww(a, b))
    ensures MergeLww(a, b) in {a, b}
  {
  }
}
