/** Escrow safety of state-based replication: any number of replicas each hold a
    bounded counter, spend and transfer only from their own rights, and merge any
    state that any replica ever had.  With amounts below 2^63 no replica's rights ever go
    negative, at any replica or in any join of states; a greater amount breaks it. */
module Escrow {
  import opened Operations
  import opened MapSums
  import opened Counters
  import opened Merges

  /** What the replicas hold now, and every state that ever existed. */
  datatype Fleet = Fleet(held: map<ReplicaId, Counter>, seen: set<Counter>)

  datatype Event =
    | SetRights(at: ReplicaId, r: ReplicaId, amount: nat)
    | GrantAt(at: ReplicaId, pid: PayoutId, r: ReplicaId, amount: nat)
    | SpendAt(at: ReplicaId, id: OpId, amount: nat)
    | TransferAt(at: ReplicaId, id: OpId, to: ReplicaId, amount: nat)
    | MergeAt(at: ReplicaId, other: Counter)

  const START := Fleet(map[], {EMPTY_COUNTER})

  function HeldAt(w: Fleet, at: ReplicaId): Counter {
    if at in w.held then w.held[at] else EMPTY_COUNTER
  }

  /** Ids are fresh when first used (a replica may retry an id it already knows),
      and only states that existed are merged.  The counter's own guard decides which
      amounts are accepted. */
  ghost predicate Enabled(w: Fleet, e: Event) {
    match e
    case SetRights(_, _, _) => true
    case GrantAt(_, pid, _, _) => forall c :: c in w.seen ==> pid !in c.grants
    case SpendAt(at, id, _) => id in HeldAt(w, at).spends || forall c :: c in w.seen ==> id !in c.spends
    case TransferAt(at, id, _, _) => id in HeldAt(w, at).transfers || forall c :: c in w.seen ==> id !in c.transfers
    case MergeAt(_, other) => other in w.seen
  }

  ghost function Result(w: Fleet, e: Event): Counter {
    match e
    case SetRights(at, r, amount) => SetInitialRights(HeldAt(w, at), r, amount)
    case GrantAt(at, pid, r, amount) => Grant(HeldAt(w, at), pid, r, amount)
    case SpendAt(at, id, amount) => Spend(HeldAt(w, at), id, at, amount)
    case TransferAt(at, id, to, amount) => Transfer(HeldAt(w, at), id, at, to, amount)
    case MergeAt(at, other) => MergeCounters(HeldAt(w, at), other)
  }

  ghost function After(w: Fleet, e: Event): Fleet {
    var c := Result(w, e);
    Fleet(w.held[e.at := c], w.seen + {c})
  }

  ghost predicate Possible(events: seq<Event>) {
    events == [] || (Possible(events[..|events| - 1])
                     && Enabled(Execute(events[..|events| - 1]), events[|events| - 1]))
  }

  ghost function Execute(events: seq<Event>): Fleet {
    if events == [] then START else After(Execute(events[..|events| - 1]), events[|events| - 1])
  }

  /** The amounts that the guard compares as they are, not as negative numbers. */
  predicate Fits(e: Event) {
    match e
    case SpendAt(_, _, amount) => amount < TWO_63
    case TransferAt(at, _, to, amount) => amount < TWO_63 || to == at
    case _ => true
  }

  predicate AllFit(events: seq<Event>) {
    forall k :: 0 <= k < |events| ==> Fits(events[k])
  }

  // ---- the invariant ----

  ghost predicate Coherent(a: Counter, b: Counter) {
    && (forall id :: id in a.grants && id in b.grants ==> a.grants[id] == b.grants[id])
    && (forall id :: id in a.spends && id in b.spends ==> a.spends[id] == b.spends[id])
    && (forall id :: id in a.transfers && id in b.transfers ==> a.transfers[id] == b.transfers[id])
  }

  /** Each replica's outgoing history is linear: of any two states one extends the other. */
  ghost predicate Linear(a: Counter, b: Counter) {
    forall r :: OutgoingWithin(a, b, r) || OutgoingWithin(b, a, r)
  }

  ghost predicate Family(states: set<Counter>) {
    && (forall a :: a in states ==> Solvent(a) && OutgoingFits(a))
    && (forall a, b :: a in states && b in states ==> Coherent(a, b))
    && (forall a, b :: a in states && b in states ==> Linear(a, b))
  }

  /** A replica's own state knows all of that replica's outgoing history. */
  ghost predicate Owners(w: Fleet) {
    forall c, r :: c in w.seen ==> OutgoingWithin(c, HeldAt(w, r), r)
  }

  ghost predicate Inv(w: Fleet) {
    && EMPTY_COUNTER in w.seen
    && (forall r :: r in w.held ==> w.held[r] in w.seen)
    && Family(w.seen)
    && Owners(w)
  }

  // ---- merging keeps a family a family ----

  lemma MergeIsUnion(a: Counter, b: Counter)
    requires Coherent(a, b)
    ensures MergeCounters(a, b).grants == a.grants + b.grants
    ensures MergeCounters(a, b).spends == a.spends + b.spends
    ensures MergeCounters(a, b).transfers == a.transfers + b.transfers
  {
  }

  /** The side with the longer outgoing history decides: the other side can only add income. */
  lemma MergeFavours(a: Counter, b: Counter, r: ReplicaId)
    requires Coherent(a, b)
    requires OutgoingWithin(a, b, r)
    ensures OutgoingWithin(MergeCounters(a, b), b, r) && OutgoingWithin(b, MergeCounters(a, b), r)
    ensures Rights(b, r) <= Rights(MergeCounters(a, b), r)
  {
    MergeIsUnion(a, b);
    RightsMono(b, MergeCounters(a, b), r);
  }

  lemma MergeSolvent(a: Counter, b: Counter)
    requires Coherent(a, b) && Linear(a, b) && Solvent(a) && Solvent(b)
    ensures Solvent(MergeCounters(a, b))
  {
    forall r ensures 0 <= Rights(MergeCounters(a, b), r) {
      if OutgoingWithin(a, b, r) {
        MergeFavours(a, b, r);
      } else {
        MergeCommutes(a, b);
        MergeFavours(b, a, r);
      }
    }
  }

  lemma MergeFits(a: Counter, b: Counter)
    requires Coherent(a, b) && OutgoingFits(a) && OutgoingFits(b)
    ensures OutgoingFits(MergeCounters(a, b))
  {
    MergeIsUnion(a, b);
  }

  lemma MergeCommutes(a: Counter, b: Counter)
    ensures MergeCounters(a, b) == MergeCounters(b, a)
  {
    CounterMergeLaws(a, b, a);
  }

  lemma OutgoingTransitive(a: Counter, b: Counter, c: Counter, r: ReplicaId)
    requires OutgoingWithin(a, b, r) && OutgoingWithin(b, c, r)
    ensures OutgoingWithin(a, c, r)
  {
  }

  lemma MergeLinear(a: Counter, b: Counter, c: Counter)
    requires Coherent(a, b) && Linear(a, b) && Linear(a, c) && Linear(b, c)
    ensures Linear(MergeCounters(a, b), c)
  {
    var m := MergeCounters(a, b);
    forall r ensures OutgoingWithin(m, c, r) || OutgoingWithin(c, m, r) {
      var longer := if OutgoingWithin(a, b, r) then b else a;
      if OutgoingWithin(a, b, r) {
        MergeFavours(a, b, r);
      } else {
        MergeCommutes(a, b);
        MergeFavours(b, a, r);
      }
      if OutgoingWithin(longer, c, r) {
        OutgoingTransitive(m, longer, c, r);
      } else {
        OutgoingTransitive(c, longer, m, r);
      }
    }
  }

  lemma MergeCoherent(a: Counter, b: Counter, c: Counter)
    requires Coherent(a, b) && Coherent(a, c) && Coherent(b, c)
    ensures Coherent(MergeCounters(a, b), c)
  {
    MergeIsUnion(a, b);
  }

  lemma RelationsSymmetric(a: Counter, b: Counter)
    ensures Coherent(a, b) ==> Coherent(b, a)
    ensures Linear(a, b) ==> Linear(b, a)
  {
  }

  /** Adding one state that agrees with all the others keeps a family. */
  lemma ExtendFamily(states: set<Counter>, m: Counter)
    requires Family(states) && Solvent(m) && OutgoingFits(m)
    requires forall c :: c in states ==> Coherent(m, c) && Linear(m, c)
    ensures Family(states + {m})
  {
    forall a, b | a in states + {m} && b in states + {m}
      ensures Coherent(a, b) && Linear(a, b)
    {
      if a == m && b == m {
        assert forall r :: OutgoingWithin(m, m, r);
      } else if b == m {
        RelationsSymmetric(m, a);
      }
    }
  }

  lemma FamilyMerge(states: set<Counter>, a: Counter, b: Counter)
    requires Family(states) && a in states && b in states
    ensures Family(states + {MergeCounters(a, b)})
  {
    MergeSolvent(a, b);
    MergeFits(a, b);
    forall c | c in states
      ensures Coherent(MergeCounters(a, b), c) && Linear(MergeCounters(a, b), c)
    {
      MergeCoherent(a, b, c);
      MergeLinear(a, b, c);
    }
    ExtendFamily(states, MergeCounters(a, b));
  }

  // ---- a local write extends its replica's own history ----

  /** m is c with nothing lost, only replica `at` having spent or sent more. */
  ghost predicate Extends(m: Counter, c: Counter, at: ReplicaId) {
    && OutgoingWithin(c, m, at)
    && forall r :: r != at ==> OutgoingWithin(m, c, r) && OutgoingWithin(c, m, r)
  }

  lemma LocalWriteFamily(w: Fleet, at: ReplicaId, m: Counter)
    requires Inv(w)
    requires Extends(m, HeldAt(w, at), at)
    requires Solvent(m) && OutgoingFits(m)
    requires forall c :: c in w.seen ==> Coherent(m, c)
    ensures Family(w.seen + {m})
  {
    var own := HeldAt(w, at);
    forall c | c in w.seen ensures Linear(m, c) {
      forall r ensures OutgoingWithin(m, c, r) || OutgoingWithin(c, m, r) {
        if r == at || OutgoingWithin(c, own, r) {
          assert OutgoingWithin(c, own, r);
          OutgoingTransitive(c, own, m, r);
        } else {
          assert Linear(c, own);
          OutgoingTransitive(m, own, c, r);
        }
      }
    }
    ExtendFamily(w.seen, m);
  }

  lemma ResultExtends(w: Fleet, e: Event)
    requires Inv(w) && Enabled(w, e) && !e.MergeAt?
    ensures Extends(Result(w, e), HeldAt(w, e.at), e.at)
  {
    var own := HeldAt(w, e.at);
    match e
    case SetRights(at, r, amount) => IncomeExtends(own, SetInitialRights(own, r, amount), at);
    case GrantAt(at, pid, r, amount) => IncomeExtends(own, Grant(own, pid, r, amount), at);
    case SpendAt(at, id, amount) => SpendExtends(own, id, at, amount);
    case TransferAt(at, id, to, amount) => TransferExtends(own, id, at, to, amount);
  }

  lemma IncomeExtends(c: Counter, d: Counter, at: ReplicaId)
    requires d.spends == c.spends && d.transfers == c.transfers
    ensures Extends(d, c, at)
  {
  }

  lemma SpendExtends(c: Counter, id: OpId, at: ReplicaId, amount: nat)
    ensures Extends(Spend(c, id, at, amount), c, at)
  {
  }

  lemma TransferExtends(c: Counter, id: OpId, at: ReplicaId, to: ReplicaId, amount: nat)
    ensures Extends(Transfer(c, id, at, to, amount), c, at)
  {
  }

  lemma ResultCoherent(w: Fleet, e: Event, c: Counter)
    requires Inv(w) && Enabled(w, e) && !e.MergeAt?
    requires c in w.seen
    ensures Coherent(Result(w, e), c)
  {
    assert Coherent(HeldAt(w, e.at), c);
  }

  lemma ResultSolvent(w: Fleet, e: Event)
    requires Inv(w) && Enabled(w, e) && !e.MergeAt? && Fits(e)
    ensures Solvent(Result(w, e)) && OutgoingFits(Result(w, e))
  {
    var own := HeldAt(w, e.at);
    assert own in w.seen && Solvent(own) && OutgoingFits(own);
    match e
    case SetRights(_, r, amount) => RaisingKeepsSolvent(own, SetInitialRights(own, r, amount).initial);
    case GrantAt(_, pid, r, amount) => GrantKeepsSolvent(own, pid, r, amount);
    case SpendAt(at, id, amount) => SpendKeepsSolvent(own, id, at, amount);
    case TransferAt(at, id, to, amount) => TransferKeepsSolvent(own, id, at, to, amount);
  }

  lemma StepFamily(w: Fleet, e: Event)
    requires Inv(w) && Enabled(w, e) && Fits(e)
    ensures Family(After(w, e).seen)
  {
    if e.MergeAt? {
      FamilyMerge(w.seen, HeldAt(w, e.at), e.other);
    } else {
      ResultExtends(w, e);
      ResultSolvent(w, e);
      forall c | c in w.seen ensures Coherent(Result(w, e), c) {
        ResultCoherent(w, e, c);
      }
      LocalWriteFamily(w, e.at, Result(w, e));
    }
  }

  lemma ResultOutgoing(w: Fleet, e: Event, r: ReplicaId)
    requires Inv(w) && Enabled(w, e)
    ensures OutgoingWithin(HeldAt(w, e.at), Result(w, e), r)
    ensures r != e.at ==> OutgoingWithin(Result(w, e), HeldAt(w, r), r)
  {
    var own := HeldAt(w, e.at);
    assert OutgoingWithin(own, HeldAt(w, r), r);
    if e.MergeAt? {
      MergeIsUnion(own, e.other);
      assert OutgoingWithin(e.other, HeldAt(w, r), r);
    } else {
      ResultExtends(w, e);
      if r != e.at {
        OutgoingTransitive(Result(w, e), own, HeldAt(w, r), r);
      }
    }
  }

  lemma StepOwners(w: Fleet, e: Event)
    requires Inv(w) && Enabled(w, e)
    ensures Owners(After(w, e))
  {
    var w', m := After(w, e), Result(w, e);
    forall c, r | c in w'.seen ensures OutgoingWithin(c, HeldAt(w', r), r) {
      ResultOutgoing(w, e, r);
      if r == e.at && c in w.seen {
        OutgoingTransitive(c, HeldAt(w, r), m, r);
      }
    }
  }

  lemma {:induction false} Invariant(events: seq<Event>)
    requires Possible(events) && AllFit(events)
    ensures Inv(Execute(events))
    decreases |events|
  {
    if events == [] {
      EmptySolvent();
      assert Linear(EMPTY_COUNTER, EMPTY_COUNTER);
    } else {
      var w, e := Execute(events[..|events| - 1]), events[|events| - 1];
      Invariant(events[..|events| - 1]);
      StepFamily(w, e);
      StepOwners(w, e);
    }
  }

  // ---- main results ----

  /** The join of a list of states, as a reader collecting replicas would compute it. */
  function Join(states: seq<Counter>): Counter {
    if states == [] then EMPTY_COUNTER
    else MergeCounters(Join(states[..|states| - 1]), states[|states| - 1])
  }

  lemma {:induction false} FamilyJoin(family: set<Counter>, states: seq<Counter>)
    requires Family(family) && EMPTY_COUNTER in family
    requires forall c :: c in states ==> c in family
    ensures Family(family + {Join(states)})
    decreases |states|
  {
    if states == [] {
      assert family + {Join(states)} == family;
    } else {
      var rest, c := states[..|states| - 1], states[|states| - 1];
      FamilyJoin(family, rest);
      FamilyMerge(family + {Join(rest)}, Join(rest), c);
      SubFamily(family + {Join(rest)} + {Join(states)}, family + {Join(states)});
    }
  }

  lemma SubFamily(states: set<Counter>, some: set<Counter>)
    requires Family(states) && some <= states
    ensures Family(some)
  {
  }

  /** In every run with amounts below 2^63, every replica's rights are non-negative in
      every state any replica ever holds and in the join of any of them, so nothing
      handed out is ever spent twice. */
  lemma EscrowSafety(events: seq<Event>, states: seq<Counter>)
    requires Possible(events) && AllFit(events)
    requires forall c :: c in states ==> c in Execute(events).seen
    ensures forall c, r :: c in Execute(events).seen ==> 0 <= Rights(c, r) && Available(c, r) <= Rights(c, r)
    ensures forall r :: 0 <= Rights(Join(states), r)
    ensures TotalSpent(Join(states)) <= Sum<ReplicaId>(Join(states).initial) + Total(Join(states).grants)
    ensures TotalRights(Join(states)) + TotalSpent(Join(states))
         == Sum<ReplicaId>(Join(states).initial) + Total(Join(states).grants)
  {
    Invariant(events);
    FamilyJoin(Execute(events).seen, states);
    forall c, r | c in Execute(events).seen ensures Available(c, r) <= Rights(c, r) {
      AvailableAtMostRights(c, r);
    }
    assert Solvent(Join(states));
    Conservation(Join(states));
  }

  /** An operation that repeats one its replica already holds. */
  predicate Repeats(w: Fleet, e: Event) {
    || (e.SpendAt? && e.id in HeldAt(w, e.at).spends)
    || (e.TransferAt? && e.id in HeldAt(w, e.at).transfers)
  }

  /** And the bound on amounts is exact: after any such run, with rights below 2^63 that
      are not reported negative, and a u64 amount, the next event keeps its replica's rights
      non-negative if and only if its amount is below 2^63, or it repeats a known id or
      moves rights in place. */
  lemma EscrowExactly(events: seq<Event>, e: Event)
    requires Possible(events) && AllFit(events) && Enabled(Execute(events), e)
    requires e.SpendAt? || e.TransferAt? ==> e.amount < TWO_64
    requires Rights(HeldAt(Execute(events), e.at), e.at) < TWO_63
    requires 0 <= Available(HeldAt(Execute(events), e.at), e.at)
    ensures Solvent(HeldAt(After(Execute(events), e), e.at)) <==> Fits(e) || Repeats(Execute(events), e)
  {
    var w := Execute(events);
    var own := HeldAt(w, e.at);
    Invariant(events);
    assert own in w.seen && Solvent(own);
    match e
    case SpendAt(at, id, amount) =>
      if TWO_63 <= amount { OversizedIsAccepted(own, id, at, amount); }
      SpendKeepsSolvent(own, id, at, amount);
    case TransferAt(at, id, to, amount) =>
      if TWO_63 <= amount { OversizedIsAccepted(own, id, at, amount); }
      TransferKeepsSolvent(own, id, at, to, amount);
    case _ =>
      StepFamily(w, e);
      assert Result(w, e) in After(w, e).seen;
  }

  // ---- what each event does to its replica's state ----

  /** A merge gives the replica the least state that contains its own and the other one. */
  lemma MergeGathers(w: Fleet, at: ReplicaId, other: Counter, upper: Counter)
    ensures var own, merged := HeldAt(w, at), HeldAt(After(w, MergeAt(at, other)), at);
            && CounterBelow(own, merged) && CounterBelow(other, merged)
            && (CounterBelow(own, upper) && CounterBelow(other, upper) ==> CounterBelow(merged, upper))
  {
    CounterMergeIsJoin(HeldAt(w, at), other, upper);
  }

  /** New grants, spends and transfers change true rights by their amounts, and the other
      replicas' states stay as they are. */
  lemma EventEffect(w: Fleet, e: Event, r: ReplicaId)
    ensures forall q :: q != e.at ==> HeldAt(After(w, e), q) == HeldAt(w, q)
    ensures var own, next := HeldAt(w, e.at), HeldAt(After(w, e), e.at);
            match e
            case SetRights(_, q, amount) => Of(next.initial, r) == if r == q then Max(Of(own.initial, r), amount)
                                                                    else Of(own.initial, r)
            case GrantAt(_, pid, q, amount) =>
              pid !in own.grants ==> Rights(next, r) == Rights(own, r) + if r == q then amount else 0
            case SpendAt(at, id, amount) =>
              id !in own.spends ==>
                Rights(next, r) == Rights(own, r) - if r == at && AsI64(amount) <= Available(own, at) then amount else 0
            case TransferAt(at, id, to, amount) =>
              id !in own.transfers && AsI64(amount) <= Available(own, at) ==>
                Rights(next, r) == Rights(own, r) - (if r == at then amount else 0) + if r == to then amount else 0
            case MergeAt(_, _) => true
  {
    var own := HeldAt(w, e.at);
    match e
    case SetRights(_, _, _) =>
    case GrantAt(_, pid, q, amount) =>
      if pid !in own.grants { GrantCredits(own, pid, q, amount, r); }
    case SpendAt(at, id, amount) =>
      if id !in own.spends && CanSpend(own, id, at, amount) { SpendDebits(own, id, at, amount, r); }
    case TransferAt(at, id, to, amount) =>
      if id !in own.transfers && CanTransfer(own, id, at, amount) { TransferMoves(own, id, at, to, amount, r); }
    case MergeAt(_, _) =>
  }

  // ---- a run: rights that a replica only has by merging ----

  lemma MergeWithNothing(c: Counter)
    ensures MergeCounters(EMPTY_COUNTER, c) == c
  {
    assert MergeMax(map[], c.initial) == c.initial;
    MergeIsUnion(EMPTY_COUNTER, c);
  }

  lemma TenRights(c: Counter)
    requires c == SetInitialRights(EMPTY_COUNTER, 1, 10)
    ensures Available(c, 1) == 10 && Available(c, 2) == 0
  {
    EmptyRights(1);
    EmptyRights(2);
    InitialRightsGrow(EMPTY_COUNTER, c.initial, 1);
    InitialRightsGrow(EMPTY_COUNTER, c.initial, 2);
  }

  lemma Extend(events: seq<Event>, e: Event)
    requires Possible(events) && AllFit(events) && Enabled(Execute(events), e) && Fits(e)
    ensures Possible(events + [e]) && AllFit(events + [e]) && Execute(events + [e]) == After(Execute(events), e)
  {
    assert (events + [e])[..|events|] == events;
  }

  /** Replica 2 has no rights, merges the state in which replica 1 sent it four of its
      ten, and spends those four. */
  lemma SpendsWhatItMerged()
    ensures exists events, sent ::
              && Possible(events) && AllFit(events) && sent in Execute(events).seen
              && !CanSpend(HeldAt(Execute(events), 2), 6, 2, 4)
              && Possible(events + [MergeAt(2, sent), SpendAt(2, 6, 4)])
              && HeldAt(Execute(events + [MergeAt(2, sent), SpendAt(2, 6, 4)]), 2).spends == map[6 := Entry(2, 4)]
  {
    var events, sent := ShareRights();
    SpendShared(events, sent);
  }

  /** Replica 1 gets ten rights and sends replica 2 four of them. */
  lemma ShareRights() returns (events: seq<Event>, sent: Counter)
    ensures Possible(events) && AllFit(events) && Shared(Execute(events), sent)
  {
    var c := SetInitialRights(EMPTY_COUNTER, 1, 10);
    sent := Transfer(c, 5, 1, 2, 4);
    var w := Fleet(map[1 := c], {EMPTY_COUNTER, c});
    TenRights(c);
    TransferMoves(c, 5, 1, 2, 4, 2);
    GiveRights(c);
    SendRights(w, c, sent);
    Extend([SetRights(1, 1, 10)], TransferAt(1, 5, 2, 4));
    events := [SetRights(1, 1, 10)] + [TransferAt(1, 5, 2, 4)];
  }

  /** Nobody has spent, replica 2 holds nothing, and it has four rights in the state sent. */
  ghost predicate Shared(w: Fleet, sent: Counter) {
    && sent in w.seen && HeldAt(w, 2) == EMPTY_COUNTER && Available(sent, 2) == 4
    && forall c :: c in w.seen ==> c.spends == map[]
  }

  lemma GiveRights(c: Counter)
    requires c == SetInitialRights(EMPTY_COUNTER, 1, 10)
    ensures Possible([SetRights(1, 1, 10)]) && AllFit([SetRights(1, 1, 10)])
    ensures Execute([SetRights(1, 1, 10)]) == Fleet(map[1 := c], {EMPTY_COUNTER, c})
  {
    Extend([], SetRights(1, 1, 10));
    assert [] + [SetRights(1, 1, 10)] == [SetRights(1, 1, 10)];
  }

  lemma SendRights(w: Fleet, c: Counter, sent: Counter)
    requires w == Fleet(map[1 := c], {EMPTY_COUNTER, c}) && c.spends == map[] && c.transfers == map[]
    requires sent == Transfer(c, 5, 1, 2, 4) && Available(sent, 2) == 4
    ensures Enabled(w, TransferAt(1, 5, 2, 4)) && Shared(After(w, TransferAt(1, 5, 2, 4)), sent)
  {
    SharedAfter(w, TransferAt(1, 5, 2, 4), sent);
  }

  lemma SharedAfter(w: Fleet, e: Event, sent: Counter)
    requires e.at != 2 && Result(w, e) == sent && sent.spends == map[] && Available(sent, 2) == 4
    requires HeldAt(w, 2) == EMPTY_COUNTER && forall c :: c in w.seen ==> c.spends == map[]
    ensures Shared(After(w, e), sent)
  {
  }

  lemma SpendShared(events: seq<Event>, sent: Counter)
    requires Possible(events) && AllFit(events) && Shared(Execute(events), sent)
    ensures !CanSpend(HeldAt(Execute(events), 2), 6, 2, 4)
    ensures Possible(events + [MergeAt(2, sent), SpendAt(2, 6, 4)])
    ensures HeldAt(Execute(events + [MergeAt(2, sent), SpendAt(2, 6, 4)]), 2).spends == map[6 := Entry(2, 4)]
  {
    NothingToSpend();
    SpendStep(Execute(events), sent);
    ExtendTwice(events, MergeAt(2, sent), SpendAt(2, 6, 4));
  }

  lemma ExtendTwice(events: seq<Event>, d: Event, e: Event)
    requires Possible(events) && AllFit(events) && Fits(d) && Fits(e)
    requires Enabled(Execute(events), d) && Enabled(After(Execute(events), d), e)
    ensures Possible(events + [d, e]) && Execute(events + [d, e]) == After(After(Execute(events), d), e)
  {
    Extend(events, d);
    Extend(events + [d], e);
    assert events + [d] + [e] == events + [d, e];
  }

  lemma NothingToSpend()
    ensures !CanSpend(EMPTY_COUNTER, 6, 2, 4)
  {
    EmptyRights(2);
  }

  lemma SpendStep(w: Fleet, sent: Counter)
    requires Shared(w, sent)
    ensures Enabled(w, MergeAt(2, sent)) && Enabled(After(w, MergeAt(2, sent)), SpendAt(2, 6, 4))
    ensures HeldAt(After(After(w, MergeAt(2, sent)), SpendAt(2, 6, 4)), 2).spends == map[6 := Entry(2, 4)]
  {
    MergeWithNothing(sent);
    assert HeldAt(After(w, MergeAt(2, sent)), 2) == sent;
  }
}
