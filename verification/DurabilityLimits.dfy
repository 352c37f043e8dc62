/** None of the conditions of durable acceptance can be dropped: four plays, of commands
    only, in which an operation that its client accepted is rejected once the logs meet.
    A player leaves while betting elsewhere; joins again with oversized rights; is sent an
    oversized amount of rights; or two replicas resolve the same round. */
module DurabilityLimits {
  import opened Operations
  import opened MapSums
  import opened Counters
  import opened Merges
  import opened BetState
  import opened Replays
  import opened Accounting
  import opened Ledgers
  import opened Views
  import opened Commands
  import opened Durability
  import opened OneResolver
  import opened MachineArithmetic
  import opened Oversized

  // ---- plays of replicas 1 and 2 ----

  ghost predicate Reachable(w: World) {
    exists acts :: Playable(acts) && Play(acts) == w
  }

  /** A reachable world, as far as replicas 1 and 2 are concerned. */
  ghost predicate Shows(w: World, log1: set<Operation>, log2: set<Operation>, time1: nat, time2: nat,
                        born: map<Operation, set<Operation>>)
  {
    && LogAt(w, 1) == log1 && LogAt(w, 2) == log2
    && ClockAt(w, 1) == time1 && ClockAt(w, 2) == time2
    && w.born == born
  }

  ghost predicate Reached(log1: set<Operation>, log2: set<Operation>, time1: nat, time2: nat,
                          born: map<Operation, set<Operation>>)
  {
    exists w :: Reachable(w) && Shows(w, log1, log2, time1, time2, born)
  }

  lemma Continue(w: World, a: Act)
    requires Reachable(w) && Allowed(w, a)
    ensures Reachable(Perform(w, a))
  {
    var acts :| Playable(acts) && Play(acts) == w;
    assert (acts + [a])[..|acts|] == acts;
    assert Playable(acts + [a]) && Play(acts + [a]) == Perform(w, a);
  }

  lemma Start()
    ensures Reached({}, {}, 0, 0, map[])
  {
    assert Playable([]) && Play([]) == EMPTY_WORLD;
    assert Reachable(EMPTY_WORLD) && Shows(EMPTY_WORLD, {}, {}, 0, 0, map[]);
  }

  /** Neither a resolution nor a payout. */
  predicate IsPlain(op: Operation) {
    !op.kind.ResolveRound? && !op.kind.ApplyPayout?
  }

  lemma RecordAt1(log1: set<Operation>, log2: set<Operation>, time1: nat, time2: nat,
                  born: map<Operation, set<Operation>>, op: Operation)
    requires Reached(log1, log2, time1, time2, born)
    requires op.replica == 1 && op.time == time1 + 1 && Offered(Replay(log1), op) && IsPlain(op)
    requires forall x :: x in born ==> x.id != op.id
    ensures Reached(log1 + {op}, log2, op.time, time2, born[op := log1])
  {
    var w :| Reachable(w) && Shows(w, log1, log2, time1, time2, born);
    Continue(w, Plain(Record(op)));
    assert Shows(After(w, Record(op)), log1 + {op}, log2, op.time, time2, born[op := log1]);
  }

  lemma RecordAt2(log1: set<Operation>, log2: set<Operation>, time1: nat, time2: nat,
                  born: map<Operation, set<Operation>>, op: Operation)
    requires Reached(log1, log2, time1, time2, born)
    requires op.replica == 2 && op.time == time2 + 1 && Offered(Replay(log2), op) && IsPlain(op)
    requires forall x :: x in born ==> x.id != op.id
    ensures Reached(log1, log2 + {op}, time1, op.time, born[op := log2])
  {
    var w :| Reachable(w) && Shows(w, log1, log2, time1, time2, born);
    Continue(w, Plain(Record(op)));
    assert Shows(After(w, Record(op)), log1, log2 + {op}, time1, op.time, born[op := log2]);
  }

  /** Replica 2, new to the table, receives replica 1's log. */
  lemma ReceiveAt2(log1: set<Operation>, time1: nat, born: map<Operation, set<Operation>>)
    requires Reached(log1, {}, time1, 0, born)
    requires CausallyClosed(log1, born) && MaxTime(log1) == time1
    ensures Reached(log1, log1, time1, time1, born)
  {
    var w :| Reachable(w) && Shows(w, log1, {}, time1, 0, born);
    assert {} + log1 == log1;
    Continue(w, Plain(Receive(2, log1)));
    assert Shows(After(w, Receive(2, log1)), log1, log1, time1, time1, born);
  }

  /** A resolution of a closed round with a single winning bet, and its payout. */
  ghost predicate Resolvable(log: set<Operation>, time: nat, born: map<Operation, set<Operation>>,
                             z: Operation, pay: Operation, b: Bet)
  {
    && z.kind.ResolveRound? && 1 <= z.kind.dice <= 6 && z.time == time + 1
    && RoundPhase(Replay(log), z.kind.round) == Some(BettingClosed)
    && Winners(VisibleBets(Replay(log + {z})), z.kind.round, z.kind.dice) == {b}
    && pay.replica == z.replica && pay.time == time + 2
    && pay.kind == ApplyPayout(PayoutId(z.kind.round, b.id), b.player, z.kind.round, b.Prize())
    && z.id != pay.id && forall x :: x in born ==> x.id != z.id && x.id != pay.id
  }

  lemma MayPay(w: World, log: set<Operation>, time: nat, born: map<Operation, set<Operation>>,
               z: Operation, pay: Operation, b: Bet)
    requires Resolvable(log, time, born, z, pay, b)
    requires LogAt(w, z.replica) == log && ClockAt(w, z.replica) == time && w.born == born
    ensures Allowed(w, Resolution(z, [pay], [b]))
    ensures Perform(w, Resolution(z, [pay], [b])) == After(After(w, Record(z)), Record(pay))
  {
    var w' := After(w, Record(z));
    assert LogAt(w', z.replica) == log + {z} && ClockAt(w', z.replica) == time + 1;
    assert w'.born.Keys == born.Keys + {z};
    assert [pay][..0] == [] && [b][..0] == [];
    assert RecordAll(w', []) == w' && PayableAll(w', [], [], z.kind.round, z.replica);
    assert Elems([b]) == {b};
  }

  lemma ResolveAt1(log1: set<Operation>, log2: set<Operation>, time1: nat, time2: nat,
                   born: map<Operation, set<Operation>>, z: Operation, pay: Operation, b: Bet)
    requires Reached(log1, log2, time1, time2, born) && z.replica == 1 && Resolvable(log1, time1, born, z, pay, b)
    ensures Reached(log1 + {z} + {pay}, log2, time1 + 2, time2, born[z := log1][pay := log1 + {z}])
  {
    var w :| Reachable(w) && Shows(w, log1, log2, time1, time2, born);
    MayPay(w, log1, time1, born, z, pay, b);
    Continue(w, Resolution(z, [pay], [b]));
    RecordedAt1(w, log1, log2, time1, time2, born, z, pay);
  }

  lemma RecordedAt1(w: World, log1: set<Operation>, log2: set<Operation>, time1: nat, time2: nat,
                    born: map<Operation, set<Operation>>, z: Operation, pay: Operation)
    requires Shows(w, log1, log2, time1, time2, born)
    requires z.replica == pay.replica == 1 && z.time == time1 + 1 && pay.time == time1 + 2
    ensures Shows(After(After(w, Record(z)), Record(pay)), log1 + {z} + {pay}, log2, time1 + 2, time2,
                  born[z := log1][pay := log1 + {z}])
  {
  }

  lemma ResolveAt2(log1: set<Operation>, log2: set<Operation>, time1: nat, time2: nat,
                   born: map<Operation, set<Operation>>, z: Operation, pay: Operation, b: Bet)
    requires Reached(log1, log2, time1, time2, born) && z.replica == 2 && Resolvable(log2, time2, born, z, pay, b)
    ensures Reached(log1, log2 + {z} + {pay}, time1, time2 + 2, born[z := log2][pay := log2 + {z}])
  {
    var w :| Reachable(w) && Shows(w, log1, log2, time1, time2, born);
    MayPay(w, log2, time2, born, z, pay, b);
    Continue(w, Resolution(z, [pay], [b]));
    RecordedAt2(w, log1, log2, time1, time2, born, z, pay);
  }

  lemma RecordedAt2(w: World, log1: set<Operation>, log2: set<Operation>, time1: nat, time2: nat,
                    born: map<Operation, set<Operation>>, z: Operation, pay: Operation)
    requires Shows(w, log1, log2, time1, time2, born)
    requires z.replica == pay.replica == 2 && z.time == time2 + 1 && pay.time == time2 + 2
    ensures Shows(After(After(w, Record(z)), Record(pay)), log1, log2 + {z} + {pay}, time1, time2 + 2,
                  born[z := log2][pay := log2 + {z}])
  {
  }

  lemma WorldOf(log1: set<Operation>, log2: set<Operation>, time1: nat, time2: nat,
                born: map<Operation, set<Operation>>) returns (w: World)
    requires Reached(log1, log2, time1, time2, born)
    ensures Reachable(w) && w.born == born
  {
    w :| Reachable(w) && Shows(w, log1, log2, time1, time2, born);
  }

  lemma Refuted(log: set<Operation>, p: PlayerId, x: Operation)
    requires x in log && (IsBet(x, p) || IsTransfer(x, p)) && x.id in Replay(log).rejected
    ensures !AllAccepted(log, p)
  {
  }

  // ---- a table: p joins on replica 1, which opens round 3 ----

  /** Player p's join splits 20 chips between replicas 1 and 2.  Either replica 1 records
      a leave, another and oversized join or an oversized transfer while replica 2 places
      the late bet, or replica 1 places a bet, closes the
      round, and both replicas resolve and pay, whereupon replica 2 sends. */
  datatype Story = Story(
    p: PlayerId, join: Operation, create: Operation, open: Operation,
    leave: Operation, big: Operation, gift: Operation, late: Operation,
    bet: Operation, close: Operation, resA: Operation, payA: Operation,
    resB: Operation, payB: Operation, send: Operation)

  const OVERSIZED: nat := TWO_63 + 1000

  predicate Told(s: Story) {
    && s.join == Operation(10, 1, 1, JoinTable(s.p, "p", 20, map[1 := 10, 2 := 10]))
    && s.create == Operation(11, 1, 2, CreateRound(3, s.p))
    && s.open == Operation(12, 1, 3, OpenBetting(3))
    && s.leave == Operation(13, 1, 4, LeaveTable(s.p))
    && s.big == Operation(13, 1, 4, JoinTable(s.p, "p", OVERSIZED, map[2 := OVERSIZED]))
    && s.gift == Operation(13, 1, 4, TransferRights(s.p, 1, 2, OVERSIZED))
    && s.late == Operation(21, 2, 4, PlaceBet(5, s.p, 3, 5, Odd, BettingOpen))
    && s.bet == Operation(14, 1, 4, PlaceBet(4, s.p, 3, 10, Odd, BettingOpen))
    && s.close == Operation(15, 1, 5, CloseBetting(3))
    && s.resA == Operation(16, 1, 6, ResolveRound(3, 1))
    && s.payA == Operation(18, 1, 7, ApplyPayout(PayoutId(3, 4), s.p, 3, 20))
    && s.resB == Operation(17, 2, 6, ResolveRound(3, 1))
    && s.payB == Operation(19, 2, 7, ApplyPayout(PayoutId(3, 4), s.p, 3, 20))
    && s.send == Operation(20, 2, 8, TransferRights(s.p, 2, 1, 25))
  }

  lemma SomeStory() returns (s: Story)
    ensures Told(s)
  {
    s := Story(7, Operation(10, 1, 1, JoinTable(7, "p", 20, map[1 := 10, 2 := 10])),
               Operation(11, 1, 2, CreateRound(3, 7)), Operation(12, 1, 3, OpenBetting(3)),
               Operation(13, 1, 4, LeaveTable(7)),
               Operation(13, 1, 4, JoinTable(7, "p", OVERSIZED, map[2 := OVERSIZED])),
               Operation(13, 1, 4, TransferRights(7, 1, 2, OVERSIZED)),
               Operation(21, 2, 4, PlaceBet(5, 7, 3, 5, Odd, BettingOpen)),
               Operation(14, 1, 4, PlaceBet(4, 7, 3, 10, Odd, BettingOpen)), Operation(15, 1, 5, CloseBetting(3)),
               Operation(16, 1, 6, ResolveRound(3, 1)),
               Operation(18, 1, 7, ApplyPayout(PayoutId(3, 4), 7, 3, 20)),
               Operation(17, 2, 6, ResolveRound(3, 1)),
               Operation(19, 2, 7, ApplyPayout(PayoutId(3, 4), 7, 3, 20)),
               Operation(20, 2, 8, TransferRights(7, 2, 1, 25)));
  }

  function OpeningOf(s: Story): set<Operation> {
    {s.join, s.create, s.open}
  }

  lemma Opening(s: Story)
    requires Told(s)
    ensures Replay({s.join}) == Step(START, s.join)
    ensures Replay({s.join, s.create}) == Step(Replay({s.join}), s.create)
    ensures Replay(OpeningOf(s)) == Step(Replay({s.join, s.create}), s.open)
  {
    ThreeSteps(s.join, s.create, s.open);
  }

  lemma ThreeSteps(a: Operation, b: Operation, c: Operation)
    requires DistinctIds({a, b, c}) && Before(a, b) && Before(b, c)
    ensures Replay({a}) == Step(START, a)
    ensures Replay({a, b}) == Step(Replay({a}), b)
    ensures Replay({a, b, c}) == Step(Replay({a, b}), c)
  {
    assert {} + {a} == {a} && {a} + {b} == {a, b} && {a, b} + {c} == {a, b, c};
    ReplayExtend({}, a);
    ReplayExtend({a}, b);
    ReplayExtend({a, b}, c);
  }

  lemma OpeningRound(s: Story)
    requires Told(s)
    ensures RoundPhase(Replay(OpeningOf(s)), 3) == Some(BettingOpen)
  {
    Opening(s);
    RankStep(START, s.join, 3);
    RankStep(Replay({s.join}), s.create, 3);
    RankStep(Replay({s.join, s.create}), s.open, 3);
  }

  /** Creating and opening a round leaves the counter as the join made it. */
  lemma OpeningCounter(s: Story)
    requires Told(s)
    ensures CounterOf(Replay(OpeningOf(s)), s.p) == CounterOf(Step(START, s.join), s.p)
  {
    Opening(s);
    SameCounter(Replay({s.join}), s.create, s.p);
    SameCounter(Replay({s.join, s.create}), s.open, s.p);
  }

  lemma SameCounter(t: State, x: Operation, p: PlayerId)
    requires x.kind.CreateRound? || x.kind.OpenBetting?
    ensures CounterOf(Step(t, x), p) == CounterOf(t, p)
  {
    ApplyEffect(t, x, true, p);
  }

  lemma OpeningRights(s: Story, r: ReplicaId)
    requires Told(s) && (r == 1 || r == 2)
    ensures AvailableRights(Replay(OpeningOf(s)), s.p, r) == 10
  {
    OpeningCounter(s);
    ApplyEffect(START, s.join, true, s.p);
    SplitRights(MergeMax(map[], JoinRights(s.join)), r);
    RightsOfCounter(Replay(OpeningOf(s)), s.p, r);
  }

  lemma SplitRights(initial: map<ReplicaId, nat>, r: ReplicaId)
    requires Of(initial, r) == 10
    ensures Available(EMPTY_COUNTER.(initial := initial), r) == 10
  {
    EmptyRights(r);
    InitialRightsGrow(EMPTY_COUNTER, initial, r);
  }

  lemma OpeningSeat(s: Story)
    requires Told(s)
    ensures Contains(Replay(OpeningOf(s)).players, s.p)
  {
    assert s.join in OpeningOf(s) && IsJoin(s.join, s.p);
    assert Seated(OpeningOf(s), s.p);
    PlayerVisible(OpeningOf(s), s.p);
  }

  lemma BetOffered(s: Story, bet: Operation)
    requires Told(s) && (bet == s.bet || bet == s.late)
    ensures Offered(Replay(OpeningOf(s)), bet)
    ensures MayBet(Replay(OpeningOf(s)), bet.replica, s.p, 3, bet.kind.amount)
  {
    OpeningRound(s);
    OpeningRights(s, bet.replica);
    OpeningSeat(s);
  }

  ghost function OpeningHistory(s: Story): map<Operation, set<Operation>> {
    map[][s.join := {}][s.create := {s.join}][s.open := {s.join, s.create}]
  }

  lemma OpeningReached(s: Story)
    requires Told(s)
    ensures Reached(OpeningOf(s), {}, 3, 0, OpeningHistory(s))
  {
    Start();
    RecordAt1({}, {}, 0, 0, map[], s.join);
    assert {} + {s.join} == {s.join};
    RecordAt1({s.join}, {}, 1, 0, map[][s.join := {}], s.create);
    assert {s.join} + {s.create} == {s.join, s.create};
    RecordAt1({s.join, s.create}, {}, 2, 0, map[][s.join := {}][s.create := {s.join}], s.open);
    assert {s.join, s.create} + {s.open} == OpeningOf(s);
  }

  // ---- something happens to a player who bets elsewhere ----

  /** What replica 1 records while replica 2 places the late bet. */
  predicate IsSurprise(s: Story, y: Operation) {
    y == s.leave || y == s.big || y == s.gift
  }

  lemma SharedReached(s: Story)
    requires Told(s)
    ensures Reached(OpeningOf(s), OpeningOf(s), 3, 3, OpeningHistory(s))
  {
    OpeningReached(s);
    assert CausallyClosed(OpeningOf(s), OpeningHistory(s));
    assert s.open in OpeningOf(s) && MaxTime(OpeningOf(s)) == 3;
    ReceiveAt2(OpeningOf(s), 3, OpeningHistory(s));
  }

  ghost function SurpriseHistory(s: Story, y: Operation): map<Operation, set<Operation>> {
    OpeningHistory(s)[y := OpeningOf(s)][s.late := OpeningOf(s)]
  }

  lemma SurpriseOffered(s: Story, y: Operation)
    requires Told(s) && IsSurprise(s, y)
    ensures Offered(Replay(OpeningOf(s)), y)
  {
    OpeningRights(s, 1);
  }

  lemma SurpriseReached(s: Story, y: Operation)
    requires Told(s) && IsSurprise(s, y)
    ensures Reached(OpeningOf(s) + {y}, OpeningOf(s) + {s.late}, 4, 4, SurpriseHistory(s, y))
  {
    SharedReached(s);
    SurpriseOffered(s, y);
    RecordAt1(OpeningOf(s), OpeningOf(s), 3, 3, OpeningHistory(s), y);
    BetOffered(s, s.late);
    RecordAt2(OpeningOf(s) + {y}, OpeningOf(s), 4, 3, OpeningHistory(s)[y := OpeningOf(s)], s.late);
  }

  lemma SurpriseWorld(s: Story, y: Operation) returns (w: World)
    requires Told(s) && IsSurprise(s, y)
    ensures Reachable(w) && w.born == SurpriseHistory(s, y)
  {
    SurpriseReached(s, y);
    w := WorldOf(OpeningOf(s) + {y}, OpeningOf(s) + {s.late}, 4, 4, SurpriseHistory(s, y));
  }

  lemma SurpriseClosed(s: Story, y: Operation)
    requires Told(s) && IsSurprise(s, y)
    ensures CausallyClosed(OpeningOf(s) + {y} + {s.late}, SurpriseHistory(s, y))
    ensures SurpriseHistory(s, y).Keys == OpeningOf(s) + {y} + {s.late}
    ensures forall x :: x in SurpriseHistory(s, y) ==> !x.kind.ApplyPayout?
  {
  }

  lemma SurpriseOrder(s: Story, y: Operation)
    requires Told(s) && IsSurprise(s, y)
    ensures Appends(OpeningOf(s), y) && Appends(OpeningOf(s) + {y}, s.late)
  {
  }

  lemma NoPayoutsAreKnown(born: map<Operation, set<Operation>>, p: PlayerId)
    requires forall x :: x in born ==> !x.kind.ApplyPayout?
    ensures KnownPayouts(born, born.Keys, p)
  {
  }

  // ---- a leave ----

  lemma LeaveIsInformed(s: Story)
    requires Told(s)
    ensures Informed(SurpriseHistory(s, s.leave), SurpriseHistory(s, s.leave).Keys, s.p)
  {
    SurpriseClosed(s, s.leave);
    NoPayoutsAreKnown(SurpriseHistory(s, s.leave), s.p);
    assert forall x :: x in SurpriseHistory(s, s.leave) ==> IncomeSafe(x, s.p) && !x.kind.TransferRights?;
    SmallIncomeIsKnown(SurpriseHistory(s, s.leave), s.p);
  }

  lemma BetUnseated(s: Story)
    requires Told(s)
    ensures s.late.id in Replay(OpeningOf(s) + {s.leave} + {s.late}).rejected
  {
    var log := OpeningOf(s) + {s.leave} + {s.late};
    SurpriseOrder(s, s.leave);
    assert s.leave in Prefix(log, s.late) && IsLeave(s.leave, s.p) && Before(s.join, s.leave);
    assert !Seated(Prefix(log, s.late), s.p);
    BetVerdict(log, s.late);
  }

  /** Replica 1 records a leave of p while replica 2 places a bet for p.  The leave
      sorts before the bet and unseats the player, so the bet is rejected, although
      issuers are informed. */
  lemma LeaveBreaksDurability()
    ensures exists w, p, log ::
              && Reachable(w) && Informed(w.born, w.born.Keys, p)
              && CausallyClosed(log, w.born) && !AllAccepted(log, p)
  {
    var w, p, log := LeaveCase();
  }

  lemma LeaveCase() returns (w: World, p: PlayerId, log: set<Operation>)
    ensures Reachable(w) && Informed(w.born, w.born.Keys, p)
    ensures CausallyClosed(log, w.born) && !AllAccepted(log, p)
  {
    var s := SomeStory();
    p, log := s.p, OpeningOf(s) + {s.leave} + {s.late};
    w := SurpriseWorld(s, s.leave);
    LeaveIsInformed(s);
    SurpriseClosed(s, s.leave);
    BetUnseated(s);
    Refuted(log, s.p, s.late);
  }

  // ---- oversized income ----

  /** A bet that the reported rights do not cover. */
  lemma UncoveredBet(ops: set<Operation>, x: Operation)
    requires Appends(ops, x) && x.kind.PlaceBet?
    requires AvailableRights(Replay(ops), x.kind.player, x.replica) < AsI64(x.kind.amount)
    ensures x.id in Replay(ops + {x}).rejected
  {
    ReplayAccounted(ops, x.kind.player);
    IdsAreNew(Replay(ops), ops, x, x.kind.player);
    RightsOfCounter(Replay(ops), x.kind.player, x.replica);
    StepVerdict(ops, x);
  }

  lemma OpeningVolume(s: Story)
    requires Told(s)
    ensures Volume(OpeningOf(s)) <= 1000
  {
    var ops := OpeningOf(s);
    assert {} + {s.join} == {s.join} && {s.join} + {s.create} == {s.join, s.create};
    assert {s.join, s.create} + {s.open} == ops;
    VolumeStep({}, s.join);
    VolumeStep({s.join}, s.create);
    VolumeStep({s.join, s.create}, s.open);
    NothingWeighs();
    JoinWeighs(s);
  }

  lemma NothingWeighs()
    ensures Volume({}) == 0
  {
    assert (map x: Operation | x in {} :: Weight(x)) == map[];
  }

  lemma JoinWeighs(s: Story)
    requires Told(s)
    ensures Weight(s.join) == 40
  {
    SumPut<ReplicaId>(map[], 1, 10);
    SumPut<ReplicaId>(map[1 := 10], 2, 10);
    assert map[][1 := 10] == map[1 := 10] && map[1 := 10][2 := 10] == map[1 := 10, 2 := 10];
  }

  lemma OpeningSmall(s: Story)
    requires Told(s)
    ensures CounterVolume(CounterOf(Replay(OpeningOf(s)), s.p)) <= 1000
    ensures Available(CounterOf(Replay(OpeningOf(s)), s.p), 2) == 10
    ensures Of(CounterOf(Replay(OpeningOf(s)), s.p).initial, 2) == 10
  {
    SmallCounter(s);
    OpeningRights(s, 2);
    RightsOfCounter(Replay(OpeningOf(s)), s.p, 2);
    OpeningInitial(s);
  }

  lemma SmallCounter(s: Story)
    requires Told(s)
    ensures CounterVolume(CounterOf(Replay(OpeningOf(s)), s.p)) <= 1000
  {
    SurpriseOrder(s, s.leave);
    OpeningVolume(s);
    ReplayVolume(OpeningOf(s), s.p);
  }

  lemma OpeningInitial(s: Story)
    requires Told(s)
    ensures Of(CounterOf(Replay(OpeningOf(s)), s.p).initial, 2) == 10
  {
    OpeningCounter(s);
    ApplyEffect(START, s.join, true, s.p);
  }

  lemma SmallParts(c: Counter, r: ReplicaId)
    requires CounterVolume(c) <= 1000
    ensures Parts(c, r, Held(c.grants, r), Held(Credits(c.transfers), r), Held(Debits(c.transfers), r),
                  Held(c.spends, r))
    ensures Of(c.initial, r) + Held(c.grants, r) + Held(Credits(c.transfers), r) <= 1000
    ensures Held(Debits(c.transfers), r) + Held(c.spends, r) <= 1000
    ensures 0 <= Held(c.grants, r) && 0 <= Held(Credits(c.transfers), r)
    ensures 0 <= Held(Debits(c.transfers), r) && 0 <= Held(c.spends, r)
  {
    PartsExact(c, r);
    PartsBounded(c, r);
  }

  /** An oversized right, reported without overflow. */
  lemma OversizedRight(c: Counter, initial: map<ReplicaId, nat>, r: ReplicaId)
    requires CounterVolume(c) <= 1000 && Of(initial, r) == OVERSIZED
    ensures AvailableI64(c.(initial := initial), r).Some?
  {
    SmallParts(c, r);
    CastOversized(OVERSIZED);
    PartsReported(c.(initial := initial), r, OVERSIZED - TWO_64, Held(c.grants, r), Held(Credits(c.transfers), r),
                  Held(Debits(c.transfers), r), Held(c.spends, r));
  }

  lemma TransferPut(t: map<OpId, TransferEntry>, id: OpId, e: TransferEntry)
    requires id !in t
    ensures Credits(t[id := e]) == Credits(t)[id := Entry(e.to, e.amount)] && id !in Credits(t)
    ensures Debits(t[id := e]) == Debits(t)[id := Entry(e.from, e.amount)] && id !in Debits(t)
  {
  }

  lemma HeldElsewhere(m: map<OpId, Entry>, id: OpId, e: Entry, r: ReplicaId)
    requires id !in m && e.replica != r
    ensures HeldI64(m[id := e], r) == HeldI64(m, r)
  {
    assert CastOwned(m[id := e], r) == CastOwned(m, r);
  }

  lemma CreditParts(t: map<OpId, TransferEntry>, id: OpId, from: ReplicaId, to: ReplicaId, amount: nat)
    requires id !in t && from != to && Held(Credits(t), to) < TWO_63 && TWO_63 <= amount < TWO_64
    ensures var u := t[id := TransferEntry(from, to, amount)];
            && HeldI64(Credits(u), to) == Some(Held(Credits(t), to) + amount - TWO_64)
            && HeldI64(Debits(u), to) == HeldI64(Debits(t), to)
  {
    TransferPut(t, id, TransferEntry(from, to, amount));
    HeldI64Wraps(Credits(t), id, to, amount);
    HeldElsewhere(Debits(t), id, Entry(from, amount), to);
  }

  /** An oversized incoming transfer, reported without overflow. */
  lemma OversizedCredit(c: Counter, id: OpId, from: ReplicaId, to: ReplicaId, amount: nat)
    requires CounterVolume(c) <= 1000 && id !in c.transfers && from != to && amount == OVERSIZED
    ensures AvailableI64(RecordTransfer(c, id, from, to, amount), to).Some?
  {
    HeldCredits(c, to);
    CreditParts(c.transfers, id, from, to, amount);
    CreditedI64(c, RecordTransfer(c, id, from, to, amount), to, amount);
  }

  lemma HeldCredits(c: Counter, r: ReplicaId)
    requires CounterVolume(c) <= 1000
    ensures Held(Credits(c.transfers), r) < TWO_63
  {
    SmallParts(c, r);
  }

  lemma CreditedI64(c: Counter, d: Counter, r: ReplicaId, amount: nat)
    requires CounterVolume(c) <= 1000 && amount == OVERSIZED
    requires d.initial == c.initial && d.grants == c.grants && d.spends == c.spends
    requires HeldI64(Credits(d.transfers), r) == Some(Held(Credits(c.transfers), r) + amount - TWO_64)
    requires HeldI64(Debits(d.transfers), r) == HeldI64(Debits(c.transfers), r)
    ensures AvailableI64(d, r).Some?
  {
    SmallParts(c, r);
    PartsReported(d, r, Of(c.initial, r), Held(c.grants, r), Held(Credits(c.transfers), r) + amount - TWO_64,
                  Held(Debits(c.transfers), r), Held(c.spends, r));
  }

  /** What replica 2's late bet is up against once the logs have met. */
  ghost predicate Sunk(s: Story, y: Operation) {
    && AvailableRights(Replay(OpeningOf(s) + {y}), s.p, 2) < 0
    && AvailableI64(CounterOf(Replay(OpeningOf(s) + {y}), s.p), 2).Some?
    && MachineReplay(OpeningOf(s) + {y}) == Some(Replay(OpeningOf(s) + {y}))
  }

  lemma JoinSinks(s: Story)
    requires Told(s)
    ensures Sunk(s, s.big)
  {
    var ops := OpeningOf(s);
    var c := CounterOf(Replay(ops), s.p);
    OpeningSmall(s);
    SurpriseOrder(s, s.big);
    AcceptedEffect(Replay(ops), s.big, s.p);
    ReplayExtend(ops, s.big);
    BigRights(c, s.big);
    RightsOfCounter(Replay(ops + {s.big}), s.p, 2);
    OpeningVolume(s);
    OpeningBalances(s);
    MachineExtend(ops, s.big);
  }

  lemma BigRights(c: Counter, big: Operation)
    requires CounterVolume(c) <= 1000 && Available(c, 2) == Of(c.initial, 2) == 10
    requires big.kind.JoinTable? && big.kind.rights == map[2 := OVERSIZED]
    ensures var d := c.(initial := MergeMax(c.initial, JoinRights(big)));
            Available(d, 2) < 0 && AvailableI64(d, 2).Some?
  {
    var initial := MergeMax(c.initial, JoinRights(big));
    assert Of(initial, 2) == OVERSIZED;
    InitialRightsGrow(c, initial, 2);
    CastOversized(OVERSIZED);
    OversizedRight(c, initial, 2);
  }

  lemma OpeningBalances(s: Story)
    requires Told(s)
    ensures Of(BalanceOf(Replay(OpeningOf(s)), s.p).increments, 1) <= 1000
  {
    SurpriseOrder(s, s.leave);
    OpeningVolume(s);
    ReplayVolume(OpeningOf(s), s.p);
    var b := BalanceOf(Replay(OpeningOf(s)), s.p);
    SumNonneg<ReplicaId>(b.decrements);
    InitialBound(EMPTY_COUNTER.(initial := b.increments), 1);
  }

  lemma GiftSinks(s: Story)
    requires Told(s)
    ensures Sunk(s, s.gift)
  {
    var ops := OpeningOf(s);
    var c := CounterOf(Replay(ops), s.p);
    OpeningSmall(s);
    OpeningRights(s, 1);
    SurpriseOrder(s, s.gift);
    CastOversized(OVERSIZED);
    TransferAccepted(ops, s.gift);
    AcceptedEffect(Replay(ops), s.gift, s.p);
    ReplayExtend(ops, s.gift);
    TransferredCounter(c, s.gift, 2);
    RightsOfCounter(Replay(ops + {s.gift}), s.p, 2);
    OversizedCredit(c, s.gift.id, 1, 2, OVERSIZED);
    OpeningVolume(s);
    MachineExtend(ops, s.gift);
  }

  lemma MachineRejects(s: Story, y: Operation)
    requires Told(s) && IsSurprise(s, y) && Sunk(s, y)
    ensures s.late.id in Replay(OpeningOf(s) + {y} + {s.late}).rejected
    ensures MachineReplay(OpeningOf(s) + {y} + {s.late}) == Some(Replay(OpeningOf(s) + {y} + {s.late}))
  {
    SurpriseOrder(s, y);
    UncoveredBet(OpeningOf(s) + {y}, s.late);
    MachineRejection(OpeningOf(s) + {y}, s.late);
  }

  lemma MachineRejection(ops: set<Operation>, x: Operation)
    requires Appends(ops, x) && x.kind.PlaceBet? && MachineReplay(ops) == Some(Replay(ops))
    requires AvailableI64(CounterOf(Replay(ops), x.kind.player), x.replica).Some?
    requires x.id in Replay(ops + {x}).rejected
    ensures MachineReplay(ops + {x}) == Some(Replay(ops + {x}))
  {
    LastAfter(ops, x);
    StepVerdict(ops, x);
    VerdictSome(Replay(ops), x);
  }

  lemma OversizedIsOutlived(s: Story, y: Operation)
    requires Told(s) && (y == s.big || y == s.gift)
    ensures KnownPayouts(SurpriseHistory(s, y), SurpriseHistory(s, y).Keys, s.p)
    ensures NoLeaves(SurpriseHistory(s, y).Keys, s.p)
    ensures LeavesOutlived(SurpriseHistory(s, y), SurpriseHistory(s, y).Keys, s.p)
  {
    SurpriseClosed(s, y);
    NoPayoutsAreKnown(SurpriseHistory(s, y), s.p);
  }

  lemma OversizedCase(s: Story, y: Operation) returns (w: World, log: set<Operation>)
    requires Told(s) && (y == s.big || y == s.gift) && Sunk(s, y)
    ensures Reachable(w) && y in log && CausallyClosed(log, w.born) && !AllAccepted(log, s.p)
    ensures KnownPayouts(w.born, w.born.Keys, s.p) && LeavesOutlived(w.born, w.born.Keys, s.p)
    ensures MachineReplay(log) == Some(Replay(log))
  {
    log := OpeningOf(s) + {y} + {s.late};
    w := SurpriseWorld(s, y);
    SurpriseClosed(s, y);
    OversizedIsOutlived(s, y);
    MachineRejects(s, y);
    Refuted(log, s.p, s.late);
  }

  /** Replica 1 records another join of p, with rights of more than 2^63 for replica 2 -
      backed by as many chips - while replica 2 places a bet for p.  Those rights are cast
      to a negative number, so the bet is rejected, without any overflow, although payouts
      are known and nobody leaves. */
  lemma OversizedJoinBreaksDurability()
    ensures exists w, p, log, y ::
              && Reachable(w) && y in log && IsJoin(y, p) && Sum<ReplicaId>(JoinRights(y)) <= y.kind.chips
              && KnownPayouts(w.born, w.born.Keys, p) && LeavesOutlived(w.born, w.born.Keys, p)
              && CausallyClosed(log, w.born) && !AllAccepted(log, p) && MachineReplay(log) == Some(Replay(log))
  {
    var s := SomeStory();
    JoinSinks(s);
    BigIsBacked(s);
    var w, log := OversizedCase(s, s.big);
  }

  lemma BigIsBacked(s: Story)
    requires Told(s)
    ensures IsJoin(s.big, s.p) && Sum<ReplicaId>(JoinRights(s.big)) <= s.big.kind.chips
  {
    SumPut<ReplicaId>(map[], 2, OVERSIZED);
    assert map[][2 := OVERSIZED] == map[2 := OVERSIZED];
  }

  /** Replica 1 sends replica 2 more than 2^63 rights of p while replica 2 places a bet. */
  lemma OversizedTransferBreaksDurability()
    ensures exists w, p, log, y ::
              && Reachable(w) && y in log && IsTransfer(y, p)
              && KnownPayouts(w.born, w.born.Keys, p) && LeavesOutlived(w.born, w.born.Keys, p)
              && CausallyClosed(log, w.born) && !AllAccepted(log, p) && MachineReplay(log) == Some(Replay(log))
  {
    var s := SomeStory();
    GiftSinks(s);
    var w, log := OversizedCase(s, s.gift);
    assert IsTransfer(s.gift, s.p);
  }

  // ---- two replicas resolve the same round ----

  function BettingOf(s: Story): set<Operation> {
    OpeningOf(s) + {s.bet}
  }

  function TableOf(s: Story): set<Operation> {
    BettingOf(s) + {s.close}
  }

  ghost function TableHistory(s: Story): map<Operation, set<Operation>> {
    OpeningHistory(s)[s.bet := OpeningOf(s)][s.close := BettingOf(s)]
  }

  lemma TableReached(s: Story)
    requires Told(s)
    ensures Reached(TableOf(s), {}, 5, 0, TableHistory(s))
  {
    OpeningReached(s);
    BetOffered(s, s.bet);
    RecordAt1(OpeningOf(s), {}, 3, 0, OpeningHistory(s), s.bet);
    RecordAt1(BettingOf(s), {}, 4, 0, OpeningHistory(s)[s.bet := OpeningOf(s)], s.close);
  }

  lemma TableClosed(s: Story)
    requires Told(s)
    ensures CausallyClosed(TableOf(s), TableHistory(s))
  {
  }

  lemma TableTime(s: Story)
    requires Told(s)
    ensures MaxTime(TableOf(s)) == 5
  {
    assert s.close in TableOf(s);
    assert forall x :: x in TableOf(s) ==> x.time <= 5;
  }

  lemma TableShared(s: Story)
    requires Told(s)
    ensures Reached(TableOf(s), TableOf(s), 5, 5, TableHistory(s))
  {
    TableReached(s);
    TableClosed(s);
    TableTime(s);
    ReceiveAt2(TableOf(s), 5, TableHistory(s));
  }

  /** Everything in ops has a smaller id and a smaller sort key. */
  ghost predicate Precedes(ops: set<Operation>, x: Operation) {
    DistinctIds(ops) && forall y :: y in ops ==> y.id < x.id && Before(y, x)
  }

  lemma Next(ops: set<Operation>, x: Operation, y: Operation)
    requires Precedes(ops, x) && x.id < y.id && Before(x, y)
    ensures Appends(ops, x) && Precedes(ops + {x}, y)
  {
  }

  lemma PrecedingAppends(ops: set<Operation>, x: Operation)
    requires Precedes(ops, x)
    ensures Appends(ops, x)
  {
  }

  lemma OpeningOrder(s: Story)
    requires Told(s)
    ensures Precedes(OpeningOf(s), s.bet)
  {
  }

  lemma TableOrder(s: Story)
    requires Told(s)
    ensures Appends(OpeningOf(s), s.bet) && Appends(BettingOf(s), s.close)
    ensures Precedes(TableOf(s), s.resA) && Precedes(TableOf(s), s.resB)
    ensures Appends(TableOf(s), s.resA) && Appends(TableOf(s), s.resB)
  {
    OpeningOrder(s);
    Next(OpeningOf(s), s.bet, s.close);
    Next(BettingOf(s), s.close, s.resA);
    Next(BettingOf(s), s.close, s.resB);
    PrecedingAppends(TableOf(s), s.resA);
    PrecedingAppends(TableOf(s), s.resB);
  }

  lemma TableRound(s: Story)
    requires Told(s)
    ensures RoundPhase(Replay(TableOf(s)), 3) == Some(BettingClosed)
  {
    OpeningRound(s);
    TableOrder(s);
    ClosedAfterBet(OpeningOf(s), s.bet, s.close, 3);
  }

  lemma ClosedAfterBet(ops: set<Operation>, bet: Operation, close: Operation, round: RoundId)
    requires RoundPhase(Replay(ops), round) == Some(BettingOpen)
    requires Appends(ops, bet) && bet.kind.PlaceBet?
    requires Appends(ops + {bet}, close) && close.kind == CloseBetting(round)
    ensures RoundPhase(Replay(ops + {bet} + {close}), round) == Some(BettingClosed)
  {
    RankExtends(ops, bet, round);
    RankExtends(ops + {bet}, close, round);
  }

  lemma RankExtends(ops: set<Operation>, x: Operation, round: RoundId)
    requires Appends(ops, x)
    ensures Rank(Replay(ops + {x}), round)
         == if Target(x, round) == Rank(Replay(ops), round) + 1 then Target(x, round) else Rank(Replay(ops), round)
  {
    ReplayExtend(ops, x);
    RankStep(Replay(ops), x, round);
  }

  lemma BetStands(s: Story, z: Operation)
    requires Told(s) && (z == s.resA || z == s.resB)
    ensures s.bet.id !in Replay(TableOf(s) + {z}).rejected
  {
    TableOrder(s);
    BetOffered(s, s.bet);
    BetPlaced(OpeningOf(s), s.bet);
    StepVerdict(BettingOf(s), s.close);
    StepVerdict(TableOf(s), z);
  }

  lemma OneWinner(s: Story, z: Operation)
    requires Told(s) && (z == s.resA || z == s.resB)
    ensures Winners(VisibleBets(Replay(TableOf(s) + {z})), 3, 1) == {BetOf(s.bet)}
  {
    BetStands(s, z);
    TableOrder(s);
    VisibleBetsAreAccepted(TableOf(s) + {z});
    OneBet(Replay(TableOf(s) + {z}), s, z);
  }

  lemma OneBet(t: State, s: Story, z: Operation)
    requires Told(s) && (z == s.resA || z == s.resB) && s.bet.id !in t.rejected
    ensures Winners(AcceptedBets(t, TableOf(s) + {z}), 3, 1) == {BetOf(s.bet)}
  {
    assert s.bet in TableOf(s) + {z};
    assert AcceptedBets(t, TableOf(s) + {z}) == {BetOf(s.bet)};
  }

  ghost function ResolvedHistory(s: Story): map<Operation, set<Operation>> {
    TableHistory(s)[s.resA := TableOf(s)][s.payA := TableOf(s) + {s.resA}]
                   [s.resB := TableOf(s)][s.payB := TableOf(s) + {s.resB}]
  }

  lemma TableResolvable(s: Story)
    requires Told(s)
    ensures Resolvable(TableOf(s), 5, TableHistory(s), s.resA, s.payA, BetOf(s.bet))
    ensures Resolvable(TableOf(s), 5, TableHistory(s)[s.resA := TableOf(s)][s.payA := TableOf(s) + {s.resA}],
                       s.resB, s.payB, BetOf(s.bet))
  {
    TableRound(s);
    OneWinner(s, s.resA);
    OneWinner(s, s.resB);
    FreshIds(s);
  }

  lemma FreshIds(s: Story)
    requires Told(s)
    ensures forall x :: x in TableHistory(s) ==> x.id != s.resA.id && x.id != s.payA.id
    ensures forall x :: x in TableHistory(s)[s.resA := TableOf(s)][s.payA := TableOf(s) + {s.resA}] ==>
              x.id != s.resB.id && x.id != s.payB.id
  {
  }

  lemma BothResolve(s: Story)
    requires Told(s)
    ensures Reached(TableOf(s) + {s.resA} + {s.payA}, TableOf(s) + {s.resB} + {s.payB}, 7, 7, ResolvedHistory(s))
  {
    TableShared(s);
    TableResolvable(s);
    ResolveAt1(TableOf(s), TableOf(s), 5, 5, TableHistory(s), s.resA, s.payA, BetOf(s.bet));
    ResolveAt2(TableOf(s) + {s.resA} + {s.payA}, TableOf(s), 7, 5,
               TableHistory(s)[s.resA := TableOf(s)][s.payA := TableOf(s) + {s.resA}],
               s.resB, s.payB, BetOf(s.bet));
  }

  /** Closing and resolving change no rights. */
  lemma RoundKeepsRights(ops: set<Operation>, x: Operation, p: PlayerId, r: ReplicaId)
    requires Appends(ops, x) && (x.kind.CloseBetting? || x.kind.ResolveRound?)
    ensures AvailableRights(Replay(ops + {x}), p, r) == AvailableRights(Replay(ops), p, r)
    ensures Replay(ops + {x}).payouts == Replay(ops).payouts
  {
    ReplayExtend(ops, x);
    ApplyEffect(Replay(ops), x, true, p);
    RightsOfCounter(Replay(ops), p, r);
    RightsOfCounter(Replay(ops + {x}), p, r);
  }

  lemma NothingPaid(ops: set<Operation>)
    requires DistinctIds(ops) && forall x :: x in ops ==> !x.kind.ApplyPayout?
    ensures Replay(ops).payouts == {}
  {
    AppliedPayouts(ops);
  }

  lemma PayoutRights(ops: set<Operation>, x: Operation, r: ReplicaId)
    requires Appends(ops, x) && x.kind.ApplyPayout?
    ensures Replay(ops + {x}).payouts == Replay(ops).payouts + {x.kind.payout}
    ensures AvailableRights(Replay(ops + {x}), x.kind.player, r)
         == AvailableRights(Replay(ops), x.kind.player, r)
            + if r == x.replica && x.kind.payout !in Replay(ops).payouts then AsI64(x.kind.amount) else 0
  {
    PayoutPaid(ops, x);
  }

  lemma TableUnpaid(s: Story, more: set<Operation>)
    requires Told(s) && more <= {s.resA, s.resB} && DistinctIds(TableOf(s) + more)
    ensures Replay(TableOf(s) + more).payouts == {}
  {
    NothingPaid(TableOf(s) + more);
  }

  lemma TableRights(s: Story)
    requires Told(s)
    ensures AvailableRights(Replay(TableOf(s)), s.p, 2) == 10
  {
    TableOrder(s);
    OpeningRights(s, 2);
    BetOffered(s, s.bet);
    BetPlaced(OpeningOf(s), s.bet);
    RoundKeepsRights(BettingOf(s), s.close, s.p, 2);
  }

  /** On the strength of its own payout replica 2 has 30 rights. */
  lemma RightsAt2(s: Story)
    requires Told(s)
    ensures AvailableRights(Replay(TableOf(s) + {s.resB} + {s.payB}), s.p, 2) == 30
  {
    var log := TableOf(s) + {s.resB};
    TableOrder(s);
    PaidOrder(s);
    TableRights(s);
    RoundKeepsRights(TableOf(s), s.resB, s.p, 2);
    TableUnpaid(s, {s.resB});
    PayoutRights(log, s.payB, 2);
  }

  lemma PaidOrder(s: Story)
    requires Told(s)
    ensures Appends(TableOf(s) + {s.resB}, s.payB)
  {
    TableOrder(s);
    Next(TableOf(s), s.resB, s.payB);
    PrecedingAppends(TableOf(s) + {s.resB}, s.payB);
  }

  function MergedOf(s: Story): set<Operation> {
    TableOf(s) + {s.resA} + {s.resB} + {s.payA} + {s.payB}
  }

  lemma MergedOrder(s: Story)
    requires Told(s)
    ensures Appends(TableOf(s), s.resA) && Appends(TableOf(s) + {s.resA}, s.resB)
    ensures Appends(TableOf(s) + {s.resA} + {s.resB}, s.payA)
    ensures Precedes(TableOf(s) + {s.resA} + {s.resB}, s.payA)
  {
    TableOrder(s);
    Next(TableOf(s), s.resA, s.resB);
    Next(TableOf(s) + {s.resA}, s.resB, s.payA);
    PrecedingAppends(TableOf(s) + {s.resA} + {s.resB}, s.payA);
  }

  lemma MergedEnd(s: Story)
    requires Told(s)
    ensures Appends(TableOf(s) + {s.resA} + {s.resB} + {s.payA}, s.payB)
    ensures Appends(MergedOf(s), s.send)
  {
    MergedOrder(s);
    Next(TableOf(s) + {s.resA} + {s.resB}, s.payA, s.payB);
    Next(TableOf(s) + {s.resA} + {s.resB} + {s.payA}, s.payB, s.send);
    PrecedingAppends(MergedOf(s), s.send);
  }

  /** Of two payouts with one id only the first pays; resolutions pay nobody. */
  lemma SecondPayoutLost(ops: set<Operation>, resA: Operation, resB: Operation, payA: Operation, payB: Operation,
                         r: ReplicaId)
    requires Appends(ops, resA) && Appends(ops + {resA}, resB) && resA.kind.ResolveRound? && resB.kind.ResolveRound?
    requires Appends(ops + {resA} + {resB}, payA) && Appends(ops + {resA} + {resB} + {payA}, payB)
    requires payA.kind.ApplyPayout? && payA.replica != r && payB.kind == payA.kind
    ensures AvailableRights(Replay(ops + {resA} + {resB} + {payA} + {payB}), payA.kind.player, r)
         == AvailableRights(Replay(ops), payA.kind.player, r)
  {
    RoundKeepsRights(ops, resA, payA.kind.player, r);
    RoundKeepsRights(ops + {resA}, resB, payA.kind.player, r);
    PayoutRights(ops + {resA} + {resB}, payA, r);
    PayoutRights(ops + {resA} + {resB} + {payA}, payB, r);
  }

  /** In the merged log the payout of replica 1 sorts first and gets the grant. */
  lemma MergedRights(s: Story)
    requires Told(s)
    ensures AvailableRights(Replay(MergedOf(s)), s.p, 2) == 10
  {
    TableRights(s);
    MergedOrder(s);
    MergedEnd(s);
    SecondPayoutLost(TableOf(s), s.resA, s.resB, s.payA, s.payB, 2);
  }

  lemma SendRejected(s: Story)
    requires Told(s)
    ensures s.send.id in Replay(MergedOf(s) + {s.send}).rejected
  {
    MergedRights(s);
    MergedEnd(s);
    UncoveredTransfer(MergedOf(s), s.send);
  }

  lemma UncoveredTransfer(ops: set<Operation>, x: Operation)
    requires Appends(ops, x) && x.kind.TransferRights? && x.kind.amount < TWO_63
    requires AvailableRights(Replay(ops), x.kind.player, x.kind.from) < x.kind.amount
    ensures x.id in Replay(ops + {x}).rejected
  {
    NeverTransferred(ops, x.kind.player, x);
    RightsOfCounter(Replay(ops), x.kind.player, x.kind.from);
    StepVerdict(ops, x);
  }

  lemma {:induction false} NeverTransferred(log: set<Operation>, p: PlayerId, send: Operation)
    requires Appends(log, send)
    ensures send.id !in CounterOf(Replay(log), p).transfers
  {
    ReplayAccounted(log, p);
    IdsAreNew(Replay(log), log, send, p);
  }

  lemma FreshSend(s: Story)
    requires Told(s)
    ensures forall x :: x in ResolvedHistory(s) ==> x.id != s.send.id
  {
  }

  lemma SendReached(s: Story)
    requires Told(s)
    ensures Reached(TableOf(s) + {s.resA} + {s.payA}, TableOf(s) + {s.resB} + {s.payB} + {s.send}, 7, 8,
                    ResolvedHistory(s)[s.send := TableOf(s) + {s.resB} + {s.payB}])
  {
    BothResolve(s);
    RightsAt2(s);
    FreshSend(s);
    RecordAt2(TableOf(s) + {s.resA} + {s.payA}, TableOf(s) + {s.resB} + {s.payB}, 7, 7, ResolvedHistory(s), s.send);
  }

  /** Replicas 1 and 2 both resolve round 3 and pay its winning bet.  Replica 2's payout
      sorts after replica 1's, so its grant disappears when the logs meet, and the
      transfer that replica 2 accepted on the strength of it is rejected - although no
      player leaves and bet ids are used once. */
  lemma TwoResolversBreakDurability()
    ensures exists w, p, log ::
              && Reachable(w) && NoLeaves(w.born.Keys, p) && DistinctBets(w.born.Keys)
              && KnownIncome(w.born, w.born.Keys, p)
              && CausallyClosed(log, w.born) && !AllAccepted(log, p)
  {
    var w, p, log := SendCase();
  }

  lemma SendCase() returns (w: World, p: PlayerId, log: set<Operation>)
    ensures Reachable(w) && NoLeaves(w.born.Keys, p) && DistinctBets(w.born.Keys) && KnownIncome(w.born, w.born.Keys, p)
    ensures CausallyClosed(log, w.born) && !AllAccepted(log, p)
  {
    var s := SomeStory();
    p, log := s.p, MergedOf(s) + {s.send};
    SendRejects(s, log);
    w := SendWorld(s);
  }

  lemma SendWorld(s: Story) returns (w: World)
    requires Told(s)
    ensures Reachable(w) && w.born == SendHistory(s)
  {
    SendReached(s);
    w := WorldOf(TableOf(s) + {s.resA} + {s.payA}, TableOf(s) + {s.resB} + {s.payB} + {s.send}, 7, 8, SendHistory(s));
  }

  ghost function SendHistory(s: Story): map<Operation, set<Operation>> {
    ResolvedHistory(s)[s.send := TableOf(s) + {s.resB} + {s.payB}]
  }

  lemma SendRejects(s: Story, log: set<Operation>)
    requires Told(s) && log == MergedOf(s) + {s.send}
    ensures CausallyClosed(log, SendHistory(s)) && !AllAccepted(log, s.p)
    ensures NoLeaves(SendHistory(s).Keys, s.p) && DistinctBets(SendHistory(s).Keys)
    ensures KnownIncome(SendHistory(s), SendHistory(s).Keys, s.p)
  {
    SendRejected(s);
    Refuted(log, s.p, s.send);
    SendHistoryClosed(s, log);
    SendHistoryFair(s);
  }

  lemma SendHistoryClosed(s: Story, log: set<Operation>)
    requires Told(s) && log == MergedOf(s) + {s.send}
    ensures CausallyClosed(log, SendHistory(s))
  {
    TableClosed(s);
  }

  lemma SendHistoryFair(s: Story)
    requires Told(s)
    ensures NoLeaves(SendHistory(s).Keys, s.p) && DistinctBets(SendHistory(s).Keys)
    ensures KnownIncome(SendHistory(s), SendHistory(s).Keys, s.p)
  {
    forall x | x in SendHistory(s) ensures Harmless(s, x) {
      AllHarmless(s, x);
    }
    SmallIncomeIsKnown(SendHistory(s), s.p);
  }

  predicate Harmless(s: Story, x: Operation) {
    && !x.kind.LeaveTable? && (x.kind.PlaceBet? ==> x == s.bet)
    && IncomeSafe(x, s.p) && (IsTransfer(x, s.p) ==> x.kind.amount < TWO_63)
  }

  lemma AllHarmless(s: Story, x: Operation)
    requires Told(s) && x in SendHistory(s)
    ensures Harmless(s, x)
  {
    assert x in OpeningOf(s) || x in {s.bet, s.close, s.resA, s.payA, s.resB, s.payB, s.send};
  }
}
