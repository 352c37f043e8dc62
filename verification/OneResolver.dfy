/** Durable acceptance from how the table is played.  If payouts are only issued by
    resolve_round, then a payout comes with a resolution of its round by the same
    replica, and a resolved round stays resolved for its resolver.  So where every round
    is resolved by one replica only, payouts are known and durable acceptance holds
    exactly; and where bet ids are used once, no payout id is ever issued twice. */
module OneResolver {
  import opened Operations
  import opened BetState
  import opened Replays
  import opened Accounting
  import opened Views
  import opened Commands
  import opened Durability

  /** A command: any event but a resolution or payout, or one call of resolve_round,
      which records the resolution and one payout per winning visible bet. */
  datatype Act =
    | Plain(e: Event)
    | Resolution(z: Operation, paid: seq<Operation>, bets: seq<Bet>)

  ghost predicate Resolves(z: Operation, round: RoundId) {
    z.kind.ResolveRound? && z.kind.round == round
  }

  ghost function RecordAll(w: World, ops: seq<Operation>): World {
    if ops == [] then w else After(RecordAll(w, ops[..|ops| - 1]), Record(ops[|ops| - 1]))
  }

  /** Each payout of the batch can be recorded after the ones before it, and pays its bet. */
  ghost predicate PayableAll(w: World, paid: seq<Operation>, bets: seq<Bet>, round: RoundId, r: ReplicaId)
    decreases |paid|
  {
    && |paid| == |bets|
    && (paid == []
        || var n := |paid| - 1;
           && PayableAll(w, paid[..n], bets[..n], round, r)
           && bets[n] !in bets[..n]
           && Enabled(RecordAll(w, paid[..n]), Record(paid[n]))
           && paid[n].replica == r
           && paid[n].kind == ApplyPayout(PayoutId(round, bets[n].id), bets[n].player, round, bets[n].Prize()))
  }

  ghost predicate MayResolve(w: World, z: Operation) {
    && z.kind.ResolveRound? && 1 <= z.kind.dice <= 6
    && RoundPhase(Replay(LogAt(w, z.replica)), z.kind.round) == Some(BettingClosed)
    && Enabled(w, Record(z))
  }

  ghost predicate Allowed(w: World, a: Act) {
    match a
    case Plain(e) => Enabled(w, e) && (e.Record? ==> !e.op.kind.ResolveRound? && !e.op.kind.ApplyPayout?)
    case Resolution(z, paid, bets) =>
      && MayResolve(w, z)
      && var w' := After(w, Record(z));
      && Elems(bets) == Winners(VisibleBets(Replay(LogAt(w', z.replica))), z.kind.round, z.kind.dice)
      && PayableAll(w', paid, bets, z.kind.round, z.replica)
  }

  ghost function Perform(w: World, a: Act): World {
    match a
    case Plain(e) => After(w, e)
    case Resolution(z, paid, _) => RecordAll(After(w, Record(z)), paid)
  }

  ghost predicate Playable(acts: seq<Act>) {
    acts == [] || (Playable(acts[..|acts| - 1]) && Allowed(Play(acts[..|acts| - 1]), acts[|acts| - 1]))
  }

  ghost function Play(acts: seq<Act>): World {
    if acts == [] then EMPTY_WORLD else Perform(Play(acts[..|acts| - 1]), acts[|acts| - 1])
  }

  // ---- what every play keeps ----

  /** No round is resolved by two replicas. */
  ghost predicate SingleResolvers(ops: set<Operation>) {
    forall y, z :: y in ops && z in ops && y.kind.ResolveRound? && Resolves(z, y.kind.round) ==> y.replica == z.replica
  }

  /** No payout id is issued twice. */
  ghost predicate UniquePayouts(ops: set<Operation>) {
    forall x, y :: x in ops && y in ops && x.kind.ApplyPayout? && Pays(y, x.kind.payout) ==> x == y
  }

  /** Every payout comes after a resolution of its round by the same replica. */
  ghost predicate PayoutsCaused(ops: set<Operation>) {
    forall x :: x in ops && x.kind.ApplyPayout? ==> Caused(ops, x)
  }

  ghost predicate Caused(ops: set<Operation>, x: Operation)
    requires x.kind.ApplyPayout?
  {
    exists z :: z in ops && Resolves(z, x.kind.payout.round) && z.replica == x.replica
  }

  /** The replica that issued this resolution sees the round resolved. */
  ghost predicate SeesResolved(w: World, z: Operation)
    requires z.kind.ResolveRound?
  {
    Rank(Replay(LogAt(w, z.replica)), z.kind.round) == 4
  }

  ghost predicate StaysResolved(w: World) {
    forall z :: z in w.born.Keys && z.kind.ResolveRound? ==> SeesResolved(w, z)
  }

  ghost predicate Steady(w: World) {
    PayoutsCaused(w.born.Keys) && StaysResolved(w)
  }

  // ---- logs only grow, so resolved rounds stay resolved ----

  ghost predicate LogGrows(w: World, w': World, r: ReplicaId) {
    LogAt(w, r) <= LogAt(w', r) && DistinctIds(LogAt(w', r))
  }

  ghost predicate Grows(w: World, w': World, added: set<Operation>) {
    w'.born.Keys == w.born.Keys + added && forall r :: LogGrows(w, w', r)
  }

  lemma LogDistinct(w: World, r: ReplicaId)
    requires Inv(w)
    ensures DistinctIds(LogAt(w, r)) && LogAt(w, r) <= w.born.Keys
  {
    assert CausallyClosed(LogAt(w, r), w.born);
  }

  lemma AfterGrows(w: World, e: Event)
    requires Inv(After(w, e))
    ensures Grows(w, After(w, e), if e.Record? then {e.op} else {})
  {
    LogsDistinct(After(w, e));
    GrowsFrom(w, e);
  }

  lemma LogsDistinct(w: World)
    requires Inv(w)
    ensures forall r :: DistinctIds(LogAt(w, r))
  {
    forall r ensures DistinctIds(LogAt(w, r)) {
      LogDistinct(w, r);
    }
  }

  lemma GrowsFrom(w: World, e: Event)
    requires forall r :: DistinctIds(LogAt(After(w, e), r))
    ensures Grows(w, After(w, e), if e.Record? then {e.op} else {})
  {
    forall r ensures LogGrows(w, After(w, e), r) {
      assert DistinctIds(LogAt(After(w, e), r));
    }
  }

  lemma GrowsTwice(w: World, w': World, w'': World, added: set<Operation>, more: set<Operation>)
    requires Grows(w, w', added) && Grows(w', w'', more)
    ensures Grows(w, w'', added + more)
  {
    forall r ensures LogGrows(w, w'', r) {
      assert LogGrows(w, w', r) && LogGrows(w', w'', r);
    }
  }

  lemma StillResolved(w: World, w': World, z: Operation)
    requires z.kind.ResolveRound? && LogGrows(w, w', z.replica) && SeesResolved(w, z)
    ensures SeesResolved(w', z)
  {
    PhasesMonotone(LogAt(w, z.replica), LogAt(w', z.replica), z.kind.round);
  }

  /** Growth that adds no resolution, or one that its replica sees, keeps the rounds resolved. */
  lemma GrowthStaysResolved(w: World, w': World, added: set<Operation>)
    requires StaysResolved(w) && Grows(w, w', added)
    requires forall z :: z in added && z.kind.ResolveRound? ==> SeesResolved(w', z)
    ensures StaysResolved(w')
  {
    forall z | z in w'.born.Keys && z.kind.ResolveRound? ensures SeesResolved(w', z) {
      if z !in added {
        assert LogGrows(w, w', z.replica);
        StillResolved(w, w', z);
      }
    }
  }

  lemma CausedMore(ops: set<Operation>, added: set<Operation>)
    requires PayoutsCaused(ops)
    requires forall x :: x in added && x.kind.ApplyPayout? ==> Caused(ops, x)
    ensures PayoutsCaused(ops + added)
  {
    forall y | y in ops + added && y.kind.ApplyPayout? ensures Caused(ops + added, y) {
      assert Caused(ops, y);
      var z :| z in ops && Resolves(z, y.kind.payout.round) && z.replica == y.replica;
      assert z in ops + added;
    }
  }

  lemma GrowthIsSteady(w: World, w': World, added: set<Operation>)
    requires Steady(w) && Grows(w, w', added)
    requires forall z :: z in added && z.kind.ResolveRound? ==> SeesResolved(w', z)
    requires forall x :: x in added && x.kind.ApplyPayout? ==> Caused(w.born.Keys, x)
    ensures Steady(w')
  {
    GrowthStaysResolved(w, w', added);
    CausedMore(w.born.Keys, added);
  }

  // ---- resolving ----

  /** A resolution recorded when the round is closed resolves it on its replica. */
  lemma ResolutionSeen(w: World, w': World, z: Operation)
    requires LogAt(w', z.replica) == LogAt(w, z.replica) + {z} && Appends(LogAt(w, z.replica), z)
    requires z.kind.ResolveRound? && 1 <= z.kind.dice <= 6
    requires Rank(Replay(LogAt(w, z.replica)), z.kind.round) == 3
    ensures SeesResolved(w', z)
  {
    ReplayExtend(LogAt(w, z.replica), z);
    RankStep(Replay(LogAt(w, z.replica)), z, z.kind.round);
  }

  lemma RecordedLast(w: World, x: Operation)
    requires Inv(w) && x.id !in Ids(w.born.Keys) && x.time == ClockAt(w, x.replica) + 1
    ensures Appends(LogAt(w, x.replica), x)
  {
    LogDistinct(w, x.replica);
    RecordDistinct(w.born, x);
  }

  lemma ResolutionStarts(w: World, z: Operation)
    requires MayResolve(w, z)
    ensures z.kind.ResolveRound? && 1 <= z.kind.dice <= 6 && Rank(Replay(LogAt(w, z.replica)), z.kind.round) == 3
    ensures z.id !in Ids(w.born.Keys) && z.time == ClockAt(w, z.replica) + 1
  {
  }

  /** Recording the resolution of a closed round resolves it on its replica. */
  lemma ResolutionEffect(w: World, z: Operation)
    requires Inv(w) && z.id !in Ids(w.born.Keys) && z.time == ClockAt(w, z.replica) + 1
    requires z.kind.ResolveRound? && 1 <= z.kind.dice <= 6
    requires Rank(Replay(LogAt(w, z.replica)), z.kind.round) == 3
    ensures SeesResolved(After(w, Record(z)), z)
  {
    RecordedLast(w, z);
    ResolutionSeen(w, After(w, Record(z)), z);
  }

  lemma RecordedIsSteady(w: World, w': World, z: Operation)
    requires Steady(w) && Grows(w, w', {z}) && z.kind.ResolveRound? && SeesResolved(w', z)
    ensures Steady(w') && z in w'.born.Keys
  {
    GrowthIsSteady(w, w', {z});
  }

  lemma ResolutionIsSteady(w: World, z: Operation)
    requires Inv(w) && Steady(w) && MayResolve(w, z)
    ensures Inv(After(w, Record(z))) && Steady(After(w, Record(z)))
    ensures z in After(w, Record(z)).born.Keys
  {
    ResolutionStarts(w, z);
    ResolutionEffect(w, z);
    StepKeepsInv(w, Record(z));
    AfterGrows(w, Record(z));
    RecordedIsSteady(w, After(w, Record(z)), z);
  }

  // ---- the payouts of one resolution ----

  /** The batch pays its bets one by one, none of them twice. */
  ghost predicate PaysEach(paid: seq<Operation>, bets: seq<Bet>, round: RoundId, r: ReplicaId) {
    && |paid| == |bets|
    && forall k :: 0 <= k < |paid| ==>
         paid[k].replica == r && Pays(paid[k], PayoutId(round, bets[k].id)) && bets[k] !in bets[..k]
  }

  lemma PaysOneMore(paid: seq<Operation>, bets: seq<Bet>, round: RoundId, r: ReplicaId)
    requires paid != [] && |paid| == |bets|
    requires PaysEach(paid[..|paid| - 1], bets[..|paid| - 1], round, r)
    requires paid[|paid| - 1].replica == r && Pays(paid[|paid| - 1], PayoutId(round, bets[|paid| - 1].id))
    requires bets[|paid| - 1] !in bets[..|paid| - 1]
    ensures PaysEach(paid, bets, round, r)
  {
    forall k | 0 <= k < |paid| - 1
      ensures paid[k].replica == r && Pays(paid[k], PayoutId(round, bets[k].id)) && bets[k] !in bets[..k]
    {
      assert paid[..|paid| - 1][k] == paid[k] && bets[..|paid| - 1][k] == bets[k];
      assert bets[..|paid| - 1][..k] == bets[..k];
    }
  }

  lemma {:induction false} BatchPays(w: World, paid: seq<Operation>, bets: seq<Bet>, round: RoundId, r: ReplicaId)
    requires PayableAll(w, paid, bets, round, r)
    ensures PaysEach(paid, bets, round, r)
    decreases |paid|
  {
    if paid != [] {
      BatchPays(w, paid[..|paid| - 1], bets[..|paid| - 1], round, r);
      PaysOneMore(paid, bets, round, r);
    }
  }

  lemma EmptyGrows(w: World)
    requires Inv(w)
    ensures Grows(w, w, {})
  {
    forall r ensures LogGrows(w, w, r) {
      LogDistinct(w, r);
    }
  }

  lemma {:induction false} BatchGrows(w: World, paid: seq<Operation>, bets: seq<Bet>, round: RoundId, r: ReplicaId)
    requires Inv(w) && PayableAll(w, paid, bets, round, r)
    ensures Inv(RecordAll(w, paid)) && Grows(w, RecordAll(w, paid), Elems(paid))
    decreases |paid|
  {
    if paid == [] {
      EmptyGrows(w);
      assert Elems(paid) == {};
    } else {
      var init, x := paid[..|paid| - 1], paid[|paid| - 1];
      BatchGrows(w, init, bets[..|paid| - 1], round, r);
      StepKeepsInv(RecordAll(w, init), Record(x));
      AfterGrows(RecordAll(w, init), Record(x));
      GrowsTwice(w, RecordAll(w, init), RecordAll(w, paid), Elems(init), {x});
      ElemsSnoc(paid);
    }
  }

  lemma BatchIsSteady(w: World, z: Operation, paid: seq<Operation>, bets: seq<Bet>, round: RoundId, r: ReplicaId)
    requires Inv(w) && Steady(w) && z in w.born.Keys && Resolves(z, round) && z.replica == r
    requires PayableAll(w, paid, bets, round, r)
    ensures Inv(RecordAll(w, paid)) && Steady(RecordAll(w, paid))
  {
    BatchGrows(w, paid, bets, round, r);
    BatchPays(w, paid, bets, round, r);
    forall x | x in Elems(paid) && x.kind.ApplyPayout? ensures Caused(w.born.Keys, x) {
      var k :| 0 <= k < |paid| && paid[k] == x;
    }
    forall x | x in Elems(paid) ensures x.kind.ApplyPayout? {
      var k :| 0 <= k < |paid| && paid[k] == x;
    }
    GrowthIsSteady(w, RecordAll(w, paid), Elems(paid));
  }

  // ---- every play ----

  /** Any event but a resolution or a payout. */
  lemma PlainIsSteady(w: World, e: Event)
    requires Inv(w) && Steady(w) && Allowed(w, Plain(e))
    ensures Inv(After(w, e)) && Steady(After(w, e))
  {
    StepKeepsInv(w, e);
    AfterGrows(w, e);
    GrowthIsSteady(w, After(w, e), if e.Record? then {e.op} else {});
  }

  lemma ActIsSteady(w: World, a: Act)
    requires Inv(w) && Steady(w) && Allowed(w, a)
    ensures Inv(Perform(w, a)) && Steady(Perform(w, a))
  {
    if a.Plain? {
      PlainIsSteady(w, a.e);
    } else {
      ResolutionIsSteady(w, a.z);
      BatchIsSteady(After(w, Record(a.z)), a.z, a.paid, a.bets, a.z.kind.round, a.z.replica);
    }
  }

  /** In every play, payouts are caused and resolved rounds stay resolved. */
  lemma {:induction false} PlayIsSteady(acts: seq<Act>)
    requires Playable(acts)
    ensures Inv(Play(acts)) && Steady(Play(acts))
    decreases |acts|
  {
    if acts != [] {
      PlayIsSteady(acts[..|acts| - 1]);
      ActIsSteady(Play(acts[..|acts| - 1]), acts[|acts| - 1]);
    }
  }

  /** In every play, while the only replica that resolves a round may still do so, no
      payout of that round exists anywhere. */
  lemma {:induction false} NoPayoutsYet(acts: seq<Act>, z: Operation, x: Operation)
    requires Playable(acts) && MayResolve(Play(acts), z) && SingleResolvers(Play(acts).born.Keys + {z})
    requires x in Play(acts).born.Keys && x.kind.ApplyPayout?
    ensures x.kind.payout.round != z.kind.round
  {
    PlayIsSteady(acts);
    ResolutionStarts(Play(acts), z);
    ResolvedBefore(Play(acts), z, x);
  }

  lemma ResolvedBefore(w: World, z: Operation, x: Operation)
    requires Steady(w) && SingleResolvers(w.born.Keys + {z})
    requires z.kind.ResolveRound? && Rank(Replay(LogAt(w, z.replica)), z.kind.round) == 3
    requires x in w.born.Keys && x.kind.ApplyPayout?
    ensures x.kind.payout.round != z.kind.round
  {
    assert Caused(w.born.Keys, x);
    var y :| y in w.born.Keys && Resolves(y, x.kind.payout.round) && y.replica == x.replica;
    assert SeesResolved(w, y);
  }

  // ---- durable acceptance ----

  /** With one resolver per round, one replica issues all payouts of a round. */
  lemma ResolversAreSoleIssuers(ops: set<Operation>, p: PlayerId)
    requires PayoutsCaused(ops) && SingleResolvers(ops)
    ensures SoleIssuers(ops, p)
  {
    forall x, y | x in ops && y in ops && IsPayout(x, p) && Pays(y, x.kind.payout) ensures y.replica == x.replica {
      assert Caused(ops, x) && Caused(ops, y);
    }
  }

  /** If each round is resolved by one replica only and oversized income is known, no
      causally closed log rejects a bet or transfer of p if and only if the leaves of p are
      outlived; and then no replica's log does. */
  lemma {:induction false} OneResolverIsDurable(acts: seq<Act>, p: PlayerId)
    requires Playable(acts) && SingleResolvers(Play(acts).born.Keys)
    requires KnownIncome(Play(acts).born, Play(acts).born.Keys, p)
    ensures var born := Play(acts).born;
            (forall log :: CausallyClosed(log, born) ==> AllAccepted(log, p)) <==> LeavesOutlived(born, born.Keys, p)
    ensures LeavesOutlived(Play(acts).born, Play(acts).born.Keys, p) ==>
              forall r :: AllAccepted(LogAt(Play(acts), r), p)
  {
    var w := Play(acts);
    PlayIsSteady(acts);
    ResolversAreSoleIssuers(w.born.Keys, p);
    SoleIssuersKnow(w.born, p);
    InvIsDurable(w, p);
  }

  // ---- no payout id is issued twice ----

  lemma UniqueMore(ops: set<Operation>, added: set<Operation>)
    requires UniquePayouts(ops) && forall x :: x in added ==> !x.kind.ApplyPayout?
    ensures UniquePayouts(ops + added)
  {
  }

  /** Payouts of one round, no two with the same payout id. */
  ghost predicate PaysApart(paid: seq<Operation>, round: RoundId) {
    && (forall k :: 0 <= k < |paid| ==> paid[k].kind.ApplyPayout? && paid[k].kind.payout.round == round)
    && (forall j, k :: 0 <= j < k < |paid| ==> paid[j].kind.payout != paid[k].kind.payout)
  }

  lemma EachIsApart(paid: seq<Operation>, bets: seq<Bet>, round: RoundId, r: ReplicaId)
    requires PaysEach(paid, bets, round, r) && DistinctBetIds(Elems(bets))
    ensures PaysApart(paid, round)
  {
    forall j, k | 0 <= j < k < |paid| ensures bets[j].id != bets[k].id {
      assert bets[j] in bets[..k];
      assert bets[j] in Elems(bets) && bets[k] in Elems(bets);
    }
  }

  lemma UniqueWithBatch(ops: set<Operation>, paid: seq<Operation>, round: RoundId)
    requires UniquePayouts(ops) && PaysApart(paid, round)
    requires forall x :: x in ops && x.kind.ApplyPayout? ==> x.kind.payout.round != round
    ensures UniquePayouts(ops + Elems(paid))
  {
    forall x, y | x in ops + Elems(paid) && y in ops + Elems(paid) && x.kind.ApplyPayout? && Pays(y, x.kind.payout)
      ensures x == y
    {
      if x in Elems(paid) && y in Elems(paid) {
        var j :| 0 <= j < |paid| && paid[j] == x;
        var k :| 0 <= k < |paid| && paid[k] == y;
        assert j == k;
      }
    }
  }

  /** With bet ids used once, the winners among the visible bets have distinct ids. */
  lemma WinnersDistinct(w: World, r: ReplicaId, round: RoundId, dice: nat, all: set<Operation>)
    requires Inv(w) && w.born.Keys <= all && DistinctBets(all)
    ensures DistinctBetIds(Winners(VisibleBets(Replay(LogAt(w, r))), round, dice))
  {
    LogDistinct(w, r);
    VisibleBetsAreAccepted(LogAt(w, r));
  }

  lemma SingleResolversWithin(small: set<Operation>, large: set<Operation>)
    requires small <= large && SingleResolvers(large)
    ensures SingleResolvers(small)
  {
  }

  lemma {:induction false} HistoryOfBatch(w: World, ops: seq<Operation>)
    ensures RecordAll(w, ops).born.Keys == w.born.Keys + Elems(ops)
    decreases |ops|
  {
    if ops == [] {
      assert Elems(ops) == {};
    } else {
      HistoryOfBatch(w, ops[..|ops| - 1]);
      ElemsSnoc(ops);
    }
  }

  lemma ActGrows(w: World, a: Act)
    ensures w.born.Keys <= Perform(w, a).born.Keys
    ensures a.Resolution? ==> Perform(w, a).born.Keys == w.born.Keys + {a.z} + Elems(a.paid)
    ensures a.Plain? ==> Perform(w, a).born.Keys == w.born.Keys + if a.e.Record? then {a.e.op} else {}
  {
    if a.Resolution? {
      HistoryOfBatch(After(w, Record(a.z)), a.paid);
    }
  }

  lemma ResolutionIsUnique(acts: seq<Act>, z: Operation, paid: seq<Operation>, bets: seq<Bet>, all: set<Operation>)
    requires Playable(acts) && Allowed(Play(acts), Resolution(z, paid, bets))
    requires UniquePayouts(Play(acts).born.Keys)
    requires Play(acts).born.Keys + {z} <= all && SingleResolvers(all) && DistinctBets(all)
    ensures UniquePayouts(Play(acts).born.Keys + {z} + Elems(paid))
  {
    var w := Play(acts);
    NonePaidYet(acts, z, all);
    BatchIsApart(acts, z, paid, bets, all);
    UniqueMore(w.born.Keys, {z});
    UniqueWithBatch(w.born.Keys + {z}, paid, z.kind.round);
  }

  lemma NonePaidYet(acts: seq<Act>, z: Operation, all: set<Operation>)
    requires Playable(acts) && MayResolve(Play(acts), z)
    requires Play(acts).born.Keys + {z} <= all && SingleResolvers(all)
    ensures forall x :: x in Play(acts).born.Keys + {z} && x.kind.ApplyPayout? ==>
              x.kind.payout.round != z.kind.round
  {
    SingleResolversWithin(Play(acts).born.Keys + {z}, all);
    forall x | x in Play(acts).born.Keys + {z} && x.kind.ApplyPayout?
      ensures x.kind.payout.round != z.kind.round
    {
      NoPayoutsYet(acts, z, x);
    }
  }

  lemma BatchIsApart(acts: seq<Act>, z: Operation, paid: seq<Operation>, bets: seq<Bet>, all: set<Operation>)
    requires Playable(acts) && Allowed(Play(acts), Resolution(z, paid, bets))
    requires Play(acts).born.Keys + {z} <= all && DistinctBets(all)
    ensures PaysApart(paid, z.kind.round)
  {
    var w := Play(acts);
    PlayIsSteady(acts);
    ResolutionIsSteady(w, z);
    WinnersDistinct(After(w, Record(z)), z.replica, z.kind.round, z.kind.dice, all);
    BatchPays(After(w, Record(z)), paid, bets, z.kind.round, z.replica);
    EachIsApart(paid, bets, z.kind.round, z.replica);
  }

  lemma {:induction false} UniquePlay(acts: seq<Act>, all: set<Operation>)
    requires Playable(acts) && Play(acts).born.Keys <= all
    requires SingleResolvers(all) && DistinctBets(all)
    ensures UniquePayouts(Play(acts).born.Keys)
    decreases |acts|
  {
    if acts != [] {
      var init, a := acts[..|acts| - 1], acts[|acts| - 1];
      ActGrows(Play(init), a);
      UniquePlay(init, all);
      if a.Plain? {
        UniqueMore(Play(init).born.Keys, if a.e.Record? then {a.e.op} else {});
      } else {
        ResolutionIsUnique(init, a.z, a.paid, a.bets, all);
      }
    }
  }

  /** If each round is resolved by one replica only and bet ids are used once, no payout
      id is ever issued twice. */
  lemma {:induction false} PayoutsIssuedOnce(acts: seq<Act>)
    requires Playable(acts)
    requires SingleResolvers(Play(acts).born.Keys) && DistinctBets(Play(acts).born.Keys)
    ensures UniquePayouts(Play(acts).born.Keys)
  {
    UniquePlay(acts, Play(acts).born.Keys);
  }
}
