/** What the client's guarded commands achieve when their operation is recorded last
    in the log: exact changes of rights and balances, for every player and replica. */
module Commands {
  import opened Operations
  import opened MapSums
  import opened Counters
  import opened Merges
  import opened BetState
  import opened Replays
  import opened Accounting
  import opened Ledgers
  import opened Views
  import opened Rules

  lemma BalanceIsValue(s: State, p: PlayerId)
    ensures PlayerBalance(s, p) == Value(BalanceOf(s, p))
  {
  }

  /** Only p's balance changes, by `paid`, and only the rights the program reports for p
      on replica r, by `granted`: the amount and what it is cast to. */
  ghost predicate Changes(s: State, t: State, p: PlayerId, r: ReplicaId, paid: int, granted: int) {
    && (forall q :: PlayerBalance(t, q) == PlayerBalance(s, q) + if q == p then paid else 0)
    && (forall q, i :: AvailableRights(t, q, i) == AvailableRights(s, q, i) + if q == p && i == r then granted else 0)
  }

  lemma ChangesFrom(s: State, t: State, p: PlayerId, r: ReplicaId, paid: int, granted: int)
    requires Value(BalanceOf(t, p)) == Value(BalanceOf(s, p)) + paid
    requires forall i :: Available(CounterOf(t, p), i) == Available(CounterOf(s, p), i) + if i == r then granted else 0
    requires forall q :: q != p ==> BalanceOf(t, q) == BalanceOf(s, q) && CounterOf(t, q) == CounterOf(s, q)
    ensures Changes(s, t, p, r, paid, granted)
  {
    forall q ensures PlayerBalance(t, q) == PlayerBalance(s, q) + if q == p then paid else 0 {
      BalanceIsValue(s, q);
      BalanceIsValue(t, q);
    }
    forall q, i
      ensures AvailableRights(t, q, i) == AvailableRights(s, q, i) + if q == p && i == r then granted else 0
    {
      RightsOfCounter(s, q, i);
      RightsOfCounter(t, q, i);
    }
  }

  // ---- place_bet ----

  lemma {:induction false} BetAccepted(ops: set<Operation>, x: Operation)
    requires Appends(ops, x) && x.kind.PlaceBet? && x.kind.originPhase == BettingOpen
    requires MayBet(Replay(ops), x.replica, x.kind.player, x.kind.round, x.kind.amount)
    ensures Accepts(Replay(ops), x)
    ensures x.id !in CounterOf(Replay(ops), x.kind.player).spends
    ensures AsI64(x.kind.amount) <= Available(CounterOf(Replay(ops), x.kind.player), x.replica)
  {
    RightsOfCounter(Replay(ops), x.kind.player, x.replica);
    ReplayAccounted(ops, x.kind.player);
    IdsAreNew(Replay(ops), ops, x, x.kind.player);
  }

  /** A bet that passes the checks is accepted at once, is visible, and lowers its player's
      balance by exactly the stake and the rights its own replica reports by its cast. */
  lemma BetPlaced(ops: set<Operation>, x: Operation)
    requires Appends(ops, x) && x.kind.PlaceBet? && x.kind.originPhase == BettingOpen
    requires MayBet(Replay(ops), x.replica, x.kind.player, x.kind.round, x.kind.amount)
    ensures x.id !in Replay(ops + {x}).rejected
    ensures BetOf(x) in VisibleBets(Replay(ops + {x}))
    ensures Changes(Replay(ops), Replay(ops + {x}), x.kind.player, x.replica, 0 - x.kind.amount,
                    0 - AsI64(x.kind.amount))
  {
    BetAccepted(ops, x);
    StepVerdict(ops, x);
    VisibleBetsAreAccepted(ops + {x});
    assert x in ops + {x};
    BetChanges(Replay(ops), x);
    ReplayExtend(ops, x);
  }

  /** What an accepted operation leaves of each counter and balance. */
  lemma AcceptedEffect(s: State, x: Operation, q: PlayerId)
    requires Accepts(s, x)
    ensures CounterOf(Step(s, x), q) == CounterAfter(s, x, true, q)
    ensures BalanceOf(Step(s, x), q) == BalanceAfter(s, x, true, q)
  {
    ApplyEffect(s, x, Funded(s, x), q);
  }

  lemma BetChanges(s: State, x: Operation)
    requires x.kind.PlaceBet? && Accepts(s, x)
    requires x.id !in CounterOf(s, x.kind.player).spends
    requires AsI64(x.kind.amount) <= Available(CounterOf(s, x.kind.player), x.replica)
    ensures Changes(s, Step(s, x), x.kind.player, x.replica, 0 - x.kind.amount, 0 - AsI64(x.kind.amount))
  {
    forall q
      ensures CounterOf(Step(s, x), q) == CounterAfter(s, x, true, q)
      ensures BalanceOf(Step(s, x), q) == BalanceAfter(s, x, true, q)
    {
      AcceptedEffect(s, x, q);
    }
    ChargedChanges(s, Step(s, x), x);
  }

  lemma ChargedChanges(s: State, t: State, x: Operation)
    requires x.kind.PlaceBet?
    requires x.id !in CounterOf(s, x.kind.player).spends
    requires AsI64(x.kind.amount) <= Available(CounterOf(s, x.kind.player), x.replica)
    requires forall q :: CounterOf(t, q) == CounterAfter(s, x, true, q)
                         && BalanceOf(t, q) == BalanceAfter(s, x, true, q)
    ensures Changes(s, t, x.kind.player, x.replica, 0 - x.kind.amount, 0 - AsI64(x.kind.amount))
  {
    var p := x.kind.player;
    DecrementSum(BalanceOf(s, p), x.replica, x.kind.amount);
    ChargedRights(CounterOf(s, p), CounterOf(t, p), x);
    ChangesFrom(s, t, p, x.replica, 0 - x.kind.amount, 0 - AsI64(x.kind.amount));
  }

  lemma ChargedRights(c: Counter, d: Counter, x: Operation)
    requires x.kind.PlaceBet? && x.id !in c.spends && AsI64(x.kind.amount) <= Available(c, x.replica)
    requires d == RecordSpend(c, x.id, x.replica, x.kind.amount)
    ensures forall i :: Available(d, i) == Available(c, i) + if i == x.replica then 0 - AsI64(x.kind.amount) else 0
  {
    forall i
      ensures Available(d, i) == Available(c, i) + if i == x.replica then 0 - AsI64(x.kind.amount) else 0
    {
      SpendDebits(c, x.id, x.replica, x.kind.amount, i);
    }
  }

  // ---- joining and leaving ----

  /** The player is seated and has the chips; nobody else gained or lost anything. */
  ghost predicate Joined(s: State, t: State, p: PlayerId, chips: nat) {
    && (forall q :: Contains(t.players, q) <==> q == p || Contains(s.players, q))
    && forall q :: PlayerBalance(t, q) == PlayerBalance(s, q) + if q == p then chips else 0
  }

  lemma JoinSeats(ops: set<Operation>, x: Operation)
    requires Appends(ops, x) && x.kind.JoinTable?
    ensures Joined(Replay(ops), Replay(ops + {x}), x.kind.player, x.kind.chips)
  {
    var s, t := Replay(ops), Replay(ops + {x});
    ReplayExtend(ops, x);
    assert DistinctIds(ops) && x in ops + {x};
    forall q ensures Contains(t.players, q) <==> q == x.kind.player || Contains(s.players, q) {
      PlayerVisible(ops, q);
      PlayerVisible(ops + {x}, q);
      JoinedSeats(ops, x, q);
    }
    forall q ensures PlayerBalance(t, q) == PlayerBalance(s, q) + if q == x.kind.player then x.kind.chips else 0 {
      BalanceIsValue(s, q);
      BalanceIsValue(t, q);
      AcceptedEffect(s, x, q);
      IncrementSum(BalanceOf(s, q), x.replica, x.kind.chips);
    }
  }

  lemma JoinedSeats(ops: set<Operation>, x: Operation, q: PlayerId)
    requires Appends(ops, x) && x.kind.JoinTable?
    ensures Seated(ops + {x}, q) <==> q == x.kind.player || Seated(ops, q)
  {
    var more := ops + {x};
    assert x in more;
    if q == x.kind.player {
      assert IsJoin(x, q) && forall l :: l in more && IsLeave(l, q) ==> !Before(x, l);
    } else if Seated(ops, q) {
      var j :| j in ops && IsJoin(j, q) && forall l :: l in ops && IsLeave(l, q) ==> !Before(j, l);
      assert j in more;
    }
  }

  lemma LeaveUnseats(ops: set<Operation>, x: Operation)
    requires Appends(ops, x) && x.kind.LeaveTable?
    ensures forall q :: Contains(Replay(ops + {x}).players, q)
                   <==> q != x.kind.player && Contains(Replay(ops).players, q)
  {
    assert DistinctIds(ops);
    forall q
      ensures Contains(Replay(ops + {x}).players, q) <==> q != x.kind.player && Contains(Replay(ops).players, q)
    {
      PlayerVisible(ops, q);
      PlayerVisible(ops + {x}, q);
      LeftSeats(ops, x, q);
    }
  }

  lemma LeftSeats(ops: set<Operation>, x: Operation, q: PlayerId)
    requires Appends(ops, x) && x.kind.LeaveTable?
    ensures Seated(ops + {x}, q) <==> q != x.kind.player && Seated(ops, q)
  {
    var more := ops + {x};
    assert x in more;
    if q != x.kind.player && Seated(ops, q) {
      var j :| j in ops && IsJoin(j, q) && forall l :: l in ops && IsLeave(l, q) ==> !Before(j, l);
      assert j in more;
    }
    if q == x.kind.player {
      assert IsLeave(x, q) && forall j :: j in more && IsJoin(j, q) ==> Before(j, x);
    }
  }

  // ---- start_round ----

  /** A new or merely created round is open for bets; one that is further along stays there. */
  ghost predicate Started(s: State, t: State, round: RoundId) {
    var phase := RoundPhase(s, round);
    RoundPhase(t, round) == if phase == None || phase == Some(Created) then Some(BettingOpen) else phase
  }

  lemma RoundStarted(s: State, m: State, t: State, create: Operation, open: Operation, round: RoundId)
    requires create.kind.CreateRound? && create.kind.round == round && open.kind == OpenBetting(round)
    requires Advances(s, create, m, round) && Advances(m, open, t, round)
    ensures Started(s, t, round)
  {
  }

  // ---- transfer_spending_rights ----

  lemma {:induction false} TransferAccepted(ops: set<Operation>, x: Operation)
    requires Appends(ops, x) && x.kind.TransferRights?
    requires AsI64(x.kind.amount) <= AvailableRights(Replay(ops), x.kind.player, x.kind.from)
    ensures Accepts(Replay(ops), x)
    ensures x.id !in CounterOf(Replay(ops), x.kind.player).transfers
    ensures AsI64(x.kind.amount) <= Available(CounterOf(Replay(ops), x.kind.player), x.kind.from)
  {
    RightsOfCounter(Replay(ops), x.kind.player, x.kind.from);
    ReplayAccounted(ops, x.kind.player);
    IdsAreNew(Replay(ops), ops, x, x.kind.player);
  }

  /** Rights of p move between two replicas, and nothing else. */
  ghost predicate Moved(s: State, t: State, p: PlayerId, from: ReplicaId, to: ReplicaId, amount: int) {
    && (forall q :: PlayerBalance(t, q) == PlayerBalance(s, q))
    && (forall q, i :: AvailableRights(t, q, i)
                    == AvailableRights(s, q, i) - (if q == p && i == from then amount else 0)
                       + (if q == p && i == to then amount else 0))
  }

  /** A transfer that passes the check is accepted at once and moves exactly what its
      amount is cast to, which for 2^63 and more raises what the sender reports and
      lowers what the receiver does. */
  lemma {:induction false} RightsTransferred(ops: set<Operation>, x: Operation)
    requires Appends(ops, x) && x.kind.TransferRights?
    requires AsI64(x.kind.amount) <= AvailableRights(Replay(ops), x.kind.player, x.kind.from)
    ensures x.id !in Replay(ops + {x}).rejected
    ensures Moved(Replay(ops), Replay(ops + {x}), x.kind.player, x.kind.from, x.kind.to, AsI64(x.kind.amount))
  {
    var s, t, funded := Replay(ops), Replay(ops + {x}), Funded(Replay(ops), x);
    TransferAccepted(ops, x);
    StepVerdict(ops, x);
    ReplayExtend(ops, x);
    forall q ensures PlayerBalance(t, q) == PlayerBalance(s, q) {
      ApplyEffect(s, x, funded, q);
      BalanceIsValue(s, q);
      BalanceIsValue(t, q);
    }
    forall q, i
      ensures AvailableRights(t, q, i)
           == AvailableRights(s, q, i) - (if q == x.kind.player && i == x.kind.from then AsI64(x.kind.amount) else 0)
              + (if q == x.kind.player && i == x.kind.to then AsI64(x.kind.amount) else 0)
    {
      TransferChanges(ops, x, q, i);
      RightsOfCounter(s, q, i);
      RightsOfCounter(t, q, i);
    }
  }

  lemma TransferChanges(ops: set<Operation>, x: Operation, q: PlayerId, i: ReplicaId)
    requires Appends(ops, x) && x.kind.TransferRights?
    requires AsI64(x.kind.amount) <= AvailableRights(Replay(ops), x.kind.player, x.kind.from)
    ensures Available(CounterOf(Replay(ops + {x}), q), i)
         == Available(CounterOf(Replay(ops), q), i)
            - (if q == x.kind.player && i == x.kind.from then AsI64(x.kind.amount) else 0)
            + (if q == x.kind.player && i == x.kind.to then AsI64(x.kind.amount) else 0)
  {
    TransferAccepted(ops, x);
    ReplayExtend(ops, x);
    AcceptedEffect(Replay(ops), x, q);
    if q == x.kind.player {
      TransferredCounter(CounterOf(Replay(ops), q), x, i);
    }
  }

  lemma TransferredCounter(c: Counter, x: Operation, i: ReplicaId)
    requires x.kind.TransferRights? && x.id !in c.transfers && AsI64(x.kind.amount) <= Available(c, x.kind.from)
    ensures Available(RecordTransfer(c, x.id, x.kind.from, x.kind.to, x.kind.amount), i)
         == Available(c, i) - (if i == x.kind.from then AsI64(x.kind.amount) else 0)
            + if i == x.kind.to then AsI64(x.kind.amount) else 0
  {
    TransferMoves(c, x.id, x.kind.from, x.kind.to, x.kind.amount, i);
  }

  // ---- resolve_round ----

  lemma RoundResolved(s: State, x: Operation)
    requires x.kind.ResolveRound? && Accepts(s, x)
    ensures Step(s, x).roundViews == s.roundViews[x.kind.round := ResolvedWith(s.roundViews[x.kind.round], x.kind.dice)]
    ensures Step(s, x).bets == s.bets && Step(s, x).payouts == s.payouts
    ensures Changes(s, Step(s, x), 0, 0, 0, 0)
  {
    forall q ensures BalanceOf(Step(s, x), q) == BalanceOf(s, q) && CounterOf(Step(s, x), q) == CounterOf(s, q) {
      ApplyEffect(s, x, true, q);
    }
    ChangesFrom(s, Step(s, x), 0, 0, 0, 0);
  }

  /** One payout: its amount to its player and its own replica, unless already applied. */
  lemma {:induction false} PayoutPaid(ops: set<Operation>, x: Operation)
    requires Appends(ops, x) && x.kind.ApplyPayout?
    ensures var s, t := Replay(ops), Replay(ops + {x});
            && t.payouts == s.payouts + {x.kind.payout}
            && t.roundViews == s.roundViews
            && Changes(s, t, x.kind.player, x.replica, if x.kind.payout in s.payouts then 0 else x.kind.amount,
                       if x.kind.payout in s.payouts then 0 else AsI64(x.kind.amount))
  {
    var s, p := Replay(ops), x.kind.player;
    ReplayExtend(ops, x);
    ApplyEffect(s, x, true, p);
    assert x.kind.payout !in s.payouts ==> x.kind.payout !in CounterOf(s, p).grants by {
      ReplayAccounted(ops, p);
      IdsAreNew(s, ops, x, p);
    }
    PayoutChanges(s, x);
  }

  lemma PayoutChanges(s: State, x: Operation)
    requires x.kind.ApplyPayout?
    requires x.kind.payout !in s.payouts ==> x.kind.payout !in CounterOf(s, x.kind.player).grants
    ensures Changes(s, Step(s, x), x.kind.player, x.replica, if x.kind.payout in s.payouts then 0 else x.kind.amount,
                    if x.kind.payout in s.payouts then 0 else AsI64(x.kind.amount))
  {
    var isNew := x.kind.payout !in s.payouts;
    forall q
      ensures CounterOf(Step(s, x), q) == CounterAfter(s, x, isNew, q)
      ensures BalanceOf(Step(s, x), q) == BalanceAfter(s, x, isNew, q)
    {
      ApplyEffect(s, x, true, q);
    }
    CreditedChanges(s, Step(s, x), x, isNew);
  }

  lemma CreditedChanges(s: State, t: State, x: Operation, accepted: bool)
    requires x.kind.ApplyPayout? && (accepted ==> x.kind.payout !in CounterOf(s, x.kind.player).grants)
    requires forall q :: CounterOf(t, q) == CounterAfter(s, x, accepted, q)
    requires forall q :: BalanceOf(t, q) == BalanceAfter(s, x, accepted, q)
    ensures Changes(s, t, x.kind.player, x.replica, if accepted then x.kind.amount else 0,
                    if accepted then AsI64(x.kind.amount) else 0)
  {
    var p, paid, granted := x.kind.player, if accepted then x.kind.amount else 0,
        if accepted then AsI64(x.kind.amount) else 0;
    IncrementSum(BalanceOf(s, p), x.replica, x.kind.amount);
    forall i
      ensures Available(CounterOf(t, p), i) == Available(CounterOf(s, p), i) + if i == x.replica then granted else 0
    {
      if accepted {
        GrantCredits(CounterOf(s, p), x.kind.payout, x.replica, x.kind.amount, i);
      }
    }
    ChangesFrom(s, t, p, x.replica, paid, granted);
  }

  function Prize(b: Bet): int {
    b.Prize()
  }

  function CastPrize(b: Bet): int {
    AsI64(b.Prize())
  }

  /** What the winning bets of a round are still owed, for one player: their prizes, or
      what the prizes are cast to. */
  ghost function Owed(bets: set<Bet>, paid: set<PayoutId>, round: RoundId, p: PlayerId, worth: Bet -> int)
    : map<Bet, int>
  {
    map b | b in bets && b.player == p && PayoutId(round, b.id) !in paid :: worth(b)
  }

  ghost predicate DistinctBetIds(bets: set<Bet>) {
    forall b, c :: b in bets && c in bets && b.id == c.id ==> b == c
  }

  function Winners(bets: set<Bet>, round: RoundId, dice: nat): set<Bet> {
    set b | b in bets && b.round == round && b.kind.Wins(dice)
  }

  /** Every player's balance rose by exactly the prizes the given bets were owed, and the
      rights reported for that player on replica r alone by what those are cast to. */
  ghost predicate Prizes(s: State, t: State, done: set<Bet>, round: RoundId, r: ReplicaId) {
    && (forall p :: PlayerBalance(t, p) == PlayerBalance(s, p) + Sum(Owed(done, s.payouts, round, p, Prize)))
    && (forall p, i :: AvailableRights(t, p, i)
                    == AvailableRights(s, p, i)
                       + if i == r then Sum(Owed(done, s.payouts, round, p, CastPrize)) else 0)
  }

  /** After paying `done` from the state s. */
  ghost predicate PaidOut(s: State, t: State, done: set<Bet>, round: RoundId, r: ReplicaId) {
    && t.payouts == s.payouts + (set b | b in done :: PayoutId(round, b.id))
    && t.roundViews == s.roundViews
    && Prizes(s, t, done, round, r)
  }

  /** Resolving changes no ledger, so the prizes count from before the resolution. */
  lemma PrizesSinceResolution(s: State, resolved: State, t: State, done: set<Bet>, round: RoundId, r: ReplicaId)
    requires Changes(s, resolved, 0, 0, 0, 0) && resolved.payouts == s.payouts
    requires Prizes(resolved, t, done, round, r)
    ensures Prizes(s, t, done, round, r)
  {
  }

  lemma OwedNothing(s: State, round: RoundId, r: ReplicaId)
    ensures PaidOut(s, s, {}, round, r)
  {
    forall p
      ensures Sum(Owed({}, s.payouts, round, p, Prize)) == 0 && Sum(Owed({}, s.payouts, round, p, CastPrize)) == 0
    {
      assert Owed({}, s.payouts, round, p, Prize) == map[];
      assert Owed({}, s.payouts, round, p, CastPrize) == map[];
    }
    assert (set b: Bet | b in {} :: PayoutId(round, b.id)) == {};
  }

  lemma OwedStep(done: set<Bet>, b: Bet, paid: set<PayoutId>, round: RoundId, p: PlayerId, worth: Bet -> int)
    requires b !in done
    ensures Sum(Owed(done + {b}, paid, round, p, worth))
         == Sum(Owed(done, paid, round, p, worth))
            + if b.player == p && PayoutId(round, b.id) !in paid then worth(b) else 0
  {
    if b.player == p && PayoutId(round, b.id) !in paid {
      assert Owed(done + {b}, paid, round, p, worth) == Owed(done, paid, round, p, worth)[b := worth(b)];
      SumPut(Owed(done, paid, round, p, worth), b, worth(b));
    } else {
      assert Owed(done + {b}, paid, round, p, worth) == Owed(done, paid, round, p, worth);
    }
  }

  lemma PaidOutStep(s: State, t: State, u: State, done: set<Bet>, b: Bet, round: RoundId, r: ReplicaId)
    requires PaidOut(s, t, done, round, r)
    requires b !in done && DistinctBetIds(done + {b})
    requires u.payouts == t.payouts + {PayoutId(round, b.id)} && u.roundViews == t.roundViews
    requires Changes(t, u, b.player, r, if PayoutId(round, b.id) in t.payouts then 0 else Prize(b),
                     if PayoutId(round, b.id) in t.payouts then 0 else CastPrize(b))
    ensures PaidOut(s, u, done + {b}, round, r)
  {
    PaidIds(s, t, done, b, round);
    PrizesStep(s, t, u, done, b, round, r);
  }

  lemma PrizesStep(s: State, t: State, u: State, done: set<Bet>, b: Bet, round: RoundId, r: ReplicaId)
    requires Prizes(s, t, done, round, r) && b !in done
    requires Changes(t, u, b.player, r, if PayoutId(round, b.id) in s.payouts then 0 else Prize(b),
                     if PayoutId(round, b.id) in s.payouts then 0 else CastPrize(b))
    ensures Prizes(s, u, done + {b}, round, r)
  {
    forall p
      ensures Sum(Owed(done + {b}, s.payouts, round, p, Prize))
           == Sum(Owed(done, s.payouts, round, p, Prize))
              + if b.player == p && PayoutId(round, b.id) !in s.payouts then Prize(b) else 0
      ensures Sum(Owed(done + {b}, s.payouts, round, p, CastPrize))
           == Sum(Owed(done, s.payouts, round, p, CastPrize))
              + if b.player == p && PayoutId(round, b.id) !in s.payouts then CastPrize(b) else 0
    {
      OwedStep(done, b, s.payouts, round, p, Prize);
      OwedStep(done, b, s.payouts, round, p, CastPrize);
    }
  }

  lemma PaidIds(s: State, t: State, done: set<Bet>, b: Bet, round: RoundId)
    requires t.payouts == s.payouts + (set c | c in done :: PayoutId(round, c.id))
    requires b !in done && DistinctBetIds(done + {b})
    ensures PayoutId(round, b.id) in t.payouts <==> PayoutId(round, b.id) in s.payouts
    ensures t.payouts + {PayoutId(round, b.id)} == s.payouts + (set c | c in done + {b} :: PayoutId(round, c.id))
  {
    forall c | c in done ensures c.id != b.id {
      assert c in done + {b} && b in done + {b};
    }
  }

  /** A run of payouts, one per bet, each sorting after everything before it. */
  ghost predicate PaysInOrder(ops: set<Operation>, paid: seq<Operation>, bets: seq<Bet>, round: RoundId, r: ReplicaId)
    decreases |paid|
  {
    && |paid| == |bets|
    && (paid == []
        || var n := |paid| - 1;
           && PaysInOrder(ops, paid[..n], bets[..n], round, r)
           && bets[n] !in bets[..n]
           && Appends(ops + Elems(paid[..n]), paid[n])
           && PaysBet(paid[n], bets[n], round, r))
  }

  predicate PaysBet(y: Operation, b: Bet, round: RoundId, r: ReplicaId) {
    y.replica == r && y.kind == ApplyPayout(PayoutId(round, b.id), b.player, round, b.Prize())
  }

  lemma PaysOneMore(ops: set<Operation>, paid: seq<Operation>, bets: seq<Bet>, round: RoundId, r: ReplicaId,
                    b: Bet, x: Operation)
    requires PaysInOrder(ops, paid, bets, round, r) && b !in bets
    requires Appends(ops + Elems(paid), x) && PaysBet(x, b, round, r)
    ensures PaysInOrder(ops, paid + [x], bets + [b], round, r)
  {
    assert (paid + [x])[..|paid|] == paid && (bets + [b])[..|bets|] == bets;
  }

  lemma ElemsSnoc<T(!new)>(s: seq<T>)
    requires s != []
    ensures Elems(s) == Elems(s[..|s| - 1]) + {s[|s| - 1]}
  {
    assert s == s[..|s| - 1] + [s[|s| - 1]];
  }

  /** Whatever the order, a run of payouts pays exactly what its bets were owed. */
  lemma {:induction false} PaidInOrder(ops: set<Operation>, paid: seq<Operation>, bets: seq<Bet>,
                                       round: RoundId, r: ReplicaId)
    requires PaysInOrder(ops, paid, bets, round, r) && DistinctBetIds(Elems(bets))
    ensures PaidOut(Replay(ops), Replay(ops + Elems(paid)), Elems(bets), round, r)
    decreases |paid|
  {
    if paid == [] {
      assert Elems(bets) == {} && ops + Elems(paid) == ops;
      OwedNothing(Replay(ops), round, r);
    } else {
      var n := |paid| - 1;
      ElemsSnoc(paid);
      ElemsSnoc(bets);
      PaidInOrder(ops, paid[..n], bets[..n], round, r);
      var log := ops + Elems(paid[..n]);
      PayoutPaid(log, paid[n]);
      assert log + {paid[n]} == ops + Elems(paid);
      PaidOutStep(Replay(ops), Replay(log), Replay(log + {paid[n]}), Elems(bets[..n]), bets[n], round, r);
    }
  }

  /** Payouts of any kind leave the rounds as they are. */
  lemma {:induction false} PayingKeepsRounds(ops: set<Operation>, paid: seq<Operation>, bets: seq<Bet>,
                                             round: RoundId, r: ReplicaId)
    requires PaysInOrder(ops, paid, bets, round, r)
    ensures Replay(ops + Elems(paid)).roundViews == Replay(ops).roundViews
    decreases |paid|
  {
    if paid == [] {
      assert ops + Elems(paid) == ops;
    } else {
      var n := |paid| - 1;
      ElemsSnoc(paid);
      PayingKeepsRounds(ops, paid[..n], bets[..n], round, r);
      PayoutPaid(ops + Elems(paid[..n]), paid[n]);
      assert ops + Elems(paid[..n]) + {paid[n]} == ops + Elems(paid);
    }
  }

  /** Resolving a closed round and paying its winning visible bets, in any order. */
  lemma {:induction false} ResolvedAndPaid(ops: set<Operation>, x: Operation, paid: seq<Operation>, bets: seq<Bet>)
    requires Appends(ops, x) && x.kind.ResolveRound? && Accepts(Replay(ops), x)
    requires PaysInOrder(ops + {x}, paid, bets, x.kind.round, x.replica)
    ensures RoundPhase(Replay(ops + {x} + Elems(paid)), x.kind.round) == Some(Resolved)
    ensures Replay(ops + {x} + Elems(paid)).roundViews[x.kind.round].result == Some(x.kind.dice)
    ensures DistinctBetIds(Elems(bets)) ==>
              Prizes(Replay(ops), Replay(ops + {x} + Elems(paid)), Elems(bets), x.kind.round, x.replica)
  {
    ReplayExtend(ops, x);
    RoundResolved(Replay(ops), x);
    PayingKeepsRounds(ops + {x}, paid, bets, x.kind.round, x.replica);
    if DistinctBetIds(Elems(bets)) {
      PaidInOrder(ops + {x}, paid, bets, x.kind.round, x.replica);
      PrizesSinceResolution(Replay(ops), Replay(ops + {x}), Replay(ops + {x} + Elems(paid)), Elems(bets),
                            x.kind.round, x.replica);
    }
  }

  // ---- which stakes are paid, over the operations of the log ----

  /** x is an accepted bet on the round that wins on the dice. */
  ghost predicate WinningStake(s: State, ops: set<Operation>, x: Operation, round: RoundId, dice: nat) {
    x in ops && x.kind.PlaceBet? && x.id !in s.rejected && x.kind.round == round && x.kind.betKind.Wins(dice)
  }

  /** y pays the stake of x: six times for an exact face, twice otherwise. */
  predicate PaysStake(y: Operation, x: Operation) {
    && x.kind.PlaceBet?
    && y.kind == ApplyPayout(PayoutId(x.kind.round, x.kind.bet), x.kind.player, x.kind.round,
                             if x.kind.betKind.Exact? then 6 * x.kind.amount else 2 * x.kind.amount)
  }

  lemma PrizeOfStake(x: Operation, b: Bet)
    requires Places(x, b)
    ensures b.Prize() == if x.kind.betKind.Exact? then 6 * x.kind.amount else 2 * x.kind.amount
  {
  }

  /** The payouts are those of the winning stakes: nothing else is paid, nobody is left out. */
  ghost predicate PaysStakes(s: State, ops: set<Operation>, paid: seq<Operation>, round: RoundId, dice: nat) {
    && (forall y :: y in paid ==> exists x :: WinningStake(s, ops, x, round, dice) && PaysStake(y, x))
    && (forall x {:trigger PaidFor(paid, x)} :: WinningStake(s, ops, x, round, dice) ==> PaidFor(paid, x))
  }

  ghost predicate PaidFor(paid: seq<Operation>, x: Operation) {
    exists y :: y in paid && PaysStake(y, x)
  }

  lemma {:induction false} PaidBets(ops: set<Operation>, paid: seq<Operation>, bets: seq<Bet>, round: RoundId,
                                    r: ReplicaId)
    requires PaysInOrder(ops, paid, bets, round, r)
    ensures |paid| == |bets| && forall i, j :: 0 <= i < j < |bets| ==> bets[i] != bets[j]
    ensures forall k :: 0 <= k < |paid| ==> PaysBet(paid[k], bets[k], round, r)
    decreases |paid|
  {
    if paid != [] {
      var n := |paid| - 1;
      PaidBets(ops, paid[..n], bets[..n], round, r);
      forall k | 0 <= k < n ensures PaysBet(paid[k], bets[k], round, r) {
        assert PaysBet(paid[..n][k], bets[..n][k], round, r);
      }
    }
  }

  lemma WinnerIsStake(ops: set<Operation>, b: Bet, round: RoundId, dice: nat)
    requires DistinctIds(ops)
    ensures b in Winners(VisibleBets(Replay(ops)), round, dice)
       <==> exists x :: WinningStake(Replay(ops), ops, x, round, dice) && Places(x, b)
  {
    VisibleExactly(ops, b);
    if b in Winners(VisibleBets(Replay(ops)), round, dice) {
      var x :| x in ops && Places(x, b) && x.id !in Replay(ops).rejected;
      assert WinningStake(Replay(ops), ops, x, round, dice);
    }
  }

  /** What resolve_round pays are the winning stakes, of its round only. */
  lemma WinnersArePaid(ops: set<Operation>, log: set<Operation>, paid: seq<Operation>, bets: seq<Bet>,
                       round: RoundId, dice: nat, r: ReplicaId)
    requires DistinctIds(ops) && PaysInOrder(log, paid, bets, round, r)
    requires Elems(bets) == Winners(VisibleBets(Replay(ops)), round, dice)
    ensures PaysStakes(Replay(ops), ops, paid, round, dice)
  {
    var s := Replay(ops);
    PaidBets(log, paid, bets, round, r);
    forall y | y in paid ensures exists x :: WinningStake(s, ops, x, round, dice) && PaysStake(y, x) {
      var k :| 0 <= k < |paid| && paid[k] == y;
      assert bets[k] in Elems(bets);
      WinnerIsStake(ops, bets[k], round, dice);
      var x :| WinningStake(s, ops, x, round, dice) && Places(x, bets[k]);
      PrizeOfStake(x, bets[k]);
      assert PaysStake(y, x);
    }
    forall x | WinningStake(s, ops, x, round, dice) ensures PaidFor(paid, x) {
      var b := BetOf(x);
      assert Places(x, b);
      PrizeOfStake(x, b);
      WinnerIsStake(ops, b, round, dice);
      var k :| 0 <= k < |bets| && bets[k] == b;
      assert paid[k] in paid && PaysStake(paid[k], x);
    }
  }

  /** Where bet ids are used once, an accepted bet is paid exactly when it is on the round
      and wins. */
  lemma PaidIfWon(s: State, ops: set<Operation>, paid: seq<Operation>, round: RoundId, dice: nat, x: Operation)
    requires PaysStakes(s, ops, paid, round, dice) && DistinctBets(ops)
    requires x in ops && x.kind.PlaceBet? && x.id !in s.rejected
    ensures PaidFor(paid, x) <==> x.kind.round == round && x.kind.betKind.Wins(dice)
  {
    if PaidFor(paid, x) {
      var y :| y in paid && PaysStake(y, x);
      var z :| WinningStake(s, ops, z, round, dice) && PaysStake(y, z);
      SameBet(y, x, z);
      assert z == x;
    }
    if x.kind.round == round && x.kind.betKind.Wins(dice) {
      assert WinningStake(s, ops, x, round, dice);
    }
  }

  lemma SameBet(y: Operation, x: Operation, z: Operation)
    requires PaysStake(y, x) && PaysStake(y, z)
    ensures x.kind.bet == z.kind.bet
  {
  }

  /** Of a bet on High and one on Low of the same round exactly one is paid, on any face;
      likewise of Odd and Even. */
  lemma OneOfTwoPaid(s: State, ops: set<Operation>, paid: seq<Operation>, round: RoundId, dice: nat,
                     x: Operation, y: Operation)
    requires PaysStakes(s, ops, paid, round, dice) && DistinctBets(ops) && IsFace(dice)
    requires x in ops && x.kind.PlaceBet? && x.id !in s.rejected && x.kind.round == round
    requires y in ops && y.kind.PlaceBet? && y.id !in s.rejected && y.kind.round == round
    requires (x.kind.betKind == High && y.kind.betKind == Low) || (x.kind.betKind == Odd && y.kind.betKind == Even)
    ensures PaidFor(paid, x) <==> !PaidFor(paid, y)
  {
    PaidIfWon(s, ops, paid, round, dice, x);
    PaidIfWon(s, ops, paid, round, dice, y);
    HighAndLow(dice, dice);
    OddAndEven(dice);
  }

  ghost predicate NobodyBet(s: State, ops: set<Operation>, round: RoundId) {
    forall x :: x in ops && x.kind.PlaceBet? && x.id !in s.rejected ==> x.kind.round != round
  }

  /** Nobody is paid in a round in which nobody bet. */
  lemma NobodyPaid(s: State, ops: set<Operation>, paid: seq<Operation>, round: RoundId, dice: nat)
    requires PaysStakes(s, ops, paid, round, dice)
    ensures NobodyBet(s, ops, round) ==> paid == []
  {
    if paid != [] {
      assert paid[0] in paid;
      var x :| WinningStake(s, ops, x, round, dice) && PaysStake(paid[0], x);
    }
  }
}
