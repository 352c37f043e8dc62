/** The phase of a round read off the log: betting is open, closed or resolved with a
    face exactly when such a transition was accepted, each of them at most once. */
module RoundHistory {
  import opened Operations
  import opened BetState
  import opened Replays
  import opened Accounting
  import opened RoundViews

  /** x was accepted and moved the round to its k-th phase. */
  ghost predicate Moves(s: State, ops: set<Operation>, x: Operation, round: RoundId, k: nat) {
    x in ops && Target(x, round) == k && x.id !in s.rejected
  }

  ghost predicate HasMoved(s: State, ops: set<Operation>, round: RoundId, k: nat) {
    exists x :: Moves(s, ops, x, round, k)
  }

  ghost predicate PhasesMatch(s: State, ops: set<Operation>, round: RoundId) {
    && (forall k :: 2 <= k <= 4 ==> (k <= Rank(s, round) <==> HasMoved(s, ops, round, k)))
    && forall x, y, k :: 2 <= k && Moves(s, ops, x, round, k) && Moves(s, ops, y, round, k) ==> x == y
  }

  ghost predicate ResultMatches(s: State, ops: set<Operation>, round: RoundId) {
    && (forall z :: Moves(s, ops, z, round, 4) ==>
          round in s.roundViews && s.roundViews[round].result == Some(z.kind.dice))
    && forall z :: z in ops && z.kind.ResolveRound? && z.id !in s.rejected ==> 1 <= z.kind.dice <= 6
  }

  lemma MovesAfter(ops: set<Operation>, x: Operation, round: RoundId, k: nat)
    requires Appends(ops, x)
    ensures forall y :: Moves(Replay(ops + {x}), ops + {x}, y, round, k)
                   <==> Moves(Replay(ops), ops, y, round, k)
                        || (y == x && Target(x, round) == k && Accepts(Replay(ops), x))
  {
    StepVerdict(ops, x);
  }

  lemma AcceptedMove(s: State, x: Operation, round: RoundId)
    requires 2 <= Target(x, round)
    ensures Accepts(s, x) <==> Rank(s, round) == Target(x, round) - 1
    ensures Target(x, round) == 4 && Accepts(s, x) ==>
              && round in s.roundViews && round in Step(s, x).roundViews
              && Step(s, x).roundViews[round].result == Some(x.kind.dice)
  {
  }

  lemma HasMovedAfter(ops: set<Operation>, x: Operation, round: RoundId, k: nat)
    requires Appends(ops, x)
    ensures HasMoved(Replay(ops + {x}), ops + {x}, round, k)
       <==> HasMoved(Replay(ops), ops, round, k) || (Target(x, round) == k && Accepts(Replay(ops), x))
  {
    MovesAfter(ops, x, round, k);
    if Target(x, round) == k && Accepts(Replay(ops), x) {
      assert Moves(Replay(ops + {x}), ops + {x}, x, round, k);
    }
    if HasMoved(Replay(ops), ops, round, k) {
      var y :| Moves(Replay(ops), ops, y, round, k);
      assert Moves(Replay(ops + {x}), ops + {x}, y, round, k);
    }
  }

  lemma PhasesStep(ops: set<Operation>, x: Operation, round: RoundId)
    requires Appends(ops, x) && PhasesMatch(Replay(ops), ops, round)
    ensures PhasesMatch(Replay(ops + {x}), ops + {x}, round)
  {
    var s, t := Replay(ops), Replay(ops + {x});
    ReplayExtend(ops, x);
    RankStep(s, x, round);
    if 2 <= Target(x, round) {
      AcceptedMove(s, x, round);
    }
    forall k | 2 <= k <= 4 ensures k <= Rank(t, round) <==> HasMoved(t, ops + {x}, round, k) {
      HasMovedAfter(ops, x, round, k);
    }
    forall y, z, k | 2 <= k && Moves(t, ops + {x}, y, round, k) && Moves(t, ops + {x}, z, round, k) ensures y == z {
      MovesAfter(ops, x, round, k);
      if Target(x, round) == k && Accepts(s, x) {
        assert !HasMoved(s, ops, round, k);
      }
    }
  }

  lemma ResultStep(ops: set<Operation>, x: Operation, round: RoundId)
    requires Appends(ops, x) && PhasesMatch(Replay(ops), ops, round) && ResultMatches(Replay(ops), ops, round)
    ensures ResultMatches(Replay(ops + {x}), ops + {x}, round)
  {
    var s, t := Replay(ops), Replay(ops + {x});
    StepVerdict(ops, x);
    MovesAfter(ops, x, round, 4);
    forall z | Moves(t, ops + {x}, z, round, 4)
      ensures round in t.roundViews && t.roundViews[round].result == Some(z.kind.dice)
    {
      ReplayExtend(ops, x);
      if Moves(s, ops, z, round, 4) {
        assert HasMoved(s, ops, round, 4);
        ResultKept(s, x, round);
      } else {
        AcceptedMove(s, x, round);
      }
    }
  }

  /** A resolved round stays as it is. */
  lemma ResultKept(s: State, x: Operation, round: RoundId)
    requires 4 <= Rank(s, round)
    ensures round in s.roundViews && round in Step(s, x).roundViews
    ensures Step(s, x).roundViews[round] == s.roundViews[round]
  {
    StepViews(s, x, round);
  }

  lemma {:induction false} ReplayPhases(ops: set<Operation>, round: RoundId)
    requires DistinctIds(ops)
    ensures PhasesMatch(Replay(ops), ops, round) && ResultMatches(Replay(ops), ops, round)
    decreases |ops|
  {
    if ops != {} {
      var x := Last(ops);
      LastAppends(ops);
      ReplayPhases(ops - {x}, round);
      PhasesStep(ops - {x}, x, round);
      ResultStep(ops - {x}, x, round);
      assert ops - {x} + {x} == ops;
    }
  }

  // ---- the same over the operations of the log ----

  /** The log holds an operation of exactly this kind, and the state accepted it. */
  ghost predicate Accepted(s: State, ops: set<Operation>, kind: Kind) {
    exists x :: x in ops && x.kind == kind && x.id !in s.rejected
  }

  lemma AcceptedIsMoved(s: State, ops: set<Operation>, kind: Kind, round: RoundId, k: nat)
    requires forall x :: x in ops && x.id !in s.rejected ==> (x.kind == kind <==> Target(x, round) == k)
    ensures Accepted(s, ops, kind) <==> HasMoved(s, ops, round, k)
  {
    if Accepted(s, ops, kind) {
      var x :| x in ops && x.kind == kind && x.id !in s.rejected;
      assert Moves(s, ops, x, round, k);
    }
    if HasMoved(s, ops, round, k) {
      var x :| Moves(s, ops, x, round, k);
      assert x.kind == kind;
    }
  }

  lemma ResolvedTo(s: State, ops: set<Operation>, round: RoundId, dice: nat)
    requires PhasesMatch(s, ops, round) && ResultMatches(s, ops, round)
    ensures Accepted(s, ops, Kind.ResolveRound(round, dice))
       <==> RoundPhase(s, round) == Some(Resolved) && s.roundViews[round].result == Some(dice)
  {
    if Accepted(s, ops, Kind.ResolveRound(round, dice)) {
      var z :| z in ops && z.kind == Kind.ResolveRound(round, dice) && z.id !in s.rejected;
      assert Moves(s, ops, z, round, 4);
      assert HasMoved(s, ops, round, 4);
    }
    if RoundPhase(s, round) == Some(Resolved) {
      assert HasMoved(s, ops, round, 4);
      var z :| Moves(s, ops, z, round, 4);
      assert z.kind == Kind.ResolveRound(round, z.kind.dice);
    }
  }

  /** Betting is open on a round from an accepted opening until an accepted closing. */
  lemma OpenExactly(ops: set<Operation>, round: RoundId)
    requires DistinctIds(ops)
    ensures var s := Replay(ops);
            RoundPhase(s, round) == Some(BettingOpen)
            <==> Accepted(s, ops, OpenBetting(round)) && !Accepted(s, ops, CloseBetting(round))
  {
    ReplayPhases(ops, round);
    AcceptedIsMoved(Replay(ops), ops, OpenBetting(round), round, 2);
    AcceptedIsMoved(Replay(ops), ops, CloseBetting(round), round, 3);
  }

  /** It is closed from there until an accepted resolution. */
  lemma ClosedExactly(ops: set<Operation>, round: RoundId)
    requires DistinctIds(ops)
    ensures var s := Replay(ops);
            RoundPhase(s, round) == Some(BettingClosed)
            <==> Accepted(s, ops, CloseBetting(round))
                 && forall dice :: !Accepted(s, ops, Kind.ResolveRound(round, dice))
  {
    ReplayPhases(ops, round);
    ClosedUnresolved(Replay(ops), ops, round);
  }

  lemma ClosedUnresolved(s: State, ops: set<Operation>, round: RoundId)
    requires PhasesMatch(s, ops, round) && ResultMatches(s, ops, round)
    ensures RoundPhase(s, round) == Some(BettingClosed)
       <==> Accepted(s, ops, CloseBetting(round)) && forall dice :: !Accepted(s, ops, Kind.ResolveRound(round, dice))
  {
    AcceptedIsMoved(s, ops, CloseBetting(round), round, 3);
    forall dice | Accepted(s, ops, Kind.ResolveRound(round, dice)) ensures RoundPhase(s, round) == Some(Resolved) {
      ResolvedTo(s, ops, round, dice);
    }
    if RoundPhase(s, round) == Some(Resolved) {
      assert HasMoved(s, ops, round, 4);
      var z :| Moves(s, ops, z, round, 4);
      ResolvedTo(s, ops, round, z.kind.dice);
    }
  }

  /** And then it shows the face of the resolution that was accepted. */
  lemma ResultExactly(ops: set<Operation>, round: RoundId, dice: nat)
    requires DistinctIds(ops)
    ensures var s := Replay(ops);
            Accepted(s, ops, Kind.ResolveRound(round, dice))
            <==> RoundPhase(s, round) == Some(Resolved) && s.roundViews[round].result == Some(dice)
  {
    ReplayPhases(ops, round);
    ResolvedTo(Replay(ops), ops, round, dice);
  }

  /** A round is opened once, closed once and resolved once. */
  lemma OncePerRound(ops: set<Operation>, x: Operation, y: Operation, round: RoundId)
    requires DistinctIds(ops) && x in ops && y in ops
    requires x.id !in Replay(ops).rejected && y.id !in Replay(ops).rejected
    requires || x.kind == y.kind == OpenBetting(round) || x.kind == y.kind == CloseBetting(round)
             || (x.kind.ResolveRound? && y.kind.ResolveRound? && x.kind.round == y.kind.round == round)
    ensures x == y
  {
    ReplayPhases(ops, round);
    assert Moves(Replay(ops), ops, x, round, Target(x, round)) && Moves(Replay(ops), ops, y, round, Target(y, round));
  }
}
