/** What the replayed rounds show: one view per created round, the dealer of the
    creation that sorts first, and a result exactly when the round is resolved. */
module RoundViews {
  import opened Operations
  import opened Merges
  import opened BetState
  import opened Replays
  import opened Accounting
  import opened Views

  /** The OR-set of rounds and the map of round views name the same rounds. */
  ghost predicate RoundSetsAgree(s: State) {
    && s.rounds.removes == map[]
    && s.rounds.adds.Keys == s.roundViews.Keys
    && forall r :: r in s.rounds.adds ==> s.rounds.adds[r] != {}
  }

  lemma TransitionKeepsRounds(s: State, x: Operation)
    requires x.kind.OpenBetting? || x.kind.CloseBetting? || x.kind.ResolveRound?
    ensures Apply(s, x, true).rounds == s.rounds
    ensures Apply(s, x, true).roundViews.Keys == s.roundViews.Keys
  {
    RoundFrame(s, x);
  }

  lemma RoundSetsStep(s: State, x: Operation)
    requires RoundSetsAgree(s)
    ensures RoundSetsAgree(Step(s, x))
  {
    match x.kind
    case OpenBetting(_) => TransitionKeepsRounds(s, x);
    case CloseBetting(_) => TransitionKeepsRounds(s, x);
    case ResolveRound(_, _) => TransitionKeepsRounds(s, x);
    case PlaceBet(_, _, _, _, _, _) => BetFrame(s, x, Funded(s, x));
    case ApplyPayout(_, _, _, _) => PayoutFrame(s, x);
    case TransferRights(_, _, _, _) => TransferFrame(s, x, Funded(s, x));
    case _ =>
  }

  lemma {:induction false} ReplayRoundSets(ops: set<Operation>)
    ensures RoundSetsAgree(Replay(ops))
    decreases |ops|
  {
    if ops != {} {
      ReplayRoundSets(ops - {Last(ops)});
      RoundSetsStep(Replay(ops - {Last(ops)}), Last(ops));
    }
  }

  ghost function CreationIds(ops: set<Operation>, round: RoundId): set<OpId> {
    set c | c in ops && Opens(c, round) :: c.id
  }

  lemma RoundTagsStep(s: State, x: Operation, round: RoundId)
    ensures TagsIn(Step(s, x).rounds.adds, round)
         == if Opens(x, round) then TagsIn(s.rounds.adds, round) + {x.id} else TagsIn(s.rounds.adds, round)
  {
    match x.kind
    case OpenBetting(_) => TransitionKeepsRounds(s, x);
    case CloseBetting(_) => TransitionKeepsRounds(s, x);
    case ResolveRound(_, _) => TransitionKeepsRounds(s, x);
    case PlaceBet(_, _, _, _, _, _) => BetFrame(s, x, Funded(s, x));
    case ApplyPayout(_, _, _, _) => PayoutFrame(s, x);
    case TransferRights(_, _, _, _) => TransferFrame(s, x, Funded(s, x));
    case _ =>
  }

  /** The tags of a round are the ids of its creations. */
  lemma {:induction false} ReplayRoundTags(ops: set<Operation>, round: RoundId)
    ensures TagsIn(Replay(ops).rounds.adds, round) == CreationIds(ops, round)
    decreases |ops|
  {
    if ops != {} {
      var x := Last(ops);
      ReplayRoundTags(ops - {x}, round);
      RoundTagsStep(Replay(ops - {x}), x, round);
      assert ops == ops - {x} + {x};
    }
  }

  /** The first creation of a round in sort order. */
  ghost predicate FirstCreation(c: Operation, ops: set<Operation>, round: RoundId) {
    c in ops && Opens(c, round) && forall d :: d in ops && Opens(d, round) ==> !Before(d, c)
  }

  ghost predicate ViewMatches(views: map<RoundId, RoundView>, ops: set<Operation>, round: RoundId) {
    round in views ==>
      && views[round].id == round
      && (exists c :: FirstCreation(c, ops, round) && c.kind.dealer == views[round].dealer)
      && (views[round].result.Some? <==> views[round].phase == Resolved)
      && (views[round].result.Some? ==> 1 <= views[round].result.value <= 6)
  }

  /** How one operation may change a round's view. */
  ghost predicate ViewMoves(views: map<RoundId, RoundView>, views': map<RoundId, RoundView>, x: Operation,
                            round: RoundId)
  {
    if round in views then
      && round in views'
      && (views'[round] == views[round]
          || (views[round].phase == Created && views'[round] == Opened(views[round]))
          || (views[round].phase == BettingOpen && views'[round] == Closed(views[round]))
          || (views[round].phase == BettingClosed && x.kind.ResolveRound? && 1 <= x.kind.dice <= 6
              && views'[round] == ResolvedWith(views[round], x.kind.dice)))
    else if Opens(x, round) then
      round in views' && views'[round] == NewRound(round, x.kind.dealer)
    else
      round !in views'
  }

  lemma OpenMoves(s: State, x: Operation, round: RoundId)
    requires x.kind.OpenBetting?
    ensures ViewMoves(s.roundViews, ApplyOpen(s, x).roundViews, x, round)
  {
  }

  lemma CloseMoves(s: State, x: Operation, round: RoundId)
    requires x.kind.CloseBetting?
    ensures ViewMoves(s.roundViews, ApplyClose(s, x).roundViews, x, round)
  {
  }

  lemma ResolveMoves(s: State, x: Operation, round: RoundId)
    requires x.kind.ResolveRound?
    ensures ViewMoves(s.roundViews, ApplyResolve(s, x).roundViews, x, round)
  {
  }

  lemma CreateMoves(s: State, x: Operation, round: RoundId)
    requires x.kind.CreateRound?
    ensures ViewMoves(s.roundViews, ApplyCreateRound(s, x).roundViews, x, round)
  {
  }

  lemma OthersKeepRounds(s: State, x: Operation, funded: bool)
    requires !x.kind.CreateRound? && !x.kind.OpenBetting? && !x.kind.CloseBetting? && !x.kind.ResolveRound?
    ensures Apply(s, x, funded).roundViews == s.roundViews
  {
    match x.kind
    case CreateTable(_) =>
    case JoinTable(_, _, _, _) =>
    case LeaveTable(_) =>
    case PlaceBet(_, _, _, _, _, _) => BetFrame(s, x, funded);
    case ApplyPayout(_, _, _, _) => PayoutFrame(s, x);
    case TransferRights(_, _, _, _) => TransferFrame(s, x, funded);
  }

  lemma StepViews(s: State, x: Operation, round: RoundId)
    ensures ViewMoves(s.roundViews, Step(s, x).roundViews, x, round)
  {
    match x.kind
    case CreateRound(_, _) => CreateMoves(s, x, round);
    case OpenBetting(_) => OpenMoves(s, x, round);
    case CloseBetting(_) => CloseMoves(s, x, round);
    case ResolveRound(_, _) => ResolveMoves(s, x, round);
    case _ => OthersKeepRounds(s, x, Funded(s, x));
  }

  lemma ViewStep(views: map<RoundId, RoundView>, views': map<RoundId, RoundView>, ops: set<Operation>,
                 x: Operation, round: RoundId)
    requires Appends(ops, x) && ViewMoves(views, views', x, round) && ViewMatches(views, ops, round)
    requires round !in views ==> forall d :: d in ops ==> !Opens(d, round)
    ensures ViewMatches(views', ops + {x}, round)
  {
    if round in views {
      var c :| FirstCreation(c, ops, round) && c.kind.dealer == views[round].dealer;
      assert FirstCreation(c, ops + {x}, round);
    } else if Opens(x, round) {
      assert FirstCreation(x, ops + {x}, round);
    }
  }

  /** A round's view carries its own id, the dealer of the creation that sorts first
      (later creations are ignored), and a die face exactly when it is resolved. */
  lemma {:induction false} ReplayView(ops: set<Operation>, round: RoundId)
    requires DistinctIds(ops)
    ensures ViewMatches(Replay(ops).roundViews, ops, round)
    decreases |ops|
  {
    if ops != {} {
      var x := Last(ops);
      var rest := ops - {x};
      LastAppends(ops);
      ReplayView(rest, round);
      RoundExists(rest, round);
      StepViews(Replay(rest), x, round);
      ViewStep(Replay(rest).roundViews, Replay(ops).roundViews, rest, x, round);
      assert rest + {x} == ops;
    }
  }
}
