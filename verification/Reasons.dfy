/** What the record of rejections says: the reason of the first check that failed, read
    off the operations that sort before the rejected one. */
module Reasons {
  import opened Operations
  import opened Merges
  import opened BetState
  import opened Replays
  import opened Accounting
  import opened Views

  predicate BetFails(s: State, p: PlayerId, round: RoundId, origin: Phase, why: Reason) {
    why == if !Contains(s.players, p) then NotJoined
           else if origin != BettingOpen then OriginNotOpen
           else if RoundPhase(s, round) == None then NoSuchRound else NoRights
  }

  /** The reason of the first check that fails, in the order of the program. */
  predicate FirstFailure(s: State, x: Operation, why: Reason) {
    match x.kind
    case OpenBetting(round) => why == if RoundPhase(s, round) == None then NoSuchRound else BadOpen
    case CloseBetting(round) => why == if RoundPhase(s, round) == None then NoSuchRound else BadClose
    case ResolveRound(round, _) => why == if RoundPhase(s, round) == None then NoSuchRound else BadResolve
    case PlaceBet(_, p, round, _, _, origin) => BetFails(s, p, round, origin, why)
    case ApplyPayout(_, _, _, _) => why == DuplicatePayout
    case TransferRights(_, _, _, _) => why == NoRightsToTransfer
    case _ => false
  }

  /** The record after x, if it is not accepted. */
  ghost predicate Recorded(s: State, x: Operation, accepted: bool, rejected: map<OpId, Reason>) {
    if accepted then rejected == s.rejected
    else x.id in rejected && FirstFailure(s, x, rejected[x.id]) && rejected == s.rejected[x.id := rejected[x.id]]
  }

  lemma BetRecorded(s: State, x: Operation, funded: bool)
    requires x.kind.PlaceBet?
    ensures Recorded(s, x, Admits(s, x, funded), ApplyBet(s, x, funded).rejected)
  {
  }

  lemma TransferRecorded(s: State, x: Operation, funded: bool)
    requires x.kind.TransferRights?
    ensures Recorded(s, x, Admits(s, x, funded), ApplyTransfer(s, x, funded).rejected)
  {
  }

  lemma PayoutRecorded(s: State, x: Operation)
    requires x.kind.ApplyPayout?
    ensures Recorded(s, x, Admits(s, x, true), ApplyPayoutOp(s, x).rejected)
  {
  }

  lemma OpenRecorded(s: State, x: Operation)
    requires x.kind.OpenBetting?
    ensures Recorded(s, x, Admits(s, x, true), ApplyOpen(s, x).rejected)
  {
  }

  lemma CloseRecorded(s: State, x: Operation)
    requires x.kind.CloseBetting?
    ensures Recorded(s, x, Admits(s, x, true), ApplyClose(s, x).rejected)
  {
  }

  lemma ResolveRecorded(s: State, x: Operation)
    requires x.kind.ResolveRound?
    ensures Recorded(s, x, Admits(s, x, true), ApplyResolve(s, x).rejected)
  {
  }

  lemma StepRecorded(s: State, x: Operation)
    ensures Recorded(s, x, Accepts(s, x), Step(s, x).rejected)
  {
    match x.kind
    case OpenBetting(_) => OpenRecorded(s, x);
    case CloseBetting(_) => CloseRecorded(s, x);
    case ResolveRound(_, _) => ResolveRecorded(s, x);
    case PlaceBet(_, _, _, _, _, _) => BetRecorded(s, x, Funded(s, x));
    case ApplyPayout(_, _, _, _) => PayoutRecorded(s, x);
    case TransferRights(_, _, _, _) => TransferRecorded(s, x, Funded(s, x));
    case _ =>
  }

  lemma {:induction false} ReasonAtPlace(ops: set<Operation>, x: Operation)
    requires DistinctIds(ops) && x in ops && x.id in Replay(ops).rejected
    ensures FirstFailure(Replay(Prefix(ops, x)), x, Replay(ops).rejected[x.id])
    decreases |ops|
  {
    var last := Last(ops);
    var rest := ops - {last};
    LastAppends(ops);
    StepVerdict(rest, last);
    StepRecorded(Replay(rest), last);
    assert rest + {last} == ops;
    if x == last {
      assert Prefix(ops, x) == rest;
    } else {
      assert Prefix(ops, x) == Prefix(rest, x);
      ReasonAtPlace(rest, x);
    }
  }

  /** Why a bet is rejected, over what sorts before it: nobody seated, its origin did not
      see betting open, no such round, and only then missing rights. */
  lemma BetReason(ops: set<Operation>, x: Operation)
    requires DistinctIds(ops) && x in ops && x.kind.PlaceBet? && x.id in Replay(ops).rejected
    ensures var before := Prefix(ops, x);
            Replay(ops).rejected[x.id]
            == if !Seated(before, x.kind.player) then NotJoined
               else if x.kind.originPhase != BettingOpen then OriginNotOpen
               else if !(exists y :: y in before && Opens(y, x.kind.round)) then NoSuchRound
               else NoRights
  {
    var before := Prefix(ops, x);
    ReasonAtPlace(ops, x);
    PlayerVisible(before, x.kind.player);
    RoundExists(before, x.kind.round);
  }

  /** Why a transition is rejected: there is no such round, or it is not in the phase the
      transition waits for, or the dice shows no face. */
  lemma TransitionReason(ops: set<Operation>, x: Operation, round: RoundId)
    requires DistinctIds(ops) && x in ops && x.id in Replay(ops).rejected
    requires x.kind == OpenBetting(round) || x.kind == CloseBetting(round)
             || (x.kind.ResolveRound? && x.kind.round == round)
    ensures Replay(ops).rejected[x.id]
         == if !(exists y :: y in Prefix(ops, x) && Opens(y, round)) then NoSuchRound
            else if x.kind.OpenBetting? then BadOpen else if x.kind.CloseBetting? then BadClose else BadResolve
  {
    ReasonAtPlace(ops, x);
    RoundExists(Prefix(ops, x), round);
  }

  /** A payout is rejected as a duplicate, a transfer for missing rights. */
  lemma LedgerReason(ops: set<Operation>, x: Operation)
    requires DistinctIds(ops) && x in ops && x.id in Replay(ops).rejected
    requires x.kind.ApplyPayout? || x.kind.TransferRights?
    ensures Replay(ops).rejected[x.id] == if x.kind.ApplyPayout? then DuplicatePayout else NoRightsToTransfer
  {
    ReasonAtPlace(ops, x);
  }
}
