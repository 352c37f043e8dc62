/** The replicated table state and what one operation does to it
    (src/domain/state.rs, src/domain/round.rs). */
module BetState {
  import opened Operations
  import opened MapSums
  import opened Counters
  import opened Merges

  // ---- rounds ----

  function NewRound(id: RoundId, dealer: PlayerId): RoundView {
    RoundView(id, dealer, Created, None)
  }

  predicate CanOpen(round: RoundView) { round.phase == Created }
  predicate CanClose(round: RoundView) { round.phase == BettingOpen }
  predicate CanResolve(round: RoundView, dice: nat) { round.phase == BettingClosed && 1 <= dice <= 6 }

  function Opened(round: RoundView): RoundView { round.(phase := BettingOpen) }
  function Closed(round: RoundView): RoundView { round.(phase := BettingClosed) }
  function ResolvedWith(round: RoundView, dice: nat): RoundView { round.(phase := Resolved, result := Some(dice)) }

  // ---- state ----

  datatype Reason =
    | NoSuchRound | BadOpen | BadClose | BadResolve
    | NotJoined | OriginNotOpen | NoRights | NoRightsToTransfer | DuplicatePayout

  datatype State = State(
    tableName: Lww<Option<string>>,
    players: OrSet<PlayerId>,
    playerNames: map<PlayerId, Lww<string>>,
    rounds: OrSet<RoundId>,
    roundViews: map<RoundId, RoundView>,
    bets: OrSet<Bet>,
    balances: map<PlayerId, PNCounter>,
    rights: map<PlayerId, Counter>,
    payouts: set<PayoutId>,
    rejected: map<OpId, Reason>)

  const START := State(Lww(None, 0, 0), OrSet(map[], map[]), map[], OrSet(map[], map[]), map[],
                       OrSet(map[], map[]), map[], map[], {}, map[])

  function BalanceOf(s: State, p: PlayerId): PNCounter {
    if p in s.balances then s.balances[p] else EMPTY_PN
  }

  function CounterOf(s: State, p: PlayerId): Counter {
    if p in s.rights then s.rights[p] else EMPTY_COUNTER
  }

  ghost function PlayerBalance(s: State, p: PlayerId): int {
    if p in s.balances then Value(s.balances[p]) else 0
  }

  ghost function AvailableRights(s: State, p: PlayerId, r: ReplicaId): int {
    if p in s.rights then Available(s.rights[p], r) else 0
  }

  function RoundPhase(s: State, round: RoundId): Option<Phase> {
    if round in s.roundViews then Some(s.roundViews[round].phase) else None
  }

  function VisibleBets(s: State): set<Bet> {
    Elements(s.bets)
  }

  function Reject(s: State, op: Operation, reason: Reason): State {
    s.(rejected := s.rejected[op.id := reason])
  }

  /** The rights a join hands out: all the chips to the joining replica when the
      operation names no split. */
  function JoinRights(op: Operation): map<ReplicaId, nat>
    requires op.kind.JoinTable?
  {
    if op.kind.rights == map[] then map[op.replica := op.kind.chips] else op.kind.rights
  }

  function BetOf(op: Operation): Bet
    requires op.kind.PlaceBet?
  {
    var k := op.kind;
    Bet(k.bet, k.player, k.round, k.amount, k.betKind, op.replica, op.time)
  }

  function NameAfterJoin(s: State, op: Operation): Lww<string>
    requires op.kind.JoinTable?
  {
    var p := op.kind.player;
    if p in s.playerNames then Assign(s.playerNames[p], op.kind.displayName, op.time, op.replica)
    else Lww(op.kind.displayName, op.time, op.replica)
  }

  function ApplyJoin(s: State, op: Operation): State
    requires op.kind.JoinTable?
  {
    var p, c := op.kind.player, CounterOf(s, op.kind.player);
    s.(players := Add(s.players, p, op.id),
       playerNames := s.playerNames[p := NameAfterJoin(s, op)],
       balances := s.balances[p := Increment(BalanceOf(s, p), op.replica, op.kind.chips)],
       rights := s.rights[p := c.(initial := MergeMax(c.initial, JoinRights(op)))])
  }

  function ApplyCreateRound(s: State, op: Operation): State
    requires op.kind.CreateRound?
  {
    var round := op.kind.round;
    s.(rounds := Add(s.rounds, round, op.id),
       roundViews := if round in s.roundViews then s.roundViews
                     else s.roundViews[round := NewRound(round, op.kind.dealer)])
  }

  function ApplyOpen(s: State, op: Operation): State
    requires op.kind.OpenBetting?
  {
    var round := op.kind.round;
    if round !in s.roundViews then Reject(s, op, NoSuchRound)
    else if !CanOpen(s.roundViews[round]) then Reject(s, op, BadOpen)
    else s.(roundViews := s.roundViews[round := Opened(s.roundViews[round])])
  }

  function ApplyClose(s: State, op: Operation): State
    requires op.kind.CloseBetting?
  {
    var round := op.kind.round;
    if round !in s.roundViews then Reject(s, op, NoSuchRound)
    else if !CanClose(s.roundViews[round]) then Reject(s, op, BadClose)
    else s.(roundViews := s.roundViews[round := Closed(s.roundViews[round])])
  }

  function ApplyResolve(s: State, op: Operation): State
    requires op.kind.ResolveRound?
  {
    var round, dice := op.kind.round, op.kind.dice;
    if round !in s.roundViews then Reject(s, op, NoSuchRound)
    else if !CanResolve(s.roundViews[round], dice) then Reject(s, op, BadResolve)
    else s.(roundViews := s.roundViews[round := ResolvedWith(s.roundViews[round], dice)])
  }

  /** `funded` is the verdict of the bounded counter's own guard. */
  function ApplyBet(s: State, op: Operation, funded: bool): State
    requires op.kind.PlaceBet?
  {
    var p, c := op.kind.player, CounterOf(s, op.kind.player);
    if !Contains(s.players, p) then Reject(s, op, NotJoined)
    else if op.kind.originPhase != BettingOpen then Reject(s, op, OriginNotOpen)
    else if op.kind.round !in s.roundViews then Reject(s, op, NoSuchRound)
    else if !funded then Reject(s.(rights := s.rights[p := c]), op, NoRights)
    else s.(rights := s.rights[p := RecordSpend(c, op.id, op.replica, op.kind.amount)],
            balances := s.balances[p := Decrement(BalanceOf(s, p), op.replica, op.kind.amount)],
            bets := Add(s.bets, BetOf(op), op.id))
  }

  function ApplyPayoutOp(s: State, op: Operation): State
    requires op.kind.ApplyPayout?
  {
    var p, pid := op.kind.player, op.kind.payout;
    if pid in s.payouts then Reject(s, op, DuplicatePayout)
    else s.(payouts := s.payouts + {pid},
            balances := s.balances[p := Increment(BalanceOf(s, p), op.replica, op.kind.amount)],
            rights := s.rights[p := Grant(CounterOf(s, p), pid, op.replica, op.kind.amount)])
  }

  function ApplyTransfer(s: State, op: Operation, funded: bool): State
    requires op.kind.TransferRights?
  {
    var p, k, c := op.kind.player, op.kind, CounterOf(s, op.kind.player);
    if !funded then Reject(s.(rights := s.rights[p := c]), op, NoRightsToTransfer)
    else s.(rights := s.rights[p := RecordTransfer(c, op.id, k.from, k.to, k.amount)])
  }

  function Apply(s: State, op: Operation, funded: bool): State {
    match op.kind
    case CreateTable(name) => s.(tableName := Assign(s.tableName, Some(name), op.time, op.replica))
    case JoinTable(_, _, _, _) => ApplyJoin(s, op)
    case LeaveTable(player) => s.(players := RemoveObserved(s.players, player))
    case CreateRound(_, _) => ApplyCreateRound(s, op)
    case OpenBetting(_) => ApplyOpen(s, op)
    case PlaceBet(_, _, _, _, _, _) => ApplyBet(s, op, funded)
    case CloseBetting(_) => ApplyClose(s, op)
    case ResolveRound(_, _) => ApplyResolve(s, op)
    case ApplyPayout(_, _, _, _) => ApplyPayoutOp(s, op)
    case TransferRights(_, _, _, _) => ApplyTransfer(s, op, funded)
  }

  /** The guard of `spend` and `transfer` in the counter of the operation's player. */
  ghost predicate Funded(s: State, op: Operation) {
    match op.kind
    case PlaceBet(_, p, _, amount, _, _) => CanSpend(CounterOf(s, p), op.id, op.replica, amount)
    case TransferRights(p, from, _, amount) => CanTransfer(CounterOf(s, p), op.id, from, amount)
    case _ => true
  }

  ghost function Step(s: State, op: Operation): State {
    Apply(s, op, Funded(s, op))
  }

  /** The checks of place_bet. */
  ghost predicate MayBet(s: State, r: ReplicaId, p: PlayerId, round: RoundId, amount: nat) {
    && Contains(s.players, p)
    && RoundPhase(s, round) == Some(BettingOpen)
    && AsI64(amount) <= AvailableRights(s, p, r)
  }

  // ---- what one step means ----

  /** When the state accepts an operation, given the counter's verdict. */
  predicate Admits(s: State, op: Operation, funded: bool) {
    match op.kind
    case OpenBetting(round) => RoundPhase(s, round) == Some(Created)
    case CloseBetting(round) => RoundPhase(s, round) == Some(BettingOpen)
    case ResolveRound(round, dice) => RoundPhase(s, round) == Some(BettingClosed) && 1 <= dice <= 6
    case PlaceBet(_, p, round, _, _, origin) =>
      Contains(s.players, p) && origin == BettingOpen && round in s.roundViews && funded
    case ApplyPayout(pid, _, _, _) => pid !in s.payouts
    case TransferRights(_, _, _, _) => funded
    case _ => true
  }

  ghost predicate Accepts(s: State, op: Operation) {
    Admits(s, op, Funded(s, op))
  }

  /** The only effect an operation has on a player's counter. */
  function CounterAfter(s: State, op: Operation, accepted: bool, p: PlayerId): Counter {
    var c := CounterOf(s, p);
    match op.kind
    case JoinTable(q, _, _, _) => if q == p then c.(initial := MergeMax(c.initial, JoinRights(op))) else c
    case PlaceBet(_, q, _, amount, _, _) =>
      if q == p && accepted then RecordSpend(c, op.id, op.replica, amount) else c
    case ApplyPayout(pid, q, _, amount) =>
      if q == p && accepted then Grant(c, pid, op.replica, amount) else c
    case TransferRights(q, from, to, amount) =>
      if q == p && accepted then RecordTransfer(c, op.id, from, to, amount) else c
    case _ => c
  }

  /** The only effect an operation has on a player's balance. */
  function BalanceAfter(s: State, op: Operation, accepted: bool, p: PlayerId): PNCounter {
    var b := BalanceOf(s, p);
    match op.kind
    case JoinTable(q, _, chips, _) => if q == p then Increment(b, op.replica, chips) else b
    case PlaceBet(_, q, _, amount, _, _) => if q == p && accepted then Decrement(b, op.replica, amount) else b
    case ApplyPayout(_, q, _, amount) => if q == p && accepted then Increment(b, op.replica, amount) else b
    case _ => b
  }

  /** What an operation does, seen through the queries: it is recorded as rejected
      exactly when it is not accepted, and an accepted one changes its player's
      counter, its player's balance and the applied payouts, and nothing else of these. */
  ghost predicate Effect(s: State, op: Operation, accepted: bool, t: State, p: PlayerId) {
    && t.rejected.Keys == (if accepted then s.rejected.Keys else s.rejected.Keys + {op.id})
    && CounterOf(t, p) == CounterAfter(s, op, accepted, p)
    && BalanceOf(t, p) == BalanceAfter(s, op, accepted, p)
    && t.payouts == if op.kind.ApplyPayout? then s.payouts + {op.kind.payout} else s.payouts
  }

  /** A rejection changes nothing but the record (and may leave an empty counter behind). */
  lemma RejectEffect(s: State, op: Operation, reason: Reason, p: PlayerId, q: PlayerId)
    requires !op.kind.JoinTable?
    requires op.kind.ApplyPayout? ==> op.kind.payout in s.payouts
    ensures Effect(s, op, false, Reject(s, op, reason), p)
    ensures Effect(s, op, false, Reject(s.(rights := s.rights[q := CounterOf(s, q)]), op, reason), p)
  {
  }

  lemma BetEffect(s: State, op: Operation, funded: bool, p: PlayerId)
    requires op.kind.PlaceBet?
    ensures Effect(s, op, Admits(s, op, funded), ApplyBet(s, op, funded), p)
  {
    if !Admits(s, op, funded) {
      var reason := if !Contains(s.players, op.kind.player) then NotJoined
                    else if op.kind.originPhase != BettingOpen then OriginNotOpen
                    else if op.kind.round !in s.roundViews then NoSuchRound else NoRights;
      RejectEffect(s, op, reason, p, op.kind.player);
    }
  }

  lemma TransferEffect(s: State, op: Operation, funded: bool, p: PlayerId)
    requires op.kind.TransferRights?
    ensures Effect(s, op, Admits(s, op, funded), ApplyTransfer(s, op, funded), p)
  {
    if !funded {
      RejectEffect(s, op, NoRightsToTransfer, p, op.kind.player);
    }
  }

  lemma JoinEffect(s: State, op: Operation, p: PlayerId)
    requires op.kind.JoinTable?
    ensures Effect(s, op, true, ApplyJoin(s, op), p)
  {
  }

  lemma PayoutEffect(s: State, op: Operation, p: PlayerId)
    requires op.kind.ApplyPayout?
    ensures Effect(s, op, Admits(s, op, true), ApplyPayoutOp(s, op), p)
  {
    if op.kind.payout in s.payouts {
      RejectEffect(s, op, DuplicatePayout, p, p);
    }
  }

  lemma OpenEffect(s: State, op: Operation, p: PlayerId)
    requires op.kind.OpenBetting?
    ensures Effect(s, op, Admits(s, op, true), ApplyOpen(s, op), p)
  {
    if !Admits(s, op, true) {
      RejectEffect(s, op, if op.kind.round in s.roundViews then BadOpen else NoSuchRound, p, p);
    }
  }

  lemma CloseEffect(s: State, op: Operation, p: PlayerId)
    requires op.kind.CloseBetting?
    ensures Effect(s, op, Admits(s, op, true), ApplyClose(s, op), p)
  {
    if !Admits(s, op, true) {
      RejectEffect(s, op, if op.kind.round in s.roundViews then BadClose else NoSuchRound, p, p);
    }
  }

  lemma ResolveEffect(s: State, op: Operation, p: PlayerId)
    requires op.kind.ResolveRound?
    ensures Effect(s, op, Admits(s, op, true), ApplyResolve(s, op), p)
  {
    if !Admits(s, op, true) {
      RejectEffect(s, op, if op.kind.round in s.roundViews then BadResolve else NoSuchRound, p, p);
    }
  }

  lemma PlainEffect(s: State, op: Operation, p: PlayerId)
    requires op.kind.CreateTable? || op.kind.LeaveTable? || op.kind.CreateRound?
    ensures Effect(s, op, true, Apply(s, op, true), p)
  {
  }

  lemma ApplyEffect(s: State, op: Operation, funded: bool, p: PlayerId)
    ensures Effect(s, op, Admits(s, op, funded), Apply(s, op, funded), p)
  {
    match op.kind
    case CreateTable(_) => PlainEffect(s, op, p);
    case JoinTable(_, _, _, _) => JoinEffect(s, op, p);
    case LeaveTable(_) => PlainEffect(s, op, p);
    case CreateRound(_, _) => PlainEffect(s, op, p);
    case OpenBetting(_) => OpenEffect(s, op, p);
    case PlaceBet(_, _, _, _, _, _) => BetEffect(s, op, funded, p);
    case CloseBetting(_) => CloseEffect(s, op, p);
    case ResolveRound(_, _) => ResolveEffect(s, op, p);
    case ApplyPayout(_, _, _, _) => PayoutEffect(s, op, p);
    case TransferRights(_, _, _, _) => TransferEffect(s, op, funded, p);
  }

  // ---- what each branch leaves alone ----

  lemma RoundFrame(s: State, op: Operation)
    ensures op.kind.OpenBetting? ==>
              ApplyOpen(s, op) == s.(roundViews := ApplyOpen(s, op).roundViews, rejected := ApplyOpen(s, op).rejected)
    ensures op.kind.CloseBetting? ==>
              ApplyClose(s, op) == s.(roundViews := ApplyClose(s, op).roundViews,
                                      rejected := ApplyClose(s, op).rejected)
    ensures op.kind.ResolveRound? ==>
              ApplyResolve(s, op)
              == s.(roundViews := ApplyResolve(s, op).roundViews, rejected := ApplyResolve(s, op).rejected)
  {
  }

  lemma BetFrame(s: State, op: Operation, funded: bool)
    requires op.kind.PlaceBet?
    ensures var t := ApplyBet(s, op, funded);
            t == s.(rights := t.rights, balances := t.balances, bets := t.bets, rejected := t.rejected)
  {
  }

  lemma PayoutFrame(s: State, op: Operation)
    requires op.kind.ApplyPayout?
    ensures var t := ApplyPayoutOp(s, op);
            t == s.(payouts := t.payouts, balances := t.balances, rights := t.rights, rejected := t.rejected)
  {
  }

  lemma TransferFrame(s: State, op: Operation, funded: bool)
    requires op.kind.TransferRights?
    ensures var t := ApplyTransfer(s, op, funded); t == s.(rights := t.rights, rejected := t.rejected)
  {
  }

  /** The registers and sets that only creations, joins, leaves and bets touch. */
  ghost predicate SameViews(s: State, t: State) {
    t.tableName == s.tableName && t.players == s.players && t.playerNames == s.playerNames && t.bets == s.bets
  }

  lemma LedgerOpsKeepViews(s: State, op: Operation, funded: bool)
    requires !op.kind.CreateTable? && !op.kind.JoinTable? && !op.kind.LeaveTable? && !op.kind.PlaceBet?
    ensures SameViews(s, Apply(s, op, funded))
  {
    match op.kind
    case CreateRound(_, _) =>
    case OpenBetting(_) => RoundFrame(s, op);
    case CloseBetting(_) => RoundFrame(s, op);
    case ResolveRound(_, _) => RoundFrame(s, op);
    case ApplyPayout(_, _, _, _) => PayoutFrame(s, op);
    case TransferRights(_, _, _, _) => TransferFrame(s, op, funded);
  }
}
