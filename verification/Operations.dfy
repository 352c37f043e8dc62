/** The vocabulary of the ledger: identifiers, bets, rounds and the operations
    that replicas record and exchange (src/sync/operation.rs, src/domain/bet.rs,
    src/domain/round.rs).

    Identifiers are natural numbers: the program compares id strings only for
    equality and for their total order.  The empty replica id "" is 0. */
module Operations {

  newtype ReplicaId = x: int | 0 <= x
  newtype OpId = x: int | 0 <= x
  newtype PlayerId = x: int | 0 <= x
  newtype RoundId = x: int | 0 <= x
  newtype BetId = x: int | 0 <= x

  datatype Option<+T> = None | Some(value: T)

  /** "payout:{round}:{bet}" */
  datatype PayoutId = PayoutId(round: RoundId, bet: BetId)

  datatype BetKind = Odd | Even | High | Low | Exact(face: nat) {
    predicate Wins(dice: nat) {
      match this
      case Odd => dice % 2 == 1
      case Even => dice % 2 == 0
      case High => 4 <= dice <= 6
      case Low => 1 <= dice <= 3
      case Exact(face) => face == dice
    }

    function Multiplier(): nat {
      if Exact? then 6 else 2
    }
  }

  datatype Bet = Bet(id: BetId, player: PlayerId, round: RoundId, amount: nat,
                     kind: BetKind, origin: ReplicaId, originTime: nat)
  {
    function Prize(): nat {
      amount * kind.Multiplier()
    }
  }

  datatype Phase = Created | BettingOpen | BettingClosed | Resolved

  datatype RoundView = RoundView(id: RoundId, dealer: PlayerId, phase: Phase, result: Option<nat>)

  datatype Kind =
    | CreateTable(name: string)
    | JoinTable(player: PlayerId, displayName: string, chips: nat, rights: map<ReplicaId, nat>)
    | LeaveTable(player: PlayerId)
    | CreateRound(round: RoundId, dealer: PlayerId)
    | OpenBetting(round: RoundId)
    | PlaceBet(bet: BetId, player: PlayerId, round: RoundId, amount: nat, betKind: BetKind, originPhase: Phase)
    | CloseBetting(round: RoundId)
    | ResolveRound(round: RoundId, dice: nat)
    | ApplyPayout(payout: PayoutId, player: PlayerId, round: RoundId, amount: nat)
    | TransferRights(player: PlayerId, from: ReplicaId, to: ReplicaId, amount: nat)

  datatype Operation = Operation(id: OpId, replica: ReplicaId, time: nat, kind: Kind)

  /** The sort key of the replay: (lamport_time, replica_id, op_id). */
  predicate Before(a: Operation, b: Operation) {
    || a.time < b.time
    || (a.time == b.time && a.replica < b.replica)
    || (a.time == b.time && a.replica == b.replica && a.id < b.id)
  }

  /** An operation id determines its operation. */
  ghost predicate DistinctIds(ops: set<Operation>) {
    forall a, b :: a in ops && b in ops && a.id == b.id ==> a == b
  }

  function Ids(ops: set<Operation>): (ids: set<OpId>)
    ensures forall x :: x in ops ==> x.id in ids
    ensures forall id :: id in ids ==> exists x :: x in ops && x.id == id
  {
    set x | x in ops :: x.id
  }

  function Elems<T(!new)>(s: seq<T>): (r: set<T>)
    ensures forall x :: x in r <==> x in s
  {
    set x | x in s
  }
}
