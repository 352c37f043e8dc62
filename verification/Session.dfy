/** The command line of a client (src/main.rs): what its commands record while it is
    offline is what it sends, in order, when it goes online. */
module Session {
  import opened Operations
  import opened MapSums
  import opened BetState
  import opened ClientObjects

  /** The commands that record; a bet comes with the id that it is given. */
  datatype Command =
    | NewTable(name: string)
    | Join(player: PlayerId, displayName: string)
    | JoinSplit(player: PlayerId, displayName: string, rights: map<ReplicaId, nat>)
    | StartRound(round: RoundId, dealer: PlayerId)
    | Wager(player: PlayerId, round: RoundId, amount: nat, betKind: BetKind, betId: BetId)
    | CloseRound(round: RoundId)
    | Resolve(round: RoundId, dice: nat)
    | SendRights(player: PlayerId, to: ReplicaId, amount: nat)

  method SumRights(rights: map<ReplicaId, nat>) returns (total: nat)
    ensures total == Sum<ReplicaId>(rights)
  {
    total := 0;
    var left := rights;
    while left != map[]
      invariant total + Sum<ReplicaId>(left) == Sum<ReplicaId>(rights)
      decreases |left|
    {
      var r :| r in left;
      SumRemove<ReplicaId>(left, r);
      total, left := total + left[r], left - {r};
    }
  }

  /** What a command records, as the state s of replica r allows. */
  ghost predicate Carries(c: Command, s: State, r: ReplicaId, recorded: seq<Operation>) {
    match c
    case NewTable(name) => Single(recorded, CreateTable(name))
    case Join(player, displayName) => Single(recorded, JoinTable(player, displayName, 100, map[r := 100]))
    case JoinSplit(player, displayName, rights) =>
      |recorded| == 1 && recorded[0].kind.JoinTable? && recorded[0].kind.chips == Sum<ReplicaId>(rights)
      && Single(recorded, JoinTable(player, displayName, recorded[0].kind.chips, rights))
    case StartRound(round, dealer) =>
      |recorded| == 2 && recorded[0].kind == CreateRound(round, dealer) && recorded[1].kind == OpenBetting(round)
    case Wager(player, round, amount, betKind, betId) =>
      if MayBet(s, r, player, round, amount)
      then Single(recorded, PlaceBet(betId, player, round, amount, betKind, BettingOpen)) else recorded == []
    case CloseRound(round) =>
      if RoundPhase(s, round) == Some(BettingOpen) then Single(recorded, CloseBetting(round)) else recorded == []
    case Resolve(round, dice) =>
      if RoundPhase(s, round) == Some(BettingClosed) && 1 <= dice <= 6
      then recorded != [] && recorded[0].kind.ResolveRound? && recorded[0].kind.round == round else recorded == []
    case SendRights(player, to, amount) =>
      if AsI64(amount) <= AvailableRights(s, player, r)
      then Single(recorded, TransferRights(player, r, to, amount)) else recorded == []
  }

  ghost predicate Single(recorded: seq<Operation>, kind: Kind) {
    |recorded| == 1 && recorded[0].kind == kind
  }

  /** Neither join command hands out more rights than chips. */
  lemma JoinsAreBacked(c: Command, s: State, r: ReplicaId, recorded: seq<Operation>)
    requires Carries(c, s, r, recorded) && (c.Join? || c.JoinSplit?) && recorded[0].replica == r
    ensures recorded[0].kind.JoinTable? && Sum<ReplicaId>(JoinRights(recorded[0])) == recorded[0].kind.chips
  {
    AllChips(r, recorded[0].kind.chips);
  }

  lemma AllChips(r: ReplicaId, chips: nat)
    ensures Sum<ReplicaId>(map[r := chips]) == chips
  {
    SumPut<ReplicaId>(map[], r, chips);
    assert map[][r := chips] == map[r := chips];
  }

  /** One command; it stops the client where resolve_round overflows. */
  method Execute(client: LocalClient, c: Command) returns (ok: bool)
    requires client.Valid()
    modifies client`state, client`unsynced, client.clock, client.log
    ensures client.Valid() && (ok || c.Resolve?)
    ensures Queued(old(client.log.operations), client.log.operations, old(client.unsynced), client.unsynced,
                   client.online)
    ensures Carries(c, old(client.state.Model()), client.replica,
                    client.log.operations[|old(client.log.operations)|..])
  {
    ok := true;
    match c
    case NewTable(name) =>
      var _ := client.CreateTable(name);
    case Join(player, displayName) =>
      var _ := client.JoinTable(player, displayName, 100);
    case JoinSplit(player, displayName, rights) =>
      var chips := SumRights(rights);
      var _ := client.JoinTableWithRights(player, displayName, chips, rights);
    case StartRound(round, dealer) =>
      ghost var log0, queue0 := client.log.operations, client.unsynced;
      var ops := client.StartRound(round, dealer);
      QueuedAll(log0, ops, queue0, client.online);
    case Wager(player, round, amount, betKind, betId) =>
      var _ := client.PlaceBet(player, round, amount, betKind, betId);
    case CloseRound(round) =>
      var _ := client.CloseBetting(round);
    case Resolve(round, dice) =>
      var result := client.ResolveRound(round, dice);
      ok := !result.Overflow?;
    case SendRights(player, to, amount) =>
      var _ := client.TransferSpendingRights(player, to, amount);
  }

  /** Going offline, any commands, going online again: what is sent is what was queued
      before and then everything that was recorded, in order. */
  method OfflineSession(client: LocalClient, commands: seq<Command>) returns (ok: bool, sent: seq<Operation>)
    requires client.Valid()
    modifies client`online, client`state, client`unsynced, client.clock, client.log
    ensures client.Valid() && old(client.log.operations) <= client.log.operations
    ensures ok ==>
              && client.online && client.unsynced == []
              && sent == old(client.unsynced) + client.log.operations[|old(client.log.operations)|..]
  {
    client.SetOnline(false);
    ok, sent := true, [];
    for i := 0 to |commands|
      invariant client.Valid() && !client.online
      invariant Queued(old(client.log.operations), client.log.operations, old(client.unsynced), client.unsynced, false)
    {
      ghost var log1, queue1 := client.log.operations, client.unsynced;
      ok := Execute(client, commands[i]);
      QueuedOn(old(client.log.operations), log1, client.log.operations, old(client.unsynced), queue1,
               client.unsynced, false);
      if !ok {
        return;
      }
    }
    client.SetOnline(true);
    sent := client.TakeUnsynced();
  }

  lemma QueuedOn(log: seq<Operation>, log': seq<Operation>, log'': seq<Operation>,
                 queue: seq<Operation>, queue': seq<Operation>, queue'': seq<Operation>, online: bool)
    requires Queued(log, log', queue, queue', online) && Queued(log', log'', queue', queue'', online)
    ensures Queued(log, log'', queue, queue'', online)
  {
    assert log''[|log|..] == log'[|log|..] + log''[|log'|..];
  }
}
