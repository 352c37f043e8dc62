/** Bets are only placed while betting is open: in every run, whoever recorded a bet had
    accepted the opening of its round and no closing. */
module OpenBets {
  import opened Operations
  import opened BetState
  import opened Replays
  import opened RoundHistory
  import opened Durability
  import opened MachineDurability
  import opened OneResolver

  /** The issuer of x held an open round, and x says so. */
  ghost predicate SawOpen(x: Operation, seen: set<Operation>)
    requires x.kind.PlaceBet?
  {
    && x.kind.originPhase == BettingOpen
    && RoundPhase(Replay(seen), x.kind.round) == Some(BettingOpen)
    && Accepted(Replay(seen), seen, OpenBetting(x.kind.round))
    && !Accepted(Replay(seen), seen, CloseBetting(x.kind.round))
  }

  lemma HistorySawOpen(born: map<Operation, set<Operation>>, x: Operation)
    requires History(born) && x in born && x.kind.PlaceBet?
    ensures SawOpen(x, born[x])
  {
    assert WasOffered(born, x) && CausallyClosed(born[x], born);
    assert born[x] <= born.Keys && DistinctIds(born[x]);
    OpenExactly(born[x], x.kind.round);
  }

  /** In every run of the clients. */
  lemma BetsSawOpen(events: seq<Event>, x: Operation)
    requires Possible(events) && x in Execute(events).born && x.kind.PlaceBet?
    ensures SawOpen(x, Execute(events).born[x])
  {
    Invariant(events);
    HistorySawOpen(Execute(events).born, x);
  }

  /** In every play of commands. */
  lemma PlayedBetsSawOpen(acts: seq<Act>, x: Operation)
    requires Playable(acts) && x in Play(acts).born && x.kind.PlaceBet?
    ensures SawOpen(x, Play(acts).born[x])
  {
    PlayIsSteady(acts);
    HistorySawOpen(Play(acts).born, x);
  }

  /** And in every run of clients that decide with machine arithmetic. */
  lemma MachineBetsSawOpen(events: seq<Event>, x: Operation)
    requires MachinePossible(events) && x in Execute(events).born && x.kind.PlaceBet?
    ensures SawOpen(x, Execute(events).born[x])
  {
    MachineRunsAreRuns(events);
    BetsSawOpen(events, x);
  }
}
