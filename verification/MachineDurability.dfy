/** Durable acceptance for the program's own arithmetic: clients that decide with casts and
    overflowing i64 sums, and replays that either overflow or give the model's state. */
module MachineDurability {
  import opened Operations
  import opened MapSums
  import opened Counters
  import opened Merges
  import opened BetState
  import opened Replays
  import opened Accounting
  import opened Ledgers
  import opened Durability
  import opened MachineArithmetic

  // ---- clients that decide with machine arithmetic ----

  /** available_rights. */
  ghost function AvailableRightsI64(s: State, p: PlayerId, r: ReplicaId): Option<int> {
    if p in s.rights then AvailableI64(s.rights[p], r) else Some(0)
  }

  /** What place_bet and transfer_spending_rights check, on a state replayed and read with
      machine integers. */
  ghost predicate MachineOffered(log: set<Operation>, op: Operation) {
    && MachineReplay(log).Some?
    && var s := MachineReplay(log).value;
       match op.kind
       case PlaceBet(_, p, round, amount, _, origin) =>
         && Contains(s.players, p) && RoundPhase(s, round) == Some(BettingOpen) && origin == BettingOpen
         && AvailableRightsI64(s, p, op.replica).Some?
         && !(AvailableRightsI64(s, p, op.replica).value < AsI64(amount))
       case TransferRights(p, from, _, amount) =>
         && from == op.replica && AvailableRightsI64(s, p, op.replica).Some?
         && !(AvailableRightsI64(s, p, op.replica).value < AsI64(amount))
       case _ => true
  }

  ghost predicate MachineEnabled(w: World, e: Event) {
    match e
    case Record(op) =>
      && op.time == ClockAt(w, op.replica) + 1
      && op.id !in Ids(w.born.Keys)
      && MachineOffered(LogAt(w, op.replica), op)
    case Receive(at, batch) => Enabled(w, e)
  }

  ghost predicate MachinePossible(events: seq<Event>) {
    events == [] || (MachinePossible(events[..|events| - 1])
                     && MachineEnabled(Execute(events[..|events| - 1]), events[|events| - 1]))
  }

  lemma ReportSome(s: State, p: PlayerId, r: ReplicaId)
    requires AvailableRightsI64(s, p, r).Some?
    ensures AvailableRightsI64(s, p, r) == Some(AvailableRights(s, p, r))
  {
    if p in s.rights {
      AvailableSome(s.rights[p], r);
    }
  }

  /** What the program offers to record, the model offers. */
  lemma MachineOfferHolds(log: set<Operation>, op: Operation)
    requires MachineOffered(log, op)
    ensures Offered(Replay(log), op)
  {
    MachineReplayOrOverflow(log);
    match op.kind
    case PlaceBet(_, p, _, _, _, _) => ReportSome(Replay(log), p, op.replica);
    case TransferRights(p, _, _, _) => ReportSome(Replay(log), p, op.replica);
    case _ =>
  }

  /** And in a small log everything the model offers: nothing overflows there. */
  lemma MachineOffersExactly(log: set<Operation>, op: Operation)
    requires DistinctIds(log) && Volume(log) < TWO_63
    ensures MachineOffered(log, op) <==> Offered(Replay(log), op)
  {
    MachineReplayExact(log);
    match op.kind
    case PlaceBet(_, p, _, _, _, _) => ReportExact(log, p, op.replica);
    case TransferRights(p, _, _, _) => ReportExact(log, p, op.replica);
    case _ =>
  }

  lemma ReportExact(log: set<Operation>, p: PlayerId, r: ReplicaId)
    requires DistinctIds(log) && Volume(log) < TWO_63
    ensures AvailableRightsI64(Replay(log), p, r) == Some(AvailableRights(Replay(log), p, r))
  {
    if p in Replay(log).rights {
      ReplayVolume(log, p);
      AvailableExact(Replay(log).rights[p], r);
    }
  }

  lemma MachineStepHolds(w: World, e: Event)
    requires MachineEnabled(w, e)
    ensures Enabled(w, e)
  {
    if e.Record? {
      MachineOfferHolds(LogAt(w, e.op.replica), e.op);
    }
  }

  /** Every run of the program's clients is a run of the model. */
  lemma {:induction false} MachineRunsAreRuns(events: seq<Event>)
    requires MachinePossible(events)
    ensures Possible(events)
    decreases |events|
  {
    if events != [] {
      MachineRunsAreRuns(events[..|events| - 1]);
      MachineStepHolds(Execute(events[..|events| - 1]), events[|events| - 1]);
    }
  }

  // ---- what their replays accept ----

  /** The program replays the log without overflow and rejects no bet or transfer of p. */
  ghost predicate MachineAccepts(log: set<Operation>, p: PlayerId) {
    && MachineReplay(log).Some?
    && forall x :: x in log && (IsBet(x, p) || IsTransfer(x, p)) ==> x.id !in MachineReplay(log).value.rejected
  }

  lemma MachineAcceptsExactly(log: set<Operation>, p: PlayerId)
    ensures MachineAccepts(log, p) <==> MachineReplay(log).Some? && AllAccepted(log, p)
  {
    MachineReplayOrOverflow(log);
  }

  /** In every run of the program's clients in which issuers are informed: every causally
      closed log is replayed without overflow and rejects no bet or transfer of p if and
      only if the leaves of p are outlived and no such log overflows.  And as long as the
      leaves are outlived, whatever does not overflow rejects nothing. */
  lemma {:induction false} MachineDurable(events: seq<Event>, p: PlayerId)
    requires MachinePossible(events)
    requires Informed(Execute(events).born, Execute(events).born.Keys, p)
    ensures var born := Execute(events).born;
            (forall log :: CausallyClosed(log, born) ==> MachineAccepts(log, p))
            <==> LeavesOutlived(born, born.Keys, p)
                 && (forall log :: CausallyClosed(log, born) ==> MachineReplay(log).Some?)
    ensures var born := Execute(events).born;
            LeavesOutlived(born, born.Keys, p) ==>
              forall log :: CausallyClosed(log, born) && MachineReplay(log).Some? ==> MachineAccepts(log, p)
  {
    var born := Execute(events).born;
    MachineRunsAreRuns(events);
    DurableAcceptance(events, p);
    forall log | CausallyClosed(log, born)
      ensures MachineAccepts(log, p) <==> MachineReplay(log).Some? && AllAccepted(log, p)
    {
      MachineAcceptsExactly(log, p);
    }
  }

  /** Below a total of 2^63 nothing overflows, and all income is known. */
  lemma {:induction false} SmallRunIsDurable(events: seq<Event>, p: PlayerId)
    requires MachinePossible(events) && Volume(Execute(events).born.Keys) < TWO_63
    requires KnownPayouts(Execute(events).born, Execute(events).born.Keys, p)
    ensures var born := Execute(events).born;
            (forall log :: CausallyClosed(log, born) ==> MachineAccepts(log, p)) <==> LeavesOutlived(born, born.Keys, p)
  {
    var born := Execute(events).born;
    MachineRunsAreRuns(events);
    Invariant(events);
    SmallVolumeIsKnown(born, p);
    MachineDurable(events, p);
    forall log | CausallyClosed(log, born) ensures MachineReplay(log).Some? {
      assert log <= born.Keys && DistinctIds(log);
      VolumeMono(log, born.Keys);
      MachineReplayExact(log);
    }
  }

  lemma VolumeMono(small: set<Operation>, large: set<Operation>)
    requires small <= large
    ensures Volume(small) <= Volume(large)
  {
    SumMono(map x | x in small :: Weight(x), map x | x in large :: Weight(x));
  }

  lemma SmallVolumeIsKnown(born: map<Operation, set<Operation>>, p: PlayerId)
    requires Volume(born.Keys) < TWO_63
    ensures KnownIncome(born, born.Keys, p)
  {
    forall x, r | x in born ensures !WrapsAt(x, p, r) {
      WeightBound(born.Keys, x);
      if IsJoin(x, p) {
        GivenWithinWeight(x, r);
      }
    }
  }

  lemma GivenWithinWeight(x: Operation, r: ReplicaId)
    requires x.kind.JoinTable?
    ensures GivenTo(x, r) <= Weight(x)
  {
    JoinWeight(x);
    InitialBound(EMPTY_COUNTER.(initial := JoinRights(x)), r);
  }
}
