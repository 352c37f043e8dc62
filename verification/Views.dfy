/** The replayed registers and sets refine simple specifications over the log:
    who sits at the table, which bets are visible, which rounds exist, what the
    table is called - and from these, when a bet is accepted. */
module Views {
  import opened Operations
  import opened MapSums
  import opened Counters
  import opened Merges
  import opened BetState
  import opened Replays
  import opened Accounting

  // ---- players: some join follows every leave ----

  ghost predicate Seated(ops: set<Operation>, p: PlayerId) {
    exists j :: j in ops && IsJoin(j, p) && forall l :: l in ops && IsLeave(l, p) ==> !Before(j, l)
  }

  ghost function JoinIds(ops: set<Operation>, p: PlayerId): set<OpId> {
    set j | j in ops && IsJoin(j, p) :: j.id
  }

  ghost predicate Departed(ops: set<Operation>, j: Operation, p: PlayerId) {
    exists l :: l in ops && IsLeave(l, p) && Before(j, l)
  }

  ghost function DepartedIds(ops: set<Operation>, p: PlayerId): set<OpId> {
    set j | j in ops && IsJoin(j, p) && Departed(ops, j, p) :: j.id
  }

  ghost predicate TagsMatch(players: OrSet<PlayerId>, ops: set<Operation>, p: PlayerId) {
    TagsIn(players.adds, p) == JoinIds(ops, p) && TagsIn(players.removes, p) == DepartedIds(ops, p)
  }

  function PlayersAfter(players: OrSet<PlayerId>, x: Operation): OrSet<PlayerId> {
    match x.kind
    case JoinTable(p, _, _, _) => Add(players, p, x.id)
    case LeaveTable(p) => RemoveObserved(players, p)
    case _ => players
  }

  lemma StepPlayers(s: State, x: Operation)
    ensures Step(s, x).players == PlayersAfter(s.players, x)
  {
    var funded := Funded(s, x);
    match x.kind
    case CreateTable(_) =>
    case JoinTable(_, _, _, _) =>
    case LeaveTable(_) =>
    case PlaceBet(_, _, _, _, _, _) => BetFrame(s, x, funded);
    case _ => LedgerOpsKeepViews(s, x, funded);
  }

  lemma IdsAfter(ops: set<Operation>, x: Operation, p: PlayerId)
    requires Appends(ops, x)
    ensures JoinIds(ops + {x}, p) == if IsJoin(x, p) then JoinIds(ops, p) + {x.id} else JoinIds(ops, p)
    ensures DepartedIds(ops + {x}, p) == if IsLeave(x, p) then JoinIds(ops, p) else DepartedIds(ops, p)
  {
    forall j | j in ops + {x} && IsJoin(j, p)
      ensures Departed(ops + {x}, j, p) <==> j in ops && (IsLeave(x, p) || Departed(ops, j, p))
    {
      if Departed(ops, j, p) {
        var l :| l in ops && IsLeave(l, p) && Before(j, l);
        assert l in ops + {x};
      }
      if IsLeave(x, p) {
        assert x in ops + {x} && Before(j, x);
      }
    }
  }

  lemma DepartedAreJoined(ops: set<Operation>, p: PlayerId)
    ensures DepartedIds(ops, p) <= JoinIds(ops, p)
  {
  }

  lemma TagsStep(players: OrSet<PlayerId>, ops: set<Operation>, x: Operation, p: PlayerId)
    requires Appends(ops, x) && TagsMatch(players, ops, p)
    ensures TagsMatch(PlayersAfter(players, x), ops + {x}, p)
  {
    IdsAfter(ops, x, p);
    DepartedAreJoined(ops, p);
  }

  lemma {:induction false} ReplayTags(ops: set<Operation>, p: PlayerId)
    requires DistinctIds(ops)
    ensures TagsMatch(Replay(ops).players, ops, p)
    decreases |ops|
  {
    if ops != {} {
      var x := Last(ops);
      var rest := ops - {x};
      LastAppends(ops);
      ReplayTags(rest, p);
      StepPlayers(Replay(rest), x);
      TagsStep(Replay(rest).players, rest, x, p);
      assert rest + {x} == ops;
    }
  }

  /** A player is visible exactly when some join is not followed by any leave. */
  lemma {:induction false} PlayerVisible(ops: set<Operation>, p: PlayerId)
    requires DistinctIds(ops)
    ensures Contains(Replay(ops).players, p) <==> Seated(ops, p)
  {
    ReplayTags(ops, p);
    if Seated(ops, p) {
      var j :| j in ops && IsJoin(j, p) && forall l :: l in ops && IsLeave(l, p) ==> !Before(j, l);
      assert j.id in JoinIds(ops, p);
      assert j.id in VisibleTags(Replay(ops).players, p);
    }
    if Contains(Replay(ops).players, p) {
      var id :| id in VisibleTags(Replay(ops).players, p);
      var j :| j in ops && IsJoin(j, p) && j.id == id;
      assert !Departed(ops, j, p);
    }
  }

  // ---- rounds ----

  ghost predicate Opens(x: Operation, round: RoundId) {
    x.kind.CreateRound? && x.kind.round == round
  }

  /** A round exists exactly when the log creates it. */
  lemma {:induction false} RoundExists(ops: set<Operation>, round: RoundId)
    requires DistinctIds(ops)
    ensures round in Replay(ops).roundViews <==> exists x :: x in ops && Opens(x, round)
    decreases |ops|
  {
    if ops != {} {
      var x := Last(ops);
      var rest := ops - {x};
      RoundExists(rest, round);
      RankStep(Replay(rest), x, round);
      RankExists(Replay(rest), round);
      RankExists(Replay(ops), round);
      if exists y :: y in rest && Opens(y, round) {
        var y :| y in rest && Opens(y, round);
        assert y in ops;
      }
      if exists y :: y in ops && Opens(y, round) {
        var y :| y in ops && Opens(y, round);
        assert y == x || y in rest;
      }
    }
  }

  lemma RankExists(s: State, round: RoundId)
    ensures round in s.roundViews <==> 1 <= Rank(s, round)
  {
  }

  // ---- bets ----

  ghost function AcceptedBets(s: State, ops: set<Operation>): set<Bet> {
    set x | x in ops && x.kind.PlaceBet? && x.id !in s.rejected :: BetOf(x)
  }

  ghost predicate BetsMatch(bets: OrSet<Bet>, visible: set<Bet>) {
    && bets.removes == map[]
    && bets.adds.Keys == visible
    && forall b :: b in bets.adds ==> bets.adds[b] != {}
  }

  function BetsAfter(bets: OrSet<Bet>, x: Operation, accepted: bool): OrSet<Bet> {
    if x.kind.PlaceBet? && accepted then Add(bets, BetOf(x), x.id) else bets
  }

  lemma BetAddsBet(s: State, x: Operation, funded: bool)
    requires x.kind.PlaceBet?
    ensures ApplyBet(s, x, funded).bets == BetsAfter(s.bets, x, Admits(s, x, funded))
  {
  }

  lemma StepBets(s: State, x: Operation)
    ensures Step(s, x).bets == BetsAfter(s.bets, x, Accepts(s, x))
  {
    match x.kind
    case CreateTable(_) =>
    case JoinTable(_, _, _, _) =>
    case LeaveTable(_) =>
    case PlaceBet(_, _, _, _, _, _) => BetAddsBet(s, x, Funded(s, x));
    case _ => LedgerOpsKeepViews(s, x, Funded(s, x));
  }

  lemma {:induction false} AcceptedBetsAfter(ops: set<Operation>, x: Operation)
    requires Appends(ops, x)
    ensures AcceptedBets(Replay(ops + {x}), ops + {x})
         == if x.kind.PlaceBet? && Accepts(Replay(ops), x)
            then AcceptedBets(Replay(ops), ops) + {BetOf(x)} else AcceptedBets(Replay(ops), ops)
  {
    StepVerdict(ops, x);
  }

  lemma AddMatches(bets: OrSet<Bet>, visible: set<Bet>, b: Bet, tag: OpId)
    requires BetsMatch(bets, visible)
    ensures BetsMatch(Add(bets, b, tag), visible + {b})
  {
  }

  lemma {:induction false} ReplayBets(ops: set<Operation>)
    requires DistinctIds(ops)
    ensures BetsMatch(Replay(ops).bets, AcceptedBets(Replay(ops), ops))
    decreases |ops|
  {
    if ops != {} {
      var x := Last(ops);
      var rest := ops - {x};
      LastAppends(ops);
      ReplayBets(rest);
      assert rest + {x} == ops;
      AcceptedBetsAfter(rest, x);
      StepBets(Replay(rest), x);
      if x.kind.PlaceBet? {
        AddMatches(Replay(rest).bets, AcceptedBets(Replay(rest), rest), BetOf(x), x.id);
      }
    }
  }

  /** The visible bets are exactly the bets of the accepted operations. */
  lemma {:induction false} VisibleBetsAreAccepted(ops: set<Operation>)
    requires DistinctIds(ops)
    ensures VisibleBets(Replay(ops)) == AcceptedBets(Replay(ops), ops)
  {
    ReplayBets(ops);
    var bets := Replay(ops).bets;
    forall b | b in bets.adds ensures Contains(bets, b) {
      assert VisibleTags(bets, b) == bets.adds[b];
    }
  }

  ghost function BetTags(s: State, ops: set<Operation>, b: Bet): set<OpId> {
    set x | x in ops && x.kind.PlaceBet? && x.id !in s.rejected && BetOf(x) == b :: x.id
  }

  /** The tags of a bet are the ids of the accepted operations that place it. */
  lemma {:induction false} ReplayBetTags(ops: set<Operation>, b: Bet)
    requires DistinctIds(ops)
    ensures TagsIn(Replay(ops).bets.adds, b) == BetTags(Replay(ops), ops, b)
    decreases |ops|
  {
    if ops != {} {
      var x := Last(ops);
      var rest := ops - {x};
      LastAppends(ops);
      ReplayBetTags(rest, b);
      StepBets(Replay(rest), x);
      BetTagsStep(rest, x, b);
      assert rest + {x} == ops;
    }
  }

  lemma BetTagsStep(ops: set<Operation>, x: Operation, b: Bet)
    requires Appends(ops, x)
    ensures BetTags(Replay(ops + {x}), ops + {x}, b)
         == if x.kind.PlaceBet? && Accepts(Replay(ops), x) && BetOf(x) == b
            then BetTags(Replay(ops), ops, b) + {x.id} else BetTags(Replay(ops), ops, b)
  {
    StepVerdict(ops, x);
    SameTags(Replay(ops), Replay(ops + {x}), ops, x, b);
  }

  lemma SameTags(s: State, t: State, ops: set<Operation>, x: Operation, b: Bet)
    requires forall y :: y in ops ==> (y.id in t.rejected <==> y.id in s.rejected)
    ensures BetTags(t, ops + {x}, b)
         == if x.kind.PlaceBet? && x.id !in t.rejected && BetOf(x) == b then BetTags(s, ops, b) + {x.id}
            else BetTags(s, ops, b)
  {
  }

  /** x is an operation that places the bet b, field by field. */
  predicate Places(x: Operation, b: Bet) {
    && x.kind.PlaceBet? && x.kind.bet == b.id && x.kind.player == b.player && x.kind.round == b.round
    && x.kind.amount == b.amount && x.kind.betKind == b.kind && x.replica == b.origin && x.time == b.originTime
  }

  /** So a bet is visible exactly when an accepted operation places it as it is. */
  lemma VisibleExactly(ops: set<Operation>, b: Bet)
    requires DistinctIds(ops)
    ensures b in VisibleBets(Replay(ops)) <==> exists x :: x in ops && Places(x, b) && x.id !in Replay(ops).rejected
  {
    VisibleBetsAreAccepted(ops);
    if b in VisibleBets(Replay(ops)) {
      var x :| x in ops && x.kind.PlaceBet? && x.id !in Replay(ops).rejected && BetOf(x) == b;
      assert Places(x, b);
    }
    if x :| x in ops && Places(x, b) && x.id !in Replay(ops).rejected {
      assert BetOf(x) == b;
    }
  }

  // ---- the visible bets add up to the spends ----

  /** A bet id is used once. */
  ghost predicate DistinctBets(ops: set<Operation>) {
    forall x, y :: x in ops && y in ops && x.kind.PlaceBet? && y.kind.PlaceBet? && x.kind.bet == y.kind.bet ==> x == y
  }

  ghost function Stakes(bets: set<Bet>, p: PlayerId, r: ReplicaId): map<Bet, int> {
    map b | b in bets && b.player == p && b.origin == r :: b.amount
  }

  lemma {:induction false} StakesAreSpends(ops: set<Operation>, p: PlayerId, r: ReplicaId)
    requires DistinctIds(ops) && DistinctBets(ops)
    ensures Sum(Stakes(AcceptedBets(Replay(ops), ops), p, r)) == Held(CounterOf(Replay(ops), p).spends, r)
    decreases |ops|
  {
    if ops == {} {
      assert Stakes({}, p, r) == map[];
      assert Owned<OpId>(map[], r) == map[];
    } else {
      var x := Last(ops);
      var rest := ops - {x};
      var s := Replay(rest);
      LastAppends(ops);
      StakesAreSpends(rest, p, r);
      assert rest + {x} == ops;
      AcceptedBetsAfter(rest, x);
      SpendsAfter(rest, x, p);
      NewBet(rest, x);
      StakesStep(AcceptedBets(s, rest), CounterOf(s, p).spends, x, Accepts(s, x), p, r);
    }
  }

  lemma SpendsAfter(ops: set<Operation>, x: Operation, p: PlayerId)
    requires Appends(ops, x)
    ensures x.id !in CounterOf(Replay(ops), p).spends
    ensures CounterOf(Replay(ops + {x}), p).spends
         == if IsBet(x, p) && Accepts(Replay(ops), x)
            then CounterOf(Replay(ops), p).spends[x.id := Entry(x.replica, x.kind.amount)]
            else CounterOf(Replay(ops), p).spends
  {
    var s := Replay(ops);
    ReplayExtend(ops, x);
    ReplayAccounted(ops, p);
    IdsAreNew(s, ops, x, p);
    ApplyEffect(s, x, Funded(s, x), p);
    MapsAfter(s, x, Accepts(s, x), p);
  }

  lemma NewBet(ops: set<Operation>, x: Operation)
    requires x !in ops && DistinctBets(ops + {x})
    ensures x.kind.PlaceBet? ==> BetOf(x) !in AcceptedBets(Replay(ops), ops)
  {
  }

  lemma StakesStep(bets: set<Bet>, spends: map<OpId, Entry>, x: Operation, accepted: bool, p: PlayerId, r: ReplicaId)
    requires Sum(Stakes(bets, p, r)) == Held(spends, r)
    requires x.id !in spends && (x.kind.PlaceBet? ==> BetOf(x) !in bets)
    ensures Sum(Stakes(if x.kind.PlaceBet? && accepted then bets + {BetOf(x)} else bets, p, r))
         == Held(if IsBet(x, p) && accepted then spends[x.id := Entry(x.replica, x.kind.amount)] else spends, r)
  {
    if x.kind.PlaceBet? && accepted {
      StakesAfter(bets, BetOf(x), p, r);
      HeldPut(spends, x.id, Entry(x.replica, x.kind.amount), r);
    }
  }

  lemma StakesAfter(bets: set<Bet>, b: Bet, p: PlayerId, r: ReplicaId)
    requires b !in bets
    ensures Sum(Stakes(bets + {b}, p, r))
         == Sum(Stakes(bets, p, r)) + if b.player == p && b.origin == r then b.amount else 0
  {
    if b.player == p && b.origin == r {
      assert Stakes(bets + {b}, p, r) == Stakes(bets, p, r)[b := b.amount];
      SumPut(Stakes(bets, p, r), b, b.amount);
    } else {
      assert Stakes(bets + {b}, p, r) == Stakes(bets, p, r);
    }
  }

  // ---- the table name ----

  /** Whether creation c is stamped higher than creation d. */
  predicate Outstamps(c: Operation, d: Operation) {
    c.time > d.time || (c.time == d.time && c.replica > d.replica)
  }

  /** The register is the creation with the greatest (time, replica) stamp, the first
      in sort order among equal stamps; a creation stamped like the initial register
      (time 0, empty replica id) never wins. */
  ghost predicate NameMatches(name: Lww<Option<string>>, ops: set<Operation>) {
    && (forall c :: c in ops && c.kind.CreateTable? ==>
          !WinsOver(Lww(Some(c.kind.name), c.time, c.replica), name))
    && (name == Lww(None, 0, 0)
        || exists c :: c in ops && c.kind.CreateTable? && name == Lww(Some(c.kind.name), c.time, c.replica)
                       && forall d :: d in ops && d.kind.CreateTable? && d.time == c.time && d.replica == c.replica
                            ==> !Before(d, c))
  }

  lemma StepName(s: State, x: Operation)
    ensures Step(s, x).tableName
         == if x.kind.CreateTable? then Assign(s.tableName, Some(x.kind.name), x.time, x.replica) else s.tableName
  {
    match x.kind
    case CreateTable(_) =>
    case JoinTable(_, _, _, _) =>
    case LeaveTable(_) =>
    case PlaceBet(_, _, _, _, _, _) => BetFrame(s, x, Funded(s, x));
    case _ => LedgerOpsKeepViews(s, x, Funded(s, x));
  }

  lemma NameStep(name: Lww<Option<string>>, ops: set<Operation>, x: Operation)
    requires Appends(ops, x) && NameMatches(name, ops)
    ensures NameMatches(if x.kind.CreateTable? then Assign(name, Some(x.kind.name), x.time, x.replica) else name,
                        ops + {x})
  {
    var name' := if x.kind.CreateTable? then Assign(name, Some(x.kind.name), x.time, x.replica) else name;
    if name' == name && name != Lww(None, 0, 0) {
      var c :| c in ops && c.kind.CreateTable? && name == Lww(Some(c.kind.name), c.time, c.replica)
               && forall d :: d in ops && d.kind.CreateTable? && d.time == c.time && d.replica == c.replica
                    ==> !Before(d, c);
      assert c in ops + {x} && !Before(x, c);
    } else if name' != name {
      assert x in ops + {x};
    }
  }

  lemma {:induction false} ReplayName(ops: set<Operation>)
    requires DistinctIds(ops)
    ensures NameMatches(Replay(ops).tableName, ops)
    decreases |ops|
  {
    if ops != {} {
      var x := Last(ops);
      var rest := ops - {x};
      LastAppends(ops);
      ReplayName(rest);
      StepName(Replay(rest), x);
      NameStep(Replay(rest).tableName, rest, x);
      assert rest + {x} == ops;
    }
  }

  /** With Lamport times from 1 up, the table is called what the highest-stamped
      creation says. */
  lemma {:induction false} TableName(ops: set<Operation>, c: Operation)
    requires DistinctIds(ops) && c in ops && c.kind.CreateTable? && 1 <= c.time
    requires forall d :: d in ops && d.kind.CreateTable? && d != c ==> Outstamps(c, d)
    ensures Replay(ops).tableName == Lww(Some(c.kind.name), c.time, c.replica)
  {
    ReplayName(ops);
  }

  // ---- display names ----

  ghost predicate DisplayMatches(names: map<PlayerId, Lww<string>>, ops: set<Operation>, p: PlayerId) {
    && (p in names <==> exists j :: j in ops && IsJoin(j, p))
    && (p in names ==>
          && (forall j :: j in ops && IsJoin(j, p) ==> !WinsOver(Lww(j.kind.displayName, j.time, j.replica), names[p]))
          && exists j :: j in ops && IsJoin(j, p) && names[p] == Lww(j.kind.displayName, j.time, j.replica)
                         && forall i :: i in ops && IsJoin(i, p) && i.time == j.time && i.replica == j.replica
                              ==> !Before(i, j))
  }

  lemma StepDisplay(s: State, x: Operation)
    ensures Step(s, x).playerNames
         == if x.kind.JoinTable? then s.playerNames[x.kind.player := NameAfterJoin(s, x)] else s.playerNames
  {
    match x.kind
    case CreateTable(_) =>
    case JoinTable(_, _, _, _) =>
    case LeaveTable(_) =>
    case PlaceBet(_, _, _, _, _, _) => BetFrame(s, x, Funded(s, x));
    case _ => LedgerOpsKeepViews(s, x, Funded(s, x));
  }

  lemma JoinDisplay(s: State, ops: set<Operation>, x: Operation, p: PlayerId)
    requires Appends(ops, x) && DisplayMatches(s.playerNames, ops, p) && IsJoin(x, p)
    ensures DisplayMatches(s.playerNames[p := NameAfterJoin(s, x)], ops + {x}, p)
  {
    var name := NameAfterJoin(s, x);
    assert x in ops + {x};
    if p in s.playerNames && name == s.playerNames[p] {
      var j :| j in ops && IsJoin(j, p) && name == Lww(j.kind.displayName, j.time, j.replica)
               && forall i :: i in ops && IsJoin(i, p) && i.time == j.time && i.replica == j.replica ==> !Before(i, j);
      assert j in ops + {x} && !Before(x, j);
    }
  }

  lemma OtherDisplay(names: map<PlayerId, Lww<string>>, names': map<PlayerId, Lww<string>>, ops: set<Operation>,
                     x: Operation, p: PlayerId)
    requires DisplayMatches(names, ops, p) && !IsJoin(x, p)
    requires p in names' <==> p in names
    requires p in names ==> names'[p] == names[p]
    ensures DisplayMatches(names', ops + {x}, p)
  {
    if p in names {
      var j :| j in ops && IsJoin(j, p) && names[p] == Lww(j.kind.displayName, j.time, j.replica)
               && forall i :: i in ops && IsJoin(i, p) && i.time == j.time && i.replica == j.replica ==> !Before(i, j);
      assert j in ops + {x};
    }
  }

  /** A player's display name is that of the join with the greatest (time, replica)
      stamp, the first in sort order among equal stamps. */
  lemma {:induction false} ReplayDisplay(ops: set<Operation>, p: PlayerId)
    requires DistinctIds(ops)
    ensures DisplayMatches(Replay(ops).playerNames, ops, p)
    decreases |ops|
  {
    if ops != {} {
      var x := Last(ops);
      var rest := ops - {x};
      var s := Replay(rest);
      LastAppends(ops);
      ReplayDisplay(rest, p);
      StepDisplay(s, x);
      assert rest + {x} == ops;
      if IsJoin(x, p) {
        JoinDisplay(s, rest, x, p);
      } else {
        OtherDisplay(s.playerNames, Replay(ops).playerNames, rest, x, p);
      }
    }
  }

  // ---- when a bet is accepted ----

  /** A bet is accepted exactly when, among the operations that sort before it, its
      player is seated and its round created, its origin saw betting open, and its
      replica had the rights: the state of the round itself does not matter. */
  lemma BetVerdict(ops: set<Operation>, x: Operation)
    requires DistinctIds(ops) && x in ops && x.kind.PlaceBet?
    ensures var before := Prefix(ops, x);
            (x.id !in Replay(ops).rejected
             <==> && Seated(before, x.kind.player)
                  && x.kind.originPhase == BettingOpen
                  && (exists y :: y in before && Opens(y, x.kind.round))
                  && AsI64(x.kind.amount) <= AvailableRights(Replay(before), x.kind.player, x.replica))
  {
    var before := Prefix(ops, x);
    var s, p := Replay(before), x.kind.player;
    VerdictAtPlace(ops, x);
    PlayerVisible(before, p);
    RoundExists(before, x.kind.round);
    NewToPrefix(ops, x, p);
    RightsOfCounter(s, p, x.replica);
  }

  lemma NewToPrefix(ops: set<Operation>, x: Operation, p: PlayerId)
    requires DistinctIds(ops) && x in ops
    ensures x.id !in CounterOf(Replay(Prefix(ops, x)), p).spends
    ensures x.id !in CounterOf(Replay(Prefix(ops, x)), p).transfers
  {
    ReplayAccounted(Prefix(ops, x), p);
    IdsAreNew(Replay(Prefix(ops, x)), Prefix(ops, x), x, p);
  }

  lemma RightsOfCounter(s: State, p: PlayerId, r: ReplicaId)
    ensures AvailableRights(s, p, r) == Available(CounterOf(s, p), r)
  {
    EmptyRights(r);
  }
}
