/** Accept-or-reject accounting: after the replay of any log with distinct ids,
    each operation's verdict is the one it got at its place in the sort order, and
    spends, transfers, grants and the applied payouts are exactly what the accepted
    operations put there. */
module Accounting {
  import opened Operations
  import opened MapSums
  import opened Counters
  import opened BetState
  import opened Replays

  predicate IsBet(x: Operation, p: PlayerId) { x.kind.PlaceBet? && x.kind.player == p }
  predicate IsTransfer(x: Operation, p: PlayerId) { x.kind.TransferRights? && x.kind.player == p }
  predicate IsPayout(x: Operation, p: PlayerId) { x.kind.ApplyPayout? && x.kind.player == p }
  predicate IsJoin(x: Operation, p: PlayerId) { x.kind.JoinTable? && x.kind.player == p }
  predicate IsLeave(x: Operation, p: PlayerId) { x.kind.LeaveTable? && x.kind.player == p }
  predicate Pays(x: Operation, pid: PayoutId) { x.kind.ApplyPayout? && x.kind.payout == pid }

  /** Joins, leaves and creations are applied unconditionally. */
  predicate Unconditional(x: Operation) {
    x.kind.CreateTable? || x.kind.JoinTable? || x.kind.LeaveTable? || x.kind.CreateRound?
  }

  ghost predicate RejectsMatch(s: State, ops: set<Operation>) {
    && (forall id :: id in s.rejected ==> id in Ids(ops))
    && (forall x :: x in ops && Unconditional(x) ==> x.id !in s.rejected)
  }

  /** The spends of p are exactly the accepted bets of p. */
  ghost predicate SpendsMatch(spends: map<OpId, Entry>, rejected: set<OpId>, ops: set<Operation>, p: PlayerId) {
    && (forall x :: x in ops && IsBet(x, p) && x.id !in rejected ==>
          x.id in spends && spends[x.id] == Entry(x.replica, x.kind.amount))
    && (forall id :: id in spends ==> exists x :: x in ops && IsBet(x, p) && x.id == id && x.id !in rejected)
  }

  /** The transfers of p are exactly the accepted transfers of p. */
  ghost predicate TransfersMatch(transfers: map<OpId, TransferEntry>, rejected: set<OpId>, ops: set<Operation>,
                                 p: PlayerId)
  {
    && (forall x :: x in ops && IsTransfer(x, p) && x.id !in rejected ==>
          x.id in transfers && transfers[x.id] == TransferEntry(x.kind.from, x.kind.to, x.kind.amount))
    && (forall id :: id in transfers ==> exists x :: x in ops && IsTransfer(x, p) && x.id == id && x.id !in rejected)
  }

  /** The grants of p are exactly the accepted payouts of p. */
  ghost predicate GrantsMatch(grants: map<PayoutId, Entry>, rejected: set<OpId>, ops: set<Operation>, p: PlayerId) {
    && (forall x :: x in ops && IsPayout(x, p) && x.id !in rejected ==>
          x.kind.payout in grants && grants[x.kind.payout] == Entry(x.replica, x.kind.amount))
    && (forall pid :: pid in grants ==>
          exists x :: x in ops && IsPayout(x, p) && x.kind.payout == pid && x.id !in rejected)
  }

  /** The applied payouts are the payout ids of the log, and every payout operation
      but the least one with its payout id is rejected. */
  ghost predicate PayoutsMatch(s: State, ops: set<Operation>) {
    && (forall x :: x in ops && x.kind.ApplyPayout? ==> x.kind.payout in s.payouts)
    && (forall pid :: pid in s.payouts ==> exists x :: x in ops && Pays(x, pid))
    && (forall x :: x in ops && x.kind.ApplyPayout? ==>
          (x.id in s.rejected <==> exists y :: y in ops && Pays(y, x.kind.payout) && Before(y, x)))
  }

  ghost predicate Accounted(s: State, ops: set<Operation>, p: PlayerId) {
    && RejectsMatch(s, ops) && PayoutsMatch(s, ops)
    && SpendsMatch(CounterOf(s, p).spends, s.rejected.Keys, ops, p)
    && TransfersMatch(CounterOf(s, p).transfers, s.rejected.Keys, ops, p)
    && GrantsMatch(CounterOf(s, p).grants, s.rejected.Keys, ops, p)
  }

  // ---- one step, from the effect of the operation that sorts last ----

  ghost predicate Appends(ops: set<Operation>, x: Operation) {
    DistinctIds(ops + {x}) && forall y :: y in ops ==> Before(y, x)
  }

  lemma RejectsStep(s: State, ops: set<Operation>, x: Operation, accepted: bool, t: State, p: PlayerId)
    requires Appends(ops, x) && RejectsMatch(s, ops) && Effect(s, x, accepted, t, p)
    requires Unconditional(x) ==> accepted
    ensures RejectsMatch(t, ops + {x})
    ensures x.id !in s.rejected
  {
  }

  lemma SpendsStep(spends: map<OpId, Entry>, rejected: set<OpId>, ops: set<Operation>, x: Operation, p: PlayerId,
                   spends': map<OpId, Entry>, rejected': set<OpId>)
    requires Appends(ops, x) && SpendsMatch(spends, rejected, ops, p)
    requires x.id !in rejected && rejected <= rejected' <= rejected + {x.id}
    requires spends' == if IsBet(x, p) && x.id !in rejected'
                        then spends[x.id := Entry(x.replica, x.kind.amount)] else spends
    ensures SpendsMatch(spends', rejected', ops + {x}, p)
  {
    forall id | id in spends'
      ensures exists y :: y in ops + {x} && IsBet(y, p) && y.id == id && y.id !in rejected'
    {
      if id in spends {
        var y :| y in ops && IsBet(y, p) && y.id == id && y.id !in rejected;
        assert y in ops + {x} && y.id != x.id;
      } else {
        assert x in ops + {x} && IsBet(x, p) && x.id == id;
      }
    }
  }

  lemma TransfersStep(transfers: map<OpId, TransferEntry>, rejected: set<OpId>, ops: set<Operation>, x: Operation,
                      p: PlayerId, transfers': map<OpId, TransferEntry>, rejected': set<OpId>)
    requires Appends(ops, x) && TransfersMatch(transfers, rejected, ops, p)
    requires x.id !in rejected && rejected <= rejected' <= rejected + {x.id}
    requires transfers' == if IsTransfer(x, p) && x.id !in rejected'
                           then transfers[x.id := TransferEntry(x.kind.from, x.kind.to, x.kind.amount)] else transfers
    ensures TransfersMatch(transfers', rejected', ops + {x}, p)
  {
    forall id | id in transfers'
      ensures exists y :: y in ops + {x} && IsTransfer(y, p) && y.id == id && y.id !in rejected'
    {
      if id in transfers {
        var y :| y in ops && IsTransfer(y, p) && y.id == id && y.id !in rejected;
        assert y in ops + {x} && y.id != x.id;
      } else {
        assert x in ops + {x} && IsTransfer(x, p) && x.id == id;
      }
    }
  }

  lemma GrantsStep(grants: map<PayoutId, Entry>, rejected: set<OpId>, ops: set<Operation>, x: Operation,
                   p: PlayerId, grants': map<PayoutId, Entry>, rejected': set<OpId>)
    requires Appends(ops, x) && GrantsMatch(grants, rejected, ops, p)
    requires x.id !in rejected && rejected <= rejected' <= rejected + {x.id}
    requires x.kind.ApplyPayout? && x.id !in rejected' ==> x.kind.payout !in grants
    requires grants' == if IsPayout(x, p) && x.id !in rejected'
                        then grants[x.kind.payout := Entry(x.replica, x.kind.amount)] else grants
    ensures GrantsMatch(grants', rejected', ops + {x}, p)
  {
    forall pid | pid in grants'
      ensures exists y :: y in ops + {x} && IsPayout(y, p) && y.kind.payout == pid && y.id !in rejected'
    {
      if pid in grants {
        var y :| y in ops && IsPayout(y, p) && y.kind.payout == pid && y.id !in rejected;
        assert y in ops + {x} && y.id != x.id;
      } else {
        assert x in ops + {x} && IsPayout(x, p) && x.kind.payout == pid;
      }
    }
  }

  /** The last operation's id is new to p's counter. */
  lemma IdsAreNew(s: State, ops: set<Operation>, x: Operation, p: PlayerId)
    requires Appends(ops, x) && Accounted(s, ops, p)
    ensures x.id !in CounterOf(s, p).spends && x.id !in CounterOf(s, p).transfers
    ensures x.kind.ApplyPayout? && x.kind.payout !in s.payouts ==> x.kind.payout !in CounterOf(s, p).grants
  {
    forall y | y in ops ensures y.id != x.id {
      assert y in ops + {x} && x in ops + {x};
    }
  }

  lemma PayoutsStep(s: State, ops: set<Operation>, x: Operation, accepted: bool, t: State, p: PlayerId)
    requires Appends(ops, x) && RejectsMatch(s, ops) && Effect(s, x, accepted, t, p)
    requires PayoutsMatch(s, ops)
    requires x.kind.ApplyPayout? ==> (accepted <==> x.kind.payout !in s.payouts)
    ensures PayoutsMatch(t, ops + {x})
  {
    forall pid | pid in t.payouts ensures exists y :: y in ops + {x} && Pays(y, pid) {
      if pid in s.payouts {
        var y :| y in ops && Pays(y, pid);
        assert y in ops + {x};
      } else {
        assert x in ops + {x} && Pays(x, pid);
      }
    }
    forall y | y in ops + {x} && y.kind.ApplyPayout?
      ensures y.id in t.rejected <==> exists z :: z in ops + {x} && Pays(z, y.kind.payout) && Before(z, y)
    {
      PayoutVerdict(s, ops, x, accepted, t, p, y);
    }
  }

  lemma PayoutVerdict(s: State, ops: set<Operation>, x: Operation, accepted: bool, t: State, p: PlayerId, y: Operation)
    requires Appends(ops, x) && RejectsMatch(s, ops) && Effect(s, x, accepted, t, p)
    requires PayoutsMatch(s, ops)
    requires x.kind.ApplyPayout? ==> (accepted <==> x.kind.payout !in s.payouts)
    requires y in ops + {x} && y.kind.ApplyPayout?
    ensures y.id in t.rejected <==> exists z :: z in ops + {x} && Pays(z, y.kind.payout) && Before(z, y)
  {
    var pid := y.kind.payout;
    if y == x {
      if pid in s.payouts {
        var z :| z in ops && Pays(z, pid);
        assert z in ops + {x} && Pays(z, pid) && Before(z, x);
      }
    } else {
      assert y.id in t.rejected <==> y.id in s.rejected;
      assert !Before(x, y);
      if y.id in s.rejected {
        var z :| z in ops && Pays(z, pid) && Before(z, y);
        assert z in ops + {x};
      }
    }
  }

  lemma {:induction false} ReplayAccounted(ops: set<Operation>, p: PlayerId)
    requires DistinctIds(ops)
    ensures Accounted(Replay(ops), ops, p)
    decreases |ops|
  {
    if ops != {} {
      var x := Last(ops);
      var rest := ops - {x};
      ReplayAccounted(rest, p);
      LastAppends(ops);
      AccountedStep(Replay(rest), rest, x, p);
      assert rest + {x} == ops;
    }
  }

  lemma LastAppends(ops: set<Operation>)
    requires ops != {} && DistinctIds(ops)
    ensures Appends(ops - {Last(ops)}, Last(ops))
  {
  }

  lemma AccountedStep(s: State, ops: set<Operation>, x: Operation, p: PlayerId)
    requires Appends(ops, x) && Accounted(s, ops, p)
    ensures Accounted(Step(s, x), ops + {x}, p)
  {
    var funded := Funded(s, x);
    var accepted, t := Admits(s, x, funded), Apply(s, x, funded);
    ApplyEffect(s, x, funded, p);
    RejectsStep(s, ops, x, accepted, t, p);
    PayoutsStep(s, ops, x, accepted, t, p);
    CounterStep(s, ops, x, accepted, t, p);
  }

  /** The maps of p's counter after the last operation. */
  ghost predicate MapsExtended(c: Counter, d: Counter, x: Operation, accepted: bool, p: PlayerId) {
    && d.spends == (if IsBet(x, p) && accepted then c.spends[x.id := Entry(x.replica, x.kind.amount)] else c.spends)
    && d.transfers == (if IsTransfer(x, p) && accepted
                       then c.transfers[x.id := TransferEntry(x.kind.from, x.kind.to, x.kind.amount)] else c.transfers)
    && d.grants == if IsPayout(x, p) && accepted
                   then c.grants[x.kind.payout := Entry(x.replica, x.kind.amount)] else c.grants
  }

  lemma MapsAfter(s: State, x: Operation, accepted: bool, p: PlayerId)
    requires x.id !in CounterOf(s, p).spends && x.id !in CounterOf(s, p).transfers
    ensures MapsExtended(CounterOf(s, p), CounterAfter(s, x, accepted, p), x, accepted, p)
  {
  }

  lemma CounterStep(s: State, ops: set<Operation>, x: Operation, accepted: bool, t: State, p: PlayerId)
    requires Appends(ops, x) && Effect(s, x, accepted, t, p) && Accounted(s, ops, p)
    requires x.kind.ApplyPayout? ==> (accepted <==> x.kind.payout !in s.payouts)
    ensures SpendsMatch(CounterOf(t, p).spends, t.rejected.Keys, ops + {x}, p)
    ensures TransfersMatch(CounterOf(t, p).transfers, t.rejected.Keys, ops + {x}, p)
    ensures GrantsMatch(CounterOf(t, p).grants, t.rejected.Keys, ops + {x}, p)
  {
    IdsAreNew(s, ops, x, p);
    MapsAfter(s, x, accepted, p);
    assert x.id !in s.rejected.Keys;
    MatchStep(CounterOf(s, p), s.rejected.Keys, ops, x, accepted, CounterOf(t, p), t.rejected.Keys, p);
  }

  lemma MatchStep(c: Counter, rejected: set<OpId>, ops: set<Operation>, x: Operation, accepted: bool,
                  d: Counter, rejected': set<OpId>, p: PlayerId)
    requires Appends(ops, x) && MapsExtended(c, d, x, accepted, p)
    requires x.id !in rejected && rejected' == if accepted then rejected else rejected + {x.id}
    requires SpendsMatch(c.spends, rejected, ops, p)
    requires TransfersMatch(c.transfers, rejected, ops, p)
    requires GrantsMatch(c.grants, rejected, ops, p)
    requires x.kind.ApplyPayout? && accepted ==> x.kind.payout !in c.grants
    ensures SpendsMatch(d.spends, rejected', ops + {x}, p)
    ensures TransfersMatch(d.transfers, rejected', ops + {x}, p)
    ensures GrantsMatch(d.grants, rejected', ops + {x}, p)
  {
    SpendsStep(c.spends, rejected, ops, x, p, d.spends, rejected');
    TransfersStep(c.transfers, rejected, ops, x, p, d.transfers, rejected');
    GrantsStep(c.grants, rejected, ops, x, p, d.grants, rejected');
  }

  // ---- main results ----

  ghost function Prefix(ops: set<Operation>, x: Operation): set<Operation> {
    set y | y in ops && Before(y, x)
  }

  /** An operation is rejected exactly when the state replayed from the operations
      that sort before it does not accept it; what sorts after it never matters. */
  lemma {:induction false} VerdictAtPlace(ops: set<Operation>, x: Operation)
    requires DistinctIds(ops) && x in ops
    ensures x.id in Replay(ops).rejected <==> !Accepts(Replay(Prefix(ops, x)), x)
    decreases |ops|
  {
    var last := Last(ops);
    var rest := ops - {last};
    LastAppends(ops);
    StepVerdict(rest, last);
    assert rest + {last} == ops;
    if x == last {
      assert Prefix(ops, x) == rest;
    } else {
      VerdictAtPlace(rest, x);
      assert Prefix(ops, x) == Prefix(rest, x);
    }
  }

  lemma StepVerdict(ops: set<Operation>, x: Operation)
    requires Appends(ops, x)
    ensures x.id in Replay(ops + {x}).rejected <==> !Accepts(Replay(ops), x)
    ensures forall y :: y in ops ==> (y.id in Replay(ops + {x}).rejected <==> y.id in Replay(ops).rejected)
  {
    var s := Replay(ops);
    ReplayExtend(ops, x);
    assert RejectsMatch(s, ops) by {
      ReplayAccounted(ops, 0);
    }
    ApplyEffect(s, x, Funded(s, x), 0);
    forall y | y in ops ensures y.id != x.id {
      assert y in ops + {x} && x in ops + {x};
    }
  }

  /** Each payout id pays once: the grant is the one of the least operation with
      that payout id, and it goes to that operation's player and replica. */
  lemma PayoutOnce(ops: set<Operation>, x: Operation)
    requires DistinctIds(ops) && x in ops && x.kind.ApplyPayout?
    requires forall y :: y in ops && Pays(y, x.kind.payout) ==> y == x || Before(x, y)
    ensures x.id !in Replay(ops).rejected
    ensures forall y :: y in ops && Pays(y, x.kind.payout) && y != x ==> y.id in Replay(ops).rejected
    ensures forall p :: x.kind.payout in CounterOf(Replay(ops), p).grants <==> p == x.kind.player
    ensures CounterOf(Replay(ops), x.kind.player).grants[x.kind.payout] == Entry(x.replica, x.kind.amount)
  {
    var s, pid := Replay(ops), x.kind.payout;
    ReplayAccounted(ops, x.kind.player);
    assert IsPayout(x, x.kind.player);
    forall p ensures pid in CounterOf(s, p).grants <==> p == x.kind.player {
      ReplayAccounted(ops, p);
      if pid in CounterOf(s, p).grants {
        var y :| y in ops && IsPayout(y, p) && y.kind.payout == pid && y.id !in s.rejected;
        assert y == x;
      }
    }
  }

  /** The applied payout ids are exactly those of the log. */
  lemma {:induction false} AppliedPayouts(ops: set<Operation>)
    requires DistinctIds(ops)
    ensures Replay(ops).payouts == set x | x in ops && x.kind.ApplyPayout? :: x.kind.payout
  {
    ReplayAccounted(ops, 0);
  }
}
