# BetSync: a verified model of the replicated ledger

BetSync is a betting table without a central bank. Every replica accepts bets offline against the
spending rights it holds, operations travel as an unordered, duplicated log, and each replica rebuilds
its state by sorting that log and replaying it from the start. This project models that ledger in Dafny
and proves exactly how far its central claim goes: chips are never overspent as long as amounts stay below
2^63, and what a replica accepted offline stays accepted, although operations keep being inserted into the
middle of history, as long as leaves are outlived, payouts known, and income of 2^63 and more known (all
explained below). Guards and sums cast amounts as the program does, and the results carry over to its
overflowing machine arithmetic.

`dafny verify dfyconfig.toml` checks everything.

## How the model is laid out

| file | part of the system |
|---|---|
| `Operations.dfy`, `Rules.dfy`, `MapSums.dfy` | identifiers, bets, operations and their sort key; which bets win, at fair odds; sums over maps, by owner |
| `Counters.dfy`, `Escrow.dfy` | the bounded counter; runs of any number of replicas that merge counter states |
| `Merges.dfy` | the four state-based merges as least upper bounds |
| `BetState.dfy`, `Replays.dfy` | what one operation does to the state; deterministic replay of a log |
| `Accounting.dfy`, `Ledgers.dfy`, `Views.dfy`, `RoundViews.dfy`, `RoundHistory.dfy`, `Reasons.dfy` | verdicts and their reasons, ledgers, balances, and what the sets, registers and rounds show |
| `Commands.dfy` | exact effects of the client's guarded commands |
| `Durability.dfy`, `OpenBets.dfy`, `OneResolver.dfy`, `DurabilityLimits.dfy` | runs of N clients and exactly when acceptance is durable; plays of commands, where one resolver per round makes payouts known; four plays in which acceptance is not durable |
| `Relay.dfy`, `RelayProof.dfy`, `RelayGap.dfy`, `RelayLimits.dfy`, `RelayQueue.dfy`, `RelayDurability.dfy` | the client/server relay as a protocol; nothing lost, convergence, the gap that never heals; the offline queue; durable acceptance over the relay |
| `MachineArithmetic.dfy`, `MachineDurability.dfy`, `Oversized.dfy` | overflowing u64 and i64 arithmetic against the model's; durable acceptance for it; amounts from 2^63 up |
| `CrdtObjects.dfy`, `StateObject.dfy`, `ClientObjects.dfy`, `Session.dfy` | the program's objects, updated in place, proved against the functions above; the command line while offline |

The state functions (`BetState.Step`, `Replays.Replay`, `Counters.Available`, ...) follow the source branch
by branch; the classes of the last row compute exactly those functions, and the theorems are about them.
A Rust `&mut` borrow of a map entry is modelled as taking the value out, changing it through its object and
putting it back. `Replay` is defined on a set of operations by peeling off the one that sorts last;
`AnySortReplays` shows that this is what any correct sort followed by the fold computes, so every theorem
about `Replay` of all sets holds after every prefix of every replay.

A u64 amount is a natural number, and `AsI64` is what the program's cast makes of it. `Counters.Rights` are a
replica's rights in true amounts; `Counters.Available` is what `available` adds up, amount by amount as cast, and
what every guard looks at. Overflow of the u64 and i64 sums is kept apart, in `MachineArithmetic`, where None is
an overflow: whatever does not overflow is what the model says.

Identifiers are numbers: the program uses id strings only for equality and for their order. A payout id
`payout:{round}:{bet}` is a pair. `Uuid::new_v4` is an id the log has not seen; bet ids are parameters.

## What was found

- **Oversized amounts are accepted.** The guards compare the rights with `amount as i64`
  (src/crdt/bounded_counter.rs:59, 80; src/client/client.rs:165-173, 239-243), which is negative from 2^63 up, and
  the rights are themselves sums of casts (src/crdt/bounded_counter.rs:95-123); the model does both.
  `Counters.SpendKeepsSolvent`, `Counters.TransferKeepsSolvent`, `Escrow.EscrowExactly` and `Ledgers.RightsExactly` say
  that true rights stay non-negative if and only if no such amount is accepted. `Oversized.OversizedBetAccepted` and
  `Oversized.OversizedTransferAccepted` say that every such bet of a seated player in an open round and every such
  transfer is accepted, by machine arithmetic without overflow, and that the program then reports more rights for
  whoever placed or sent it than before.
- **Durable acceptance, exactly** (`Durability.DurableExactly`). Three conditions:
  - Payouts are *known*: a payout that is the least with its id among all its issuer knew is the least with its id at
    all. One issuer per payout id is enough (`Durability.SoleIssuersKnow`), and one resolver per round is enough for
    that (`OneResolver.OneResolverIsDurable`).
  - Oversized income is *known*: whoever issued a bet or transfer knew every right, prize and transfer of 2^63 or more
    that its own replica got for that player and that sorts before it. If all of them are below 2^63 there is nothing
    to know (`Durability.SmallIncomeIsKnown`).
  - Leaves are *outlived*: whoever placed a bet knew, for every leave that sorts before it, a join that sorts after
    that leave. Knowing the leave is enough (`Durability.KnownLeavesOutlived`).

  Where payouts and oversized income are known, no causally closed log rejects a bet or transfer of a player if and
  only if the player's leaves are outlived. None of the conditions can be dropped; each of four plays of commands
  violates one of them and ends with an accepted operation rejected. In `DurabilityLimits.LeaveBreaksDurability` a
  concurrent leave unseats the player. In `OversizedJoinBreaksDurability` and `OversizedTransferBreaksDurability` a
  concurrent join or transfer of more than 2^63 *lowers* the rights the program reports, without any overflow. In
  `TwoResolversBreakDurability` two replicas resolve the same round, and the grant moves to the other replica.
  `MachineDurability.MachineDurable` states the same for clients that decide and replay with overflowing machine
  arithmetic, and `RelayDurability.UpToDateAccepts` for the logs that the relay leaves at quiet.
  `Views.BetVerdict` says, for every log, exactly when a bet is accepted.
- **Balances** (`Ledgers.BalanceIdentity`): a balance is the remaining true rights plus the joined chips minus the
  initial rights. So it covers the remaining rights if and only if the initial rights are backed by chips
  (`BalanceCoversRights`), which both join commands guarantee (`Session.JoinsAreBacked`).
- **The relay has a gap.** The repository's README.md:26 says that new operations are broadcast to connected clients. The
  server answers a Hello (src/server/sync_server.rs:60-72) before it registers the connection
  (src/server/sync_server.rs:74-75); an operation stored and broadcast in between is never sent on that
  connection. `RelayLimits.GapLosesOperation` is such a run, and in `RelayLimits.LogNotClosed` the client goes on to hold a later
  operation of the same issuer, so its log is not causally closed; `RelayGap.GapNeverHeals` says that what a client
  misses of its connection's gap it misses as long as it stays on that connection, `RelayGap.SettledExactly` that a
  drained client lacks nothing if and only if it had its gap when it was registered, and `RelayProof.Convergence` that a
  Hello answered after the last store insert is always enough.
- **LWW registers** commute exactly when equal stamps carry equal values (`Merges.LwwMergeIsJoin`).

## Model

| member | source | states |
|---|---|---|
| `Counters.Conservation` | src/crdt/bounded_counter.rs:95-143 | in any counter whose true rights are non-negative, what remains of them over the enumerated replicas plus what was spent is all that was ever handed out, transfers cancelling, although spend-only replicas are not enumerated; `total_remaining` reports exactly that if what was spent, sent on and handed out is below 2^63 each |
| `Counters.NeverOverspent` | src/crdt/bounded_counter.rs:125-143 | in any such counter, total spending never exceeds initial rights plus grants |
| `Counters.OutsidersSpentNothing` | src/crdt/bounded_counter.rs:125-134 | in any such counter, a replica that only appears in spends has spent zero |
| `Counters.GrantCredits` | src/crdt/bounded_counter.rs:37-45 | a grant with a new id raises exactly its replica's rights by its amount, and what is reported of them by its cast |
| `Counters.SpendDebits` | src/crdt/bounded_counter.rs:47-65 | a new spend that passes the guard lowers exactly its own replica's rights by its amount, and what is reported of them by its cast |
| `Counters.TransferMoves` | src/crdt/bounded_counter.rs:67-93 | a new transfer that passes the guard moves exactly its amount between two replicas, and in what is reported exactly its cast |
| `Counters.SpendKeepsSolvent` | src/crdt/bounded_counter.rs:47-65 | after amounts that fitted, the spend guard keeps every replica's true rights non-negative for a known id and for an amount below 2^63, and, where it accepts with rights below 2^63, for nothing else |
| `Counters.RegrantReplaces` | src/crdt/bounded_counter.rs:37-45 | granting a known id again replaces what it granted |
| `Counters.RetriesChangeNothing` | src/crdt/bounded_counter.rs:47-93 | a spend or transfer with a known id succeeds, and like one that is not covered it changes nothing |
| `Counters.AvailableAtMostRights` | src/crdt/bounded_counter.rs:95-123 | if all that was spent or sent on is below 2^63, the program never reports more rights than there are, and exactly those if all that was handed out is below 2^63 too |
| `Counters.OversizedSpendOverdraws` | src/crdt/bounded_counter.rs:58-61 | the failing input: with 100 rights a spend of 2^64 - 1 is accepted |
| `Counters.TransferKeepsSolvent` | src/crdt/bounded_counter.rs:67-93 | the same for the transfer guard, except that a transfer to oneself never harms |
| `Counters.RightsMono` | src/crdt/bounded_counter.rs:95-123 | more income and no more outgoing history never mean fewer true rights |
| `Counters.AvailableMono` | src/crdt/bounded_counter.rs:95-123 | nor fewer reported rights, if what was added to the one and dropped from the other is below 2^63 each |
| `Escrow.EscrowSafety` | src/crdt/bounded_counter.rs:47-152 | in every run of any number of replicas that spend and transfer their own rights with fresh ids and amounts below 2^63 and merge any current or earlier states, true rights are non-negative in every state and in every join of states, no state reports more than them, and the join conserves them |
| `Escrow.EscrowExactly` | src/crdt/bounded_counter.rs:47-93 | after any such run, with own rights below 2^63 that are not reported negative, the next event keeps its replica's true rights non-negative if and only if its amount is below 2^63, or it repeats a known id or moves rights in place |
| `Escrow.MergeSolvent` | src/crdt/bounded_counter.rs:145-152 | merging two solvent states with linear outgoing histories gives a solvent state |
| `Escrow.MergeGathers` | src/crdt/bounded_counter.rs:145-152 | a merge gives its replica the least state that contains its own and the other one |
| `Escrow.EventEffect` | src/crdt/bounded_counter.rs:31-93 | what the other events do to their replica's true rights, and that they leave the other replicas alone |
| `Escrow.SpendsWhatItMerged` | src/crdt/bounded_counter.rs:145-152 | a run in which a replica without rights merges the state in which it was sent some, and spends them |
| `Merges.ConflictsResolved` | src/crdt/bounded_counter.rs:166-175 | where two counters disagree on an id, the greater replica id decides before the amount, and for transfers the sender before the receiver before the amount |
| `Merges.CounterMergeIsJoin` | src/crdt/bounded_counter.rs:145-175 | the counter merge is the least upper bound of its inputs |
| `Merges.CounterMergeLaws` | src/crdt/bounded_counter.rs:145-175 | it is idempotent, commutative and associative |
| `Merges.PNMergeIsJoin` | src/crdt/pn_counter.rs:25-42 | the PN-counter merge is the least upper bound of its inputs |
| `Merges.PNMergeLaws` | src/crdt/pn_counter.rs:25-42 | it is idempotent, commutative and associative |
| `Merges.OrSetMergeIsJoin` | src/crdt/or_set.rs:54-71 | the OR-set merge is the least upper bound of its inputs and keeps removed tags observed |
| `Merges.OrSetMergeLaws` | src/crdt/or_set.rs:54-71 | it is idempotent, commutative and associative |
| `Merges.UnobservedAddSurvives` | src/crdt/or_set.rs:28-36 | after merging with a replica that removed an element, exactly the tags that replica had not observed survive |
| `Merges.LwwMergeIsJoin` | src/crdt/lww_register.rs:26-41 | the register merge is idempotent, associative, an upper bound, and commutative exactly when equal stamps carry equal values |
| `BetState.ApplyEffect` | src/domain/state.rs:87-254 | every operation is recorded as rejected exactly when it is not accepted, and changes only its own player's counter and balance and the applied payouts, each as stated |
| `Replays.ReplayExtend` | src/domain/state.rs:39-55 | an operation that sorts after a log is replayed by one step on the old state |
| `Replays.SortedRunIsReplay` | src/domain/state.rs:39-55 | folding a sorted, duplicate-free vector gives the replay of its set |
| `Replays.AnySortReplays` | src/sync/operation_log.rs:31-41 | whichever sorted permutation the sort returns, the fold is the same |
| `Replays.StrongConvergence` | src/client/client.rs:50-67 | two deliveries of the same set of operations, in any order and with any repetitions, replay to the same state |
| `Replays.DeliverCollects` | src/sync/operation_log.rs:12-29 | delivery keeps the log duplicate-free and collects exactly what was delivered |
| `Replays.RankStep` | src/domain/round.rs:29-52 | a round advances exactly when the operation is the one its phase waits for |
| `Replays.PhasesMonotone` | src/domain/state.rs:138-217 | if one log is contained in another, no round is further along in the smaller one |
| `Accounting.ReplayAccounted` | src/domain/state.rs:87-254 | after every replay the spends, transfers and grants are exactly those of the accepted operations, unconditional operations are never rejected, and a payout is rejected exactly when an earlier one has its payout id |
| `Accounting.VerdictAtPlace` | src/domain/state.rs:39-55 | an operation is rejected exactly when the state replayed from what sorts before it does not accept it |
| `Accounting.PayoutOnce` | src/domain/state.rs:218-236 | the least operation with a payout id is paid, once, to its player on its replica; all others with that id are rejected |
| `Accounting.AppliedPayouts` | src/domain/state.rs:224-227 | the applied payout ids are exactly those of the log |
| `Ledgers.ReplaySolvent` | src/domain/state.rs:177-181 | after every replay that accepts no oversized bet or transfer every player's true rights are non-negative on every replica |
| `Ledgers.RightsExactly` | src/domain/state.rs:177-181 | with rights and amounts in the range of their types, true rights are non-negative after every prefix of the replay if and only if no oversized bet or transfer is accepted |
| `Ledgers.ReportsExactly` | src/crdt/bounded_counter.rs:95-143 | after such a replay the program reports at most the true rights, and exactly those, also in total, if no joined right or prize reaches 2^63 |
| `Ledgers.ReplayLedgers` | src/domain/state.rs:120-236 | per player and replica, decrements equal spends and increments equal joined chips plus grants; and in total |
| `Ledgers.InitialRights` | src/domain/state.rs:125-132 | initial rights are, replica by replica, the most any join gave: its split, or all its chips on the joining replica |
| `Ledgers.BalanceIdentity` | src/domain/state.rs:57-69 | for every log, partial and out-of-order ones included, that accepts no oversized bet or transfer: balance = remaining true rights + joined chips - initial rights |
| `Ledgers.BalanceCoversRights` | src/domain/state.rs:57-69 | for such a log, a balance covers the remaining true rights if and only if initial rights do not exceed joined chips |
| `Ledgers.NoNegativeBalance` | src/client/client.rs:86-88 | for such a log, with joins backed by chips, balance >= remaining true rights >= 0 |
| `Views.PlayerVisible` | src/crdt/or_set.rs:24-40 | a player is visible exactly when some join is followed by no leave in sort order |
| `Views.RoundExists` | src/domain/state.rs:138-146 | a round exists exactly when the log creates it |
| `Rules.HighAndLow` | src/domain/bet.rs:19-20 | High wins from some face on, Low exactly where High does not |
| `Rules.OddAndEven` | src/domain/bet.rs:17-18 | Odd wins on 1 and on every other face from there, Even exactly where Odd does not |
| `Rules.ExactFaces` | src/domain/bet.rs:21 | an exact bet wins on its own face, and two of them never on the same |
| `Rules.Fair` | src/domain/bet.rs:15-30 | over the six faces every bet, exact ones on a face from 1 to 6, returns six stakes |
| `Views.VisibleBetsAreAccepted` | src/domain/state.rs:187-198 | the visible bets are exactly the bets of accepted operations |
| `Views.VisibleExactly` | src/domain/state.rs:187-198 | a bet is visible if and only if an accepted operation places it, with its id, player, round, amount, kind, origin and time |
| `Views.ReplayBetTags` | src/domain/state.rs:187-198 | the tags of a bet are the ids of the accepted operations that place it |
| `RoundHistory.OpenExactly` | src/domain/state.rs:147-217 | betting is open on a round if and only if the log holds an accepted opening and no accepted closing of it |
| `RoundHistory.ClosedExactly` | src/domain/state.rs:147-217 | it is closed if and only if the log holds an accepted closing and no accepted resolution |
| `RoundHistory.ResultExactly` | src/domain/state.rs:209-217 | a round is resolved with a face if and only if a resolution with that face was accepted |
| `RoundHistory.OncePerRound` | src/domain/round.rs:29-52 | a round is opened once, closed once and resolved once: of each at most one operation is accepted |
| `RoundViews.ReplayRoundTags` | src/domain/state.rs:142 | the tags of a round are the ids of its creations |
| `Reasons.BetReason` | src/domain/state.rs:164-181 | why a bet is rejected, over what sorts before it: nobody seated, origin not open, no such round, and only then missing rights |
| `Reasons.TransitionReason` | src/domain/state.rs:147-217 | why a transition is rejected: no such round, or else that transition |
| `Reasons.LedgerReason` | src/domain/state.rs:218-247 | a payout is rejected as a duplicate, a transfer for missing rights |
| `Views.StakesAreSpends` | src/domain/state.rs:177-198 | with distinct bet ids, the visible bets of a player from a replica add up to that replica's spends |
| `Views.ReplayName` | src/domain/state.rs:89-95 | the table-name register holds the creation with the greatest stamp, the first in sort order among equals |
| `Views.TableName` | src/crdt/lww_register.rs:19-41 | with times from 1 up, the table is called what the highest-stamped creation says |
| `Views.ReplayDisplay` | src/domain/state.rs:104-119 | a display name is that of the join with the greatest stamp, the first in sort order among equals |
| `RoundViews.ReplayView` | src/domain/state.rs:138-217 | a round shows its own id, the dealer of the creation that sorts first, and a die face exactly when it is resolved |
| `RoundViews.ReplayRoundSets` | src/domain/state.rs:142-145 | the OR-set of rounds and the map of round views name the same rounds |
| `Views.BetVerdict` | src/domain/state.rs:164-181 | exactly when a bet is accepted: player seated, round created and the guard passed among what sorts before it, and its origin saw betting open |
| `Commands.BetPlaced` | src/client/client.rs:144-183 | a bet that passes the checks is accepted at once, visible, and takes exactly its stake from the balance and what the stake is cast to from the reported own rights, nothing else |
| `Commands.RightsTransferred` | src/client/client.rs:230-253 | a transfer that passes the check is accepted at once and moves, in what is reported of sender and receiver, exactly what its amount is cast to (from 2^63 up that is the other way round), no balance changing |
| `Commands.PayoutPaid` | src/domain/state.rs:218-236 | a payout pays its amount to its player's balance, and its cast to the reported rights of its replica, unless its id was applied |
| `Commands.PaidInOrder` | src/client/client.rs:218-225 | a run of payouts in any order pays exactly what its bets were owed |
| `Commands.ResolvedAndPaid` | src/client/client.rs:206-225 | after resolving and paying, the round is resolved with the dice and balances rose by exactly the prizes owed and the resolver's reported rights by what those are cast to |
| `Commands.WinnersArePaid` | src/client/client.rs:211-226 | what resolve_round pays are exactly the accepted bets of its own round that win, each six or two times its stake, under its own payout id |
| `Commands.PaidIfWon` | src/client/client.rs:211-226 | where bet ids are used once, an accepted bet is paid if and only if it is on the round and wins |
| `Commands.OneOfTwoPaid` | src/client/client.rs:211-226 | of bets on High and Low, or Odd and Even, of one round exactly one is paid on any face |
| `Commands.NobodyPaid` | src/client/client.rs:211-226 | nobody is paid in a round in which nobody bet |
| `MachineArithmetic.PrizeExactly` | src/client/client.rs:223 | the u64 product of a prize is exact if and only if the stake is at most (2^64 - 1) / multiplier, and overflows if and only if the prize reaches 2^64 |
| `MachineArithmetic.WinnersPaidExactly` | src/client/client.rs:211-226 | in a log of total below 2^63 all winners are paid exactly if and only if none is an exact bet of more than (2^64 - 1) / 6 |
| `Durability.DurableExactly` | src/client/client.rs:144-253 | where payouts and oversized income are known, every bet and transfer of a player is accepted in every causally closed part of a log if and only if every leave is outlived for the bets that sort after it |
| `Durability.DurableAcceptance` | src/client/client.rs:144-253 | in every run of N clients the same holds of all causally closed logs, and then no replica's log rejects a bet or transfer of the player |
| `Durability.ClockIsMax` | src/sync/lamport_clock.rs:11-18 | in every run a client's clock shows exactly the greatest time in its log |
| `OpenBets.BetsSawOpen` | src/client/client.rs:150-163 | in every run whoever recorded a bet had accepted an opening of its round and no closing, and the bet says so |
| `OpenBets.PlayedBetsSawOpen` | src/client/client.rs:150-163 | the same in every play of commands |
| `OpenBets.MachineBetsSawOpen` | src/client/client.rs:150-163 | and in every run of clients that check with machine arithmetic |
| `Durability.ClosedLogsAreReceivable` | src/client/client.rs:69-71 | every causally closed log is the log a replica that holds nothing yet may receive |
| `Durability.SoleIssuersKnow` | src/client/client.rs:218-225 | payouts with one issuer per payout id are known |
| `Durability.SmallIncomeIsKnown` | src/crdt/bounded_counter.rs:96-123 | rights, prizes and transfers below 2^63 leave no oversized income to know |
| `Durability.KnownLeavesOutlived` | src/domain/state.rs:134-167 | leaves that were known to the bets they precede are outlived |
| `Durability.RightsKept` | src/crdt/bounded_counter.rs:95-123 | inserting other replicas' operations anywhere in a log, if no payout there takes the place of one paid before, never lowers the rights reported for a replica whose own operations and oversized income were all there |
| `Durability.WholeLogsAreReceivable` | src/client/client.rs:69-71 | merging another client's whole log, current or earlier, is always a causally complete delivery |
| `Durability.NoReplicaOverspends` | src/client/client.rs:50-57 | in every run and at every replica, with backed joins and stakes, transfers, joined rights and prizes below 2^63, balance >= reported remaining rights >= 0, spending is covered by chips and prizes, and no replica's reported rights are negative |
| `DurabilityLimits.LeaveBreaksDurability` | src/domain/state.rs:134-167 | a play of commands with known payouts and no oversized income to know ends with an accepted bet rejected, because a concurrent leave sorts before it |
| `DurabilityLimits.OversizedJoinBreaksDurability` | src/crdt/bounded_counter.rs:96 | a play with known payouts, no leave to outlive and every oversized right backed by chips ends with an accepted bet rejected, by the machine replay too and without overflow, because a concurrent join names more than 2^63 rights |
| `DurabilityLimits.OversizedTransferBreaksDurability` | src/crdt/bounded_counter.rs:103-108 | the same with a concurrent incoming transfer of more than 2^63 |
| `DurabilityLimits.TwoResolversBreakDurability` | src/domain/state.rs:224-247 | a play of commands without any leave, with distinct bet ids and no oversized income to know, in which two replicas resolve the same round, ends with an accepted transfer rejected |
| `OneResolver.PlayIsSteady` | src/client/client.rs:193-228 | in every play in which payouts only come from resolving a round, every payout comes with a resolution of its round by its own replica, which sees the round resolved ever after |
| `OneResolver.OneResolverIsDurable` | src/client/client.rs:193-228 | in every such play in which each round has one resolver and oversized income is known, no causally closed log rejects a bet or transfer of a player if and only if the player's leaves are outlived |
| `OneResolver.PayoutsIssuedOnce` | src/client/client.rs:193-228 | and if bet ids are used once, no payout id is ever issued twice |
| `OneResolver.NoPayoutsYet` | src/client/client.rs:194-205 | in every such play, as long as its only resolver may still resolve a round, no payout of that round exists anywhere |
| `RelayProof.NothingLost` | src/main.rs:164-189 | in every run every recorded operation is stored, queued at a client, or on its way to the server |
| `RelayProof.LacksOnlyGap` | src/server/sync_server.rs:60-75 | at quiet, a registered and drained client lacks at most what its connection's gap skipped |
| `RelayGap.GapNeverHeals` | src/server/sync_server.rs:74-75 | in every run, what a client on a registered connection misses of the gap it misses as long as it stays on that connection; the gap is fixed at registration |
| `RelayGap.SettledExactly` | src/server/sync_server.rs:60-75 | at quiet, a registered and drained client holds everything if and only if it held all of its connection's gap when it was registered |
| `RelayProof.Convergence` | src/server/sync_server.rs:60-109 | at quiet, all clients greeted after the last store insert hold all operations, in equal states |
| `RelayLimits.GapLosesOperation` | src/server/sync_server.rs:60-75 | a run ends quiet with a connected, registered, drained client lacking an operation |
| `RelayLimits.LogNotClosed` | src/server/sync_server.rs:60-75 | a run in which a client holds an operation and lacks an earlier one of the same issuer |
| `RelayQueue.QueuedExactly` | src/client/client.rs:36-44 | in every relay run a client's queue holds exactly what it recorded while offline and has not connected to send since |
| `RelayQueue.QueueIsSent` | src/main.rs:169-182 | connecting names exactly what the client has and sends the whole queue, in order, on the new connection |
| `RelayQueue.PublishedInOrder` | src/main.rs:380-395 | what an online client records goes to the end of its connection, in order; an offline client sends nothing |
| `RelayQueue.GreetingIsMissing` | src/server/sync_server.rs:60-72 | a Hello is answered with exactly what is stored and was not named |
| `RelayQueue.HeardInOrder` | src/server/sync_server.rs:106-108 | a broadcast goes to the end of every registered connection and to no other |
| `RelayQueue.StoreGrows` | src/server/operation_store.rs:11-17 | the store only grows, at its end, by operations with new ids |
| `RelayDurability.RelayHistory` | src/client/client.rs:267-276 | in every relay run whose clients record well-stamped, checked operations on causally closed logs, what was issued is a history and every client knows its own |
| `RelayDurability.UpToDateAccepts` | src/server/sync_server.rs:60-109 | at the quiet end of such a run an up-to-date client's log is everything issued, is causally closed and, where issuers were informed, rejects no bet or transfer of a player whose leaves are outlived |
| `MachineArithmetic.MachineReplayOrOverflow` | src/domain/state.rs:87-254 | for every log, whatever its amounts, replay with u64 and i64 sums overflows or is the model's replay |
| `MachineArithmetic.AvailableSome` | src/crdt/bounded_counter.rs:95-123 | in any counter and iteration order, available overflows or is what the model says it reports |
| `MachineDurability.MachineRunsAreRuns` | src/client/client.rs:144-253 | every run of clients that check with casts and overflowing sums is a run of the model |
| `MachineDurability.MachineOffersExactly` | src/client/client.rs:144-253 | on a log of total below 2^63 those clients offer exactly what the model offers |
| `MachineDurability.MachineDurable` | src/client/client.rs:144-253 | in every such run with informed issuers, every causally closed log is replayed without overflow and rejects no bet or transfer of a player if and only if the player's leaves are outlived and no such log overflows |
| `MachineDurability.SmallRunIsDurable` | src/client/client.rs:144-253 | if everything in the run adds up to less than 2^63 and payouts are known, that holds if and only if the leaves are outlived |
| `MachineArithmetic.MachineReplayExact` | src/domain/state.rs:87-254 | if everything a log mentions adds up to less than 2^63, replay with machine integers never overflows and is the mathematical replay |
| `MachineArithmetic.MachineQueriesExact` | src/crdt/bounded_counter.rs:95-143 | and available, total_remaining, value and total_spent, computed with casts and machine sums, are exact |
| `MachineArithmetic.AvailableExact` | src/crdt/bounded_counter.rs:95-123 | available computed with casts and i64 sums, in any iteration order, is the mathematical one |
| `MachineArithmetic.ReportsFit` | src/crdt/bounded_counter.rs:95-143 | what is reported without overflow is an i64 |
| `MachineArithmetic.ValueExact` | src/crdt/pn_counter.rs:19-23 | so is the PN-counter's value |
| `MachineArithmetic.GuardCoversExactly` | src/crdt/bounded_counter.rs:58-61 | for a solvent counter of volume below 2^63 the guard answers whether the rights cover the amount if and only if the amount is below 2^63 |
| `Oversized.SpendRaisesRights` | src/crdt/bounded_counter.rs:95-123 | after a spend of 2^63 or more the program reports the old rights plus what is missing from the amount to 2^64, or overflows |
| `Oversized.OversizedBetAccepted` | src/client/client.rs:165-183 | every bet of 2^63 or more of a seated player in an open round is accepted, with machine arithmetic and without overflow; balance and true rights become negative while the program reports more rights, or overflows when asked |
| `Oversized.BalanceOverflows` | src/crdt/pn_counter.rs:11-17 | an accepted join, bet or payout that takes a balance's sum to 2^64 overflows |
| `Oversized.OversizedTransferAccepted` | src/client/client.rs:230-253 | every transfer from 2^63 up to 2^64 after a log of volume below 2^63 is accepted, with machine arithmetic and without overflow; reported rights then rise for the sender and fall for the receiver by what is missing to 2^64 |
| `Oversized.SomeBetIsExposed` | src/client/client.rs:144-183 | there is such a run: 100 chips, one round, a bet of 2^64 - 1 |
| `CrdtObjects.LamportClock.Tick` | src/sync/lamport_clock.rs:11-14 | the clock advances by one and returns the new time |
| `CrdtObjects.LamportClock.Observe` | src/sync/lamport_clock.rs:16-18 | the clock becomes the maximum of both times |
| `CrdtObjects.Round.Open` | src/domain/round.rs:29-35 | opens exactly a created round, else changes nothing |
| `CrdtObjects.Round.Close` | src/domain/round.rs:37-43 | closes exactly an open round, else changes nothing |
| `CrdtObjects.Round.Resolve` | src/domain/round.rs:45-52 | resolves exactly a closed round with a die face, else changes nothing |
| `CrdtObjects.BoundedCounter.GetAvailable` | src/crdt/bounded_counter.rs:95-123 | the five terms, cast and summed as in the source, are what the model says it reports |
| `CrdtObjects.BoundedCounter.TrySpend` | src/crdt/bounded_counter.rs:47-65 | succeeds exactly for a known id or an amount whose cast is covered, and records it once |
| `CrdtObjects.BoundedCounter.TryTransfer` | src/crdt/bounded_counter.rs:67-93 | succeeds exactly for a known id or an amount whose cast is covered, and records it once |
| `CrdtObjects.BoundedCounter.GetTotalRemaining` | src/crdt/bounded_counter.rs:125-139 | the loop sums the reported rights of the enumerated replicas |
| `CrdtObjects.BoundedCounter.MergeWith` | src/crdt/bounded_counter.rs:145-156 | merging in place computes the join |
| `CrdtObjects.MergeMaxMap` | src/crdt/bounded_counter.rs:159-164 | the loop computes the pointwise maximum |
| `CrdtObjects.MergeEntryMap` | src/crdt/bounded_counter.rs:166-175 | for entries with any total order, the loop keeps the greater entry of each id |
| `CrdtObjects.PositiveNegativeCounter.GetValue` | src/crdt/pn_counter.rs:19-23 | increments minus decrements |
| `CrdtObjects.PositiveNegativeCounter.MergeWith` | src/crdt/pn_counter.rs:25-34 | merging in place computes the join |
| `CrdtObjects.ObservedRemoveSet.Remove` | src/crdt/or_set.rs:28-36 | removes exactly the observed tags of the element |
| `CrdtObjects.ObservedRemoveSet.GetElements` | src/crdt/or_set.rs:42-48 | returns exactly the elements with a visible tag |
| `CrdtObjects.ObservedRemoveSet.MergeWith` | src/crdt/or_set.rs:54-75 | merging in place computes the join |
| `CrdtObjects.LwwRegister.AssignValue` | src/crdt/lww_register.rs:19-24 | overwrites exactly when the new stamp is greater |
| `StateObject.BetSyncState.ApplyOperation` | src/domain/state.rs:87-249 | the in-place ten-way branch computes the step |
| `StateObject.BetSyncState.FromOperations` | src/domain/state.rs:39-55 | folds the stable sort of the vector, which for a log is its replay |
| `StateObject.SortOperations` | src/domain/state.rs:41-48 | a sorted permutation that leaves operations with equal keys in their order |
| `Replays.StableSortUnique` | src/domain/state.rs:41-48 | there is only one such permutation |
| `ClientObjects.OperationLog.Insert` | src/sync/operation_log.rs:12-18 | appends exactly operations with a new id |
| `ClientObjects.OperationLog.InsertAll` | src/sync/operation_log.rs:24-29 | delivers a batch and counts the new ones |
| `ClientObjects.OperationLog.SortedOperations` | src/sync/operation_log.rs:31-41 | a permutation strictly sorted by time, then replica, then id, that folds to the replay of the log |
| `ClientObjects.OperationStore.Insert` | src/server/operation_store.rs:11-17 | appends exactly operations with a new id |
| `ClientObjects.OperationStore.MissingFor` | src/server/operation_store.rs:19-26 | answers with exactly the stored operations the client did not name, in store order, so the two together cover the store |
| `ClientObjects.LocalClient.Record` | src/client/client.rs:267-276 | a recorded operation has a fresh id, sorts last, and the rebuilt state is one step from the old one |
| `ClientObjects.LocalClient.Ingest` | src/client/client.rs:50-57 | an arrival keeps state = replay of log and clock >= all times, whatever its place in history |
| `ClientObjects.LocalClient.IngestMany` | src/client/client.rs:59-67 | any sequence of arrivals is delivered, and the new ones counted |
| `ClientObjects.CommandsAreRecordings` | src/client/client.rs:267-276 | what every command does to log and queue is the recording step of the relay |
| `ClientObjects.ArrivalsAreIngested` | src/client/client.rs:50-57 | what every arrival does is its ingesting step |
| `ClientObjects.LocalClient.CreateTable` | src/client/client.rs:73-78 | records it, and the table has that name |
| `ClientObjects.LocalClient.JoinTable` | src/client/client.rs:80-89 | records it with all chips as rights of this replica; the player is seated with the chips, nobody else changes |
| `ClientObjects.LocalClient.JoinTableWithRights` | src/client/client.rs:91-105 | the same with a given split |
| `ClientObjects.LocalClient.LeaveTable` | src/client/client.rs:107-112 | records it, and exactly that player is no longer seated |
| `ClientObjects.LocalClient.StartRound` | src/client/client.rs:131-142 | records both operations; a new or merely created round is then open, any other as it was |
| `ClientObjects.LocalClient.MergeFrom` | src/client/client.rs:69-71 | the merged log is the union of both logs |
| `ClientObjects.LocalClient.QueueUnsynced` | src/client/client.rs:36-44 | the queue stays, with the operation at its end unless its id was there; its id is there afterwards, and ids stay unrepeated |
| `ClientObjects.LocalClient.TakeUnsynced` | src/client/client.rs:46-48 | hands over the queue and empties it |
| `ClientObjects.LocalClient.PlaceBet` | src/client/client.rs:144-183 | succeeds exactly under its checks, the amount cast to i64, so only on a round whose phase is open; a failure names the first check that failed and changes nothing; success shows exactly the bet it was called with, is queued while offline, is accepted at once and costs the balance exactly the stake and the reported rights its cast |
| `ClientObjects.LocalClient.CloseBetting` | src/client/client.rs:185-191 | succeeds exactly on an open round, which is then closed |
| `ClientObjects.LocalClient.ResolveRound` | src/client/client.rs:193-228 | refuses exactly what is no die face or no closed round, changing nothing; overflows exactly when some winner's prize is no u64, after the payouts of some other winners; else records the resolution and then exactly the payouts of `Commands.WinnersArePaid`; pays exactly what is owed when bet ids are distinct, and changes nothing when nobody bet on the round |
| `Session.Execute` | src/main.rs:190-318 | what each command of the command line records, and that while offline it queues just that |
| `Session.JoinsAreBacked` | src/main.rs:195-228 | neither join command hands out more rights than chips |
| `Session.OfflineSession` | src/main.rs:158-189 | after any commands offline, going online sends what was queued before and then everything recorded, in order |
| `ClientObjects.LocalClient.TransferSpendingRights` | src/client/client.rs:230-253 | succeeds exactly when the amount cast to i64 is covered; failure changes nothing; success moves exactly what the amount is cast to |

## Left out

- TCP, threads, channels, JSON and the HTTP frontend: only the order of messages and their effect on logs, queues and store are kept, as steps of `Relay`.
- Failed sends: the relay's channels deliver what is sent; a send that fails inside `publish_many` would lose the rest of its batch from the relay.
- Command-line parsing and defaults (`current_player`, `current_round`), printing, `print_rights`, the demo simulations and the `BetKind` text format.
- The strings of identifiers, the ignored `table_id` field, and the texts of rejections and errors, which are enumerations here.
- `active_round_id`: a presentation query.
- Builds without overflow checks: an overflowing sum or product ends the program here (None, Overflow), as in the default build; in a release build it wraps.
- Overflow inside the classes: their loops add unbounded integers, and only `ResolveRound` has an overflow outcome; `MachineArithmetic` and `MachineDurability` say what the sums do on u64 and i64.
- A converse for payouts and oversized income: where they are not known acceptance may still be durable, because other income makes up for the loss.
- Aliasing: CRDTs inside the state are values, as in the source; only the client, its clock, log and state are heap objects.
