# Account server and arena server, verified

This project models two servers of the repository in Dafny and proves what they promise over
whole runs. Check it with `dafny verify dfyconfig.toml`.

**The account server** sells and delivers. An order is a request that is charged, validated and
fulfilled; every charge, revert, save and account update is a task that one of 64 SQL workers
carries out later, well or badly; its result overwrites a cache in memory.

| module | what it models |
|---|---|
| `Lifecycle`, `LifecycleTheorems` | one request: phases, time-outs, the compensating revert, the transfer steps; what holds over every run |
| `Verdicts` | which answers complete an order and how, told without the machine; what an undisturbed transfer sends |
| `RequestServer` | the server's real tables: request objects, the order-id index, the due lists, `Tick`, pending deletes; every method proved to do what `Lifecycle` says |
| `ShardTransfer` | one transfer between two shards over a network that loses, delays, doubles and re-orders |
| `TransferEnds` | from every state of it the transfer can still reach its end |
| `OrderLedger`, `Tallies` | the stored procedures and their two logs; what the totals come to, told by the tasks alone |
| `SqlPool`, `AccountSql`, `FlexInventory` | the workers' queues, retries, in-flight count and caches as a state machine, the class that takes its steps, and the result buffer |
| `Compensation`, `CompensationRuns` | request, pool and procedures together: when a revert undoes its order |
| `DirtyList` | the accounts to be written, as a list threaded through the accounts |
| `DelayedPackets` | packets queued again until their account is loaded |
| `TransferTokens` | the sliding window of free transfers |
| `Loyalty`, `LoyaltyRules` | points, reward nodes, levels and character slots; which requests are accepted, and that nobody overspends |

**The arena server** runs events.

| module | what it models |
|---|---|
| `ArenaEvents`, `ArenaRounds` | the phase machine: rounds, maps, payout and refund; where each phase leads and that every round is played |
| `EventTable`, `EventPlayers`, `EventList` | slots and unique ids, places and players, and the class over both |
| `Listeners`, `ListenerRegistry` | which map server hears which player, the minute without a listener, and the class that keeps it |

Where the code changes things in place there is a class. Each of its methods is proved equal to a
specification function, and the theorems are about runs of those functions. `Lists` and `Options`
hold shared definitions.

## What the code does not keep

Each of these is proved: a run that shows it, and the exact condition where there is one.

- **Finished requests come back.** `ChangeState` and `Tick` restart the timer when the phase is
  unchanged, without asking whether the request has finished (AccountServer/src/request.cpp:340 and
  :364). A request that a phase method finishes is linked back into an active list, is never freed,
  and in the fulfil phase asks for the delivery of its reverted order again:
  `DeletedIffVerdict`, `RelinkedForever`, `AsksAgainIff`, `DeliversARevertedOrder`; `GuardDeletes` shows
  that a look at `completed` there would be enough.
- **A revert can come too late.** A shard may mark an order as saved while its request is still
  live (AccountServer/src/AccountServer.cpp:1182-1198). If the request then fails, its revert finds
  the rows saved and the order keeps its effect: `Undone`, `SingleUndoneIff`, `WholeUndoneIff`
  say exactly when, `SavedThenReverted` gives the run.
- **A delivered order can be reverted.** A failure packet for an order that was already announced
  as a success queues its revert (AccountServer/src/request_certification.cpp:59-77), and where nobody
  saved the order that takes it back: `ForgottenReverts`, `RevertsADeliveredOrder`, `Undone`.
- **Reverts find nothing in a fresh schema.** A revert looks for rows with `saved = 0`, but a new
  row of `game_log` leaves the column null (Assets/DBSchemas/cohacc.sql:193-205, :682-738). The theorems about the
  procedures take the column's value in a new row as a parameter: `RevertCancelsIff`; those about
  runs (`Undone` and the two after it) are for a schema that marks new rows as not saved.
- **A transfer window longer than 49710 days wraps** in 32 bits: `LimitOverDaysIff`, `TooMany`.
- **Copying twice.** A copy request that arrives after the character was unlocked makes a second
  one; links read in order exclude it: `SecondCopyIff`, `NeverCopiedTwice`.
- **Refunds that are not owed.** A negative change with a node index and no purchase clears the
  node in the reset and refunds it again: `ChangeKeepsLedgerIff`. An auth update can also buy
  legacy nodes with points that are not there: `AuthOverspendsIff`. A request that takes all points skips every
  test, so if it also buys a node when there is nothing to give back it overspends by one: `RequestOverspendsIff`.
- **An intermission can last for ever.** The time left is unsigned, so only a visit in the exact
  second ends it (ArenaServer/src/arenaevent.c:2561): `IntermissionEndsIff`, `MissedSecondSticks`.
- **A result can be taken back.** A map's report is not tested for the phase, so a report of side 0
  blanks a seat of a round that has ended (ArenaServer/src/arenaevent.c:1868-1895): `StaysReportedIff`,
  `RoundEndsReported`, `TakenBack`.
- **A prize phase without a runner-up refunds** (ArenaServer/src/arenaranking.c:1239-1246): `PaidIff`.
- **Acks are counted, not players** (ArenaServer/src/arenaevent.c:2065-2068): `AcksCounted`, `ReadyIff`.
- **The reserved id is one too late.** `DeletingUniqueId` is meant for an id that is about to be
  given out, but an id equal to the counter is not skipped (ArenaServer/src/arenaevent.c:38), so the
  handle of a deleted loaded event can name the next event: `DeletedHandleIff`, `ReservedTooLate`.
- **Fitting the places trims players.** The comment says unused participants are trimmed, the loop
  trims from the end (ArenaServer/src/arenaevent.c:1575-1577): `ResizedKeepsIff`.

## Assumptions

- Pool queues are first in, first out at each worker. A failed task leaves the database unchanged.
- A destination shard's copies carry the order id as their lock, and a production shard looks the lock up before it copies.
- The owner may delete the character at the source at any time; the auction server may never answer.
- The clock does not run backwards, and the clock of requests stays below 2^31.
- Order ids are given out once: apart from an order's own add no task writes rows under its ids. Saves and
  reverts of any id may come from any account at any time.

## Model

| member | source | states |
|---|---|---|
| `LifecycleTheorems.StepFair` | AccountServer/src/request.cpp:245-369 | no event lowers the phase or the transfer step, un-finishes a request, or finishes it without exactly the effects of finishing; an unfinished request stays in an active list |
| `LifecycleTheorems.FinishesOnce` | AccountServer/src/request.cpp:259-286 | over every run one notification at most, exactly one once finished; a revert exactly for a failed order with an id; at most one add, and a save only after success |
| `LifecycleTheorems.ChargeWaits` | AccountServer/src/request.cpp:288-304 | a charging request leaves its phase only on the success of its add, and asks no shard for anything before |
| `LifecycleTheorems.DeliveryNeedsCharge` | AccountServer/src/request.cpp:173-257 | every message that asks a shard to deliver comes after the result of the add was reported a success, or the order was recovered as unsaved |
| `LifecycleTheorems.RunOnlyAdvances` | AccountServer/src/request.cpp:333-342 | along every run the phase and the transfer step never fall and a finished request stays finished |
| `LifecycleTheorems.DeletedIffVerdict` | AccountServer/src/request.cpp:259-286 | a finishing request ends on the delete list exactly if the event carried the verdict itself; whenever a phase method finishes it, the timer restart puts it back in an active list |
| `LifecycleTheorems.GuardDeletes` | AccountServer/src/request.cpp:333-369 | were the timer restarted for unfinished requests only, every request that a phase method finishes would be deleted, and no other would fare differently |
| `LifecycleTheorems.RelinkedAfterRun` | AccountServer/src/request.cpp:333-342 | after a change of phase or a due visit the request is in an active list, finished or not |
| `LifecycleTheorems.RelinkedForever` | AccountServer/src/request.cpp:348-369 | a finished request that is back in an active list is never freed, in any run |
| `LifecycleTheorems.DeletedStaysSilent` | AccountServer/src/request.cpp:371-375 | a finished request on the delete list sends nothing of its own any more and the next sweep frees it |
| `LifecycleTheorems.AsksAgainIff` | AccountServer/src/request.cpp:348-369 | exactly when a finished, relinked request asks for its delivery again: due, in the fulfil phase, links up, payload present |
| `LifecycleTheorems.DeliversARevertedOrder` | AccountServer/src/request.cpp:333-342 | a run in which an order is reverted and its delivery asked for afterwards |
| `LifecycleTheorems.ForgottenReverts` | AccountServer/src/request_certification.cpp:59-77 | over every run: each failure packet that comes after an order was announced as finished, also as a success, reverts it, and nothing else makes such a revert |
| `LifecycleTheorems.RevertsADeliveredOrder` | AccountServer/src/request_certification.cpp:59-77 | a run in which an order is announced as a success and then reverted by a second packet |
| `Verdicts.VerdictIff` | AccountServer/src/request.cpp:245-304 | for every event and every live request: a success is announced exactly on the six answers that say so, the acknowledged final commit and a found recovery among them; a failure exactly on the answers that say so, a late charge or validation, or a link that is down; the order is reverted exactly with a failure, saved exactly with a fulfilled slot |
| `Verdicts.RunVerdictIff` | AccountServer/src/request.cpp:245-304 | over every run a success, a failure and a revert have been sent exactly if some live moment of the run met such an answer |
| `Verdicts.CommitIsFinal` | AccountServer/src/request_shardxfer.cpp:329-351 | once the final commit is acknowledged, no continuation reverts the order or announces a failure |
| `Verdicts.BeginIs` | AccountServer/src/request.cpp:173-209 | a new order is live in its charge, unconfirmed, with only its add submitted |
| `Verdicts.ResumeIs` | AccountServer/src/request.cpp:211-243 | a recovered order starts behind its charge, in validation or for kinds without one in fulfilment, asks its shards at once, and is neither charged nor confirmed |
| `Verdicts.ResendsIs` | AccountServer/src/request_shardxfer.cpp:124-205 | a fulfilment that is due sends the packet of its step again, and stays at that step |
| `Verdicts.TimerIs` | AccountServer/src/request.cpp:320-342 | thirty seconds for a validation, five minutes for a charge or a fulfilment, counted from the visit |
| `Verdicts.ReplyIs` | AccountServer/src/request_shardxfer.cpp:287-366 | the awaited reply takes a transfer one step on and sends that step's packet; any other reply changes nothing |
| `Verdicts.StartIs` | AccountServer/src/request.cpp:288-304 | what each kind of order asks for when its charge has succeeded |
| `Verdicts.ConfirmIs` | AccountServer/src/request_shardxfer.cpp:226-285 | the copy is asked for exactly with the second confirmation, in either order |
| `Verdicts.TwoPhaseIs` | AccountServer/src/request_rename.cpp:45-79 | a validated rename or respec goes on to ask for its fulfilment |
| `Verdicts.TransferNeedsRoom` | AccountServer/src/request_shardxfer.cpp:252-285 | over every run no message that touches the character is sent before the source said yes and the destination had a free slot for this account and this shard |
| `Verdicts.TransferCompletes` | AccountServer/src/request_shardxfer.cpp:124-366 | answered in turn, a transfer sends its packets in the order of the protocol and ends with success |
| `Verdicts.CompleteIs` | AccountServer/src/request.cpp:259-286 | finishing takes a live request out of the index onto the deletes, and says what is sent in every case |
| `Verdicts.ForgottenIs` | AccountServer/src/request_certification.cpp:59-77 | a finish packet for a forgotten order is passed on, and reverts exactly a failed one with an id |
| `RequestServer.CompareOrders` | AccountServer/src/request.cpp:78-84 | the signed difference of two stored ticks is that of the ticks themselves whenever these lie within 2^31 of each other |
| `RequestServer.RequestServer.IndexExact` | AccountServer/src/request.cpp:94-112 | in every valid state the index holds exactly the added unfinished requests, one for each order id, each in the list its link names |
| `RequestServer.RequestServer.Unlink` | libs/UtilitiesLib/include/utilitieslib/UtilsCXX/list.hpp:100-109 | takes the request out of its list, keeps the order of the rest and every other list |
| `RequestServer.RequestServer.AddSortedNearTail` | libs/UtilitiesLib/include/utilitieslib/UtilsCXX/list.hpp:219-229 | puts the request at its place in the sorted list of its phase and moves no other |
| `RequestServer.RequestServer.ReSort` | AccountServer/src/request.cpp:86-92 | the list stays sorted under the new tick and no other request moves |
| `RequestServer.RequestServer.Remove` | AccountServer/src/request.cpp:105-112 | takes the order out of the index and its request off its list, and nothing else |
| `RequestServer.RequestServer.Complete` | AccountServer/src/request.cpp:259-286 | on the linked lists exactly the finishing of the request machine: once, with revert and notice, out of the index, onto the deletes; all other requests untouched |
| `RequestServer.RequestServer.UpdateNextTick` | AccountServer/src/request.cpp:320-331 | restarts the timer of the phase and re-sorts; all other requests keep their state, list and order |
| `RequestServer.RequestServer.StateFulfill` | AccountServer/src/request_shardxfer.cpp:124-205 | sends exactly the packet of the current step, or fails on a lost link |
| `RequestServer.RequestServer.StateValidate` | AccountServer/src/request_shardxfer.cpp:93-122 | asks both shards, or fails on a lost link or a time-out; other kinds as their own files say |
| `RequestServer.RequestServer.RunState` | AccountServer/src/request.cpp:306-318 | runs the phase as the machine does, on real lists |
| `RequestServer.RequestServer.ChangeState` | AccountServer/src/request.cpp:333-342 | enters and runs a phase as the machine does, with the same relinking of a request it finished |
| `RequestServer.RequestServer.OnTransactionCompleted` | AccountServer/src/request.cpp:288-304 | the result of an add reaches exactly the indexed request of its order; an unknown order changes nothing |
| `RequestServer.RequestServer.HandleFinish` | AccountServer/src/request_certification.cpp:32-81 | a finish packet finishes a live order, and for one the index has forgotten reverts and notifies without touching any request |
| `RequestServer.RequestServer.HandleSlot` | AccountServer/src/request_slot.cpp:27-52 | a slot reply finishes a live slot order and saves it on success |
| `RequestServer.RequestServer.HandleTwoPhase` | AccountServer/src/request_rename.cpp:45-79 | a rename or respec reply moves only a live order of that kind that is in the phase the reply answers |
| `RequestServer.RequestServer.HandleTransfer` | AccountServer/src/request_shardxfer.cpp:226-371 | a transfer reply reaches exactly a live transfer, in its validation or at the step it answers; `Verdicts` says which reply completes it and how |
| `RequestServer.RequestServer.AddSorted` | AccountServer/src/request.cpp:94-103 | refuses a null or known order id and changes nothing; else indexes and lists the request and keeps every other |
| `RequestServer.RequestServer.New` | AccountServer/src/request.cpp:173-209 | an order id comes back exactly if the shard is up, the order was accepted and its id is new; what is sent and kept in every case |
| `RequestServer.RequestServer.Recover` | AccountServer/src/request.cpp:211-243 | an unsaved order is resumed exactly if it is not live already; a live one is left entirely alone |
| `RequestServer.RequestServer.Walk` | AccountServer/src/request.cpp:348-369 | though each visit re-inserts its request, the walk visits exactly the due ones in list order, once each, ends, and leaves none due |
| `RequestServer.RequestServer.Tick` | AccountServer/src/request.cpp:348-375 | over the three lists: every due request is run exactly once, nobody else is, none is left due, and exactly the pending deletes are freed |
| `RequestServer.RequestServer.ProcessPendingDeletes` | AccountServer/src/request.cpp:371-375 | frees exactly the requests on the delete list |
| `RequestServer.RequestServer.Observe` | AccountServer/src/request.cpp:114-145 | clock and links move without touching a request |
| `RequestServer.RunAllFacts` | AccountServer/src/request.cpp:348-369 | visiting distinct requests does to each what a single visit does, whatever was visited before |
| `RequestServer.LandsInTail` | AccountServer/src/request.cpp:86-103 | a visited request goes back behind everything that is still due |
| `RequestServer.DuePrefix` | AccountServer/src/request.cpp:348-369 | what is due of a sorted list is its beginning |
| `RequestServer.DuePutsOff` | AccountServer/src/request.cpp:320-331 | a visited request is due later than now |
| `RequestServer.LostLinkFailsIff` | AccountServer/src/request.cpp:306-318 | a due fulfilment fails exactly if the shard of the order, or for a transfer the one it goes to, is not connected |
| `RequestServer.PlaceNearTail` | libs/UtilitiesLib/include/utilitieslib/UtilsCXX/list.hpp:219-229 | the place behind everything that is not later |
| `ShardTransfer.RunSafe` | AccountServer/src/request_shardxfer.cpp:124-366 | the protocol invariant holds in every reachable state, with lost, late, doubled, re-ordered and resent messages |
| `ShardTransfer.NeverLost` | AccountServer/src/request_shardxfer.cpp:124-205 | in every reachable state the character is at the source or at the destination, unless its owner deleted it at the source |
| `ShardTransfer.PlayableInOnePlace` | DBServer/src/accountservercomm.c:638-856 | an unlocked copy exists only when the source has let the character go, and there is at most one |
| `ShardTransfer.DeletesOnlyAfterAck` | AccountServer/src/request_shardxfer.cpp:165-190 | the source is told to delete only after the destination acknowledged a nonzero new id, which it still holds |
| `ShardTransfer.SuccessMeansMoved` | AccountServer/src/request_shardxfer.cpp:290-366 | success is announced only after the final commit or a found recovery was acknowledged; the source has nothing left and the destination has an unlocked character |
| `ShardTransfer.StepOnlyRises` | AccountServer/src/request_shardxfer.cpp:226-366 | whatever is delivered again or late, the step and the phase only rise |
| `ShardTransfer.NeverCopiedTwice` | DBServer/src/accountservercomm.c:769-786 | with production look-up and links read in order there is never a second copy, in any run |
| `ShardTransfer.CopyMeetsNoUnlocked` | DBServer/src/accountservercomm.c:769-786 | a copy request read in order never meets an unlocked character of its order |
| `ShardTransfer.DstKeepsOneCopy` | DBServer/src/accountservercomm.c:769-856 | no message adds a second copy once copies meet none unlocked; only commit and recovery unlock |
| `ShardTransfer.SecondCopyIff` | DBServer/src/accountservercomm.c:769-786 | a copy request makes a second character exactly if the first is unlocked already or the look-up is off |
| `ShardTransfer.AccountStepOrderly` | AccountServer/src/request_shardxfer.cpp:226-371 | step and destination id change only on the awaited reply, and every message sent fits the step |
| `TransferEnds.NoDeadEnd` | AccountServer/src/request_shardxfer.cpp:124-366 | from every reachable state of an unfinished transfer, whatever was lost, resent or deleted before, some further deliveries bring it to success if the character can still move, and to a failure otherwise |
| `TransferEnds.RunSound` | AccountServer/src/request_shardxfer.cpp:93-205 | over every run an unfinished transfer is live, has asked both shards before it waits for them, and copies only what it was given |
| `OrderLedger.RunBalanced` | Assets/DBSchemas/cohacc.sql:391-793 | after every run of tasks of all accounts the totals equal the sums over the two logs |
| `OrderLedger.ExecBalanced` | Assets/DBSchemas/cohacc.sql:391-793 | each procedure keeps totals and logs in step; what an add adds is in `Tallies` |
| `OrderLedger.RevertCancels` | Assets/DBSchemas/cohacc.sql:682-738 | an add, any tasks after it, among them a revert of the order and no earlier save of its rows: logs, purchases and totals as if the order had never been |
| `OrderLedger.RevertCancelsIff` | Assets/DBSchemas/cohacc.sql:682-792 | for single and multi orders and every value of the column in a new row, with saves and reverts of the order by anyone in between: after a revert no row is left exactly if new rows come as not saved and none was saved before it was reverted; the totals are those without the order exactly if what is left is worth nothing |
| `OrderLedger.SingleCancelsIff` | Assets/DBSchemas/cohacc.sql:682-792 | for a single order the totals condition is: not saved first in a schema that marks new rows as not saved, or nothing moved |
| `OrderLedger.WholeCancelsIff` | Assets/DBSchemas/cohacc.sql:682-792 | for an order saved and reverted as a whole: not saved before the first revert, or worth nothing when saved |
| `OrderLedger.NetEffect` | Assets/DBSchemas/cohacc.sql:391-793 | whatever runs after an add, the books are those without the order and, beside them, its leftover rows and what they are worth |
| `OrderLedger.KeptIsLeft` | Assets/DBSchemas/cohacc.sql:682-792 | each row is left, marked or gone by the first save or revert that touches it, whatever follows |
| `OrderLedger.RevertFinds` | Assets/DBSchemas/cohacc.sql:682-738 | a revert takes exactly the rows of the order that are marked as not saved |
| `OrderLedger.ExecReports` | Assets/DBSchemas/cohacc.sql:391-793 | the rows a task returns cover every product of its account that it changed, with the new totals, and it changes no other account |
| `OrderLedger.CountsOnce` | Assets/DBSchemas/cohacc.sql:391-470 | a purchase or add that is executed again changes nothing more |
| `OrderLedger.SavedIsFinal` | Assets/DBSchemas/cohacc.sql:740-792 | a saved row stays, whatever tasks follow |
| `OrderLedger.OverlayConcat` | AccountServer/src/account_inventory.cpp:95-111 | applying two lists of rows in turn is applying their concatenation |
| `OrderLedger.RunBeside` | Assets/DBSchemas/cohacc.sql:391-793 | tasks of other orders do the same to logs and totals beside an order as without it, and only its own saves and reverts move its rows |
| `Tallies.AddGameAdds` | Assets/DBSchemas/cohacc.sql:391-470 | an order that is new to the log adds what it grants (at most 400 of an expiring product) to granted and what it claims to claimed, of its account and product alone |
| `Tallies.AddMicroAdds` | Assets/DBSchemas/cohacc.sql:472-541 | a new purchase adds its quantity to granted and is recorded once |
| `Tallies.AddMultiAdds` | Assets/DBSchemas/cohacc.sql:543-598 | a multi order adds the sum over its items |
| `Tallies.TotalsAreTally` | Assets/DBSchemas/cohacc.sql:391-793 | over every run of tasks of all accounts each total is the start plus what the orders and purchases name, each once, less the orders that are reverted before they are saved |
| `SqlPool.RunGood` | AccountServer/src/AccountSql.cpp:213-234 | every reachable state satisfies the invariant of queues, caches, rows and counts |
| `SqlPool.NextGood` | AccountServer/src/AccountSql.cpp:1084-1163 | each call of the server and each turn of a worker keeps that invariant |
| `SqlPool.CacheAgreement` | AccountServer/src/account_inventory.cpp:66-111 | for a loaded account, with any interleaving and any failed loads before: applying the results still to be taken to the cache gives the database rows, so without any the two are equal |
| `SqlPool.LoadOutstanding` | AccountServer/src/AccountSql.cpp:637-672 | in_flight is the number of tasks pushed and not finished; an account that is not loaded has exactly one load outstanding, a loaded one none; so nobody waits on an empty pool |
| `SqlPool.WrittenBehind` | AccountServer/src/AccountSql.cpp:691-703 | a clean account without an update in flight has its current fields in the database |
| `SqlPool.NeverOlder` | AccountServer/src/AccountSql.cpp:691-703 | no step replaces a row by an older version of it, whatever fails and is retried |
| `SqlPool.RunNeverOlder` | AccountServer/src/AccountDb.cpp:187-199 | over whole runs the row in the database only gets newer |
| `SqlPool.OnlyWorkersWrite` | AccountServer/src/AccountSql.cpp:1084-1123 | no call of the server thread writes to the database |
| `SqlPool.CarryElsewhere` | AccountServer/src/AccountSql.cpp:1084-1123 | a task leaves the rows of every other account alone |
| `FlexInventory.FlexInventory.Fit` | libs/UtilitiesLib/src/utils/utils_opt.c:700-735 | room for the next index, keeping what the list held |
| `FlexInventory.FlexInventory.Add` | AccountServer/src/AccountSql.cpp:563-577 | the contents grow by the row, through the inline slot, the first heap list and its growth |
| `FlexInventory.FlexInventory.Update` | AccountServer/src/account_inventory.cpp:95-111 | the inline and the list form give the same cache: every row applied in order |
| `FlexInventory.ReadRows` | AccountServer/src/AccountSql.cpp:789-832 | the buffer holds exactly the fetched rows in order |
| `AccountSql.AccountSql.PushTask` | AccountServer/src/AccountSql.cpp:229-234 | queues the job at the worker of the account; the pool is thawed exactly while in_flight > 0 |
| `AccountSql.AccountSql.LoadOrCreate` | AccountServer/src/AccountDb.cpp:122-145 | a new account starts one load, a known one none; a pool step that keeps the invariant |
| `AccountSql.AccountSql.Submit` | AccountServer/src/AccountSql.cpp:705-787 | an order task queued at the worker of its account |
| `AccountSql.AccountSql.Change` | AccountServer/src/AccountDb.cpp:201-216 | a change marks a loaded account dirty |
| `AccountSql.AccountSql.CommitAsync` | AccountServer/src/AccountDb.cpp:187-199 | copies the fields, clears the mark and queues the update |
| `AccountSql.AccountSql.WorkerTurn` | AccountServer/src/AccountSql.cpp:1084-1123 | a turn of a worker is a step of the pool |
| `AccountSql.AccountSql.TryPop` | AccountServer/src/AccountSql.cpp:213-218 | the oldest result of the first worker that has one, or none anywhere |
| `AccountSql.AccountSql.FinishEntry` | AccountServer/src/AccountSql.cpp:1125-1163 | finishing a result is the pool step for its kind; failed loads and updates are queued again, nothing else is |
| `AccountSql.AccountSql.Tick` | AccountServer/src/AccountSql.cpp:213-223 | ends with no result waiting, each taken once, and every change a pool step |
| `AccountSql.AccountSql.WaitFor` | AccountServer/src/AccountDb.cpp:173-179 | waiting makes only pool steps, never on an empty pool, and ends with the account loaded once its worker has carried out more jobs well than it had before it |
| `SqlPool.CallsQueue` | AccountServer/src/AccountSql.cpp:229-234 | every call that needs the database queues its one job behind all others at the worker of its account, a commit with the fields as they are now |
| `SqlPool.ChangeIs` | AccountServer/src/AccountDb.cpp:201-216 | a change of a loaded account takes effect at once, marks it, and leaves cache and all other accounts alone |
| `Compensation.Compensated` | AccountServer/src/transaction.cpp:202-205 | for every order of execution with the add before a revert, and saves and reverts of the order anywhere: when exactly logs, and when exactly totals, end as if the order's own tasks had been left out |
| `Compensation.NetOfTrace` | AccountServer/src/transaction.cpp:202-247 | what an order adds to the books over any sequence of tasks is its leftover rows and no more |
| `Compensation.NeverAdded` | Assets/DBSchemas/cohacc.sql:682-792 | on books that do not know the order its saves and reverts change nothing |
| `CompensationRuns.RunSafe` | AccountServer/src/request.cpp:259-286 | request, pool and trace keep the staging invariant over every interleaving with other accounts and orders, and with saves and reverts of this one by other code |
| `CompensationRuns.DeliveryNeedsAdd` | AccountServer/src/request.cpp:288-304 | over every run a shard is asked to deliver a started order only once its add has been carried out in the database |
| `CompensationRuns.RevertWaitsBehindAdd` | AccountServer/src/request.cpp:245-286 | a revert that was sent is queued or has been tried; where both are queued it is behind its add, at the same worker, and at no other |
| `CompensationRuns.Undone` | AccountServer/src/request.cpp:259-286 | once any revert of the order has been carried out, also after a time-out while the add was still queued: the log is the one without the order exactly if no row was saved before it was reverted, the totals exactly if what remains is worth nothing |
| `CompensationRuns.SingleUndoneIff` | AccountServer/src/AccountServer.cpp:1182-1198 | for a single order the totals are those without it exactly if it was not marked as saved between its add and its first revert, or moved nothing |
| `CompensationRuns.WholeUndoneIff` | AccountServer/src/AccountServer.cpp:1182-1198 | the same for single and multi orders that are saved and reverted as a whole, for logs and totals |
| `CompensationRuns.SavedThenReverted` | AccountServer/src/AccountServer.cpp:1182-1198 | a run: delivered, marked as saved, link down at the next visit; the order fails, and its revert leaves every row |
| `CompensationRuns.StartPossible` | AccountServer/src/request.cpp:173-209 | a start as these theorems take it exists for every account and order |
| `CompensationRuns.TimesOutWhileAddWaits` | AccountServer/src/request.cpp:245-248 | from every start the charge can time out while the add is queued, and then add and revert both wait |
| `TransferTokens.TokenList.UpdateCount` | AccountServer/src/request_shardxfer.cpp:373-394 | pruning in place from the back leaves the young tokens in order and counts what may still be used |
| `TransferTokens.TokenList.UseToken` | AccountServer/src/request_shardxfer.cpp:207-224 | a transfer takes a token exactly if one is left |
| `TransferTokens.SlidingWindow` | AccountServer/src/request_shardxfer.cpp:207-224 | in every run and every window of the configured length at most the allowed number of transfers is taken |
| `TransferTokens.TakenIff` | AccountServer/src/request_shardxfer.cpp:373-394 | a transfer is taken exactly if fewer than the allowed number were taken in the window before it, although old tokens were pruned away |
| `TransferTokens.WindowWraps` | AccountServer/src/request_shardxfer.cpp:373-394 | the window is the configured days exactly up to 49710 days |
| `TransferTokens.LimitOverDaysIff` | AccountServer/src/request_shardxfer.cpp:373-394 | the limit over the configured days holds for all runs exactly if the days are at most 49710 |
| `TransferTokens.TooMany` | AccountServer/src/request_shardxfer.cpp:373-394 | a run over the limit where the days are more |
| `TransferTokens.PruneLater` | AccountServer/src/request_shardxfer.cpp:373-394 | pruning twice is pruning once at the later time |
| `TransferTokens.TakenByCountIff` | AccountServer/src/request_shardxfer.cpp:373-394 | the same told on the transfers themselves: taken exactly if those within the window are fewer than allowed |
| `DirtyList.AccountDb.Create` | AccountServer/src/AccountDb.cpp:122-145 | a new account is known, not loaded and in no list |
| `DirtyList.AccountDb.LoadFinished` | AccountServer/src/AccountDb.cpp:218-237 | loading keeps the list and its order |
| `DirtyList.AccountDb.MarkUpdate` | AccountServer/src/AccountDb.cpp:201-216 | an account without flags goes to the head, a flagged one stays where it is; the flags add up |
| `DirtyList.AccountDb.Turn` | AccountServer/src/AccountDb.cpp:87-120 | one turn of the walk passes the account and keeps or unlinks it, with every pointer where the sequence says |
| `DirtyList.AccountDb.Tick` | AccountServer/src/AccountDb.cpp:87-120 | every flagged account is committed or sent once, in order; the list keeps in order exactly those not loaded and still to be sent; true exactly if it is empty |
| `DirtyList.KeptMembers` | AccountServer/src/AccountDb.cpp:87-120 | what a tick keeps is duplicate-free and exactly what is still to be sent |
| `DirtyList.ToCommitMembers` | AccountServer/src/AccountDb.cpp:87-120 | a tick commits exactly the accounts marked for the database, once each |
| `DirtyList.ToSendMembers` | AccountServer/src/AccountDb.cpp:87-120 | it sends exactly the loaded accounts marked for the shards, once each |
| `DirtyList.KeptInOrder` | AccountServer/src/AccountDb.cpp:87-120 | what stays keeps its order |
| `DelayedPackets.DelayedQueue.DelayUntilLater` | AccountServer/src/AccountServer.cpp:537-547 | a packet goes to the back with the current stamp; the older stamps stay before it |
| `DelayedPackets.DelayedQueue.DispatchHead` | AccountServer/src/AccountServer.cpp:515-529 | the head is dispatched, and freed unless it was queued again |
| `DelayedPackets.DelayedQueue.Tick` | AccountServer/src/AccountServer.cpp:500-529 | ends although handlers queue again; dispatches the packets queued before it in order, up to and with the first error; re-queued ones follow with the new stamp |
| `DelayedPackets.WithoutErrors` | AccountServer/src/AccountServer.cpp:500-529 | every packet queued before a tick is dispatched exactly if no handler but the last reported an error |
| `DelayedPackets.EndingSplits` | AccountServer/src/AccountServer.cpp:515-529 | every dispatched packet is freed or queued again, never both |
| `DelayedPackets.Dispatches` | AccountServer/src/AccountServer.cpp:500-529 | the dispatches of a tick end with the first error |
| `Loyalty.Account.ChangeNode` | AccountServer/src/account_loyaltyrewards.cpp:167-216 | sets or clears the bit of a node and moves one point, and touches nothing for an index without a node |
| `Loyalty.Account.DecreasePoints` | AccountServer/src/account_loyaltyrewards.cpp:260-273 | the reset loop over all nodes |
| `Loyalty.Account.IncreasePoints` | AccountServer/src/account_loyaltyrewards.cpp:275-288 | the gain and every level it reaches |
| `Loyalty.Account.AdjustLevels` | AccountServer/src/account_loyaltyrewards.cpp:117-153 | exactly the levels the new points have and the old had not, in order |
| `Loyalty.Account.GrantCharSlots` | AccountServer/src/account_loyaltyrewards.cpp:155-165 | the slots that the gain is worth |
| `Loyalty.Account.HandleAuthUpdate` | AccountServer/src/account_loyaltyrewards.cpp:290-415 | the whole update: clamping, gain, slots, legacy nodes |
| `Loyalty.Account.HandleLoyaltyChange` | AccountServer/src/account_loyaltyrewards.cpp:417-449 | on bits and points in place what a request does, as the three rules for a node, a loss and a gain of points tell it (`LoyaltyRules`) |
| `Loyalty.Account.ValidateChange` | AccountServer/src/account_loyaltyrewards.cpp:218-258 | answers, and changes nothing; what it lets through is told on bits and points in `LoyaltyRules` |
| `Loyalty.NodeLedger` | AccountServer/src/account_loyaltyrewards.cpp:167-216 | a node change moves earned - unspent - owned by 0 exactly if it flips the bit, else by one |
| `Loyalty.ResetLedger` | AccountServer/src/account_loyaltyrewards.cpp:260-273 | a reset gives back exactly the nodes held |
| `Loyalty.AuthKeepsLedger` | AccountServer/src/account_loyaltyrewards.cpp:290-415 | every auth update conserves earned - unspent - owned |
| `Loyalty.AuthOverspendsIff` | AccountServer/src/account_loyaltyrewards.cpp:320-340 | unspent goes negative exactly if the legacy nodes missing cost more than the points at hand |
| `Loyalty.ChangeLedger` | AccountServer/src/account_loyaltyrewards.cpp:417-449 | the exact change of the ledger by any loyalty change |
| `Loyalty.ChangeKeepsLedgerIff` | AccountServer/src/account_loyaltyrewards.cpp:417-449 | it is conserved exactly unless an accepted request refunds after a reset or buys an owned node |
| `Loyalty.PointsCoverNodes` | AccountServer/src/account_loyaltyrewards.cpp:218-258 | over every run of guarded requests and updates the points spent cover the nodes held |
| `Loyalty.LevelsOnce` | AccountServer/src/account_loyaltyrewards.cpp:117-153 | earned points never fall and each level is granted once at most, exactly when first reached |
| `Loyalty.SlotsTelescope` | AccountServer/src/account_loyaltyrewards.cpp:155-165 | over a run of updates with one legacy the slots granted are the difference of the ends, divided by twelve |
| `LoyaltyRules.NodeRequestIs` | AccountServer/src/account_loyaltyrewards.cpp:218-258 | a request without points buys exactly an unlocked node, with a point to spend, not held or repeatable, for one point, and gives back exactly one that is held; else nothing changes |
| `LoyaltyRules.ResetRequestIs` | AccountServer/src/account_loyaltyrewards.cpp:260-273 | when a loss of points is carried out, and that it gives back every node held, and takes or gives the one it names |
| `LoyaltyRules.GainRequestIs` | AccountServer/src/account_loyaltyrewards.cpp:275-288 | when a gain of points is carried out, and what it leaves of points, nodes and levels |
| `LoyaltyRules.RequestOverspendsIff` | AccountServer/src/account_loyaltyrewards.cpp:218-258 | a request overspends exactly if it takes all points when there are none, no node is held, and buys a node in the same breath |
| `LoyaltyRules.NeverOverspent` | AccountServer/src/account_loyaltyrewards.cpp:417-449 | over every run of requests and updates that leave that out and pay their legacy nodes, unspent never falls below zero |
| `LoyaltyRules.LegacyIs` | AccountServer/src/account_loyaltyrewards.cpp:290-345 | how the legacy points are clamped |
| `LoyaltyRules.LegacyNodesAre` | AccountServer/src/account_loyaltyrewards.cpp:320-340 | one node for each legacy point but every fifth from the seventh on, at most 34 |
| `LoyaltyRules.UpdateIs` | AccountServer/src/account_loyaltyrewards.cpp:290-345 | an update never lowers the earned points, counts a gain once, spends a point on each legacy node that is missing, and touches no other node |
| `LoyaltyRules.UpdateSlotsAre` | AccountServer/src/account_loyaltyrewards.cpp:155-165 | a slot for every full dozen of points newly reached beyond the legacy ones |
| `LoyaltyRules.HasLevelIs` | Common/account/AccountData.c:370-403 | a level is reached with its points, and with one at least |
| `ArenaEvents.ArenaEvent.Process` | ArenaServer/src/arenaevent.c:2356-2613 | a visit does what the phase machine says, phase by phase; where each phase leads, and when, is `ArenaRounds.VisitLeadsIff` |
| `ArenaEvents.ArenaEvent.AllMapsReported` | ArenaServer/src/arenaevent.c:2284-2296 | true exactly if no seat of the round lacks a result |
| `ArenaEvents.ArenaEvent.PrepareRound` | ArenaServer/src/arenaevent.c:2176-2217 | the seats a round gets |
| `ArenaEvents.ArenaEvent.StartMaps` | ArenaServer/src/arenaevent.c:2219-2246 | maps for every seat of the round up to the first that gets none |
| `ArenaEvents.ArenaEvent.HandleReadyAck` | ArenaServer/src/arenaevent.c:2053-2079 | an ack counts down, a refusal returns the event to negotiation |
| `ArenaEvents.ArenaEvent.HandleMapResults` | ArenaServer/src/arenaevent.c:1829-1899 | a result is taken only for the seat, map and round it names |
| `ArenaEvents.ArenaEvent.DistributePrizes` | ArenaServer/src/arenaranking.c:1233-1246 | without a runner-up the fees are given back instead |
| `ArenaEvents.PaysOnce` | ArenaServer/src/arenaevent.c:2356-2613 | over every run an event pays its prizes or gives the fees back, never both, never twice |
| `ArenaEvents.PaidIff` | ArenaServer/src/arenaevent.c:2572-2600 | exactly which visit pays and which refunds |
| `ArenaEvents.RoundEndsIff` | ArenaServer/src/arenaevent.c:2504-2524 | a round ends exactly at a map check that finds a result at every seat of the round |
| `ArenaEvents.RoundEndsReported` | ArenaServer/src/arenaevent.c:2504-2571 | over every run: from the end of a round until the next starts every seat of it has its result, unless a map took one back |
| `ArenaEvents.StaysReportedIff` | ArenaServer/src/arenaevent.c:1829-1899 | the results of an ended round stay complete exactly until a report of side 0 for one of its seats |
| `ArenaEvents.TakenBack` | ArenaServer/src/arenaevent.c:1829-1899 | a run in which an ended round loses its result to such a report |
| `ArenaEvents.PaidInRunIff` | ArenaServer/src/arenaevent.c:2572-2600 | over every run that starts unpaid, prizes or fees have gone out exactly if some visit paid them |
| `ArenaEvents.PhaseDescends` | ArenaServer/src/arenaevent.c:2481-2613 | after the start the pair of rounds to come and phase descends at every change |
| `ArenaEvents.ChangesBounded` | ArenaServer/src/arenaevent.c:2481-2613 | so the changes of phase in any run are bounded by where it began |
| `ArenaEvents.IntermissionEndsIff` | ArenaServer/src/arenaevent.c:2543-2571 | an intermission ends exactly at a visit in the very second it is due |
| `ArenaEvents.MissedSecondSticks` | ArenaServer/src/arenaevent.c:2543-2571 | if no visit falls in that second the next round never starts |
| `ArenaEvents.AcksCounted` | ArenaServer/src/arenaevent.c:2053-2079 | each ack counts, whoever sends it |
| `ArenaEvents.ReadyIff` | ArenaServer/src/arenaevent.c:2469-2480 | the round starts exactly after as many acks as players, or when the wait is over |
| `ArenaRounds.VisitLeadsIff` | ArenaServer/src/arenaevent.c:2356-2613 | for every phase: the exact condition under which a visit leads to each other phase, with the seconds of the server; from the end of a round it is the break while rounds are left, and the payout otherwise |
| `ArenaRounds.OthersLeadIff` | ArenaServer/src/arenaevent.c:2053-2079 | besides visits only a player who is not ready changes the phase |
| `ArenaRounds.RemovedIff` | ArenaServer/src/arenaevent.c:2586-2606 | exactly when an event is removed |
| `ArenaRounds.StampsAre` | ArenaServer/src/arenaevent.c:2481-2613 | the times each change of phase is stamped with |
| `ArenaRounds.PartsMove` | ArenaServer/src/arenaevent.c:2356-2613 | every part of an event changes in its own phases and for its own reasons only |
| `ArenaRounds.TimesMove` | ArenaServer/src/arenaevent.c:2504-2524 | so do its times; the maps of a round are looked at ten seconds after the last look |
| `ArenaRounds.MapsAreGiven` | ArenaServer/src/arenaevent.c:2176-2246 | every seat of the round that starts plays on the map it was given, and nothing else about the seats changes |
| `ArenaRounds.ScheduleIs` | ArenaServer/src/arenaevent.c:2356-2440 | how an event that stays scheduled is put off or gets its time |
| `ArenaRounds.ReportIs` | ArenaServer/src/arenaevent.c:1829-1899 | a report sets the winner of the one seat it names if map and round are that seat's |
| `ArenaRounds.RefusalIs` | ArenaServer/src/arenaevent.c:2053-2079 | a player who is not ready takes the start time and the leader's word back |
| `ArenaRounds.RunCounts` | ArenaServer/src/arenaevent.c:2481-2571 | over every run the number of the round is one more than the rounds played, and equal to it once its maps are in |
| `ArenaRounds.RoundsArePlayed` | ArenaServer/src/arenaevent.c:2525-2542 | over every run an event that waits for its payout, pays or has ended has played all of its rounds |
| `ArenaRounds.PrizesAfterAllRounds` | ArenaServer/src/arenaevent.c:2525-2542 | over every run prizes go out only after every round has been played |
| `ArenaRounds.NextRoundFollows` | ArenaServer/src/arenaevent.c:2525-2571 | a round that is not the last is followed by a break of 120 seconds and then by the round one higher |
| `EventTable.TableStaysGood` | ArenaServer/src/arenaevent.c:105-159 | slot i only ever holds event i, and a new event takes the handle it was promised while every live handle stays |
| `EventTable.StaleHandleIff` | ArenaServer/src/arenaevent.c:37-39 | a handle whose slot is empty can come to name another event before the counter wraps exactly if its id is still to come and the empty slots before it are used up by then |
| `EventTable.DeletedHandleIff` | ArenaServer/src/arenaevent.c:209-253 | the same at the event's deletion: only an id equal to the counter, or a thousand or more ahead of it, escapes the reservation |
| `EventTable.CreatedHandleDies` | ArenaServer/src/arenaevent.c:105-137 | the handle of an event created in this run never names another once it is deleted, until the counter wraps |
| `EventTable.ReservedTooLate` | ArenaServer/src/arenaevent.c:38-39 | deleting a loaded event whose id is the next to be given out lets the next event take its handle |
| `EventTable.Reborn` | ArenaServer/src/arenaevent.c:105-137 | a run of creations and deletions that brings a handle back |
| `EventTable.Room` | ArenaServer/src/arenaevent.c:146-149 | doubling ends with a table that has the slot, and no more than doubled for it |
| `EventTable.OthersStay` | ArenaServer/src/arenaevent.c:105-159 | creating, deleting and loading an event leave every other event under its handle; how the counter moves |
| `EventTable.BornEmpty` | ArenaServer/src/arenaevent.c:105-159 | where a new event goes, what it is born with, and what loading leaves of an event that is there |
| `EventTable.ReservedIs` | ArenaServer/src/arenaevent.c:38-39 | which deletions move the counter of unique ids, and how far |
| `EventPlayers.JoinedIff` | ArenaServer/src/arenaevent.c:298-386 | exactly when a player is taken in; otherwise the event is untouched |
| `EventPlayers.JoinExact` | ArenaServer/src/arenaevent.c:298-386 | joining adds that player and no other, gives nobody two places, and does not outgrow the event |
| `EventPlayers.LeaveExact` | ArenaServer/src/arenaevent.c:388-481 | leaving frees the player's place unless the event has started, and no other; the distinct players stay distinct |
| `EventPlayers.CreatorHandedOver` | ArenaServer/src/arenaevent.c:418-443 | an event with a creator and players left has one of them as its creator |
| `EventPlayers.JoinThenLeave` | ArenaServer/src/arenaevent.c:298-481 | a join that is taken back before the start leaves every place its player |
| `EventPlayers.ResizedKeepsIff` | ArenaServer/src/arenaevent.c:1571-1577 | fitting the places to the maximum keeps every player exactly if all sit below it; the code trims from the end whoever sits there |
| `EventPlayers.OccupiedIs` | ArenaServer/src/arenaevent.c:2180-2185 | a round is prepared with exactly the players, none twice and no empty place |
| `EventPlayers.DisconnectExact` | ArenaServer/src/arenaupdates.c:465-478 | a disconnected player is out of every event in negotiation, stays in all others, and nobody else loses a place anywhere |
| `EventPlayers.DisconnectedIs` | ArenaServer/src/arenaupdates.c:465-478 | slot by slot what the visit to all events leaves, deletions during the walk included |
| `EventPlayers.ResizedPlaces` | ArenaServer/src/arenaevent.c:1571-1577 | fitting the places moves nobody; new places are open and set aside for nobody |
| `EventPlayers.OccupiedParts` | ArenaServer/src/arenaevent.c:2180-2185 | dropping open places moves and changes no player, wherever the places are |
| `EventPlayers.LeaveMarks` | ArenaServer/src/arenaevent.c:388-481 | leaving a started event marks the player as dropped and changes nothing else; before the start it takes the leader's word back |
| `EventPlayers.DesertedIff` | ArenaServer/src/arenaevent.c:388-481 | exactly when an event is deserted and so deleted |
| `EventPlayers.JoinTakes` | ArenaServer/src/arenaevent.c:338-365 | which place a player gets who joins: at the back below the maximum, else the first open one that suits |
| `EventPlayers.PlayingIs` | ArenaServer/src/arenaevent.c:404 | which phases count as started |
| `EventList.EventList.Add` | ArenaServer/src/arenaevent.c:105-137 | the first empty slot from 1, doubling when there is none, with the next unique id |
| `EventList.EventList.GetAdd` | ArenaServer/src/arenaevent.c:139-159 | the slot asked for, with a new id unless it is loaded |
| `EventList.EventList.GetUnique` | ArenaServer/src/arenaevent.c:209-218 | an event exactly if slot and id both match |
| `EventList.EventList.Delete` | ArenaServer/src/arenaevent.c:220-253 | the slot is emptied and the id reserved; a bad id changes nothing |
| `EventList.EventList.AddParticipant` | ArenaServer/src/arenaevent.c:298-386 | the search loops give the outcome and the places of the join function |
| `EventList.EventList.RemoveParticipant` | ArenaServer/src/arenaevent.c:388-481 | the leave function, and deletion of an event it deserted |
| `EventList.EventList.FitPlaces` | ArenaServer/src/arenaevent.c:1571-1577 | the two loops fit the places to the maximum |
| `EventList.EventList.DropEmpty` | ArenaServer/src/arenaevent.c:2180-2185 | dropping from the end keeps exactly the occupied places in order |
| `EventList.EventList.PlayerDisconnected` | ArenaServer/src/arenaupdates.c:465-478 | the walk over all slots, which may delete events under it |
| `Listeners.HeardLinks` | ArenaServer/src/arenaupdates.c:36-68 | registering adds this one pair to the relation and keeps both directions agreeing, duplicate-free and without a time to live for the heard |
| `Listeners.UnheardLinks` | ArenaServer/src/arenaupdates.c:70-100 | deregistering removes this one pair and keeps the same |
| `Listeners.HeardThenUnheard` | ArenaServer/src/arenaupdates.c:36-100 | a registration taken back restores the listeners; the player gets its minute if it was the only one |
| `Listeners.AllUnheardIs` | ArenaServer/src/arenaupdates.c:102-108 | afterwards the client hears nobody, every other pair stays, and exactly the players it alone heard get a minute |
| `Listeners.HungUpIs` | ArenaServer/src/arenaupdates.c:125-132 | the same when the connection goes |
| `Listeners.FullUpdate` | ArenaServer/src/arenaupdates.c:200-222 | after a full update a client hears exactly the players it named |
| `Listeners.EachIs` | ArenaServer/src/arenaupdates.c:213-222 | a request adds or removes exactly the pairs it names |
| `Listeners.GatheredForIs` | ArenaServer/src/arenaupdates.c:171-183 | an event's news go once to each client that hears a participant, and to no other |
| `Listeners.GatheredIs` | ArenaServer/src/arenaupdates.c:154-169 | what a gather adds to the list: each listener once, behind those already there |
| `Listeners.TimedOutExact` | ArenaServer/src/arenaupdates.c:443-463 | a check takes the players it gives up out of negotiation, keeps the other times, and takes nobody else out of anything |
| `Listeners.NobodyOverdue` | ArenaServer/src/arenaupdates.c:443-463 | after a check nobody's time is up, and nobody whose time was up has a place in negotiation left |
| `Listeners.ConnectedStay` | ArenaServer/src/arenaupdates.c:443-463 | a player somebody listens to keeps every place through a check |
| `Listeners.RunFine` | ArenaServer/src/arenaupdates.c:393-422 | over every run a time to live is the moment the last listener went plus a minute |
| `Listeners.SilentSince` | ArenaServer/src/arenaupdates.c:70-100 | that moment is a step of the run, and nobody has listened since |
| `Listeners.GivenUpAfterSilence` | ArenaServer/src/arenaupdates.c:443-463 | no player is given up before a whole minute without any listener |
| `Listeners.UnheardWithout` | ArenaServer/src/arenaupdates.c:70-100 | without a logout, or with another listener left, the arena is untouched; exactly the player nobody hears any more gets a minute |
| `Listeners.LogoutTakesOut` | ArenaServer/src/arenaupdates.c:70-100 | when the last listener of a player leaves with a logout, the player is in no event in negotiation, and every other place is kept |
| `Listeners.LogoutRequestIs` | ArenaServer/src/arenaupdates.c:200-222 | a request that logs players out takes out of negotiation exactly those that no other client hears |
| `ListenerRegistry.Registry.Connect` | ArenaServer/src/arenaupdates.c:114-123 | a new connection hears nobody |
| `ListenerRegistry.Registry.AddRegistration` | ArenaServer/src/arenaupdates.c:36-68 | the list, the client and the time to live as one registration |
| `ListenerRegistry.Registry.RemoveRegistration` | ArenaServer/src/arenaupdates.c:70-100 | the removal, with a time to live or, on logout of the last listener, leave from every negotiation (`LogoutTakesOut`) |
| `ListenerRegistry.Registry.RemoveAllRegistrations` | ArenaServer/src/arenaupdates.c:102-108 | the loop ends with nothing registered |
| `ListenerRegistry.Registry.Disconnect` | ArenaServer/src/arenaupdates.c:125-132 | the connection leaves nothing behind |
| `ListenerRegistry.Registry.HandleRegisterPlayers` | ArenaServer/src/arenaupdates.c:200-222 | the whole request, list by list |
| `ListenerRegistry.Registry.SetPlayerTTL` | ArenaServer/src/arenaupdates.c:393-422 | sets or clears the time to live; player 0 has none |
| `ListenerRegistry.Registry.ClientListFromDbid` | ArenaServer/src/arenaupdates.c:154-169 | the gather over one player's listeners |
| `ListenerRegistry.Registry.ClientListFromEvent` | ArenaServer/src/arenaupdates.c:171-183 | the gather over all participants |
| `ListenerRegistry.Registry.CheckForPlayerDisconnects` | ArenaServer/src/arenaupdates.c:443-463 | visits each due player once, whatever the order of the hash |

## Left out

- Packet encoding, sockets, link reconnection, heartbeats and ODBC binding: messages and tasks are values.
- SQL retry sleeps and error texts: a task succeeds or fails.
- `asql_search_for_account` and reading unsaved orders: present as jobs of the pool, their answers are not.
- Order-id hashing (MD5, HMAC): an order id is a number, 0 is the null id, and new ids are fresh by assumption where a theorem needs it.
- A null parent order id is the number 0.
- Visitor transfers, the jump step and other code that is compiled out.
- The shardXferInProgress flag, which a rejected request also clears: nothing is claimed about one transfer for each account.
- The `player_type` value in a recovery reply and how the source packs a character: a copy is a text.
- `RequestServer.RequestServer.New`: the verdict of product and claim validation is an input, since it reads cached totals and, for multi orders, each entry alone.
- `RequestServer.RequestServer.Observe`: the clock of requests stays below 2^31, because a new request is first listed with tick 0, which the signed comparison puts before all others only up to there.
- The order in which a statement visits rows is the log's; expiry dates and transaction dates are not modelled, nor is their restoration.
- `OrderLedger.RunBalanced`: not for a schema whose new rows come marked as saved, since those were never counted as saved.
- `Tallies.TotalsAreTally`: from books whose log is empty, so that no earlier row is saved or reverted; the totals they start from are free.
- `CompensationRuns.Undone`: for a schema that marks new rows as not saved; `OrderLedger.RevertCancelsIff` has the other two.
- Widths of `smallint` and `int` columns: totals are unbounded integers.
- `SqlPool.CacheAgreement`: about loaded accounts; a load's rows arrive as one map.
- `SqlPool.NeverOlder`: the loyalty bits and the other fields of the account row are two version stamps, raised by every change; a retried update may carry the new bits with the fields of its last commit, which the model keeps.
- Account records of `AccountSql` are values in a map, so aliasing between them is not captured; `DirtyList` has them as objects.
- `AccountSql.AccountSql.WaitFor`: sleeping and waking of threads is a sequence of worker turns given beforehand.
- `DelayedPackets.DelayedQueue.Tick`: packets are numbers in a sequence, the ring buffer below and its growth are not modelled; the stamps compare correctly while no packet waits for 2^32 ticks.
- The gathering of character counts and the resending of client authorisations in AccountServer.cpp: time-outs on lists that add easy members only.
- Loyalty bits are an array of booleans, not bytes; tier and status requirements are an input.
- `Loyalty.Account.HandleAuthUpdate`: the monthly free transfer of a VIP account and the grants from the SKU list or of all SKUs are not modelled; they are purchases like any other and move no loyalty points.
- Purchases of level products are recorded, their success in the store is not.
- The intermission's messages to players, logging, and saving of events to the database server.
- `ArenaEvents.ArenaEvent.Process`: sides, restrictions, players, swiss pairings and started maps are inputs; prize and refund amounts are one event each.
- `ArenaEvents.ArenaEvent.PrepareRound`: the pairings of a swiss draw are an input.
- `DropAllPlayersInThisEventFromOtherEvents`: reads participants of an event that its own call may have deleted.
- `EventList.EventList.AddParticipant`: weight class and supergroup conditions are one input; archetype names compare exactly.
- `EventPlayers.JoinedIff`: those conditions are its input `eligible`.
- `EventList.EventList.RemoveParticipant`: supergroup ids and the rebalancing of teams are not modelled; a list that was emptied counts as one never created.
- `EventList.EventList.GetAdd`: the fields of a loaded event come later, from unpacking its container.
- Events and participants of the table are values, so aliasing of participants is not captured.
- `EventTable.CreatedHandleDies`: nothing is claimed after the counter has wrapped.
- The flag that shows a player as connected: it follows the listener lists one for one.
- `Listeners.RunFine`: times to live that the start-up gives the players in negotiation belong to the first world of a run.
- `Listeners.GivenUpAfterSilence`: about clocks that stay a minute below 2^32 seconds.
