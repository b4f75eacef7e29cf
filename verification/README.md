# RedSuite in Dafny

RedSuite drives a MagicBlock ephemeral rollup from the outside: it sends load, injects faults, watches
accounts and compares what it sees with small models of what must happen. A wrong oracle or a lossy
observer makes such a suite report the wrong thing, so this project models those parts and proves what
the suite relies on.

`dafny verify dfyconfig.toml` checks everything. The modules follow the repository's components.

- **Rent oracle** (`RentOracle`, `RentLedger`, `Serialization`, `RentRuns`, `RentWorkload`). The predicted
  effect of creating, resizing and closing ephemeral accounts; the ledger that attributes vault movements
  to targets and sponsors; the backtracking search for a serial order that explains concurrent
  transactions; and the workload that advances the oracle step by step. `rent` is an arbitrary function.
- **Fixture program** (`FixtureState`, `FixtureExecute`, `FixtureBuild`, `FixtureMeaning`,
  `FixtureOperations`, `FixturePrivileges`, `Causal`). The batch builder compiles calls on addresses into
  operations on account indices and the on-chain program interprets them. A reference semantics on
  addresses says what a batch means, what each operation does is told cell by cell and byte by byte, and
  a batch's privileges by its calls. The causal pair model is refined by the interpreter. SHA-256 is an
  arbitrary function.
- **Observers** (`AccountUpdates`, `Subscriptions`, `AccountWatch`, `Wakeup`). Account write tracking with
  two mirrored indexes, many subscriptions over one websocket, account images from a snapshot plus
  notifications, and waiting for a condition without losing a wakeup. Servers and schedulers are arbitrary.
- **Fault proxy** (`Netfault`, `HttpFraming`). Rules, one-shot interceptions, held and stalled operations,
  restore and reset in every interleaving; and request framing over arbitrarily cut byte streams.
- **Load driver** (`Rate`, `Workers`, `Driver`, `Threaded`). Splitting and recombining budgets, pacing, the
  admission loop, and runs over several workers. Time is an integer supplied by the surroundings.
- **Reports** (`Stats`, `Calendar`). Streaming moments over `real`, reservoirs with arbitrary picks,
  quantiles, and the date in a report's name.
- **Suite scheduler** (`Suite`, `Continuous`). Lanes, bounded concurrency, exclusive scenarios and
  stopping on failure, for arbitrary completion orders and outcomes.

Code that updates objects is modelled by classes whose methods are tied to functions on values; the
properties are then proved of those functions over whole runs. Loops that wait for something outside take
an arbitrary finite list of outside events, or an arbitrary bound on how often they are woken.

Five findings differ from what one would expect of the code; each is given with its exact condition.

- `find_serialization` abandons a whole search node when a fee does not fit the payer's balance. It finds
  an order exactly when one exists that no such fee obstructs (`Serialization.SearchExact`). That is every
  order while no action is sponsored by the fee payer or no record carries a fee
  (`Serialization.SearchDecides`); otherwise one can be missed (`Serialization.PayerSponsorHidesAnOrder`).
- `reset` forgets the interceptions an earlier, failed reset has reported, so a second one can succeed
  although they never fired (`Netfault.SecondResetForgets`, `Netfault.ResetConclusive`).
- `read_request` gives up on a head depending on how the stream was cut once all but the last byte of its
  blank line reach past 64 KiB (`HttpFraming.HeadLimitExact`).
- From twenty samples on, the inverted 95th quantile is one position lower than needed
  (`Stats.InvertedExact`, `Stats.InvertedIsConservative`).
- `into_workload` checks that the victim is empty but not the target. A target that already owes rent or
  holds lamports breaks the agreement of oracle and ledger (`RentRuns.OpeningExact`,
  `RentRuns.BrokenOpenings`).

## Model

| member | source | states |
|---|---|---|
| RentOracle.Apply | redhat/src/scenarios/magicblock/ephemeral_account_security.rs:183-242 | for every action and image list, the edited images and the reported refusal are the predicted ones, and they are lawful: exactly one refusal, or exactly the owner, length, bytes, rent and balances the action promises |
| RentOracle.PredictLawful | redhat/src/scenarios/magicblock/ephemeral_account_security.rs:183-242 | the prediction is lawful: who may act, which refusal comes first, which bytes the target then holds, what is charged or refunded and to whom, told without the prediction |
| RentOracle.LawfulDetermined | redhat/src/scenarios/magicblock/ephemeral_account_security.rs:183-242 | at most one answer is lawful, so refusals exclude each other and acceptance |
| RentOracle.RecordMeans | redhat/src/scenarios/magicblock/ephemeral_account_security.rs:306-345 | a record agrees if and only if it retains exactly the expected error, without one shows target, sponsor and vault as they were and became, and its balances are those of the tracked accounts, unchanged for all others, with only the fee leaving |
| RentOracle.CheckBalances | redhat/src/scenarios/magicblock/ephemeral_account_security.rs:330-345 | the key-by-key editing accepts exactly when only the fee leaves the transaction, tracked keys move from their old to their new balance and every other key keeps its own |
| RentLedger.DepositsFit | redhat/src/scenarios/magicblock/ephemeral_account_security.rs:396-461 | crediting a further payment to a backed ledger never overflows a deposit |
| RentLedger.AttributeKeepsSlack | redhat/src/scenarios/magicblock/ephemeral_account_security.rs:398-427 | moving lamports between the vault and a deposit leaves the vault's unattributed remainder unchanged |
| RentLedger.RentLedger.Check | redhat/src/scenarios/magicblock/ephemeral_account_security.rs:452-461 | accepts exactly the ledgers whose floor, deposits and surplus the vault backs, whatever overflows on the way |
| RentLedger.RentLedger.CheckSponsors | redhat/src/scenarios/magicblock/ephemeral_account_security.rs:429-450 | accepts exactly when every charged sponsor's balance is its opening one plus refunds less payments, and for the payer less the vault surplus |
| RentLedger.RentLedger.Move | redhat/src/scenarios/magicblock/ephemeral_account_security.rs:398-427 | attributes a vault movement to one target and one sponsor, refuses a refund above the deposit, and touches no other entry |
| RentLedger.RentLedger.Apply | redhat/src/scenarios/magicblock/ephemeral_account_security.rs:398-427 | attribution then both reconciliations, as one function of the old ledger and the images; says yes exactly when all three agree |
| Serialization.Attempt | redhat/src/scenarios/magicblock/ephemeral_account_security.rs:349-384 | one round of the search loop either replays a record, skips it, or leaves the node for the two reasons that do so |
| Serialization.FindSerialization | redhat/src/scenarios/magicblock/ephemeral_account_security.rs:349-384 | the recursive search over cloned images and ledgers computes the reference search, whose answers `Serialization.SearchMeans` and `Serialization.SearchDecidesHistories` explain, and terminates because the mask of used records grows |
| Serialization.SearchSound | redhat/src/scenarios/magicblock/ephemeral_account_security.rs:349-384 | a returned ledger is reached by replaying all unused records in some order that ends in the final images, and nothing the search tried along that order made it leave a node |
| Serialization.PayerFalls | redhat/src/scenarios/magicblock/ephemeral_account_security.rs:349-384 | with no action sponsored by it, the payer's balance falls by exactly the fee at each replayed record |
| Serialization.FeeBlocks | redhat/src/scenarios/magicblock/ephemeral_account_security.rs:349-384 | a fee that does not fit now fits at no later point of any order, so abandoning the node loses nothing |
| Serialization.SearchComplete | redhat/src/scenarios/magicblock/ephemeral_account_security.rs:349-384 | if some unobstructed order of the unused records explains the final images, the search answers |
| Serialization.SearchExact | redhat/src/scenarios/magicblock/ephemeral_account_security.rs:349-384 | for every input of up to 32 records the search answers if and only if some explaining order is unobstructed, and then with the ledger such an order reaches |
| Serialization.NothingHidden | redhat/src/scenarios/magicblock/ephemeral_account_security.rs:349-384 | if no action is sponsored by the fee payer, or no record carries a fee, every explaining order is unobstructed |
| Serialization.SearchDecides | redhat/src/scenarios/magicblock/ephemeral_account_security.rs:349-384 | under that condition, which a caller can check, the search answers if and only if an explaining order exists |
| Serialization.ReplayMeans | redhat/src/scenarios/magicblock/ephemeral_account_security.rs:349-384 | a record replays to a next state if and only if it is honest there: a lawful outcome, its error retained, both images shown, only the fee leaving, and the vault movement credited to the sponsor and the target |
| Serialization.SearchMeans | redhat/src/scenarios/magicblock/ephemeral_account_security.rs:349-384 | an answer is the ledger at the end of an honest history of all unused records from the given images to the final ones |
| Serialization.SearchDecidesHistories | redhat/src/scenarios/magicblock/ephemeral_account_security.rs:349-384 | with no action sponsored by the payer, or no fees, the search answers if and only if such a history exists |
| Serialization.ForeignErrorUnexplained | redhat/src/scenarios/magicblock/ephemeral_account_security.rs:349-384 | with an unused record that retains an error no action can be refused with, the search answers nothing |
| Serialization.PayerSponsorHidesAnOrder | redhat/src/scenarios/magicblock/ephemeral_account_security.rs:349-384 | a concrete race in which an explaining order exists and the search reports none, because the payer sponsors an action |
| RentRuns.DepositFollowsLength | redhat/src/scenarios/magicblock/ephemeral_account_security.rs:183-242 | with the deposit equal to the rent owed the refund cap never bites, whoever sponsors, and for a sponsor the ledger knows the deposit becomes the rent of the new length |
| RentRuns.OutsiderMovesNothing | redhat/src/scenarios/magicblock/ephemeral_account_security.rs:183-242 | sponsored by the target, the vault or the victim, a step that leaves the vault alone moves no lamports at all |
| RentRuns.UnfundedRejected | redhat/src/scenarios/magicblock/ephemeral_account_security.rs:429-450 | sponsored by one of those, a step that moves the vault is never accepted, because the sponsor has no opening balance |
| RentRuns.MoveKeepsInv | redhat/src/scenarios/magicblock/ephemeral_account_security.rs:398-427 | every covered and funded event leads from a settled world to a settled one with the same slack, and lamports leave only as fees |
| RentRuns.SettlesIff | redhat/src/scenarios/magicblock/ephemeral_account_security.rs:429-461 | in a settled world the backing check always passes and the sponsor check passes exactly when its equation can be evaluated |
| RentRuns.AdvanceExact | redhat/src/scenarios/magicblock/ephemeral_account_security.rs:507-548 | the exact condition under which a step by any role is accepted from a settled world: covered, funded and checkable; deposit cap, refund guard and backing check are never what fails |
| RentRuns.RunKeepsInv | redhat/src/scenarios/magicblock/ephemeral_account_security.rs:481-548 | over every accepted run, whoever sponsors, lamports are conserved up to fees, each deposit equals the rent of the current length or zero, the vault backs floor, deposits and surplus with unchanged slack, and every sponsor's equation holds, as long as no step orphans an account |
| RentRuns.OrphanBreaks | redhat/src/scenarios/magicblock/ephemeral_account_security.rs:183-242 | an accepted create on behalf of the system program that costs rent always leaves a deposit nothing owes, so the exception is exact |
| RentRuns.VaultRestored | redhat/src/scenarios/magicblock/ephemeral_account_security.rs:481-548 | a run that brings both targets back to the rent they owed and moves no surplus brings the vault back to its balance |
| RentRuns.RefusalChangesNothing | redhat/src/scenarios/magicblock/ephemeral_account_security.rs:507-548 | a refused action, on the target or the victim, costs its fee and changes nothing else |
| RentRuns.OpeningExact | redhat/src/scenarios/magicblock/ephemeral_account_security.rs:1563-1601 | from a workload as first opened, every accepted run conserves lamports and keeps the target's deposit equal to its rent if and only if the target holds no lamports unless it is absent, and owes no rent |
| RentRuns.PresentTargetCloses | redhat/src/scenarios/magicblock/ephemeral_account_security.rs:1563-1601 | a target already there can be closed at once: nothing is refunded whatever it owes, and whatever it holds is lost |
| RentRuns.BrokenOpenings | redhat/src/scenarios/magicblock/ephemeral_account_security.rs:1563-1601 | two openings that pass the source's check and break: a target that owes rent and one that holds lamports |
| RentRuns.FloorRaised | redhat/src/scenarios/magicblock/ephemeral_account_security.rs:1602-1610 | raising the floor to exclude an older deposit keeps the run invariant |
| RentWorkload.Workload.Run | redhat/src/scenarios/magicblock/ephemeral_account_security.rs:507-548 | a step is accepted if and only if it is justified, and the new state is then the justified one; otherwise no state would be |
| RentWorkload.StepMeans | redhat/src/scenarios/magicblock/ephemeral_account_security.rs:507-548 | evidence, images and ledger agree on a next world if and only if the effect caused it lawfully, the record testifies to it with its own error, and the ledger follows |
| RentWorkload.Workload.Expect | redhat/src/scenarios/magicblock/ephemeral_account_security.rs:507-548 | the expected images and error of an effect, or unknown when the target has no deposit entry |
| RentWorkload.Workload.StepVictim | redhat/src/scenarios/magicblock/ephemeral_account_security.rs:482-492 | a step on the victim is a step on the target in the exchanged world, exchanged back whether or not it agreed |
| FixtureState.DecodeEncode | programs/fixture/src/state.rs:36-67 | a header written over any payload reads back |
| FixtureState.EncodeDecode | programs/fixture/src/state.rs:36-67 | reading a header and writing it back changes no byte |
| FixtureState.Fill | programs/fixture/src/state.rs:82-88 | the chunked loop puts at every payload position the byte of the stepped little-endian word that covers it |
| FixtureState.ChainLoop | programs/fixture/src/state.rs:98-106 | the loop is the digest iterated `rounds` times |
| FixtureState.FoldLoop | programs/fixture/src/state.rs:108-116 | the loop hashes the salt and all digests in order, then chains |
| FixtureExecute.UpdateDecodes | programs/fixture/src/execute/mod.rs:84-93 | to a reader, an accepted update is the edit with exactly one more revision and the same authority and index; which edit that is for each operation is told by `FixtureOperations.CellByCell` |
| FixtureExecute.Executor.Each | programs/fixture/src/execute/mod.rs:103-112 | edits accounts in index order up to the first failure |
| FixtureExecute.Executor.Hashes | programs/fixture/src/execute/mod.rs:145-158 | reads the first 32 payload bytes of each cell, or the first failure |
| FixtureExecute.Executor.CopyCells | programs/fixture/src/execute/mod.rs:159-178 | each destination in turn receives as much of its source's payload as fits, sources used cyclically; copying onto itself only raises the revision |
| FixtureExecute.Executor.Sizes | programs/fixture/src/execute/mod.rs:179-185 | adds the data lengths of the inputs, or fails on the first missing account |
| FixtureExecute.Executor.Apply | programs/fixture/src/execute/mod.rs:124-213 | one operation's effect on the account list and its error, as `FixtureOperations` explains operation by operation |
| FixtureOperations.CellByCell | programs/fixture/src/execute/mod.rs:84-213 | set, add, fill, hash and undelegate do nothing without cells, and each further cell takes the operation from where the cells before it left the store: which value, undelegation outcome, revision and payload bytes it then shows, or which error comes first; a cell out of revisions has its payload rewritten all the same |
| FixtureOperations.IndexByIndex | programs/fixture/src/execute/mod.rs:84-213 | the same for the program, by account index |
| FixtureOperations.AddTotals | programs/fixture/src/execute/mod.rs:95-134 | an accepted add raises a cell's value by the change, and its revision by one, for every time the cell is named |
| FixtureOperations.ChainSteps | programs/fixture/src/state.rs:98-106 | a chained digest is the last of the digests got by hashing each with its little-endian round number |
| FixtureOperations.ConcatAt | programs/fixture/src/state.rs:108-116 | the folded text holds digest `i` at byte 32 i |
| FixtureOperations.FoldMeans | programs/fixture/src/execute/mod.rs:145-158 | a fold writes what hashing the salt and the cells' leading payload bytes, in order, writes |
| FixtureOperations.FoldRefused | programs/fixture/src/execute/mod.rs:145-158 | the first cell that is missing or too short stops a fold before anything is written, with its own error |
| FixtureOperations.CopyByCopy | programs/fixture/src/execute/mod.rs:159-178 | without sources a copy is refused; each further destination takes as much of the source its position falls on as fits, from where the copies before it left the store |
| FixtureOperations.SumMeans | programs/fixture/src/execute/mod.rs:179-185 | the output's first eight payload bytes read back as the sum of the inputs' lengths and the rest of its payload is kept; every refusal changes nothing, except that an output out of revisions has the sum written all the same |
| FixtureExecute.Executor.Run | programs/fixture/src/execute/mod.rs:114-122 | operations in order, stopping at the first that fails |
| FixtureBuild.Batch.Account | programs/fixture/src/build.rs:225-237 | a key is interned once; a further use merges privileges and returns the same index |
| FixtureBuild.Batch.AccountAll | programs/fixture/src/build.rs:239-249 | interning keys one by one yields for each its index in the final list |
| FixtureBuild.Batch.PushOp | programs/fixture/src/build.rs:251-289 | an operation builder interns its keys and records the operation over their indices; which keys, in which use and as what operation, `FixturePrivileges.PrivilegesExact` and `FixtureMeaning.BuildRecords` say by the calls |
| FixtureBuild.Batch.Require | programs/fixture/src/build.rs:330-333 | interns a signer |
| FixtureBuild.Batch.MarkReadonly | programs/fixture/src/build.rs:334-341 | clears the writable flag of named interned accounts only |
| FixtureBuild.Batch.MarkWritable | programs/fixture/src/build.rs:342-346 | asks for writable use of each named key |
| FixtureBuild.Batch.InvokeSigned | programs/fixture/src/build.rs:350-373 | interns an inner call's accounts, without the signatures the batch gives itself, and records it over indices with its signers |
| FixtureBuild.Batch.PushOther | programs/fixture/src/build.rs:291-424 | inspection, byte writes, resizing, logging, escrow transfers and settlement intern the accounts they name, in order, and are recorded over indices |
| FixtureBuild.InternAllGrows | programs/fixture/src/build.rs:225-249 | interned keys stay unique, earlier indices never move, and the asked keys are present |
| FixtureBuild.BuildOnly | programs/fixture/src/build.rs:219-373 | only mentioned keys are ever interned |
| FixtureMeaning.BuildDenotes | programs/fixture/src/build.rs:219-373 | for every sequence of calls each recorded operation still denotes its call in the final account list, however much the list grew later |
| FixtureMeaning.RunAlike | programs/fixture/src/execute/mod.rs:114-213 | running denoted operations by index and by address gives the same error and corresponding data |
| FixtureMeaning.CompiledBatchMeans | programs/fixture/src/build.rs:426-434 | for every sequence of builder calls and every store, executing the built batch equals the address-level meaning of the calls, in error and data, and touches no other account |
| FixtureMeaning.OnChainMeans | programs/fixture/src/build.rs:426-434 | submission to a chain, written back, is the address-level run as a function on whole stores |
| FixtureMeaning.BatchPrivileges | programs/fixture/src/build.rs:219-424 | for every sequence of builder calls a key is interned if and only if mentioned, signs if and only if some use asked, and is writable if and only if some use asked after the last `readonly` naming it; the uses are told by the calls in `FixturePrivileges.PrivilegesExact` |
| FixtureMeaning.BuildRecords | programs/fixture/src/build.rs:219-424 | operation for operation a batch records what its calls said, each index naming the account the call named |
| FixturePrivileges.PrivilegesExact | programs/fixture/src/build.rs:219-424 | by the calls alone: an account is listed once if and only if some call concerns it, signs if and only if some call has it sign, and is writable if and only if some call writes it and no later `readonly` names it |
| FixturePrivileges.WrittenIsWritable | programs/fixture/src/build.rs:219-424 | whatever running a batch without `readonly` changes has a writable entry |
| Causal.StepRefines | core/src/redline/causal.rs:102-155 | a step advances both cells as the model does, raising each touched revision by two, or overflows exactly when a touched revision lacks room |
| Causal.FoldBatch | programs/fixture/src/build.rs:126-128 | the batch of a step mentions only its cells and asks for a set followed by a fold |
| Causal.RunRefines | core/src/redline/causal.rs:102-155 | over every sequence of steps the chain holds the folded model's values and hashes, revisions rose by two per touching step, nothing else changed; otherwise the run stopped on overflow |
| Causal.FreshPairCompares | core/src/redline/causal.rs:102-137 | from created cells, after any run short of overflow, comparing the chain with the model succeeds |
| Causal.CreatedIsZeroed | programs/fixture/src/state.rs:43-80 | a header over a zeroed payload is a cell the run may start from |
| Causal.PairModel.Apply | core/src/redline/causal.rs:103-121 | the in-place model step is the model's transition |
| Causal.PairModel.Compare | core/src/redline/causal.rs:123-137 | accepts exactly when both accounts exist and show the model's value and hash |
| AccountUpdates.AccountState.Settle | core/src/transport/ws.rs:55-65 | removes one write from both indexes, leaves no empty entry, and wakes the waiter exactly with the id's last write, as `AccountUpdates.StepWakes` says without the transition; the lookups it unwraps are present |
| AccountUpdates.AccountState.ObserveWrite | core/src/transport/ws.rs:67-82 | settles the written id if pending and every older id of the account, smallest first, counting one observed and the rest superseded |
| AccountUpdates.AccountState.SettleOlder | core/src/transport/ws.rs:75-81 | the loop settles exactly the account's older pending ids and keeps the indexes mirror images |
| AccountUpdates.AccountState.TrackWrite | core/src/transport/ws.rs:128-132 | adds the write to both indexes |
| AccountUpdates.AccountState.Await | core/src/transport/ws.rs:148-163 | resolves at once for ids with nothing pending, otherwise parks a waiter on a pending id |
| AccountUpdates.AccountState.TakeOutcome | core/src/transport/ws.rs:171-178 | returns and clears the tallies, keeping what is pending |
| AccountUpdates.RunSound | core/src/transport/ws.rs:34-83 | in every run every waiter's id still has a pending write |
| AccountUpdates.StepWakes | core/src/transport/ws.rs:34-83 | no step but closing loses a waiter: it waits on while a write of its id is outstanding and is woken when none is, and nobody else is ever woken |
| AccountUpdates.WaiterIsWoken | core/src/transport/ws.rs:34-83 | over every run without a close an id waited for is woken or still has a write outstanding |
| AccountUpdates.AwaitedIsWoken | core/src/transport/ws.rs:148-163 | after awaiting a pending id it is woken at every later moment at which none of its writes is outstanding |
| AccountUpdates.WokenHadSettled | core/src/transport/ws.rs:34-83 | an id that comes to be woken was waited for and then had nothing outstanding at some moment of the run |
| AccountUpdates.SettledClassified | core/src/transport/ws.rs:67-82 | each write an observation settles is counted once, as observed if it is the notified one and as superseded if older |
| AccountUpdates.ObserveIsExact | core/src/transport/ws.rs:67-82 | an observation removes a write if and only if it is of that account and not newer |
| AccountUpdates.WritesConserved | core/src/transport/ws.rs:34-83 | over every run each distinct tracked write is observed, superseded or outstanding, once |
| AccountUpdates.DestinationsDiffer | programs/fixture/src/build.rs:137-143 | over at least two keys the two destinations of a copy differ, also where the 64-bit arithmetic wraps |
| AccountUpdates.DestinationsTile | programs/fixture/src/build.rs:137-143 | while the pool lasts, value v writes the second and third account of the v-th three |
| AccountUpdates.SettledWindowTallies | redline/src/scenarios/aperture/websocket_fanout.rs:88-118 | a settled window tallies exactly two per admitted id, however notifications interleave with tracking |
| AccountUpdates.SinglePoolCollides | programs/fixture/src/build.rs:137-143 | with a pool of one key both destinations coincide |
| Subscriptions.Connection.Dispatch | core/src/transport/subscription.rs:117-152 | routes one frame: acknowledgment, refusal, stale unsubscribe, notification to a known or unknown route, malformed frame; failures close the connection |
| Subscriptions.Connection.Pop | core/src/transport/events.rs:45-56 | yields the oldest value of that handle's queue; refuses after anything malformed |
| Subscriptions.Connection.Retire | core/src/transport/subscription.rs:312-323 | finds and removes the handle's route, or there is none |
| Subscriptions.RunTracks | core/src/transport/subscription.rs:90-328 | in every interleaving the shared connection holds for each handle exactly what an isolated subscription would: its one request or route and its unread values; request numbers never collide |
| Subscriptions.HandleReadsItsOwn | core/src/transport/events.rs:44-80 | what a handle reads is a prefix, in order, of the payloads sent to its route between acknowledgment and end, and the rest waits in its queue |
| Subscriptions.OneRequestPerHandle | core/src/transport/subscription.rs:90-166 | in every run no handle has two filed requests |
| Subscriptions.OneRoutePerHandle | core/src/transport/subscription.rs:90-166 | nor two routes |
| Subscriptions.RequestOrRoute | core/src/transport/subscription.rs:90-166 | nor a request and a route |
| Subscriptions.AckedOrOver | core/src/transport/subscription.rs:285-300 | the acknowledgment wait ends exactly when the handle is live or over |
| Subscriptions.SubscribedCountsAcks | core/src/transport/subscription.rs:117-152 | `subscribed` is the number of handles ever acknowledged, each counted once |
| Subscriptions.HandlesHeld | core/src/transport/subscription.rs:90-328 | over every run handles are numbered from one, a handle has a queue from its opening until it is dropped, the connection is closed exactly once something ended it, and unfiled unsubscribe numbers are those taken less those filed |
| AccountWatch.ImageOfTold | core/src/api/wait.rs:65-67 | a notification carries the account's state exactly unless a live account equals the closed one |
| AccountWatch.DrainedIsCurrent | core/src/api/wait.rs:97-145 | in every interleaving of changes, deliveries, acknowledgments, snapshot reads and consumption, an account with an image and no outstanding notification shows the server's current state, up to a live account that looks closed |
| AccountWatch.StaleOvertakesSnapshot | core/src/api/wait.rs:45-71 | a run in which an older notification replaces a newer snapshot and the next one repairs it |
| AccountWatch.Watch.Seed | core/src/api/wait.rs:35-43 | a wrong length changes nothing; otherwise, in every world in which the snapshot is what the reads found, the watcher is as after the seeding step |
| AccountWatch.Watch.Absorb | core/src/transport/events.rs:168-186 | takes one notification from the first subscription that has one; none only if all queues are empty |
| AccountWatch.Watch.Until | core/src/api/wait.rs:45-71 | returns only when everything is seen and accepted; giving up with everything seen means the images are not accepted, and once all is delivered they show the server's own final state |
| Wakeup.NoLostWakeup | core/src/wait.rs:62-82 | in every interleaving a parked waiter whose condition holds has been notified or a writer is between its change and its notification |
| Wakeup.QuietMeansAwake | core/src/wait.rs:62-82 | with no writer mid-way, no waiter sleeps on a condition that holds |
| Wakeup.StateIsWritten | core/src/wait.rs:62-82 | over every run the shared state is the last change's and a writer is under way exactly between its change and its notification |
| Wakeup.NotifyReachesAll | core/src/wait.rs:62-82 | a notification reaches every waiter registered or parked by then, and it stays notified until its own next step |
| Wakeup.ReturnsPromptly | core/src/wait.rs:62-82 | while its condition keeps holding a waiter returns within three of its own steps |
| Netfault.Scope.GateOp | core/src/netfault/mod.rs:226-269 | counts matching rules, lets the first rejecting or stalling rule decide, else hands the operation to the first armed matching interception |
| Netfault.Scope.Restore | core/src/netfault/mod.rs:188-198 | clears rules and interceptions, keeps the armed ones on record as unfired, in order, and advances the reset count |
| Netfault.Scope.RemoveRule | core/src/netfault/mod.rs:340-345 | removes the rules with that number only |
| Netfault.InterceptedExactly | core/src/netfault/mod.rs:226-269 | an operation is intercepted if and only if no deciding rule matches and an armed interception does, and it takes the first such one alone |
| Netfault.SelectorMeans | core/src/netfault/mod.rs:66-124 | a built selector takes exactly the operations with one of its methods, one of its stages and the last transport, signature and account it was narrowed to, where it names any |
| Netfault.GateMeans | core/src/netfault/mod.rs:226-269 | the first matching rejecting or stalling rule decides; an operation is released if and only if no such rule matches and nothing armed catches it; its stage is counted once, and a rule number once per matching watcher and for the decision |
| Netfault.RunKeeps | core/src/netfault/mod.rs:188-279 | in every run the counter equals the live tokens, no interception receives two operations, sequence numbers strictly increase, and every interception is armed, fired or on record |
| Netfault.DropIsCounted | core/src/netfault/mod.rs:273-279 | the counter never underflows |
| Netfault.RestoreFrees | core/src/netfault/mod.rs:188-224 | after a restore every pending operation can complete |
| Netfault.FreedStaysFree | core/src/netfault/mod.rs:206-224 | and no later event can block it again |
| Netfault.ResetConclusive | core/src/netfault/mod.rs:408-426 | a reset that drains and finds nothing unfired: nothing is held, and an interception registered before it has fired if and only if no reset has reported it unfired |
| Netfault.ReportedByFailure | core/src/netfault/mod.rs:408-426 | in every run only a reset that returns an error reports anything |
| Netfault.CleanResetMeansFired | core/src/netfault/mod.rs:408-426 | while no reset of the scope has failed, one that returns Ok means every interception registered before it fired |
| Netfault.SecondResetForgets | core/src/netfault/mod.rs:408-426 | a run in which the reset after a failed one returns Ok although an interception never fired |
| HttpFraming.Framed | core/src/netfault/http.rs:30-71 | the one-shot parse takes at least the blank line and at most the stream |
| HttpFraming.FindMeans | core/src/netfault/http.rs:32-32 | the head ends at the first place where carriage return and line feed come twice |
| HttpFraming.FindPrefix | core/src/netfault/http.rs:30-34 | the blank line found in a prefix is the stream's, and is found as soon as it is complete |
| HttpFraming.SizeRoundTrip | core/src/netfault/http.rs:34-44 | a size written in decimal parses back, and is rejected above 64 bits |
| HttpFraming.LineAnnounces | core/src/netfault/http.rs:36-42 | a line gives a size if and only if it is written as the name in any case, a colon and a decimal numeral of 64 bits, with blanks around each |
| HttpFraming.ContentLengthMeans | core/src/netfault/http.rs:34-44 | the length is the one the first such line of the head announces, and zero if there is none |
| HttpFraming.Connection.ReadHead | core/src/netfault/http.rs:30-34 | finds the stream's blank line unless the head limit is overrun by the way the stream was cut |
| HttpFraming.Connection.ReadRequest | core/src/netfault/http.rs:30-71 | returns a request if and only if the stream frames one, the reader does not give up on its head and its body is within the limit; it is then the framed one and the rest of the stream is left |
| HttpFraming.Connection.ReadAll | core/src/netfault/http.rs:30-71 | for every cutting of the stream the requests are a prefix of the one-shot parse, and all of it with the same leftover when every head and body fits |
| HttpFraming.HeadLimitExact | core/src/netfault/http.rs:60-62 | every cutting shows the first head if and only if all but the last byte through its blank line lie within the head limit |
| Rate.SplitConserves | core/src/transport/rate.rs:60-64 | shares add up to the total, differ by at most one in non-increasing order, and are all positive if and only if there is enough |
| Rate.PartitionRecombines | core/src/transport/rate.rs:32-58 | combining the workers' pacings gives the offered pacing back, and each of them is usable |
| Rate.CombinedSaturates | core/src/transport/rate.rs:50-57 | any pacings combine to the sum of their rates, or the greatest 32-bit rate where it does not fit, and to none if one of them has none |
| Rate.Pacer.Wait | core/src/transport/rate.rs:79-93 | the next slot follows the slot recurrence, including resynchronisation, and a sleep ends no earlier than its slot |
| Rate.WindowBound | core/src/transport/rate.rs:66-93 | any n admissions in a window of width W satisfy (n - 2) intervals < W + 5 ms + 1 ms, for every clock and every call pattern |
| Workers.SplitIterations | core/src/runner/workers.rs:151-162 | consecutive non-empty spans from zero to the total, as many as workers or iterations, whichever is fewer |
| Workers.IterationsPartitioned | core/src/runner/workers.rs:151-162 | every iteration number belongs to exactly one span |
| Workers.PartitionBudgets | core/src/runner/workers.rs:171-196 | refuses exactly a zero rate or concurrency; otherwise every share is positive, concurrency adds up and the rate recombines, with no workers when there are no iterations |
| Driver.LaunchAccounts | core/src/runner/mod.rs:349-363 | an admission below the limit keeps the accounts: limit, numbering, tallies and the list of jobs |
| Driver.RecordAccounts | core/src/runner/mod.rs:212-227 | so does a completion |
| Driver.Driver.Await | core/src/runner/mod.rs:326-350 | waits for a slot without admitting anything; reports a stop only when the run can be stopped |
| Driver.Driver.Drain | core/src/runner/mod.rs:366-373 | ends well exactly when nothing is in flight |
| Driver.Driver.Execute | core/src/runner/mod.rs:291-385 | at every moment in-flight requests are within the limit and admitted = delivered + failed + in flight, requests are numbered 1 upwards, finishing means nothing in flight, and without a stop all iterations were made |
| Threaded.Execute | core/src/runner/workers.rs:203-241 | the workers' limits add up to the given one, each keeps to its shares, the merged outcome is the first worker's that did not finish or else how many of all requests were delivered and how many failed, and an unbounded run that finishes delivered or failed every iteration |
| Threaded.FlyingWithin | core/src/runner/workers.rs:203-241 | at every moment of every interleaving of the workers the requests in flight are within the sum of their shares |
| Threaded.RequestsPartitioned | core/src/runner/workers.rs:203-241 | no request number is issued twice, and workers that make their iterations together issue exactly 1 to the total |
| Stats.PushMoments | core/src/stats.rs:38-42 | the running update gives the mean and sum of squared deviations of the longer history |
| Stats.MergeMoments | core/src/stats.rs:57-67 | the pairwise update gives those of the concatenated history |
| Stats.StreamingStats.Push | core/src/stats.rs:38-55 | a summary of a history becomes a summary of the history with the sample, and a full sample stays one |
| Stats.StreamingStats.Merge | core/src/stats.rs:57-71 | summaries of two histories become a summary of both; full samples of equal size stay full |
| Stats.StreamingStats.MergeReservoir | core/src/stats.rs:73-103 | for any draws the loop ends with the smaller of capacity and supply, drawn from both without repetition, and with everything when it fits |
| Stats.Collect | core/src/stats.rs:38-103 | any nesting of pushes and merges yields exact moments and extremes and a reservoir of min(count, size) samples of the history |
| Stats.SameSamplesSameSummary | core/src/stats.rs:57-71 | summaries of the same samples in any order and split agree in count, mean, spread and extremes |
| Stats.StreamingStats.Finalize | core/src/stats.rs:105-141 | reports the exact count and extremes, median and quantile of the reservoir and the whole root of the mean squared deviation; without a reservoir the plain quantile fails and the inverted one reports the average |
| Stats.QuantileExact | core/src/stats.rs:120-127 | the reported quantile is the least sample with at least 95% at or below it |
| Stats.InvertedQuantile | core/src/stats.rs:120-127 | inverted, at least 95% of the samples are at or above it |
| Stats.InvertedExact | core/src/stats.rs:120-127 | for every reservoir the inverted value is the greatest sample with at least 95% at or above it if and only if there are fewer than twenty samples or the next sample in order equals it |
| Stats.InvertedIsConservative | core/src/stats.rs:121-122 | twenty samples for which the next sample would also do |
| Stats.MedianSplits | core/src/stats.rs:113-118 | more than half of the samples are at or below the median and at least half at or above |
| Calendar.CivilExact | core/src/report/mod.rs:349-363 | for every day count the date is a valid Gregorian date whose day number, counted by years and months, is that count |
| Calendar.DayNumberInjective | core/src/report/mod.rs:349-363 | no two valid dates share a day number |
| Calendar.CivilInverse | core/src/report/mod.rs:349-363 | every valid date from 1970 on is the date of its day number |
| Calendar.CivilSuccessor | core/src/report/mod.rs:349-363 | consecutive days have successive calendar dates |
| Calendar.StampExact | core/src/report/mod.rs:349-363 | date and time of day are in range and count back to the seconds |
| Suite.SortStable | cli/src/suite/mod.rs:171-171 | sorting by declared order keeps entries of one order as they were |
| Suite.Lanes | cli/src/suite/mod.rs:170-187 | over the entries in declared order, one lane per name holding exactly its entries in order; every entry is in exactly one lane |
| Suite.Suite.RunEntries | cli/src/suite/mod.rs:205-233 | for any completion order, outcomes and stop: within the limit, no start after an observed failure in a group, everything started ends, one record per entry, and entries are skipped only for a stop or a failure |
| Suite.OrderlyWithin | cli/src/suite/mod.rs:205-233 | at every moment of a schedule at most `limit` entries run |
| Suite.Suite.RunLane | cli/src/suite/mod.rs:40-80 | moreover an exclusive entry of a group never overlaps another of its group, over both phases; it starts only after every shared one has ended and passed; and an entry is left unrun only if the run was interrupted or one of its group failed |
| Suite.Suite.Execute | cli/src/suite/mod.rs:235-247 | every lane keeps its guarantees, also on what is left unrun, and together they leave one record per selected entry |
| Suite.NothingSkipped | cli/src/suite/mod.rs:40-80 | without an interruption, a lane runs every entry if it is no group or nothing in it failed |
| Suite.Finish | cli/src/suite/mod.rs:297-315 | succeeds if and only if every record ran and passed and cleanup succeeded |
| Suite.FinishedMeansPassed | cli/src/suite/mod.rs:297-315 | success means every selected entry has a record of having run and passed |
| Continuous.Round.Settle | cli/src/suite/continuous.rs:32-43 | lets cases complete in any order until few enough are left, noting the failed ones |
| Continuous.Round.Run | cli/src/suite/continuous.rs:45-67 | within the limit, exclusive cases alone, no start after a seen failure, all drained, failures exactly listed, and a clean unstopped round ran every case |

## Left out

- Netfault.RunKeeps: which scope is the active one of a proxy, disconnecting and the waiters of hit counters are not modelled.
- AccountWatch.Watch.Until: undecodable accounts and deadlines end a wait in the source and are not modelled; giving up stands for the deadline.
- Subscriptions.RunTracks: assumes the server does not hand out a subscription number that is still routed; typed decoding of a value after it is taken, send failures and timeouts other than abandoning a wait are left out.
- Stats.StreamingStats.Finalize: floating-point rounding and random distributions are not modelled, and the 95% share and the root are exact.
- Driver.Driver.Execute: latencies, rates, interval log lines and the closed-loop confirmation are left out; a run still going when the surroundings fall silent is reported as running.
- Threaded.Execute: the workers' runs are computed one after another, since they share nothing but the stop signal, and `Threaded.FlyingWithin` speaks of their interleavings; merging of statistics is covered in `Stats`, and panics are left out.
- Suite.Suite.Execute: lanes are modelled one after another although they may run side by side, since limits and exclusivity are per lane; booting a group and its report are left out.
- Suite.Suite.RunLane: exclusive entries skipped after an interrupted first phase carry the group-failure reason, as in the source.
- HttpFraming.Connection.ReadRequest: heads and bodies stay bytes, without lossy text decoding or trimming of non-ASCII white space; a failing read counts as the end of the stream; answering requests is left out.
- Calendar.StampExact: the digits of the formatted stamp are not modelled.
- Rate.Pacer.Wait: the clock is an unbounded integer of nanoseconds.
- FixtureMeaning.CompiledBatchMeans: covers set, add, fill, hash, fold, copy, sum of sizes, undelegation and fail; nested invocations and the operations recorded by `FixtureBuild.Batch.PushOther` are interned but not executed.
- FixtureMeaning.OnChainMeans: as for `FixtureMeaning.CompiledBatchMeans`.
- FixtureExecute.Executor.Apply: as for `FixtureMeaning.CompiledBatchMeans`.
- FixtureExecute.Executor.Run: as for `FixtureMeaning.CompiledBatchMeans`.
- FixtureExecute.Executor.Sizes: the sum is an unbounded integer.
- RentRuns.RunKeepsInv: excepts steps that orphan an account, as `RentRuns.OrphanBreaks` shows it must; transaction submission and fetching are left out and their results are arguments.
- RentLedger.RentLedger.Move: cumulative payments and refunds of a sponsor are unbounded integers.
- RentLedger.RentLedger.Apply: as for `RentLedger.RentLedger.Move`.
- AccountUpdates.AccountState.TakeOutcome: lag statistics are left out.
- AccountUpdates.AccountState.Await: replacing a waiter of the same id is left out.
- Signature confirmations, RPC and websocket clients, JSON encoding, process and topology management, command line, packaging and report export are not modelled: they are thin or depend on outside systems.
- The other scenarios are black-box checks of a running validator and are not modelled.
