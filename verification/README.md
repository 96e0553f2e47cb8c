# Swarm volume registry: a verified model

This project models three programs that share one set of facts.

- **The `VolumeRegistry` contract** keeps storage volumes alive by topping up their postage batches from a payer who has
  agreed to pay. It is a class whose fields are the contract's storage; each external call is proved against a function on
  the world (the registry's fields, the BZZ token, PostageStamp, the clock and the captured log).
- **The indexer** reads the log the contract leaves behind, survives being killed at any moment, and projects daily
  series, counts of paying owners and a bucketed view.
- **The keeper** pages the active volumes, rotates them, sends one trigger per volume, and reports what each one did.

A *run* is any interleaving of registry calls by outsiders with an environment that may advance blocks and time, change
prices, top up, deepen, mint or expire batches, move BZZ, approve, permit and revoke. Only the registry's own fields, the
log and the registry's own allowances are out of its reach. The main results hold over every run:

- every invariant of the design that is true of the code, over all reachable states (`Runs`, `Lifetimes`);
- which of its ends every trigger reaches, when creations, registrations, deletes and reaps go through, and who can
  designate, confirm and revoke, each by conditions on fields and rows alone (`Outcomes`, `Consent`, `Revocation`, `OnRecord`);
- what payers lose is the sum of the formula charges of the run, and what the log charges them (`Runs`, `Charges`);
- keeper calls revert exactly when a payment due is blocked, by an outage or an unread permit expiry (`Trigger`,
  `Idempotence`, `Lifetimes`);
- one pass over any id list tops each batch up at most once, a second pass is free (`Idempotence`);
- how long a funded batch lives under the oracle's compound ceiling, exactly, and where the documented floor holds
  (`Survival`, `SurvivalFloor`);
- the projected entry gives back the contract's own state through any number of killed syncs, and what a crash distorts is
  stated exactly (`Refinement`, `EndToEnd`, `Crash`);
- the keeper's report agrees with the contract and accounts for every volume (`Receipt`, `Keeper`).

## Files

| file | what it holds |
|---|---|
| `Machine.dfy`, `Chain.dfy` | machine arithmetic; token, PostageStamp, events, clock |
| `RegistrySpec.dfy`, `VolumeRegistry.dfy` | the calls as functions on the world; the contract as a class proved against them |
| `History.dfy`, `Effects.dfy`, `Invariants.dfy`, `Steps.dfy`, `Runs.dfy` | the log as a source; what calls do; what they keep; whole runs |
| `Trigger.dfy`, `Charges.dfy`, `Idempotence.dfy`, `Lifetimes.dfy` | totality and charges; charges over runs; repeated passes; ids and records over runs |
| `Outcomes.dfy`, `Consent.dfy`, `Revocation.dfy`, `OnRecord.dfy` | when each call goes through and how it ends; who may pay for whom; what a revocation means; records and views read off the log |
| `Survival.dfy`, `SurvivalFloor.dfy` | how long batches live; the documented floors with the Gnosis constants |
| `Failures.dfy` | four runs on which the contract or the projection of its log falls short of what is said of it |
| `EventStore.dfy`, `Projector.dfy`, `DailySeries.dfy`, `View.dfy` | partition and merge; folds; daily series and padding; the bucketed view |
| `Payments.dfy`, `Attribution.dfy` | who paid; proof that those are the owners charged |
| `Sync.dfy`, `Resume.dfy`, `Crash.dfy` | the store and its runs; killed anywhere; payments after a crash |
| `ExampleRun.dfy`, `CrashExamples.dfy` | a short run of the registry; two crashes over its log |
| `Refinement.dfy`, `EndToEnd.dfy` | the indexer against the contract |
| `Receipt.dfy`, `Keeper.dfy` | reading a receipt; the keeper cycle |

## Assumptions

- The token is ERC-20 (EIP-20): an unlimited allowance is not decremented, and on a permit token it may carry an expiry.
  PostageStamp behaves as `docs/DESIGN.md` section 14 and `docs/adr/0007-keeper-endpoints-revert-only-on-bugs.md` say.
- Hashing is injective; a revert restores the whole state, log included.
- Callers and payers are outsiders: neither the registry nor PostageStamp is one.
- Where a lemma carries machine bounds, they are these: fewer than 2^32 active volumes, fewer than 2^64 creating calls per
  owner, a 64-bit price and runway, 256-bit allowances, depths up to 128, and an out-payment with room for one more target
  below 2^256.
- The price oracle stays under its compound ceiling: by any block no more adjustments than rounds begun, those pending at
  funding included. A price set directly by a role holder is outside it, as `docs/DESIGN.md` line 337 says.
- Chain positions identify logs, and blocks, timestamps and transactions are ordered as a chain orders them. Block
  timestamps say which rows lie at or before the head; the finalized head never moves back over a row already read.

## Where the code does not do what is said of it

- **The survival floor.** `docs/DESIGN.md` line 365 promises that no batch dies before block 16532. That is so exactly when
  no adjustment is pending at funding and the next round begins at least one block later
  (`SurvivalFloor.FloorHoldsExactlyWhen`); otherwise some batch, at a price anyone can pay, is dead at 16531
  (`SurvivalFloor.FloorFails`). Each round skipped before funding moves the floor twelve or thirteen blocks earlier. Line
  372 promises about 93576 blocks for a runway of 120960, which holds only when none is pending and the next round begins
  at least 117 blocks later (`SurvivalFloor.WeekFloorHoldsExactlyWhen`): with a round at hand the exact floor is 93530.
- **Unread permits.** `docs/adr/0007-keeper-endpoints-revert-only-on-bugs.md` line 28 sets `bzzPermitExpiry` by hand for
  each deployment. The constructor accepts a permit-expiry token with it false, and there a trigger reverts on an expired
  unlimited permit (`Trigger.TriggerRevertsExactlyWhen`, `Failures.UnreadPermitReverts`).
- **Revocation.** `docs/DESIGN.md` line 122 says that after a revocation every trigger of every volume of that owner logs
  NoAuth. It does exactly for a volume with nothing to retire it (`Outcomes.TriggerEndsInOrder`,
  `Revocation.RevokedOwnersAreSkipped`): the retire edges are checked first, so one whose batch has died is retired
  (`Failures.RevokedButRetired`), and one already retired logs NotActive.
- **Price zero.** A batch created at price zero is already dead (`Survival.CreationFunds`, `Failures.BornDead`).
- **Resuming after a crash, fees.** `cli.py` line 144 joins prior and fresh rows without dropping copies. Rows stored
  beyond the head are fed twice, and the fee total is right exactly when none of them is a transfer of nonzero value
  (`Resume.FeesAreRightExactlyWhen`, `CrashExamples.FeesCountedTwice`).
- **Resuming after a crash, payers.** A run killed between the files of one append can leave siblings doubled and
  transfers not, and `zip` then drops a payment (`CrashExamples.PayerMissed`). The count of owners in a window is right
  exactly when each owner charged in it has a payment with fewer siblings before it than transfers, leftovers counted
  (`Crash.PaidIsRightExactlyWhen`). Neither lasts: the run after the next completed one is exact again
  (`EndToEnd.OneCompletedRunHeals`).
- **Skip names.** The keeper's table lacks NotFound and NotActive, which it reports as `Unknown(3)` and `Unknown(4)`
  (`Receipt.NamesAgreeExactlyWhen`). Its comments still describe the older contract, where such a trigger reverted.
- **Deep volumes.** A volume active at a day's end at a depth off the effective-bytes table makes the whole projection
  fail (`DailySeries.CapacityDaily`, `Failures.TooDeepToProject`).

## Model

| member | source | states |
|---|---|---|
| VolumeRegistryContract.VolumeRegistry.Deploy | contracts/src/VolumeRegistry.sol:83-96 | the three refusals, each under its own error and exact condition and in the source's order: a zero PostageStamp or token address, a runway below PostageStamp's floor, a permit-expiry deployment of a token without expirations; otherwise the new registry is empty |
| VolumeRegistryContract.VolumeRegistry.DesignateFundingWallet | contracts/src/VolumeRegistry.sol:104-107 | the whole new state: only the caller's designation changes, and it is logged |
| VolumeRegistryContract.VolumeRegistry.ConfirmAuth | contracts/src/VolumeRegistry.sol:115-121 | refused unless the caller is the owner's current designation; otherwise payer and active are written, the nonce is not, and a refusal leaves every field as it was |
| VolumeRegistryContract.VolumeRegistry.RevokeAccount | contracts/src/VolumeRegistry.sol:126-132 | allowed to the owner and to the confirmed payer only; clears `active` alone |
| VolumeRegistryContract.VolumeRegistry.CreateVolume | contracts/src/VolumeRegistry.sol:145-183 | the fields after pull, approve, mint, record and event; any revert inside restores all of them |
| VolumeRegistryContract.VolumeRegistry.RegisterVolume | contracts/src/VolumeRegistry.sol:194-196 | the same as the record-writing path alone; moves no BZZ |
| VolumeRegistryContract.VolumeRegistry.ImportVolume | contracts/src/VolumeRegistry.sol:204-210 | registers then triggers; any other outcome than ToppedUp or NoDeficit, and any propagated revert, restores every field, the token, PostageStamp and the log |
| VolumeRegistryContract.VolumeRegistry.DeleteVolume | contracts/src/VolumeRegistry.sol:212-217 | only the owner, only an Active volume; retires it as OwnerDeleted |
| VolumeRegistryContract.VolumeRegistry.Trigger | contracts/src/VolumeRegistry.sol:223-225 | the nine-exit procedure run once, with its outcome; a revert restores everything |
| VolumeRegistryContract.VolumeRegistry.TriggerBatch | contracts/src/VolumeRegistry.sol:230-235 | the loop over any id list, repeats included; one revert restores the state from before the first id |
| VolumeRegistryContract.VolumeRegistry.TriggerAll | contracts/src/VolumeRegistry.sol:230-235 | the loop itself, proved by an invariant to run the ids one after another |
| VolumeRegistryContract.VolumeRegistry.ReapVolume | contracts/src/VolumeRegistry.sol:240-246 | retires exactly an Active volume whose expiry has passed |
| VolumeRegistryContract.VolumeRegistry.GetActiveVolumes | contracts/src/VolumeRegistry.sol:380-408 | the loop that fills a page: empty past the end, cut at the end, otherwise each view in index order |
| VolumeRegistryContract.VolumeRegistry.TriggerInternal | contracts/src/VolumeRegistry.sol:251-337 | each branch in the source's order, matched to the decision the specification reads off the state |
| VolumeRegistryContract.VolumeRegistry.PayInternal | contracts/src/VolumeRegistry.sol:327-336 | pull, approve, top up, event: the token, batch and log after a payment |
| VolumeRegistryContract.VolumeRegistry.RetireInternal | contracts/src/VolumeRegistry.sol:477-493 | swap-and-pop on the index and the moved record's back-pointer |
| VolumeRegistryContract.VolumeRegistry.Record | contracts/src/VolumeRegistry.sol:447-475 | id from the caller's nonce before it is consumed, record, index entry |
| VolumeRegistryContract.VolumeRegistry.RegisterInternal | contracts/src/VolumeRegistry.sol:417-440 | the three preconditions in order, then the record and its event |
| Machine.ShlIsExact | contracts/src/VolumeRegistry.sol:159-159 | below depth 128 the unchecked 256-bit shift is multiplication by 2^depth |
| Machine.NeverUnlimited | contracts/src/VolumeRegistry.sol:316-316 | no exact charge equals the unlimited-allowance marker |
| Effects.CanPullIsExact | contracts/src/VolumeRegistry.sol:344-353 | an unpaused token's transferFrom succeeds after the precheck unless an unlimited permit has expired; where the deployment reads expiries of a token that has them, exactly when the precheck passes |
| Effects.CreateVolumeEffect | contracts/src/VolumeRegistry.sol:145-183 | a creation charges the payer exactly price * graceBlocks * 2^depth, forwards all of it, mints a batch holding price * graceBlocks above the out-payment, and records it |
| Outcomes.CreateSucceedsExactlyWhen | contracts/src/VolumeRegistry.sol:145-183 | a creation goes through if and only if the account is active, the signer is nonzero (the owner itself included), PostageStamp would mint the batch (unpaused, bucket depth between the minimum and the depth, id free, validity floor met, no overflow, balance nonzero) and the payer's balance, allowance and permit cover price * graceBlocks * 2^depth |
| Outcomes.RegisterSucceedsExactlyWhen | contracts/src/VolumeRegistry.sol:417-440 | each refusal in its order, each under its own condition; otherwise the record and the logged row carry the batch's own signer, depth and balance, and nothing else moves |
| Outcomes.DeletesExactlyWhen | contracts/src/VolumeRegistry.sol:212-217 | an owner's delete of an Active volume always goes through and retires it; a stranger is refused first, a volume not Active second |
| Outcomes.ReapsExactlyWhen | contracts/src/VolumeRegistry.sol:240-246 | a reap by anyone retires exactly an Active volume at or past its expiry and is otherwise a no-op |
| Invariants.RetireKeepsIndex | contracts/src/VolumeRegistry.sol:477-493 | position i holds id exactly when id is Active with activeIndex i: kept by swap-and-pop at the first, middle, last and sole position |
| Invariants.RetireIsRemoval | contracts/src/VolumeRegistry.sol:477-493 | as a set, the index loses exactly the retired id |
| Invariants.RecordKeepsIndex | contracts/src/VolumeRegistry.sol:463-474 | appending keeps the same two-way correspondence |
| Invariants.RecordKeepsIds | contracts/src/VolumeRegistry.sol:454-461 | the issued ids stay exactly the hashes of (owner, k) for k below the nonce |
| Steps.ApplyGood | contracts/src/VolumeRegistry.sol:104-353 | every external call, successful or reverted, keeps the invariant and only adds: identities, retirements, nonces, batch balances and log rows all persist, and BZZ moves only as logged |
| Runs.InvAlways | docs/DESIGN.md:112-130 | index, ids, accounts, replay of the log and pairing of its fees hold after every run of calls interleaved with an environment that may do nearly anything |
| Runs.RetirementIsFinal | docs/DESIGN.md:120-120 | over every run: a Retired record never changes again; owner, signer, batch, creation time, expiry and depth never change at all; ids and log only grow |
| Runs.EveryPullIsCharged | docs/DESIGN.md:121-121 | over every run, what registry calls took from an address equals what the log charges to it as payer of an active account; PostageStamp received exactly the logged fees; the registry kept nothing |
| Runs.NoResidualAllowance | contracts/src/VolumeRegistry.sol:166-169 | between calls nobody holds an allowance from the registry |
| Runs.ActiveNeedsBothSides | docs/DESIGN.md:117-117 | an active account's payer confirmed while it was the owner's current designation, and neither side has revoked since |
| Runs.RevocationStopsPayments | docs/DESIGN.md:122-122 | between a revocation and any later payment billed to that owner lies a fresh confirmation, whatever volumes are involved |
| Consent.DesignationReplaces | contracts/src/VolumeRegistry.sol:104-107 | a designation always goes through and replaces the earlier one: only its payer can confirm from then on; accounts and other owners' designations stand |
| Consent.ConfirmsExactlyWhen | contracts/src/VolumeRegistry.sol:115-121 | over every run a confirmation goes through if and only if the caller is the payer of the owner's last designation row; it makes that payer active and changes nothing else |
| Consent.RevokesExactlyWhen | contracts/src/VolumeRegistry.sol:126-132 | over every run a revocation goes through if and only if the caller is the owner or the payer of the owner's last confirmation row; the account is then inactive with payer and nonce kept, and nothing else changes |
| Revocation.RevokedOwnersAreSkipped | docs/DESIGN.md:122-122 | while the last account row of an owner is a revocation, every trigger of its standing volumes logs NoAuth and does nothing else, and a list logs it once for each mention |
| Failures.RevokedButRetired | docs/DESIGN.md:122-122 | read literally the revocation rule fails: a run after whose revocation a trigger retires the volume, its batch having died |
| Trigger.ChargeIsTheFormula | docs/DESIGN.md:121-121 | only a top-up moves BZZ; it takes exactly max(0, target - remaining) * 2^depth from the current payer and leaves the batch exactly at the target |
| Trigger.TriggerWrites | contracts/src/VolumeRegistry.sol:251-337 | a trigger touches no account and no other record's status, and the rows it appends are fixed by its outcome |
| Trigger.TriggerRevertsExactlyWhen | docs/adr/0007-keeper-endpoints-revert-only-on-bugs.md:35-55 | a trigger reverts if and only if it would pay and is blocked: PostageStamp or the token paused, the validity floor above graceBlocks, or an expired unlimited permit that the deployment does not read |
| Outcomes.TriggerEndsInOrder | contracts/src/VolumeRegistry.sol:251-337 | which of NotFound, NotActive, retired, NoAuth, NoDeficit, PaymentFailed, topped up or reverted a trigger ends in, each if and only if a condition on id, nonce, record, account, batch, balance, allowance and permit |
| Outcomes.FullRunwayIsSilent | contracts/src/VolumeRegistry.sol:311-314 | a trigger that finds the runway full leaves no trace: state, money and log are as they were |
| Outcomes.TopUpSays | contracts/src/VolumeRegistry.sol:327-336 | a top-up logs the fee and right after it a new balance that is always the out-payment plus the whole runway |
| Failures.UnreadPermitReverts | contracts/src/VolumeRegistry.sol:83-96 | a run in full service, on a permit-expiry token deployed with bzzPermitExpiry false, in whose last state a trigger reverts on an expired unlimited permit |
| Trigger.ReapNeverReverts | contracts/src/VolumeRegistry.sol:240-246 | the index fault inside retirement cannot happen |
| Trigger.AfterRegistration | contracts/src/VolumeRegistry.sol:204-210 | right after registration the only failures left are VolumeExpired and PaymentFailed |
| Trigger.FundedAfterTrigger | contracts/src/VolumeRegistry.sol:308-313 | ToppedUp and NoDeficit both end on a live batch holding at least the target |
| Trigger.ImportedVolumeIsFunded | docs/DESIGN.md:126-126 | a successful import leaves a fresh Active volume over a live batch at or above the target, one nonce later |
| Trigger.ImportSucceedsExactlyWhen | contracts/src/VolumeRegistry.sol:204-210 | the exact condition on account, batch, expiry, payer and what blocks a payment under which an import succeeds |
| Trigger.NonceCountsCreatingCalls | docs/DESIGN.md:127-127 | a nonce moves by one, and only on its own owner's successful creating call |
| Trigger.OtherVolumesUntouched | docs/DESIGN.md:125-125 | no call changes a recorded volume it is not about, except its index position |
| Charges.CallPullsFormula | docs/DESIGN.md:121-121 | a call takes from an address exactly what the formulas allow, read off the state before each step: price * graceBlocks * 2^depth for a creation, max(0, target - remaining) * 2^depth for each paying trigger; a reverted call takes nothing |
| Charges.EveryPullIsTheFormula | docs/DESIGN.md:121-121 | over every run, what was pulled from an address, read off the token alone, is the sum of those formula charges, and the log's charges add up to the same |
| Lifetimes.IdsCountCreations | docs/DESIGN.md:124-127 | over every run the nonce is the number of the owner's successful creating calls, the ids issued are exactly the hashes below it, and the next is free |
| Lifetimes.LeftAloneStaysPut | docs/DESIGN.md:125-125 | over any stretch of a run with no call about it, a volume's record stays as it is |
| OnRecord.RecordIsOnLog | contracts/src/VolumeRegistry.sol:447-475 | over every run each record was admitted by one row of the log, which names every field it holds, creation time included |
| OnRecord.ViewIsOnLog | contracts/src/VolumeRegistry.sol:359-374 | every field of a volume's view is what the log says: the admitting row's fields, the status its retirement leaves, and payer and activity of its owner's last account row |
| Lifetimes.KeeperCallsNeverRevert | docs/adr/0007-keeper-endpoints-revert-only-on-bugs.md:35-55 | in every reachable state a trigger reverts if and only if it would pay and is blocked; a list goes through when none of its ids is such and, where no permit expires unread, only then; a reap always does |
| Lifetimes.RetiredExactlyWhen | docs/DESIGN.md:116-116 | an Active volume is retired by a call if and only if the call goes through and is its owner's delete, a reap past its time, or a trigger once its batch died, changed owner or depth, or its time passed |
| Lifetimes.TriggersEndExactlyWhen | contracts/src/VolumeRegistry.sol:251-294 | in a batched trigger exactly the listed volumes that had lapsed at the start are retired |
| Lifetimes.FirstCauseIsNamed | contracts/src/VolumeRegistry.sol:264-294 | the reason logged is the first cause that holds, in the order batch, owner, depth, time |
| Idempotence.SecondPassIsFree | docs/DESIGN.md:118-118 | running any id list again in the same block at the same price goes through, moves no BZZ and raises no batch |
| Idempotence.EachBatchOnce | docs/DESIGN.md:118-118 | however owners share batches and ids repeat, one pass tops each batch up at most once, by exactly its initial shortfall, to exactly the target |
| Idempotence.SettledStays | contracts/src/VolumeRegistry.sol:299-324 | what needs no payment now needs none after any other trigger: balances and allowances only shrink |
| Idempotence.TriggerManyNeverReverts | docs/adr/0007-keeper-endpoints-revert-only-on-bugs.md:35-55 | a list none of whose ids would fail goes through, repeats included, although its own payments change what later ids find |
| Idempotence.ListsRevertExactlyWhen | docs/adr/0007-keeper-endpoints-revert-only-on-bugs.md:35-55 | every list of ids goes through if and only if no single trigger would fail |
| Idempotence.ListRevertsExactlyWhen | docs/adr/0007-keeper-endpoints-revert-only-on-bugs.md:35-55 | where the deployment reads expiries or the token has none, a given list goes through if and only if none of its ids would fail on its own |
| Survival.LeftAloneLivesExactly | contracts/src/VolumeRegistry.sol:273-276 | a batch nobody tops up is live after t blocks if and only if its balance strictly exceeds the drain |
| Survival.CreationFunds | contracts/src/VolumeRegistry.sol:156-159 | a creation leaves exactly graceBlocks * price; at price zero the batch is already dead |
| Failures.BornDead | contracts/src/VolumeRegistry.sol:145-183 | a run whose last call creates a volume at price zero: it is Active and its batch is already dead |
| Survival.TriggerFunds | contracts/src/VolumeRegistry.sol:308-313 | a ToppedUp or NoDeficit trigger leaves at least graceBlocks * price |
| Survival.SurvivesFlatPrices | docs/DESIGN.md:119-119 | if the price never exceeds p0 the batch is live at every block before graceBlocks |
| Survival.SurvivesRisingPrices | docs/DESIGN.md:341-348 | whatever prices do below the compound ceiling, skipped rounds caught up at any time, the batch is live at every block whose ceiling drain is below graceBlocks |
| Survival.AlwaysLiveExactlyWhen | docs/DESIGN.md:337-348 | every batch funded for graceBlocks, at any price and under any prices within the ceiling, is live at block t if and only if the ceiling drain of t blocks is below graceBlocks |
| Survival.LiveBeforeDeathBlock | docs/DESIGN.md:337-348 | so the floor is one exact block, a function of the adjustments pending at funding and of the block of the next round |
| Survival.CeilingInRounds | docs/DESIGN.md:341-348 | the ceiling drain in closed form: the blocks before the next round, whole rounds as a geometric sum, and the blocks left over |
| Survival.LiveFromPriceExactlyWhen | docs/DESIGN.md:337-348 | at one given price the bound is exact in whole numbers: all batches funded at it are live at t if and only if the drain at the largest whole prices stays below the funds |
| Survival.RateLimitedIsUnderCeiling | docs/DESIGN.md:341-341 | prices limited from each round to the next, and within the ceiling for the first round, stay within it for good |
| SurvivalFloor.FloorHoldsExactlyWhen | docs/DESIGN.md:359-365 | with the Gnosis constants, no batch dies before the documented block 16532 if and only if no adjustment is pending at funding and the next round begins at least one block later |
| SurvivalFloor.LiveAtTheFloorExactlyWhen | docs/DESIGN.md:359-365 | every batch is live at block 16532 itself if and only if none is pending and the next round begins at least thirteen blocks later |
| SurvivalFloor.SkippedRoundsCost | docs/DESIGN.md:341-341 | with s rounds skipped before funding every batch is live at every block up to 16530 - 13 * s, wherever the next round begins |
| SurvivalFloor.SkippedRoundsFloor | docs/DESIGN.md:341-341 | with a round beginning at funding, each of up to fifty skipped rounds costs twelve or thirteen blocks of the exact floor |
| SurvivalFloor.DeathBlocks | docs/DESIGN.md:365-371 | with a runway of 17280 blocks the exact floor is 16544 with a whole round ahead, 16531 with a round at hand, and 16519 after one skipped round |
| SurvivalFloor.FloorFails | docs/DESIGN.md:365-365 | wherever the documented floor fails, a batch funded at a price anyone can pay is dead at block 16531 |
| SurvivalFloor.FailsAtTheFloor | docs/DESIGN.md:365-365 | with a pending adjustment, or a round beginning within twelve blocks, such a batch is dead at block 16532 |
| SurvivalFloor.WeekFloorHoldsExactlyWhen | docs/DESIGN.md:372-372 | with a runway of 120960 no batch dies before the documented block 93576 if and only if no adjustment is pending at funding and the next round begins at least 117 blocks later |
| SurvivalFloor.WeekFloorFails | docs/DESIGN.md:372-372 | wherever that fails, a batch funded at a price anyone can pay is dead at block 93575 |
| SurvivalFloor.WeekDeathBlocks | docs/DESIGN.md:372-372 | the exact floor of that runway: 93589 with a whole round ahead, 93530 with a round at hand, 93471 after one skipped round |
| SurvivalFloor.HourFloorHoldsExactlyWhen | docs/DESIGN.md:373-373 | with a runway of 300 no batch dies before block 300 if and only if at most two adjustments are pending, or three and the next round begins at least 49 blocks later |
| SurvivalFloor.HourFloorFails | docs/DESIGN.md:373-373 | wherever that fails, a batch funded at a price anyone can pay is dead at block 299 |
| EventStore.PartitionRows | services/indexer/src/ethswarm_volumes/model.py:66-81 | the bucketing loop: each type's rows, each sorted by (block, log index) |
| EventStore.OfRebuildsTheChain | services/indexer/src/ethswarm_volumes/model.py:83-93 | rows fed in any order with any copies merge back, copies dropped, to the chain's own rows of those types |
| EventStore.OnceFedIsTheChain | services/indexer/src/ethswarm_volumes/model.py:83-93 | rows fed once, in any order, merge to exactly the chain's rows of those types |
| EventStore.OrderIsUnique | services/indexer/src/ethswarm_volumes/model.py:78-93 | the sorted order is determined even with copies |
| Projector.ActiveSetAt | services/indexer/src/ethswarm_volumes/project.py:112-127 | the replay loop with its early break |
| Projector.AuthorizedAt | services/indexer/src/ethswarm_volumes/project.py:164-179 | the account loop with its early break |
| Projector.CutRebuildsTheChain | services/indexer/src/ethswarm_volumes/project.py:115-122 | breaking at the first late row keeps exactly the rows in time |
| Projector.ReplaySeesTheChain | services/indexer/src/ethswarm_volumes/project.py:112-127 | whatever order and copies the rows come in, both replays equal a replay of the chain up to the cutoff |
| Projector.FeeVolumeDaily | services/indexer/src/ethswarm_volumes/project.py:78-109 | one entry per day from the first fee's day to the day of as_of, each the sum of that day's transfers, in atomic units |
| Projector.FeeSeriesConserves | services/indexer/src/ethswarm_volumes/project.py:84-89 | the daily series sums to every transfer at or before as_of |
| Projector.FeeFoldIsTheSum | services/indexer/src/ethswarm_volumes/project.py:96-102 | the fee fold counts every row it is fed, copies included |
| DailySeries.WithinDayEnd | services/indexer/src/ethswarm_volumes/project.py:65-75 | a moment is within a day's edge exactly when it is in time and on that day or before |
| DailySeries.CapacityAt | services/indexer/src/ethswarm_volumes/project.py:151-160 | the three figures of one day; none at all exactly when some active depth is off the effective-bytes table |
| DailySeries.CapacityAddsOne | services/indexer/src/ethswarm_volumes/project.py:151-160 | each volume adds one to the count, 4096 bytes per chunk to the nominal figure and its table entry to the effective one |
| DailySeries.EffectiveIsBelowNominal | services/indexer/src/ethswarm_volumes/capacity.py:20-52 | whatever is active, the effective figure stays below the nominal one |
| DailySeries.TotalTakes | services/indexer/src/ethswarm_volumes/capacity.py:19-21 | a byte total does not depend on the order of the active volumes |
| DailySeries.CapacityDaily | services/indexer/src/ethswarm_volumes/project.py:130-161 | one entry per day, each the level at that day's end; fails exactly when some day's active depth is off the table |
| Failures.TooDeepToProject | contracts/src/VolumeRegistry.sol:194-196 | a run that imports a live batch of depth 42, whose log no projection can be made of |
| DailySeries.AccountsDaily | services/indexer/src/ethswarm_volumes/project.py:182-201 | one entry per day, each the authorised level at that day's end |
| DailySeries.PaddingSamples | services/indexer/src/ethswarm_volumes/project.py:274-287 | padding with zero keeps a series true wherever the value before its first day is zero |
| DailySeries.NoVolumesBefore | services/indexer/src/ethswarm_volumes/project.py:274-287 | before the first admit's day the level is zero, so a padded zero is the true level |
| DailySeries.ProjectEntry | services/indexer/src/ethswarm_volumes/project.py:290-348 | every day of the three series, padded days included, and the snapshot, its counts of paying owners over 1, 7 and 30 days included, are the true values |
| DailySeries.DatesAgreeExactlyWhen | services/indexer/src/ethswarm_volumes/project.py:312-321 | the three series share their dates if and only if no measure starts before genesis or all start on one day |
| DailySeries.DatesAgreeFromGenesis | services/indexer/src/ethswarm_volumes/project.py:312-321 | they do whenever no event in time precedes the genesis day |
| View.ResolveView | services/indexer/src/ethswarm_volumes/view.py:61-135 | the view's loops: one point per bucket, fees summed, stocks read at the bucket's last date, the counts of paying owners passed through |
| View.BucketIsSlice | services/indexer/src/ethswarm_volumes/view.py:56-58 | bucket i is the slice of `width` dates from i * width |
| View.BucketsPartition | services/indexer/src/ethswarm_volumes/view.py:56-58 | joined up, the buckets are the window's dates |
| View.BucketFeesConserve | services/indexer/src/ethswarm_volumes/view.py:96-104 | the points' fees add up to the window's fee |
| View.WholeWindowIsTotal | services/indexer/src/ethswarm_volumes/view.py:76-79 | a window reaching back to the first date reports the total; a bucket count of zero is such a window |
| View.WindowHolds | services/indexer/src/ethswarm_volumes/view.py:76-79 | a date is in the window if and only if it is a fee date and the window reaches back to it, from `since` or by the last count * width dates; the dates run without a gap to the last one |
| View.WindowFeeIsOfItsDays | services/indexer/src/ethswarm_volumes/view.py:104-104 | the window's fee is the fees of exactly those days |
| View.EveryPointIsTrue | services/indexer/src/ethswarm_volumes/view.py:96-135 | each fee point is the fees of its days and each stock point the level at the end of its last day, aligned series or not |
| View.NeverAMissingEdge | services/indexer/src/ethswarm_volumes/view.py:117-135 | with one date list no stock point falls back on a missing date |
| Refinement.ReplayIsTheContract | services/indexer/src/ethswarm_volumes/project.py:112-127 | after any run, replaying its log to any moment gives exactly the Active volumes with their depths, as many as the active index, and exactly the active accounts the contract had then |
| Refinement.DailyLevelIsTheContract | services/indexer/src/ethswarm_volumes/project.py:130-201 | a day's reported capacity and accounts are the contract's own at the end of that day, and nothing before the first moment of the run |
| Refinement.FeeTotalIsReceived | services/indexer/src/ethswarm_volumes/project.py:84-89 | the projected fee total is exactly what PostageStamp received from the registry |
| Refinement.SpanIsReceived | services/indexer/src/ethswarm_volumes/project.py:78-109 | the fees of any span of days are exactly what PostageStamp received from the registry on those days |
| EndToEnd.WindowFeeIsReceived | services/indexer/src/ethswarm_volumes/view.py:104-104 | a view's window fee is exactly what PostageStamp received since the window's first day began |
| Payments.OwnerTimeline | services/indexer/src/ethswarm_volumes/project.py:204-218 | the loop that gathers each volume's admissions |
| Payments.FindOwner | services/indexer/src/ethswarm_volumes/project.py:256-263 | the scan for the owner at a block |
| Payments.PaidInWindow | services/indexer/src/ethswarm_volumes/project.py:221-271 | for each window, the number of distinct owners of the payments joined by transaction and order |
| Attribution.TransfersMatchSiblings | services/indexer/src/ethswarm_volumes/project.py:226-233 | in every transaction transfers and siblings are equally many, the k-th transfer stands right before the k-th sibling, and a top-up's amount is its transfer's value |
| Attribution.OwnerResolves | services/indexer/src/ethswarm_volumes/project.py:204-218 | the owner found at the payment's block is the owner the contract billed |
| Attribution.NoPayerInvented | services/indexer/src/ethswarm_volumes/project.py:226-233 | whatever copies the rows hold, nobody is counted who was not charged in the window |
| Attribution.PayersAreTheJoined | services/indexer/src/ethswarm_volumes/project.py:221-271 | whatever copies the rows hold, an owner is counted if and only if a payment charged to it in the window has a transfer opposite it or a copy of it |
| Attribution.PaidInWindowIsCharged | services/indexer/src/ethswarm_volumes/project.py:221-271 | after any run, rows fed once count exactly the owners the registry charged |
| Attribution.BilledOwnerIsOnRecord | contracts/src/VolumeRegistry.sol:297-299 | the owner a payment bills is the one on the volume's record |
| Sync.Store.AppendRows | services/indexer/src/ethswarm_volumes/store.py:122-136 | rows grouped by file in order of first appearance, written file by file |
| Sync.Store.SaveHead | services/indexer/src/ethswarm_volumes/store.py:172-178 | replaces the head and nothing else |
| Sync.Store.LoadRows | services/indexer/src/ethswarm_volumes/store.py:139-161 | the first line of each chain position, over the files in any order |
| Sync.AcquireRanges | services/indexer/src/ethswarm_volumes/cli.py:123-138 | range by range: rows first, then the head |
| Sync.SyncDelta | services/indexer/src/ethswarm_volumes/cli.py:114-144 | resumes after the head, writes exactly the run's lines and heads in order, and feeds prior history followed by the fresh rows |
| Resume.RangesTile | services/indexer/src/ethswarm_volumes/acquire.py:60-67 | both legs over all ranges fetch every chain row from the start block exactly once, whatever the range size |
| Resume.HeadsStepBySize | services/indexer/src/ethswarm_volumes/acquire.py:60-67 | a run moves the head exactly one range at a time, the last range cut at the end |
| Resume.KillAnywhere | services/indexer/src/ethswarm_volumes/cli.py:136-137 | however many of a run's writes take effect, files hold only chain rows and everything up to the head |
| Resume.StoreInvAlways | services/indexer/src/ethswarm_volumes/store.py:145-148 | the same after any sequence of runs, each killed anywhere |
| Resume.LoadedUpToHeadIsTheChain | services/indexer/src/ethswarm_volumes/store.py:145-161 | at every moment of every such history, the loaded store up to its head is the chain from genesis to the head, each row once |
| Resume.CompletedRunLeavesNothing | services/indexer/src/ethswarm_volumes/cli.py:131-138 | whatever was left over, a run that completes leaves nothing stored beyond the head if and only if nothing was stored beyond both the head it found and the block it went up to |
| Resume.CompletedSessionHeals | services/indexer/src/ethswarm_volumes/cli.py:131-138 | after any killed runs, one that completes and goes at least as far as every earlier one leaves nothing stored beyond the head |
| Resume.ResumedIsOneShot | services/indexer/src/ethswarm_volumes/cli.py:99-104 | with nothing beyond the head, a resumed run feeds the projector the very log a one-shot sync would |
| Resume.StocksIgnoreLeftovers | services/indexer/src/ethswarm_volumes/cli.py:144-144 | with any leftovers, the stock replays still read exactly the chain |
| Resume.FeesCountLeftoversTwice | services/indexer/src/ethswarm_volumes/cli.py:144-144 | a completed run reports the chain's fees plus, once more, the fees of what was stored beyond its head |
| Resume.FeesAreRightExactlyWhen | services/indexer/src/ethswarm_volumes/cli.py:144-144 | the fee total is right if and only if no transfer of nonzero value, in time, was stored beyond the head |
| Crash.PairingAfterCrash | services/indexer/src/ethswarm_volumes/project.py:238-254 | after crashes a payment is joined if and only if fewer siblings stand before it than there are transfers, counting in its transaction the chain's rows and, again, those stored beyond the head |
| Crash.JoinedExactlyWhen | services/indexer/src/ethswarm_volumes/project.py:238-254 | every payment of the chain is joined if and only if in every transaction the leftover siblings, the last apart, are no more than the leftover transfers |
| Crash.PaidAfterCrash | services/indexer/src/ethswarm_volumes/project.py:221-271 | after crashes an owner is counted if and only if a payment charged to it in the window meets that count |
| Crash.PaidIsRightExactlyWhen | services/indexer/src/ethswarm_volumes/project.py:221-271 | so the counted owners are those charged if and only if each owner charged in the window has a payment in it that meets the count |
| ExampleRun.LogOfTheRun | contracts/src/VolumeRegistry.sol:230-235 | two owners import a batch each and one keeper call tops both up: a run of the registry, with the ten rows it logs |
| CrashExamples.FeesCountedTwice | services/indexer/src/ethswarm_volumes/cli.py:136-144 | a run of the registry, and of a sync over its log killed between its last row and its head, after which the next run over-reports fees |
| CrashExamples.PayerMissed | services/indexer/src/ethswarm_volumes/store.py:129-136 | the same run of the registry, its sync killed between two files of one append, after which the next run misses a paying owner |
| EndToEnd.StocksSurviveCrashes | services/indexer/src/ethswarm_volumes/cli.py:94-162 | from contract to artifact through any killed syncs: reported volumes and accounts are the contract's own |
| EndToEnd.ResumedRunIsExact | services/indexer/src/ethswarm_volumes/cli.py:94-162 | with nothing left over, fees and paying owners are the contract's own too |
| EndToEnd.SyncAndProject | services/indexer/src/ethswarm_volumes/cli.py:94-162 | from the store and the chain to the entry: exactly the run's writes, and an entry true of prior history and fresh rows, unless some depth is off the table |
| EndToEnd.EntryAfterCrashes | services/indexer/src/ethswarm_volumes/cli.py:94-162 | after any killed syncs the entry holds, on every reported day and at the end, the contract's own capacity and accounts; as fees those logged and those of the leftovers again; and in each window the number of owners with a payment that meets the count |
| EndToEnd.EntryIsTheContract | services/indexer/src/ethswarm_volumes/cli.py:94-162 | with nothing stored beyond the head the whole entry is the contract's: levels, every fee PostageStamp received, and in each window the number of owners charged |
| EndToEnd.OneCompletedRunHeals | services/indexer/src/ethswarm_volumes/cli.py:94-162 | so after any killed runs and then one completed run, the next run projects exactly the contract's entry: a crash distorts at most the runs up to the next that completes |
| Receipt.NamesAgreeExactlyWhen | services/keeper/src/keeper/abi.ts:153-165 | every retirement is reported under its own name; a skip under its own name if and only if it is neither NotFound nor NotActive |
| Receipt.DecodeCycleEvents | services/keeper/src/keeper/events.ts:23-56 | the decoding loop over the registry's own logs |
| Receipt.TriggerEmitsAtMostOne | services/keeper/src/keeper/events.ts:61-64 | a trigger emits at most one event of its own, about its own volume |
| Receipt.SummaryAgrees | services/keeper/src/keeper/events.ts:70-86 | read from the receipt, whatever other contracts logged, the summary is the contract's outcome, reason and amount |
| Receipt.ReportedAmountIsCharged | services/keeper/src/keeper/events.ts:76-77 | a reported top-up is the formula's charge, taken from the payer |
| Keeper.PagingIsTheIndex | services/keeper/src/keeper/actions/collectActiveVolumes.ts:40-62 | for every page size of at least one, the pages joined are the whole index in order |
| Keeper.CollectSelected | services/keeper/src/keeper/actions/runKeeperCycle.ts:282-292 | the status check of `selected` mode |
| Keeper.SelectedPartition | services/keeper/src/keeper/actions/runKeeperCycle.ts:282-292 | every requested id is listed or reported as not Active, never both |
| Keeper.RotatePermutes | services/keeper/src/keeper/actions/runKeeperCycle.ts:101-106 | a rotation is a permutation that moves every id round by the same number of places |
| Keeper.Report.Dispatch | services/keeper/src/keeper/actions/runKeeperCycle.ts:318-361 | the nonce handling and fate of one transaction |
| Keeper.Report.Record | services/keeper/src/keeper/actions/runKeeperCycle.ts:365-394 | the result goes to the one list it belongs in |
| Keeper.Report.SendAll | services/keeper/src/keeper/actions/runKeeperCycle.ts:223-240 | the loop, cut only by the deadline and never before the first volume |
| Keeper.Report.Run | services/keeper/src/keeper/actions/runKeeperCycle.ts:196-250 | the whole report as a function of the listing and the answers; `ok` if and only if nothing failed and no error |
| Keeper.AttemptedIsPrefix | services/keeper/src/keeper/actions/runKeeperCycle.ts:214-224 | attempted ids are a prefix of a rotation of the listed ids |
| Keeper.CapIsUsed | services/keeper/src/keeper/actions/runKeeperCycle.ts:214-224 | with no deadline met, exactly the smaller of the listing and the cap is attempted, from the hashed start and round past the end |
| Keeper.WarnsExactlyWhen | services/keeper/src/keeper/actions/runKeeperCycle.ts:215-233 | the cap warning appears if and only if more are listed than the cap allows, with how many too many; the deadline warning if and only if it cut the attempts, with how many were done and left; a named id is warned about if and only if it was not Active |
| Keeper.EveryAttemptIsAccountedFor | services/keeper/src/keeper/actions/runKeeperCycle.ts:56-68 | a run that sends splits what it attempted exactly into toppedUp, retired, topupSkipped, noop and failed |
| Keeper.AttemptedPlusDeferred | services/keeper/src/keeper/actions/runKeeperCycle.ts:214-232 | attempted and both deferred counts add up to the volume count |
| Keeper.NoncesNeverRepeat | services/keeper/src/keeper/actions/runKeeperCycle.ts:137-143 | given an accurate pending count, accepted nonces are consecutive: no two sends share one |
| Keeper.SendsExactlyWhen | services/keeper/src/keeper/actions/runKeeperCycle.ts:339-347 | when a transaction leaves, which nonce it spends, and when the count is carried to the next volume unread |
| Keeper.FailsExactlyWhen | services/keeper/src/keeper/actions/runKeeperCycle.ts:237-240 | a result is a failure if and only if its simulation failed, or its transaction was not sent, not confirmed or reverted |
| Keeper.DryRunSendsNothing | services/keeper/src/keeper/actions/runKeeperCycle.ts:321-337 | a dry run sends nothing and books nothing but failures |
| Keeper.DryRunPasses | services/keeper/src/keeper/actions/runKeeperCycle.ts:321-337 | a dry run has no failure if and only if every simulation it made passed |
| Keeper.EveryActiveVolumeIsAttempted | services/keeper/src/keeper/actions/runKeeperCycle.ts:120-135 | under the cap and the deadline, every Active volume is attempted exactly once |
| Keeper.ResultTellsTheTruth | services/keeper/src/keeper/actions/runKeeperCycle.ts:365-394 | a successful result carries the outcome, reason and amount of the trigger that was mined |
| Keeper.ReportSaysWhy | services/keeper/src/keeper/actions/runKeeperCycle.ts:365-394 | the reported outcome, reason and amount are the ones the record, account, batch and payer's money call for |

## Left out

- PostageStamp, PriceOracle and token internals (order tree, roles, permit signatures, batch expiry sweeps), gas and
  out-of-gas: only the contracts stated under Assumptions are used.
- The immutable flag, and the bucket depth beyond what PostageStamp demands of it: they reach no field of
  the registry.
- Revert data: errors are distinguished by name, and by their fields where the registry's own errors carry any.
- The design's I1 taken literally: a batch may die or change depth before the next trigger, so it is stated at record time
  and after a ToppedUp or NoDeficit outcome only.
- Token balances are unbounded naturals: no sum of balances is wrapped at 256 bits.
- Several deployments in one store: rows are one deployment's, so the narrowing by deployment is the identity.
- Ownership-transfer events of the first contract version: the modelled contract emits none.
- File formats, torn lines and a torn head file: writes are whole lines and whole heads.
- Finding the genesis block, reading the token and PostageStamp addresses, block timestamps and price feeds: parameters.
- BZZ and fiat floats: amounts stay in atomic units; fiat series, display strings and the client's rendering are absent.
- Calendar strings: days are indices, so date comparison is comparison of indices.
- RPC, wallet, fee caps, gas estimates, receipt timeouts and durations: what they answer is a parameter of each attempt,
  and failing to reach the node at all is one bit of the plan.
- The hash that picks the rotation: any number.
- Page sizes and counts as JavaScript numbers: exact integers here.
- Receipt.NamesAgreeExactlyWhen: contract names are compared with the keeper's table as strings; the ABI decoding that
  delivers the codes is not modelled.
- Keeper.NoncesNeverRepeat: takes the node's pending count as accurate and the wallet as used by nothing else meanwhile.
- Deployment, export, configuration, notification and scrubbing scripts: validation and plumbing.
