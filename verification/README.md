# Token streams and their governance

A model of two contracts and proofs about it: the stream contract, which releases a deposit to a
recipient second by second, and the multi-signature governance contract.

## How it is built

The stream contract is modelled in layers.

- `FixedWidth` and `Accrual` hold the machine integers and the accrual function, as the code has it
  and as an unbounded-integer formula.  `RateSimulation` compares it with counting seconds.
- `Streams` has the stream record, what is owed on it, and what every stored record satisfies.
  `StreamRules` says what each entry point does to the one stream it loads, with the law that every
  such effect obeys.
- `StreamIds` is the allocator of stream IDs.  `Ledger` puts everything together as a state machine
  over values: a call maps a ledger to a ledger and a result, and a failed call leaves the ledger
  alone.  Batches are folds of single operations there.
- `StreamCalls`, `StreamTerms` and `BatchCalls` say what each call means to its caller: exactly when
  it is accepted, what it changes, and what the stream accrues at every later time.  `CallErrors` says
  what a refusal means, and `Rights` who may do what.
- `Promises` follows a stream from its creation: what the terms promise, and that every run pays it.
- `LedgerInvariant`, `LedgerRuns`, `IdRuns`, `IdCounter`, `BatchTheorems`, `BulkCreation`,
  `CreationErrors`, `RateRuns` and `Forecast` prove what else holds over all runs and batches;
  `Witnesses` has the runs on which a promise fails.
- `Storage` has the contract's storage as a class, with what the value model leaves out because it is
  redundant: the index of streams by recipient and the count of paused streams.  `Withdrawals`,
  `BatchWithdrawals`, `RateChanges`, `Cancellation`, `Creation` and `Upkeep` are the entry points as
  methods over it, with their early returns, loops, running totals, caps and checked arithmetic.  Each
  is proved to do to the whole state exactly what the value model says, so every theorem about runs
  is about them, and to keep the redundant tables right.
- `Keeper` and `Templates` stand beside this.

The governance contract is `Governance` (values, with a log of what happened), `GovernanceLog` (what a
log means, and when it is lawful), `GovernanceRuns` (the theorems), `GovernanceCalls` (the contract is
the monitor of its log), `GovernanceWitnesses` (a run on which a documented use fails) and
`GovernanceContract` (the stored state, in which membership and approvals are each kept twice).  The log
has an entry for every call that does something, with its arguments; the contract publishes less.

The sum of what is owed counts `deposit - withdrawn` for active and paused streams, nothing for
completed ones, and frozen accrual minus `withdrawn` for cancelled ones.

In `StreamOp`, `UpdateRate` is `update_rate_per_second`; the entry point named `update_rate` is not modelled.

Authorization is modelled as an argument that names the caller.  Clock, ledger number, the verdict on a
signature and the outcome of a dispatched call are inputs.  `HostTrap` stands for a panic.
The plain additions on the ID counter, in `reserve_stream_ids` and on the nonce are modelled as trapping at
the end of the `u64` range, as they do in a build with overflow checks; `NoIdIssuedTwice` and
`SignatureIsSpent` rest on that.  No Cargo.toml of the repository turns the checks on for a release build,
where these additions would wrap.  Every other plain operation is proved not to overflow.  The token
contract keeps exact balances, does not call back, and lets an owner be debited up to `spendable`.
The state also counts, for each stream, what was put in, paid and refunded; the code does not.

## Where the code differs from what is written about it

- docs/streaming.md:860 says that a decrease whose new deposit would exceed the old one fails with
  `ArithmeticOverflow`.  The code returns `InvalidState` (`DecreaseRefusedWhenUnderfunded`).  The comment
  at contracts/stream/src/lib.rs:4437, that the new deposit always fits, does not hold either
  (`DecreaseCanBeUnderfunded`).
- contracts/stream/src/lib.rs:4481 says that shortening refunds only what can never accrue under the new
  end.  After a decrease it can refund more (`ShortenCanCutEarnings`); `ShortenedPaysExactly` gives the
  condition.  docs/streaming.md:533 gives the new deposit as the rate times the new duration; the code
  takes what has accrued if that is more.
- contracts/stream/src/lib.rs:4614 says that extending leaves accrual as it is.  That is so exactly under
  the condition of `ExtendKeepsAccrualExactly`.
- A rate change before the cliff moves the moment from which accrual counts.  Made before the start, it
  adds accrual for seconds before the start (`ChangeBeforeStartAddsAccrual`); made between start and
  cliff, it drops what the seconds before it would have counted (`ChangeBeforeCliffDropsAccrual`).
  `SumFromStartExactly` says when the amount is right all the same.
- contracts/governance/src/lib.rs:1183 advises to page by advancing by `limit`; above 100 that skips
  proposals (`PagingSkips`; `AdvancingByLimitEnumerates` gives the condition).  The same comment says
  that cancelled and executed proposals are skipped; they are returned.
- A completed stream in `batch_withdraw` is not skipped before the checks on recipient and frequency
  (`CompletedStreamFailsBatch`; `BatchSucceedsExactly` gives the condition).
- contracts/stream/src/lib.rs:3950 says that `top_up_stream` is not stopped by the global pause; it is.
- `create_streams` and creating one by one may report different errors when both fail, because the
  batch validates all entries first (`BatchReportsOtherError`; `ErrorsAgreeExactly` gives the condition).
- `keeper_cancel` pays the recipient without raising `withdrawn`, so the claim stays open and can be paid
  again (`KeeperCanPayTwice`), and the contract can be left owing more than it holds
  (`KeeperCanLeaveInsolvent`).  It is a lawful step exactly when there is no claim
  (`KeeperKeepsInvExactly`).

## Model

| member | source | states |
|---|---|---|
| Accrual.FixedWidthIsExact | contracts/stream/src/accrual.rs:200-254 | for every representable state with a non-negative checkpoint, the machine computation (widening, checked product with fallback, saturating sum) equals the unbounded clamp formula |
| Accrual.CodeIsMonotoneAndBounded | contracts/stream/src/accrual.rs:193-254 | the computed accrual never decreases in time, across the cliff, checkpoint and end branches, and stays between zero and the deposit |
| Accrual.CodeDiffersExactly | contracts/stream/src/accrual.rs:200-254 | for all representable inputs, of either sign: the code differs from the unbounded formula if and only if the checkpoint is negative, the branches before the product are passed, the product overflows, and the formula is positive; no stored record has a negative checkpoint |
| RateSimulation.CheckpointedAccrualIsSimulation | contracts/stream/src/lib.rs:4285-4311 | after any sequence of accepted rate changes, accrual computed from the one stored checkpoint is the second-by-second sum of the rate in force since `Origin`, capped by the deposit, from the last change and the cliff on |
| RateSimulation.OriginIsStart | contracts/stream/src/accrual.rs:205-207 | when no change was made before the cliff, the sum runs from the start of the stream |
| RateSimulation.SumFromStartExactly | contracts/stream/src/accrual.rs:205-253 | against the sum from the start, capped by the deposit: equal when no change before the cliff moved the counting; after a change before the start accrual is never lower, and equal if and only if the deposit caps the sum; after a change between start and cliff it is never higher, and equal if and only if the deposit caps even the shorter count |
| Promises.CreatedAccrualIsSimulation | contracts/stream/src/lib.rs:4240-4473 | from an accepted creation, alone or in a batch, on: over any run in which the stream is neither topped up nor re-scheduled, however it is paid from, paused, cancelled, handed over or re-priced under changing caps, its record entitles, from the last accepted rate change and the cliff on, to the second-by-second sum of the rate in force since `Origin`, beginning with the rate asked for, capped by the deposit |
| Promises.CreatedLiveAccrual | contracts/stream/src/lib.rs:3795-3820 | in particular what a live stream has accrued by now; before the cliff it is nothing |
| Promises.CreationMeans | contracts/stream/src/lib.rs:2044-2093 | `create_stream` is accepted if and only if the contract is open, the terms are sound, the sender can pay and there is an ID; the deposit is pulled, and the record has exactly the sender, recipient, deposit, rate, schedule, kind, dust threshold and memo asked for, with nothing withdrawn and counting from the start |
| Promises.BatchMeans | contracts/stream/src/lib.rs:2325-2418 | an accepted batch pulls the sum of the deposits, and the record under the k-th ID it returns has the k-th terms; no other stream changes |
| Promises.BatchAcceptedExactly | contracts/stream/src/lib.rs:2325-2418 | a batch is accepted if and only if it is empty, or the contract is open, all terms are sound, the sender can pay for all of them together, and own range and counter have enough IDs |
| Promises.AccrualIsAsPromised | contracts/stream/src/accrual.rs:193-254 | over any run from the creation on in which the terms stay, a live stream has accrued at every time what its terms promised: nothing before the cliff, then the whole deposit, or the seconds since the start at the rate; and something is left to pay. Nothing is supposed of the run for a cliff-only stream: no call can change its terms |
| Promises.PromiseIsForecast | contracts/stream/src/lib.rs:3887-3922 | then the query answers, for every time, the promise less what was withdrawn |
| Promises.PromiseIsPaid | contracts/stream/src/lib.rs:2893-2984 | then `withdraw` pays the promise for the present time less what was withdrawn, unless the dust rule holds it back before the end, and completes the stream if and only if the whole deposit was promised by now |
| Promises.PromiseIsSplit | contracts/stream/src/lib.rs:5262-5308 | then a cancellation sends the sender exactly what was not promised by now, and the claim on the rest of the promise stays the same for ever |
| Promises.CliffOnlyPaysAtTheCliff | contracts/stream/src/accrual.rs:205-215 | a cliff-only stream in any run from its creation: before the cliff nothing is claimable and nothing is paid; from the cliff on `withdraw` pays the whole deposit less what was withdrawn and completes the stream |
| Promises.CliffOnlyCancelled | contracts/stream/src/lib.rs:5262-5308 | its cancellation refunds everything before the cliff and nothing from the cliff on |
| Witnesses.ShortenCanCutEarnings | contracts/stream/src/lib.rs:4481-4483 | a run: a stream lowered from 100 to 10 per second and then shortened pays 910 by its new end, where it had earned 960 by then under its terms |
| Witnesses.ChangeBeforeStartAddsAccrual | contracts/stream/src/lib.rs:4240-4312 | a run: a rate doubled a thousand seconds before the start makes 2000 tokens accrue by the start, where the sum from the start is 0 |
| Witnesses.ChangeBeforeCliffDropsAccrual | contracts/stream/src/lib.rs:4240-4312 | a run: a change between start and cliff leaves 14 tokens at the end, where the sum from the start is 17 |
| StreamRules.WithdrawalPathsAgree | contracts/stream/src/lib.rs:2893-2984 | whatever path draws a claim, the amount is accrued minus withdrawn, it is the same on all paths, and the records differ only in the withdrawal stamp |
| StreamRules.DecreaseRateOk | contracts/stream/src/lib.rs:4413-4453 | a decrease leaves accrual at that instant unchanged, accrual at the end equals the new deposit exactly, and new deposit plus refund is the old deposit |
| StreamRules.UpdateRateOk | contracts/stream/src/lib.rs:4285-4312 | a rate increase moves no tokens and leaves accrual at that instant unchanged |
| StreamRules.ShortenOk | contracts/stream/src/lib.rs:4526-4580 | shortening leaves accrual at that instant unchanged and refunds exactly what is no longer owed |
| StreamRules.ExtendKeepsAccrualExactly | contracts/stream/src/lib.rs:4612-4663 | extending leaves accrual at that instant unchanged if and only if the end has not passed, the checkpoint is not behind, or the deposit is fully accrued |
| StreamRules.ExtendCanRaiseAccrual | contracts/stream/src/lib.rs:4612-4614 | the documented "unchanged" fails on a concrete stream extended after its end |
| StreamRules.TopUpOk | contracts/stream/src/lib.rs:4742-4777 | a top-up raises what is owed by exactly the amount pulled and takes no accrual away |
| StreamRules.CancelOk | contracts/stream/src/lib.rs:5262-5308 | cancelling freezes accrual where it stands, refunds deposit minus accrued, and leaves exactly the claim owed |
| StreamRules.DecreaseRefusedWhenUnderfunded | contracts/stream/src/lib.rs:4422-4445 | an otherwise acceptable decrease is refused if and only if the deposit does not cover accrual plus the remaining seconds at the new rate; the error is `InvalidState` |
| StreamRules.DecreaseCanBeUnderfunded | contracts/stream/src/lib.rs:4433-4445 | that case is reachable: decrease late, extend, decrease again |
| StreamCalls.WithdrawMeans | contracts/stream/src/lib.rs:2893-2984 | accepted if and only if the contract is not paused, the recipient calls, at most once per ledger number, and the stream is neither completed nor paused before its end; it pays the recipient what has accrued and was not withdrawn, or nothing under the dust rule; record, balances, counter and books are stated |
| StreamCalls.WithdrawToMeans | contracts/stream/src/lib.rs:3041-3122 | the same without a frequency limit, paid to the destination that the recipient names, which is not the contract |
| StreamCalls.DelegatedWithdrawMeans | contracts/stream/src/lib.rs:3597-3742 | accepted if and only if the request is signed by the recipient's key with its current nonce, in time, for at most what is open; it pays the recipient, the nonce goes up by one if anything is paid, the counter stays |
| StreamCalls.AutoClaimMeans | contracts/stream/src/lib.rs:6307-6421 | anybody may trigger it once a live stream has ended; it pays the destination on record, the counter stays |
| StreamTerms.UpdateRateAccepted | contracts/stream/src/lib.rs:4246-4283 | accepted if and only if the sender raises the rate of a live linear stream within the cap and the deposit; the overflow check never decides |
| StreamTerms.UpdateRateMeans | contracts/stream/src/lib.rs:4285-4325 | no token moves, and at every later time the stream has earned what it had earned and the new rate for every second since, up to the deposit |
| StreamTerms.DecreaseRateAccepted | contracts/stream/src/lib.rs:4380-4445 | accepted if and only if the sender lowers the rate of a live linear stream before its end and the deposit covers what has accrued and the remaining seconds at the new rate; the overflow checks never decide |
| StreamTerms.DecreaseRateMeans | contracts/stream/src/lib.rs:4413-4473 | the deposit becomes exactly what the stream will have earned by its end, the rest goes to the sender, the counter stays, and at every later time the stream has earned what it had earned and the new rate for every second since |
| StreamTerms.ShortenMeans | contracts/stream/src/lib.rs:4504-4593 | at every time the shortened stream has accrued what the old one would have by then, or by the new end if that is earlier, up to the new deposit; the cut goes to the sender and off the counter |
| StreamTerms.ShortenKeepsTheSchedule | contracts/stream/src/lib.rs:4526-4563 | a stream that was never re-priced pays by the new end exactly what it would have paid by then, and that is the new deposit |
| StreamTerms.ShortenedPaysExactly | contracts/stream/src/lib.rs:4481-4563 | for any stream: it pays by the new end what it would have paid by then if and only if the checkpoint and the rate reach no more than the schedule by then, or the deposit is that schedule, or nothing more was to accrue before the new end |
| StreamTerms.ExtendMeans | contracts/stream/src/lib.rs:4621-4675 | nothing moves; accrual up to the old end is as it was, and goes on at the rate after the old end, or after the checkpoint if that is later, up to the deposit |
| StreamTerms.TopUpMeans | contracts/stream/src/lib.rs:4723-4789 | the caller's own tokens raise deposit, balance and counter, and accrual at every time only loses its old cap |
| StreamTerms.PauseMeans | contracts/stream/src/lib.rs:2661-2772 | pausing and resuming change the flag and its stamp, move nothing, and leave accrual at every time as it is |
| StreamTerms.CancelMeans | contracts/stream/src/lib.rs:5262-5308 | accrual stands still for ever, and the sender gets the rest of the deposit |
| StreamTerms.CancelFreezesForecasts | contracts/stream/src/lib.rs:3887-3922 | after a cancellation the query answers about the past as before, and about any later time as about the moment of the cancellation |
| BatchCalls.BatchWithdrawMeans | contracts/stream/src/lib.rs:3281-3416 | accepted if and only if the IDs are distinct and every one names a stream of the recipient's that holds nothing back and keeps the frequency limit; amounts, records, payments, balance and counter are those of the state before the call |
| BatchCalls.BatchWithdrawToMeans | contracts/stream/src/lib.rs:3433-3557 | accepted if and only if no destination is the contract, no ID is repeated and every stream is the recipient's and holds nothing back; each entry pays its own destination what its stream could pay before the call, the counter stays |
| BatchCalls.BulkCancelMeans | contracts/stream/src/lib.rs:7072-7199 | accepted if and only if the IDs are distinct live streams of the caller's; each recipient is sent all that had accrued, the sender the rest of all deposits, and the records say so |
| Rights.OnlyTheEntitledTouch | contracts/stream/src/lib.rs:2044-7199 | of all calls, only these change the record or the books of a stream: payments by its recipient or on its signature, auto-claims to the destination it set, top-ups, terms by the sender, stops by sender or administrator, the sender's bulk cancellation, the recipient's hand-over, and closing |
| Rights.OnlyTheEntitledDirect | contracts/stream/src/lib.rs:2044-7199 | only the sender proposes and withdraws a hand-over, only the recipient accepts it or sets the destination of auto-claims, and only an owner's own creations and top-ups take that owner's tokens |
| Rights.PausedPaysNothing | contracts/stream/src/lib.rs:2661-2710 | after an accepted pause no call of any run, on whatever path, pays anything out of the stream until it is resumed, cancelled or past its end |
| Rights.HandOverMeans | contracts/stream/src/lib.rs:3133-3235 | proposal, acceptance and withdrawal of a hand-over: who, when, and that nothing else changes |
| Rights.SweepMeans | contracts/stream/src/lib.rs:6101-6150 | only the administrator sweeps, exactly the balance beyond the counter, to the address given; no stream changes |
| CallErrors.ErrorsNameTheCause | contracts/stream/src/lib.rs:2661-6421 | a refused call on a stream changes nothing, and the error it reports names a condition that holds |
| CallErrors.CreationErrorsNameTheCause | contracts/stream/src/lib.rs:1652-1791 | the same for a refused creation |
| LedgerInvariant.StepKeepsInv | contracts/stream/src/lib.rs:2044-7199 | every step keeps: all records valid, balance and liability counter each cover everything owed, every stream's books balance, IDs soundly allocated; and takes back no accrual, no withdrawal and no closed book |
| LedgerRuns.Solvency | contracts/stream/src/lib.rs:2916-2965 | in every reachable state the contract holds at least the sum of what it owes, the liability counter covers it too, and no claim exceeds the balance |
| LedgerRuns.EntitlementNeverShrinks | contracts/stream/src/lib.rs:4327-4345 | along every run withdrawn stays between zero and accrued, accrued within the deposit, and neither accrued nor withdrawn ever falls |
| LedgerRuns.ConservationAtClose | contracts/stream/src/lib.rs:4819-4920 | when a stream is closed, deposits and top-ups equal payments to the recipient plus refunds, and no later step reopens the stream or its books |
| LedgerRuns.GapIsWhatBypassed | contracts/stream/src/lib.rs:4437-4458 | over every run, refused calls included, the counter's distance above what is owed grows by exactly the total moved by rate decreases, delegated withdrawals, auto-claims and directed batches, less what arrived while the counter was saturated |
| LedgerRuns.CutOffExactly | contracts/stream/src/lib.rs:1767-1771 | nothing is lost to saturation if and only if no accepted deposit or top-up of the run brings the counter past the largest `i128` |
| LedgerRuns.SurplusNeverFalls | contracts/stream/src/lib.rs:6111-6149 | without sweeps, what the contract holds beyond its debts never falls |
| LedgerRuns.StepMatches | contracts/stream/src/lib.rs:2893-7199 | one step changes the surplus only by a sweep, a donation or a payment of the contract to itself |
| LedgerRuns.BypassedIsNeverSwept | contracts/stream/src/lib.rs:6101-6150 | whatever was swept during a run, a sweep after it that takes anything leaves the gap of the beginning and all that has bypassed the counter since (less what saturation cut off) beyond what is owed |
| LedgerRuns.NoncesOnlyGrow | contracts/stream/src/storage.rs:531-540 | no run lowers a delegated-withdrawal nonce |
| LedgerRuns.SignatureIsSpent | contracts/stream/src/lib.rs:3597-3742 | a signed request that has paid is refused ever after, on every stream, as is any with the same key and nonce |
| StreamIds.AllocateIsFresh | contracts/stream/src/lib.rs:1263-1278 | an allocated ID was never issued, and allocation keeps issued IDs, reserved ranges and the counter apart |
| StreamIds.ReclaimKeepsInvariant | contracts/stream/src/lib.rs:6813-6851 | rewinding the counter over an expired range keeps them apart |
| IdRuns.NoIdIssuedTwice | contracts/stream/src/lib.rs:1263-1278 | in every interleaving of creations, reservations, replacements, releases, reclaims and all other calls, all issued IDs are distinct and new |
| IdRuns.ReservedRangeIsHonoured | contracts/stream/src/lib.rs:6765-6796 | the k-th ID that a caller gets after reserving a range is the k-th of the range, whatever others do, until it re-reserves, releases, or is reclaimed after expiry |
| IdRuns.ReservationIsHonoured | contracts/stream/src/lib.rs:1263-1278 | the same for any reservation in force, with what is left of it still reserved |
| IdRuns.ReservationsEndExactly | contracts/stream/src/lib.rs:6765-6851 | of all calls but the holder's own creations, a reservation is ended by exactly these: the holder reserves anew or releases, or its expiry has come and somebody reclaims it |
| IdRuns.UnexpiredReservationIsHonoured | contracts/stream/src/lib.rs:6841-6851 | over any run in which the holder neither reserves anew nor releases, and at whose end the expiry has not come, the reservation is honoured against every attempt to reclaim it |
| IdCounter.BatchTakesNext | contracts/stream/src/lib.rs:1263-1278 | the IDs of a creation or a batch are, in order, what is left of the caller's range and then the next of the counter, without a gap |
| IdCounter.ReserveTakesNext | contracts/stream/src/lib.rs:6765-6796 | a range is granted if and only if it has 1 to 100 IDs and the counter has room, and it is the next IDs of the counter |
| IdCounter.CounterIsAccounted | contracts/stream/src/lib.rs:6765-6851 | over every run, the counter has moved by the IDs that creations took beyond their callers' ranges, plus those set aside, minus those given back by reclaims of the newest range |
| IdCounter.ReclaimedIdsComeBack | contracts/stream/src/lib.rs:6813-6851 | after an accepted reclaim and any run in which nothing moves the counter, the next creation by a caller without a range, batch or reservation begins with the first unused ID of the reclaimed range if that was the newest, and else where it would have begun anyway |
| IdCounter.ReclaimableFromExpiry | contracts/stream/src/lib.rs:6841-6851 | from its reservation on, while it is neither used up nor given up, a range can be reclaimed if and only if the expiry asked for has come |
| BulkCreation.BatchIsFold | contracts/stream/src/lib.rs:2325-2418 | validating everything, one pull of the sum and writing everything succeeds exactly when creating the streams one by one does, with the same IDs and the same state; otherwise both leave the state alone |
| CreationErrors.ErrorsAgreeExactly | contracts/stream/src/lib.rs:2336-2400 | a failed batch reports the error of one-by-one creation if and only if the call is refused outright, or the entry at which one-by-one creation stops is invalid, or the first pass succeeds and no memo stops one-by-one creation where the whole pull fails, or such a memo meets a later entry with the same `InvalidParams` |
| CreationErrors.ErrorsAgreeWhenWritesFit | contracts/stream/src/lib.rs:2336-2400 | when all memos fit and the IDs suffice: if and only if the first pass succeeds, or the first invalid entry comes with all before it valid and payable |
| Witnesses.BatchReportsOtherError | contracts/stream/src/lib.rs:2339-2373 | two entries for which the batch reports `InvalidParams` and creation one by one the failed transfer |
| BatchTheorems.BatchIsOneByOne | contracts/stream/src/lib.rs:3281-3416 | a batch withdrawal that succeeds ends in the state, and pays the amounts, of single withdrawals in that order |
| BatchTheorems.BatchSucceedsExactly | contracts/stream/src/lib.rs:3289-3345 | a batch on distinct IDs succeeds if and only if the single withdrawals do and the completed streams, which those skip, belong to the recipient and are not too recent |
| Witnesses.CompletedStreamFailsBatch | contracts/stream/src/lib.rs:3313-3327 | a run after which single withdrawals pass over a completed stream and the batch fails with `WithdrawalTooFrequent` |
| BatchTheorems.BatchOrderDoesNotMatter | contracts/stream/src/lib.rs:3301-3415 | any order of the same IDs succeeds, ends in the same state and pays each stream the same |
| BatchTheorems.AmountsAreClaimsAtTheStart | contracts/stream/src/lib.rs:3313-3408 | each amount is what the stream could claim before the batch, and no other stream changes |
| BatchTheorems.BulkCancelSettles | contracts/stream/src/lib.rs:7116-7199 | a bulk cancellation leaves every named stream cancelled and owed nothing, recipients paid all that accrued, the sender refunded the rest, everything else untouched; the counter, the sum of what is owed and, unless the contract is itself a recipient, the balance fall by exactly what was owed on the streams |
| Forecast.ForecastComesTrue | contracts/stream/src/lib.rs:3887-3922 | the amount forecast for a time is what `withdraw` pays then, whatever happens to other streams and however often this one is paused and resumed, unless the dust rule applies, which it never does from the end on |
| Storage.SaveStream | contracts/stream/src/lib.rs:1215-1230 | saving a record and reconciling keeps the paused count equal to the number of paused streams |
| Storage.InsertedIsSorted | contracts/stream/src/lib.rs:1372-1389 | insertion at the binary-search position keeps the list strictly sorted and adds just the ID |
| Storage.RemovedIsSorted | contracts/stream/src/lib.rs:1392-1400 | removal keeps it strictly sorted and takes away just the ID |
| Storage.IndexDetermined | contracts/stream/src/lib.rs:1328-1400 | a recipient's list is determined by the stream table |
| Storage.IndexAfterInsertion | contracts/stream/src/lib.rs:1372-1389 | after insertion every recipient's list is again exactly that recipient's live streams |
| Storage.IndexAfterRemoval | contracts/stream/src/lib.rs:1392-1400 | the same after removal |
| Storage.PullToken | contracts/stream/src/storage.rs:648-658 | pulling fails exactly when funds or the balance range do not allow it, and else moves the amount |
| Storage.PushToken | contracts/stream/src/storage.rs:691-696 | sending moves the amount, and nothing when the contract pays itself |
| Withdrawals.CheckWithdraw | contracts/stream/src/lib.rs:2893-2947 | the refusals, the machine-integer claim, the balance cap and the dust rule together are the capped rule over unbounded integers, and the uncapped one whenever the balance covers what is owed, as it does in every run |
| Withdrawals.Withdraw | contracts/stream/src/lib.rs:2893-2984 | the whole state and the reply are those of the value model; index and paused count stay right |
| Withdrawals.CheckWithdrawTo | contracts/stream/src/lib.rs:3041-3085 | the same for `withdraw_to`: no frequency limit, the stamp stays |
| Withdrawals.WithdrawTo | contracts/stream/src/lib.rs:3041-3122 | whole state and reply |
| Withdrawals.CheckDelegatedWithdraw | contracts/stream/src/lib.rs:3620-3708 | the same for a signed request, with the minimum in place of the dust rule |
| Withdrawals.DelegatedWithdraw | contracts/stream/src/lib.rs:3597-3742 | whole state and reply, the nonce included; the counter is not lowered |
| Withdrawals.CheckAutoClaim | contracts/stream/src/lib.rs:6312-6374 | the same for auto-claims, where saturating arithmetic never saturates |
| Withdrawals.TriggerAutoClaim | contracts/stream/src/lib.rs:6307-6421 | whole state and reply |
| Withdrawals.GetClaimableAt | contracts/stream/src/lib.rs:3887-3922 | the query returns entitlement at the given time, frozen by a cancellation, minus withdrawn, and never less than zero |
| BatchWithdrawals.AllDistinct | contracts/stream/src/lib.rs:3289-3299 | the quadratic scan decides whether the IDs are distinct |
| BatchWithdrawals.CheckDirected | contracts/stream/src/lib.rs:3441-3460 | the combined scan reports the first malformed entry: contract as destination, or a repeated ID |
| BatchWithdrawals.CheckItem | contracts/stream/src/lib.rs:3313-3371 | one turn of either loop is the rule of the value model; the running balance never binds |
| BatchWithdrawals.BatchWithdraw | contracts/stream/src/lib.rs:3281-3416 | the loop with its running balance is the fold of single items; a failure restores the whole state |
| BatchWithdrawals.BatchWithdrawTo | contracts/stream/src/lib.rs:3433-3557 | the same for the directed batch, which does not lower the counter |
| RateChanges.CheckUpdateRate | contracts/stream/src/lib.rs:4246-4311 | the checks in their order and the new record, in machine arithmetic, are the rule |
| RateChanges.UpdateRatePerSecond | contracts/stream/src/lib.rs:4240-4325 | whole state and reply |
| RateChanges.CheckDecreaseRate | contracts/stream/src/lib.rs:4380-4453 | the same; the overflow branches of the refund never fire |
| RateChanges.DecreaseRatePerSecond | contracts/stream/src/lib.rs:4374-4473 | whole state and reply; the counter is not lowered |
| RateChanges.CheckShorten | contracts/stream/src/lib.rs:4509-4571 | the checks, the floor at what has accrued, and the refund; what the new record pays is `ShortenMeans` |
| RateChanges.ShortenStreamEndTime | contracts/stream/src/lib.rs:4504-4593 | whole state and reply |
| RateChanges.CheckExtend | contracts/stream/src/lib.rs:4626-4663 | the checks and the new end |
| RateChanges.ExtendStreamEndTime | contracts/stream/src/lib.rs:4621-4675 | whole state and reply |
| RateChanges.CheckTopUp | contracts/stream/src/lib.rs:4733-4765 | the checks and the new deposit |
| RateChanges.TopUpStream | contracts/stream/src/lib.rs:4723-4789 | whole state and reply; a failed pull undoes the saved record |
| RateChanges.PauseStream | contracts/stream/src/lib.rs:2661-2710 | whole state and reply for sender and administrator; the paused count follows |
| RateChanges.ResumeStream | contracts/stream/src/lib.rs:2739-2772 | whole state and reply for sender and administrator |
| Cancellation.CheckCancel | contracts/stream/src/lib.rs:5262-5290 | the checks and the refund of a cancellation in machine arithmetic |
| Cancellation.CancelStream | contracts/stream/src/lib.rs:5262-5308 | whole state and reply for sender and administrator |
| Cancellation.CheckBulk | contracts/stream/src/lib.rs:7089-7114 | phase one reports the first entry that cannot be cancelled, and else keeps the records as stored |
| Cancellation.SettleAll | contracts/stream/src/lib.rs:7116-7196 | the loop with one aggregate refund is settling the streams one after the other, each with its own refund; the aggregate is the sum of those refunds |
| Cancellation.BulkCancelStreams | contracts/stream/src/lib.rs:7072-7199 | whole state and reply |
| Cancellation.CheckClose | contracts/stream/src/lib.rs:4819-4907 | a stream is accepted for closing exactly when it is completed (where allowed) or cancelled with nothing to claim, and then it is owed nothing |
| Cancellation.CloseStream | contracts/stream/src/lib.rs:4819-4920 | whole state and reply; the stream leaves its recipient's list |
| Creation.NextStreamIdFor | contracts/stream/src/lib.rs:1263-1278 | the next ID comes from the caller's own range, which is dropped when used up, or else from the counter |
| Creation.ValidateStreamParams | contracts/stream/src/lib.rs:1652-1715 | the validation in machine arithmetic gives the verdict over unbounded integers |
| Creation.PersistSkipIndex | contracts/stream/src/lib.rs:1799-1869 | the record, the counter and the allocation are written under a fresh ID; the index is left alone; what the record holds is `CreationMeans` |
| Creation.PersistNewStream | contracts/stream/src/lib.rs:1718-1791 | the same with the index kept right |
| Creation.CreateStream | contracts/stream/src/lib.rs:2044-2093 | whole state and reply; a failure after the pull is undone |
| Creation.CheckBatch | contracts/stream/src/lib.rs:2336-2367 | the first pass returns the checked total, or the fault of the first entry that is invalid or overflows it |
| Creation.InsertAll | contracts/stream/src/lib.rs:2404-2414 | the inner loop of the flush keeps the list strictly sorted and adds exactly the new IDs |
| Creation.FlushCache | contracts/stream/src/lib.rs:2404-2416 | after the flush every recipient's list is exactly that recipient's live streams, in whatever order the recipients come |
| Creation.CreateStreams | contracts/stream/src/lib.rs:2325-2418 | whole state and reply, the error of a failed batch included; the index is right after the flush |
| Upkeep.AcceptRecipientUpdate | contracts/stream/src/lib.rs:3171-3215 | whole state and reply; the ID moves from the one list to the other |
| Upkeep.SweepExcess | contracts/stream/src/lib.rs:6101-6150 | whole state and reply; only the excess over the counter leaves |
| Upkeep.ReserveStreamIds | contracts/stream/src/lib.rs:6765-6796 | whole state and reply |
| Upkeep.ReclaimExpiredIdReservation | contracts/stream/src/lib.rs:6813-6851 | whole state and reply; when the counter moves back, and what that means for later calls, is `ReclaimedIdsComeBack` |
| Keeper.FeeSplitConserves | contracts/stream/src/lib.rs:7209-7213 | fee plus refund is the gross amount and the fee lies between zero and it, even when the product overflows; the fee is the exact share rounded down when the product fits |
| Keeper.KeeperPaysWhatIsLeft | contracts/stream/src/lib.rs:5473-5542 | recipient amount, fee and refund add up to deposit minus withdrawn; the recipient gets all that accrued |
| Keeper.KeeperKeepsInvExactly | contracts/stream/src/lib.rs:5473-5542 | the call keeps the invariant of the ledger (valid records, balanced books, balance and counter covering what is owed) if and only if the recipient has nothing to claim; then it takes nothing back either |
| Keeper.KeeperAccepted | contracts/stream/src/lib.rs:5457-5505 | accepted if and only if the stream is live, a week has passed since its end, and neither the product of the fee nor the running total of fees overflows |
| Keeper.KeeperMeans | contracts/stream/src/lib.rs:5473-5542 | the recipient is sent all that has accrued and was not withdrawn, the keeper half a percent, rounded down, of what never accrued, and the sender the rest of that |
| Keeper.KeeperBooksExactly | contracts/stream/src/lib.rs:5505-5542 | after the call everything put in for the stream has left, and the record still shows the claim as owed: its books balance if and only if the claim was zero |
| Keeper.KeeperSolventIffSurplusCoversClaim | contracts/stream/src/lib.rs:5513-5542 | surplus and gap each fall by the claim, apart from payments the contract makes to itself; so the balance still covers what is owed if and only if the surplus and those payments covered the claim, and the counter if and only if the gap did |
| Keeper.ClaimIsPaidOnceMore | contracts/stream/src/lib.rs:2893-2965 | after the call, `withdraw` pays the recipient the same claim again, as far as the balance that is left goes |
| Witnesses.KeeperCanLeaveInsolvent | contracts/stream/src/lib.rs:5452-5558 | a run after which the call leaves ten tokens owed and none held |
| Witnesses.KeeperCanPayTwice | contracts/stream/src/lib.rs:5452-5558 | a run after which the recipient is paid ten tokens by the call and ten once more by `withdraw` |
| Keeper.CheckKeeperCancel | contracts/stream/src/lib.rs:5457-5505 | the checks in their order and the split in machine arithmetic |
| Keeper.KeeperCancel | contracts/stream/src/lib.rs:5452-5558 | whole state and reply, the running total of fees included; index and paused count stay right |
| Templates.RegisterKeepsLimits | contracts/stream/src/lib.rs:4926-4960 | registering keeps the limits per owner and overall; the new ID was never in use |
| Templates.DeleteKeepsLimits | contracts/stream/src/lib.rs:4963-4978 | deleting keeps them, and removes one template |
| Templates.RegisterMeans | contracts/stream/src/lib.rs:4926-4960 | accepted if and only if the delays make a sound schedule that fits the clock and both limits leave room; the template is stored as handed in, under a new ID |
| Templates.DeleteMeans | contracts/stream/src/lib.rs:4963-4978 | only its owner can delete a template, and nothing else goes |
| Templates.ValidateDelays | contracts/stream/src/lib.rs:1479-1505 | the checked sums accept exactly the schedules that fit |
| Templates.RegisterStreamTemplate | contracts/stream/src/lib.rs:4926-4960 | whole registry and reply; owner lists stay sorted and complete, the active count equals the number of templates |
| Templates.DeleteStreamTemplate | contracts/stream/src/lib.rs:1567-1581 | the binary search in the owner's list always finds the entry |
| GovernanceRuns.GovStepKeepsOk | contracts/governance/src/lib.rs:490-958 | every call keeps: threshold within the list of distinct co-signers and that within 20, records and quorum records as the log says, every log entry justified by the entries before it |
| GovernanceRuns.ExecutionIsLawful | contracts/governance/src/lib.rs:844-905 | in every run, an executed proposal was executed once and never cancelled; what was dispatched is the call that was submitted, and that each approver approved; at least as many distinct addresses as the threshold had approved it, each a co-signer when it did; and it was executed no earlier than the timelock after the approval completing the quorum and no later than the maximum age |
| GovernanceCalls.RunFollowsTheRules | contracts/governance/src/lib.rs:490-958 | over every run the contract publishes exactly the log that the rules of the protocol prescribe for the same calls |
| GovernanceCalls.CallsFollowTheRules | contracts/governance/src/lib.rs:490-958 | a call, accepted or refused, adds to the log the entry it asks for if the rules justify that entry by the entries before it, and else changes nothing at all |
| GovernanceCalls.LogDeterminesState | contracts/governance/src/lib.rs:490-958 | the log determines everything that is stored, up to the order of the co-signers |
| GovernanceCalls.RepliesAreTruthful | contracts/governance/src/lib.rs:490-958 | a call reports success if and only if its entry is justified (or the administrator removes an address that is no co-signer); an error it reports names something that is so; a submission returns the number of submissions before it |
| GovernanceCalls.ProposalIsAsSubmitted | contracts/governance/src/lib.rs:671-718 | in every run, the proposal under the ID that an accepted submission returned is new, keeps that proposer, contract and call ever after, and only that call is ever dispatched for it |
| GovernanceRuns.QuorumRecordIsExact | contracts/governance/src/lib.rs:770-818 | in every reachable state the quorum record exists if and only if approvals reach the threshold, shows the completing approval, and is never rewritten |
| GovernanceRuns.ExecutableExactlyInWindow | contracts/governance/src/lib.rs:1070-1112 | `is_executable` holds exactly for a live proposal between the end of its timelock and its maximum age, and exactly when every gate of `execute` up to the dispatch is open |
| GovernanceRuns.LateQuorumNeverExecutes | contracts/governance/src/lib.rs:844-880 | a quorum whose timelock ends after the maximum age is never executed in any run |
| GovernanceRuns.TimelyQuorumCanExecute | contracts/governance/src/lib.rs:844-880 | waiting for the timelock makes a live proposal executable if and only if the timelock ends within the maximum age |
| GovernanceRuns.AdvancingByLimitEnumerates | contracts/governance/src/lib.rs:1159-1234 | paging by advancing the start by the limit shows every proposal if and only if the limit is at most 100 or there are at most 100 proposals |
| GovernanceWitnesses.PagingSkips | contracts/governance/src/lib.rs:1183-1234 | for every limit above 100 a run, of one co-signer and 101 proposals, after which paging by that limit misses the last |
| GovernanceLog.VotesAreLegitimate | contracts/governance/src/lib.rs:738-790 | each approval in a lawful log is by a co-signer of that moment, and nobody approves twice |
| GovernanceLog.FinalIsFinal | contracts/governance/src/lib.rs:844-958 | nothing is approved, executed or cancelled after execution or cancellation |
| GovernanceContract.BuildIndex | contracts/governance/src/lib.rs:505-512 | the single pass of `init` builds the membership map, unless an address is listed twice |
| GovernanceContract.DoInit | contracts/governance/src/lib.rs:490-528 | whole state and reply; list and map agree |
| GovernanceContract.DoAddSigner | contracts/governance/src/lib.rs:562-594 | whole state and reply; list and map agree |
| GovernanceContract.RemoveFirst | contracts/governance/src/lib.rs:619-625 | the scan removes the one occurrence |
| GovernanceContract.DoRemoveSigner | contracts/governance/src/lib.rs:604-648 | whole state and reply; list and map agree |
| GovernanceContract.DoPropose | contracts/governance/src/lib.rs:671-718 | whole state and reply; that the record is the call submitted is `ProposalIsAsSubmitted` |
| GovernanceContract.DoApprove | contracts/governance/src/lib.rs:738-822 | whole state and reply; approval list and approval map agree |
| GovernanceContract.CheckExecute | contracts/governance/src/lib.rs:844-880 | every gate of `execute` up to the dispatch, in order |
| GovernanceContract.DoExecute | contracts/governance/src/lib.rs:844-905 | whole state and reply; a failed dispatch takes the mark back |
| GovernanceContract.CancelProposal | contracts/governance/src/lib.rs:923-958 | whole state and reply |
| GovernanceContract.QueryExecutable | contracts/governance/src/lib.rs:1070-1112 | the query answers the window, and errs only on unknown IDs and unrepresentable deadlines |
| GovernanceContract.GetProposalsByIdRange | contracts/governance/src/lib.rs:1194-1234 | the records of exactly the IDs of the clamped range, in order; no ID below the counter is missing |
| GovernanceContract.IsSigner | contracts/governance/src/lib.rs:1153-1157 | membership as the log of additions and removals has it |

## Left out

- StepKeepsInv: `update_rate` and `keeper_cancel` are not steps of the runs. The first changes the rate with no checkpoint and no look at the deposit; the second pays the recipient without raising `withdrawn`, and keeps the invariant exactly when there is no claim (`KeeperKeepsInvExactly`).
- FeeSplitConserves: `keeper_cancel` itself refuses when the product overflows, so the overflow half is about the helper only.
- ForecastComesTrue: supposes that the frequency limit and the global pause do not stop the withdrawal.
- NoIdIssuedTwice: rests on trapping addition, see above.
- SignatureIsSpent: rests on trapping addition, see above.
- CheckItem: one method stands for the bodies of both batch loops, which differ in three places.
- Entry points that only wrap others: `create_stream_relative`, `create_streams_relative`, creation from a template, cloning, and the partial batch, in which a memo refused after the pull leaves tokens behind.
- Events other than those the governance log needs, time-to-live of storage entries, the re-entrancy lock, health events, pause reasons, rotation history, metadata and template contents beyond their delays.
- The administrator's setters of the stream contract: their outcome is the step `Configure`.
- `get_withdrawable`, `get_keeper_fee_split`, the listing of a recipient's streams by cursor, and other queries.
- The check that ledger time does not run backwards, which is compiled in debug builds only; the clock of the model never does.
- The bytes of a signed message and the key check inside the host: the verdict is an input.
- The factory contract, and decoding and dispatching of governance calls: success or the kind of failure is an input.
