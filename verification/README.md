# Covantic, modelled and proved

Covantic insures on-chain agents. An alert opens a claim; a keeper verifies it,
retries, parks, re-files, rejects or approves it, and settles it against a chain
that can fail, lie about failing, or ask it to wait. Around that sit the
commitments a policy is bound to, the readings a price is drawn from, and the
arithmetic of premiums, payouts and losses. This project models those parts in
Dafny and proves what they promise.

`dafny verify dfyconfig.toml` checks everything.

## How it is laid out

The claim keeper:

- `ClaimTypes`, `VerificationRecord`, `Settlement`: triggers, statuses, park
  reasons, the JSON record a claim carries, the settlement plan and the
  confidence lanes.
- `KeeperModel`: the keeper, the payout worker and the chain as one transition
  system. Ingest and process handlers are single steps. The payout is split at
  every write and every chain call, and it may crash, or be overtaken by any
  other step, between two of them. No job queue is stored: any job may be
  delivered at any time, any number of times, to a row in any status; the log
  records what was enqueued.
- `KeeperSafety` and `KeeperRetries` (all runs), `KeeperBounds`,
  `KeeperTightness` and `PlanStability` (runs in which no process pass falls on a
  row a payout has in hand, which is what `KeeperSerial` defines; alerts, and other
  claims' passes, may fall anywhere), `KeeperRace` (what such a pass can do),
  `Supersede`, `LockDeferral`: what holds over runs.
  `Verdicts` and `PayoutPaths`: what one process pass may conclude, and where one
  payout pass may end. `AlertOutcomes`, `PassOutcomes` and `PayoutOutcomes`: the
  whole row, the queue and the chain that each outcome of a handler leaves, in terms
  of what is stored and nothing else.
- `ClaimKeeper`: the handlers as methods of a class that updates rows, queues and
  chain in place, each proved to take the world where the transition system says.
  `KeeperService` takes them in any order and concludes for its rows and queues
  what holds over runs.

The commitments: `Lexicographic`, `ByteLayout`, `MandateCommitment`,
`GovernanceCommitment` - the bytes that are hashed, decoders for them, and which
records share them.

The readings: `NativeTransfers`, `TokenChanges`, `Sampling` (balance
reconstruction), `SlotSearch` (the backtest's binary search over slots with
holes), `PriceTerms`, `PolicyIndexer`.

The arithmetic: `Premium`, `Quote`, `PayoutBreaker`, `PaidTotals`, `LossRevaluation`,
`Herfindahl`, `RiskScore`, with shared facts in `Arithmetic`. Doubles are exact rationals or reals; `Math.round`
is rounding to the nearest with halves up.

## Where the code and its promises part

The model follows the code in each case.

- The payout's comment says a retry that finds `paying` skips the second chain
  call. The code calls settle again (`RedeliveredPassCallsAgain`); a pass calls it
  exactly when the row is approved or paying, the policy indexed, the amount
  positive, the breaker open and the plan proven (`PassCallsSettleIff`).
- The error path means never to record a settlement that landed as failed. It
  does when the read-back fails too. `LandedPassEndsPaidIff` says exactly when a
  landed settlement ends paid; a row left failed is never delivered again
  (`FailedIsNeverRepaired`), one left paying is repaired by the next pass that can
  read the chain (`PayingIsRepaired`).
- A pass is documented to close a claim only on evidence that contradicts it. One
  on a policy the indexer has not seen rejects whatever the evidence says
  (`ConfirmedLossCanBeRejected`); `RejectionIff` is the exact condition.
- `mandate-commitment.ts` checks neither key widths nor counts, so distinct
  envelopes can share their bytes - every envelope does with another
  (`EveryEnvelopeCollides`) - and its 64-bit fields wrap; `SameBytesSameEnvelope` says exactly when two agree.
- Token changes sum to the balance difference of each mint exactly when every
  changed account has a known owner and no account that held something comes back
  under another mint (`ChangesBalanceIffAttributable`).
- The payout cap is called rolling, and it caps what is recorded, not what is paid.
  A payout is recorded only on the clean path: one whose settlement landed and
  reported an error, or whose paid write or reload threw, is paid and never counted,
  and such payouts have no bound (`UnrecordedHasNoCap`, `NinesPassWithoutEnd`).
  Everything paid since a payment stays within the limit, whatever is let through
  next, exactly when the counter is full, or the window was opened no later than
  that payment and is open, and since it no more went unrecorded than the window
  had recorded before (`RollingCapHoldsIff`); from the opening on that means every
  payment was recorded (`CapHoldsFromOpeningIff`). Recorded payouts alone reach at
  most twice the limit in a window's span (`RecordedAtMostTwice`), because a
  reopened window breaks the cap (`ReopeningBreaksCap`). All of it is said of checks
  that could read the store; the code lets every payout through when it cannot. If
  the store is lost between the increment and the expiry, the counter never
  expires.
- A process pass may take up a row that a payout has in hand, and the payout then
  writes back the record it loaded. With that, a claim is taken over a third time
  (`ThreeSupersedesAreReached`) and an approved row plans by other evidence than its
  latest verdict saw (`PlanIsSwapped`). Without it neither happens.
- The indexer means to refuse views older than the newest applied. It does exactly
  when the listing names a slot and no restart has forgotten the newest
  (`OlderViewIsPutBackIff`), as long as passes do not overlap: one that read the
  guard before a newer pass and writes after it puts its older view back
  (`OverlappingPassesPutBack`).
- The slot search promises the first slot held at or after the target. It returns
  one past the last early slot, which is that slot exactly when it is held itself
  and no early slot is at the head or beyond (`SearchKeepsPromiseIff`,
  `SkippedSlotIsReturned`).
- Sampling is documented to include the first and the last. Asked for a sample of
  one it divides by zero and picks "not a number"; asked for none it returns both
  ends (`SelectSample`).
- The size a staker account is held to before its losses are read leaves out the
  8-byte discriminator, so eight account lengths pass the guard and then fail the
  read (`ReadFailsIff`).

## Model

| member | source | states |
|---|---|---|
| KeeperSafety.EveryRunIsSafe | packages/api/src/workers/claim-keeper.ts:772-1153 | over every run, with crashes, redelivery, settle errors that hide success, and paid writes or reloads that throw: a row marked paid belongs to a policy the chain has paid; every settle call carries a record that evidences its plan (its hash; for a price the signed update and the block time; for a mandate a breach marked provable), not marked simulated, and a positive amount an earlier confirmed pay-lane verdict for that claim set on a plan of its own trigger; a policy settles at most once; no policy holds two open claims |
| KeeperSafety.SettleIsSafe | packages/api/src/workers/claim-keeper.ts:988-1056 | a settle call that lands, reverts, or lands and reports an error keeps all of that |
| KeeperSafety.ReconcileIsSafe | packages/api/src/workers/claim-keeper.ts:1063-1153 | so does everything the error path may do next, given that "settled" was read from the chain |
| KeeperSafety.InterruptIsSafe | packages/api/src/workers/claim-keeper.ts:1034-1071 | a throw from the paid write, or from the reload after it, enters the error path and keeps all of that |
| KeeperSafety.ProcessIsSafe | packages/api/src/workers/claim-keeper.ts:656-890 | a process job delivered to a row in any status cannot unsettle a paid policy, forge a verdict or open a second claim |
| KeeperRetries.RetriesAreBounded | packages/api/src/workers/claim-keeper.ts:1588-1631 | over every run whatever, one claim is retried at most 4 times and never more often than it was attempted |
| KeeperBounds.OneRowCausesBoundedWork | packages/api/src/workers/claim-keeper.ts:1230-1374 | while no process pass falls on a row a payout has in hand, one claim row causes at most 4 retries, 2 supersedes and 3 re-filings, at most 10 process jobs in all, and at most 6 payout deferrals for each time its record was started |
| KeeperBounds.SerialRunStaysBudgeted | packages/api/src/workers/claim-keeper.ts:1588-1631 | the measure behind the bound: jobs caused plus jobs the row still permits never exceed 10 |
| KeeperBounds.RefileKeepsBudget | packages/api/src/workers/claim-keeper.ts:584-654 | re-filing marks the record, so a record is re-filed once |
| KeeperTightness.TenJobsAreReached | packages/api/src/workers/claim-keeper.ts:584-654 | the bound is exact: a run with 4 retries, 2 supersedes, 3 re-filings and 10 process jobs |
| KeeperRace.ThreeSupersedesAreReached | packages/api/src/workers/claim-keeper.ts:664-671 | with a pass on the row in hand the bound fails: a payout refused for its lock writes back the record it loaded, and a third alert takes the claim over |
| KeeperRace.PlanIsSwapped | packages/api/src/workers/claim-keeper.ts:1098-1113 | and so does the plan: a row approved again on new evidence while a payout holds it plans by the old evidence once that payout is deferred |
| KeeperSerial.SerialRunStaysHeld | packages/api/src/workers/claim-keeper.ts:664-671 | elsewhere the row a payout has in hand stays approved, paying or paid, whatever alerts and other claims' passes do meanwhile |
| PlanStability.ApprovedNeverTurnsUnprovable | packages/api/src/services/settlement-plan.ts:63-153 | under a fixed configuration, while no process pass falls on a row in hand, an approved or paying row plans exactly what the lane decision saw, for the amount it saw; approved below the auto-pay bar, it is still proven |
| PlanStability.SettleUsesTheApprovedPlan | packages/api/src/workers/claim-keeper.ts:961-1032 | the settle call is for the plan and the amount of the claim's latest verdict, and a verdict below the auto-pay bar is never parked as unprovable at payout |
| PlanStability.SerialRunStaysFaithful | packages/api/src/workers/claim-keeper.ts:790-829 | the invariant carrying that across every step of a run |
| PlanStability.DeferKeepsFaith | packages/api/src/workers/claim-keeper.ts:1098-1135 | a lock deferral, like any number of them, leaves the plan alone |
| Settlement.PlanSurvivesPersistence | packages/api/src/workers/claim-keeper.ts:790-829 | stored record plus fresh details and hash plans the same as the merged row read back |
| Settlement.PlanIgnoresOtherKeys | packages/api/src/workers/claim-keeper.ts:142-148 | a merge that stays off the keys the planner reads changes no plan |
| Settlement.CeilingNeverPaysUnproven | packages/api/src/services/confidence-lanes.ts:30-105 | a verdict at or under the ceiling pays exactly when a proof is available and it clears the review bar, and then only against the chain's own check |
| Settlement.PlanIsProvenIff | packages/api/src/services/settlement-plan.ts:63-153 | over stored and fresh data, for every trigger: the plan is proven exactly when the record is not simulated, the trigger's path is on, the hash is truthy and, for oracle, the update is signed and the block time a number, for agent error, the breach is provable; and it is then the trigger's own instruction carrying those values |
| Settlement.RefusalNamesWhatIsMissing | packages/api/src/services/settlement-plan.ts:80-152 | any other plan names the first of these conditions that fails |
| Settlement.LaneIsExact | packages/api/src/services/confidence-lanes.ts:69-105 | a confirmed verdict pays exactly at 0.95, or from 0.75 with a proof; a review names the reason |
| ClaimTypes.SpecificityIsInjective | packages/shared/src/types/claims.ts:43-50 | no two triggers rank alike, so a tie means the same trigger |
| AlertOutcomes.RankingIsSpecificity | packages/shared/src/types/claims.ts:33-50 | governance outranks exploit, exploit oracle, oracle agent error, and any of them no trigger |
| AlertOutcomes.UnusableAlertIsDropped | packages/api/src/workers/claim-keeper.ts:270-320 | an alert that is unsigned, names no agent, no covered event, no insured policy or no transaction changes nothing |
| AlertOutcomes.AlertOpensClaim | packages/api/src/workers/claim-keeper.ts:322-404 | with no claim open on the policy any other alert appends one pending row under the event's trigger, the record marked simulated only off production and mainnet, and queues it |
| AlertOutcomes.ClaimsOpenOnNewestPolicy | packages/api/src/workers/claim-keeper.ts:295-305 | every claim opened is on an active policy of the alert's agent, the newest there is |
| AlertOutcomes.BusyClaimKeepsSlot | packages/api/src/workers/claim-keeper.ts:352-388 | an open claim that is not parked leaves the alert nowhere to go |
| AlertOutcomes.ParkedClaimIsTakenIff | packages/api/src/workers/claim-keeper.ts:1230-1356 | a parked claim is taken over exactly when the alert outranks it, is outranked on one of the six reasons no retry clears, or names another transaction under the same trigger on one of the two transient ones, and it was taken over less than twice; the third time it goes to review; the whole new row and record |
| Verdicts.RejectionIff | packages/api/src/workers/claim-keeper.ts:656-771 | a pass the index admits rejects exactly when the policy is not indexed, or the evidence - synthetic where the claim is simulated - denies the loss and the agent-error question was not raised with the mandate matured or unreadable; every other pass leaves the claim open, and no pass touches another claim |
| Verdicts.ConfirmedLossCanBeRejected | packages/api/src/workers/claim-keeper.ts:673-681 | a confirmed positive loss on an unindexed policy ends rejected |
| Verdicts.RefilingOnlyNarrows | packages/api/src/workers/claim-keeper.ts:561-654 | over every admitted pass the trigger changes only from exploit to agent error, exactly on an indexed policy, a first asking and a matured mandate; chain, amounts and attempts stay, and one job is queued |
| Verdicts.ApprovalNeedsSubmission | packages/api/src/workers/claim-keeper.ts:772-880 | over every admitted pass: off the pay lane nothing is approved or queued for payout and the chain stays; on it (policy indexed, verdict earning pay, not diverted) a submission moves an active policy to pending unless it never landed, and the row is approved for the loss, its payout queued, exactly when the submission was confirmed on an active policy or the chain reads back as pending - the chain then does have the claim pending - and otherwise stays verifying |
| PassOutcomes.UnindexedIsRejected | packages/api/src/workers/claim-keeper.ts:673-681 | an unindexed policy rejects the claim, its record kept with the reason |
| PassOutcomes.RefiledWithItsReason | packages/api/src/workers/claim-keeper.ts:629-654 | re-filing writes the trigger, the status and the three marks on the record, and queues one job |
| PassOutcomes.InconclusiveStalls | packages/api/src/workers/claim-keeper.ts:1588-1631 | an inconclusive pass counts one attempt, keeps the reason to 128 characters and the merged details, and queues a retry; the fifth goes to review with none |
| PassOutcomes.UnreadableMandateStalls | packages/api/src/workers/claim-keeper.ts:737-764 | so does a pass that asks the agent-error question of a mandate nobody can read, whatever its verdict |
| PassOutcomes.DeniedIsRejected | packages/api/src/workers/claim-keeper.ts:771-780 | a denied loss is rejected with the verdict on record |
| PassOutcomes.UnprovenLossIsReviewed | packages/api/src/workers/claim-keeper.ts:794-812 | a confirmed loss that does not earn pay goes to review under the lane's reason, with the loss and no amount to pay |
| PassOutcomes.PayVerdictIsPersisted | packages/api/src/workers/claim-keeper.ts:814-840 | a verdict that earns pay is on the row - amounts, attempt, details, hash - whether or not the submission lands |
| PayoutPaths.PassCallsSettleIff | packages/api/src/workers/claim-keeper.ts:909-1032 | a delivered pass calls settle exactly when the row is approved or paying, the policy indexed, the amount positive, the breaker open and the plan proven |
| PayoutPaths.RedeliveredPassCallsAgain | packages/api/src/workers/claim-keeper.ts:936-947 | after a landed settlement whose job died, the redelivered pass calls settle a second time and the chain stays as it was |
| PayoutPaths.LandedPassEndsPaidIff | packages/api/src/workers/claim-keeper.ts:1034-1153 | once the money has moved, the row ends paid exactly when nothing threw, the chain could be read back, or the one throw came after the paid write and was taken for a lock; failed exactly when something else threw and the chain could not be read |
| PayoutPaths.FailedIsNeverRepaired | packages/api/src/workers/claim-keeper.ts:910-916 | a landed settlement recorded as failed stays so: no later payout job touches it |
| KeeperRace.LostSettlementIsReached | packages/api/src/workers/claim-keeper.ts:1063-1153 | such a row is reached from an empty database: an alert, a pass and a payout whose confirmation and read-back are lost |
| PayoutPaths.PayingIsRepaired | packages/api/src/workers/claim-keeper.ts:1063-1094 | a row left paying on a paid policy ends paid at the next pass that reaches the chain and can read it |
| PayoutOutcomes.OtherStatusIsSkipped | packages/api/src/workers/claim-keeper.ts:908-917 | a payout of a claim that is neither approved nor paying changes nothing |
| PayoutOutcomes.UnpayableIsRejected | packages/api/src/workers/claim-keeper.ts:919-934 | a missing policy or amount rejects the claim and nothing is paid by default |
| PayoutOutcomes.CappedIsReviewed | packages/api/src/workers/claim-keeper.ts:949-959 | a breaker that refuses the amount sends the claim to review |
| PayoutOutcomes.UnprovableIsReviewed | packages/api/src/workers/claim-keeper.ts:961-985 | a plan that cannot be proven sends it to review under the plan's reason |
| PayoutOutcomes.CleanPassPays | packages/api/src/workers/claim-keeper.ts:987-1056 | with nothing going wrong the row is paid its amount on the proof of its trigger, by one call that carries the plan of the stored record |
| PayoutOutcomes.ErrorOnPaidIsPaid | packages/api/src/workers/claim-keeper.ts:1062-1094 | whatever the error, a policy read back as paid makes the row paid with the error noted |
| PayoutOutcomes.LockRefusalIsDeferred | packages/api/src/workers/claim-keeper.ts:116-121 | an error naming LockPeriodNotElapsed, with any text before and after it, on a policy not read back as paid and with k < 6 deferrals on record, keeps the row's status and queues one payout after the k-th delay |
| PayoutOutcomes.StuckLockIsReviewed | packages/api/src/workers/claim-keeper.ts:1123-1136 | with the count off the schedule it goes to review and queues nothing |
| PayoutOutcomes.OtherErrorFails | packages/api/src/workers/claim-keeper.ts:1138-1153 | an error no slice of which is that name ends in failed, and queues nothing |
| Supersede.AlertTouchesOnlyParkedClaims | packages/api/src/workers/claim-keeper.ts:1230-1364 | an alert changes only a parked row; it takes the slot only by outranking it, by an unresolvable park reason, or, same trigger, with a new transaction on a transient one; policy, attempts and amounts are carried over; past two supersedes the row only goes to review |
| Supersede.RepeatChangesNothing | packages/shared/src/types/claims.ts:90-150 | an alert repeating a row's own trigger and signature leaves the row as it was |
| Supersede.StreamOfRepeatsChangesNothing | packages/api/src/workers/claim-keeper.ts:262-405 | so does any stream of them |
| LockDeferral.ScheduleOutlastsLock | packages/api/src/workers/claim-keeper.ts:1098-1122 | given the delays the keeper enqueues over six refusals, a lock with at most the sum of the schedule left gets an attempt after it elapses, however late the queue; on a punctual queue exactly those locks do |
| LockDeferral.RefusalsAreDeferred | packages/api/src/workers/claim-keeper.ts:1098-1122 | each of six refusals in a row keeps the row's status and queues exactly one more attempt, the k-th after the k-th delay of the schedule |
| LockDeferral.SeventhRefusalGoesToReview | packages/api/src/workers/claim-keeper.ts:1123-1136 | the seventh queues nothing and parks the claim for review, never as failed |
| ClaimKeeper.PayoutPassIsARun | packages/api/src/workers/claim-keeper.ts:896-1153 | the undisturbed payout handler is one run of the transition system, so what holds over all runs holds of it |
| KeeperService.Handle | packages/api/src/workers/claim-keeper.ts:155-260 | any handler, run to its end on a keeper, takes its rows, chain and log where the handler's steps take the world, both queues with them, and keeps a safe keeper safe |
| KeeperService.Serve | packages/api/src/workers/claim-keeper.ts:155-260 | from an empty database any sequence of jobs, chain moves and reindexings leaves paid rows on paid policies, every claim with at most 4 retries, and approved rows with the plans they were approved on; with verdict details off the keeper's keys, at most 10 jobs of one claim enter the process queue and at most 18 beyond its approvals enter the payout queue |
| KeeperService.ProcessQueueCounts | packages/api/src/workers/claim-keeper.ts:1588-1631 | what the process queue was given for a claim is its opening, retries, supersedes and re-filings |
| KeeperService.PayoutQueueCounts | packages/api/src/workers/claim-keeper.ts:1098-1122 | what the payout queue was given for a claim is its approvals and its deferrals |
| ClaimKeeper.Keeper.IngestAlert | packages/api/src/workers/claim-keeper.ts:262-405 | rows, queue and log end exactly where the ingest step says |
| ClaimKeeper.Keeper.SupersedeParkedClaim | packages/api/src/workers/claim-keeper.ts:1230-1364 | takes the slot, caps it or leaves it, and says which row changed hands |
| ClaimKeeper.Keeper.ProcessClaim | packages/api/src/workers/claim-keeper.ts:656-890 | ends where the process step says, on every branch |
| ClaimKeeper.Keeper.ConcludeVerdict | packages/api/src/workers/claim-keeper.ts:742-829 | indeterminate, rejected, reviewed or approved as the step says |
| ClaimKeeper.Keeper.ReattributeToAgentError | packages/api/src/workers/claim-keeper.ts:584-654 | re-files once, only from exploit, only on the two reasons, only against a matured mandate |
| ClaimKeeper.Keeper.HandleIndeterminateVerdict | packages/api/src/workers/claim-keeper.ts:1588-1631 | parks with a retry queued, or for review with none at the fifth attempt |
| ClaimKeeper.Keeper.ApproveClaim | packages/api/src/workers/claim-keeper.ts:786-880 | the verdict is written before the chain call; only a submission taken as landed approves and puts the payout in its queue |
| ClaimKeeper.Keeper.SubmitClaimOnChain | packages/api/src/workers/claim-keeper.ts:1376-1421 | an active policy becomes pending unless the call never landed; true exactly when the call was confirmed on an active policy, or the chain can be read and then says pending |
| ClaimKeeper.Keeper.EscalateToReview | packages/api/src/workers/claim-keeper.ts:1528-1553 | parks with the clipped reason and the merged record, unless the index refuses |
| ClaimKeeper.Keeper.ExecutePayout | packages/api/src/workers/claim-keeper.ts:896-1153 | rows, chain, log and payout queue end where one undisturbed payout pass of the transition system does |
| ClaimKeeper.Keeper.RecoverFromError | packages/api/src/workers/claim-keeper.ts:1063-1152 | paid if the chain says so, deferred with one more payout job queued or put to review on a lock refusal, failed otherwise |
| Lexicographic.CompareKeys | packages/shared/src/mandate-commitment.ts:63-70 | the comparator's sign decides dictionary order and is zero only for equal keys |
| Lexicographic.SortedIsUnique | packages/shared/src/mandate-commitment.ts:63-70 | a list of keys has one sorted arrangement |
| Lexicographic.SortForgetsOrder | packages/shared/src/governance-manifest-commitment.ts:75-82 | two lists sort alike exactly when they are permutations of each other |
| ByteLayout.LittleEndianTruncates | packages/shared/src/mandate-commitment.ts:48-58 | writing then reading gives the value modulo 256^n, two's complement included |
| ByteLayout.LittleEndianRestores | packages/shared/src/mandate-commitment.ts:48-58 | reading then writing gives the bytes back |
| ByteLayout.Concat | packages/shared/src/mandate-commitment.ts:72-81 | the buffer holds the parts end to end |
| MandateCommitment.BuildPreimage | packages/shared/src/mandate-commitment.ts:83-99 | the bytes handed to the hash are the record's layout |
| MandateCommitment.RoundTrip | packages/shared/src/mandate-commitment.ts:83-99 | for 32-byte keys and counts under 256, decoding the bytes gives the canonical record |
| MandateCommitment.FieldsLieInOrder | packages/shared/src/mandate-commitment.ts:83-99 | for every envelope: the four amounts modulo 2^64 at bytes 0, 8, 16 and 24, low byte first, then each sorted list behind its count |
| MandateCommitment.DecodedWritesBack | packages/shared/src/mandate-commitment.ts:83-99 | whatever decodes lays out as those very bytes |
| MandateCommitment.SameBytesSameEnvelope | packages/shared/src/mandate-commitment.ts:48-99 | for 32-byte keys and fewer than 256 destinations, whatever the number of programs, equal bytes exactly when every amount agrees modulo 2^64 and the key lists are permutations of each other |
| MandateCommitment.InRangeIsExact | packages/shared/src/mandate-commitment.ts:48-58 | decoding returns the very amounts exactly when each is inside its field's range |
| MandateCommitment.EveryEnvelopeCollides | packages/shared/src/mandate-commitment.ts:83-99 | any envelope keeps its bytes when 256 empty destinations, or any multiple, are added |
| MandateCommitment.ShortKeysCollide | packages/shared/src/mandate-commitment.ts:83-99 | without the key width two different envelopes share their bytes |
| MandateCommitment.WrappedCountsCollide | packages/shared/src/mandate-commitment.ts:83-99 | nor do the counts: 256 of one list reads as 256 of the other |
| GovernanceCommitment.BuildPreimage | packages/shared/src/governance-manifest-commitment.ts:53-116 | for every manifest: the first check that fails in the source's order, or the bytes |
| GovernanceCommitment.RefusalNamesFirstFailure | packages/shared/src/governance-manifest-commitment.ts:53-116 | a refusal names what is wrong - the first extra of another width by its position, too many extras, the first field that is not a key, a threshold that is not a whole number of 16 bits - and everything checked before it is in order |
| GovernanceCommitment.RoundTrip | packages/shared/src/governance-manifest-commitment.ts:60-116 | exactly the well-formed manifests lay out, and each decodes to its canonical record |
| GovernanceCommitment.FieldsLieInOrder | packages/shared/src/governance-manifest-commitment.ts:49-116 | the domain text, the owner, four keys behind their presence bytes, the threshold low byte first, the sorted extras behind their count, and the extension or 32 zero bytes |
| GovernanceCommitment.DecodedWritesBack | packages/shared/src/governance-manifest-commitment.ts:60-116 | whatever decodes lays out, as the same bytes when its authorities are in order |
| GovernanceCommitment.SameBytesSameManifest | packages/shared/src/governance-manifest-commitment.ts:60-116 | equal bytes exactly when every field agrees and the extra authorities are permutations |
| NativeTransfers.ExtractNativeTransfers | packages/api/src/utils/solana-rpc-analyzer.ts:433-483 | transfers move exactly the smaller of all debits and all credits, each is positive, no address sends or receives more than its accounts lost or gained, an address sends only if one of its accounts ended below where it began - the fee payer's by at least 0.01 SOL - and receives only if one ended above, and they are fewer than the accounts |
| NativeTransfers.PairGreedily | packages/api/src/utils/solana-rpc-analyzer.ts:464-480 | the nested loops over decremented amounts compute the walk down both lists |
| NativeTransfers.PairingConserves | packages/api/src/utils/solana-rpc-analyzer.ts:464-480 | the walk moves min(total debits, total credits) in at most senders + receivers - 1 positive transfers |
| NativeTransfers.PairingUsesHoldings | packages/api/src/utils/solana-rpc-analyzer.ts:464-480 | each address is used for at most its own amount, and the smaller side is used up exactly |
| NativeTransfers.OrderingKeepsParties | packages/api/src/utils/solana-rpc-analyzer.ts:461-462 | ordering puts the largest first and rearranges nothing else |
| NativeTransfers.CollectParties | packages/api/src/utils/solana-rpc-analyzer.ts:443-457 | the loop lists each account that fell with what it lost and each that rose with what it gained, in account order |
| NativeTransfers.PartiesHoldChanges | packages/api/src/utils/solana-rpc-analyzer.ts:443-457 | those lists hold exactly all debits and credits, in total and address by address, small fee-payer decreases left out |
| TokenChanges.ExtractAccountData | packages/api/src/utils/solana-rpc-analyzer.ts:525-596 | one record per account key with its balance after minus its balance before, a missing one zero, and exactly the token changes recorded for its index |
| TokenChanges.ChangeIsPostMinusPre | packages/api/src/utils/solana-rpc-analyzer.ts:545-590 | with unique indices, the change at each account is post minus pre, a missing side zero, closed accounts included, under the later listing's mint, owner and - where it gives them - decimals |
| TokenChanges.ChangesBalanceIffAttributable | packages/api/src/utils/solana-rpc-analyzer.ts:545-590 | an account's changes account for every mint it held exactly when it is attributable |
| TokenChanges.ChangesConserveMint | packages/api/src/utils/solana-rpc-analyzer.ts:545-590 | mint by mint the changes sum to total post minus total pre |
| TokenChanges.RelabelledAccountMisstatesBothMints | packages/api/src/utils/solana-rpc-analyzer.ts:553-566 | an index listed under two mints misstates both |
| Sampling.SelectSample | packages/api/src/utils/solana-rpc-analyzer.ts:81-97 | for a sample of two or more, exactly the size asked for, strictly increasing from 0 to total - 1, neighbours a floor or a ceiling of the step apart; a short range whole; for none both ends, for one a pick that is not a number |
| Sampling.StepIsFloorOrCeiling | packages/api/src/utils/solana-rpc-analyzer.ts:91-94 | rounding the next multiple of the step moves by its floor or its ceiling |
| PaidTotals.RollingCapHoldsIff | packages/api/src/services/payout-breaker.ts:5-19 | whatever passes next keeps everything paid since payment i within the limit exactly when the counter is full, or the window was opened no later than payment i and is open, and since then no more went unrecorded than the window had recorded before |
| PaidTotals.CapHoldsFromOpeningIff | packages/api/src/services/payout-breaker.ts:74-86 | from the payment that opened the window on: exactly when the counter is full, or the window is open and every payment since was recorded |
| PaidTotals.UnrecordedHasNoCap | packages/api/src/workers/claim-keeper.ts:1056-1094 | after any run that lets an amount through, any number of settlements of it that land with an error are let through and paid, and the counter stays where it was |
| PaidTotals.NinesPassWithoutEnd | packages/api/src/workers/claim-keeper.ts:1056-1094 | under a limit of ten, a recorded payout of one and then any number of unrecorded nines |
| PaidTotals.RecordedAtMostTwice | packages/api/src/services/payout-breaker.ts:41-86 | in any closed span of one window the recorded payouts total at most twice the limit, whatever else was paid |
| PayoutBreaker.AnyWindowPaysAtMostTwice | packages/api/src/services/payout-breaker.ts:41-86 | the same of a run in which every payout is recorded |
| PayoutBreaker.SpanInOneWindow | packages/api/src/services/payout-breaker.ts:41-86 | recorded payouts over a span that begins in the window it ends in stay within one limit |
| PayoutBreaker.ReopeningBreaksCap | packages/api/src/services/payout-breaker.ts:74-79 | after any run whose window has ended a full limit passes at once, and with the payout before it exceeds the cap |
| PayoutBreaker.CounterStaysUnderLimit | packages/api/src/workers/claim-keeper.ts:949-959 | the counter never exceeds the limit, though the key may expire between check and record |
| PayoutBreaker.CounterIsWindowTotal | packages/api/src/services/payout-breaker.ts:74-86 | the counter is what was recorded since its window opened, and expires one window after that |
| PayoutBreaker.LostExpiryNeverReopens | packages/api/src/services/payout-breaker.ts:76-79 | with the expiry lost, everything recorded from then on stays within one limit |
| PayoutBreaker.TwiceTheLimitCanPass | packages/api/src/services/payout-breaker.ts:41-86 | the factor two is reached |
| PayoutBreaker.Breaker.CheckCircuitBreaker | packages/api/src/services/payout-breaker.ts:41-71 | passes exactly without a positive limit, without the store, or when the projection fits |
| PayoutBreaker.Breaker.RecordAutoPayout | packages/api/src/services/payout-breaker.ts:74-86 | the whole new counter, expiry set only by the increment that opens the window |
| Herfindahl.NormalizedHHI | packages/api/src/services/risk-scorer.ts:952-963 | the share-squaring loops compute the index in closed form |
| Herfindahl.IndexMeasuresConcentration | packages/api/src/services/risk-scorer.ts:950-963 | unclamped it lies in [0,1]; it is 0 exactly for equal amounts and 1 exactly for a single holder |
| Herfindahl.IndexIsAShare | packages/api/src/services/risk-scorer.ts:952-963 | for any amounts the index lies in [0,1]: the unclamped one cut off at either end, 0 for none or a zero total, 1 for one |
| Herfindahl.IndexIgnoresScale | packages/api/src/services/risk-scorer.ts:952-963 | scaling every amount changes nothing |
| RiskScore.AssessScore | packages/api/src/services/risk-scorer.ts:243-254 | the score is the rounded weighted mean, never the no-data default |
| RiskScore.RoundedIsNearest | packages/api/src/services/risk-scorer.ts:252-254 | to the nearest thousandth, halves up |
| RiskScore.WeightsFollowData | packages/api/src/services/risk-scorer.ts:52-77 | each factor weighs its base weight scaled by how much there is of the data it is read from, or by whether it is there |
| RiskScore.RatingsAreQuarters | packages/api/src/services/risk-scorer.ts:965-970 | a rating is the quarter of the scale the value lies in |
| RiskScore.ScoreIsBetweenFactors | packages/api/src/services/risk-scorer.ts:246-254 | the unrounded score lies between the smallest and the largest factor |
| RiskScore.ScoreIsMonotone | packages/api/src/services/risk-scorer.ts:246-254 | raising factors never lowers it, and raises it exactly when one that carries weight was raised |
| RiskScore.ScoreIsMeanOfCategories | packages/api/src/services/risk-scorer.ts:908-940 | it is the weight-weighted mean of the five unrounded category scores |
| RiskScore.TotalIsNeverZero | packages/api/src/services/risk-scorer.ts:848-903 | whatever is known of an agent, the total weight is positive |
| RiskScore.RiskierIsNeverCheaper | packages/shared/src/utils.ts:46-80 | riskier factors never earn a milder tier or a lower rate, rounding included |
| RiskScore.BuildCategoryRisks | packages/api/src/services/risk-scorer.ts:908-940 | each of the five categories in order with its label, its rounded mean, its weight and count, one half where it carries no weight, rated on the mean before rounding |
| Premium.PremiumIsMonotone | packages/shared/src/utils.ts:21-57 | the price is monotone in cover, term, tier, multiplier and flat part |
| Premium.SplittingSavesLittle | packages/shared/src/utils.ts:21-43 | buying a term in k pieces is never cheaper than the whole by more than k/2 base units |
| Premium.SplittingSavesLittleAtAnyMultiplier | packages/shared/src/utils.ts:21-43 | at any multiplier and flat part the saving over k pieces stays under (k + 1)/2 base units and k/2 multiplied ones |
| Premium.SplittingCanSaveAUnit | packages/shared/src/utils.ts:21-43 | and that is reached for k = 2 |
| Premium.PriceIsNearestToExact | packages/shared/src/utils.ts:31-36 | at the full multiplier the price is never under 1000, and above that it is the tier's rate on the cover, by the second over a 365-day year, to the nearest base unit |
| Premium.PriceIsCloseToExact | packages/shared/src/utils.ts:31-43 | at any multiplier and flat part, above the floor, it is the exact one to within half a base unit and half a multiplied one |
| Premium.TierFollowsScore | packages/shared/src/utils.ts:46-80 | a higher score never lands in a milder tier; the rate is 1% up to 0.3, 2.5% up to 0.6, 5% up to 0.85, and none above |
| Quote.EveryRunStaysSolvent | packages/api/src/services/envelope-derivation.ts:138-150 | over any run of quotes bought at current totals, stakes and expiries, coverage stays at most twice the stake |
| Quote.QuoteIsPricedIff | packages/api/src/services/quote-decision.ts:46-100 | a cover is priced exactly when the tier has a rate, the agent holds that much and the vault stays at two for one with it (no cover at all always fits); a refusal names a bound the cover breaks; the maximum named is exactly what both bounds allow |
| Quote.CapacityIsExact | packages/api/src/services/envelope-derivation.ts:138-150 | the room left in a solvent vault can be sold to the last unit and no further |
| Quote.BreachIsAbnormal | packages/api/src/services/envelope-derivation.ts:74-121 | with fewer than five movements, or nothing ordinarily moved, the cap is the balance; otherwise a movement crosses it exactly when it is more than one base unit and more than five times the ordinary and half a unit; an hour may take three times the cap |
| LossRevaluation.SettlingInStepsFallsShortByLittle | packages/api/src/routes/staking.ts:66-82 | settling in k index steps never pays more than settling once, and at most k - 1 base units less |
| LossRevaluation.TwoStepsCanLoseAUnit | packages/api/src/routes/staking.ts:66-82 | that shortfall is reached for k = 2 |
| LossRevaluation.PositionsFitTheVault | packages/api/src/routes/staking.ts:53-82 | positions sharing a snapshot sum to at most the revalued total, within a unit each, and that is at most the principal |
| LossRevaluation.ReadU128ReadsWhole | packages/api/src/routes/staking.ts:241-246 | the two halves read as one 128-bit little-endian number |
| LossRevaluation.ReadFailsIff | packages/api/src/routes/staking.ts:66-82 | the read runs past the account exactly for staker accounts of 108 to 115 bytes beside a full vault account |
| LossRevaluation.ShownInProportion | packages/api/src/routes/staking.ts:66-82 | read from the two accounts' own bytes, an index above zero and under the snapshot shows the principal times index over snapshot, rounded down; any other pair shows it whole |
| LossRevaluation.ShortAccountsShowPrincipal | packages/api/src/routes/staking.ts:66-73 | an account from before the migration shows it whole |
| PriceTerms.DerivePriceTerms | packages/api/src/services/price-terms.ts:70-124 | the terms are those of the most frequent priced mint, the least on ties, bounded at five times its largest movement; empty exactly when none was moved |
| PriceTerms.TermsSpelledOut | packages/api/src/services/price-terms.ts:70-124 | those terms in full: the feed and decimals of a mint that was moved, its on-chain name, wrapped SOL standing for SOL both ways, and five times its largest movement; all zeros where no mint with a feed was moved |
| PriceTerms.TermsIgnoreOrder | packages/api/src/services/price-terms.ts:70-124 | they depend only on which movements were seen, not on their order |
| PriceTerms.OneMoreKeepsChosen | packages/api/src/services/price-terms.ts:90-124 | one more movement of the chosen mint keeps it chosen and moves the bound only up |
| PriceTerms.RivalTakesOverIff | packages/api/src/services/price-terms.ts:99-108 | another mint's movement displaces it exactly by making that mint more frequent, or as frequent and earlier |
| PolicyIndexer.Indexer.ReconcilePolicies | packages/api/src/workers/policy-indexer.ts:96-202 | rows, claims, slot and count end exactly where the listing's reference function says |
| PolicyIndexer.RowsFollowChain | packages/api/src/workers/policy-indexer.ts:117-181 | over truthful listings with positive slots, in any order and with accounts missing, each row shows, field by field, the chain's account at the newest applied listing that named it |
| PolicyIndexer.SourceIsNewest | packages/api/src/workers/policy-indexer.ts:117-124 | that listing's slot is the greatest among the applied ones that named the policy |
| PolicyIndexer.MirrorNeverMovesBack | packages/api/src/workers/policy-indexer.ts:117-181 | one more listing never lowers what the chain only raises, nor drops the row, nor changes when it was first seen |
| PolicyIndexer.FirstSightIsItsStart | packages/api/src/workers/policy-indexer.ts:127-181 | a policy seen for the first time is dated from its start |
| PolicyIndexer.OlderViewIsPutBackIff | packages/api/src/workers/policy-indexer.ts:86-124 | for any newest slot, a true view of an older slot overwrites a row exactly when its listing names no slot, and always after a restart |
| PolicyIndexer.OverlappingPassesPutBack | packages/api/src/workers/policy-indexer.ts:74-181 | of two passes that overlap, an older one that read the guard first and writes last puts its view back; run in turn it is refused |
| PolicyIndexer.MirroringCoversPending | packages/api/src/workers/policy-indexer.ts:183-229 | mirroring only appends approved rows, with no verdict or amount, under the trigger and signature of the first account listed for the policy, for listed pending policies with no open claim; keeps one open claim per policy, and leaves none of them without one |
| PolicyIndexer.MirroringIsKeeperSteps | packages/api/src/workers/policy-indexer.ts:207-227 | a listing's effect on the claims is a run of the keeper's own mirror steps, so the safety of every run covers it |
| SlotSearch.SlotAtTime | packages/api/scripts/backtest-fetch.ts:220-243 | ends whatever the calls answer; under times that never fall and no gap of eight, at the least slot whose next answering slot is late enough |
| SlotSearch.LeastLateFollowsLastEarly | packages/api/scripts/backtest-fetch.ts:219-243 | the search returns one past the last early slot below the head, or the head when an early slot is at it or beyond |
| SlotSearch.SearchKeepsPromiseIff | packages/api/scripts/backtest-fetch.ts:219-243 | it returns the first slot held at or after the target exactly when no early slot is at the head or beyond and the slot after the last early one is held |
| SlotSearch.SkippedSlotIsReturned | packages/api/scripts/backtest-fetch.ts:219-243 | a case where a skipped slot is returned |

## Left out

- KeeperBounds.OneRowCausesBoundedWork: asks that verdict details stay off the keeper's own keys `supersedeCount`, `reattributedFrom` and `lockDeferrals`; no verifier writes them.
- PolicyIndexer.OlderViewIsPutBackIff: a listing is applied in one step and by one process; passes that overlap are the subject of `OverlappingPassesPutBack`, and a second process is a mirror with its own newest slot.
- PaidTotals.RollingCapHoldsIff: one payout worker, and checks that could read the store under a positive limit.
- KeeperService.Serve: handlers run one after another and to their end; crashes inside a payout and steps that fall between its writes are covered by the theorems over runs.
- KeeperSafety.EveryRunIsSafe: ingest and process handlers are one step each, so two process workers racing on one row are not modelled.
- Sampling.SelectSample: for a sample of one, where the picks are sorted by a comparison that is not a number, only the other picks and the presence of that one are stated.
- TokenChanges.ChangeIsPostMinusPre: asks that no account index be listed twice on one side, as the chain guarantees.
- SlotSearch.SlotAtTime: a failed call and a slot without a time are the same answer, as in the code.
- The verifiers, adjudicators, proof posters, mandate and baseline readers: a verdict is an arbitrary value, and so is each answer the mandate gives.
- The order in which jobs become due: any job may run at any time, so delays, the lock's expiry time and its re-anchoring to the chain's clock are not modelled, except in the deferral schedule.
- A deferral counter stored as anything but a number, which the keeper never writes.
- Prose in a review reason built from a confidence figure, and a non-string `reason` in a verdict's details, which reads as the default.
- The Rust program: a policy is one of five states, and submit and settle may land, revert, or land and report an error.
- SHA-256, HMAC and program-derived addresses: only what is hashed is modelled.
- Postgres, Redis and BullMQ: only the partial unique index, conditional writes, an expiring counter, and delivery at any time remain.
- Floating-point error: amounts, shares and times are exact.
- The fifteen factor readings of the risk scorer apart from the concentration index, its prose, and its decay formula.
- Labelling paid claims with their proof kind from evidence accounts, and the live reward formula: single-pass lookups with little to prove.
- The backtest's victim netting, RPC endpoint health, routes, web client, demo and migration scripts.
