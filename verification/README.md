# Verified model of the provisioning, routing and metering core

A Dafny model of the parts of this repository that keep three things in step: the committed
database, the runtimes it configures (a Mihomo forwarder and an Xray gateway), and the traffic it
meters. Everything the program does not control (commits whose acknowledgement is lost, providers
that raise before or after their effect, crashes, observers that are unavailable, clocks) is a
parameter, and the theorems hold for every value of it. `dafny verify dfyconfig.toml` checks the
project.

Code that changes state in place is a class whose methods are proved equal to a function from the old
state and the answers of the environment to the new state. Theorems about one step, and about every
sequence of steps, are stated over these functions.

| files | part of the system |
|---|---|
| `Durable.dfy`, `RuntimeCalls.dfy`, `Limits.dfy` | lossy commits, adversarial calls, shared bounds |
| `MihomoQueue.dfy`, `MihomoRun.dfy`, `MihomoForwarder.dfy` | the Mihomo job queue, one reconciliation run, the apply/rollback provider |
| `MihomoInvariants.dfy`, `MihomoTheorems.dfy`, `MihomoHistories.dfy`, `MihomoResults.dfy`, `MihomoReconciler.dfy` | its invariants, its theorems, histories from the empty queue, results, the worker in place |
| `GatewayQueue.dfy`, `GatewayTheorems.dfy`, `GatewayReuse.dfy`, `GatewayResults.dfy`, `GatewayReconciler.dfy`, `GatewayRouting.dfy`, `GatewayServing.dfy` | commit-first gateway reconciliation, paid purchases and releases, down to the Xray process |
| `ProvisioningSaga.dfy`, `ProvisioningEndings.dfy`, `DurablePurchase.dfy`, `ProvisioningService.dfy` | the nine-step saga and its compensations, in both compositions |
| `RoutingSnapshot.dfy`, `XrayComposition.dfy`, `XrayAcceptance.dfy`, `XrayPipeline.dfy`, `XrayWriters.dfy` | desired routes, the Xray compiler, the writers of the Xray file and baseline |
| `UsageLedger.dfy`, `UsageMeter.dfy`, `UsageSync.dfy` | usage samples, periods, alerts and repair, against true traffic |
| `MihomoRules.dfy`, `MihomoProjection.dfy`, `MihomoAcceptance.dfy`, `NetworkText.dfy`, `Ipv4Text.dfy`, `Ipv6Text.dfy` | the Mihomo compiler, the meaning of its rules, the text of networks |
| `TrafficCollector.dfy`, `Sums.dfy` | the traffic collector |
| `GatewayPrincipals.dfy`, `SlidingWindow.dfy`, `UniqueNames.dfy`, `Strings.dfy`, `Wrappers.dfy` | the principal rewrite, the rate limiter, proxy names, text |

Where the code keeps less than its documentation suggests, the model follows the code and states
exactly when the promise holds:

- A run of the saga that ends FAILED can leave an enabled accounting user behind although the gateway
  step failed: when disabling fails as well and the commit that asks for manual review raises, the last
  handler records a plain failure (`ProvisioningSaga.FailedWithEnabledUser`,
  `ProvisioningSaga.FailuresThatLeaveSomething`). The durable purchase never does
  (`DurablePurchase.FailedIsCompensated`).
- A lost acknowledgement of the activation lets a purchase be recorded as failed after its rows were
  committed (`ProvisioningSaga.FailedPurchaseKeepsRowsIff`). In the durable purchase only a wrong
  answer about its first commit does (`DurablePurchase.DurableFailureKeepsRowsIff`).
- A release that reuses a finalized operation id and is not projected leaves its route in the gateway
  (`GatewayReuse.ReleaseAgreesIff`, `GatewayReuse.ReusedOperationLeavesTheRoute`); one that is projected
  claims the finalized intent again (`GatewayReuse.ReleaseIsFinalIff`).
- In reachable states the gateway never marks a finalization unknown while its observer works
  (`GatewayTheorems.FinalizationClassifiedExactly`).
- A blocked Mihomo claim is not given back when its reset is lost: the row stays RUNNING, one attempt
  is gone (`MihomoTheorems.BlockedClaimConsumesNothing`, `MihomoHistories.LostResetConsumesAnAttempt`).
- An uncertain Mihomo run whose every record is lost is indistinguishable from a dead worker and is
  retried when it is stale (`MihomoTheorems.UncertainRunFreezes`,
  `MihomoTheorems.UnrecordedUncertaintyIsRetried`, `MihomoHistories.UncertaintyCanLeaveNoTrace`).
- A failed baseline write that took effect leaves the Xray file drifted after its rollback
  (`XrayWriters.RollbackReopensUnlessBaselineLanded`, `XrayWriters.RollbackCanLeaveDrift`).
- Composition accepts an outbound tagged DIRECT that validation refuses
  (`XrayPipeline.ComposedIsValidIffNoDirect`).
- A sync whose latest sample by time is not the last counter meters traffic twice, as after a sync
  dated before its predecessor (`UsageMeter.MeteredIsTrueTrafficIff`,
  `UsageMeter.ClockGoingBackOvercounts`).
- A rewrite of principals can report an abort after its commit landed
  (`GatewayPrincipals.Table.Reconcile`, `GatewayPrincipals.AbortCanHaveLanded`).

## Model

| member | source | states |
|---|---|---|
| MihomoForwarder.OutcomeTellsRuntime | backend/app/providers/forwarder/mihomo.py:286-349 | a returned apply means file and process are the candidate, a refusal means nothing was touched, a verified rollback means file and process are the file from before; the other outcomes promise nothing |
| MihomoForwarder.OutcomesExactly | backend/app/providers/forwarder/mihomo.py:286-349 | by the answers of the runtime alone: applied if and only if install, reload and health succeed; rolled back and verified if and only if the activation failed and restore, reload and health of the rollback succeed; unknown if and only if it failed and the rollback does not confirm |
| MihomoForwarder.FailedActivationIsRolledBack | backend/app/providers/forwarder/mihomo.py:309-349 | a failed activation leaves the file from before unless its restore was interrupted, and the process runs it if the reload of the rollback took effect |
| MihomoForwarder.DyingActivationLeaves | backend/app/providers/forwarder/mihomo.py:309-329 | what file and process are when the worker dies in each call of the activation |
| MihomoForwarder.Provider.ApplyCandidate | backend/app/providers/forwarder/mihomo.py:286-329 | install, reload and health in order; anything short of a healthy answer after a clean reload is rolled back to the backup, for every failure of every call |
| MihomoForwarder.Provider.Rollback | backend/app/providers/forwarder/mihomo.py:331-349 | the rollback is verified only by a complete restore, a clean reload and a healthy answer; otherwise its result is unknown |
| MihomoReconciler.Reconciler.EnqueueReconciliation | backend/app/infra/mihomo_reconciliation.py:595-635 | a new operation gets a new PENDING row with a retry limit of five; an operation that is enqueued again gets its row back; an invalid operation, or one with another kind or revision than its row, is refused |
| MihomoHistories.OneRowPerOperation | backend/app/infra/mihomo_reconciliation.py:595-635 | over every sequence of enqueues and runs, two rows of one operation id are the same row |
| MihomoReconciler.Reconciler.Claim | backend/app/infra/mihomo_reconciliation.py:754-780 | the claimed row is the claimable one with the least id, where a stale RUNNING row counts only without an unknown diagnostic; the claim is one transaction |
| MihomoReconciler.Reconciler.ResetBlockedClaim | backend/app/infra/mihomo_reconciliation.py:981-988 | a blocked claim is undone in one transaction |
| MihomoReconciler.Reconciler.Failure | backend/app/infra/mihomo_reconciliation.py:783-801 | the session is rolled back first; the row becomes FAILED with exponential backoff capped at an hour, and is retryable while attempts remain |
| MihomoReconciler.Reconciler.EnsureBlocker | backend/app/infra/mihomo_blocker.py:65-127 | a blocker is created, reused while open, reopened when resolved with the same origin, and refused when its origin differs |
| MihomoReconciler.Reconciler.PersistUnknown | backend/app/infra/mihomo_reconciliation.py:808-832 | the pending rows and an open FINALIZATION blocker land together; a raising commit or guard marks the durable state of the session unknown |
| MihomoReconciler.Reconciler.MarkUnknown | backend/app/infra/mihomo_reconciliation.py:835-978 | a row that is exactly finalized is left alone, an exact claim gets the diagnostic, anything else gets a blocker; failure to record sets the unknown flag |
| MihomoReconciler.Reconciler.FinalizeJob | backend/app/infra/mihomo_reconciliation.py:1100-1147 | success, evidence and the open release blocker are one commit; after a raising commit the classified outcome decides between success, retry and unknown |
| MihomoReconciler.Reconciler.ProjectJob | backend/app/infra/mihomo_reconciliation.py:1021-1099 | each outcome of prepare, apply and verify is routed to its own ending, and a job is logged as applied exactly when it reaches apply |
| MihomoReconciler.Reconciler.LeaveLock | backend/app/infra/mihomo_projection_lock.py:71-154 | a release blocker is durable before RELEASE_LOCK is called, and is resolved only after the release was confirmed and the durable state is known |
| MihomoReconciler.Reconciler.ReconcileJob | backend/app/infra/mihomo_reconciliation.py:991-1147 | one whole run in place has exactly the durable effect of the run over which the theorems are stated, and leaves a clean session |
| MihomoInvariants.FinalizedKeeps | backend/app/infra/mihomo_reconciliation.py:1100-1119 | the finalizing transaction of a claimed row is never refused and leaves the exact success that the classifier looks for, within the invariant |
| MihomoInvariants.ClassificationIsExact | backend/app/infra/mihomo_reconciliation.py:676-751 | with a working observer, a finalization whose commit raised is LANDED if and only if it landed, and ABSENT if and only if it did not |
| MihomoInvariants.UnlockKeeps | backend/app/infra/mihomo_projection_lock.py:71-154 | leaving the lock, whatever fails, keeps the invariant and changes no job |
| MihomoTheorems.BlockedClaimConsumesNothing | backend/app/infra/mihomo_reconciliation.py:981-1019 | an acknowledged claim that finds the queue blocked keeps the attempts of its row if and only if the reset lands; the run then leaves the database as it found it, up to the row being PENDING and unlocked, and otherwise leaves exactly the claim |
| MihomoHistories.LostResetConsumesAnAttempt | backend/app/infra/mihomo_reconciliation.py:981-988 | a history from the empty queue: two operations are enqueued, the first worker dies with the first claimed, and the next one claims the second, is blocked and loses its reset; the row stays RUNNING with an attempt gone and nothing tried |
| MihomoTheorems.RunKeeps | backend/app/infra/mihomo_reconciliation.py:991-1147 | every run keeps the invariant, never changes a finalized row, and applies at most the first unfinished job |
| MihomoTheorems.InOrderBoundedFinal | backend/app/infra/mihomo_reconciliation.py:638-801 | over every sequence of enqueues and runs: jobs are applied in id order after all lower ones succeeded, applies never exceed attempts nor attempts their limit, and success is final |
| MihomoTheorems.FreezeIsForever | backend/app/infra/mihomo_reconciliation.py:638-780 | once a diagnostic or an unresolved blocker is durable, no later step for any job reaches apply or moves the forwarder, and the record stays |
| MihomoTheorems.BodyEndsUncertain | backend/app/infra/mihomo_reconciliation.py:835-1147 | a run ends uncertain if and only if its payload is unreadable, its rollback is not verified, its apply is unconfirmed, its verification fails, or its finalization cannot be classified; and which record its body then leaves |
| MihomoTheorems.UncertainRunFreezes | backend/app/infra/mihomo_reconciliation.py:808-978 | over the answers of the environment alone: an uncertain run freezes the queue if and only if the commit of its diagnostic or blocker, its finalization, or its release blocker lands; otherwise the claim is all it leaves |
| MihomoTheorems.UnrecordedUncertaintyIsRetried | backend/app/infra/mihomo_reconciliation.py:754-780 | an uncertain run without a record is claimed again once it is stale and attempts remain, and reaches apply a second time |
| MihomoHistories.UncertaintyCanLeaveNoTrace | backend/app/infra/mihomo_reconciliation.py:1048-1078 | a history from the empty queue: a rollback that fails, a diagnostic that is lost and a release blocker that cannot be opened leave no record, and the next worker applies the job again |
| MihomoTheorems.ResolvedOnlyAfterConfirmedRelease | backend/app/infra/mihomo_projection_lock.py:59-154 | a run resolves its release blocker only if it saw RELEASE_LOCK return 1 and knew its durable state |
| MihomoTheorems.NewSuccessIsGuarded | backend/app/infra/mihomo_reconciliation.py:1109-1119 | a job that succeeds in a run is the run's own, and its release blocker is open when the body ends |
| MihomoTheorems.UnconfirmedReleaseBlocksWriters | backend/app/infra/mihomo_projection_lock.py:102-149 | if a job succeeded and its release was not confirmed, whatever stopped the run, no later step applies anything |
| MihomoTheorems.RetryKnowsTheRuntime | backend/app/infra/mihomo_reconciliation.py:1047-1147 | whenever a run leaves its job FAILED, the forwarder is untouched, restored and healthy, or runs the verified candidate whose finalization is absent |
| MihomoTheorems.CleanRunFinalizes | backend/app/infra/mihomo_reconciliation.py:991-1147 | a claimable, unblocked job in a run where nothing fails returns applied and finalized and ends SUCCEEDED over a forwarder running its candidate, with no blocker left open |
| MihomoResults.ResultTellsTheRow | backend/app/infra/mihomo_reconciliation.py:991-1147 | what a run returns is true of its row: finalized if and only if it succeeded, retryable if and only if it failed with attempts left, the reason of its error otherwise; nothing if and only if no row was claimable or the claimed one was blocked |
| MihomoResults.FailureIsRecorded | backend/app/infra/mihomo_reconciliation.py:783-801 | a failure inside the guarded block is written if and only if one of its two commits lands, and the second one counts |
| MihomoResults.ReturnedIsReleased | backend/app/infra/mihomo_projection_lock.py:71-154 | a run that returns a retryable or finalized result leaves no blocker open: the retry or the next job is not held up by it |
| MihomoResults.UnlockReturnsExactly | backend/app/infra/mihomo_projection_lock.py:71-154 | when leaving the lock returns what the run returned: only after a durable guard, a confirmed release and, with a known durable state, a resolved guard |
| MihomoResults.ClassifierReadsTheRows | backend/app/infra/mihomo_reconciliation.py:676-751 | LANDED and ABSENT by the rows alone: success with its evidence and open blocker, or a running claim with neither evidence nor diagnostic |
| MihomoQueue.DedupeKeysAreDistinct | backend/app/infra/mihomo_blocker.py:44-56 | two blockers share a dedupe key if and only if they have the same kind and source job |
| MihomoQueue.EnsureBlockerExactly | backend/app/infra/mihomo_blocker.py:65-127 | a blocker is refused exactly for an invalid origin or a row of another origin, and is open afterwards otherwise |
| MihomoQueue.IdentityExactly | backend/app/infra/mihomo_reconciliation.py:561-580 | which operation ids, kinds and revisions are accepted, spelled out |
| MihomoQueue.FailedIsRetriedFrom | backend/app/infra/mihomo_reconciliation.py:783-801 | a row that failed is claimable again exactly from its delay on: two minutes doubled per attempt, at most an hour, while attempts remain |
| MihomoQueue.ClaimIsTakenOverAfter | backend/app/infra/mihomo_reconciliation.py:754-780 | a claim is taken over exactly after fifteen minutes, while attempts remain and nothing says that its outcome is unknown |
| MihomoResults.AppliedAtMostFiveTimes | backend/app/infra/mihomo_reconciliation.py:595-635 | from the empty queue, whatever happens, no job is applied more than five times |
| Limits.BackoffIsDoubledAndCapped | backend/app/infra/mihomo_reconciliation.py:783-801 | the minutes of the backoff for every number of attempts |
| GatewayTheorems.KeysAreDistinct | backend/app/infra/gateway_reconciliation.py:269-289 | the dedupe texts of purchases and releases never coincide for different operations |
| GatewayTheorems.ReleaseKeyIsFresh | backend/app/workers/accounting_sync.py:445-483 | the key of releasing an unreleased egress binding is new, so a release always adds an intent |
| GatewayTheorems.NewReleaseIsFresh | backend/app/workers/accounting_sync.py:477-483 | the key of a release that is a new operation is new, with the default id or with an id of its own |
| GatewayTheorems.FinalizationClassifiedExactly | backend/app/infra/gateway_reconciliation.py:189-266 | in every reachable state, with a working observer, LANDED and ABSENT are exact in both directions, so the UNKNOWN branch is not taken |
| GatewayTheorems.FirstCommitClassifiedExactly | backend/app/infra/gateway_reconciliation.py:147-186 | both answers about a raising first commit are exact for every outcome of that commit if and only if no row has the key and no active route the subscription |
| GatewayTheorems.ReconcileClaimedKeeps | backend/app/infra/gateway_reconciliation.py:492-551 | a claimed job stays unresolved, or is finalized over a gateway that confirmed the snapshot of the committed tables; no other row changes |
| GatewayTheorems.PurchaseKeeps | backend/app/services.py:186-305 | a purchase compensates its user only if its intent is not durable and nothing was routed, and reports success only when no intent is unresolved |
| GatewayTheorems.ReleaseKeeps | backend/app/workers/accounting_sync.py:421-486 | a release that is a new operation keeps agreement in every outcome of its commits and its projection, and never touches a finalized intent |
| GatewayTheorems.HoldKeeps | backend/app/services.py:110-133 | committing the egress binding of a purchase under manual review, outside the lock, changes nothing the gateway could be asked to route |
| GatewayTheorems.RecoverKeeps | backend/app/infra/gateway_reconciliation.py:584-597 | recovery, including of stale RUNNING rows with a diagnostic, keeps agreement |
| GatewayTheorems.CommitFirstAgreement | backend/app/infra/gateway_reconciliation.py:116-134 | over all interleavings of new purchases, new releases and recoveries with lossy commits: at most one unresolved intent, finalized ones are final, and with none unresolved the gateway routes exactly the committed snapshot |
| GatewayTheorems.ReachableWorldsAgree | backend/app/infra/gateway_reconciliation.py:492-551 | every world reachable from an empty database and an empty gateway has at most one unresolved intent, and without one routes exactly what is committed |
| GatewayTheorems.ActiveIffFinalized | backend/app/infra/gateway_reconciliation.py:390-430 | subscription, order and run of a purchase are settled together, if and only if its own intent succeeded |
| GatewayTheorems.ExhaustedBlocksEveryWriter | backend/app/infra/gateway_reconciliation.py:308-330 | an unresolved intent without attempts left is never claimed again, and until then no writer changes routes or gateway |
| GatewayTheorems.CleanRecoverySettles | backend/app/infra/gateway_reconciliation.py:584-597 | a claimable intent with a sound snapshot and a confirming gateway leaves nothing unresolved and the gateway at the committed routes |
| GatewayReuse.CleanPurchaseIsProvisioned | backend/app/services.py:186-305 | a new order in which nothing fails reports success with nothing unresolved, and its routes are committed and served |
| GatewayReuse.CleanReleaseSettles | backend/app/workers/accounting_sync.py:421-486 | a new release in which nothing fails leaves nothing unresolved and the gateway without the route |
| GatewayTheorems.AgreementNeedsFreshKey | backend/app/infra/gateway_reconciliation.py:284-291 | after a first commit with any key, agreement holds if and only if the key was new or the routes did not change |
| GatewayQueue.FailedIsRetriedFrom | backend/app/infra/gateway_reconciliation.py:333-361 | a row that failed is claimable again exactly from its delay on, while attempts remain |
| GatewayQueue.ClaimIsTakenOverAfter | backend/app/infra/gateway_reconciliation.py:308-330 | a claim is taken over exactly after fifteen minutes, while attempts remain |
| GatewayQueue.MarkedIsTakenOverAfter | backend/app/infra/gateway_reconciliation.py:434-488 | a finalization marked for review is taken over after fifteen minutes like any claim |
| GatewayResults.ClaimedAtMostFiveTimes | backend/app/infra/gateway_reconciliation.py:269-330 | over every run of new operations no intent is claimed more than five times |
| GatewayResults.ResultTellsTheRow | backend/app/infra/gateway_reconciliation.py:333-551 | what an attempt returns is true of its row: finalized if and only if it succeeded, retryable if and only if it failed with attempts left |
| GatewayResults.AttemptEndsExactly | backend/app/infra/gateway_reconciliation.py:492-551 | how the attempt of an unresolved intent ends for every combination of its faults |
| GatewayResults.ClassifierReadsTheRows | backend/app/infra/gateway_reconciliation.py:189-266 | LANDED and ABSENT by the rows alone; rows of a purchase that disagree are UNKNOWN |
| GatewayResults.FinalizationWrites | backend/app/infra/gateway_reconciliation.py:390-430 | the row, the subscription, the order and the run that one finalizing transaction writes |
| GatewayQueue.ExhaustedFailsItsRun | backend/app/infra/gateway_reconciliation.py:345-378 | a failure unlocks its row with its reason and delay, notes the error of the subscription, and fails the run of its purchase if and only if no attempt is left |
| GatewayResults.PurchaseEndsExactly | backend/app/services.py:186-305 | the outcome of a new purchase for every combination of its faults: compensated, for review, in progress, or as its attempt ended |
| GatewayResults.PaymentStarts | backend/app/api/admin.py:113-151 | the rows with which a payment starts the saga |
| GatewayResults.CompensationWrites | backend/app/services.py:136-183 | what a compensation leaves in status, order, run and error of the subscription |
| GatewayResults.HoldWrites | backend/app/services.py:110-133 | a purchase handed to review commits its egress binding with the review: no route, no intent |
| GatewayResults.BoundExactly | backend/app/infra/provisioning_state.py:133-166 | an egress binding is refused if and only if the subscription is bound to another endpoint, and otherwise carries the credential of the request |
| GatewayReuse.ReleaseAgreesIff | backend/app/workers/accounting_sync.py:421-486 | a release with any operation id, under any faults, leaves the gateway and the tables in disagreement if and only if its commit landed over a key in use, took a route, and was not projected |
| GatewayReuse.ReleaseIsFinalIff | backend/app/workers/accounting_sync.py:477-486 | a release with any operation id, under any faults, touches a finalized intent if and only if its key is in use and it is projected; the intent is then claimed a second time |
| GatewayReuse.ReleaseChangesRoutesIff | backend/app/workers/accounting_sync.py:455-472 | a release changes the snapshot if and only if its subscription is routed |
| GatewayReuse.ReleaseRemovesExactly | backend/app/workers/accounting_sync.py:455-472 | a release takes out exactly the routes of its subscription: the tables stay sound and every other principal keeps its tag |
| GatewayReuse.PurchaseAddsExactly | backend/app/infra/provisioning_state.py:217-242 | a new order adds exactly its own route, and every other principal keeps its tag |
| GatewayReuse.ReusedOperationLeavesTheRoute | backend/app/workers/accounting_sync.py:477-486 | reached from the empty database by two purchases and a release: a second release under the same operation id that is not projected, whatever the faults, leaves a route in the gateway that the tables no longer have |
| GatewayRouting.CommittedRoutesAreServed | backend/app/infra/gateway_reconciliation.py:492-551 | with no intent unresolved, the composed document of the running state is valid and decides every tcp or udp connection by the committed rows: private traffic and principals without an active row are blocked, every other principal leaves by the tag of its row |
| GatewayRouting.ReachableRoutesAreServed | backend/app/infra/gateway_reconciliation.py:492-551 | the same for every world reached from an empty database over any endpoints, with no condition on tags |
| GatewayRouting.ExecWrites | backend/app/infra/provisioning_state.py:217-242 | no sequence of purchases, releases and recoveries changes the endpoints or tags a route otherwise than by its endpoint |
| GatewayRouting.OwnTagsAreNotDirect | backend/app/infra/provisioning_state.py:226-241 | routes written by purchases never use the tag DIRECT |
| GatewayServing.ProcessRunsCommitted | backend/app/infra/gateway_reconciliation.py:492-551 | over every run of new orders, recoveries, promotions and renders, each projection being an apply of the Xray provider with any answers: with no intent unresolved, the Xray process runs the file of the committed snapshot |
| GatewayServing.StepShows | backend/app/infra/gateway_reconciliation.py:492-551 | what a step projects is the snapshot it leaves committed; the answers of the gateway change nothing in the committed routes |
| GatewayServing.ReachableProcessServes | backend/app/providers/gateway/xray_file.py:163-247 | from the beginning: with no intent unresolved, the Xray process runs the text of a valid document that decides every tcp or udp connection by the committed rows |
| GatewayServing.CleanPurchaseServes | backend/app/services.py:186-305 | a new order in which nothing fails, over a gateway at its baseline, leaves nothing unresolved and file, process and baseline at the committed snapshot |
| GatewayServing.CleanReleaseServes | backend/app/workers/accounting_sync.py:421-486 | the same for a new release |
| GatewayServing.CleanRecoveryServes | backend/app/infra/gateway_reconciliation.py:584-597 | the same for a recovery, whatever was left unresolved |
| GatewayServing.CleanPurchaseIsServed | backend/app/services.py:186-305 | after such an order the process runs a document that sends its principal to the socks server of its endpoint under the very credential stored for the order |
| GatewayReconciler.Session.Enqueue | backend/app/infra/gateway_reconciliation.py:269-305 | an existing row of the key is returned whatever its status; otherwise one PENDING row is added inside the caller's transaction |
| GatewayReconciler.Session.ClassifyFirstCommit | backend/app/infra/gateway_reconciliation.py:147-186 | intent row and active route, both or neither, read by an independent session |
| GatewayReconciler.Session.Fail | backend/app/infra/gateway_reconciliation.py:333-387 | the session is rolled back, the row is FAILED with backoff, and an exhausted purchase also fails its run |
| GatewayReconciler.Session.AfterLostFinalization | backend/app/infra/gateway_reconciliation.py:519-545 | the branches on a finalization commit that raised, including the second failure record when the first one raises |
| GatewayReconciler.Session.ReconcileClaimedJob | backend/app/infra/gateway_reconciliation.py:492-551 | snapshot, render, validate and apply before any finalizing write; only a confirmed apply is finalized |
| GatewayReconciler.Session.ReconcileGatewayJob | backend/app/infra/gateway_reconciliation.py:584-597 | claims the first claimable row by id and reconciles it; the session ends clean |
| GatewayReconciler.Session.ReleaseEgress | backend/app/workers/accounting_sync.py:421-486 | no binding means nothing to do, an unresolved intent blocks, otherwise release and intent are one commit before the gateway is asked |
| GatewayReconciler.Session.ConfirmPaidPurchase | backend/app/services.py:186-305 | routes and intent are committed before any projection, and every outcome of that commit has its own ending |
| ProvisioningSaga.RunRecordsFollowBusiness | backend/app/domain/provisioning.py:332-607 | over every fault trace FAILED is recorded only with a clean business session, SUCCEEDED only after the activation commit, PENDING_MANUAL only after its business commit |
| ProvisioningSaga.ManualNeverActivates | backend/app/services.py:366-516 | a PENDING_MANUAL outcome is never activated; activation lands if and only if every step passed and its commit landed, and then commits all rows over an applied gateway and an enabled user |
| ProvisioningSaga.FailedWithEnabledUser | backend/app/domain/provisioning.py:588-622 | over every script of faults: a run is FAILED with an enabled user exactly in two families of faults, after an applied gateway, and after a failed gateway whose user could not be disabled and whose review was lost; without an applied gateway exactly in the second |
| ProvisioningSaga.FailedPurchaseKeepsRowsIff | backend/app/services.py:110-133 | over every script of faults: a purchase is failed and keeps rows of its saga exactly when the activation or the review landed without its acknowledgement and the failure landed after it |
| ProvisioningSaga.FailuresThatLeaveSomething | backend/app/domain/provisioning.py:588-622 | a script without faults succeeds; one with an enabled user behind a plain failure; one whose failed purchase keeps all its rows |
| ProvisioningSaga.LeftRunningExactly | backend/app/domain/provisioning.py:357-427 | with working writes, a run stays RUNNING if and only if reading the capacity raises otherwise than by exhaustion, or the forwarder state cannot be read |
| ProvisioningEndings.PaidExactly | backend/app/services.py:334-360 | an order is paid if and only if there is capacity, the payment is confirmed and lands; it is rejected if and only if capacity is exceeded and the rejection lands |
| ProvisioningEndings.EndsBeforeTheSaga | backend/app/services.py:334-360 | how an order ends that does not get past its payment |
| ProvisioningEndings.PhaseAExactly | backend/app/domain/provisioning.py:332-538 | by the script alone: phase A asks for review if and only if an outside effect cannot be ruled out or taken back, and fails its run if and only if a step failed without one; a creation without side effect is never sent to review |
| ProvisioningEndings.PhaseAEnds | backend/app/domain/provisioning.py:332-538 | when phase A goes on, raises and dies |
| ProvisioningEndings.EndsInPhaseA | backend/app/services.py:366-412 | a paid order without checkpoint: reviewed if and only if phase A asks for it, failed if and only if phase A raises |
| ProvisioningEndings.EndsUnderTheLock | backend/app/services.py:430-516 | every ending of order, run and control flow after the checkpoint, by the faults alone |
| ProvisioningEndings.EndsWithoutTheLock | backend/app/services.py:460-492 | the same when the lock cannot be acquired |
| DurablePurchase.DurableRecordsFollowBusiness | backend/app/services.py:136-305 | over every fault trace of the durable composition FAILED is recorded only with a clean business session, SUCCEEDED only with the activation, PENDING_MANUAL only after its business commit |
| DurablePurchase.FailedIsCompensated | backend/app/services.py:136-159 | a durable purchase whose run is FAILED leaves no enabled accounting user, and its gateway was not applied |
| DurablePurchase.DurableFailureKeepsRowsIff | backend/app/services.py:230-272 | a failed durable purchase keeps rows if and only if its first commit landed without acknowledgement, the observer denied it, the user could be disabled, and the failure landed |
| DurablePurchase.DurablyActivatedIff | backend/app/services.py:230-305 | a durable purchase is activated if and only if its first commit and its claim were acknowledged, the projection confirmed and the finalization landed; then all rows, user, gateway and run are settled |
| DurablePurchase.DurableEndings | backend/app/services.py:186-305 | when a durable purchase returns, asks for review and raises, by its faults alone |
| ProvisioningService.Service.CompensateCreatedUser | backend/app/domain/provisioning.py:766-808 | a user that can be disabled means rollback and FAILED; one that cannot means manual review without either |
| ProvisioningService.Service.CreateAccountingUser | backend/app/domain/provisioning.py:479-532 | the typed effects of create_user: no side effect is not compensated, an ambiguous one is left alone, everything else is compensated |
| ProvisioningService.Service.ProvisionPrepare | backend/app/domain/provisioning.py:332-538 | steps 1 to 6 in order, each with its own failure rule |
| ProvisioningService.Service.ProvisionApplyGateway | backend/app/domain/provisioning.py:540-644 | steps 7 to 9: a failed gateway disables the user or asks for review, a failed subscription does not disable anyone |
| ProvisioningService.Service.MarkPendingManual | backend/app/services.py:110-133 | the business commit comes before the status of the run |
| ProvisioningService.Service.WithoutLock | backend/app/domain/provisioning.py:712-764 | a lock that cannot be acquired is compensated like a failed gateway, after the rollback |
| ProvisioningService.Service.HandlePreGatewayFailure | backend/app/services.py:136-159 | rollback, then compensation: a disabled user fails run and purchase, another goes to manual review |
| ProvisioningService.Service.ConfirmDurably | backend/app/services.py:186-305 | flush, first commit, attempt, and the ending of each answer about a commit that raised |
| ProvisioningService.Service.ConfirmPaymentAndProvision | backend/app/services.py:308-516 | capacity before payment, payment before the saga, and every exception to its terminal record, for every script of faults and both compositions |
| XrayWriters.ApplyOutcomes | backend/app/providers/gateway/xray_file.py:163-361 | an apply returns with file, process and baseline at the candidate, or is rejected with nothing touched, or rolls back to the file from before, or degrades the baseline; it changes anything only over a file at its baseline |
| XrayWriters.EndingsExactly | backend/app/providers/gateway/xray_file.py:163-361 | by the state before and the answers of the environment alone: exact conditions for returning, rejecting, a verified rollback, a degraded baseline and a marker that could not be written |
| XrayWriters.FailedActivationIsRolledBack | backend/app/providers/gateway/xray_file.py:178-361 | what a failed activation leaves as file, process and record |
| XrayWriters.DyingApplyLeaves | backend/app/providers/gateway/xray_file.py:178-236 | what file, process and record are when the worker dies in each call of the activation |
| XrayWriters.BaselineExactly | backend/app/providers/gateway/xray_baseline.py:140-171 | a writer may proceed if and only if nothing was ever installed or the owned file in place is the recorded one |
| XrayWriters.RollbackReopensUnlessBaselineLanded | backend/app/providers/gateway/xray_file.py:249-336 | after a verified rollback the file is away from its baseline if and only if the apply got to save the baseline, the save took effect although it failed, and the candidate was not the file from before |
| XrayWriters.RollbackCanLeaveDrift | backend/app/providers/gateway/xray_file.py:224-247 | from every file at its baseline and every other owned candidate, faults that end in a verified rollback and a drifted file |
| XrayWriters.DegradedIsAbsorbing | backend/app/providers/gateway/xray_baseline.py:95-171 | with a degraded baseline no sequence of applies, promotions and renders changes file, process or baseline |
| XrayWriters.DriftEndsOnlyByPromotion | ops/gateway/render_xray_routes.py:154-209 | a file away from its baseline is not replaced by any apply or render; only a promotion ends the drift |
| XrayWriters.PromotionCertifiesTheFile | ops/gateway/promote_xray_baseline.py:20-46 | a promotion changes the baseline to the digest of the very file that is in place, or nothing |
| XrayWriters.PromotesExactly | ops/gateway/promote_xray_baseline.py:20-46 | exactly when a promotion records its digest, and that it changes nothing else |
| XrayWriters.RendersExactly | ops/gateway/render_xray_routes.py:154-209 | exactly when a render replaces the file, and that it changes nothing else |
| XrayWriters.XrayFileProvider.EnsureCurrentMatchesBaseline | backend/app/providers/gateway/xray_baseline.py:140-171 | accepts if and only if the file has the recorded fingerprint, or there is neither file nor baseline |
| XrayWriters.XrayFileProvider.ApplyCandidate | backend/app/providers/gateway/xray_file.py:163-247 | every failure after the install goes to the rollback, and the baseline is saved last |
| XrayWriters.XrayFileProvider.RollbackTo | backend/app/providers/gateway/xray_file.py:249-361 | a rollback that is not healthy degrades the baseline before it raises |
| RoutingSnapshot.FullDesiredRoutingSnapshot | backend/app/infra/provisioning_state.py:296-413 | the row loop computes the snapshot on which the theorems below rest, and stops at the first bad row |
| RoutingSnapshot.CollectExact | backend/app/infra/provisioning_state.py:350-407 | the dictionaries hold exactly the active rows, or a row is unsound |
| RoutingSnapshot.SnapshotExact | backend/app/infra/provisioning_state.py:296-413 | a snapshot exists if and only if the active rows are sound and distinct, and then has exactly their routes and outbounds, in tag order |
| RoutingSnapshot.UnroutedBindingIsInvisible | backend/app/infra/provisioning_state.py:327-348 | an egress binding of a subscription without an active route changes no snapshot |
| XrayComposition.ComposeXrayConfig | backend/app/providers/gateway/xray_composition.py:368-464 | composes if and only if every outbound and route passes its checks, and returns the document of that state |
| XrayComposition.ValidateRepoOwned | backend/app/providers/gateway/xray_composition.py:520-684 | accepts if and only if every section of the document has the repository-owned shape |
| XrayComposition.RoutesAsDesired | backend/app/domain/subscription_render.py:92-116 | first match over the rendered rules blocks private traffic, sends each principal to its outbound, and blocks everything else |
| XrayComposition.RoutesReadBack | backend/app/domain/subscription_render.py:92-116 | the routes can be read back from the rules exactly |
| XrayAcceptance.ComposesExactly | backend/app/providers/gateway/xray_composition.py:368-464 | a state composes if and only if every outbound is a socks server with a credential under a tag of its own and every route leads a visible principal to one |
| XrayAcceptance.ComposedDocumentIsText | backend/app/providers/gateway/xray_composition.py:368-464 | the composed document, field by field |
| XrayAcceptance.ValidatesExactly | backend/app/providers/gateway/xray_composition.py:520-684 | a document validates if and only if it has the repository-owned shape, spelled out field by field |
| XrayAcceptance.ValidDocumentsFailClosed | backend/app/providers/gateway/xray_composition.py:520-684 | every document that validates, by whomever it was written, blocks private traffic and every tcp or udp connection of a user no rule names |
| XrayAcceptance.ValidDocumentsServe | backend/app/providers/gateway/xray_composition.py:520-684 | and lets a user that a rule names out by exactly one socks server |
| XrayPipeline.SnapshotComposes | backend/app/providers/gateway/xray_composition.py:368-464 | whatever the snapshot returns composes, once its credentials are resolved and not blank |
| XrayPipeline.ComposedIsValidIffNoDirect | backend/app/providers/gateway/xray_composition.py:520-684 | a composed document validates if and only if no outbound is tagged DIRECT |
| XrayPipeline.DirectTagComposesButIsRefused | backend/app/providers/gateway/xray_composition.py:378-384 | a state with an outbound tagged DIRECT that composes |
| XrayPipeline.Pipeline | backend/app/infra/provisioning_state.py:296-413 | from the tables to the connection: the composed document is valid, decides every tcp or udp connection as the snapshot does, and its routes can be read back |
| XrayPipeline.ActiveRowIsServed | backend/app/infra/provisioning_state.py:350-407 | each active row sends its principal to one socks server at the row's endpoint, under the credential of the egress binding when it names one, and of the endpoint otherwise |
| UsageLedger.SecondGraceBranchIsUnreachable | backend/app/workers/accounting_sync.py:215-224 | the service end of a running subscription is the end of its current period, so inside quota and end the policy changes nothing |
| UsageLedger.PolicyExactly | backend/app/workers/accounting_sync.py:181-228 | the policy closes the current period and asks for a reconcile if and only if the quota is used or the end has come; a service in grace expires if and only if its grace is over; any other service stays as it is |
| UsageLedger.SyncClosesIff | backend/app/workers/accounting_sync.py:105-160 | a sync closes the period if and only if the deltas of the period, with the new one, have used the quota, or its end has come |
| UsageLedger.ServiceEndStartsGrace | backend/app/workers/accounting_sync.py:218-224 | the separate check of the service end, for any ledger: one grace length from that end |
| UsageLedger.SyncWritesItsDelta | backend/app/workers/accounting_sync.py:105-160 | the sample and the delta of a sync: bootstrap, difference, or the whole counter after a reset |
| UsageLedger.PolicyKeepsQueue | backend/app/workers/accounting_sync.py:181-228 | the expiry policy keeps closed, current and queued periods in id order and loses none |
| UsageLedger.PeriodMachine | backend/app/api/admin.py:113-200 | over every run from a new purchase: at most one ACTIVE period, a running service ends with it, cached totals are the sums of their deltas, exactly the reached thresholds are alerted, nothing is lost, and a period only goes from QUEUED to ACTIVE to CLOSED |
| UsageLedger.AlertsExactly | backend/app/workers/accounting_sync.py:44-77 | over every run: a period is alerted at 70, 90 or 100 percent if and only if that much of its quota is in its deltas |
| UsageLedger.PeriodsAreBought | backend/app/api/admin.py:113-186 | over every run: every period is a bought one, in order, with the bytes bought, and waits with the days bought |
| UsageLedger.StatusMovesExactly | backend/app/api/admin.py:188-200 | which steps besides a sync change the status of a service, and how |
| UsageLedger.Rollover | backend/app/workers/accounting_sync.py:184-214 | a period whose quota is used or whose end has come hands over to the oldest renewal for thirty days, or the service enters grace one grace length long |
| UsageLedger.GraceLasts | backend/app/workers/accounting_sync.py:225-228 | until its end no step takes a service out of grace, so EXPIRED comes no sooner than the grace length |
| UsageLedger.RenewalInGraceIsNeverPromoted | backend/app/workers/accounting_sync.py:184-205 | once in grace or expired, no step ever makes a queued period active |
| UsageLedger.RepairIsExact | backend/app/workers/accounting_sync.py:311-341 | from any cache one repair makes every total the sum of its deltas, changes nothing if and only if nothing was wrong, and a second repair changes nothing |
| UsageLedger.UsedIsWhatWasMetered | backend/app/workers/accounting_sync.py:311-341 | the cached totals of all periods add up to all deltas |
| UsageMeter.NeverOvercounts | backend/app/workers/accounting_sync.py:105-160 | for every history of traffic, resets and syncs that do not go back in time, the metered bytes are the last counter plus the counter before each observed drop, and at most the true traffic |
| UsageMeter.ExactWithoutResets | backend/app/workers/accounting_sync.py:105-160 | without a counter reset the metered bytes are the true traffic after every sync |
| UsageMeter.ExactIffEverySyncFindsIt | backend/app/workers/accounting_sync.py:105-160 | whatever the clock does, without resets the ledger never loses a byte, and meters none too many if and only if every sync found the last counter in its latest sample |
| UsageMeter.MeteredIsTrueTrafficIff | backend/app/workers/accounting_sync.py:105-160 | from a new purchase, right after a sync: the metered bytes are the true traffic if and only if every sync found the last counter in its latest sample, and exceed it otherwise |
| UsageMeter.ForwardClockFindsIt | backend/app/workers/accounting_sync.py:105-114 | sync times that do not go back make every sync find it |
| UsageMeter.ClockGoingBackOvercounts | backend/app/workers/accounting_sync.py:105-114 | a concrete history without resets that meters more than the true traffic, because a sync dated before its predecessor is not found by the next one |
| UsageSync.Session.LatestSample | backend/app/workers/accounting_sync.py:105-114 | the previous sample is the latest by time, and by id among equal times |
| UsageSync.Session.RecordUsageAlerts | backend/app/workers/accounting_sync.py:44-77 | each reached threshold is recorded once per period |
| UsageSync.Session.ApplyExpiryPolicy | backend/app/workers/accounting_sync.py:181-228 | rollover, grace and expiry in place, with the request for a reconcile |
| UsageSync.Session.SyncSubscriptionUsage | backend/app/workers/accounting_sync.py:80-178 | returns the difference to the previous counter, or the counter itself after a drop, and asks for a release exactly when the service is expired |
| UsageSync.Session.ReconcileUsagePeriodCache | backend/app/workers/accounting_sync.py:311-341 | returns the number of totals that were wrong |
| MihomoRules.MaskingKeepsMatches | backend/app/providers/forwarder/mihomo_projection.py:356-365 | clearing the host bits of a network keeps the addresses it matches (section 3.1 of RFC 4632) and is idempotent |
| MihomoRules.CanonicalizeDomain | backend/app/providers/forwarder/mihomo_projection.py:332-353 | a domain is canonical exactly when it is a host name of at most 253 characters with proper labels |
| MihomoRules.CanonicalDomainExactly | backend/app/providers/forwarder/mihomo_projection.py:332-353 | a domain is accepted if and only if, stripped and in lower case, it is a host name character by character, and then that is its canonical form |
| MihomoRules.CasesAgree | backend/app/providers/forwarder/mihomo_projection.py:259-353 | both cases of an ASCII letter are one letter, and nothing else has a case |
| Strings.StripExactly | backend/app/providers/forwarder/mihomo_projection.py:318-353 | stripping takes white space off both ends and nothing else |
| Strings.SpacesAre | backend/app/providers/forwarder/mihomo_projection.py:318-353 | what counts as white space, by code point |
| MihomoRules.CanonicalValueIsOneField | backend/app/providers/forwarder/mihomo_projection.py:314-365 | a canonical value has no comma and is not empty |
| MihomoRules.RuleLineRoundTrip | backend/app/providers/forwarder/mihomo_projection.py:471-485 | parsing a serialized rule gives back its kind, canonical value and target |
| MihomoRules.LineMeansItsRule | backend/app/providers/forwarder/mihomo_projection.py:471-485 | a line fires for exactly the destinations its desired rule means |
| MihomoRules.LinesMeanRules | backend/app/providers/forwarder/mihomo_projection.py:471-502 | first match over the lines equals first match over the desired rules with BLOCK read as REJECT, for every destination |
| NetworkText.CodecIsLawful | backend/app/providers/forwarder/mihomo_projection.py:356-365 | networks of both families print as text that parses back, one field of a rule: what the rule compiler assumes of network text |
| Ipv6Text.AddressRoundTrip | backend/app/providers/forwarder/mihomo_projection.py:356-365 | an IPv6 address printed with its longest run of zero groups left out parses back, for all addresses (section 2.2 of RFC 4291) |
| Ipv6Text.GapStandsForGroups | backend/app/providers/forwarder/mihomo_projection.py:356-365 | a gap in an IPv6 address stands for at least one group, and for all that are not written |
| Ipv6Text.LongestRunIsFirst | backend/app/providers/forwarder/mihomo_projection.py:356-365 | the zero groups that are left out are the first of the longest runs |
| Ipv6Text.LengthIsANumeral | backend/app/providers/forwarder/mihomo_projection.py:356-365 | at most one slash, and after it a decimal length |
| Ipv4Text.NetmaskMeansItsLength | backend/app/providers/forwarder/mihomo_projection.py:356-365 | a netmask reads as its prefix length |
| Ipv4Text.HostmaskMeansItsLengthIff | backend/app/providers/forwarder/mihomo_projection.py:356-365 | a hostmask reads as its prefix length if and only if the length is neither 0 nor 32 |
| Ipv4Text.LengthFollowsTheSlash | backend/app/providers/forwarder/mihomo_projection.py:356-365 | at most one slash, and after it a length or a mask |
| MihomoProjection.ValidateSections | backend/app/providers/forwarder/mihomo_projection.py:188-298 | accepts if and only if listeners, proxies, groups, targets, rules and DNS entries all satisfy their declared conditions |
| MihomoProjection.ValidateListeners | backend/app/providers/forwarder/mihomo_projection.py:196-219 | accepts if and only if every listener is well formed and names and bindings are pairwise distinct |
| MihomoProjection.ValidateRules | backend/app/providers/forwarder/mihomo_projection.py:259-297 | accepts if and only if there is exactly one MATCH, last and blocking, and every other target is defined |
| MihomoProjection.ComposeDocument | backend/app/providers/forwarder/mihomo_projection.py:399-503 | composes if and only if egress entries and sections are acceptable, and then every rule has its line |
| MihomoProjection.LeastStateComposes | backend/app/providers/forwarder/mihomo_projection.py:188-298 | a state with one listener and one blocking fallback composes, whatever the listener port but the mixed one |
| MihomoProjection.ComposedRulesPreserveMeaning | backend/app/providers/forwarder/mihomo_projection.py:443-502 | for every destination the composed rules decide as the rules that were written do, by their kind, value and target as text; what none of them is meant for is rejected |
| MihomoProjection.ComposedTextPreservesMeaning | backend/app/providers/forwarder/mihomo_projection.py:443-502 | the same for the text of IPv4 and IPv6 networks, without assumptions on text |
| MihomoProjection.ComposedLinesAreText | backend/app/providers/forwarder/mihomo_projection.py:471-485 | every line of the document, letter by letter: kind in capitals, canonical value, target with BLOCK as REJECT |
| MihomoProjection.ComposedIsClosed | backend/app/providers/forwarder/mihomo_projection.py:188-298 | every listener, rule and group target is defined in the document or is REJECT, never DIRECT |
| MihomoAcceptance.ComposesExactly | backend/app/providers/forwarder/mihomo_projection.py:188-298 | a state composes if and only if its listeners, names, groups, rules, DNS entries and egress entries satisfy conditions spelled out on their text and numbers |
| TrafficCollector.AddUsageSums | ops/forwarder/collect_mihomo_usage.py:78-108 | the same bytes are added to one day and to one of its hosts |
| TrafficCollector.NewConnectionLands | ops/forwarder/collect_mihomo_usage.py:68-146 | the bytes of a connection seen for the first time land in their own directions, on the residential side if and only if its chains hold the residential chain, on its host and day, and nowhere else |
| TrafficCollector.KnownConnectionLands | ops/forwarder/collect_mihomo_usage.py:147-163 | what the counters of a known connection have beyond their maxima lands where its first sighting put it |
| TrafficCollector.HostExactly | ops/forwarder/collect_mihomo_usage.py:68-70 | the host of a connection: name, address or UNKNOWN, without trailing dots, in lower case, cut to 253 characters |
| TrafficCollector.CollectorConserves | ops/forwarder/collect_mihomo_usage.py:111-191 | over any run of ingests and prunes, per side, host and direction, recorded bytes are the live maxima plus those at prune time, and daily totals are the sums over hosts |
| TrafficCollector.ReingestAddsNothing | ops/forwarder/collect_mihomo_usage.py:111-174 | ingesting a batch again with no prune between adds nothing, on whatever day |
| TrafficCollector.IngestReportsItsGrowth | ops/forwarder/collect_mihomo_usage.py:111-174 | the totals an ingest reports are the bytes by which the daily and the domain tables grew, per direction |
| TrafficCollector.PruneForgetsExactly | ops/forwarder/collect_mihomo_usage.py:186-191 | pruning keeps exactly the rows seen since the cutoff, in order, touches no recorded usage, and pruning again at an earlier cutoff removes nothing more |
| TrafficCollector.BuildReport | ops/forwarder/collect_mihomo_usage.py:194-251 | each total is the sum over the daily rows of its side and the sum of the reported days, and each day reports exactly its rows |
| TrafficCollector.Collector.IngestConnections | ops/forwarder/collect_mihomo_usage.py:111-174 | one transaction: a statement that raises leaves every table as it was; otherwise the returned totals count the identified connections and the bytes by which both tables grew |
| TrafficCollector.Collector.PruneConnectionMaxima | ops/forwarder/collect_mihomo_usage.py:186-191 | a row survives if and only if it was present and seen since the cutoff, and the order is kept |
| GatewayPrincipals.PhaseA | ops/reconciliation/gateway_principals.py:108-143 | accepts if and only if every row is clean, every account is distinct and resolves, and no two rewrites can meet |
| GatewayPrincipals.ConflictFreeIsSafeEverywhere | ops/reconciliation/gateway_principals.py:131-143 | the preflight condition holds if and only if the principals stay distinct whichever rows have been rewritten so far |
| GatewayPrincipals.Table.ConditionalUpdate | ops/reconciliation/gateway_principals.py:153-164 | rewrites the one row that still holds the expected principal, and counts it |
| GatewayPrincipals.Table.Rewrite | ops/reconciliation/gateway_principals.py:220-233 | ends at every target; one row moves at a time and the principals are distinct after every update; counts the rows that moved |
| GatewayPrincipals.Table.Reconcile | ops/reconciliation/gateway_principals.py:173-310 | nothing changes or every binding is at its looked-up target; an abort has changed something if and only if the rewrite completed, its commit landed without its acknowledgement, and a row had to move; a dry run writes nothing |
| GatewayPrincipals.AbortCanHaveLanded | ops/reconciliation/gateway_principals.py:220-246 | a table with one binding to move whose rewrite lands and is reported as an abort |
| SlidingWindow.RateBound | backend/app/providers/egress/webshare.py:102-120 | every window, wherever it opens, contains at most the limit of acquires |
| SlidingWindow.PrunedTellsFull | backend/app/providers/egress/webshare.py:110-114 | after pruning the deque is at its limit if and only if the last limit acquires are all inside the window |
| SlidingWindow.Limiter.Acquire | backend/app/providers/egress/webshare.py:110-120 | sleeps exactly when the window is full and exactly until its oldest event leaves, keeps the log spaced, and fails only for a limit below one |
| UniqueNames.CandidatesAreDistinct | backend/app/domain/subscription_render.py:123-131 | base, base-2, base-3 and so on are pairwise distinct |
| UniqueNames.WantedName | backend/app/domain/subscription_render.py:123-160 | the name a link asks for, from its own fields |
| UniqueNames.CandidatesAreNumbered | backend/app/domain/subscription_render.py:123-131 | a second link of a name is rendered as name-2 |
| UniqueNames.UniqueName | backend/app/domain/subscription_render.py:123-131 | returns the first free candidate within one try more than there are used names |
| UniqueNames.RenderNames | backend/app/domain/subscription_render.py:65-69 | the rendered names are pairwise distinct for every list of links, and a link keeps its own name exactly when no earlier proxy has it |

## Left out

- SQL, HTTP, file, process and lock mechanics: named locks are mutual exclusion, statements are updates of maps and sequences, and calls are answers of the environment.
- A `rollback()` that itself raises, and a RELEASE_LOCK that raises after the body returned: both are assumed not to happen, outside the Mihomo lock where an unconfirmed release is modelled.
- A commit that lands after the independent observer has read: a classified commit has landed or not by then.
- Hashes, encryption and JSON or YAML text: a fingerprint is the content it identifies, a document is a value.
- The materialization hash and the freshness of transports: materialized proxies are inputs of the compiler.
- The controller address, the secret reference and the other deployment constants of the Mihomo document, except the mixed port that listeners must not collide with.
- The `dialer-proxy` of an egress entry: the code does not check that the document defines it, and the model does not carry it.
- Which error code a validator reports when several conditions fail.
- Case folding, stripping and decimal digits beyond ASCII letters and Latin-1 whitespace.
- The scope identifiers of IPv6 addresses, and decimal digits of networks beyond ASCII.
- Confirming an order whose purchase intent is already in the queue: runs of the gateway queue contain new operations only (`GatewayQueue.NewOperation`), which is what keeps keys new; a release that is not new is covered by `GatewayReuse.ReleaseAgreesIff`.
- An operation id of a release that imitates the default text of another binding: `GatewayReuse.ReleaseAgreesIff` and `GatewayReuse.ReleaseIsFinalIff` hold for it, the runs of `GatewayTheorems.CommitFirstAgreement` contain none.
- Endpoint rows edited by an administrator: the modelled writers leave them alone (`GatewayRouting.ExecWrites`).
- Rows of subscriptions, orders, runs and jobs being deleted, and payloads written by anything but the enqueuing functions.
- The later life of an active subscription in the gateway queue: its expiry is part of the usage ledger.
- The allocation of endpoints, `release_endpoint`, and the quarantine of a released endpoint.
- DurablePurchase.FailedIsCompensated: the purchase call with its first attempt; an intent that recovery exhausts later fails its run in the gateway queue (`GatewayReconciler.Session.Fail`), with the accounting user as it was.
- A reload of the gateway outside an apply, and credentials that change between projections: `GatewayServing` keeps the credentials of its deployment fixed.
- UsageLedger.PeriodMachine: activation comes from the purchase saga only, and PROVISION_FAILED is reached from a service that is being provisioned or running, not from one whose grace has begun.
- `admin_sync_usage`, which overwrites a cached total without a delta: the repair theorem starts from an arbitrary cache instead.
- The recovery branches after an IntegrityError of a concurrent insert of a delta or an alert.
- Reconciling quota and expiry with the accounting provider, and the USAGE_SYNC job queue.
- An `XrayFileProvider` without a baseline store, and notification or audit callbacks, which are best effort.
- The ratio, the calendar days, the averages and the top hosts of the traffic report.
- The retries of a rate-limited transport call, which do not acquire the limiter again: acquires are bounded, not transport calls.
- The verification of a projection by its verifier, the loading of a Mihomo snapshot, and the fingerprint of a generation: the prepared candidate and the verdict are answers of the environment.
- A worker without a configured verifier, and blockers without a source job: the first raises before it claims, the second has no caller.
- Frontend, migrations, settings, mocks, probes and deployment scripts.
