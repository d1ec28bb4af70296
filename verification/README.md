# Platform integration: a verified model

This project models the core of the predictive-maintenance integration service: scheduled prediction runs and their
risk state, the closed loop of alarms and work orders that follows from it, and the provisioning of pilot equipment.
It proves what these parts promise over every run, with crashes, retries, lost provider responses and any interleaving
of the workers.

How the modules follow the service:

- `RiskStates`, `RiskHistory`: the hysteresis counters, and the risk row as a fold of the completions it accepts.
- `ClosedLoop` states every transaction on the aggregate of one risk key (risk row, alert episodes, cached alarm
  projection, work orders, operator actions, transactional outbox) as a function. `ClosedLoopStore` holds the same
  tables in an object and updates them in place; each of its methods is proved to do what the function says.
  `ClosedLoopInvariant`, `ClosedLoopEvolution`, `ClosedLoopTheorems` and `ClosedLoopHistory` prove what every
  transaction keeps and what holds over whole runs. `ClosedLoopOutcomes` says when each operation is accepted and what it
  leaves, condition by condition and column by column, without the functions that compute it.
- `ClosedLoopExamples`, `PredictionExamples`: concrete runs, of an event that no claim can start, of a loop that the
  verifier refuses, of a success that is reported as a lost lease, and of a run that is taken again.
- `AlarmDelivery` and `AlarmConvergence` put the alarm worker against ThingsBoard, `WorkOrderDelivery` (with the module
  `WorkOrderFeedback`) the work-order worker and the status polls against the CMMS, step by step. `AlarmRounds` and
  `WorkOrderRounds` say what one whole round leads to, given which provider calls get through; `DeliveryWorkers` has the
  workers' rounds as they run. `LateWrites` lets alarm writes land after the worker has gone on.
- `Acceptance`: the read-only verifier of one closed loop.
- `PredictionRuns`, `PredictionRunsTheorems`, `PredictionOutcomes`, `PredictionLoops`, `PredictionWorker`: run leases,
  pinned evidence, claims and their ends, and the drain loop of one tenant; every series of the tenant is shown to be a run of the closed loop, so the theorems over
  runs hold of it (`PredictionLoops.EverySeriesIsSound`). `TenantWorlds` does the same for the worlds with the providers.
- `Decimals`, `Sorting`, `DataQuality`, `QualityVerdicts`, `PredictionRequests` (with `PredictionRetries`),
  `RiskEvaluation`: canonical decimals, the quality gate, the request and its digest, and the evaluation of a forecast.
- `Provisioning`, `ProvisioningTables`, `ProvisioningApply`, `ProvisioningRecovery`, `ProvisioningDrive`,
  `ProvisioningService`: preflight, the tables' transactions and the resumable apply.

Five results are about what the code does not do.

- The documentation offers a verifier stage CLEARED, but a clear call leaves the alarm's details as they were last
  written, and the verifier compares them with the refreshed projection: no reachable state passes at that stage
  (`Acceptance.ClearedNeverVerifies`, with the play `ClosedLoopExamples.ClearedLoopIsRefused`), and the verifier passes
  exactly while the risk is on (`Acceptance.VerifierIsExact`).
- An outbox event whose eighth lease expires waits for a retry that no claim can start
  (`ClosedLoopHistory.ExhaustedEventIsStuck`, with the run `ClosedLoopExamples.ExhaustionHappens`); an abandoned claim
  returns exactly while an attempt is left (`ClosedLoopHistory.AbandonedClaimReturns`).
- An apply that is interrupted and resumed can meet an attribute conflict although nobody else writes: a write without
  answer or effect is followed by a read-back, which then shows what the device carried before
  (`ProvisioningRecovery.UsedDeviceConflicts`). This happens on devices with foreign attributes and on no others
  (`ProvisioningRecovery.NeverInConflict`), and a later apply still completes the plan
  (`ProvisioningRecovery.CompleteApplySucceeds`).
- A heartbeat that wakes after the claim was committed, but before its task is stopped, makes the worker raise a lost
  lease although the run succeeded (`PredictionExamples.SuccessReportedAsLost`). With a heartbeat that is steady until
  then this happens exactly on such a late beat (`PredictionWorker.LateBeatIsLost`).
- The alarm worker goes on after a call without an answer, and if that write lands later, even within its lease, an alert
  can get two alarms (`LateWrites.LateWriteDoubles`) and a cleared alarm can come back (`LateWrites.LateWriteReturns`).
  Convergence needs a worker that takes no claim while a write is under way (`LateWrites.PatienceIsNeeded`).

## Model

| member | source | states |
|---|---|---|
| RiskStates.CountersMeanSuffix | src/platform_integration/services/risk.py:29-44 | each counter is positive exactly when the latest round is of its kind, reaches two exactly when the latest adjacent pair is, and never are both positive |
| RiskStates.HysteresisMeaning | src/platform_integration/services/risk.py:29-44 | after any rounds the state is active exactly when the latest decision (a pair of equal rounds, or an operator closing the risk) is a risky pair |
| RiskStates.FlipNeedsPair | src/platform_integration/services/risk.py:32-44 | the state flips only at the second of two equal observed rounds, and to what they say |
| RiskStates.FlipsAreApart | src/platform_integration/services/risk.py:29-44 | two flips are at least two rounds apart |
| RiskHistory.ResetIsUnsuccessfulRound | src/platform_integration/services/prediction_runs.py:484-527 | what every failure path does to the risk row equals a round with `successful=False` |
| RiskHistory.CountersAreFold | src/platform_integration/services/prediction_runs.py:411-425 | for every order of completions the counters are the fold of exactly the accepted ones, and the row version counts them |
| RiskHistory.RiskMeansRiskyPair | src/platform_integration/services/prediction_runs.py:414-425 | the internal risk is on exactly when the latest decisive pair of accepted rounds was risky, and then fewer than two healthy rounds followed |
| RiskHistory.StepKeepsSlotOrder | src/platform_integration/services/prediction_runs.py:529-538 | a different accepted run has a strictly later slot, a retry of the same run keeps it |
| RiskHistory.SlotNeverGoesBack | src/platform_integration/services/prediction_runs.py:529-538 | the slot of the last accepted run never decreases |
| RiskHistory.NewestRoundWins | src/platform_integration/services/prediction_runs.py:411-538 | in every order of completions, successes committed without a mapping and failures included, the row ends at the newest slot among them: its last run is one that completed, and no completed run has a later slot |
| ClosedLoopInvariant.StepKeepsInv | src/platform_integration/services/closed_loop.py:46-236 | every transaction keeps the whole invariant of the aggregate |
| ClosedLoopInvariant.RequeueInv | src/platform_integration/services/closed_loop.py:187-236 | bumping the version, refreshing the cache, superseding and queueing restores the invariant after a change of the head alert |
| ClosedLoopEvolution.RunGrows | src/platform_integration/services/closed_loop_delivery.py:371-425 | over every run an alert keeps identity and version order (equal version means nothing changed), a closed alert its phase, an order its body and identity, an ended event its state, an action its record |
| ClosedLoopTheorems.InvIsCoherent | src/platform_integration/services/closed_loop.py:247-286 | the cached details equal the current alert and work order column by column, versions agree, and `desired_active`, `internal_active` and an active alert are the same thing |
| ClosedLoopTheorems.VersionsExact | src/platform_integration/services/closed_loop.py:187-236 | the alarm events carry exactly the versions 1 to the current one, each once |
| ClosedLoopTheorems.RankOf | src/platform_integration/services/closed_loop_delivery.py:498-525 | a pending alarm event is the current one, a superseded one is not, and the current one belongs to the projection |
| ClosedLoopTheorems.InvHasOneOpenOrder | src/platform_integration/services/closed_loop.py:117-141 | at most one work order per risk key is open, and an actionable alert means all of them are complete |
| ClosedLoopTheorems.InvPollsCreatedOrders | src/platform_integration/services/closed_loop_delivery.py:283-328 | each order has one create command, delivered exactly when the creation was saved, no poll before that, and a next poll exactly while it is created and not complete |
| ClosedLoopTheorems.EveryReachableState | src/platform_integration/services/closed_loop.py:46-100 | all of these hold after every run of rounds, operator actions, deliveries and polls |
| ClosedLoopTheorems.CompleteIsAbsorbing | src/platform_integration/services/closed_loop_delivery.py:371-425 | a complete work order never changes again, whatever replies are under way |
| ClosedLoopTheorems.NewestVersionWins | src/platform_integration/services/closed_loop_delivery.py:391-412 | the stored status is that of the greatest CMMS version seen under a lease, in every order of arrival |
| ClosedLoopHistory.OneEpisodePerRise | src/platform_integration/services/closed_loop.py:58-88 | alerts are numbered 1 to k, one per rising edge of the internal risk, and only the row's own alert can be active |
| ClosedLoopHistory.NewEpisodeIsActionable | src/platform_integration/services/closed_loop.py:117-167 | a rise opens an episode about its own run, actionable exactly for the pilot equipment without an open work order |
| ClosedLoopHistory.ClosedStaysClosed | src/platform_integration/services/maintenance_actions.py:433-467 | a closed alert never becomes active again |
| ClosedLoopHistory.AcceptedIsRecorded | src/platform_integration/services/maintenance_actions.py:317-353 | an accepted action was not on record before and is afterwards, with the reply the caller got |
| ClosedLoopHistory.RepeatedActionReplays | src/platform_integration/services/maintenance_actions.py:270-281 | at most one create and one close per alert: a later call with the key changes nothing, replays the result to the same actor and request, and conflicts otherwise |
| ClosedLoopHistory.ApprovedIsStored | src/platform_integration/services/maintenance_actions.py:205-234 | an accepted create that confirmed a previewed hash met the alert at the previewed version, with the previewed asset, company and ThingsBoard tenant, and stored the previewed body for good |
| ClosedLoopOutcomes.CloseIsExact | src/platform_integration/services/maintenance_actions.py:389-483 | a close is newly accepted exactly with a reason, its key, an active alert that owns the projection, no close on record and the alert's own version; then the alert is closed by hand, the counters start over, the record is written and the clear is queued, and every refusal has its own condition and changes nothing |
| ClosedLoopOutcomes.ConfirmedCloseIsCurrent | src/platform_integration/services/maintenance_actions.py:433-436 | over every run a close that confirms the version shown in an earlier state is accepted exactly when the alert is unchanged since, active and without a close on record |
| ClosedLoopOutcomes.CreateIsExact | src/platform_integration/services/maintenance_actions.py:236-387 | a create is newly accepted exactly when projection, alarm, mapping and tenant have not drifted, the alert is actionable with an asset and at the expected version, and the confirmed hash is that of the plan as it is; then order, command, alert, record and alarm change together, and every refusal has its own condition |
| ClosedLoopOutcomes.PreviewIsExact | src/platform_integration/services/maintenance_actions.py:70-73 | a preview is answered exactly for an actionable alert that owns the projection with the recorded alarm and has an asset |
| ClosedLoopOutcomes.PreviewedIsAccepted | src/platform_integration/services/maintenance_actions.py:283-315 | over every run a previewed plan confirmed later by the same operator is accepted exactly while the alert is as it was shown, alarm, mapping and tenant have not drifted, and no create is on record |
| ClosedLoopOutcomes.StatusIsText | src/platform_integration/services/closed_loop_delivery.py:528-538 | a status has a maintenance state exactly if it is one of the four known ones, and the column text of that state is WORK_ORDER_ with the status |
| ClosedLoopOutcomes.StoredStatusIsShown | src/platform_integration/services/closed_loop_delivery.py:391-412 | over every run an order and its alert are in one state: WORK_ORDER_CREATING exactly before the creation is saved, and after that the text of the stored status, which the cached details show as well |
| ClosedLoopOutcomes.SaveIsExact | src/platform_integration/services/closed_loop_delivery.py:283-328 | saving a creation under its claim with a known status stores the reply, the state of that text, the poll in five minutes unless complete, the alert, the delivery and the refreshed alarm, and else changes nothing |
| ClosedLoopOutcomes.PollIsExact | src/platform_integration/services/closed_loop_delivery.py:371-425 | each answer of a poll has its exact condition: lost lease, older version, equal version with equal or other status, and a newer version with a known or unknown status; an applied one stores the reply and the state of its text in order and alert, the others only release the lease or change nothing |
| ClosedLoopOutcomes.OngoingRoundRefreshes | src/platform_integration/services/closed_loop.py:58-100 | over every run, while the risk is on, a round that counts gives the current alert its own run and forecast and the next version, clears it exactly when the risk goes off, touches no other alert, and queues the alarm showing it |
| ClosedLoopOutcomes.RisingRoundProjects | src/platform_integration/services/closed_loop.py:58-236 | over every run a round that raises the risk appends an alert and moves the projection to it: on the mapped device, without an alarm id, desired, at the next version, with the waiting events of both alerts superseded |
| ClosedLoopOutcomes.RefusedRoundRests | src/platform_integration/services/closed_loop.py:88-90 | over every run a round that does not count, or that would be projected without a mapping, changes nothing |
| ClosedLoopOutcomes.CalmRoundOnlyCounts | src/platform_integration/services/closed_loop.py:58-61 | a round that counts and leaves the risk off only moves the risk row |
| ClosedLoopHistory.ClaimsAreBounded | src/platform_integration/services/closed_loop_delivery.py:104-122 | an event's attempt counter is the number of its claims, and at most eight |
| ClosedLoopHistory.AbandonedClaimReturns | src/platform_integration/services/closed_loop_delivery.py:88-122 | an abandoned claim is claimable again exactly after thirty seconds with an attempt left |
| ClosedLoopHistory.BackoffIsNeverCapped | src/platform_integration/services/closed_loop_delivery.py:191-213 | a retry waits two to the power of its attempts, at most 128 seconds, and the eighth failure is the dead letter |
| ClosedLoopHistory.ExhaustedEventIsStuck | src/platform_integration/services/closed_loop_delivery.py:88-112 | an event waiting with its eight attempts used never runs again and can only be superseded |
| ClosedLoopExamples.ExhaustionHappens | src/platform_integration/services/closed_loop_delivery.py:88-122 | a run of two risky rounds and nine claims, eight of them lost to their leases, reaches the event that waits with its eight attempts used |
| ClosedLoopExamples.NeverDelivered | src/platform_integration/services/closed_loop_delivery.py:104-112 | however that run goes on, the event is never delivered |
| ClosedLoopStore.FirstClaimable | src/platform_integration/services/closed_loop_delivery.py:104-116 | the claimable event with the earliest time, the oldest among equals, or none exactly when there is none |
| ClosedLoopStore.Store.RequeueProjection | src/platform_integration/services/closed_loop.py:193-236 | in place: version, details, superseded events and the new event together |
| ClosedLoopStore.Store.ReplaceProjectionRow | src/platform_integration/services/closed_loop.py:169-236 | in place: the projection moves to the alert, retiring the waiting events of both alerts |
| ClosedLoopStore.Store.CreateAlert | src/platform_integration/services/closed_loop.py:102-167 | in place: the alert of a new episode |
| ClosedLoopStore.Store.ApplyTransition | src/platform_integration/services/closed_loop.py:46-100 | in place: opens, refreshes or clears the episode, or rolls back without a mapping |
| ClosedLoopStore.Store.Succeed | src/platform_integration/services/prediction_runs.py:411-439 | in place: the newest round advances the counters and is projected, atomically |
| ClosedLoopStore.Store.ResetRiskCounters | src/platform_integration/services/prediction_runs.py:484-527 | in place: a failed newest round resets the counters |
| ClosedLoopStore.Store.QueueAlarmRefresh | src/platform_integration/services/maintenance_actions.py:485-535 | in place: the refresh after an operator action |
| ClosedLoopStore.Store.CreateOrder | src/platform_integration/services/maintenance_actions.py:236-387 | in place: accepted exactly as `CreateIsExact` says, with all its effects, all refusals in order, and the replay |
| ClosedLoopStore.Store.CloseAlert | src/platform_integration/services/maintenance_actions.py:389-483 | in place: accepted exactly for the current version of an active alert and as `CloseIsExact` says, with all its effects, all refusals in order, and the replay |
| ClosedLoopStore.Store.ClaimNextEvent | src/platform_integration/services/closed_loop_delivery.py:81-131 | expires stale leases and claims the due event that is available first, the oldest among equals; it claims one exactly when some event waits with its time come or has an expired lease, with an attempt left |
| ClosedLoopStore.Store.ReadAlarm | src/platform_integration/services/closed_loop_delivery.py:133-156 | the projection, exactly while the claim is held and the alert owns it |
| ClosedLoopStore.Store.ReadOrder | src/platform_integration/services/closed_loop_delivery.py:158-183 | the alert and stored request body, exactly while the claim is held |
| ClosedLoopStore.Store.RetryLater | src/platform_integration/services/closed_loop_delivery.py:191-213 | in place: back-off or dead letter |
| ClosedLoopStore.Store.Finish | src/platform_integration/services/closed_loop_delivery.py:234-256 | in place: ends a held claim and nothing else |
| ClosedLoopStore.Store.SaveAlarmIdentity | src/platform_integration/services/closed_loop_delivery.py:258-281 | in place: records the alarm id with the delivery, or raises and changes nothing |
| ClosedLoopStore.Store.SaveCreatedOrder | src/platform_integration/services/closed_loop_delivery.py:283-328 | in place: the creation, the alert, the delivery and the refreshed projection together, in the state whose text tells the status, or nothing for an unknown status |
| ClosedLoopStore.Store.ClaimStatusPoll | src/platform_integration/services/closed_loop_delivery.py:330-369 | leases for thirty seconds a due work order with the earliest poll time of all that are due, exactly when some created, incomplete order is due without a live lease |
| ClosedLoopStore.Store.ApplyPolledStatus | src/platform_integration/services/closed_loop_delivery.py:371-425 | in place: stale, conflicting, repeated and new versions each exactly when they are, the state whose text tells an applied status in order and alert, and the unknown status that rolls back |
| ClosedLoopStore.Store.FailStatusPoll | src/platform_integration/services/closed_loop_delivery.py:427-442 | in place: releases the lease and schedules the next poll in five minutes |
| AlarmDelivery.MatchesAmong | src/platform_integration/clients/thingsboard.py:316-360 | the active alarms of the device with the identity asked for, each once |
| AlarmConvergence.LookUpIsExact | src/platform_integration/clients/thingsboard.py:344-360 | in every reachable world the look-up is unambiguous, finds the alert's active alarm if there is one, and finding none while active means the alert has no alarm |
| AlarmConvergence.NoIdentityConflict | src/platform_integration/services/closed_loop_delivery.py:274-276 | saving an alarm id never meets another id |
| AlarmConvergence.Convergence | src/platform_integration/services/closed_loop_delivery.py:584-631 | with claims, reads, writes and finishes interleaved with any transactions, crashes and lost responses: whenever the current event is delivered, the provider alarm is active exactly when desired and shows the projection's details while active |
| AlarmConvergence.OneAlarmEver | src/platform_integration/services/closed_loop_delivery.py:603-628 | over every such play an alert gets at most one alarm |
| AlarmConvergence.PlayIsRun | src/platform_integration/services/closed_loop_delivery.py:584-631 | every play of the alarm worker is a run of the aggregate |
| AlarmConvergence.QuietDelivery | src/platform_integration/services/closed_loop_delivery.py:584-631 | one undisturbed round delivers the current event from any reachable world, after crashes too |
| AlarmRounds.RoundSettles | src/platform_integration/services/closed_loop_delivery.py:584-631 | a round on a claimable event ends it: superseded exactly when its alert does not own the projection, delivered exactly when the calls got through (a clear of nothing needs only the look-up), and else waiting two to the power of its attempts or dead at the eighth; delivered means ThingsBoard shows the projection under the recorded id or no active alarm of the alert, an effective call leaves what was sent even unanswered, and nothing else changes |
| LateWrites.PatientConverges | src/platform_integration/services/closed_loop_delivery.py:603-630 | with writes that land at any later time or never, a worker that claims nothing while a write of its own is under way keeps one alarm per alert and convergence, before and after the write lands |
| LateWrites.LateWriteDoubles | src/platform_integration/services/closed_loop_delivery.py:603-630 | a play in which a retry overtakes an unanswered first write leaves two alarms for one alert, and later look-ups are ambiguous |
| LateWrites.LateWriteReturns | src/platform_integration/services/closed_loop_delivery.py:603-630 | a play in which an unanswered upsert lands after the clear of a closed risk, still within its lease, leaves the alarm active although the clear was delivered |
| LateWrites.PatienceIsNeeded | src/platform_integration/services/closed_loop_delivery.py:133-156 | convergence in every play with late writes holds exactly under the rule that no claim is taken while a write is under way |
| WorkOrderDelivery.FindOrder | src/platform_integration/clients/cmms.py:191-205 | the order with the external reference, or none exactly when there is none |
| WorkOrderFeedback.OneGenuineOrder | src/platform_integration/services/closed_loop_delivery.py:640-673 | over every history the CMMS gets at most one work order per alert, with exactly the stored body, and every recorded id, status and version was written by the CMMS for that alert |
| WorkOrderFeedback.IntentIsNeverLost | src/platform_integration/services/closed_loop_delivery.py:645-667 | a claimed create command always finds its intent, and no response is rejected for a foreign identity |
| WorkOrderFeedback.PollCatchesUp | src/platform_integration/services/closed_loop_delivery.py:391-425 | no poll meets a version conflict, and one that shows the newest entry leaves exactly that entry recorded |
| WorkOrderFeedback.QuietOrder | src/platform_integration/services/closed_loop_delivery.py:640-673 | from any reachable plant one undisturbed round on a claimable create command delivers it with the order recorded at its newest entry, posting only when none was there; an unknown status dead-letters it |
| WorkOrderRounds.OrderRoundSettles | src/platform_integration/services/closed_loop_delivery.py:640-673 | a round on a claimable command: the CMMS gains an order, with the stored body, exactly when it had none, the company is the tenant's and the create took effect; a worker that learns of the order records its newest entry with alert, alarm and delivery, or buries the command for an unknown status; a foreign company buries it, and everything else waits or ends at the eighth attempt |
| WorkOrderFeedback.ApprovedIsSent | src/platform_integration/services/maintenance_actions.py:310-353 | whatever the CMMS ever holds for an alert names the key, asset, alarm and provenance of the approved preview |
| DeliveryWorkers.SendAlarm | src/platform_integration/services/closed_loop_delivery.py:617-628 | the upsert or clear call with its possible outcomes |
| DeliveryWorkers.DeliverAlarm | src/platform_integration/services/closed_loop_delivery.py:584-631 | one round of the alarm worker: it claims exactly when an alarm event is due, and from a world of a play the claimed event ends as `RoundSettles` says for the calls that get through |
| DeliveryWorkers.ObtainOrder | src/platform_integration/services/closed_loop_delivery.py:655-660 | looks up before it posts: the newest state of the order that is there, or a new order with the body exactly if none was there and the create took effect |
| DeliveryWorkers.DeliverOrder | src/platform_integration/services/closed_loop_delivery.py:640-673 | one round of the work-order worker: it claims exactly when a create command is due, and from a plant of a history the claimed command ends as `OrderRoundSettles` says for company and calls |
| DeliveryWorkers.PollStatus | src/platform_integration/services/closed_loop_delivery.py:682-720 | claims the first due order exactly when one is due; a wrong or unknown company or no usable answer within three look-ups releases it for five minutes, and the first answer that repeats what was sent and has a known status is applied |
| DeliveryWorkers.FirstAnswerIsFirst | src/platform_integration/services/closed_loop_delivery.py:696-704 | the answer used is the first that shows the order, with every try before it failed |
| Acceptance.TallyOutbox | src/platform_integration/services/closed_loop_acceptance.py:169-180 | counts every status, zero exactly for statuses that do not occur |
| Acceptance.LocalIdentityExact | src/platform_integration/services/closed_loop_acceptance.py:295-349 | on a reachable aggregate the local identity rules pass exactly when the mapping still names the asset of the approved order |
| Acceptance.SettledIsDelivered | src/platform_integration/services/closed_loop_acceptance.py:351-356 | a settled outbox of the tenant, other series included, has delivered the current alarm event |
| Acceptance.AlarmCheckExact | src/platform_integration/services/closed_loop_acceptance.py:358-381 | while the projection's event is delivered the ThingsBoard comparison passes exactly when the risk is on and the mapping names the projection's device |
| Acceptance.VerifierIsExact | src/platform_integration/services/closed_loop_acceptance.py:259-293 | for every play that goes on between the first read, the providers and the second read, with any events of other series in the count, the verifier accepts exactly when the first read shows a loop whose events are all delivered or superseded, whose risk is on, whose mapping names the projection's device and the order's asset, and whose order the CMMS shows column by column, when the second read equals it, and when the stage is none or that of the work-order status |
| Acceptance.ClearedNeverVerifies | src/platform_integration/services/closed_loop_acceptance.py:456-465 | the stage CLEARED is never accepted, in no reachable world and whatever happens between the reads |
| ClosedLoopExamples.ClearedLoopIsRefused | src/platform_integration/services/closed_loop_acceptance.py:358-381 | a play from the first risky round to the cleared alarm of a completed order ends readable, settled, consistent and at stage CLEARED, and is refused for its alarm details |
| PredictionRuns.PickEligible | src/platform_integration/repositories/prediction_runs.py:102-116 | the eligible unlocked run of the earliest slot, or none exactly when there is none |
| PredictionRuns.InactiveUsesSlack | src/platform_integration/services/prediction_runs.py:198-205 | failing a run without a binding uses up attempts, which is why the claiming loop ends |
| PredictionRunsTheorems.ClaimNextGoesOn | src/platform_integration/services/prediction_runs.py:163-239 | claiming hands out a held run with an active binding and uses attempts, or leaves nothing eligible |
| PredictionOutcomes.EligibleRuns | src/platform_integration/repositories/prediction_runs.py:102-116 | in every history a run is eligible exactly when nothing holds it, it has neither succeeded nor been skipped, fewer than three attempts are used and its quarter of an hour lasts; equivalently when it is neither final nor running and inside its slot |
| PredictionOutcomes.SweptRunReturns | src/platform_integration/repositories/prediction_runs.py:159-176 | a sweep takes exactly the runs whose lease is over, and such a run is eligible exactly while an attempt and its slot are left |
| PredictionOutcomes.AbandonedRunReturns | src/platform_integration/repositories/prediction_runs.py:95-125 | a claim whose worker dies is eligible again exactly after a sweep at least ten minutes later, while an attempt and its slot are left |
| PredictionOutcomes.ClaimIsExact | src/platform_integration/services/prediction_runs.py:163-239 | the claim is the first free run with an active binding, leased for ten minutes with one more attempt, and none exactly when there is none; the runs before it without a binding are failed for good, and every other run is left alone |
| PredictionOutcomes.SearchStartsOver | src/platform_integration/services/prediction_runs.py:198-205 | a search starts the counters over exactly in the series of which it failed a newest run |
| PredictionOutcomes.SweepIsExact | src/platform_integration/services/prediction_runs.py:244-269 | a sweep makes stale exactly the runs whose lease is over, and starts the counters over exactly in the series that lost a newest run |
| PredictionOutcomes.FailIsExact | src/platform_integration/services/prediction_runs.py:278-296 | a held run fails with its code, keeping its attempts exactly if the failure is transient, and its round counts as unobserved; any other is a lost lease |
| PredictionOutcomes.PinIsExact | src/platform_integration/services/prediction_runs.py:298-332 | a pin within the limits is written or found equal, and any other on a pinned run is drift for good |
| PredictionOutcomes.SkipIsExact | src/platform_integration/services/prediction_runs.py:334-372 | a skip of an unpinned run keeps its summary and uses up its attempts, and of a pinned one is drift for good |
| PredictionOutcomes.SuccessIsExact | src/platform_integration/services/prediction_runs.py:374-439 | exactly the pinned evidence within the limits succeeds, and hands the run's own identity with the pinned profile, the threshold and its forecast to the closed loop; without a mapping that is needed everything is rolled back |
| PredictionOutcomes.RollsBackIsExact | src/platform_integration/services/closed_loop.py:58-90 | a success is rolled back exactly when the mapping is missing and an accepted round is on or switches the risk on |
| PredictionRunsTheorems.LeaseMachine | src/platform_integration/repositories/prediction_runs.py:68-237 | in every history a run is running exactly when it has an owner and an expiry, has at most three attempts, one row per slot, and succeeded only with pinned evidence |
| PredictionRunsTheorems.EvidenceIsFrozen | src/platform_integration/services/prediction_runs.py:298-332 | pinned evidence is never replaced, and a final run never changes |
| PredictionRunsTheorems.EndsAsPinned | src/platform_integration/services/prediction_runs.py:334-409 | only the pinned evidence succeeds; a later quality failure or other request of a pinned run is terminal drift that keeps the evidence |
| PredictionRunsTheorems.LeaseLasts | src/platform_integration/repositories/prediction_runs.py:142-176 | a claim is stale exactly from ten minutes after its last refresh |
| PredictionRunsTheorems.AtMostThreeClaims | src/platform_integration/repositories/prediction_runs.py:95-125 | no run is handed out more than three times |
| PredictionRunsTheorems.DrainIsBounded | src/platform_integration/workers/prediction.py:33-51 | claims are at most the sum of the attempts left, plus three per slot created meanwhile |
| PredictionLoops.LoopsAreRuns | src/platform_integration/services/prediction_runs.py:57-69 | in every history the loop of a series is a run of the closed loop, made of the transactions its runs and workers committed |
| PredictionLoops.SlotsAlwaysOk | src/platform_integration/repositories/prediction_runs.py:21-66 | the loop of a series knows exactly its own runs with their slots |
| PredictionLoops.EverySeriesIsSound | src/platform_integration/services/prediction_runs.py:374-439 | so every series of every history is coherent, loses no intent, has one open order, folds its accepted completions, and last counted one of its own runs |
| TenantWorlds.TenantConverges | src/platform_integration/services/closed_loop_delivery.py:584-631 | in every history of a tenancy and its alarm worker each series has at most one alarm per alert, and ThingsBoard shows the projection whenever its current event is delivered |
| TenantWorlds.TenantOrdersAreGenuine | src/platform_integration/services/closed_loop_delivery.py:640-673 | in every history of a tenancy and its work-order workers each series has at most one CMMS order per alert, with the stored body and genuine statuses |
| PredictionWorker.ShadowStore.Schedule | src/platform_integration/repositories/prediction_runs.py:21-66 | one run per slot: inserts it waiting and unclaimed exactly when the slot has none, or finds the one there |
| PredictionWorker.ShadowStore.TakeNext | src/platform_integration/services/prediction_runs.py:163-239 | in place: the claiming loop with exactly the outcome of `ClaimIsExact`, stale and failed runs with an attempt and a slot left included |
| PredictionWorker.ShadowStore.MarkFailed | src/platform_integration/repositories/prediction_runs.py:178-207 | in place: only the held run fails, for good unless it may be retried |
| PredictionWorker.ShadowStore.Beat | src/platform_integration/repositories/prediction_runs.py:142-157 | in place: refreshes an unexpired lease of its owner |
| PredictionWorker.ShadowStore.Sweep | src/platform_integration/services/prediction_runs.py:244-269 | in place: exactly the runs whose lease is over fail as stale, and exactly the series that lost a newest run start over |
| PredictionWorker.ShadowStore.EndFailed | src/platform_integration/services/prediction_runs.py:278-296 | in place: failure and reset together, or the lost lease |
| PredictionWorker.ShadowStore.PinRequest | src/platform_integration/services/prediction_runs.py:298-332 | in place: first pin, equal pin, drift |
| PredictionWorker.ShadowStore.EndSkipped | src/platform_integration/services/prediction_runs.py:334-372 | in place: skip, or drift of a pinned run |
| PredictionWorker.ShadowStore.EndSucceeded | src/platform_integration/services/prediction_runs.py:374-439 | in place: success with its projection, drift, or a rolled-back projection |
| PredictionWorker.ShadowStore.HasEligible | src/platform_integration/repositories/prediction_runs.py:127-140 | true exactly when some run is free with an attempt and its slot left |
| PredictionWorker.TransientMeansEligible | src/platform_integration/workers/prediction.py:116-124 | a provider outage leaves the run eligible at that moment exactly when the rule calls it transient |
| PredictionWorker.Process | src/platform_integration/workers/prediction.py:42-157 | one claim ends as its providers and evaluation answer, beside a heartbeat that stops at the first lost lease and is raised afterwards |
| PredictionWorker.ClaimEndsAsAnswered | src/platform_integration/workers/prediction.py:93-157 | a held claim with a quiet heartbeat ends as its providers answer: each answer has its status, code and attempts, only THINGSBOARD_UNAVAILABLE and PDM_UNAVAILABLE are kept for a retry and only while an attempt and the slot last, another request than the pinned one is drift, and a success without the mapping it needs raises |
| PredictionWorker.ProcessedIsOps | src/platform_integration/workers/prediction.py:93-157 | processing a claim beside its heartbeat is a sequence of the store's operations on that claim |
| PredictionWorker.SteadyClaimIsKept | src/platform_integration/workers/prediction.py:53-69 | a heartbeat that never pauses for ten minutes until the claim is ended changes nothing about how it ends, and is not lost unless it beats after that |
| PredictionWorker.LateBeatIsLost | src/platform_integration/workers/prediction.py:41-50 | when a claim with such a heartbeat ended without an error, a lost lease is raised exactly when the task woke once more after the end, and what was committed stays |
| PredictionExamples.SuccessReportedAsLost | src/platform_integration/workers/prediction.py:41-69 | a history from a new tenancy in which a run succeeds beside steady beats and the next beat reports its lease as lost |
| PredictionWorker.RunOnce | src/platform_integration/workers/prediction.py:30-51 | the drain loop is the one its answers determine; it claims at most the attempts left and at most 1000 times, leaves nothing eligible when it ends normally, stops only when asked to, raises only what processing or heartbeat raised, exceeds its limit only with work left, and unless it raises holds no claim when it ends |
| PredictionWorker.DrainIsSound | src/platform_integration/workers/prediction.py:30-51 | over every drain with any answers, beats and clock: all of that, and the drain is a history of the store's operations, so the theorems over histories hold of it |
| PredictionExamples.LostRunIsTakenAgain | src/platform_integration/repositories/prediction_runs.py:95-125 | a run claimed at 1000 by a worker that dies is freed by the sweep at 1600 and taken again at 1650, inside its slot |
| Decimals.ReadIsExact | src/platform_integration/services/data_quality.py:11-11 | a text is read with these parts exactly when the parts are proper and print to it |
| Decimals.HalfEvenIsNearest | src/platform_integration/services/data_quality.py:45-45 | rounding errs by at most half a unit and is even at the half |
| Decimals.NearestIsHalfEven | src/platform_integration/services/data_quality.py:45-45 | nothing else is that near |
| Decimals.ParsePrinted | src/platform_integration/services/data_quality.py:38-50 | what is printed parses back to the number printed |
| Decimals.CanonicalIsIdempotent | src/platform_integration/services/data_quality.py:38-50 | canonicalising twice is canonicalising once |
| Decimals.PrintIsInjective | src/platform_integration/services/data_quality.py:50-50 | equal canonical texts mean equal values |
| Decimals.NoNegativeZero | src/platform_integration/services/data_quality.py:48-50 | a minus is printed exactly for negative values |
| Decimals.CanonicalKeepsScaled | src/platform_integration/services/data_quality.py:38-50 | a text at the scale is left alone unless it is a negative zero |
| Decimals.RoundIsMonotone | src/platform_integration/services/data_quality.py:45-45 | rounding respects the order of values with any numbers of places |
| Decimals.RoundIsNearest | src/platform_integration/services/data_quality.py:38-50 | the canonical value is within half a unit of the scale of the text's value, even at the half |
| DataQuality.Evaluate | src/platform_integration/services/data_quality.py:54-113 | the loop over the records gives the verdict of the specification |
| DataQuality.ScanIsExact | src/platform_integration/services/data_quality.py:71-90 | a scan succeeds exactly when every record passes and none repeats, and finds all of them |
| DataQuality.EvaluationIgnoresOrder | src/platform_integration/services/data_quality.py:71-113 | a list is accepted exactly when any permutation is, with the same points and summary |
| DataQuality.AcceptedMeansGood | src/platform_integration/services/data_quality.py:61-113 | acceptance implies a minute-aligned window, distinct plus missing buckets 66, at least 60 present, no three in a row missing, and canonical, strictly sorted points inside |
| QualityVerdicts.AcceptanceIsExact | src/platform_integration/services/data_quality.py:61-113 | a window is accepted exactly if it is one of 66 minutes whose records are inside it, on a minute, in the unit and decimal, no two of them say the same, at most six minutes have no record and no three in a row |
| QualityVerdicts.RejectionHasCause | src/platform_integration/services/data_quality.py:61-101 | every rejection code has its cause in the window |
| QualityVerdicts.RejectionCounts | src/platform_integration/services/data_quality.py:115-131 | the summary of a rejection counts the records before the one at fault, or all of them when minutes are missing, with their minutes and the rest of the window |
| QualityVerdicts.AcceptedKeepsAll | src/platform_integration/services/data_quality.py:88-113 | an accepted window keeps exactly its records, each rounded and in canonical form, and counts them and the missing minutes |
| QualityVerdicts.AcceptedInOrder | src/platform_integration/services/data_quality.py:102-113 | the kept records are in order of time, and occupied and missing minutes are all 66 |
| PredictionRequests.History | src/platform_integration/services/prediction_requests.py:93-115 | the history has exactly the points with their ids, sorted by time and id |
| PredictionRequests.BuilderMeetsContract | src/platform_integration/contracts/canonical.py:11-43 | the builder's digest equals the contract's digest of its own request |
| PredictionRequests.PrepareIsExact | src/platform_integration/services/prediction_requests.py:39-82 | a request is prepared exactly for an acceptable window; it carries the binding's columns and the 66 minutes before the slot, and its history is exactly the records of the telemetry in canonical form with the ids of their source |
| PredictionRequests.DigestIsExact | src/platform_integration/services/prediction_requests.py:69-82 | the digest is over the binding's columns, the window and the history, and the correlation id is no part of it |
| PredictionRequests.PrepareIgnoresOrder | src/platform_integration/services/prediction_requests.py:39-82 | the order of the telemetry and the correlation id do not change the digest, summary or history |
| PredictionRetries.RetryNeverDrifts | src/platform_integration/services/prediction_runs.py:298-332 | a pinned run that is retried on the same data under the same binding pins without any change |
| RiskEvaluation.AmountOf | src/platform_integration/services/risk.py:52-63 | reading a text through its canonical form gives its rounded value |
| RiskEvaluation.Walk | src/platform_integration/services/risk.py:58-67 | the loop reads every point, or stops at the first that is misplaced, of another unit or unreadable, and keeps sum, count and extremes |
| RiskEvaluation.Evaluate | src/platform_integration/services/risk.py:48-77 | an error exactly for a forecast of another length, a point off its minute, in another unit or not a decimal, or an unreadable threshold; otherwise, of the rounded values, risky exactly with two adjacent ones strictly beyond the threshold on the binding's side, the number of those beyond it, minimum, maximum and rounded mean |
| RiskEvaluation.RiskIsExact | src/platform_integration/services/risk.py:65-73 | an ABOVE binding is risky exactly with two adjacent values above its threshold and a BELOW binding with two below, and the crossings are the values on that side |
| RiskEvaluation.MeanIsBetween | src/platform_integration/services/risk.py:69-77 | the rounded mean lies between minimum and maximum |
| RiskEvaluation.ManyCrossingsAreRisky | src/platform_integration/services/risk.py:65-73 | more crossings than half the points rounded up force risky |
| RiskEvaluation.SteadyForecastIsCalm | src/platform_integration/services/risk.py:65-68 | values that only touch the threshold never cross it |
| Provisioning.RowReadsBack | src/platform_integration/repositories/provisioning.py:60-77 | a stored measurement reads back as itself exactly when its threshold text is canonical at its scale |
| Provisioning.ProfilesReadBack | src/platform_integration/services/provisioning.py:63-118 | every profile survives the database |
| Provisioning.ReadMappings | src/platform_integration/repositories/provisioning.py:206-225 | accepts exactly fitting rows and fills both dictionaries |
| Provisioning.CountRows | src/platform_integration/repositories/provisioning.py:227-239 | accepts exactly bindings of active mappings that equal the target's, and counts them |
| Provisioning.Preflight | src/platform_integration/repositories/provisioning.py:182-244 | accepts exactly tables whose every row is what a target left, with one binding per active mapping, and returns the asset ids |
| ProvisioningTables.PreflightIsExact | src/platform_integration/repositories/provisioning.py:182-244 | for distinct targets preflight accepts exactly tables whose every mapping is a reservation or an activation of a target, whose every binding is a target's with an active mapping, and in which an active mapping has one binding and a reserved one none |
| ProvisioningTables.ReserveIsExact | src/platform_integration/repositories/provisioning.py:294-328 | a reservation conflicts exactly when the device is mapped to something else or the equipment to another device; otherwise the row is found or added as reserved |
| ProvisioningTables.ActivateIsExact | src/platform_integration/repositories/provisioning.py:330-389 | an activation succeeds exactly when the device is mapped to the equipment without another asset, no other row has the asset, and the bindings of the measurement agree; then mapping and binding are active |
| ProvisioningRecovery.PreflightOnLine | src/platform_integration/repositories/provisioning.py:182-244 | preflight accepts every state an interrupted apply can leave |
| ProvisioningRecovery.AlwaysOnLine | src/platform_integration/services/provisioning.py:305-445 | over any interruptions, refusals, unknown results and conflicts every apply passes preflight and the state is one of the line |
| ProvisioningRecovery.ConflictExactly | src/platform_integration/services/provisioning.py:405-419 | a step meets a conflict exactly when it is a successful read-back after a write that was neither answered nor effective, over attributes the device had from the start |
| ProvisioningRecovery.UsedDeviceConflicts | src/platform_integration/services/provisioning.py:405-419 | a one-device plan whose device carries the attributes of other equipment, one such write and its read-back end in the conflict |
| ProvisioningRecovery.NeverInConflict | src/platform_integration/services/provisioning.py:405-419 | applies of a good start are free of conflicts, whatever happens, exactly when no device starts with complete attributes that are not its target's |
| ProvisioningRecovery.OneOutcome | src/platform_integration/services/provisioning.py:351-365 | once applied, mappings, bindings, attributes, assets and receipt are the one outcome, and the receipt verifies exactly with twenty targets |
| ProvisioningRecovery.RecoveryEqualsUndisturbed | src/platform_integration/services/provisioning.py:305-368 | an interrupted and resumed plan ends exactly like any other completion of it |
| ProvisioningRecovery.OneAssetPerTarget | src/platform_integration/services/provisioning.py:380-403 | a target gets at most one CMMS asset over all applies, exactly one in the end, and an asset already there is used |
| ProvisioningRecovery.CompleteApplySucceeds | src/platform_integration/services/provisioning.py:447-461 | after any interruptions an undisturbed apply before the expiry completes the plan, and the receipt verifies |
| ProvisioningDrive.ApplyLeadsOn | src/platform_integration/services/provisioning.py:347-368 | an apply before the expiry of a plan that any applies have left: it completes if all its calls go well, a completed one has every target provisioned and nothing else, a conflict needs a device that started with foreign attributes, and the next apply finds a state of the same kind |
| ProvisioningDrive.InterruptionHasCause | src/platform_integration/services/provisioning.py:382-421 | an apply is interrupted only by a provider call that did not go well |
| ProvisioningDrive.OutcomeIsProvisioned | src/platform_integration/services/provisioning.py:429-445 | in the outcome every target has its asset by name and equipment, one active mapping, its binding, its attributes and its result, the receipt has no other device, and other devices and older assets are untouched |
| ProvisioningDrive.RenewedPlanCompletes | src/platform_integration/repositories/provisioning.py:130-156 | an expired plan that was not applied is renewed for thirty minutes, and an apply in that time whose calls go well completes it |
| ProvisioningRecovery.PilotPlanIsGood | src/platform_integration/services/provisioning.py:267-277 | plans of distinct targets with profile measurements meet what the theorems ask of a plan |
| ProvisioningService.Provisioner.ReserveTarget | src/platform_integration/repositories/provisioning.py:294-328 | in place: reserves, finds the reservation, or conflicts exactly as `ReserveIsExact` says |
| ProvisioningService.Provisioner.ActivateTarget | src/platform_integration/repositories/provisioning.py:330-389 | in place: activates mapping and binding together, or conflicts exactly as `ActivateIsExact` says |
| ProvisioningService.Provisioner.CreateAsset | src/platform_integration/services/provisioning.py:386-401 | creates at most one asset, with the target's name, and looks again when the result is unknown; interrupted only by a failed call, never in conflict |
| ProvisioningService.Provisioner.ObtainAsset | src/platform_integration/services/provisioning.py:381-403 | the asset half of a target gives the asset that is there or a new one, conflicts exactly when the look-up disagrees with the persisted id or the name, and leads where the steps lead |
| ProvisioningService.Provisioner.Publish | src/platform_integration/services/provisioning.py:405-428 | the attribute half of a target goes on only with the attributes written and the asset confirmed, and leads where the steps lead |
| ProvisioningService.Provisioner.ApplyTarget | src/platform_integration/services/provisioning.py:370-445 | a target goes through its steps or the apply ends there, and either way leads where the steps lead |
| ProvisioningService.Provisioner.Apply | src/platform_integration/services/provisioning.py:305-368 | refused exactly for an applied or expired plan; otherwise it ends where its calls lead, completed exactly with a receipt, interrupted only by a failed call, and on a plan that any applies of a good start have left with the outcome of `ApplyLeadsOn` |

## Left out

- The closed loop and the provider worlds follow one risk key at a time; the risk key itself, a hash of equipment and measurement, is taken as the key, and the outbox of other keys appears as events that may be claimed instead.
- AlarmConvergence.Convergence: assumes one alarm worker, a distinct owner per claim, a write that takes effect when it is sent or never (`LateWrites.PatienceIsNeeded` has what later effects need), no other writer of these alarms, and that clearing leaves details alone; two concurrent alarm workers do not converge, because a claim's version is never compared with the projection's.
- LateWrites.LateWriteDoubles: a create without an id makes a new alarm; a ThingsBoard that merges alarms of one originator and type is not modelled.
- WorkOrderFeedback.OneGenuineOrder: assumes one creation worker, no other creator for these references, and a create that takes effect when it is sent or never; the CMMS's own deduplication by idempotency key is not relied on.
- ClosedLoopTheorems.NewestVersionWins: assumes that the CMMS reports one status per work order and version; without that the code records a conflict and keeps the older status.
- ClosedLoopHistory.ApprovedIsStored: takes SHA-256 over plans as collision-free; all other digests are deterministic functions.
- ClosedLoopHistory.RepeatedActionReplays: about the transaction; the authorisation before it, with its reads of ThingsBoard and its refusals, is a given identity.
- RiskEvaluation.Evaluate: exact numbers; Decimal's 28-digit context and its rounding of the intermediate mean are not modelled, nor is the mean's double rounding that could follow from it.
- Decimals.CanonicalIsIdempotent: numbers have no digit limit; the InvalidOperation of a result over 28 digits is not modelled.
- ProvisioningRecovery.NeverInConflict: nobody else writes the plan's equipment, CMMS assets or attributes between applies, and assets that exist for that equipment carry the planned name; the device listing, tenant drift and the plan's canonical hash are taken as unchanged.
- ProvisioningRecovery.OneOutcome: a CMMS create or an attribute write with an unknown result takes effect at once or never; an effect after the second look-up or the read-back is not modelled.
- PredictionRuns.PickEligible: ties between runs of one slot go by insertion position, where the source orders by run id, and the stale runs of `PredictionRuns.StaleIds` are reset in that order in place of the id's text.
- Provisioning.Preflight: request digest and summary columns are one value, and columns equal for all profiles are left out.
- PredictionWorker.RunOnce: one worker; its heartbeat may beat any number of times before the request is pinned, before the claim is ended and after that, but not while one of these transactions runs, and stop requests are a number of clock readings.
- PredictionRequests.PrepareIgnoresOrder: the request model's own field validation (non-negative times, non-empty names) is not modelled; units are canonicalised by any deterministic function in place of strip and Unicode NFC.
- The sort of `PredictionRequests.History` is stable; ids that collide keep the order of the sorted points.
- Row ids are positions in append-only tables; timestamps that nothing reads (`created_at`, `updated_at`, `completed_at`, `cleared_at`, `heartbeat_at`), audit rows and last error codes of events are not kept.
- Disabled tenants: a disabled tenant makes the alarm worker supersede live intent; tenants are enabled throughout.
- The batch of twenty slots per tenant, slot rounding, summaries, credentials and the comparison of ThingsBoard tenants (a worker that meets another tenant counts as one that did not reach it), HTTP clients, settings, migrations and the command line.
- Row locks that are skipped: any claimable event may be the one taken, and any locked runs may be skipped; waiting for a lock is not modelled.
- Alert and work-order texts (title, description, priority) are functions of the columns that are modelled.
- Blank reasons of a close are judged by ASCII white space.
