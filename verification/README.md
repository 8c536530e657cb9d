# ComputeInstance lifecycle: model and proofs

This project models the core of the OSAC operator in Dafny and proves what its controllers promise.

The centre is the lifecycle of one ComputeInstance custom resource (CR). The main controller, the feedback
controller, the provisioning server (AAP, or EDA behind a webhook), the playbook and the user act on it in any order
and coordinate only through its job history, phase, finalizers and annotations. `LifecycleModel.dfy` states this as a
transition system. Everything a controller cannot foresee (replies, faults, the clock, what others do in between) is
an input of its step. The theorems in `LifecycleTheorems.dfy` hold in every reachable world and say for exactly which
configurations a promise holds; for every other configuration a concrete run breaks it.

| file | contents |
|---|---|
| `Jobs.dfy` | the job history: latest job of a type, append and trim, update by ID |
| `JobIds.dfy` | decimal printing and parsing, EDA job IDs, and when they repeat |
| `LifecycleModel.dfy` | providers, the main controller's pass as functions, the world and its steps |
| `PassEffects.dfy` | what one main pass can do |
| `PassMeanings.dfy` | what a pass stores and answers, in AAP's own words |
| `LifecycleInvariants.dfy`, `FinalizerInvariants.dfy` | what every step keeps |
| `LifecycleTheorems.dfy` | the promises over whole runs, with exact conditions |
| `DeletionTheorems.dfy` | when a deletion can still be completed |
| `EdaIdTheorems.dfy` | EDA job IDs over the life of a CR |
| `Reconciler.dfy` | the main controller's handlers as objects changed in place, tied to the pass functions |
| `Interference.dfy` | what others may do between two calls of a pass |
| `MainController.dfy` | the main controller's whole pass with its retried status write, under interference |
| `FeedbackController.dfy` | the feedback controller's pass as a sequence of calls under interference |
| `FeedbackSync.dfy` | the synchronisation of a CR's status into the fulfillment record |
| `RateLimiter.dfy` | the webhook client's rate limiter |
| `Restart.dfy` | restarts by deletion of the VirtualMachineInstance (VMI) |
| `Tenant.dfy` | the tenant's namespace and user defined network (UDN) |
| `TenantNames.dfy` | FNV-1a, base32, tenant and namespace names, configuration versions |
| `HostPool.dfy` | the HostPool condition list |

Assumptions of the lifecycle model: a main pass reads the current CR and is the only main pass at work; it writes
metadata at once and its status afterwards, and that second write may be lost; the feedback controller may read any
stored version, however old, and writes by compare-and-swap on it; once deletion has begun no finalizer is added; a
terminal AAP job never changes again and only terminal jobs are purged; the server issues each job number once.
Which job types are launched as workflow jobs, for which the job endpoint answers 404, is part of the configuration
(`unseen`); every other job that is not purged is visible there. Nothing is assumed about the clock, which may even
step back, unless a configuration's `strictClock` is set: then a pass's time is later than that of every stored job. A
launch whose reply or status write is lost is not assumed away: it is counted in a tally, and the launch theorems bound
what remains. The restart model counts VMI deletions with a lost status write in the same way.

What the proofs bring to light about the code:

- Of two jobs of a type with the same timestamp the older one wins. A failed trigger followed within one clock tick by
  a successful launch therefore hides the launch: it is launched again, or deprovisioning starts beside it.
- A negative poll interval passes the constructor and makes every waiting delete pass release the base finalizer.
- When deletion finishes in one pass (manual mode, or EDA without a playbook finalizer), the CR can end before
  DELETING was recorded.
- The comment at internal/provisioning/aap_provider.go:219 says that a cancel refused with 405 means proceed. The
  branch is dead: cancelProvisionJob swallows the 405, so the code waits.
- A recorded deprovision job that failed, was canceled, was purged or runs as a workflow job holds a managed CR for
  good: it is neither relaunched nor ever seen to succeed.
- A provision job launched as a workflow job is polled where only plain jobs are found. The 404 reads as a purged job,
  so a deletion deprovisions while it is running.
- Failed triggers share the empty job ID, so a poll of a later one would rewrite the first.
- A tenant whose status write is lost after its namespace was created leaks that namespace on deletion.
- The limiter returns elapsed time, not remaining time. Callers that obey it still get through after
  logarithmically many rejections.
- A VMI deletion whose status write is lost is repeated on the recreated VMI for the same request.
- A VMI created after the request counts as the restarted one even when it is the very VMI being deleted.
- A restart request replaced by an older one while in progress moves lastRestartedAt backwards, and a failure
  condition survives a restart that begins without a VMI.
- The EDA counter is read off the history, so failed triggers that fill the history make it start again and an ID is
  given twice. At the largest int it wraps around.

## Model

| member | source | states |
|---|---|---|
| LifecycleTheorems.DeprovisionLaunchedOnce | internal/controller/computeinstance_controller.go:393-460 | In every reachable world at most one deprovision launch is not accounted for by a lost reply or a lost status write, whatever the clock does and however short the history is |
| LifecycleTheorems.ProvisionLaunchedOnceExactlyWhen | internal/controller/computeinstance_controller.go:294-332 | At most one unaccounted provision launch in every reachable world, if and only if job times strictly increase or the history keeps one entry |
| LifecycleTheorems.NoOverlapExactlyWhen | internal/provisioning/aap_provider.go:108-136 | With AAP, in every reachable world with a deprovision launch no more provision jobs are running than provision launches were lost (none, if none was), if and only if appended jobs are found again and the job endpoint knows provision jobs |
| LifecycleTheorems.ReleaseSafeExactlyWhen | internal/controller/computeinstance_controller.go:605-622 | With AAP the base finalizer leaves only in a delete pass in which AAP reports the recorded deprovision job successful (or the user chose manual), if and only if the poll interval is positive |
| LifecycleTheorems.ReleaseIsSafe | internal/controller/computeinstance_controller.go:463-513 | The one-step form: failed, canceled, unknown and failing polls never release the base finalizer |
| LifecycleTheorems.DeletionRecordedExactlyWhen | internal/controller/computeinstance_feedback_controller.go:116-173 | A labelled CR whose deletion began with both finalizers ends only after the record says DELETING, in every interleaving with stale feedback passes, if and only if the provider is AAP, the interval is positive and manual is never used |
| LifecycleTheorems.EndIsRecordedExactlyWhen | internal/controller/computeinstance_feedback_controller.go:116-173 | For every provider, interval and management mode, at the end of a CR whose deletion began labelled with both finalizers the record says DELETING if and only if Deleting was stored as its phase |
| LifecycleTheorems.FinalizerOrderExactlyWhen | internal/provisioning/eda_provider.go:133-198 | With EDA the finalizers leave in the order playbook, base, feedback, if and only if the interval is positive and manual is never used |
| DeletionTheorems.DeletionCanEndExactlyWhen | internal/controller/computeinstance_controller.go:380-513 | With AAP and a positive interval, from any reachable managed deletion that began labelled with both finalizers some run without manual mode ends the CR, if and only if it is not stuck: the base finalizer is gone, or the job endpoint knows deprovision jobs and the recorded one, if any, has succeeded or still may |
| DeletionTheorems.SuccessfulDeletionEnds | internal/controller/computeinstance_controller.go:463-513 | Once AAP reports the recorded deprovision job successful, nine steps without faults end the CR with DELETING on record, whatever both controllers were in the middle of |
| DeletionTheorems.UnstuckDeletionEnds | internal/controller/computeinstance_controller.go:393-461 | From every such deletion that is not stuck thirteen steps end the CR with DELETING on record, launches included |
| DeletionTheorems.StuckForGood | internal/provisioning/aap_provider.go:306-326 | A deprovision job that failed, was canceled or is no longer known stays recorded and stays so, and over any run without manual mode the base finalizer stays |
| DeletionTheorems.StuckKeepsBase | internal/controller/computeinstance_controller.go:463-513 | The one-step form: no step takes the base finalizer from a stuck CR |
| DeletionTheorems.PurgedJobReleasesExactlyWhen | internal/controller/computeinstance_controller.go:463-472 | A pass on a managed CR whose recorded deprovision job is not known releases it exactly when the poll interval is not positive and the update succeeds |
| EdaIdTheorems.IDsDistinctExactlyWhen | internal/provisioning/eda_provider.go:62-80 | With EDA, every ID ever stored in any version of the CR names one job, in every reachable world, if and only if appended jobs are sure to be found as the latest |
| EdaIdTheorems.UntrackedIDReturns | internal/controller/computeinstance_controller.go:310-317 | A run for every other history size: failed triggers fill the history and the next launch is stored under the first launch's ID |
| LifecycleTheorems.ReachableInv | internal/controller/computeinstance_controller.go:137-172 | Every reachable world satisfies all invariants that apply to its configuration |
| LifecycleTheorems.StepKeepsInv | internal/controller/computeinstance_controller.go:137-172 | Every step of any actor keeps them |
| LifecycleTheorems.TiedClockLaunchesTwice | api/v1alpha1/job_types.go:69-79 | A run with tied timestamps in which provisioning is launched twice without any loss |
| LifecycleTheorems.TiedClockOverlaps | internal/provisioning/aap_provider.go:143-156 | A run with tied timestamps in which deprovisioning starts while the provision job runs |
| LifecycleTheorems.UnseenJobOverlaps | internal/aap/client.go:155-170 | A run in which a provision job launched as a workflow job is not found by the job endpoint, reads as purged, and deprovisioning starts beside it |
| LifecycleTheorems.EndsUnrecorded | internal/controller/computeinstance_controller.go:605-622 | Whenever the first delete pass does not ask to be called again, a run ends the CR without DELETING in the record |
| LifecycleInvariants.HistoryKept | internal/controller/computeinstance_controller.go:137-172 | Every step keeps: deprovision entries carry a real ID issued by the server, block deletion on failure with AAP, and exist only on a CR being deleted in phase Deleting |
| LifecycleInvariants.TallyKept | internal/controller/computeinstance_controller.go:393-460 | Every step keeps: a known deprovision launch has an entry in the stored or pending history; trimming never drops it |
| LifecycleInvariants.DeprovisionKept | internal/controller/computeinstance_controller.go:463-513 | Every step keeps: a pending status names the deprovision job the stored one names |
| LifecycleInvariants.ProvisionKept | internal/controller/computeinstance_controller.go:294-332 | Every step keeps: a known provision launch stays the latest provision entry while the CR is not being deleted |
| LifecycleInvariants.OverlapKept | internal/provisioning/aap_provider.go:143-227 | Every step keeps: apart from lost launches, a running provision job is the one the CR tracks, and none runs once anything was deprovisioned |
| LifecycleInvariants.ReadyMeansNotRunning | internal/provisioning/aap_provider.go:143-227 | When AAP calls a deletion ready, the job the history tracks is not running |
| FinalizerInvariants.ArmedKept | internal/controller/computeinstance_feedback_controller.go:137-153 | Every step keeps the feedback finalizer on an armed deletion until its own controller, having seen it alone, drops it |
| FinalizerInvariants.RecordKept | internal/controller/computeinstance_feedback_controller.go:116-173 | Every step keeps: without the base finalizer every stored phase of an armed deletion is Deleting |
| FinalizerInvariants.PhaseKept | internal/controller/computeinstance_feedback_controller.go:116-173 | Every step keeps, in every configuration: a stored phase Deleting stays and comes only with the deletion mark, the record says DELETING only afterwards, and whoever is about to drop the feedback finalizer from such a version has saved it |
| FinalizerInvariants.OrderKept | internal/controller/computeinstance_controller.go:594-625 | Every step keeps: with EDA the base finalizer outlives the playbook's |
| FinalizerInvariants.OnlyDeletePassReleasesBase | internal/controller/computeinstance_controller.go:616-622 | Of all steps only a delete pass takes the base finalizer away |
| FinalizerInvariants.StepWrites | internal/controller/computeinstance_controller.go:174-188 | Every step is at most one write to the CR, with a new version number, or its end |
| FinalizerInvariants.ArmedEnd | internal/controller/computeinstance_feedback_controller.go:137-153 | An armed CR ends only when the feedback controller drops the last finalizer from the very version it saved |
| PassEffects.UpdateLaunchesExactlyWhen | internal/controller/computeinstance_controller.go:515-592 | Exactly when an update pass starts a provision job, and that it never touches deprovisioning |
| PassEffects.DeleteLaunchesExactlyWhen | internal/controller/computeinstance_controller.go:393-460 | Exactly when a delete pass starts a deprovision job, and that it never touches provisioning |
| PassEffects.UpdatePhaseExactlyWhen | internal/controller/computeinstance_controller.go:557-591 | Exactly when an update pass ends in phase Failed, Running or Starting |
| PassEffects.HandleUpdateEffect | internal/controller/computeinstance_controller.go:515-592 | An update pass polls the provision job or appends one entry, adds at most the base finalizer and changes no other metadata |
| PassEffects.HandleDeleteEffect | internal/controller/computeinstance_controller.go:594-625 | A delete pass polls one job or launches deprovisioning, drops at most the base finalizer and ends in phase Deleting |
| PassEffects.AAPRelease | internal/controller/computeinstance_controller.go:463-513 | Why a delete pass with AAP releases the base finalizer |
| PassEffects.EDARelease | internal/provisioning/eda_provider.go:133-198 | A delete pass with EDA releases the base finalizer only in manual mode or after the playbook's finalizer is gone |
| PassEffects.AAPReadyExactlyWhen | internal/provisioning/aap_provider.go:193-227 | AAP is ready exactly when it answers and the job endpoint knows of no running provision job; a cancel refused with 405 means waiting, never launching |
| PassEffects.TriggerDeprovisionFacts | internal/provisioning/aap_provider.go:108-136 | Triggered exactly when the provider asks for a launch and the launch is answered; waiting never launches |
| PassEffects.EDAReadyExactlyWhen | internal/provisioning/aap_provider.go:157-191 | After a webhook's provision job AAP is ready exactly when the phase says it is over, or in a deletion without a deprovision entry |
| PassMeanings.ProvisionPollMeans | internal/controller/computeinstance_controller.go:334-372 | A poll with AAP stores the state AAP's own word stands for, and the word as message; without an answer the old state and the error; it asks to be called again exactly while the answer is missing or the job unfinished, and the phase is Failed exactly on failed, error or canceled |
| PassMeanings.EDAProvisionPollMeans | internal/provisioning/eda_provider.go:119-128 | With EDA a provision poll stores Unknown and asks again |
| PassMeanings.DeprovisionPollMeans | internal/controller/computeinstance_controller.go:463-513 | The same for a deprovision poll; the deletion may go on exactly on success, or on failure of a job that does not block |
| PassMeanings.EDADeprovisionPollMeans | internal/provisioning/eda_provider.go:179-198 | With EDA the playbook's finalizer decides: Running and called again while it is there, Succeeded without |
| PassMeanings.ProvisionTriggerMeans | internal/controller/computeinstance_controller.go:294-332 | Exactly what a provisioning trigger records for each outcome of the launch, and when it asks to be called again |
| PassMeanings.DeprovisionTriggerMeans | internal/controller/computeinstance_controller.go:393-461 | With AAP: waits and records AAP's word while the provision job is unfinished; launches and records the entry once it is finished, unknown or none; otherwise records nothing |
| PassMeanings.AskedIsReady | internal/provisioning/aap_provider.go:108-229 | While a CR is being deleted, AAP is asked for a deprovision job exactly when there is no provision job to ask about, or AAP does not know it or says it is finished |
| PassMeanings.EDADeprovisionTriggerMeans | internal/provisioning/eda_provider.go:130-177 | With EDA: nothing without the playbook's finalizer, otherwise the webhook, with the delay of a rate limit |
| PassMeanings.UpdatePassMeans | internal/controller/computeinstance_controller.go:515-592 | Which part of an update pass is provisioning's, when it is due, which versions are stored, and exactly when an error is reported |
| PassMeanings.DeletePassMeans | internal/controller/computeinstance_controller.go:594-625 | Which part of a delete pass is deprovisioning's, exactly when the base finalizer goes, and exactly when an error is reported |
| PassMeanings.ManualMeansNothing | internal/controller/computeinstance_controller.go:280-285 | In manual mode neither part does anything |
| PassMeanings.UnmanagedMeansNothing | internal/controller/computeinstance_controller.go:146-150 | An unmanaged CR is left alone |
| Reconciler.ComputeInstanceReconciler.constructor | internal/controller/computeinstance_controller.go:64-93 | Only a zero interval and a non-positive history size are replaced by defaults; negative intervals survive |
| Reconciler.ComputeInstanceReconciler.Reconcile | internal/controller/computeinstance_controller.go:144-161 | The imperative handlers leave exactly the CR, server and result of the pass function the lifecycle theorems are about |
| Reconciler.ComputeInstanceReconciler.HandleUpdate | internal/controller/computeinstance_controller.go:515-592 | The same for an update pass |
| Reconciler.ComputeInstanceReconciler.HandleDelete | internal/controller/computeinstance_controller.go:594-625 | The same for a delete pass |
| Reconciler.ComputeInstanceReconciler.HandleProvisioning | internal/controller/computeinstance_controller.go:277-373 | The same for the provisioning part, both trigger and poll |
| Reconciler.ComputeInstanceReconciler.HandleDeprovisioning | internal/controller/computeinstance_controller.go:380-513 | The same for the deprovisioning part |
| Reconciler.ComputeInstanceReconciler.TriggerDeprovision | internal/provisioning/aap_provider.go:108-136 | Both providers' trigger: readiness first, then a launch, and the server changes only by that launch |
| Reconciler.ComputeInstanceReconciler.ReconcileVersions | internal/controller/computeinstance_controller.go:557-591 | The same for the comparison of desired and reconciled versions |
| Reconciler.ComputeInstance.UpdateJob | internal/controller/computeinstance_controller.go:120-127 | Overwrites the first entry carrying the ID in place, or changes nothing and says so |
| Reconciler.ComputeInstance.AppendJob | internal/controller/computeinstance_controller.go:109-116 | The in-place append and trim leaves the history of the append function |
| Reconciler.ComputeInstance.FindJobByID | internal/controller/computeinstance_controller.go:98-105 | The scan finds the first entry with the ID, or there is none |
| MainController.Hub.Reconcile | internal/controller/computeinstance_controller.go:137-172 | The whole pass, with its status write and others acting in between, stays within the lifecycle's steps; a changed status is written with retries, an unchanged one is not; delay and error are the handlers', and a lost status write is an error; a CR that is gone is left alone |
| MainController.Hub.UpdateStatusWithRetry | internal/controller/computeinstance_controller.go:174-188 | Some number of conflicts, then the first attempt that is none decides: the pending status is stored unless the CR is gone, the read fails or the update is refused; only when all attempts conflict is it given up for that |
| MainController.Hub.TryUpdateStatus | internal/controller/computeinstance_controller.go:177-187 | A conflict exactly when the read succeeds, the update is not refused and another version was stored in between; then nothing is written and the status stays pending |
| MainController.QuietAttemptStores | internal/controller/computeinstance_controller.go:171-187 | After any number of conflicts an undisturbed attempt stores the pending status, as long as the CR exists |
| MainController.GivenUpExactlyWhen | internal/controller/computeinstance_controller.go:176-187 | Without error replies and without the end of the CR, the write is given up exactly when every attempt conflicts |
| MainController.FirstOtherDecides | internal/controller/computeinstance_controller.go:176-187 | The outcome of the retried write is determined by the first attempt that is no conflict |
| FeedbackController.Hub.Reconcile | internal/controller/computeinstance_feedback_controller.go:67-176 | Under stale reads, interference and failing calls the pass stays within the lifecycle's steps and saves the phase of the version it read or nothing; undisturbed, it adds the finalizer, or ends a CR it alone holds; it reports an error for every failing call and, undisturbed, for nothing else, and without an error the phase is on record and a CR it alone held is gone |
| FeedbackController.Hub.AddFinalizer | internal/controller/computeinstance_feedback_controller.go:220-228 | The finalizer is added to the version that was read, by compare-and-swap; otherwise the pass stops before saving |
| FeedbackController.Hub.SaveAndRelease | internal/controller/computeinstance_feedback_controller.go:121-173 | The record is saved before the last finalizer is dropped, and a failed save drops nothing |
| Interference.InterferenceIsHarmless | internal/controller/computeinstance_feedback_controller.go:67-176 | Other actors' moves between two calls of a pass, main or feedback, keep every stored version and what that pass holds |
| FeedbackSync.SyncIsIdempotent | internal/controller/computeinstance_feedback_controller.go:199-216 | On any record a second synchronisation of the same CR, at any later time, changes nothing, so nothing is sent |
| FeedbackSync.TimeMovesExactlyWithStatus | internal/controller/computeinstance_feedback_controller.go:254-331 | Whatever the kind, a transition time moves exactly when that condition's status changes, and then to now |
| FeedbackSync.SyncKindShows | internal/controller/computeinstance_feedback_controller.go:311-320 | Synchronising one kind shows its new status and message and changes nothing any other kind shows |
| FeedbackSync.SyncSettlesAll | internal/controller/computeinstance_feedback_controller.go:245-309 | After one synchronisation all four conditions show what the CR says |
| FeedbackSync.SyncMeans | internal/controller/computeinstance_feedback_controller.go:238-398 | After a synchronisation, from the CR alone: the state for each phase, what each of the four conditions shows, the address and the restart time |
| FeedbackSync.MissingCountsAsFalse | internal/controller/computeinstance_feedback_controller.go:311-386 | A condition the record lacked counts as FALSE before: added as FALSE it shows no time, otherwise the time of the synchronisation |
| FeedbackSync.MissingStays | internal/controller/computeinstance_feedback_controller.go:284-309 | Conditions with nothing to follow, the record's own included, are left alone |
| FeedbackSync.FulfillmentRecord.Sync | internal/controller/computeinstance_feedback_controller.go:238-243 | The in-place synchronisation leaves exactly the record of the synchronisation function |
| FeedbackSync.FulfillmentRecord.FindCondition | internal/controller/computeinstance_feedback_controller.go:369-385 | Finds the condition of a kind, appending it as FALSE when missing |
| Jobs.FindLatestJobByType | api/v1alpha1/job_types.go:69-79 | The loop finds the first entry of maximal timestamp of the type, or there is no entry of the type |
| Jobs.LatestIsFirstMaximum | api/v1alpha1/job_types.go:69-79 | An entry is the latest if and only if it is the first of maximal timestamp in its type |
| Jobs.LatestIgnoresOrder | api/v1alpha1/job_types.go:65-68 | With distinct timestamps within a type every permutation of the list has the same latest job |
| Jobs.AppendedIsLatestExactlyWhen | internal/controller/computeinstance_controller.go:109-116 | An appended job is found as the latest of its type exactly when it is strictly later than every kept entry of that type |
| Jobs.AppendKeepsOtherLatest | internal/controller/computeinstance_controller.go:109-116 | Appending leaves the other type's latest job alone unless that entry was trimmed |
| Jobs.PollKeepsIdentitiesExactlyWhen | internal/controller/computeinstance_controller.go:120-127 | A poll leaves every entry's ID, type, time and policy alone exactly when the first entry with the latest job's ID is that job; repeated empty IDs break this |
| Jobs.PollCanRewriteAnotherEntry | internal/controller/computeinstance_controller.go:310-317 | Two failed triggers: polling the later one rewrites the earlier one |
| Jobs.HistoryIsLogSuffix | internal/controller/computeinstance_controller.go:98-127 | With unique IDs every reachable history is the end of the log of all appended jobs, as long as the limit allows, and differs from it only in states and messages |
| Decimal.AtoiItoa | internal/provisioning/eda_provider.go:69-76 | Parsing undoes printing for every 64-bit integer |
| Decimal.AtoiExactlyWhen | internal/provisioning/eda_provider.go:71-71 | A text parses as a number exactly when it is that number written out, with or without a sign and leading zeros, within 64 bits |
| Decimal.ItoaPrints | internal/provisioning/eda_provider.go:79-79 | The printed form, digit by digit, with a minus sign for negative numbers |
| JobIds.GenerateEDAJobID | internal/provisioning/eda_provider.go:64-80 | The loop generates the ID after the largest counter in the list, wrapping at the maximum |
| JobIds.CounterExactlyWhen | internal/provisioning/eda_provider.go:68-71 | Exactly the IDs that count: the prefix followed by a text that parses |
| JobIds.GeneratedFollowsLargest | internal/provisioning/eda_provider.go:64-80 | The generated ID is the prefix and the number after the largest counter in the list, wrapped at the maximum |
| JobIds.FirstIDs | internal/provisioning/eda_provider.go:18-22 | The first two IDs are eda-webhook-1 and eda-webhook-2 |
| JobIds.GeneratedIDFreshExactlyWhen | internal/provisioning/eda_provider.go:62-80 | The generated ID differs from every ID in any list, except exactly when the counter is exhausted and the wrapped ID is taken |
| JobIds.ProvidersIDsDisjoint | internal/provisioning/eda_provider.go:24-28 | Every generated ID is recognised as EDA's and no printed integer is; neither is empty |
| JobIdRuns.IDsRepeatExactlyWhen | internal/provisioning/eda_provider.go:62-80 | Over any mix of launches, other entries and polls on a history that starts empty, below the int maximum, some ID is given twice if and only if at least as many other entries as the history holds were appended between one launch and the next |
| JobIdRuns.LaunchCounter | internal/provisioning/eda_provider.go:64-80 | The exact counter of every launch in such a run: one more than the last launch's, or 1 again after such a gap |
| JobIdRuns.LaunchIDsNeverRepeat | internal/provisioning/eda_provider.go:62-80 | From any history, as long as the entry with the largest counter is not trimmed away, no ID is used twice, even after its own entry was trimmed |
| RateLimiter.PurgingNeverChangesAnAnswer | internal/controller/webhook_common.go:56-103 | For every call sequence over any keys under a monotone clock each call gets the answer a log that never forgets would give |
| RateLimiter.LogIsLastSuccess | internal/controller/webhook_common.go:74-82 | That log holds, for each key, the time of its last success |
| RateLimiter.PostsAreSpaced | internal/controller/webhook_common.go:56-71 | A call is let through exactly when its check comes at the instant of the key's last success or at least the interval after it; otherwise it is rejected with the elapsed time |
| RateLimiter.AnswerMeans | internal/controller/webhook_common.go:99-134 | A call for a key that succeeded before is rejected with the elapsed time while that is above zero and below the interval, and otherwise answered with the outcome of its POST |
| RateLimiter.NewKeyIsPosted | internal/controller/webhook_common.go:99-134 | A key that has not succeeded before is always posted |
| RateLimiter.SuccessIsPosted | internal/controller/webhook_common.go:132-133 | A success is a call that was answered as posted and succeeded |
| RateLimiter.PurgeLeavesYoung | internal/controller/webhook_common.go:84-96 | What the last purge visited and left is no older than the interval |
| RateLimiter.ObedientRetriesEnd | internal/controller/webhook_common.go:99-104 | With any calls of other keys in between, a caller that waits out each returned delay is rejected at most logarithmically often in a row, and every delay it is told lies strictly between 0 and the interval |
| RateLimiter.RejectionsAreLogarithmic | internal/controller/webhook_common.go:63-70 | After r rejections 2^(r-1) times the first elapsed time is still below the interval |
| RateLimiter.CacheKeyInjective | internal/controller/webhook_common.go:60-60 | Keys are equal exactly for equal pairs when names hold no colon |
| RateLimiter.CacheKeyCollides | internal/controller/webhook_common.go:60-60 | Two pairs that share a key when a name holds a colon |
| RateLimiter.WebhookClient.PurgeExpiredRequests | internal/controller/webhook_common.go:85-96 | Visiting keys in any order deletes exactly the entries expired when visited |
| RateLimiter.WebhookClient.TriggerWebhook | internal/controller/webhook_common.go:99-134 | The answer and the cache after a call, success recorded only after a successful POST |
| Restart.RestartsAreConserved | internal/controller/computeinstance_restart.go:45-213 | In every run restarts begun equal restarts completed, withdrawn and in progress, and every accepted VMI deletion belongs to one begun or to a pass that lost its status write |
| Restart.OneDeletionPerRequest | internal/controller/computeinstance_restart.go:66-77 | From any state, while the request stays the same at most one accepted VMI deletion is not accounted for by a lost status write |
| Restart.OneDeletionExactlyWhen | internal/controller/computeinstance_restart.go:66-77 | One request never deletes two VMIs, in any reachable stretch, if and only if no status write is lost |
| Restart.LostWriteDeletesTwice | internal/controller/computeinstance_restart.go:125-160 | A run in which a lost status write makes the next pass delete the recreated VMI |
| Restart.CompletesOnDeletedVmiExactlyWhen | internal/controller/computeinstance_restart.go:162-199 | Whatever happens while the deleted VMI is still there and the restart in progress, the next step declares it complete on that VMI exactly when it is a stored pass that can look at it and the VMI was created after the request that stands by then |
| Restart.PassesOnDeletedVmi | internal/controller/computeinstance_restart.go:162-199 | The whole outcome when only passes follow the deletion: complete if the VMI was created after the request and a stored pass looked at it, unchanged otherwise |
| Restart.CompletesOnDeletedVmi | internal/controller/computeinstance_restart.go:187-196 | A run from the start in which that happens |
| Restart.LastChangesOnlyOnCompletion | internal/controller/computeinstance_restart.go:187-196 | lastRestartedAt changes only in a pass that sees a VMI created after the request, and copies the request |
| Restart.LastIsMonotone | internal/controller/computeinstance_restart.go:56-77 | With requests that never decrease, lastRestartedAt never decreases or exceeds the largest request, and a restart in progress is for a newer request |
| Restart.LastDecreasesExactlyWhen | internal/controller/computeinstance_restart.go:187-196 | Exactly when a pass moves lastRestartedAt backwards |
| Restart.LastCanDecrease | internal/controller/computeinstance_restart.go:56-64 | A run in which it does |
| Restart.InProgressAndFailedTogether | internal/controller/computeinstance_restart.go:106-120 | Exactly when a pass newly leaves both RestartInProgress and RestartFailed true |
| Restart.PassMeans | internal/controller/computeinstance_restart.go:45-213 | Exactly when a pass leaves a restart in progress, leaves it failed, deletes a VMI, reports an error, and what becomes of VMI and last restart |
| Restart.ComputeInstance.HandleRequest | internal/controller/computeinstance_restart.go:45-78 | The in-place pass leaves exactly the state and results of the pass function |
| Restart.ComputeInstance.Perform | internal/controller/computeinstance_restart.go:82-160 | The same for the VMI deletion |
| Fnv.OneByteNeverCollides | internal/controller/tenant_names.go:54-55 | Inputs of equal length that differ in exactly one byte never have the same 64-bit FNV-1a hash |
| Fnv.StepInvertible | internal/controller/tenant_names.go:54-55 | Each hash step is a bijection of 64-bit states for a fixed byte |
| Fnv.CommonSuffix | internal/controller/tenant_names.go:54-55 | A common ending neither creates nor hides a collision |
| Fnv.Sum64 | internal/controller/tenant_names.go:54-55 | The byte loop computes the hash |
| Fnv.KnownAnswers | internal/controller/tenant_names.go:54-55 | The published hashes of the empty text and of "a" |
| Base32.RoundTrip | internal/controller/tenant_names.go:57-58 | Unpadded base32 (section 6 of RFC 4648) loses nothing: decoding undoes encoding for any bytes |
| Base32.EncodedLength | internal/controller/tenant_names.go:57-58 | n bytes give the least number of five-bit digits that holds 8n bits |
| Base32.EncodeIsPositional | internal/controller/tenant_names.go:57-58 | As a number the digits are the bytes, shifted by the bits that fill up the last digit |
| TenantNames.EncodedEqualExactlyWhen | internal/controller/tenant_names.go:53-59 | Encoded names are equal exactly when the hashes are |
| TenantNames.EncodedShape | internal/controller/tenant_names.go:53-59 | Every encoded name has 13 characters from a-z and 2-7 |
| TenantNames.EncodedSpells | internal/controller/tenant_names.go:53-59 | An encoded name spells the hash, shifted by one bit, in the RFC's alphabet in lower case |
| TenantNames.DigestIsBigEndian | internal/controller/tenant_names.go:58-58 | The digest is the hash, most significant byte first |
| TenantNames.NamespaceNameSpells | internal/controller/tenant_names.go:47-49 | A namespace name is the project, a hyphen and the encoded tenant name, and nothing else |
| TenantNames.NamespaceNameEqualExactlyWhen | internal/controller/tenant_names.go:47-49 | Namespace names are equal exactly for the same project and equal hashes |
| TenantNames.OneByteTenantsAreSeparate | internal/controller/tenant_names.go:47-59 | Tenants that differ in one byte never share an encoded name or, in one project, a namespace |
| TenantNames.OneByteSpecsDiffer | internal/controller/computeinstance_controller.go:726-738 | Specs whose JSON differs in one byte get different 16-digit desired versions |
| TenantNames.VersionSpells | internal/controller/computeinstance_controller.go:731-738 | The desired version spells the hash of the spec in sixteen hexadecimal digits, most significant first |
| TenantTheorems.LeakFreeExactlyWhen | internal/controller/tenant_controller.go:130-162 | No run leaves a namespace or UDN of a tenant that is gone, if and only if no status write is lost |
| TenantTheorems.LostStatusWriteLeaks | internal/controller/tenant_controller.go:82-87 | One lost status write between creation and deletion leaves the namespace behind |
| TenantTheorems.ResourcesNeedFinalizer | internal/controller/tenant_controller.go:99-109 | In every run, whatever fails, nothing exists before the finalizer is stored, and a UDN lives only in a namespace |
| TenantTheorems.PassLeaksExactlyWhen | internal/controller/tenant_controller.go:141-158 | Exactly when a pass lets a tenant go while something of it remains |
| TenantTheorems.NamespaceAfterUDN | internal/controller/tenant_resources.go:84-118 | The controller deletes a namespace only in a pass that finds the UDN absent |
| TenantTheorems.UpdatePassMeans | internal/controller/tenant_controller.go:94-127 | Exactly what an update pass creates, and that its phase is Ready exactly when both creations succeed and Failed otherwise |
| TenantTheorems.ReadyMeansPresent | internal/controller/tenant_controller.go:111-126 | A pass after which the stored phase has become Ready leaves namespace and UDN in place |
| TenantTheorems.ReadyMeansLive | internal/controller/tenant_controller.go:94-127 | In every run, whatever fails, a stored Ready on a tenant not being deleted means namespace and UDN are live, and nothing of it terminates |
| TenantTheorems.TwoPassesReady | internal/controller/tenant_controller.go:94-127 | From every reachable tenant not being deleted, two fault-free passes end Ready with both live |
| TenantTheorems.DeletePassMeans | internal/controller/tenant_controller.go:130-162 | A delete pass acts on the UDN while it is there, then on the namespace, then on the finalizer, exactly when the calls succeed |
| TenantTheorems.DeletePassProgress | internal/controller/tenant_controller.go:141-158 | No delete pass moves away from the end; one without faults gets closer or waits for a terminating object |
| TenantTheorems.DeletionTerminates | internal/controller/tenant_controller.go:130-162 | From every reachable tenant being deleted, without lost status writes, five fault-free rounds finish |
| TenantController.Tenant.Reconcile | internal/controller/tenant_controller.go:62-91 | The in-place pass leaves exactly the world of the pass function |
| TenantController.Tenant.HandleUpdate | internal/controller/tenant_controller.go:94-127 | The same for an update pass |
| TenantController.Tenant.HandleDelete | internal/controller/tenant_controller.go:130-162 | The same for a delete pass |
| TenantController.Tenant.CreateOrUpdateNamespace | internal/controller/tenant_resources.go:33-48 | Creates a missing namespace and records its name even when creation failed |
| TenantController.Tenant.DeleteNamespace | internal/controller/tenant_resources.go:100-118 | Done when observed absent or never recorded; otherwise starts termination once |
| TenantController.Tenant.DeleteUDN | internal/controller/tenant_resources.go:84-98 | The same for the UDN |
| HostPool.ListRefinesMap | api/v1alpha1/hostpool_conditions.go:26-83 | For every operation sequence from an empty list, types stay unique and reading the list is reading the map the same operations build |
| HostPool.EntriesAreTheMaps | api/v1alpha1/hostpool_conditions.go:54-61 | Every entry of the list is the map's entry for its type |
| HostPool.SetShows | api/v1alpha1/hostpool_conditions.go:26-50 | On any list a set changes what is read for its own type only, keeping that condition's time exactly when its status stays |
| HostPool.SetStores | api/v1alpha1/hostpool_conditions.go:26-50 | A set stores status, reason and message as given, the old time if the status is the same and the later reading otherwise, and changes no other reading |
| HostPool.SpliceShows | api/v1alpha1/hostpool_conditions.go:76-83 | With unique types a removal makes its type unreadable and changes no other reading |
| HostPool.OthersUntouched | api/v1alpha1/hostpool_conditions.go:26-83 | An operation on one type leaves all other types' conditions and their order alone, on any list |
| HostPool.TimeKeptExactlyWhen | api/v1alpha1/hostpool_conditions.go:35-46 | A set keeps an existing condition's time exactly when its status is unchanged |
| HostPool.ConditionList.SetCondition | api/v1alpha1/hostpool_conditions.go:26-50 | The in-place scan overwrites the first condition of the type or appends |
| HostPool.ConditionList.GetCondition | api/v1alpha1/hostpool_conditions.go:54-61 | The scan returns the first condition of the type, or there is none |
| HostPool.ConditionList.RemoveCondition | api/v1alpha1/hostpool_conditions.go:76-83 | The in-place splice removes the first condition of the type and nothing else |

## Left out

- Job messages: modelled by what they say (a datatype), not by their exact text.
- Conditions of the CR other than those the restart machine and the feedback synchronisation use; their reasons, messages and observed generations.
- The response of `r.Update` in the main controller: treated as a write of metadata only; the in-memory status is not replaced by the stored one.
- Stale reads of the main controller: its handlers see the current CR and run without interruption; only the feedback controller reads stale versions.
- AAP's readiness and cancel calls leave AAP's job table alone; a cancellation shows up as a later step of the job.
- HTTP, JSON, gRPC and template lookup: their outcomes are inputs, except that GetJob answers from the server's jobs.
- A missing provisioning provider, changes of the provider during a CR's life, and changes of its labels.
- A feedback pass on a stale version that saves after the CR has ended may overwrite the record; DeletionRecordedExactlyWhen is about the moment the CR ends.
- JSON marshalling of the spec: the desired version is a function of the marshalled bytes; in the lifecycle it is an abstract string the user may change.
- Two webhook calls for one key at the same time: RateLimiter takes calls one after the other, each with its own clock readings.
- Reconciler.ComputeInstanceReconciler.HandleUpdate: the VM lookup and the restart call enter as inputs that fail or not, because Restart states what the restart call does; conditions are not part of it.
- Reconciler.ComputeInstanceReconciler.HandleProvisioning: does not model a missing provider, because deprovisioning without one is not defined in the code.
- LastIsMonotone: requires request times that never decrease; LastDecreasesExactlyWhen says what happens otherwise.
- JobIdRuns.IDsRepeatExactlyWhen: is about runs below the int maximum; JobIds.GeneratedIDFreshExactlyWhen covers the wrap-around.
- The tenant's other finalizers and labels; the namespace name is the same on every pass, so only its presence is modelled.
- ClusterOrder and HostPool controllers with their feedback controllers: weaker repeats of the tenant and ComputeInstance protocols.
- Informer caches, watches, predicates, retry back-off, logging and environment parsing.
