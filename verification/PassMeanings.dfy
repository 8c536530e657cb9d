// What a pass means in AAP's own words: which state a poll stores, what a trigger records, when the pass asks to be
// called again and when it reports an error.

module PassMeanings {
  import opened Options
  import opened Jobs
  import opened JobIds
  import opened Decimal
  import opened Providers
  import opened Passes
  import opened PassEffects

  // ---------- AAP's words ----------

  /** The job state each of AAP's words stands for; a word it does not know stands for Unknown. */
  predicate Means(word: string, state: JobState) {
    match state
    case Succeeded => word == "successful"
    case Failed => word == "failed" || word == "error"
    case Canceled => word == "canceled"
    case Pending => word == "pending"
    case Waiting => word == "waiting"
    case Running => word == "running"
    case Unknown => word !in {"successful", "failed", "error", "canceled", "pending", "waiting", "running"}
  }

  predicate Finished(word: string) { word in {"successful", "failed", "error", "canceled"} }

  predicate Unsuccessful(word: string) { word in {"failed", "error", "canceled"} }

  /** AAP answers a question about the job. */
  predicate Answers(cfg: Config, srv: Server, id: string, input: PassInput) {
    !input.getFails && Seen(cfg, srv, id)
  }

  /** The message of a polled job: the word, with the traceback of a failed job if there is one. */
  function Wording(word: string, traceback: string): Message {
    if (word == "failed" || word == "error") && traceback != "" then ReportedWithDetails(word, traceback)
    else Reported(word)
  }

  /** The latest entry of the type differs from what it was in state and message only; other jobs' entries stay. */
  ghost predicate OnlyUpdates(jobs: seq<JobStatus>, jobs': seq<JobStatus>, t: JobType, state: JobState,
                              message: Message) {
    && Latest(jobs, t).Some? && |jobs'| == |jobs|
    && Latest(jobs', t) == Some(Latest(jobs, t).value.(state := state, message := message))
    && forall k :: 0 <= k < |jobs| && jobs[k].jobID != Latest(jobs, t).value.jobID ==> jobs'[k] == jobs[k]
  }

  /** The state AAP's answer stands for; without an answer the state the entry has. */
  ghost predicate StateAfterPoll(cfg: Config, srv: Server, job: JobStatus, input: PassInput, state: JobState,
                                 message: Message) {
    if Answers(cfg, srv, job.jobID, input) then
      Means(srv.jobs[job.jobID].status, state) && message == Wording(srv.jobs[job.jobID].status, input.traceback)
    else state == job.state && message == PollFailed(input.errText)
  }

  lemma AnswerMeans(cfg: Config, srv: Server, job: JobStatus, input: PassInput)
    requires job.jobID != ""
    ensures var r := GetAAPJobStatus(cfg, srv, job.jobID, input);
            && (r.StatusOk? <==> Answers(cfg, srv, job.jobID, input))
            && (r.StatusOk? ==> StateAfterPoll(cfg, srv, job, input, r.status.state, r.status.message))
            && (r.StatusOk? ==> (r.status.state.IsTerminal() <==> Finished(srv.jobs[job.jobID].status)))
            && (r.StatusOk? ==> (r.status.state.IsSuccessful() <==> srv.jobs[job.jobID].status == "successful"))
  {
  }

  // ---------- polls ----------

  /** A pass that polls a real provision job of AAP's: what it stores, the phase, and when it wants the next call. */
  lemma ProvisionPollMeans(cfg: Config, cr: Cr, srv: Server, input: PassInput)
    requires cfg.provider == AAP && !cr.management.Manual? && !NeedsTrigger(cr.status.jobs, Provision)
    ensures var o := HandleProvisioning(cfg, cr, srv, input);
            var job := Latest(cr.status.jobs, Provision).value;
            var answered := Answers(cfg, srv, job.jobID, input);
            && Latest(o.cr.status.jobs, Provision).Some?
            && var now := Latest(o.cr.status.jobs, Provision).value;
               && StateAfterPoll(cfg, srv, job, input, now.state, now.message)
               && OnlyUpdates(cr.status.jobs, o.cr.status.jobs, Provision, now.state, now.message)
               && o.requeueAfter == (if answered && Finished(srv.jobs[job.jobID].status) then 0 else cfg.pollInterval)
               && o.cr.status.phase == (if answered && Unsuccessful(srv.jobs[job.jobID].status) then Phase.Failed
                                        else cr.status.phase)
               && o.cr == cr.(status := cr.status.(jobs := o.cr.status.jobs, phase := o.cr.status.phase))
               && o.srv == srv && !o.failed
  {
    var job := Latest(cr.status.jobs, Provision).value;
    AnswerMeans(cfg, srv, job, input);
    var r := GetAAPJobStatus(cfg, srv, job.jobID, input);
    if r.StatusOk? {
      PollStores(cr.status.jobs, Provision, r.status.state, r.status.message);
    } else {
      PollStores(cr.status.jobs, Provision, job.state, PollFailed(input.errText));
    }
  }

  /** With EDA a provision poll learns nothing and asks again. */
  lemma EDAProvisionPollMeans(cfg: Config, cr: Cr, srv: Server, input: PassInput)
    requires cfg.provider == EDA && !cr.management.Manual? && !NeedsTrigger(cr.status.jobs, Provision)
    ensures var o := HandleProvisioning(cfg, cr, srv, input);
            && OnlyUpdates(cr.status.jobs, o.cr.status.jobs, Provision, Unknown, PollingUnsupported)
            && o == Outcome(cr.(status := cr.status.(jobs := o.cr.status.jobs)), srv, cfg.pollInterval, false)
  {
    PollStores(cr.status.jobs, Provision, Unknown, PollingUnsupported);
  }

  /** A pass that polls a real deprovision job of AAP's. It lets the deletion go on only on a success, or on a failure
      that does not block. */
  lemma DeprovisionPollMeans(cfg: Config, cr: Cr, srv: Server, input: PassInput)
    requires cfg.provider == AAP && !cr.management.Manual? && !NeedsTrigger(cr.status.jobs, Deprovision)
    ensures var o := HandleDeprovisioning(cfg, cr, srv, input);
            var job := Latest(cr.status.jobs, Deprovision).value;
            && Latest(o.cr.status.jobs, Deprovision).Some?
            && var now := Latest(o.cr.status.jobs, Deprovision).value;
               && StateAfterPoll(cfg, srv, job, input, now.state, now.message)
               && OnlyUpdates(cr.status.jobs, o.cr.status.jobs, Deprovision, now.state, now.message)
               && o.requeueAfter == (if Answers(cfg, srv, job.jobID, input)
                                        && (|| srv.jobs[job.jobID].status == "successful"
                                            || (Unsuccessful(srv.jobs[job.jobID].status)
                                                && !job.blockDeletionOnFailure))
                                     then 0 else cfg.pollInterval)
               && o.cr == cr.(status := cr.status.(jobs := o.cr.status.jobs)) && o.srv == srv && !o.failed
  {
    var job := Latest(cr.status.jobs, Deprovision).value;
    AnswerMeans(cfg, srv, job, input);
    var r := GetAAPJobStatus(cfg, srv, job.jobID, input);
    if r.StatusOk? {
      PollStores(cr.status.jobs, Deprovision, r.status.state, r.status.message);
    } else {
      PollStores(cr.status.jobs, Deprovision, job.state, PollFailed(input.errText));
    }
  }

  /** With EDA the playbook's finalizer says whether the deprovision job is done. */
  lemma EDADeprovisionPollMeans(cfg: Config, cr: Cr, srv: Server, input: PassInput)
    requires cfg.provider == EDA && !cr.management.Manual? && !NeedsTrigger(cr.status.jobs, Deprovision)
    ensures var o := HandleDeprovisioning(cfg, cr, srv, input);
            && (if Aap in cr.finalizers
                then OnlyUpdates(cr.status.jobs, o.cr.status.jobs, Deprovision, JobState.Running, PlaybookRunning)
                else OnlyUpdates(cr.status.jobs, o.cr.status.jobs, Deprovision, Succeeded, PlaybookDone))
            && o == Outcome(cr.(status := cr.status.(jobs := o.cr.status.jobs)), srv,
                            if Aap in cr.finalizers then cfg.pollInterval else 0, false)
  {
    PollStores(cr.status.jobs, Deprovision, JobState.Running, PlaybookRunning);
    PollStores(cr.status.jobs, Deprovision, Succeeded, PlaybookDone);
  }

  // ---------- triggers ----------

  /** The entry that is appended and the list after it, trimmed from the front. */
  ghost predicate Appends(jobs: seq<JobStatus>, jobs': seq<JobStatus>, job: JobStatus, maxHistory: nat) {
    jobs' == if |jobs| < maxHistory then jobs + [job]
             else if maxHistory == 0 then []
             else jobs[|jobs| - (maxHistory - 1)..] + [job]
  }

  lemma AppendJobAppends(jobs: seq<JobStatus>, job: JobStatus, maxHistory: nat)
    ensures Appends(jobs, AppendJob(jobs, job, maxHistory), job, maxHistory)
  {
  }

  /** A provisioning trigger records what was launched, or the failure, and asks to be called again; a rate limit
      records nothing and asks for the delay. */
  lemma ProvisionTriggerMeans(cfg: Config, cr: Cr, srv: Server, input: PassInput)
    requires !cr.management.Manual? && NeedsTrigger(cr.status.jobs, Provision)
    ensures var o := HandleProvisioning(cfg, cr, srv, input);
            if cfg.provider == EDA && input.launch.LaunchRateLimited?
            then o == Outcome(cr, srv, input.launch.delay, false)
            else
              && o.cr == cr.(status := cr.status.(jobs := o.cr.status.jobs))
              && o.requeueAfter == cfg.pollInterval && !o.failed
              && Appends(cr.status.jobs, o.cr.status.jobs, ProvisionEntry(cfg, cr.status.jobs, input),
                         cfg.maxJobHistory)
  {
    var entry := ProvisionEntry(cfg, cr.status.jobs, input);
    AppendJobAppends(cr.status.jobs, entry, cfg.maxJobHistory);
    TriggerProvisioningMeans(cfg, cr, srv, input);
  }

  lemma TriggerProvisioningMeans(cfg: Config, cr: Cr, srv: Server, input: PassInput)
    ensures var o := TriggerProvisioning(cfg, cr, srv, input);
            if cfg.provider == EDA && input.launch.LaunchRateLimited?
            then o == Outcome(cr, srv, input.launch.delay, false)
            else
              && o.cr == cr.(status := cr.status.(jobs := o.cr.status.jobs))
              && o.requeueAfter == cfg.pollInterval && !o.failed
              && o.cr.status.jobs
                 == AppendJob(cr.status.jobs, ProvisionEntry(cfg, cr.status.jobs, input), cfg.maxJobHistory)
  {
  }

  function ProvisionEntry(cfg: Config, jobs: seq<JobStatus>, input: PassInput): JobStatus {
    match (input.launch, cfg.provider)
    case (LaunchOk(n), AAP) => JobStatus(Itoa(n), Provision, input.now, Pending, Triggered, false)
    case (LaunchOk(_), EDA) => JobStatus(GenerateID(jobs), Provision, input.now, JobState.Running, WebhookSent, false)
    case _ => JobStatus("", Provision, input.now, JobState.Failed, TriggerFailed(input.errText), false)
  }

  /** The entry of a launched deprovision job; only AAP's block deletion when they fail. */
  function DeprovisionEntry(cfg: Config, jobs: seq<JobStatus>, now: int, n: int): JobStatus {
    JobStatus(if cfg.provider == AAP then Itoa(n) else GenerateID(jobs), Deprovision, now, Pending, Triggered,
              cfg.provider == AAP)
  }

  /** With EDA: without the playbook's finalizer there is nothing to do; otherwise the webhook is sent. */
  lemma EDADeprovisionTriggerMeans(cfg: Config, cr: Cr, srv: Server, input: PassInput)
    requires cfg.provider == EDA && !cr.management.Manual? && NeedsTrigger(cr.status.jobs, Deprovision)
    ensures var o := HandleDeprovisioning(cfg, cr, srv, input);
            if Aap !in cr.finalizers then o == Outcome(cr, srv, 0, false)
            else
              && o.cr == cr.(status := cr.status.(jobs := o.cr.status.jobs)) && !o.failed
              && o.requeueAfter == (if input.launch.LaunchRateLimited? then input.launch.delay else cfg.pollInterval)
              && if input.launch.LaunchOk?
                 then Appends(cr.status.jobs, o.cr.status.jobs,
                              DeprovisionEntry(cfg, cr.status.jobs, input.now, input.launch.n), cfg.maxJobHistory)
                 else o.cr.status.jobs == cr.status.jobs
  {
    var entry := DeprovisionEntry(cfg, cr.status.jobs, input.now, if input.launch.LaunchOk? then input.launch.n else 0);
    AppendJobAppends(cr.status.jobs, entry, cfg.maxJobHistory);
    EDATriggerRecords(cfg, cr, srv, input);
  }

  lemma EDATriggerRecords(cfg: Config, cr: Cr, srv: Server, input: PassInput)
    requires cfg.provider == EDA
    ensures var o := TriggerDeprovisioning(cfg, cr, srv, input);
            if Aap !in cr.finalizers then o == Outcome(cr, srv, 0, false)
            else
              && o.cr == cr.(status := cr.status.(jobs := o.cr.status.jobs)) && !o.failed
              && o.requeueAfter == (if input.launch.LaunchRateLimited? then input.launch.delay else cfg.pollInterval)
              && o.cr.status.jobs
                 == (if input.launch.LaunchOk?
                     then AppendJob(cr.status.jobs, DeprovisionEntry(cfg, cr.status.jobs, input.now, input.launch.n),
                                    cfg.maxJobHistory)
                     else cr.status.jobs)
  {
  }

  /** What AAP says of the provision job a deletion has to wait for. */
  datatype ProvisionWord =
    | NothingToAsk        // no provision job, or a webhook's, which AAP cannot be asked about
    | WebhookBusy         // a webhook's job, with a deprovision entry already there
    | NotKnown            // the job endpoint answers 404
    | NoAnswer
    | Says(word: string)

  /** In phase Deleting. */
  function AskProvision(cfg: Config, jobs: seq<JobStatus>, srv: Server, input: PassInput): ProvisionWord {
    match Latest(jobs, Provision)
    case None => NothingToAsk
    case Some(job) =>
      if IsEDAJobID(job.jobID) then if Latest(jobs, Deprovision).None? then NothingToAsk else WebhookBusy
      else
        match GetJob(cfg, srv, job.jobID, input)
        case GetFailed => NoAnswer
        case JobNotFound => NotKnown
        case JobFound(word) => Says(word)
  }

  /** The list with AAP's word about the provision job written to it, without error details. */
  ghost predicate WordRecorded(jobs: seq<JobStatus>, jobs': seq<JobStatus>, w: ProvisionWord) {
    if w.Says? then exists state :: Means(w.word, state) && OnlyUpdates(jobs, jobs', Provision, state, Reported(w.word))
    else jobs' == jobs
  }

  predicate MayDeprovision(w: ProvisionWord) {
    w.NothingToAsk? || w.NotKnown? || (w.Says? && Finished(w.word))
  }

  lemma AskedIsReady(cfg: Config, cr: Cr, srv: Server, input: PassInput)
    requires cfg.provider == AAP && cr.status.phase == Deleting
    ensures AsksToDeprovision(cfg, cr, srv, input) <==> MayDeprovision(AskProvision(cfg, cr.status.jobs, srv, input))
  {
  }

  lemma WordIsRecorded(jobs: seq<JobStatus>, ps: ProvisionStatus, word: string)
    requires Latest(jobs, Provision).Some? && Means(word, ps.state) && WithoutDetails(ps.message) == Reported(word)
    ensures WordRecorded(jobs, RecordProvision(jobs, Some(ps)), Says(word))
  {
    PollStores(jobs, Provision, ps.state, Reported(word));
  }

  lemma AskedStatus(cfg: Config, status: Status, srv: Server, input: PassInput)
    requires status.phase == Deleting
    ensures var w, r := AskProvision(cfg, status.jobs, srv, input), IsReadyForDeprovision(cfg, status, srv, input);
            && (w.NothingToAsk? || w.NotKnown? ==> r == Ready(None))
            && (w.WebhookBusy? ==> r == NotReady(None))
            && (w.NoAnswer? ==> r == ReadinessError)
            && (w.Says? && Finished(w.word) ==> r.Ready? && r.provision.Some?)
            && (w.Says? && !Finished(w.word) && input.cancel.CancelFailed? ==> r == ReadinessError)
            && (w.Says? && !Finished(w.word) && !input.cancel.CancelFailed? ==> r.NotReady? && r.provision.Some?)
            && (w.Says? && !r.ReadinessError? ==>
                  && Means(w.word, r.provision.value.state)
                  && WithoutDetails(r.provision.value.message) == Reported(w.word))
  {
  }

  /** With AAP: wait while the provision job is unfinished, recording AAP's word about it; otherwise launch. Without an
      answer, when the cancel fails, or when the launch fails, nothing is recorded. */
  lemma DeprovisionTriggerMeans(cfg: Config, cr: Cr, srv: Server, input: PassInput)
    requires cfg.provider == AAP && !cr.management.Manual? && cr.status.phase == Deleting
    requires NeedsTrigger(cr.status.jobs, Deprovision)
    ensures var o := HandleDeprovisioning(cfg, cr, srv, input);
            var w := AskProvision(cfg, cr.status.jobs, srv, input);
            && o.cr == cr.(status := cr.status.(jobs := o.cr.status.jobs))
            && o.requeueAfter == cfg.pollInterval && !o.failed
            && if MayDeprovision(w) then
                 if input.launch.LaunchOk? then
                   exists mid :: && WordRecorded(cr.status.jobs, mid, w)
                                 && Appends(mid, o.cr.status.jobs,
                                            DeprovisionEntry(cfg, cr.status.jobs, input.now, input.launch.n),
                                            cfg.maxJobHistory)
                 else o.cr.status.jobs == cr.status.jobs
               else if w.NoAnswer? || (w.Says? && input.cancel.CancelFailed?) then o.cr.status.jobs == cr.status.jobs
               else WordRecorded(cr.status.jobs, o.cr.status.jobs, w)
  {
    var jobs, w := cr.status.jobs, AskProvision(cfg, cr.status.jobs, srv, input);
    var r := IsReadyForDeprovision(cfg, cr.status, srv, input);
    AskedStatus(cfg, cr.status, srv, input);
    if w.Says? && !r.ReadinessError? {
      WordIsRecorded(jobs, r.provision.value, w.word);
    }
    if MayDeprovision(w) && input.launch.LaunchOk? {
      var mid, entry := RecordProvision(jobs, r.provision), DeprovisionEntry(cfg, jobs, input.now, input.launch.n);
      AppendJobAppends(mid, entry, cfg.maxJobHistory);
      LaunchIsRecorded(cfg, cr, srv, input, r.provision);
      assert WordRecorded(jobs, mid, w);
    }
  }

  lemma LaunchIsRecorded(cfg: Config, cr: Cr, srv: Server, input: PassInput, ps: Option<ProvisionStatus>)
    requires cfg.provider == AAP && !cr.management.Manual? && NeedsTrigger(cr.status.jobs, Deprovision)
    requires IsReadyForDeprovision(cfg, cr.status, srv, input) == Ready(ps) && input.launch.LaunchOk?
    ensures HandleDeprovisioning(cfg, cr, srv, input).cr.status.jobs
         == AppendJob(RecordProvision(cr.status.jobs, ps),
                      DeprovisionEntry(cfg, cr.status.jobs, input.now, input.launch.n), cfg.maxJobHistory)
  {
  }

  /** Manual mode leaves everything to the user. */
  lemma ManualMeansNothing(cfg: Config, cr: Cr, srv: Server, input: PassInput)
    requires cr.management.Manual?
    ensures HandleProvisioning(cfg, cr, srv, input) == Outcome(cr, srv, 0, false)
    ensures HandleDeprovisioning(cfg, cr, srv, input) == Outcome(cr, srv, 0, false)
  {
  }

  // ---------- whole passes ----------

  /** An update pass has something to do for the provision job: a version to apply, or an unfinished job to follow. */
  predicate ProvisioningIsDue(cr: Cr, input: PassInput) {
    && Undisturbed(cr, input)
    && (cr.specVersion != ReconciledVersion(cr)
        || (Latest(cr.status.jobs, Provision).Some?
            && Latest(cr.status.jobs, Provision).value.state in {Pending, Waiting, JobState.Running, Unknown}))
  }

  /** The part of an outcome that does not depend on phase, versions and finalizers. */
  predicate SameHistoryPart(o: Outcome, p: Outcome) {
    o.cr.status.jobs == p.cr.status.jobs && o.srv == p.srv && o.requeueAfter == p.requeueAfter && o.failed == p.failed
  }

  lemma TriggerIgnoresRest(cfg: Config, a: Cr, b: Cr, srv: Server, input: PassInput)
    requires a.status.jobs == b.status.jobs
    ensures SameHistoryPart(TriggerProvisioning(cfg, a, srv, input), TriggerProvisioning(cfg, b, srv, input))
  {
  }

  lemma StatusIgnoresRest(cfg: Config, a: Cr, b: Cr, srv: Server, input: PassInput, job: JobStatus, r: StatusResult)
    requires a.status.jobs == b.status.jobs
    ensures SameHistoryPart(ApplyProvisionStatus(cfg, a, srv, input, job, r),
                            ApplyProvisionStatus(cfg, b, srv, input, job, r))
  {
  }

  lemma PollIgnoresRest(cfg: Config, a: Cr, b: Cr, srv: Server, input: PassInput)
    requires a.status.jobs == b.status.jobs && !NeedsTrigger(a.status.jobs, Provision)
    ensures SameHistoryPart(PollProvisioning(cfg, a, srv, input), PollProvisioning(cfg, b, srv, input))
  {
    var job := Latest(a.status.jobs, Provision).value;
    StatusIgnoresRest(cfg, a, b, srv, input, job, GetProvisionStatus(cfg, srv, job.jobID, input));
  }

  lemma HistoryPartIgnoresRest(cfg: Config, a: Cr, b: Cr, srv: Server, input: PassInput)
    requires a.status.jobs == b.status.jobs && a.management == b.management
    ensures SameHistoryPart(HandleProvisioning(cfg, a, srv, input), HandleProvisioning(cfg, b, srv, input))
  {
    if NeedsTrigger(a.status.jobs, Provision) {
      TriggerIgnoresRest(cfg, a, b, srv, input);
    } else {
      PollIgnoresRest(cfg, a, b, srv, input);
    }
  }

  /** Provisioning leaves the versions alone and reports no error. */
  lemma ProvisioningKeepsVersions(cfg: Config, cr: Cr, srv: Server, input: PassInput)
    ensures var o := HandleProvisioning(cfg, cr, srv, input);
            && o.cr.status.desiredVersion == cr.status.desiredVersion
            && o.cr.status.reconciledVersion == cr.status.reconciledVersion && !o.failed
  {
    if !cr.management.Manual? {
      if NeedsTrigger(cr.status.jobs, Provision) {
        TriggerKeepsVersions(cfg, cr, srv, input);
      } else {
        PollKeepsVersions(cfg, cr, srv, input);
      }
    }
  }

  lemma TriggerKeepsVersions(cfg: Config, cr: Cr, srv: Server, input: PassInput)
    ensures var o := TriggerProvisioning(cfg, cr, srv, input);
            !o.failed && o.cr == cr.(status := cr.status.(jobs := o.cr.status.jobs))
  {
    TriggerProvisioningMeans(cfg, cr, srv, input);
  }

  lemma PollKeepsVersions(cfg: Config, cr: Cr, srv: Server, input: PassInput)
    requires !NeedsTrigger(cr.status.jobs, Provision)
    ensures var o := PollProvisioning(cfg, cr, srv, input);
            !o.failed && o.cr == cr.(status := cr.status.(jobs := o.cr.status.jobs, phase := o.cr.status.phase))
  {
  }

  /** What the pass hands to provisioning. */
  function WithVersions(cr: Cr): Cr {
    cr.(status := cr.status.(desiredVersion := cr.specVersion, reconciledVersion := ReconciledVersion(cr),
                             phase := if cr.specVersion == ReconciledVersion(cr) then Phase.Running else Starting))
  }

  lemma VersionsHandOver(cfg: Config, cr: Cr, srv: Server, input: PassInput)
    requires Undisturbed(cr, input)
    ensures ReconcileVersions(cfg, cr, srv, input)
         == if ProvisioningIsDue(cr, input) then HandleProvisioning(cfg, WithVersions(cr), srv, input)
            else Outcome(WithVersions(cr), srv, 0, false)
  {
  }

  lemma UpdateContinues(cfg: Config, cr: Cr, srv: Server, input: PassInput)
    requires !cr.management.Unmanaged? && Undisturbed(cr, input)
    ensures var o, h := ReconcileVersions(cfg, cr, srv, input), HandleProvisioning(cfg, cr, srv, input);
            && (if ProvisioningIsDue(cr, input)
                then o.cr.status.jobs == h.cr.status.jobs && o.srv == h.srv && o.requeueAfter == h.requeueAfter
                else o.cr.status.jobs == cr.status.jobs && o.srv == srv && o.requeueAfter == 0)
            && !o.failed
            && o.cr.status.desiredVersion == cr.specVersion && o.cr.status.reconciledVersion == ReconciledVersion(cr)
  {
    VersionsHandOver(cfg, cr, srv, input);
    HistoryPartIgnoresRest(cfg, cr, WithVersions(cr), srv, input);
    ProvisioningKeepsVersions(cfg, WithVersions(cr), srv, input);
  }

  /** An update pass: history, server and delay are provisioning's when it is due and untouched otherwise; the versions
      are stored when the pass gets that far; it reports an error exactly when one of its calls failed; the base
      finalizer is there afterwards unless its own write failed. */
  lemma UpdatePassMeans(cfg: Config, cr: Cr, srv: Server, input: PassInput)
    requires !cr.deleting && !cr.management.Unmanaged?
    ensures var o, h := Reconcile(cfg, cr, srv, input), HandleProvisioning(cfg, cr, srv, input);
            var finalizerFails := Base !in cr.finalizers && input.updateFails;
            && (if ProvisioningIsDue(cr, input)
                then o.cr.status.jobs == h.cr.status.jobs && o.srv == h.srv && o.requeueAfter == h.requeueAfter
                else o.cr.status.jobs == cr.status.jobs && o.srv == srv && o.requeueAfter == 0)
            && (if Undisturbed(cr, input)
                then && o.cr.status.desiredVersion == cr.specVersion
                     && o.cr.status.reconciledVersion == ReconciledVersion(cr)
                else && o.cr.status.desiredVersion == cr.status.desiredVersion
                     && o.cr.status.reconciledVersion == cr.status.reconciledVersion)
            && o.cr.finalizers == (if finalizerFails then cr.finalizers else cr.finalizers + {Base})
            && (o.failed <==>
                  || finalizerFails || input.tenant.TenantError?
                  || (input.tenant.TenantReady? && (input.vmListFails || input.restartFails)))
  {
    if Undisturbed(cr, input) {
      var cr' := WithPhase(cr, Starting).(finalizers := cr.finalizers + {Base});
      HandleUpdateContinues(cfg, cr, srv, input);
      UpdateContinues(cfg, cr', srv, input);
      HistoryPartIgnoresRest(cfg, cr, cr', srv, input);
      ReconcileVersionsEffect(cfg, cr', srv, input);
    }
  }

  /** A delete pass: phase Deleting; with the base finalizer, history, server and delay are deprovisioning's, and the
      finalizer goes exactly when deprovisioning asks for no delay and the write succeeds; without it, nothing else. */
  lemma DeletePassMeans(cfg: Config, cr: Cr, srv: Server, input: PassInput)
    requires cr.deleting && !cr.management.Unmanaged?
    ensures var o := Reconcile(cfg, cr, srv, input);
            var h := HandleDeprovisioning(cfg, cr.(status := cr.status.(phase := Deleting)), srv, input);
            && o.cr.status.phase == Deleting
            && (if Base in cr.finalizers then
                  && o.cr.status.jobs == h.cr.status.jobs && o.srv == h.srv
                  && (Base !in o.cr.finalizers <==> h.requeueAfter <= 0 && !input.updateFails)
                  && (o.failed <==> h.requeueAfter <= 0 && input.updateFails)
                  && o.requeueAfter == (if h.requeueAfter > 0 then h.requeueAfter else 0)
                else o == Outcome(cr.(status := cr.status.(phase := Deleting)), srv, 0, false))
  {
    var cr' := cr.(status := cr.status.(phase := Deleting));
    if !cr.management.Manual? {
      if NeedsTrigger(cr.status.jobs, Deprovision) {
        TriggerDeprovisioningEffect(cfg, cr', srv, input);
      } else {
        PollDeprovisioningEffect(cfg, cr', srv, input);
      }
    }
    DeprovisioningNeverFails(cfg, cr', srv, input);
  }

  lemma DeprovisioningNeverFails(cfg: Config, cr: Cr, srv: Server, input: PassInput)
    ensures !HandleDeprovisioning(cfg, cr, srv, input).failed
  {
  }

  /** An unmanaged CR is left alone. */
  lemma UnmanagedMeansNothing(cfg: Config, cr: Cr, srv: Server, input: PassInput)
    requires cr.management.Unmanaged?
    ensures Reconcile(cfg, cr, srv, input) == Outcome(cr, srv, 0, false)
  {
  }
}
