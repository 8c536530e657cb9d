// The ComputeInstance lifecycle as a transition system. One custom resource (CR), the provisioning server, the
// main controller, the feedback controller, the playbook and the user act on a shared world. Everything a
// controller cannot foresee (server replies, faults, the clock) arrives as input of its step.

module Providers {
  import opened Options
  import opened Jobs
  import opened JobIds
  import opened Decimal

  datatype Provider = AAP | EDA

  datatype Config = Config(
    provider: Provider,
    pollInterval: int,     // StatusPollInterval
    maxJobHistory: nat,    // MaxJobHistory
    strictClock: bool,     // assumption: a pass's time is later than every stored job timestamp
    allowManual: bool,     // whether the user may set the Manual management annotation
    unseen: set<JobType>   // job types launched as workflow jobs, which the job endpoint answers with 404
  )

  datatype Finalizer = Base | Aap | Feedback | Other

  datatype Management = Managed | Manual | Unmanaged

  datatype Phase = NoPhase | Starting | Running | Failed | Deleting

  datatype Status = Status(phase: Phase, jobs: seq<JobStatus>, desiredVersion: string, reconciledVersion: string)

  datatype Cr = Cr(version: nat, deleting: bool, finalizers: set<Finalizer>, labelled: bool, management: Management,
                   specVersion: string, annotatedVersion: Option<string>, status: Status)

  // ---------- the server side ----------

  datatype AapJob = AapJob(kind: JobType, status: string)

  /** launched: jobs (or webhooks) that really started. lost: those whose ID never reached the stored status,
      because the reply or the status write was lost. */
  datatype Tally = Tally(launched: nat, lost: nat)

  datatype Server = Server(jobs: map<string, AapJob>, issued: set<string>, provision: Tally, deprovision: Tally) {
    function Of(t: JobType): Tally { if t == Provision then provision else deprovision }
    function With(t: JobType, tally: Tally): Server {
      if t == Provision then this.(provision := tally) else this.(deprovision := tally)
    }
  }

  datatype GetReply = JobFound(status: string) | JobNotFound | GetFailed

  datatype LaunchReply = LaunchOk(n: int) | LaunchRejected | LaunchLost(n: int) | LaunchRateLimited(delay: int)

  datatype CancelReply = CancelAccepted | CancelNotAllowed | CancelFailed

  /** TenantError: reading the tenant, or creating a missing one, failed. */
  datatype TenantReply = TenantError | TenantMissing | TenantNotReady | TenantReady

  /** All answers a main pass may need. */
  datatype PassInput = PassInput(
    now: int, tenant: TenantReply, vmListFails: bool, restartFails: bool, updateFails: bool,
    getFails: bool, blankReply: GetReply, traceback: string, cancel: CancelReply, launch: LaunchReply, errText: string)

  // ---------- AAP job status ----------

  datatype ProvisionStatus = ProvisionStatus(state: JobState, message: Message)

  datatype StatusResult = StatusOk(status: ProvisionStatus) | StatusNotFound | StatusError

  function MapAAPStatusToJobState(status: string): JobState {
    if status == "successful" then Succeeded
    else if status == "failed" || status == "error" then JobState.Failed
    else if status == "canceled" then Canceled
    else if status == "pending" then Pending
    else if status == "waiting" then Waiting
    else if status == "running" then JobState.Running
    else Unknown
  }

  /** The job endpoint knows the job: it is there, and it was not launched as a workflow job. */
  predicate Seen(cfg: Config, srv: Server, jobID: string) {
    jobID in srv.jobs && srv.jobs[jobID].kind !in cfg.unseen
  }

  /** What the server answers to GetJob. Asked for the empty ID (a recorded failed trigger) it may say anything. */
  function GetJob(cfg: Config, srv: Server, jobID: string, input: PassInput): GetReply {
    if input.getFails then GetFailed
    else if jobID == "" then input.blankReply
    else if Seen(cfg, srv, jobID) then JobFound(srv.jobs[jobID].status)
    else JobNotFound
  }

  function GetAAPJobStatus(cfg: Config, srv: Server, jobID: string, input: PassInput): StatusResult {
    match GetJob(cfg, srv, jobID, input)
    case GetFailed => StatusError
    case JobNotFound => StatusNotFound
    case JobFound(s) =>
      var state := MapAAPStatusToJobState(s);
      var detailed := state == JobState.Failed && input.traceback != "";
      StatusOk(ProvisionStatus(state, if detailed then ReportedWithDetails(s, input.traceback) else Reported(s)))
  }

  function GetProvisionStatus(cfg: Config, srv: Server, jobID: string, input: PassInput): StatusResult {
    match cfg.provider
    case AAP => GetAAPJobStatus(cfg, srv, jobID, input)
    case EDA => StatusOk(ProvisionStatus(Unknown, PollingUnsupported))
  }

  function GetDeprovisionStatus(cfg: Config, cr: Cr, srv: Server, jobID: string, input: PassInput): StatusResult {
    match cfg.provider
    case AAP => GetAAPJobStatus(cfg, srv, jobID, input)
    case EDA =>
      if Aap !in cr.finalizers then StatusOk(ProvisionStatus(Succeeded, PlaybookDone))
      else StatusOk(ProvisionStatus(JobState.Running, PlaybookRunning))
  }

  // ---------- launching ----------

  /** The server after a launch request. A lost reply still starts the job. */
  function Launch(cfg: Config, srv: Server, kind: JobType, reply: LaunchReply): Server {
    match reply
    case LaunchRejected => srv
    case LaunchRateLimited(_) => srv
    case LaunchOk(n) => Start(cfg, srv, kind, n, 0)
    case LaunchLost(n) => Start(cfg, srv, kind, n, 1)
  }

  function Start(cfg: Config, srv: Server, kind: JobType, n: int, lost: nat): Server {
    var tally := srv.Of(kind);
    var counted := srv.With(kind, Tally(tally.launched + 1, tally.lost + lost));
    if cfg.provider == AAP then
      counted.(jobs := srv.jobs[Itoa(n) := AapJob(kind, "pending")], issued := srv.issued + {Itoa(n)})
    else counted
  }

  /** The ID a successful launch is recorded under. */
  function LaunchedID(cfg: Config, jobs: seq<JobStatus>, n: int): string {
    if cfg.provider == AAP then Itoa(n) else GenerateID(jobs)
  }

  datatype ProvisionResult =
    | ProvisionError
    | ProvisionRateLimited(delay: int)
    | ProvisionTriggered(jobID: string, initialState: JobState, message: Message)

  function TriggerProvision(cfg: Config, status: Status, input: PassInput): ProvisionResult {
    match input.launch
    case LaunchRejected => ProvisionError
    case LaunchLost(_) => ProvisionError
    case LaunchRateLimited(d) => if cfg.provider == EDA then ProvisionRateLimited(d) else ProvisionError
    case LaunchOk(n) =>
      if cfg.provider == AAP then ProvisionTriggered(Itoa(n), Pending, Triggered)
      else ProvisionTriggered(GenerateID(status.jobs), JobState.Running, WebhookSent)
  }

  datatype Readiness =
    | Ready(provision: Option<ProvisionStatus>)
    | NotReady(provision: Option<ProvisionStatus>)
    | ReadinessError

  /** A 405 on cancel is swallowed: it counts as a cancellation under way, so the caller waits. */
  predicate CancelErrors(reply: CancelReply) { reply.CancelFailed? }

  function IsReadyForDeprovision(cfg: Config, status: Status, srv: Server, input: PassInput): Readiness {
    match Latest(status.jobs, Provision)
    case None => Ready(None)
    case Some(job) =>
      if IsEDAJobID(job.jobID) then
        match status.phase
        case Running => Ready(None)
        case Failed => Ready(None)
        case Deleting => if Latest(status.jobs, Deprovision).None? then Ready(None) else NotReady(None)
        case _ => NotReady(None)
      else
        match GetAAPJobStatus(cfg, srv, job.jobID, input)
        case StatusNotFound => Ready(None)
        case StatusError => ReadinessError
        case StatusOk(ps) =>
          if ps.state.IsTerminal() then Ready(Some(ps))
          else if CancelErrors(input.cancel) then ReadinessError
          else NotReady(Some(ps))
  }

  datatype DeprovisionResult =
    | DeprovisionError
    | DeprovisionRateLimited(delay: int)
    | DeprovisionWaiting(provision: Option<ProvisionStatus>)
    | DeprovisionSkipped
    | DeprovisionTriggered(jobID: string, block: bool, provision: Option<ProvisionStatus>)

  /** Whether TriggerDeprovision gets as far as asking for a launch. */
  predicate AsksToDeprovision(cfg: Config, cr: Cr, srv: Server, input: PassInput) {
    match cfg.provider
    case AAP => IsReadyForDeprovision(cfg, cr.status, srv, input).Ready?
    case EDA => Aap in cr.finalizers
  }

  function TriggerDeprovision(cfg: Config, cr: Cr, srv: Server, input: PassInput): DeprovisionResult {
    match cfg.provider
    case AAP =>
      (match IsReadyForDeprovision(cfg, cr.status, srv, input)
       case ReadinessError => DeprovisionError
       case NotReady(ps) => DeprovisionWaiting(ps)
       case Ready(ps) =>
         if input.launch.LaunchOk? then DeprovisionTriggered(Itoa(input.launch.n), true, ps) else DeprovisionError)
    case EDA =>
      if Aap !in cr.finalizers then DeprovisionSkipped
      else
        match input.launch
        case LaunchOk(n) => DeprovisionTriggered(GenerateID(cr.status.jobs), false, None)
        case LaunchRateLimited(d) => DeprovisionRateLimited(d)
        case _ => DeprovisionError
  }
}

module Passes {
  import opened Options
  import opened Jobs
  import opened Providers

  /** What a handler leaves behind: the CR (metadata as stored, status as in memory), the server, and the result. */
  datatype Outcome = Outcome(cr: Cr, srv: Server, requeueAfter: int, failed: bool)

  /** No job yet, or only a failed trigger recorded with the empty ID. */
  predicate NeedsTrigger(jobs: seq<JobStatus>, t: JobType) {
    Latest(jobs, t).None? || Latest(jobs, t).value.jobID == ""
  }

  function WithJobs(cr: Cr, jobs: seq<JobStatus>): Cr {
    cr.(status := cr.status.(jobs := jobs))
  }

  function WithPhase(cr: Cr, phase: Phase): Cr {
    cr.(status := cr.status.(phase := phase))
  }

  function NewJob(jobID: string, t: JobType, now: int, state: JobState, message: Message, block: bool): JobStatus {
    JobStatus(jobID, t, now, state, message, block)
  }

  function TriggerProvisioning(cfg: Config, cr: Cr, srv: Server, input: PassInput): Outcome {
    var srv' := Launch(cfg, srv, Provision, input.launch);
    match TriggerProvision(cfg, cr.status, input)
    case ProvisionRateLimited(d) => Outcome(cr, srv', d, false)
    case ProvisionError =>
      var job := NewJob("", Provision, input.now, JobState.Failed, TriggerFailed(input.errText), false);
      Outcome(WithJobs(cr, AppendJob(cr.status.jobs, job, cfg.maxJobHistory)), srv', cfg.pollInterval, false)
    case ProvisionTriggered(id, state, message) =>
      var job := NewJob(id, Provision, input.now, state, message, false);
      Outcome(WithJobs(cr, AppendJob(cr.status.jobs, job, cfg.maxJobHistory)), srv', cfg.pollInterval, false)
  }

  function PollProvisioning(cfg: Config, cr: Cr, srv: Server, input: PassInput): Outcome
    requires !NeedsTrigger(cr.status.jobs, Provision)
  {
    var job := Latest(cr.status.jobs, Provision).value;
    ApplyProvisionStatus(cfg, cr, srv, input, job, GetProvisionStatus(cfg, srv, job.jobID, input))
  }

  function ApplyProvisionStatus(cfg: Config, cr: Cr, srv: Server, input: PassInput, job: JobStatus,
                                result: StatusResult): Outcome
  {
    match result
    case StatusOk(ps) =>
      var cr' := WithJobs(cr, PollLatest(cr.status.jobs, Provision, ps.state, ps.message));
      if !ps.state.IsTerminal() then Outcome(cr', srv, cfg.pollInterval, false)
      else if ps.state.IsSuccessful() then Outcome(cr', srv, 0, false)
      else Outcome(WithPhase(cr', Phase.Failed), srv, 0, false)
    case _ =>
      var jobs := PollLatest(cr.status.jobs, Provision, job.state, PollFailed(input.errText));
      Outcome(WithJobs(cr, jobs), srv, cfg.pollInterval, false)
  }

  function HandleProvisioning(cfg: Config, cr: Cr, srv: Server, input: PassInput): Outcome {
    if cr.management.Manual? then Outcome(cr, srv, 0, false)
    else if NeedsTrigger(cr.status.jobs, Provision) then TriggerProvisioning(cfg, cr, srv, input)
    else PollProvisioning(cfg, cr, srv, input)
  }

  /** Here the error details of a failed job are not copied. */
  function WithoutDetails(m: Message): Message {
    if m.ReportedWithDetails? then Reported(m.status) else m
  }

  /** The provision status a provider returned is written to the latest provision job. */
  function RecordProvision(jobs: seq<JobStatus>, ps: Option<ProvisionStatus>): seq<JobStatus> {
    match ps
    case None => jobs
    case Some(s) => PollLatest(jobs, Provision, s.state, WithoutDetails(s.message))
  }

  function TriggerDeprovisioning(cfg: Config, cr: Cr, srv: Server, input: PassInput): Outcome {
    var srv' := if AsksToDeprovision(cfg, cr, srv, input) then Launch(cfg, srv, Deprovision, input.launch) else srv;
    ApplyDeprovisionResult(cfg, cr, srv', input, TriggerDeprovision(cfg, cr, srv, input))
  }

  /** The switch on the provider's action. */
  function ApplyDeprovisionResult(cfg: Config, cr: Cr, srv: Server, input: PassInput,
                                  result: DeprovisionResult): Outcome
  {
    match result
    case DeprovisionRateLimited(d) => Outcome(cr, srv, d, false)
    case DeprovisionError => Outcome(cr, srv, cfg.pollInterval, false)
    case DeprovisionWaiting(ps) =>
      Outcome(WithJobs(cr, RecordProvision(cr.status.jobs, ps)), srv, cfg.pollInterval, false)
    case DeprovisionSkipped => Outcome(cr, srv, 0, false)
    case DeprovisionTriggered(id, block, ps) =>
      var job := NewJob(id, Deprovision, input.now, Pending, Triggered, block);
      var jobs := AppendJob(RecordProvision(cr.status.jobs, ps), job, cfg.maxJobHistory);
      Outcome(WithJobs(cr, jobs), srv, cfg.pollInterval, false)
  }

  function PollDeprovisioning(cfg: Config, cr: Cr, srv: Server, input: PassInput): Outcome
    requires !NeedsTrigger(cr.status.jobs, Deprovision)
  {
    var job := Latest(cr.status.jobs, Deprovision).value;
    ApplyDeprovisionStatus(cfg, cr, srv, input, job, GetDeprovisionStatus(cfg, cr, srv, job.jobID, input))
  }

  function ApplyDeprovisionStatus(cfg: Config, cr: Cr, srv: Server, input: PassInput, job: JobStatus,
                                  result: StatusResult): Outcome
  {
    match result
    case StatusOk(ps) =>
      var cr' := WithJobs(cr, PollLatest(cr.status.jobs, Deprovision, ps.state, ps.message));
      if !ps.state.IsTerminal() then Outcome(cr', srv, cfg.pollInterval, false)
      else if ps.state.IsSuccessful() then Outcome(cr', srv, 0, false)
      else if job.blockDeletionOnFailure then Outcome(cr', srv, cfg.pollInterval, false)
      else Outcome(cr', srv, 0, false)
    case _ =>
      var jobs := PollLatest(cr.status.jobs, Deprovision, job.state, PollFailed(input.errText));
      Outcome(WithJobs(cr, jobs), srv, cfg.pollInterval, false)
  }

  function HandleDeprovisioning(cfg: Config, cr: Cr, srv: Server, input: PassInput): Outcome {
    if cr.management.Manual? then Outcome(cr, srv, 0, false)
    else if NeedsTrigger(cr.status.jobs, Deprovision) then TriggerDeprovisioning(cfg, cr, srv, input)
    else PollDeprovisioning(cfg, cr, srv, input)
  }

  /** The part of handleUpdate after the tenant, the VM and the restart have been dealt with. */
  function ReconcileVersions(cfg: Config, cr: Cr, srv: Server, input: PassInput): Outcome {
    var reconciled := if cr.annotatedVersion.Some? then cr.annotatedVersion.value else "";
    var st := cr.status.(desiredVersion := cr.specVersion, reconciledVersion := reconciled);
    if st.desiredVersion == st.reconciledVersion then
      var cr' := WithPhase(cr.(status := st), Phase.Running);
      var job := Latest(st.jobs, Provision);
      if job.Some? && !job.value.state.IsTerminal() then HandleProvisioning(cfg, cr', srv, input)
      else Outcome(cr', srv, 0, false)
    else
      HandleProvisioning(cfg, WithPhase(cr.(status := st), Starting), srv, input)
  }

  function HandleUpdate(cfg: Config, cr: Cr, srv: Server, input: PassInput): Outcome {
    var started := WithPhase(cr, Starting);
    if Base !in cr.finalizers && input.updateFails then Outcome(started, srv, 0, true)
    else
      var cr' := started.(finalizers := cr.finalizers + {Base});
      if input.tenant.TenantError? then Outcome(cr', srv, 0, true)
      else if !input.tenant.TenantReady? then Outcome(cr', srv, 0, false)
      else if input.vmListFails || input.restartFails then Outcome(cr', srv, 0, true)
      else ReconcileVersions(cfg, cr', srv, input)
  }

  function HandleDelete(cfg: Config, cr: Cr, srv: Server, input: PassInput): Outcome {
    var cr' := WithPhase(cr, Deleting);
    if Base !in cr.finalizers then Outcome(cr', srv, 0, false)
    else
      var o := HandleDeprovisioning(cfg, cr', srv, input);
      if o.requeueAfter > 0 then o
      else if input.updateFails then Outcome(o.cr, o.srv, 0, true)
      else Outcome(o.cr.(finalizers := o.cr.finalizers - {Base}), o.srv, 0, false)
  }

  function Reconcile(cfg: Config, cr: Cr, srv: Server, input: PassInput): Outcome {
    if cr.management.Unmanaged? then Outcome(cr, srv, 0, false)
    else if cr.deleting then HandleDelete(cfg, cr, srv, input)
    else HandleUpdate(cfg, cr, srv, input)
  }
}

module Lifecycle {
  import opened Options
  import opened Decimal
  import opened Providers
  import opened Passes

  /** A main pass that has returned but whose status is not written yet, with the launches only it knows of. */
  datatype PendingStatus = PendingStatus(status: Status, provision: nat, deprovision: nat)

  datatype FeedbackTask = Idle | HasRead(v: nat) | HasSaved(v: nat)

  datatype RecordState = Unspecified | RecordStarting | RecordRunning | RecordFailed | RecordDeleting

  /** past holds every stored version of the CR, indexed by its version, so that a reader may see a stale one.
      armed records that deletion began on a labelled CR holding the base and the feedback finalizer. */
  datatype World = World(cr: Option<Cr>, past: seq<Cr>, srv: Server, pending: Option<PendingStatus>,
                         feedback: FeedbackTask, record: RecordState, armed: bool)

  datatype Step =
    | MainPass(input: PassInput)
    | MainCommit(failed: bool)
    | FeedbackRead(v: nat)
    | FeedbackAddFinalizer
    | FeedbackSave
    | FeedbackRemoveFinalizer
    | FeedbackDropUnlabelled
    | FeedbackAbort
    | JobProgress(jobID: string, status: string)
    | JobPurge(jobID: string)
    | PlaybookAddFinalizer
    | PlaybookRemoveFinalizer
    | PlaybookAnnotate(version: Option<string>)
    | UserEdit(specVersion: string)
    | UserAnnotate(management: Management)
    | UserDelete
    | OtherAddFinalizer
    | OtherRemoveFinalizer

  // ---------- stored writes ----------

  /** The cluster removes a CR that is being deleted once no finalizer is left. */
  predicate Ends(cr: Cr) { cr.deleting && cr.finalizers == {} }

  /** A write to the CR: a new version, or the end of the CR when it is being deleted and no finalizer is left. */
  function Store(w: World, cr: Cr): World {
    var cr' := cr.(version := |w.past|);
    if Ends(cr') then w.(cr := None)
    else w.(cr := Some(cr'), past := w.past + [cr'])
  }

  /** A write that is skipped when it would change nothing. */
  function StoreIfChanged(w: World, cr: Cr): World
    requires w.cr.Some?
  {
    if cr == w.cr.value then w else Store(w, cr)
  }

  /** A compare-and-swap on the version the writer has read. */
  predicate Unchanged(w: World, v: nat) {
    w.cr.Some? && w.cr.value.version == v
  }

  function SyncPhase(record: RecordState, phase: Phase): RecordState {
    match phase
    case NoPhase => record
    case Starting => RecordStarting
    case Running => RecordRunning
    case Failed => RecordFailed
    case Deleting => RecordDeleting
  }

  /** The feedback finalizer is the only one left on a CR that is being deleted. */
  predicate LastFinalizer(cr: Cr) {
    cr.deleting && cr.finalizers == {Feedback}
  }

  function Growth(before: Tally, after: Tally): nat {
    if after.launched - after.lost > before.launched - before.lost
    then (after.launched - after.lost) - (before.launched - before.lost) else 0
  }

  function NextMainPass(cfg: Config, w: World, input: PassInput): World
    requires w.cr.Some?
  {
    AfterPass(w, Reconcile(cfg, w.cr.value, w.srv, input))
  }

  /** The metadata a pass changed is stored at once; its status waits for the status write. */
  function AfterPass(w: World, o: Outcome): World
    requires w.cr.Some?
  {
    var stored := StoreIfChanged(w, w.cr.value.(finalizers := o.cr.finalizers));
    stored.(srv := o.srv,
            pending := Some(PendingStatus(o.cr.status, Growth(w.srv.provision, o.srv.provision),
                                          Growth(w.srv.deprovision, o.srv.deprovision))))
  }

  function Lose(tally: Tally, n: nat): Tally { tally.(lost := tally.lost + n) }

  function NextMainCommit(w: World, failed: bool): World
    requires w.pending.Some?
  {
    var p := w.pending.value;
    if failed || w.cr.None? then
      w.(pending := None, srv := w.srv.(provision := Lose(w.srv.provision, p.provision),
                                        deprovision := Lose(w.srv.deprovision, p.deprovision)))
    else StoreIfChanged(w, w.cr.value.(status := p.status)).(pending := None)
  }

  function SetFinalizers(w: World, finalizers: set<Finalizer>): World
    requires w.cr.Some?
  {
    StoreIfChanged(w, w.cr.value.(finalizers := finalizers))
  }

  // ---------- which steps can happen ----------

  predicate InputLegal(cfg: Config, cr: Cr, srv: Server, input: PassInput) {
    && (cfg.strictClock ==> forall j :: j in cr.status.jobs ==> j.timestamp < input.now)
    && (input.launch.LaunchOk? ==> Itoa(input.launch.n) !in srv.issued)
    && (input.launch.LaunchLost? ==> Itoa(input.launch.n) !in srv.issued)
    && (input.launch.LaunchRateLimited? ==> input.launch.delay > 0)
  }

  predicate Legal(cfg: Config, w: World, s: Step) {
    match s
    case MainPass(input) => w.cr.Some? && w.pending.None? && InputLegal(cfg, w.cr.value, w.srv, input)
    case MainCommit(_) => w.pending.Some?
    case FeedbackRead(v) => w.feedback.Idle? && v < |w.past|
    case FeedbackAddFinalizer =>
      w.feedback.HasRead? && w.feedback.v < |w.past| &&
      w.past[w.feedback.v].labelled && !w.past[w.feedback.v].deleting && Feedback !in w.past[w.feedback.v].finalizers
    case FeedbackSave =>
      w.feedback.HasRead? && w.feedback.v < |w.past| &&
      w.past[w.feedback.v].labelled && (w.past[w.feedback.v].deleting || Feedback in w.past[w.feedback.v].finalizers)
    case FeedbackRemoveFinalizer => w.feedback.HasSaved? && w.feedback.v < |w.past|
    case FeedbackDropUnlabelled =>
      w.feedback.HasRead? && w.feedback.v < |w.past| &&
      !w.past[w.feedback.v].labelled && w.past[w.feedback.v].deleting && Feedback in w.past[w.feedback.v].finalizers
    case FeedbackAbort => true
    case JobProgress(id, _) => id in w.srv.jobs && !MapAAPStatusToJobState(w.srv.jobs[id].status).IsTerminal()
    case JobPurge(id) => id in w.srv.jobs && MapAAPStatusToJobState(w.srv.jobs[id].status).IsTerminal()
    case PlaybookAddFinalizer => w.cr.Some? && !w.cr.value.deleting
    case OtherAddFinalizer => w.cr.Some? && !w.cr.value.deleting
    case UserAnnotate(m) => w.cr.Some? && (m.Manual? ==> cfg.allowManual)
    case _ => w.cr.Some?
  }

  function Next(cfg: Config, w: World, s: Step): World
    requires Legal(cfg, w, s)
  {
    match s
    case MainPass(input) => NextMainPass(cfg, w, input)
    case MainCommit(failed) => NextMainCommit(w, failed)
    case FeedbackRead(v) => w.(feedback := HasRead(v))
    case FeedbackAddFinalizer =>
      if Unchanged(w, w.feedback.v) then
        SetFinalizers(w, w.cr.value.finalizers + {Feedback}).(feedback := HasRead(|w.past|))
      else w.(feedback := Idle)
    case FeedbackSave =>
      var snapshot := w.past[w.feedback.v];
      w.(record := SyncPhase(w.record, snapshot.status.phase),
         feedback := if LastFinalizer(snapshot) then HasSaved(w.feedback.v) else Idle)
    case FeedbackRemoveFinalizer => CasDropFeedback(w)
    case FeedbackDropUnlabelled => CasDropFeedback(w)
    case FeedbackAbort => w.(feedback := Idle)
    case JobProgress(id, status) => w.(srv := w.srv.(jobs := w.srv.jobs[id := w.srv.jobs[id].(status := status)]))
    case JobPurge(id) => w.(srv := w.srv.(jobs := w.srv.jobs - {id}))
    case PlaybookAddFinalizer => SetFinalizers(w, w.cr.value.finalizers + {Aap})
    case PlaybookRemoveFinalizer => SetFinalizers(w, w.cr.value.finalizers - {Aap})
    case PlaybookAnnotate(v) => StoreIfChanged(w, w.cr.value.(annotatedVersion := v))
    case UserEdit(v) => StoreIfChanged(w, w.cr.value.(specVersion := v))
    case UserAnnotate(m) => StoreIfChanged(w, w.cr.value.(management := m))
    case UserDelete =>
      if w.cr.value.deleting then w
      else Store(w.(armed := w.cr.value.labelled && {Base, Feedback} <= w.cr.value.finalizers),
                 w.cr.value.(deleting := true))
    case OtherAddFinalizer => SetFinalizers(w, w.cr.value.finalizers + {Other})
    case OtherRemoveFinalizer => SetFinalizers(w, w.cr.value.finalizers - {Other})
  }

  function CasDropFeedback(w: World): World
    requires !w.feedback.Idle?
  {
    if Unchanged(w, w.feedback.v) then SetFinalizers(w, w.cr.value.finalizers - {Feedback}).(feedback := Idle)
    else w.(feedback := Idle)
  }

  // ---------- runs ----------

  const NoServer := Server(map[], {}, Tally(0, 0), Tally(0, 0))

  const FreshStatus := Status(NoPhase, [], "", "")

  /** A CR just created by a user, with whatever metadata it came with. */
  function Initial(cr: Cr): World {
    var cr' := cr.(version := 0, deleting := false, status := FreshStatus);
    World(Some(cr'), [cr'], NoServer, None, Idle, Unspecified, false)
  }

  /** The steps, each legal where it is taken. */
  predicate LegalRun(cfg: Config, w: World, steps: seq<Step>)
    decreases |steps|, 0
  {
    steps == [] ||
    (var front := steps[..|steps| - 1];
     LegalRun(cfg, w, front) && Legal(cfg, Run(cfg, w, front), steps[|steps| - 1]))
  }

  /** The world the steps lead to. */
  function Run(cfg: Config, w: World, steps: seq<Step>): World
    requires LegalRun(cfg, w, steps)
    decreases |steps|, 1
  {
    if steps == [] then w else Next(cfg, Run(cfg, w, steps[..|steps| - 1]), steps[|steps| - 1])
  }

  /** A run starts from any fresh CR; under the assumption that nobody uses Manual, from one that does not. */
  predicate Starts(cfg: Config, cr: Cr) { cr.management.Manual? ==> cfg.allowManual }

  ghost predicate ReachableBy(cfg: Config, w: World, cr: Cr, steps: seq<Step>) {
    Starts(cfg, cr) && LegalRun(cfg, Initial(cr), steps) && Run(cfg, Initial(cr), steps) == w
  }

  ghost predicate Reachable(cfg: Config, w: World) {
    exists cr, steps :: ReachableBy(cfg, w, cr, steps)
  }

  lemma InitialReachable(cfg: Config, cr: Cr)
    requires Starts(cfg, cr)
    ensures Reachable(cfg, Initial(cr))
  {
    assert ReachableBy(cfg, Initial(cr), cr, []);
  }

  lemma NextReachable(cfg: Config, w: World, s: Step)
    requires Reachable(cfg, w) && Legal(cfg, w, s)
    ensures Reachable(cfg, Next(cfg, w, s))
  {
    var cr, steps :| ReachableBy(cfg, w, cr, steps);
    var all := steps + [s];
    assert all[..|all| - 1] == steps;
    assert ReachableBy(cfg, Next(cfg, w, s), cr, all);
  }
}
