// The main controller in the form its source has: objects whose fields the handlers change step by step. Every
// handler is tied to the pass functions the lifecycle theorems are about.

module Reconciler {
  import opened Options
  import J = Jobs
  import opened Jobs
  import opened JobIds
  import opened Decimal
  import opened Providers
  import P = Passes

  /** The custom resource as one pass holds it in memory; finalizers are those stored on the cluster. */
  class ComputeInstance {
    var version: nat
    var deleting: bool
    var finalizers: set<Finalizer>
    var labelled: bool
    var management: Management
    var specVersion: string
    var annotatedVersion: Option<string>
    var phase: Phase
    var jobs: seq<JobStatus>
    var desiredVersion: string
    var reconciledVersion: string

    constructor (cr: Cr)
      ensures View() == cr
    {
      version, deleting, finalizers, labelled := cr.version, cr.deleting, cr.finalizers, cr.labelled;
      management, specVersion, annotatedVersion := cr.management, cr.specVersion, cr.annotatedVersion;
      phase, jobs := cr.status.phase, cr.status.jobs;
      desiredVersion, reconciledVersion := cr.status.desiredVersion, cr.status.reconciledVersion;
    }

    function View(): Cr
      reads this
    {
      Cr(version, deleting, finalizers, labelled, management, specVersion, annotatedVersion,
         Status(phase, jobs, desiredVersion, reconciledVersion))
    }

    /** findJobByID: the position of the first job with the ID, found by scanning. */
    method FindJobByID(jobID: string) returns (r: Option<nat>)
      ensures r == IndexOfID(jobs, jobID)
      ensures r.Some? ==> r.value < |jobs| && jobs[r.value].jobID == jobID
    {
      r := None;
      var i := 0;
      while i < |jobs|
        invariant 0 <= i <= |jobs|
        invariant forall k :: 0 <= k < i ==> jobs[k].jobID != jobID
      {
        if jobs[i].jobID == jobID {
          return Some(i);
        }
        i := i + 1;
      }
    }

    /** updateJob: overwrites in place, or reports that there was nothing to overwrite. */
    method UpdateJob(job: JobStatus) returns (found: bool)
      modifies this`jobs
      ensures jobs == J.UpdateJob(old(jobs), job)
      ensures found <==> IndexOfID(old(jobs), job.jobID).Some?
    {
      var at := FindJobByID(job.jobID);
      if at.None? {
        return false;
      }
      jobs := jobs[at.value := job];
      found := true;
    }

    method AppendJob(job: JobStatus, maxHistory: nat)
      modifies this`jobs
      ensures jobs == J.AppendJob(old(jobs), job, maxHistory)
    {
      jobs := jobs + [job];
      if |jobs| > maxHistory {
        jobs := jobs[|jobs| - maxHistory..];
      }
    }

    method FindLatest(t: JobType) returns (job: Option<JobStatus>)
      ensures job == Latest(jobs, t)
    {
      var at := FindLatestJobByType(jobs, t);
      if at.Some? {
        job := Some(jobs[at.value]);
      } else {
        job := None;
      }
    }

    /** Copy the latest job of a type, change state and message, write it back. */
    method UpdateLatest(t: JobType, state: JobState, message: Message)
      modifies this`jobs
      ensures jobs == PollLatest(old(jobs), t, state, message)
    {
      var job := FindLatest(t);
      if job.Some? {
        var updated := job.value.(state := state, message := message);
        var _ := UpdateJob(updated);
      }
    }

    method AddFinalizer(f: Finalizer) returns (added: bool)
      modifies this`finalizers
      ensures finalizers == old(finalizers) + {f} && added == (f !in old(finalizers))
    {
      added := f !in finalizers;
      finalizers := finalizers + {f};
    }

    method RemoveFinalizer(f: Finalizer) returns (removed: bool)
      modifies this`finalizers
      ensures finalizers == old(finalizers) - {f} && removed == (f in old(finalizers))
    {
      removed := f in finalizers;
      finalizers := finalizers - {f};
    }
  }

  /** The provisioning server (AAP, or the EDA webhook receiver). */
  class ProvisioningServer {
    var jobs: map<string, AapJob>
    var issued: set<string>
    var provision: Tally
    var deprovision: Tally

    constructor (srv: Server)
      ensures View() == srv
    {
      jobs, issued, provision, deprovision := srv.jobs, srv.issued, srv.provision, srv.deprovision;
    }

    function View(): Server
      reads this
    {
      Server(jobs, issued, provision, deprovision)
    }

    /** A launch request. The caller learns the job's number only from an accepted, answered request. */
    method RequestLaunch(cfg: Config, kind: JobType, reply: LaunchReply) returns (n: Option<int>)
      modifies this
      ensures View() == Launch(cfg, old(View()), kind, reply)
      ensures n == if reply.LaunchOk? then Some(reply.n) else None
    {
      n := None;
      if reply.LaunchOk? || reply.LaunchLost? {
        var lost := if reply.LaunchOk? then 0 else 1;
        if kind == Provision {
          provision := Tally(provision.launched + 1, provision.lost + lost);
        } else {
          deprovision := Tally(deprovision.launched + 1, deprovision.lost + lost);
        }
        if cfg.provider == AAP {
          jobs := jobs[Itoa(reply.n) := AapJob(kind, "pending")];
          issued := issued + {Itoa(reply.n)};
        }
        if reply.LaunchOk? {
          n := Some(reply.n);
        }
      }
    }
  }

  const DEFAULT_POLL_INTERVAL := 30_000_000_000   // 30 seconds, in nanoseconds
  const DEFAULT_MAX_JOB_HISTORY := 10

  class ComputeInstanceReconciler {
    const cfg: Config

    /** NewComputeInstanceReconciler: only a zero interval and a non-positive history size get defaults. */
    constructor (provider: Provider, statusPollInterval: int, maxJobHistory: int, strictClock: bool, allowManual: bool,
                 unseen: set<JobType>)
      ensures cfg.provider == provider && cfg.strictClock == strictClock && cfg.allowManual == allowManual
      ensures cfg.unseen == unseen
      ensures cfg.maxJobHistory == (if maxJobHistory >= 1 then maxJobHistory else DEFAULT_MAX_JOB_HISTORY)
      ensures cfg.pollInterval == (if statusPollInterval == 0 then DEFAULT_POLL_INTERVAL else statusPollInterval)
      ensures cfg.maxJobHistory >= 1 && (cfg.pollInterval > 0 <==> statusPollInterval >= 0)
    {
      var interval := statusPollInterval;
      if interval == 0 {
        interval := DEFAULT_POLL_INTERVAL;
      }
      var size := maxJobHistory;
      if size <= 0 {
        size := DEFAULT_MAX_JOB_HISTORY;
      }
      cfg := Config(provider, interval, size, strictClock, allowManual, unseen);
    }

    method TriggerProvisioning(ci: ComputeInstance, srv: ProvisioningServer, input: PassInput)
      returns (requeueAfter: int, failed: bool)
      requires P.NeedsTrigger(ci.jobs, Provision)
      modifies ci, srv
      ensures P.Outcome(ci.View(), srv.View(), requeueAfter, failed)
              == P.TriggerProvisioning(cfg, old(ci.View()), old(srv.View()), input)
    {
      failed := false;
      var n := srv.RequestLaunch(cfg, Provision, input.launch);
      if n.None? {
        if cfg.provider == EDA && input.launch.LaunchRateLimited? {
          return input.launch.delay, false;
        }
        var failure := JobStatus("", Provision, input.now, JobState.Failed, TriggerFailed(input.errText), false);
        ci.AppendJob(failure, cfg.maxJobHistory);
        return cfg.pollInterval, false;
      }
      var job;
      if cfg.provider == AAP {
        job := JobStatus(Itoa(n.value), Provision, input.now, Pending, Triggered, false);
      } else {
        var jobID := GenerateEDAJobID(ci.jobs);
        job := JobStatus(jobID, Provision, input.now, JobState.Running, WebhookSent, false);
      }
      ci.AppendJob(job, cfg.maxJobHistory);
      requeueAfter := cfg.pollInterval;
    }

    method PollProvisioning(ci: ComputeInstance, srv: ProvisioningServer, input: PassInput)
      returns (requeueAfter: int, failed: bool)
      requires !P.NeedsTrigger(ci.jobs, Provision)
      modifies ci
      ensures P.Outcome(ci.View(), srv.View(), requeueAfter, failed)
              == P.PollProvisioning(cfg, old(ci.View()), old(srv.View()), input)
    {
      requeueAfter, failed := 0, false;
      var job := ci.FindLatest(Provision);
      var result := GetProvisionStatus(cfg, srv.View(), job.value.jobID, input);
      if !result.StatusOk? {
        ci.UpdateLatest(Provision, job.value.state, PollFailed(input.errText));
        return cfg.pollInterval, false;
      }
      ci.UpdateLatest(Provision, result.status.state, result.status.message);
      if !result.status.state.IsTerminal() {
        return cfg.pollInterval, false;
      }
      if !result.status.state.IsSuccessful() {
        ci.phase := Phase.Failed;
      }
    }

    method HandleProvisioning(ci: ComputeInstance, srv: ProvisioningServer, input: PassInput)
      returns (requeueAfter: int, failed: bool)
      modifies ci, srv
      ensures P.Outcome(ci.View(), srv.View(), requeueAfter, failed)
              == P.HandleProvisioning(cfg, old(ci.View()), old(srv.View()), input)
    {
      if ci.management.Manual? {
        return 0, false;
      }
      var job := ci.FindLatest(Provision);
      if job.None? || job.value.jobID == "" {
        requeueAfter, failed := TriggerProvisioning(ci, srv, input);
      } else {
        requeueAfter, failed := PollProvisioning(ci, srv, input);
      }
    }

    /** TriggerDeprovision of the configured provider: readiness first, then the launch. */
    method TriggerDeprovision(ci: ComputeInstance, srv: ProvisioningServer, input: PassInput)
      returns (r: DeprovisionResult)
      modifies srv
      ensures r == Providers.TriggerDeprovision(cfg, ci.View(), old(srv.View()), input)
      ensures srv.View() == if AsksToDeprovision(cfg, ci.View(), old(srv.View()), input)
                            then Launch(cfg, old(srv.View()), Deprovision, input.launch) else old(srv.View())
    {
      if cfg.provider == AAP {
        var readiness := IsReadyForDeprovision(cfg, ci.View().status, srv.View(), input);
        if readiness.ReadinessError? {
          return DeprovisionError;
        }
        if readiness.NotReady? {
          return DeprovisionWaiting(readiness.provision);
        }
        var n := srv.RequestLaunch(cfg, Deprovision, input.launch);
        if n.None? {
          return DeprovisionError;
        }
        return DeprovisionTriggered(Itoa(n.value), true, readiness.provision);
      }
      if Aap !in ci.finalizers {
        return DeprovisionSkipped;
      }
      var n := srv.RequestLaunch(cfg, Deprovision, input.launch);
      if input.launch.LaunchRateLimited? {
        return DeprovisionRateLimited(input.launch.delay);
      }
      if n.None? {
        return DeprovisionError;
      }
      var jobID := GenerateEDAJobID(ci.jobs);
      r := DeprovisionTriggered(jobID, false, None);
    }

    method RecordProvision(ci: ComputeInstance, ps: Option<ProvisionStatus>)
      modifies ci`jobs
      ensures ci.jobs == P.RecordProvision(old(ci.jobs), ps)
    {
      if ps.Some? {
        ci.UpdateLatest(Provision, ps.value.state, P.WithoutDetails(ps.value.message));
      }
    }

    method TriggerDeprovisioning(ci: ComputeInstance, srv: ProvisioningServer, input: PassInput)
      returns (requeueAfter: int, failed: bool)
      requires P.NeedsTrigger(ci.jobs, Deprovision)
      modifies ci, srv
      ensures P.Outcome(ci.View(), srv.View(), requeueAfter, failed)
              == P.TriggerDeprovisioning(cfg, old(ci.View()), old(srv.View()), input)
    {
      var r := TriggerDeprovision(ci, srv, input);
      requeueAfter, failed := ApplyDeprovisionResult(ci, srv, input, r);
    }

    method ApplyDeprovisionResult(ci: ComputeInstance, srv: ProvisioningServer, input: PassInput, r: DeprovisionResult)
      returns (requeueAfter: int, failed: bool)
      modifies ci
      ensures P.Outcome(ci.View(), srv.View(), requeueAfter, failed)
              == P.ApplyDeprovisionResult(cfg, old(ci.View()), srv.View(), input, r)
    {
      match r {
        case DeprovisionRateLimited(delay) => return delay, false;
        case DeprovisionError => return cfg.pollInterval, false;
        case DeprovisionSkipped => return 0, false;
        case DeprovisionWaiting(ps) =>
          RecordProvision(ci, ps);
          return cfg.pollInterval, false;
        case DeprovisionTriggered(jobID, block, ps) =>
          RecordProvision(ci, ps);
          ci.AppendJob(JobStatus(jobID, Deprovision, input.now, Pending, Triggered, block), cfg.maxJobHistory);
          return cfg.pollInterval, false;
      }
    }

    method PollDeprovisioning(ci: ComputeInstance, srv: ProvisioningServer, input: PassInput)
      returns (requeueAfter: int, failed: bool)
      requires !P.NeedsTrigger(ci.jobs, Deprovision)
      modifies ci
      ensures P.Outcome(ci.View(), srv.View(), requeueAfter, failed)
              == P.PollDeprovisioning(cfg, old(ci.View()), old(srv.View()), input)
    {
      failed := false;
      var job := ci.FindLatest(Deprovision);
      var result := GetDeprovisionStatus(cfg, ci.View(), srv.View(), job.value.jobID, input);
      if !result.StatusOk? {
        ci.UpdateLatest(Deprovision, job.value.state, PollFailed(input.errText));
        return cfg.pollInterval, false;
      }
      ci.UpdateLatest(Deprovision, result.status.state, result.status.message);
      if !result.status.state.IsTerminal() {
        return cfg.pollInterval, false;
      }
      if result.status.state.IsSuccessful() {
        return 0, false;
      }
      requeueAfter := if job.value.blockDeletionOnFailure then cfg.pollInterval else 0;
    }

    method HandleDeprovisioning(ci: ComputeInstance, srv: ProvisioningServer, input: PassInput)
      returns (requeueAfter: int, failed: bool)
      modifies ci, srv
      ensures P.Outcome(ci.View(), srv.View(), requeueAfter, failed)
              == P.HandleDeprovisioning(cfg, old(ci.View()), old(srv.View()), input)
    {
      if ci.management.Manual? {
        return 0, false;
      }
      var job := ci.FindLatest(Deprovision);
      if job.None? || job.value.jobID == "" {
        requeueAfter, failed := TriggerDeprovisioning(ci, srv, input);
      } else {
        requeueAfter, failed := PollDeprovisioning(ci, srv, input);
      }
    }

    method ReconcileVersions(ci: ComputeInstance, srv: ProvisioningServer, input: PassInput)
      returns (requeueAfter: int, failed: bool)
      modifies ci, srv
      ensures P.Outcome(ci.View(), srv.View(), requeueAfter, failed)
              == P.ReconcileVersions(cfg, old(ci.View()), old(srv.View()), input)
    {
      ci.desiredVersion := ci.specVersion;
      if ci.annotatedVersion.Some? {
        ci.reconciledVersion := ci.annotatedVersion.value;
      } else {
        ci.reconciledVersion := "";
      }
      if ci.desiredVersion == ci.reconciledVersion {
        ci.phase := Phase.Running;
        var job := ci.FindLatest(Provision);
        if job.Some? && !job.value.state.IsTerminal() {
          requeueAfter, failed := HandleProvisioning(ci, srv, input);
          return;
        }
        return 0, false;
      }
      ci.phase := Starting;
      requeueAfter, failed := HandleProvisioning(ci, srv, input);
    }

    method HandleUpdate(ci: ComputeInstance, srv: ProvisioningServer, input: PassInput)
      returns (requeueAfter: int, failed: bool)
      modifies ci, srv
      ensures P.Outcome(ci.View(), srv.View(), requeueAfter, failed)
              == P.HandleUpdate(cfg, old(ci.View()), old(srv.View()), input)
    {
      ci.phase := Starting;
      var stored := ci.finalizers;
      var added := ci.AddFinalizer(Base);
      if added && input.updateFails {
        ci.finalizers := stored;   // the write did not reach the cluster
        return 0, true;
      }
      if input.tenant.TenantError? {
        return 0, true;
      }
      if !input.tenant.TenantReady? {
        return 0, false;
      }
      if input.vmListFails || input.restartFails {
        return 0, true;
      }
      requeueAfter, failed := ReconcileVersions(ci, srv, input);
    }

    method HandleDelete(ci: ComputeInstance, srv: ProvisioningServer, input: PassInput)
      returns (requeueAfter: int, failed: bool)
      modifies ci, srv
      ensures P.Outcome(ci.View(), srv.View(), requeueAfter, failed)
              == P.HandleDelete(cfg, old(ci.View()), old(srv.View()), input)
    {
      ci.phase := Deleting;
      if Base !in ci.finalizers {
        return 0, false;
      }
      requeueAfter, failed := HandleDeprovisioning(ci, srv, input);
      if requeueAfter > 0 {
        return;
      }
      if input.updateFails {
        return 0, true;   // the removal did not reach the cluster
      }
      var _ := ci.RemoveFinalizer(Base);
      return 0, false;
    }

    method Reconcile(ci: ComputeInstance, srv: ProvisioningServer, input: PassInput)
      returns (requeueAfter: int, failed: bool)
      modifies ci, srv
      ensures P.Outcome(ci.View(), srv.View(), requeueAfter, failed)
              == P.Reconcile(cfg, old(ci.View()), old(srv.View()), input)
    {
      if ci.management.Unmanaged? {
        return 0, false;
      }
      if ci.deleting {
        requeueAfter, failed := HandleDelete(ci, srv, input);
      } else {
        requeueAfter, failed := HandleUpdate(ci, srv, input);
      }
    }
  }
}
