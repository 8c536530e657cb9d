// What one main pass can do to the history, the server and the finalizers: a short list of effects that the
// invariant proofs use instead of the handlers' bodies.

module PassEffects {
  import opened Options
  import opened Jobs
  import opened JobIds
  import opened Providers
  import opened Passes

  ghost predicate PolledOnly(jobs: seq<JobStatus>, jobs': seq<JobStatus>, t: JobType) {
    jobs' == jobs || exists st, m :: jobs' == PollLatest(jobs, t, st, m)
  }

  ghost predicate OnlyStatusAndBaseDiffer(a: Cr, b: Cr) {
    b == a.(status := b.status, finalizers := b.finalizers) && b.finalizers - {Base} == a.finalizers - {Base}
  }

  // ---------- the update pass ----------

  /** A provision job is appended: with the empty ID when the trigger failed (the job may have started all the
      same), or with the ID of the job that was started. Only when the latest provision entry is no real job. */
  ghost predicate ProvisionAppended(cfg: Config, jobs: seq<JobStatus>, srv: Server, input: PassInput,
                                    jobs': seq<JobStatus>, srv': Server, job: JobStatus)
  {
    && NeedsTrigger(jobs, Provision)
    && jobs' == AppendJob(jobs, job, cfg.maxJobHistory)
    && job.jobType == Provision && job.timestamp == input.now
    && if job.jobID == ""
       then srv' == srv || (input.launch.LaunchLost? && srv' == Start(cfg, srv, Provision, input.launch.n, 1))
       else && input.launch.LaunchOk?
            && job.jobID == LaunchedID(cfg, jobs, input.launch.n)
            && srv' == Start(cfg, srv, Provision, input.launch.n, 0)
  }

  ghost predicate UpdateEffect(cfg: Config, jobs: seq<JobStatus>, srv: Server, input: PassInput,
                               jobs': seq<JobStatus>, srv': Server)
  {
    || (srv' == srv && PolledOnly(jobs, jobs', Provision))
    || (exists job :: ProvisionAppended(cfg, jobs, srv, input, jobs', srv', job))
  }

  ghost predicate ProvisioningFrame(cr: Cr, cr': Cr) {
    && cr' == cr.(status := cr'.status)
    && (cr'.status.phase == cr.status.phase || cr'.status.phase == Phase.Failed)
  }

  lemma TriggerProvisioningEffect(cfg: Config, cr: Cr, srv: Server, input: PassInput)
    requires NeedsTrigger(cr.status.jobs, Provision)
    ensures var o := TriggerProvisioning(cfg, cr, srv, input);
            && UpdateEffect(cfg, cr.status.jobs, srv, input, o.cr.status.jobs, o.srv)
            && ProvisioningFrame(cr, o.cr)
  {
    var o := TriggerProvisioning(cfg, cr, srv, input);
    var jobs := cr.status.jobs;
    match TriggerProvision(cfg, cr.status, input) {
      case ProvisionRateLimited(d) =>
      case ProvisionError =>
        var job := NewJob("", Provision, input.now, JobState.Failed, TriggerFailed(input.errText), false);
        assert ProvisionAppended(cfg, jobs, srv, input, o.cr.status.jobs, o.srv, job);
      case ProvisionTriggered(id, state, message) =>
        ProvidersIDsDisjoint(jobs, input.launch.n);
        var job := NewJob(id, Provision, input.now, state, message, false);
        assert ProvisionAppended(cfg, jobs, srv, input, o.cr.status.jobs, o.srv, job);
    }
  }

  lemma ProvisionStatusEffect(cfg: Config, cr: Cr, srv: Server, input: PassInput, job: JobStatus, result: StatusResult)
    ensures var o := ApplyProvisionStatus(cfg, cr, srv, input, job, result);
            && PolledOnly(cr.status.jobs, o.cr.status.jobs, Provision)
            && o.srv == srv
            && ProvisioningFrame(cr, o.cr)
  {
  }

  lemma PollProvisioningEffect(cfg: Config, cr: Cr, srv: Server, input: PassInput)
    requires !NeedsTrigger(cr.status.jobs, Provision)
    ensures var o := PollProvisioning(cfg, cr, srv, input);
            && PolledOnly(cr.status.jobs, o.cr.status.jobs, Provision)
            && o.srv == srv
            && ProvisioningFrame(cr, o.cr)
  {
    var job := Latest(cr.status.jobs, Provision).value;
    ProvisionStatusEffect(cfg, cr, srv, input, job, GetProvisionStatus(cfg, srv, job.jobID, input));
  }

  lemma ProvisioningEffect(cfg: Config, cr: Cr, srv: Server, input: PassInput)
    ensures var o := HandleProvisioning(cfg, cr, srv, input);
            && UpdateEffect(cfg, cr.status.jobs, srv, input, o.cr.status.jobs, o.srv)
            && ProvisioningFrame(cr, o.cr)
  {
    if cr.management.Manual? {
    } else if NeedsTrigger(cr.status.jobs, Provision) {
      TriggerProvisioningEffect(cfg, cr, srv, input);
    } else {
      PollProvisioningEffect(cfg, cr, srv, input);
    }
  }

  lemma ReconcileVersionsEffect(cfg: Config, cr: Cr, srv: Server, input: PassInput)
    ensures var o := ReconcileVersions(cfg, cr, srv, input);
            && UpdateEffect(cfg, cr.status.jobs, srv, input, o.cr.status.jobs, o.srv)
            && o.cr == cr.(status := o.cr.status)
            && o.cr.status.phase != Deleting
  {
    var reconciled := if cr.annotatedVersion.Some? then cr.annotatedVersion.value else "";
    var st := cr.status.(desiredVersion := cr.specVersion, reconciledVersion := reconciled);
    if st.desiredVersion == st.reconciledVersion {
      ProvisioningEffect(cfg, WithPhase(cr.(status := st), Phase.Running), srv, input);
    } else {
      ProvisioningEffect(cfg, WithPhase(cr.(status := st), Starting), srv, input);
    }
  }

  /** The pass gets past the finalizer, the tenant, the VM and the restart. */
  predicate Undisturbed(cr: Cr, input: PassInput) {
    && (Base in cr.finalizers || !input.updateFails)
    && input.tenant.TenantReady? && !input.vmListFails && !input.restartFails
  }

  lemma NothingHappens(cfg: Config, jobs: seq<JobStatus>, srv: Server, input: PassInput)
    ensures UpdateEffect(cfg, jobs, srv, input, jobs, srv)
  {
  }

  /** A pass that stops early leaves only the phase and perhaps the base finalizer behind. */
  lemma HandleUpdateStops(cfg: Config, cr: Cr, srv: Server, input: PassInput)
    requires !Undisturbed(cr, input)
    ensures var o := HandleUpdate(cfg, cr, srv, input);
            && o.srv == srv && o.cr.status == cr.status.(phase := Starting)
            && (|| o.cr == cr.(status := o.cr.status)
                || o.cr == cr.(status := o.cr.status, finalizers := cr.finalizers + {Base}))
  {
  }

  lemma HandleUpdateContinues(cfg: Config, cr: Cr, srv: Server, input: PassInput)
    requires Undisturbed(cr, input)
    ensures HandleUpdate(cfg, cr, srv, input)
         == ReconcileVersions(cfg, WithPhase(cr, Starting).(finalizers := cr.finalizers + {Base}), srv, input)
  {
  }

  lemma HandleUpdateEffect(cfg: Config, cr: Cr, srv: Server, input: PassInput)
    ensures var o := HandleUpdate(cfg, cr, srv, input);
            && UpdateEffect(cfg, cr.status.jobs, srv, input, o.cr.status.jobs, o.srv)
            && OnlyStatusAndBaseDiffer(cr, o.cr)
            && cr.finalizers <= o.cr.finalizers
            && o.cr.status.phase != Deleting
  {
    if Undisturbed(cr, input) {
      HandleUpdateContinues(cfg, cr, srv, input);
      ReconcileVersionsEffect(cfg, WithPhase(cr, Starting).(finalizers := cr.finalizers + {Base}), srv, input);
    } else {
      HandleUpdateStops(cfg, cr, srv, input);
      NothingHappens(cfg, cr.status.jobs, srv, input);
    }
  }

  // ---------- the delete pass ----------

  /** A deprovision job is launched: recorded with a real ID, or lost with its reply and recorded nowhere. */
  ghost predicate DeprovisionAppended(cfg: Config, cr: Cr, srv: Server, input: PassInput,
                                      jobs': seq<JobStatus>, srv': Server, mid: seq<JobStatus>, job: JobStatus)
  {
    && input.launch.LaunchOk?
    && PolledOnly(cr.status.jobs, mid, Provision)
    && jobs' == AppendJob(mid, job, cfg.maxJobHistory)
    && job.jobType == Deprovision && job.jobID != "" && job.timestamp == input.now
    && job.jobID == LaunchedID(cfg, cr.status.jobs, input.launch.n)
    && job.blockDeletionOnFailure == cfg.provider.AAP?
    && srv' == Start(cfg, srv, Deprovision, input.launch.n, 0)
  }

  ghost predicate LaunchEffect(cfg: Config, cr: Cr, srv: Server, input: PassInput,
                               jobs': seq<JobStatus>, srv': Server)
  {
    || (input.launch.LaunchLost? && jobs' == cr.status.jobs && srv' == Start(cfg, srv, Deprovision, input.launch.n, 1))
    || exists mid, job :: DeprovisionAppended(cfg, cr, srv, input, jobs', srv', mid, job)
  }

  ghost predicate DeprovisionLaunch(cfg: Config, cr: Cr, srv: Server, input: PassInput,
                                    jobs': seq<JobStatus>, srv': Server)
  {
    && NeedsTrigger(cr.status.jobs, Deprovision)
    && AsksToDeprovision(cfg, WithPhase(cr, Deleting), srv, input)
    && LaunchEffect(cfg, cr, srv, input, jobs', srv')
  }

  /** A delete pass polls the provision job until a deprovision job is recorded, and that job from then on. */
  function PolledType(jobs: seq<JobStatus>): JobType {
    if NeedsTrigger(jobs, Deprovision) then Provision else Deprovision
  }

  ghost predicate DeleteEffect(cfg: Config, cr: Cr, srv: Server, input: PassInput,
                               jobs': seq<JobStatus>, srv': Server)
  {
    || (srv' == srv && PolledOnly(cr.status.jobs, jobs', PolledType(cr.status.jobs)))
    || DeprovisionLaunch(cfg, cr, srv, input, jobs', srv')
  }

  /** What the provider's answer says about the launch request. */
  lemma TriggerDeprovisionFacts(cfg: Config, cr: Cr, srv: Server, input: PassInput)
    ensures var r := TriggerDeprovision(cfg, cr, srv, input);
            && (r.DeprovisionTriggered? <==> AsksToDeprovision(cfg, cr, srv, input) && input.launch.LaunchOk?)
            && (r.DeprovisionTriggered? ==>
                  r.jobID == LaunchedID(cfg, cr.status.jobs, input.launch.n) && r.block == cfg.provider.AAP?)
            && (r.DeprovisionWaiting? ==> !AsksToDeprovision(cfg, cr, srv, input))
  {
  }

  lemma ResultEffect(cfg: Config, cr: Cr, srv: Server, input: PassInput, asks: bool, r: DeprovisionResult)
    requires NeedsTrigger(cr.status.jobs, Deprovision)
    requires r.DeprovisionTriggered? <==> asks && input.launch.LaunchOk?
    requires r.DeprovisionTriggered? ==>
               r.jobID == LaunchedID(cfg, cr.status.jobs, input.launch.n) && r.block == cfg.provider.AAP?
    requires r.DeprovisionWaiting? ==> !asks
    ensures var srv' := if asks then Launch(cfg, srv, Deprovision, input.launch) else srv;
            var o := ApplyDeprovisionResult(cfg, cr, srv', input, r);
            && o.srv == srv'
            && o.cr == cr.(status := cr.status.(jobs := o.cr.status.jobs))
            && (|| (srv' == srv && PolledOnly(cr.status.jobs, o.cr.status.jobs, Provision))
                || (asks && LaunchEffect(cfg, cr, srv, input, o.cr.status.jobs, srv')))
  {
    var jobs := cr.status.jobs;
    match r {
      case DeprovisionWaiting(ps) =>
        assert PolledOnly(jobs, RecordProvision(jobs, ps), Provision);
      case DeprovisionTriggered(id, block, ps) =>
        ProvidersIDsDisjoint(jobs, input.launch.n);
        var job := NewJob(id, Deprovision, input.now, Pending, Triggered, block);
        var mid := RecordProvision(jobs, ps);
        assert DeprovisionAppended(cfg, cr, srv, input, AppendJob(mid, job, cfg.maxJobHistory),
                                   Launch(cfg, srv, Deprovision, input.launch), mid, job);
      case _ =>
    }
  }

  lemma TriggerDeprovisioningEffect(cfg: Config, cr: Cr, srv: Server, input: PassInput)
    requires NeedsTrigger(cr.status.jobs, Deprovision) && cr.status.phase == Deleting
    ensures var o := TriggerDeprovisioning(cfg, cr, srv, input);
            && DeleteEffect(cfg, cr, srv, input, o.cr.status.jobs, o.srv)
            && o.cr == cr.(status := cr.status.(jobs := o.cr.status.jobs))
  {
    assert WithPhase(cr, Deleting) == cr;
    TriggerDeprovisionFacts(cfg, cr, srv, input);
    ResultEffect(cfg, cr, srv, input, AsksToDeprovision(cfg, cr, srv, input), TriggerDeprovision(cfg, cr, srv, input));
  }

  lemma PollDeprovisioningEffect(cfg: Config, cr: Cr, srv: Server, input: PassInput)
    requires !NeedsTrigger(cr.status.jobs, Deprovision)
    ensures var o := PollDeprovisioning(cfg, cr, srv, input);
            && PolledOnly(cr.status.jobs, o.cr.status.jobs, Deprovision)
            && o.srv == srv
            && o.cr == cr.(status := cr.status.(jobs := o.cr.status.jobs))
  {
  }

  lemma HandleDeleteEffect(cfg: Config, cr: Cr, srv: Server, input: PassInput)
    ensures var o := HandleDelete(cfg, cr, srv, input);
            && DeleteEffect(cfg, cr, srv, input, o.cr.status.jobs, o.srv)
            && OnlyStatusAndBaseDiffer(cr, o.cr)
            && o.cr.finalizers <= cr.finalizers
            && o.cr.status.phase == Deleting
  {
    var cr' := WithPhase(cr, Deleting);
    var o := HandleDelete(cfg, cr, srv, input);
    assert PolledOnly(cr.status.jobs, cr.status.jobs, Provision);
    if Base in cr.finalizers && !cr.management.Manual? {
      if NeedsTrigger(cr.status.jobs, Deprovision) {
        TriggerDeprovisioningEffect(cfg, cr', srv, input);
        DeleteEffectIgnoresPhase(cfg, cr, srv, input, o.cr.status.jobs, o.srv);
      } else {
        PollDeprovisioningEffect(cfg, cr', srv, input);
      }
    }
  }

  lemma DeleteEffectIgnoresPhase(cfg: Config, cr: Cr, srv: Server, input: PassInput,
                                 jobs': seq<JobStatus>, srv': Server)
    requires DeleteEffect(cfg, WithPhase(cr, Deleting), srv, input, jobs', srv')
    ensures DeleteEffect(cfg, cr, srv, input, jobs', srv')
  {
    var cr' := WithPhase(cr, Deleting);
    assert WithPhase(cr', Deleting) == cr';
    if !(srv' == srv && PolledOnly(cr.status.jobs, jobs', PolledType(cr.status.jobs))) {
      if !(input.launch.LaunchLost? && jobs' == cr.status.jobs
           && srv' == Start(cfg, srv, Deprovision, input.launch.n, 1)) {
        var mid, job :| DeprovisionAppended(cfg, cr', srv, input, jobs', srv', mid, job);
        assert DeprovisionAppended(cfg, cr, srv, input, jobs', srv', mid, job);
      }
    }
  }

  // ---------- why a pass releases the base finalizer ----------

  /** With the AAP provider: the user took over, or AAP says the recorded deprovision job succeeded, or that job
      does not block deletion. */
  ghost predicate AAPReleaseCause(cfg: Config, cr: Cr, srv: Server, input: PassInput) {
    || cr.management.Manual?
    || (&& !NeedsTrigger(cr.status.jobs, Deprovision)
        && var job := Latest(cr.status.jobs, Deprovision).value;
           || !job.blockDeletionOnFailure
           || (!input.getFails && Seen(cfg, srv, job.jobID) && srv.jobs[job.jobID].status == "successful"))
  }

  lemma AAPRelease(cfg: Config, cr: Cr, srv: Server, input: PassInput)
    requires cfg.provider == AAP && cfg.pollInterval > 0
    requires Base in cr.finalizers && Base !in HandleDelete(cfg, cr, srv, input).cr.finalizers
    ensures AAPReleaseCause(cfg, cr, srv, input)
  {
  }

  /** While the playbook's finalizer is there, an EDA delete pass asks to be called again. */
  lemma EDATriggerRequeues(cfg: Config, cr: Cr, srv: Server, input: PassInput)
    requires cfg.provider == EDA && cfg.pollInterval > 0 && Aap in cr.finalizers
    requires input.launch.LaunchRateLimited? ==> input.launch.delay > 0
    ensures TriggerDeprovisioning(cfg, cr, srv, input).requeueAfter > 0
  {
  }

  lemma EDAPollRequeues(cfg: Config, cr: Cr, srv: Server, input: PassInput)
    requires cfg.provider == EDA && cfg.pollInterval > 0 && Aap in cr.finalizers
    requires !NeedsTrigger(cr.status.jobs, Deprovision)
    ensures PollDeprovisioning(cfg, cr, srv, input).requeueAfter > 0
  {
  }

  /** With the EDA provider: the user took over or the playbook's finalizer is already gone. */
  lemma EDARelease(cfg: Config, cr: Cr, srv: Server, input: PassInput)
    requires cfg.provider == EDA && cfg.pollInterval > 0
    requires input.launch.LaunchRateLimited? ==> input.launch.delay > 0
    requires Base in cr.finalizers && Base !in HandleDelete(cfg, cr, srv, input).cr.finalizers
    ensures cr.management.Manual? || Aap !in cr.finalizers
  {
    var cr' := WithPhase(cr, Deleting);
    if !cr.management.Manual? && Aap in cr.finalizers {
      if NeedsTrigger(cr'.status.jobs, Deprovision) {
        EDATriggerRequeues(cfg, cr', srv, input);
        TriggerDeprovisioningEffect(cfg, cr', srv, input);
      } else {
        EDAPollRequeues(cfg, cr', srv, input);
        PollDeprovisioningEffect(cfg, cr', srv, input);
      }
    }
  }

  // ---------- when a pass launches ----------

  predicate Delivered(reply: LaunchReply) { reply.LaunchOk? || reply.LaunchLost? }

  function ReconciledVersion(cr: Cr): string {
    if cr.annotatedVersion.Some? then cr.annotatedVersion.value else ""
  }

  /** A provision job starts exactly in a managed, undisturbed update pass that finds no real provision job and has
      something to apply or an unfinished entry to follow. */
  predicate MayProvision(cr: Cr, input: PassInput) {
    && cr.management.Managed? && Undisturbed(cr, input) && NeedsTrigger(cr.status.jobs, Provision)
    && (cr.specVersion != ReconciledVersion(cr)
        || (Latest(cr.status.jobs, Provision).Some? && !Latest(cr.status.jobs, Provision).value.state.IsTerminal()))
  }

  /** The pass polls the recorded provision job and hears that it ended without success. */
  predicate HearsFailure(cfg: Config, cr: Cr, srv: Server, input: PassInput) {
    && Undisturbed(cr, input) && cr.management.Managed? && !NeedsTrigger(cr.status.jobs, Provision)
    && var job := Latest(cr.status.jobs, Provision).value;
       var reply := GetProvisionStatus(cfg, srv, job.jobID, input);
       && (cr.specVersion != ReconciledVersion(cr) || !job.state.IsTerminal())
       && reply.StatusOk? && reply.status.state.IsTerminal() && !reply.status.state.IsSuccessful()
  }

  /** The phase after the part of a pass that compares versions. */
  lemma VersionsPhase(cfg: Config, cr: Cr, srv: Server, input: PassInput)
    requires !cr.management.Unmanaged? && Undisturbed(cr, input)
    ensures var phase := ReconcileVersions(cfg, cr, srv, input).cr.status.phase;
            phase == if HearsFailure(cfg, cr, srv, input) then Phase.Failed
                     else if cr.specVersion == ReconciledVersion(cr) then Phase.Running
                     else Starting
  {
  }

  /** What the phase after an update pass says. */
  lemma UpdatePhaseExactlyWhen(cfg: Config, cr: Cr, srv: Server, input: PassInput)
    requires !cr.deleting && !cr.management.Unmanaged?
    ensures var phase := Reconcile(cfg, cr, srv, input).cr.status.phase;
            && (phase == Phase.Failed <==> HearsFailure(cfg, cr, srv, input))
            && (phase == Phase.Running <==> Undisturbed(cr, input) && cr.specVersion == ReconciledVersion(cr)
                                            && !HearsFailure(cfg, cr, srv, input))
            && phase in {Starting, Phase.Running, Phase.Failed}
  {
    if Undisturbed(cr, input) {
      var cr' := WithPhase(cr, Starting).(finalizers := cr.finalizers + {Base});
      HandleUpdateContinues(cfg, cr, srv, input);
      VersionsPhase(cfg, cr', srv, input);
      assert HearsFailure(cfg, cr', srv, input) == HearsFailure(cfg, cr, srv, input);
    } else {
      HandleUpdateStops(cfg, cr, srv, input);
    }
  }

  lemma HandleProvisioningLaunches(cfg: Config, cr: Cr, srv: Server, input: PassInput)
    ensures var o := HandleProvisioning(cfg, cr, srv, input);
            && o.srv.deprovision == srv.deprovision
            && o.srv.provision.launched == srv.provision.launched +
                 (if !cr.management.Manual? && NeedsTrigger(cr.status.jobs, Provision) && Delivered(input.launch)
                  then 1 else 0)
  {
  }

  lemma UpdateLaunchesExactlyWhen(cfg: Config, cr: Cr, srv: Server, input: PassInput)
    requires !cr.deleting
    ensures var o := Reconcile(cfg, cr, srv, input);
            && o.srv.deprovision == srv.deprovision
            && o.srv.provision.launched == srv.provision.launched +
                 (if MayProvision(cr, input) && Delivered(input.launch) then 1 else 0)
  {
    var cr' := WithPhase(cr, Starting).(finalizers := cr.finalizers + {Base});
    var st := cr'.status.(desiredVersion := cr.specVersion, reconciledVersion := ReconciledVersion(cr));
    HandleProvisioningLaunches(cfg, WithPhase(cr'.(status := st), Phase.Running), srv, input);
    HandleProvisioningLaunches(cfg, WithPhase(cr'.(status := st), Starting), srv, input);
  }

  /** A deprovision job starts exactly in a managed delete pass that still holds the base finalizer, has no real
      deprovision job on record, and whose provider is ready. */
  lemma DeleteLaunchesExactlyWhen(cfg: Config, cr: Cr, srv: Server, input: PassInput)
    requires cr.deleting
    ensures var o := Reconcile(cfg, cr, srv, input);
            && o.srv.provision == srv.provision
            && o.srv.deprovision.launched == srv.deprovision.launched +
                 (if && cr.management.Managed? && Base in cr.finalizers && NeedsTrigger(cr.status.jobs, Deprovision)
                     && AsksToDeprovision(cfg, WithPhase(cr, Deleting), srv, input) && Delivered(input.launch)
                  then 1 else 0)
  {
    var cr' := WithPhase(cr, Deleting);
    if NeedsTrigger(cr.status.jobs, Deprovision) {
      TriggerDeprovisionFacts(cfg, cr', srv, input);
      ResultEffect(cfg, cr', srv, input, AsksToDeprovision(cfg, cr', srv, input),
                   TriggerDeprovision(cfg, cr', srv, input));
    } else {
      PollDeprovisioningEffect(cfg, cr', srv, input);
    }
  }

  /** AAP's readiness for a provision job it numbered itself: ready exactly when the server answers and the job is
      not running there. While it runs, a cancel that is accepted or refused with 405 means waiting; only another
      error on cancel is an error. */
  lemma AAPReadyExactlyWhen(cfg: Config, status: Status, srv: Server, input: PassInput)
    requires Latest(status.jobs, Provision).Some?
    requires var id := Latest(status.jobs, Provision).value.jobID; id != "" && !IsEDAJobID(id)
    ensures var id := Latest(status.jobs, Provision).value.jobID;
            var running := Seen(cfg, srv, id) && !MapAAPStatusToJobState(srv.jobs[id].status).IsTerminal();
            var r := IsReadyForDeprovision(cfg, status, srv, input);
            && (r.Ready? <==> !input.getFails && !running)
            && (r.NotReady? <==> !input.getFails && running && !input.cancel.CancelFailed?)
  {
  }

  /** Readiness after a webhook's provision job, which AAP cannot be asked about: ready once the phase says that it is
      over, or in a deletion that has not launched yet. */
  lemma EDAReadyExactlyWhen(cfg: Config, status: Status, srv: Server, input: PassInput)
    requires Latest(status.jobs, Provision).Some? && IsEDAJobID(Latest(status.jobs, Provision).value.jobID)
    ensures var r := IsReadyForDeprovision(cfg, status, srv, input);
            && (r == Ready(None) <==>
                  || status.phase == Phase.Running || status.phase == Phase.Failed
                  || (status.phase == Deleting && Latest(status.jobs, Deprovision).None?))
            && (r == NotReady(None) <==> r != Ready(None))
  {
  }
}
