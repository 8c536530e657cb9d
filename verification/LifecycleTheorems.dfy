// The lifecycle's promises over every reachable world, each with the exact configurations that meet it. For the
// configurations that do not, a concrete run shows the promise broken.

module LifecycleTheorems {
  import opened Options
  import opened Jobs
  import opened JobIds
  import opened Decimal
  import opened Providers
  import opened Passes
  import opened PassEffects
  import opened Lifecycle
  import opened LifecycleInvariants
  import opened FinalizerInvariants

  ghost predicate Inv(cfg: Config, w: World) {
    && HistoryInv(cfg, w) && TallyInv(cfg, w) && VersionInv(w) && ArmedInv(w) && PhaseInv(w) && ManagementInv(cfg, w)
    && DeprovisionInv(w)
    && (LaunchesTracked(cfg) ==> ProvisionInv(w))
    && (OverlapAvoided(cfg) && cfg.provider == AAP ==> OverlapInv(w))
    && (cfg.provider == AAP && cfg.pollInterval > 0 && !cfg.allowManual ==> RecordInv(w))
    && (cfg.provider == EDA && cfg.pollInterval > 0 && !cfg.allowManual ==> OrderInv(w))
  }

  lemma InitialInv(cfg: Config, cr: Cr)
    requires Starts(cfg, cr)
    ensures Inv(cfg, Initial(cr))
  {
  }

  lemma StepKeepsInv(cfg: Config, w: World, s: Step)
    requires cfg.maxJobHistory >= 1 && Inv(cfg, w) && Legal(cfg, w, s)
    ensures Inv(cfg, Next(cfg, w, s))
  {
    HistoryKept(cfg, w, s);
    TallyKept(cfg, w, s);
    DeprovisionKept(cfg, w, s);
    ArmedKept(cfg, w, s);
    PhaseKept(cfg, w, s);
    ManagementKept(cfg, w, s);
    if LaunchesTracked(cfg) {
      ProvisionKept(cfg, w, s);
      if cfg.provider == AAP && OverlapAvoided(cfg) { OverlapKept(cfg, w, s); }
    }
    if cfg.pollInterval > 0 && !cfg.allowManual {
      if cfg.provider == AAP { RecordKept(cfg, w, s); } else { OrderKept(cfg, w, s); }
    }
  }

  lemma {:induction false} RunKeepsInv(cfg: Config, cr: Cr, steps: seq<Step>)
    requires cfg.maxJobHistory >= 1 && Starts(cfg, cr) && LegalRun(cfg, Initial(cr), steps)
    ensures Inv(cfg, Run(cfg, Initial(cr), steps))
  {
    if steps == [] {
      InitialInv(cfg, cr);
    } else {
      var front := steps[..|steps| - 1];
      RunKeepsInv(cfg, cr, front);
      StepKeepsInv(cfg, Run(cfg, Initial(cr), front), steps[|steps| - 1]);
    }
  }

  lemma ReachableInv(cfg: Config, w: World)
    requires cfg.maxJobHistory >= 1 && Reachable(cfg, w)
    ensures Inv(cfg, w)
  {
    var cr, steps :| ReachableBy(cfg, w, cr, steps);
    RunKeepsInv(cfg, cr, steps);
  }

  // ---------- 1. at most one launch ----------

  /** At most one deprovision launch is not accounted for by a lost reply or a lost status write, whatever the
      clock does and however short the history is. */
  lemma DeprovisionLaunchedOnce(cfg: Config, w: World)
    requires cfg.maxJobHistory >= 1 && Reachable(cfg, w)
    ensures w.srv.deprovision.launched <= 1 + w.srv.deprovision.lost
  {
    ReachableInv(cfg, w);
  }

  ghost predicate ProvisionLaunchedOnce(cfg: Config) {
    forall w :: Reachable(cfg, w) ==> w.srv.provision.launched <= 1 + w.srv.provision.lost
  }

  // ---------- 2. no overlap ----------

  /** Once a deprovision job has been launched no more provision jobs are running than provision launches were lost:
      none, if none was. */
  ghost predicate NoOverlap(cfg: Config) {
    forall w :: Reachable(cfg, w) && w.srv.deprovision.launched > 0 ==> FewRunning(w.srv)
  }

  // ---------- 3. the base finalizer ----------

  /** The user took over, or AAP reports the recorded deprovision job as successful in this very pass. */
  ghost predicate ReleaseJustified(w: World, input: PassInput)
    requires w.cr.Some?
  {
    || w.cr.value.management.Manual?
    || (var job := Latest(w.cr.value.status.jobs, Deprovision);
        && job.Some? && !input.getFails
        && job.value.jobID in w.srv.jobs
        && w.srv.jobs[job.value.jobID] == AapJob(Deprovision, "successful"))
  }

  ghost predicate Releases(cfg: Config, w: World, s: Step) {
    && Reachable(cfg, w) && Legal(cfg, w, s) && w.cr.Some?
    && Base in w.cr.value.finalizers && Base !in Target(cfg, w, s).finalizers
  }

  ghost predicate ReleaseSafe(cfg: Config) {
    forall w, s :: Releases(cfg, w, s) ==> s.MainPass? && w.cr.value.deleting && ReleaseJustified(w, s.input)
  }

  lemma ReleaseIsSafe(cfg: Config, w: World, s: Step)
    requires cfg.maxJobHistory >= 1 && cfg.provider == AAP && cfg.pollInterval > 0 && Releases(cfg, w, s)
    ensures s.MainPass? && w.cr.value.deleting && ReleaseJustified(w, s.input)
  {
    ReachableInv(cfg, w);
    OnlyDeletePassReleasesBase(cfg, w, s);
    var cr := w.cr.value;
    AAPRelease(cfg, cr, w.srv, s.input);
    if !cr.management.Manual? {
      var at := LatestAt(cr.status.jobs, Deprovision).value;
      assert cr.status.jobs[at] in cr.status.jobs;
    }
  }

  // ---------- 4. the record ----------

  /** A CR whose deletion began labelled and with both finalizers ends only after DELETING was recorded. */
  ghost predicate DeletionRecorded(cfg: Config) {
    forall w, s :: EndsArmed(cfg, w, s) ==> w.record == RecordDeleting
  }

  ghost predicate EndsArmed(cfg: Config, w: World, s: Step) {
    Reachable(cfg, w) && Legal(cfg, w, s) && w.cr.Some? && w.armed && Next(cfg, w, s).cr.None?
  }

  // ---------- 5. the order of finalizers ----------

  /** On every stored version after an armed deletion began: the feedback finalizer is there, and without the base
      finalizer there is no playbook finalizer; the CR ends with the feedback finalizer alone. */
  ghost predicate FinalizersOrdered(w: World) {
    w.armed ==>
      && (forall c :: c in w.past && c.deleting ==>
            Feedback in c.finalizers && (Base !in c.finalizers ==> Aap !in c.finalizers))
      && (w.cr.None? ==> w.past != [] && w.past[|w.past| - 1].finalizers == {Feedback})
  }

  ghost predicate FinalizerOrder(cfg: Config) {
    forall w :: Reachable(cfg, w) ==> FinalizersOrdered(w)
  }

  // ---------- runs that break the promises ----------

  function FreshCr(finalizers: set<Finalizer>, management: Management): Cr {
    Cr(0, false, finalizers, true, management, "v1", None, FreshStatus)
  }

  /** A pass input in which the tenant is ready and nothing fails, with the given launch reply and time. */
  function Input(now: int, launch: LaunchReply): PassInput {
    PassInput(now, TenantReady, false, false, false, false, JobNotFound, "", CancelAccepted, launch, "")
  }

  /** An update pass on a managed CR that never had a version reconciled goes straight to provisioning. */
  lemma PassTriggersProvisioning(cfg: Config, cr: Cr, srv: Server, input: PassInput)
    requires !cr.deleting && cr.management.Managed? && Base in cr.finalizers
    requires cr.annotatedVersion.None? && cr.specVersion == "v1"
    requires input.tenant.TenantReady? && !input.vmListFails && !input.restartFails
    requires NeedsTrigger(cr.status.jobs, Provision)
    ensures Reconcile(cfg, cr, srv, input) ==
            TriggerProvisioning(cfg, cr.(status := Status(Starting, cr.status.jobs, "v1", "")), srv, input)
  {
    var cr' := WithPhase(cr, Starting).(finalizers := cr.finalizers + {Base});
    assert cr.finalizers + {Base} == cr.finalizers;
    assert Reconcile(cfg, cr, srv, input) == ReconcileVersions(cfg, cr', srv, input);
  }

  /** A pass that changed no finalizer, followed by its status write. */
  lemma PassThenCommit(w: World, o: Outcome)
    requires w.cr.Some? && w.pending.None? && !w.cr.value.deleting
    requires o.cr.finalizers == w.cr.value.finalizers
    ensures AfterPass(w, o).cr == w.cr && AfterPass(w, o).pending.Some?
    ensures var w' := NextMainCommit(AfterPass(w, o), false);
            && w'.cr.Some? && w'.pending.None? && w'.srv == o.srv
            && w'.cr.value == w.cr.value.(version := w'.cr.value.version, status := o.cr.status)
  {
  }

  /** One update pass and its status write, as one move. */
  lemma TriggerAndCommit(cfg: Config, w: World, input: PassInput, o: Outcome) returns (w': World)
    requires Reachable(cfg, w) && w.cr.Some? && w.pending.None? && InputLegal(cfg, w.cr.value, w.srv, input)
    requires !w.cr.value.deleting && Reconcile(cfg, w.cr.value, w.srv, input) == o
    requires o.cr.finalizers == w.cr.value.finalizers
    ensures Reachable(cfg, w') && w'.cr.Some? && w'.pending.None?
    ensures w'.cr.value == w.cr.value.(version := w'.cr.value.version, status := o.cr.status) && w'.srv == o.srv
    ensures w.past <= w'.past
  {
    PassThenCommit(w, o);
    NextReachable(cfg, w, MainPass(input));
    NextReachable(cfg, AfterPass(w, o), MainCommit(false));
    w' := NextMainCommit(AfterPass(w, o), false);
  }

  /** Both entries carry time 0, so the older one, the failure, is found as the latest. */
  lemma TieFindsFailure(failure: JobStatus, job: JobStatus)
    requires failure.jobType == job.jobType == Provision && failure.timestamp == job.timestamp
    ensures Latest([failure], Provision) == Some(failure)
    ensures Latest([failure, job], Provision) == Some(failure)
    ensures Latest([failure, job], Deprovision) == None
  {
    assert [failure][..0] == [];
    assert LatestAt([failure], Provision) == Some(0);
    assert [failure, job][..1] == [failure];
    LatestIsFirstMaximum([failure, job], Deprovision);
  }

  /** A managed CR not yet being deleted, with the base finalizer, whose first version is still to be reconciled. */
  predicate Provisioning(w: World) {
    && w.cr.Some? && w.pending.None?
    && w.cr.value.finalizers == {Base, Feedback} && !w.cr.value.deleting && w.cr.value.management.Managed?
    && w.cr.value.annotatedVersion.None? && w.cr.value.specVersion == "v1"
  }

  /** The entry a provisioning trigger appends. */
  function TriggerEntry(cfg: Config, jobs: seq<JobStatus>, input: PassInput): JobStatus {
    if !input.launch.LaunchOk? then
      NewJob("", Provision, input.now, JobState.Failed, TriggerFailed(input.errText), false)
    else if cfg.provider == AAP then NewJob(Itoa(input.launch.n), Provision, input.now, Pending, Triggered, false)
    else NewJob(GenerateID(jobs), Provision, input.now, JobState.Running, WebhookSent, false)
  }

  lemma TriggerAppendsEntry(cfg: Config, cr: Cr, srv: Server, input: PassInput)
    requires !input.launch.LaunchRateLimited?
    ensures TriggerProvisioning(cfg, cr, srv, input) ==
            Outcome(WithJobs(cr, AppendJob(cr.status.jobs, TriggerEntry(cfg, cr.status.jobs, input),
                                           cfg.maxJobHistory)),
                    Launch(cfg, srv, Provision, input.launch), cfg.pollInterval, false)
  {
  }

  /** The history an update pass leaves on such a CR. */
  lemma ProvisioningPass(cfg: Config, w: World, now: int, launch: LaunchReply) returns (w': World)
    requires Reachable(cfg, w) && Provisioning(w) && NeedsTrigger(w.cr.value.status.jobs, Provision)
    requires cfg.strictClock ==> forall j :: j in w.cr.value.status.jobs ==> j.timestamp < now
    requires launch == LaunchRejected || (launch.LaunchOk? && Itoa(launch.n) !in w.srv.issued)
    ensures Reachable(cfg, w') && Provisioning(w') && w'.srv == Launch(cfg, w.srv, Provision, launch)
    ensures var jobs := w.cr.value.status.jobs;
            w'.cr.value.status.jobs == AppendJob(jobs, TriggerEntry(cfg, jobs, Input(now, launch)), cfg.maxJobHistory)
    ensures w.past <= w'.past
  {
    var cr, input := w.cr.value, Input(now, launch);
    PassTriggersProvisioning(cfg, cr, w.srv, input);
    var cr' := cr.(status := Status(Starting, cr.status.jobs, "v1", ""));
    TriggerAppendsEntry(cfg, cr', w.srv, input);
    w' := TriggerAndCommit(cfg, w, input, Reconcile(cfg, cr, w.srv, input));
  }

  /** A failed trigger is the latest provision entry although a launch succeeded. */
  ghost predicate HiddenLaunch(cfg: Config, w: World) {
    && Reachable(cfg, w) && Provisioning(w)
    && Latest(w.cr.value.status.jobs, Provision).Some? && Latest(w.cr.value.status.jobs, Provision).value.jobID == ""
    && (forall j :: j in w.cr.value.status.jobs ==> j.timestamp == 0)
    && w.srv == Start(cfg, NoServer, Provision, 1, 0)
  }

  /** A failed trigger and a successful launch within the same clock tick: the failure stays the latest entry. */
  lemma TiedClockHidesLaunch(cfg: Config) returns (w: World)
    requires !LaunchesTracked(cfg) && cfg.maxJobHistory >= 1
    ensures HiddenLaunch(cfg, w) && (cfg.provider == AAP ==> Untraceable(cfg, w))
  {
    var cr := FreshCr({Base, Feedback}, Managed);
    InitialReachable(cfg, cr);
    var w1 := ProvisioningPass(cfg, Initial(cr), 0, LaunchRejected);
    var failure := TriggerEntry(cfg, [], Input(0, LaunchRejected));
    assert w1.cr.value.status.jobs == [failure];
    TieFindsFailure(failure, failure);
    w := ProvisioningPass(cfg, w1, 0, LaunchOk(1));
    var job := TriggerEntry(cfg, [failure], Input(0, LaunchOk(1)));
    assert w.cr.value.status.jobs == [failure, job];
    TieFindsFailure(failure, job);
    ProvidersIDsDisjoint([], 1);
  }

  /** Launched twice without any loss: the second launch follows because the failure is still the latest entry. */
  lemma TiedClockLaunchesTwice(cfg: Config)
    requires !LaunchesTracked(cfg) && cfg.maxJobHistory >= 1
    ensures !ProvisionLaunchedOnce(cfg)
  {
    var w := TiedClockHidesLaunch(cfg);
    ItoaOneTwo();
    var w' := ProvisioningPass(cfg, w, 0, LaunchOk(2));
    assert w'.srv.provision == Tally(2, 0);
  }

  lemma ItoaOneTwo()
    ensures Itoa(1) != Itoa(2)
  {
    AtoiItoa(1);
    AtoiItoa(2);
  }

  /** The same tie lets a deletion launch a deprovision job while the provision job is running. */
  lemma TiedClockOverlaps(cfg: Config)
    requires cfg.provider == AAP && !LaunchesTracked(cfg) && cfg.maxJobHistory >= 1
    ensures !NoOverlap(cfg)
  {
    var w := TiedClockHidesLaunch(cfg);
    DeletionOverlaps(cfg, w);
  }

  /** So does a provision job launched as a workflow job, which the job endpoint answers with 404. */
  lemma UnseenJobOverlaps(cfg: Config)
    requires cfg.provider == AAP && Provision in cfg.unseen && cfg.maxJobHistory >= 1
    ensures !NoOverlap(cfg)
  {
    var cr := FreshCr({Base, Feedback}, Managed);
    InitialReachable(cfg, cr);
    var w := ProvisioningPass(cfg, Initial(cr), 0, LaunchOk(1));
    var job := TriggerEntry(cfg, [], Input(0, LaunchOk(1)));
    assert w.cr.value.status.jobs == [job];
    TieFindsFailure(job, job);
    LatestIsFirstMaximum([job], Deprovision);
    ProvidersIDsDisjoint([], 1);
    DeletionOverlaps(cfg, w);
  }

  /** A CR whose one provision job is running, but whose latest provision entry leads the job endpoint to 404. */
  ghost predicate Untraceable(cfg: Config, w: World) {
    && Reachable(cfg, w) && Provisioning(w) && w.srv == Start(cfg, NoServer, Provision, 1, 0)
    && (forall j :: j in w.cr.value.status.jobs ==> j.timestamp == 0)
    && LooksPurged(cfg, w.cr.value, w.srv)
  }

  /** The latest provision entry is a failed trigger or a job the endpoint does not know; nothing is deprovisioned. */
  predicate LooksPurged(cfg: Config, cr: Cr, srv: Server) {
    && Latest(cr.status.jobs, Deprovision).None?
    && Latest(cr.status.jobs, Provision).Some?
    && var id := Latest(cr.status.jobs, Provision).value.jobID;
       !IsEDAJobID(id) && !Seen(cfg, srv, id)
  }

  lemma DeletionOverlaps(cfg: Config, w: World)
    requires cfg.provider == AAP && cfg.maxJobHistory >= 1 && Untraceable(cfg, w)
    ensures !NoOverlap(cfg)
  {
    NextReachable(cfg, w, UserDelete);
    var w1 := Next(cfg, w, UserDelete);
    var s := MainPass(Input(1, LaunchOk(2)));
    ItoaOneTwo();
    PurgedLookIsReady(cfg, w1.cr.value, w1.srv);
    NextReachable(cfg, w1, s);
    var srv := Start(cfg, w.srv, Deprovision, 2, 0);
    assert Next(cfg, w1, s).srv == srv;
    SecondJobRunsBeside(cfg, srv);
    OverlapRefutes(cfg, Next(cfg, w1, s));
  }

  lemma SecondJobRunsBeside(cfg: Config, srv: Server)
    requires cfg.provider == AAP && srv == Start(cfg, Start(cfg, NoServer, Provision, 1, 0), Deprovision, 2, 0)
    ensures !FewRunning(srv) && srv.deprovision.launched > 0
  {
    ItoaOneTwo();
    assert Itoa(1) in RunningJobs(srv);
  }

  lemma OverlapRefutes(cfg: Config, w: World)
    requires Reachable(cfg, w) && w.srv.deprovision.launched > 0 && !FewRunning(w.srv)
    ensures !NoOverlap(cfg)
  {
  }

  /** 404 reads as a purged job: deprovisioning may start. */
  lemma PurgedLookIsReady(cfg: Config, cr: Cr, srv: Server)
    requires cfg.provider == AAP && cr.deleting && cr.management.Managed? && Base in cr.finalizers
    requires LooksPurged(cfg, cr, srv)
    ensures Reconcile(cfg, cr, srv, Input(1, LaunchOk(2))).srv == Start(cfg, srv, Deprovision, 2, 0)
  {
    var input, cr' := Input(1, LaunchOk(2)), WithPhase(cr, Deleting);
    assert IsReadyForDeprovision(cfg, cr'.status, srv, input) == Ready(None);
    assert TriggerDeprovisioning(cfg, cr', srv, input).srv == Start(cfg, srv, Deprovision, 2, 0);
  }

  /** Exactly when at most one provision launch is unaccounted for. */
  lemma ProvisionLaunchedOnceExactlyWhen(cfg: Config)
    requires cfg.maxJobHistory >= 1
    ensures ProvisionLaunchedOnce(cfg) <==> LaunchesTracked(cfg)
  {
    if LaunchesTracked(cfg) {
      forall w | Reachable(cfg, w) ensures w.srv.provision.launched <= 1 + w.srv.provision.lost {
        ReachableInv(cfg, w);
      }
    } else {
      TiedClockLaunchesTwice(cfg);
    }
  }

  /** Exactly when, with AAP, only lost provision launches can be running beside a deprovision job. */
  lemma NoOverlapExactlyWhen(cfg: Config)
    requires cfg.maxJobHistory >= 1 && cfg.provider == AAP
    ensures NoOverlap(cfg) <==> LaunchesTracked(cfg) && Provision !in cfg.unseen
  {
    if !LaunchesTracked(cfg) {
      TiedClockOverlaps(cfg);
    } else if Provision in cfg.unseen {
      UnseenJobOverlaps(cfg);
    } else {
      forall w | Reachable(cfg, w) && w.srv.deprovision.launched > 0 ensures FewRunning(w.srv) {
        ReachableInv(cfg, w);
      }
    }
  }

  // ---------- runs in which the base finalizer goes at once ----------

  /** Deletion of a fresh CR whose first delete pass comes back without asking to be called again. */
  predicate ReleasesAtOnce(cfg: Config, cr: Cr, input: PassInput) {
    HandleDeprovisioning(cfg, WithPhase(cr, Deleting), NoServer, input).requeueAfter <= 0
  }

  function Deleted(cr: Cr): Cr {
    cr.(version := 1, deleting := true, status := FreshStatus)
  }

  /** The world after that pass: the base finalizer is gone, the stored phase is still the initial one. */
  lemma FirstPassReleases(cfg: Config, cr: Cr) returns (w1: World, s: Step)
    requires Starts(cfg, cr) && !cr.deleting && cr.labelled && !cr.management.Unmanaged?
    requires {Base, Feedback} <= cr.finalizers
    requires ReleasesAtOnce(cfg, Deleted(cr), Input(0, LaunchRejected))
    ensures s == MainPass(Input(0, LaunchRejected)) && w1.cr == Some(Deleted(cr))
    ensures Reachable(cfg, w1) && Legal(cfg, w1, s)
    ensures w1.armed && w1.srv == NoServer && w1.feedback.Idle? && w1.record == Unspecified
    ensures Target(cfg, w1, s) == Deleted(cr).(finalizers := cr.finalizers - {Base})
  {
    var w0 := Initial(cr);
    InitialReachable(cfg, cr);
    NextReachable(cfg, w0, UserDelete);
    w1 := Next(cfg, w0, UserDelete);
    assert Feedback in cr.finalizers;
    s := MainPass(Input(0, LaunchRejected));
    var del := Deleted(cr);
    assert w1.cr == Some(del);
    HandleDeleteEffect(cfg, del, NoServer, s.input);
    var o := HandleDeprovisioning(cfg, WithPhase(del, Deleting), NoServer, s.input);
    assert o.cr.finalizers == cr.finalizers by {
      NothingTouchesFinalizers(cfg, WithPhase(del, Deleting), NoServer, s.input);
    }
  }

  lemma NothingTouchesFinalizers(cfg: Config, cr: Cr, srv: Server, input: PassInput)
    requires cr.status.phase == Deleting
    ensures HandleDeprovisioning(cfg, cr, srv, input).cr.finalizers == cr.finalizers
  {
    if NeedsTrigger(cr.status.jobs, Deprovision) {
      TriggerDeprovisioningEffect(cfg, cr, srv, input);
    } else {
      PollDeprovisioningEffect(cfg, cr, srv, input);
    }
  }

  /** A released CR of which the record knows nothing yet. */
  ghost predicate ReleasedUnrecorded(cfg: Config, w: World) {
    && Reachable(cfg, w) && w.armed && w.feedback.Idle? && w.record == Unspecified
    && VersionInv(w) && w.cr.Some?
    && w.cr.value.labelled && w.cr.value.status.phase == NoPhase && LastFinalizer(w.cr.value)
  }

  lemma ReadStep(cfg: Config, w: World, v: nat)
    requires w.feedback.Idle? && v < |w.past|
    ensures Legal(cfg, w, FeedbackRead(v)) && Next(cfg, w, FeedbackRead(v)) == w.(feedback := HasRead(v))
  {
  }

  /** Saving a version with no phase leaves the record as it was. */
  lemma SaveStep(cfg: Config, w: World)
    requires w.feedback.HasRead? && w.feedback.v < |w.past|
    requires var c := w.past[w.feedback.v]; c.labelled && LastFinalizer(c) && c.status.phase == NoPhase
    ensures Legal(cfg, w, FeedbackSave) && Next(cfg, w, FeedbackSave) == w.(feedback := HasSaved(w.feedback.v))
  {
  }

  /** Saving needs no more than having read the version. */
  lemma SaveAfterRead(cfg: Config, w: World, v: nat)
    requires Reachable(cfg, w) && w.feedback.Idle? && v < |w.past|
    requires var c := w.past[v]; c.labelled && LastFinalizer(c) && c.status.phase == NoPhase
    ensures Reachable(cfg, w.(feedback := HasSaved(v)))
  {
    ReadStep(cfg, w, v);
    NextReachable(cfg, w, FeedbackRead(v));
    var mid := w.(feedback := HasRead(v));
    SaveStep(cfg, mid);
    NextReachable(cfg, mid, FeedbackSave);
  }

  /** A feedback pass reads the current version and saves it. */
  lemma ReadAndSave(cfg: Config, w: World) returns (w': World)
    requires ReleasedUnrecorded(cfg, w)
    ensures Reachable(cfg, w') && w' == w.(feedback := HasSaved(|w.past| - 1))
  {
    SaveAfterRead(cfg, w, |w.past| - 1);
    w' := w.(feedback := HasSaved(|w.past| - 1));
  }

  /** Once a pass has saved the current version, dropping its last finalizer ends the CR. */
  lemma SavedCrEnds(cfg: Config, w: World)
    requires VersionInv(w) && w.cr.Some? && LastFinalizer(w.cr.value)
    ensures var w' := w.(feedback := HasSaved(|w.past| - 1));
            Legal(cfg, w', FeedbackRemoveFinalizer) && Next(cfg, w', FeedbackRemoveFinalizer).cr.None?
  {
    assert {Feedback} - {Feedback} == {};
  }

  lemma EndRefutes(cfg: Config, w: World, s: Step)
    requires EndsArmed(cfg, w, s) && w.record != RecordDeleting
    ensures !DeletionRecorded(cfg)
  {
  }

  lemma FeedbackEndsUnrecorded(cfg: Config, w: World)
    requires ReleasedUnrecorded(cfg, w)
    ensures !DeletionRecorded(cfg)
  {
    var w' := ReadAndSave(cfg, w);
    SavedCrEnds(cfg, w);
    EndRefutes(cfg, w', FeedbackRemoveFinalizer);
  }

  /** From there the feedback controller ends the CR while the record still has no DELETING. */
  lemma EndsUnrecorded(cfg: Config, cr: Cr)
    requires cfg.maxJobHistory >= 1
    requires Starts(cfg, cr) && !cr.deleting && cr.labelled && !cr.management.Unmanaged?
    requires cr.finalizers == {Base, Feedback}
    requires ReleasesAtOnce(cfg, Deleted(cr), Input(0, LaunchRejected))
    ensures !DeletionRecorded(cfg)
  {
    var w1, s := FirstPassReleases(cfg, cr);
    NextReachable(cfg, w1, s);
    var w2 := Next(cfg, w1, s);
    StepWrites(cfg, w1, s);
    StepArming(cfg, w1, s);
    ReachableInv(cfg, w2);
    assert Target(cfg, w1, s).finalizers == {Feedback};
    FeedbackEndsUnrecorded(cfg, w2);
  }

  /** When nothing has been provisioned and the launch is rejected, an AAP delete pass returns the poll interval. */
  lemma RejectedLaunchReturnsPollInterval(cfg: Config, cr: Cr)
    requires cfg.provider == AAP && !cr.management.Manual? && cr.status == FreshStatus
    ensures var o := HandleDeprovisioning(cfg, WithPhase(cr, Deleting), NoServer, Input(0, LaunchRejected));
            o.requeueAfter == cfg.pollInterval
  {
  }

  /** Exactly when AAP deletions release the base finalizer only on a reported success (or in Manual mode). */
  lemma ReleaseSafeExactlyWhen(cfg: Config)
    requires cfg.maxJobHistory >= 1 && cfg.provider == AAP
    ensures ReleaseSafe(cfg) <==> cfg.pollInterval > 0
  {
    if cfg.pollInterval > 0 {
      forall w, s | Releases(cfg, w, s)
        ensures s.MainPass? && w.cr.value.deleting && ReleaseJustified(w, s.input)
      {
        ReleaseIsSafe(cfg, w, s);
      }
    } else {
      var cr := FreshCr({Base, Feedback}, Managed);
      RejectedLaunchReturnsPollInterval(cfg, Deleted(cr));
      var w1, s := FirstPassReleases(cfg, cr);
      assert Releases(cfg, w1, s);
      assert !ReleaseJustified(w1, s.input);
    }
  }

  /** For every provider, interval and management mode: an armed CR ends with DELETING on record exactly when
      Deleting was stored as its phase by then. */
  lemma EndIsRecordedExactlyWhen(cfg: Config, w: World, s: Step)
    requires cfg.maxJobHistory >= 1 && EndsArmed(cfg, w, s)
    ensures w.record == RecordDeleting <==> w.cr.value.status.phase == Deleting
  {
    ReachableInv(cfg, w);
    EndRecordedExactlyWhen(cfg, w, s);
  }

  /** An armed CR about to end has no base finalizer left, so its phase is Deleting. */
  lemma LastFinalizerPhase(cfg: Config, w: World, s: Step)
    requires VersionInv(w) && ArmedInv(w) && RecordInv(w) && Legal(cfg, w, s)
    requires w.cr.Some? && w.armed && Next(cfg, w, s).cr.None?
    ensures w.cr.value.status.phase == Deleting
  {
    ArmedEnd(cfg, w, s);
    assert w.cr.value in w.past;
  }

  /** Exactly when the end of a CR is always preceded by DELETING in the fulfillment record. */
  lemma DeletionRecordedExactlyWhen(cfg: Config)
    requires cfg.maxJobHistory >= 1
    ensures DeletionRecorded(cfg) <==> cfg.provider == AAP && cfg.pollInterval > 0 && !cfg.allowManual
  {
    if cfg.provider == AAP && cfg.pollInterval > 0 && !cfg.allowManual {
      forall w, s | EndsArmed(cfg, w, s) ensures w.record == RecordDeleting {
        ReachableInv(cfg, w);
        LastFinalizerPhase(cfg, w, s);
        EndRecordedExactlyWhen(cfg, w, s);
      }
    } else if cfg.allowManual {
      EndsUnrecorded(cfg, FreshCr({Base, Feedback}, Manual));
    } else {
      var cr := FreshCr({Base, Feedback}, Managed);
      if cfg.provider == AAP {
        RejectedLaunchReturnsPollInterval(cfg, Deleted(cr));
      }
      EndsUnrecorded(cfg, cr);
    }
  }

  /** Exactly when, with EDA, finalizers leave in the order playbook, base, feedback. */
  lemma FinalizerOrderExactlyWhen(cfg: Config)
    requires cfg.maxJobHistory >= 1 && cfg.provider == EDA
    ensures FinalizerOrder(cfg) <==> cfg.pollInterval > 0 && !cfg.allowManual
  {
    if cfg.pollInterval > 0 && !cfg.allowManual {
      forall w | Reachable(cfg, w) ensures FinalizersOrdered(w) {
        ReachableInv(cfg, w);
      }
    } else {
      var cr := FreshCr({Base, Feedback, Aap}, if cfg.allowManual then Manual else Managed);
      var w1, s := FirstPassReleases(cfg, cr);
      NextReachable(cfg, w1, s);
      StepWrites(cfg, w1, s);
      StepArming(cfg, w1, s);
      var w2 := Next(cfg, w1, s);
      assert Aap in Target(cfg, w1, s).finalizers;
      assert w2.cr.value in w2.past;
      assert !FinalizersOrdered(w2);
    }
  }
}
