// What every step of the lifecycle keeps: the job history, the launch tallies, and the absence of overlap.

module LifecycleInvariants {
  import opened Options
  import opened Jobs
  import opened JobIds
  import opened Decimal
  import opened Providers
  import opened Passes
  import opened PassEffects
  import opened Lifecycle

  // ---------- the invariants ----------

  predicate ServerGood(srv: Server) {
    && srv.jobs.Keys <= srv.issued
    && (forall id :: id in srv.issued ==> id != "" && !IsEDAJobID(id))
    && (forall id :: id in srv.jobs && srv.jobs[id].kind == Deprovision ==> srv.deprovision.launched > 0)
  }

  predicate DepEntryGood(cfg: Config, srv: Server, j: JobStatus) {
    && j.jobID != ""
    && (cfg.provider == AAP ==>
          && j.blockDeletionOnFailure
          && j.jobID in srv.issued
          && (j.jobID in srv.jobs ==> srv.jobs[j.jobID].kind == Deprovision))
  }

  predicate DepEntriesGood(cfg: Config, srv: Server, jobs: seq<JobStatus>) {
    forall j :: j in jobs && j.jobType == Deprovision ==> DepEntryGood(cfg, srv, j)
  }

  /** Deprovision entries exist only on a CR being deleted, and only together with the Deleting phase. */
  predicate StatusGood(cfg: Config, srv: Server, st: Status, deleting: bool) {
    && DepEntriesGood(cfg, srv, st.jobs)
    && (HasType(st.jobs, Deprovision) ==> st.phase == Deleting && deleting && srv.deprovision.launched > 0)
  }

  predicate HistoryInv(cfg: Config, w: World) {
    && ServerGood(w.srv)
    && (w.cr.Some? && !w.cr.value.deleting ==> w.srv.deprovision.launched == 0)
    && (w.cr.Some? ==> StatusGood(cfg, w.srv, w.cr.value.status, w.cr.value.deleting))
    && (w.cr.Some? && w.pending.Some? ==> StatusGood(cfg, w.srv, w.pending.value.status, w.cr.value.deleting))
  }

  function PendingOf(w: World, t: JobType): nat {
    if w.pending.None? then 0 else if t == Provision then w.pending.value.provision else w.pending.value.deprovision
  }

  /** Launches of a type whose ID is in the stored status or in a status about to be stored. */
  function Known(w: World, t: JobType): int {
    w.srv.Of(t).launched - w.srv.Of(t).lost
  }

  predicate TallyInv(cfg: Config, w: World) {
    && PendingOf(w, Provision) <= Known(w, Provision)
    && PendingOf(w, Deprovision) <= Known(w, Deprovision) <= 1
    && (w.cr.Some? && Known(w, Deprovision) > PendingOf(w, Deprovision) ==>
          HasType(w.cr.value.status.jobs, Deprovision))
    && (w.pending.Some? && Known(w, Deprovision) > 0 ==> HasType(w.pending.value.status.jobs, Deprovision))
  }

  /** When appended jobs are found again, a recorded provision launch stays the latest provision entry. */
  predicate ProvisionInv(w: World) {
    && PendingOf(w, Provision) <= Known(w, Provision) <= 1
    && (w.cr.Some? && !w.cr.value.deleting ==>
          && (Known(w, Provision) > PendingOf(w, Provision) ==> !NeedsTrigger(w.cr.value.status.jobs, Provision))
          && (w.pending.Some? && Known(w, Provision) > 0 ==> !NeedsTrigger(w.pending.value.status.jobs, Provision)))
  }

  function LatestID(jobs: seq<JobStatus>, t: JobType): Option<string> {
    match Latest(jobs, t)
    case None => None
    case Some(j) => Some(j.jobID)
  }

  predicate RunningProvision(srv: Server, id: string) {
    id in srv.jobs && srv.jobs[id].kind == Provision && !MapAAPStatusToJobState(srv.jobs[id].status).IsTerminal()
  }

  predicate Tracked(w: World, id: string) {
    w.cr.Some? ==>
      && (PendingOf(w, Provision) == 0 ==> LatestID(w.cr.value.status.jobs, Provision) == Some(id))
      && (w.pending.Some? ==> LatestID(w.pending.value.status.jobs, Provision) == Some(id))
  }

  /** The provision jobs AAP is running. */
  function RunningJobs(srv: Server): set<string> {
    set id | id in srv.jobs && RunningProvision(srv, id)
  }

  /** Apart from this job no more provision jobs are running than launches were lost. */
  predicate AllButOne(srv: Server, id: string) {
    |RunningJobs(srv) - {id}| <= srv.provision.lost
  }

  predicate FewRunning(srv: Server) {
    |RunningJobs(srv)| <= srv.provision.lost
  }

  /** Apart from lost launches, a provision job still running in AAP is the one the CR tracks, and it runs only as
      long as no deprovision job has been launched. */
  ghost predicate OverlapInv(w: World) {
    && (Known(w, Provision) <= 0 || w.srv.deprovision.launched > 0 ==> FewRunning(w.srv))
    && (Known(w, Provision) > 0 && w.srv.deprovision.launched == 0 ==>
          exists id :: AllButOne(w.srv, id) && Tracked(w, id))
  }

  /** A recorded deprovision job stays the recorded one: a pending status names the same. */
  predicate DeprovisionInv(w: World) {
    w.cr.Some? && w.pending.Some? && HasType(w.cr.value.status.jobs, Deprovision) ==>
      LatestID(w.pending.value.status.jobs, Deprovision) == LatestID(w.cr.value.status.jobs, Deprovision)
  }

  // ---------- steps that leave the history alone ----------

  ghost predicate SameHistory(w: World, w': World) {
    && w'.srv == w.srv
    && w'.pending == w.pending
    && (w'.cr.Some? ==>
          && w.cr.Some?
          && w'.cr.value.status == w.cr.value.status
          && (w.cr.value.deleting ==> w'.cr.value.deleting))
  }

  predicate TouchesHistory(s: Step) {
    s.MainPass? || s.MainCommit? || s.JobProgress? || s.JobPurge?
  }

  lemma OtherStepsKeepHistory(cfg: Config, w: World, s: Step)
    requires Legal(cfg, w, s) && !TouchesHistory(s)
    ensures SameHistory(w, Next(cfg, w, s))
  {
  }

  lemma SameHistoryKeepsInvariants(cfg: Config, w: World, w': World)
    requires SameHistory(w, w')
    ensures HistoryInv(cfg, w) ==> HistoryInv(cfg, w')
    ensures TallyInv(cfg, w) ==> TallyInv(cfg, w')
    ensures ProvisionInv(w) ==> ProvisionInv(w')
  {
  }

  // ---------- polls ----------

  lemma PolledFacts(jobs: seq<JobStatus>, jobs': seq<JobStatus>, t: JobType)
    requires PolledOnly(jobs, jobs', t)
    ensures forall e :: e in jobs' ==> exists o :: o in jobs && Identity(o) == Identity(e)
    ensures LatestID(jobs', t) == LatestID(jobs, t)
    ensures HasType(jobs', t) == HasType(jobs, t)
    ensures NeedsTrigger(jobs', t) == NeedsTrigger(jobs, t)
  {
    LatestIsFirstMaximum(jobs, t);
    LatestIsFirstMaximum(jobs', t);
    if jobs' != jobs {
      var st, m :| jobs' == PollLatest(jobs, t, st, m);
      PollFacts(jobs, t, st, m);
    } else {
      forall e | e in jobs' ensures exists o :: o in jobs && Identity(o) == Identity(e) {
        assert e in jobs;
      }
    }
  }

  lemma SameIdentitiesKeepDepEntries(cfg: Config, srv: Server, jobs: seq<JobStatus>, jobs': seq<JobStatus>)
    requires DepEntriesGood(cfg, srv, jobs)
    requires forall e :: e in jobs' ==> exists o :: o in jobs && Identity(o) == Identity(e)
    ensures DepEntriesGood(cfg, srv, jobs')
    ensures HasType(jobs', Deprovision) ==> HasType(jobs, Deprovision)
  {
    forall e | e in jobs' && e.jobType == Deprovision
      ensures DepEntryGood(cfg, srv, e) && HasType(jobs, Deprovision)
    {
      var o :| o in jobs && Identity(o) == Identity(e);
      assert o.jobType == e.jobType && o.jobID == e.jobID && o.blockDeletionOnFailure == e.blockDeletionOnFailure;
      var k :| 0 <= k < |jobs| && jobs[k] == o;
    }
  }

  // ---------- appends ----------

  lemma AppendedMembers(jobs: seq<JobStatus>, job: JobStatus, maxHistory: nat)
    requires maxHistory >= 1
    ensures var r := AppendJob(jobs, job, maxHistory);
            && job in r
            && HasType(r, job.jobType)
            && (forall e :: e in r ==> e in jobs || e == job)
  {
    AppendShape(jobs, job, maxHistory);
    var r := AppendJob(jobs, job, maxHistory);
    assert r[|r| - 1] == job;
  }

  /** An appended job is sure to be found as the latest of its type: job times strictly increase, or the history
      holds one entry only. */
  predicate LaunchesTracked(cfg: Config) {
    cfg.strictClock || cfg.maxJobHistory == 1
  }

  lemma AppendedIsLatest(jobs: seq<JobStatus>, job: JobStatus, maxHistory: nat)
    requires maxHistory >= 1
    requires maxHistory == 1 || forall e :: e in jobs ==> e.timestamp < job.timestamp
    ensures Latest(AppendJob(jobs, job, maxHistory), job.jobType) == Some(job)
  {
    AppendedIsLatestExactlyWhen(jobs, job, maxHistory);
    AppendShape(jobs, job, maxHistory);
    assert forall k :: 0 <= k < |jobs| ==> jobs[k] in jobs;
  }

  lemma NoRealDeprovision(cfg: Config, srv: Server, jobs: seq<JobStatus>)
    requires DepEntriesGood(cfg, srv, jobs)
    ensures NeedsTrigger(jobs, Deprovision) <==> !HasType(jobs, Deprovision)
  {
    LatestIsFirstMaximum(jobs, Deprovision);
  }

  // ---------- the server grows ----------

  ghost predicate KeepsDepEntries(cfg: Config, srv: Server, srv': Server) {
    ServerGood(srv') && forall j :: DepEntryGood(cfg, srv, j) ==> DepEntryGood(cfg, srv', j)
  }

  lemma StartKeepsServer(cfg: Config, srv: Server, kind: JobType, n: int, lost: nat)
    requires ServerGood(srv) && Itoa(n) !in srv.issued && lost <= 1
    ensures KeepsDepEntries(cfg, srv, Start(cfg, srv, kind, n, lost))
  {
    ProvidersIDsDisjoint([], n);
  }

  // ---------- the main pass keeps the history ----------

  lemma PassFrame(cfg: Config, cr: Cr, srv: Server, input: PassInput)
    ensures var o := Reconcile(cfg, cr, srv, input);
            && OnlyStatusAndBaseDiffer(cr, o.cr)
            && (cr.deleting ==> o.cr.finalizers <= cr.finalizers)
            && (!cr.deleting ==> cr.finalizers <= o.cr.finalizers)
  {
    if cr.deleting {
      HandleDeleteEffect(cfg, cr, srv, input);
    } else {
      HandleUpdateEffect(cfg, cr, srv, input);
    }
  }

  lemma ProvisionEntryKeepsDepEntries(cfg: Config, srv: Server, jobs: seq<JobStatus>, job: JobStatus)
    requires cfg.maxJobHistory >= 1 && job.jobType == Provision
    requires DepEntriesGood(cfg, srv, jobs) && !HasType(jobs, Deprovision)
    ensures var r := AppendJob(jobs, job, cfg.maxJobHistory);
            DepEntriesGood(cfg, srv, r) && !HasType(r, Deprovision)
  {
    AppendShape(jobs, job, cfg.maxJobHistory);
    assert forall k :: 0 <= k < |jobs| ==> jobs[k].jobType == Provision;
  }

  lemma UpdateKeepsStatus(cfg: Config, jobs: seq<JobStatus>, srv: Server, input: PassInput,
                          jobs': seq<JobStatus>, srv': Server)
    requires cfg.maxJobHistory >= 1
    requires ServerGood(srv) && DepEntriesGood(cfg, srv, jobs) && !HasType(jobs, Deprovision)
    requires input.launch.LaunchOk? ==> Itoa(input.launch.n) !in srv.issued
    requires input.launch.LaunchLost? ==> Itoa(input.launch.n) !in srv.issued
    requires UpdateEffect(cfg, jobs, srv, input, jobs', srv')
    ensures KeepsDepEntries(cfg, srv, srv')
    ensures DepEntriesGood(cfg, srv', jobs') && !HasType(jobs', Deprovision)
  {
    if srv' == srv && PolledOnly(jobs, jobs', Provision) {
      PolledFacts(jobs, jobs', Provision);
      SameIdentitiesKeepDepEntries(cfg, srv, jobs, jobs');
    } else {
      var job :| ProvisionAppended(cfg, jobs, srv, input, jobs', srv', job);
      ProvisionEntryKeepsDepEntries(cfg, srv, jobs, job);
      if srv' != srv {
        StartKeepsServer(cfg, srv, Provision, input.launch.n, if job.jobID == "" then 1 else 0);
      }
    }
  }

  lemma DeleteKeepsStatus(cfg: Config, cr: Cr, srv: Server, input: PassInput,
                          jobs': seq<JobStatus>, srv': Server)
    requires cfg.maxJobHistory >= 1
    requires ServerGood(srv) && DepEntriesGood(cfg, srv, cr.status.jobs)
    requires input.launch.LaunchOk? ==> Itoa(input.launch.n) !in srv.issued
    requires input.launch.LaunchLost? ==> Itoa(input.launch.n) !in srv.issued
    requires DeleteEffect(cfg, cr, srv, input, jobs', srv')
    ensures KeepsDepEntries(cfg, srv, srv') && DepEntriesGood(cfg, srv', jobs')
  {
    var jobs := cr.status.jobs;
    if srv' == srv && PolledOnly(jobs, jobs', PolledType(jobs)) {
      PolledFacts(jobs, jobs', PolledType(jobs));
      SameIdentitiesKeepDepEntries(cfg, srv, jobs, jobs');
    } else if input.launch.LaunchLost? {
      StartKeepsServer(cfg, srv, Deprovision, input.launch.n, 1);
    } else {
      var mid, job :| DeprovisionAppended(cfg, cr, srv, input, jobs', srv', mid, job);
      PolledFacts(jobs, mid, Provision);
      SameIdentitiesKeepDepEntries(cfg, srv, jobs, mid);
      AppendedMembers(mid, job, cfg.maxJobHistory);
      StartKeepsServer(cfg, srv, Deprovision, input.launch.n, 0);
    }
  }

  /** The history part of the invariant after a pass, from the pass's effect on statuses alone. */
  lemma AfterPassKeepsHistory(cfg: Config, w: World, o: Outcome)
    requires w.cr.Some? && w.pending.None? && HistoryInv(cfg, w)
    requires KeepsDepEntries(cfg, w.srv, o.srv)
    requires w.srv.deprovision.launched <= o.srv.deprovision.launched
    requires !w.cr.value.deleting ==> o.srv.deprovision.launched == 0
    requires StatusGood(cfg, o.srv, o.cr.status, w.cr.value.deleting)
    ensures HistoryInv(cfg, AfterPass(w, o))
  {
  }

  lemma DeleteEffectLaunches(cfg: Config, cr: Cr, srv: Server, input: PassInput, jobs': seq<JobStatus>, srv': Server)
    requires cfg.maxJobHistory >= 1 && DepEntriesGood(cfg, srv, cr.status.jobs)
    requires HasType(cr.status.jobs, Deprovision) ==> srv.deprovision.launched > 0
    requires DeleteEffect(cfg, cr, srv, input, jobs', srv')
    ensures srv.deprovision.launched <= srv'.deprovision.launched
    ensures HasType(jobs', Deprovision) ==> srv'.deprovision.launched > 0
  {
    var jobs := cr.status.jobs;
    if srv' == srv && PolledOnly(jobs, jobs', PolledType(jobs)) {
      PolledFacts(jobs, jobs', PolledType(jobs));
      SameIdentitiesKeepDepEntries(cfg, srv, jobs, jobs');
    }
  }

  lemma MainPassKeepsHistory(cfg: Config, w: World, input: PassInput)
    requires cfg.maxJobHistory >= 1 && HistoryInv(cfg, w) && Legal(cfg, w, MainPass(input))
    ensures HistoryInv(cfg, NextMainPass(cfg, w, input))
  {
    var cr := w.cr.value;
    var o := Reconcile(cfg, cr, w.srv, input);
    if cr.management.Unmanaged? {
    } else if cr.deleting {
      HandleDeleteEffect(cfg, cr, w.srv, input);
      DeleteKeepsStatus(cfg, cr, w.srv, input, o.cr.status.jobs, o.srv);
      DeleteEffectLaunches(cfg, cr, w.srv, input, o.cr.status.jobs, o.srv);
    } else {
      HandleUpdateEffect(cfg, cr, w.srv, input);
      UpdateKeepsStatus(cfg, cr.status.jobs, w.srv, input, o.cr.status.jobs, o.srv);
      UpdateLeavesDeprovision(cfg, cr.status.jobs, w.srv, input, o.cr.status.jobs, o.srv);
    }
    AfterPassKeepsHistory(cfg, w, o);
  }

  lemma CommitKeepsHistory(cfg: Config, w: World, failed: bool)
    requires HistoryInv(cfg, w) && w.pending.Some?
    ensures HistoryInv(cfg, NextMainCommit(w, failed))
  {
  }

  lemma HistoryKept(cfg: Config, w: World, s: Step)
    requires cfg.maxJobHistory >= 1 && HistoryInv(cfg, w) && Legal(cfg, w, s)
    ensures HistoryInv(cfg, Next(cfg, w, s))
  {
    if s.MainPass? {
      MainPassKeepsHistory(cfg, w, s.input);
    } else if s.MainCommit? {
      CommitKeepsHistory(cfg, w, s.failed);
    } else if !TouchesHistory(s) {
      OtherStepsKeepHistory(cfg, w, s);
      SameHistoryKeepsInvariants(cfg, w, Next(cfg, w, s));
    }
  }

  // ---------- the tallies ----------

  lemma DeleteTracksDeprovision(cfg: Config, cr: Cr, srv: Server, input: PassInput,
                                jobs': seq<JobStatus>, srv': Server)
    requires cfg.maxJobHistory >= 1 && DepEntriesGood(cfg, srv, cr.status.jobs)
    requires 0 <= KnownTally(srv.deprovision) <= 1
    requires KnownTally(srv.deprovision) > 0 ==> HasType(cr.status.jobs, Deprovision)
    requires DeleteEffect(cfg, cr, srv, input, jobs', srv')
    ensures KnownTally(srv.deprovision) <= KnownTally(srv'.deprovision) <= 1
    ensures KnownTally(srv'.deprovision) > 0 ==> HasType(jobs', Deprovision)
    ensures KnownTally(srv'.provision) == KnownTally(srv.provision)
  {
    var jobs := cr.status.jobs;
    NoRealDeprovision(cfg, srv, jobs);
    if srv' == srv && PolledOnly(jobs, jobs', PolledType(jobs)) {
      PolledFacts(jobs, jobs', PolledType(jobs));
    } else if input.launch.LaunchOk? {
      var mid, job :| DeprovisionAppended(cfg, cr, srv, input, jobs', srv', mid, job);
      AppendedMembers(mid, job, cfg.maxJobHistory);
    }
  }

  lemma UpdateLeavesDeprovision(cfg: Config, jobs: seq<JobStatus>, srv: Server, input: PassInput,
                                jobs': seq<JobStatus>, srv': Server)
    requires UpdateEffect(cfg, jobs, srv, input, jobs', srv')
    ensures srv'.deprovision == srv.deprovision
    ensures KnownTally(srv.provision) <= KnownTally(srv'.provision)
  {
  }

  /** The tally part of the invariant after a pass, from the pass's effect on the tallies alone. */
  lemma AfterPassKeepsTally(cfg: Config, w: World, o: Outcome)
    requires w.cr.Some? && w.pending.None? && TallyInv(cfg, w)
    requires KnownTally(w.srv.provision) <= KnownTally(o.srv.provision)
    requires KnownTally(w.srv.deprovision) <= KnownTally(o.srv.deprovision) <= 1
    requires KnownTally(o.srv.deprovision) > 0 ==> HasType(o.cr.status.jobs, Deprovision)
    ensures TallyInv(cfg, AfterPass(w, o))
  {
  }

  lemma MainPassKeepsTally(cfg: Config, w: World, input: PassInput)
    requires cfg.maxJobHistory >= 1 && HistoryInv(cfg, w) && TallyInv(cfg, w) && Legal(cfg, w, MainPass(input))
    ensures TallyInv(cfg, NextMainPass(cfg, w, input))
  {
    var cr := w.cr.value;
    var o := Reconcile(cfg, cr, w.srv, input);
    if cr.management.Unmanaged? {
    } else if cr.deleting {
      HandleDeleteEffect(cfg, cr, w.srv, input);
      DeleteTracksDeprovision(cfg, cr, w.srv, input, o.cr.status.jobs, o.srv);
    } else {
      HandleUpdateEffect(cfg, cr, w.srv, input);
      UpdateLeavesDeprovision(cfg, cr.status.jobs, w.srv, input, o.cr.status.jobs, o.srv);
    }
    AfterPassKeepsTally(cfg, w, o);
  }

  lemma CommitKeepsTally(cfg: Config, w: World, failed: bool)
    requires TallyInv(cfg, w) && w.pending.Some?
    ensures TallyInv(cfg, NextMainCommit(w, failed))
  {
  }

  lemma TallyKept(cfg: Config, w: World, s: Step)
    requires cfg.maxJobHistory >= 1 && HistoryInv(cfg, w) && TallyInv(cfg, w) && Legal(cfg, w, s)
    ensures TallyInv(cfg, Next(cfg, w, s))
  {
    if s.MainPass? {
      MainPassKeepsTally(cfg, w, s.input);
    } else if s.MainCommit? {
      CommitKeepsTally(cfg, w, s.failed);
    } else if !TouchesHistory(s) {
      OtherStepsKeepHistory(cfg, w, s);
      SameHistoryKeepsInvariants(cfg, w, Next(cfg, w, s));
    }
  }

  /** With a deprovision job on record a pass only polls it. */
  lemma PassKeepsDeprovision(cfg: Config, cr: Cr, srv: Server, input: PassInput)
    requires StatusGood(cfg, srv, cr.status, cr.deleting) && HasType(cr.status.jobs, Deprovision)
    ensures var o := Reconcile(cfg, cr, srv, input);
            && LatestID(o.cr.status.jobs, Deprovision) == LatestID(cr.status.jobs, Deprovision)
            && o.srv == srv
  {
    if !cr.management.Unmanaged? {
      HandleDeleteEffect(cfg, cr, srv, input);
      NoRealDeprovision(cfg, srv, cr.status.jobs);
      PolledFacts(cr.status.jobs, HandleDelete(cfg, cr, srv, input).cr.status.jobs, Deprovision);
    }
  }

  lemma DeprovisionKept(cfg: Config, w: World, s: Step)
    requires HistoryInv(cfg, w) && DeprovisionInv(w) && Legal(cfg, w, s)
    ensures DeprovisionInv(Next(cfg, w, s))
  {
    if s.MainPass? {
      if HasType(w.cr.value.status.jobs, Deprovision) {
        PassKeepsDeprovision(cfg, w.cr.value, w.srv, s.input);
      }
    } else if !TouchesHistory(s) {
      OtherStepsKeepHistory(cfg, w, s);
    }
  }

  function KnownTally(t: Tally): int { t.launched - t.lost }

  lemma UpdateTracksProvision(cfg: Config, jobs: seq<JobStatus>, srv: Server, input: PassInput,
                              jobs': seq<JobStatus>, srv': Server)
    requires cfg.maxJobHistory >= 1 && LaunchesTracked(cfg)
    requires cfg.strictClock ==> forall j :: j in jobs ==> j.timestamp < input.now
    requires 0 <= KnownTally(srv.provision) <= 1
    requires KnownTally(srv.provision) > 0 ==> !NeedsTrigger(jobs, Provision)
    requires UpdateEffect(cfg, jobs, srv, input, jobs', srv')
    ensures KnownTally(srv.provision) <= KnownTally(srv'.provision) <= 1
    ensures KnownTally(srv'.provision) > 0 ==> !NeedsTrigger(jobs', Provision)
  {
    if srv' == srv && PolledOnly(jobs, jobs', Provision) {
      PolledFacts(jobs, jobs', Provision);
    } else {
      var job :| ProvisionAppended(cfg, jobs, srv, input, jobs', srv', job);
      AppendedIsLatest(jobs, job, cfg.maxJobHistory);
    }
  }

  lemma AfterPassKeepsProvision(w: World, o: Outcome)
    requires w.cr.Some? && w.pending.None? && ProvisionInv(w)
    requires KnownTally(w.srv.provision) <= KnownTally(o.srv.provision) <= 1
    requires !w.cr.value.deleting && KnownTally(o.srv.provision) > 0 ==> !NeedsTrigger(o.cr.status.jobs, Provision)
    ensures ProvisionInv(AfterPass(w, o))
  {
  }

  lemma MainPassKeepsProvision(cfg: Config, w: World, input: PassInput)
    requires cfg.maxJobHistory >= 1 && LaunchesTracked(cfg) && ProvisionInv(w) && Legal(cfg, w, MainPass(input))
    ensures ProvisionInv(NextMainPass(cfg, w, input))
  {
    var cr := w.cr.value;
    var o := Reconcile(cfg, cr, w.srv, input);
    if cr.management.Unmanaged? {
    } else if cr.deleting {
      HandleDeleteEffect(cfg, cr, w.srv, input);
      assert o.srv.provision == w.srv.provision;
    } else {
      HandleUpdateEffect(cfg, cr, w.srv, input);
      UpdateTracksProvision(cfg, cr.status.jobs, w.srv, input, o.cr.status.jobs, o.srv);
    }
    AfterPassKeepsProvision(w, o);
  }

  lemma CommitKeepsProvision(w: World, failed: bool)
    requires ProvisionInv(w) && w.pending.Some?
    ensures ProvisionInv(NextMainCommit(w, failed))
  {
  }

  lemma ProvisionKept(cfg: Config, w: World, s: Step)
    requires cfg.maxJobHistory >= 1 && LaunchesTracked(cfg) && ProvisionInv(w) && Legal(cfg, w, s)
    ensures ProvisionInv(Next(cfg, w, s))
  {
    if s.MainPass? {
      MainPassKeepsProvision(cfg, w, s.input);
    } else if s.MainCommit? {
      CommitKeepsProvision(w, s.failed);
    } else if !TouchesHistory(s) {
      OtherStepsKeepHistory(cfg, w, s);
      SameHistoryKeepsInvariants(cfg, w, Next(cfg, w, s));
    }
  }

  // ---------- no overlap ----------

  /** Appended jobs are found again, and AAP's job endpoint knows the provision jobs. */
  predicate OverlapAvoided(cfg: Config) {
    LaunchesTracked(cfg) && Provision !in cfg.unseen
  }

  /** A delete pass asks AAP for a deprovision job only when the tracked provision job is not running. */
  lemma ReadyMeansNotRunning(cfg: Config, cr: Cr, srv: Server, input: PassInput, id: string)
    requires cfg.provider == AAP && Provision !in cfg.unseen && ServerGood(srv)
    requires AsksToDeprovision(cfg, WithPhase(cr, Deleting), srv, input)
    requires LatestID(cr.status.jobs, Provision) == Some(id)
    ensures !RunningProvision(srv, id)
  {
    assert WithPhase(cr, Deleting).status.jobs == cr.status.jobs;
  }

  lemma FewerRunning(a: set<string>, b: set<string>)
    requires a <= b
    ensures |a| <= |b|
  {
    assert b == a + (b - a);
  }

  lemma OneMoreRunning(a: set<string>, id: string)
    ensures |a| <= |a - {id}| + 1
  {
    if id in a {
      assert a == (a - {id}) + {id};
    } else {
      assert a == a - {id};
    }
  }

  /** A job less is running, none is new: the bounds stay. */
  lemma BoundsShrink(srv: Server, srv': Server, id: string)
    requires srv'.provision == srv.provision
    requires forall x :: RunningProvision(srv', x) ==> RunningProvision(srv, x)
    ensures FewRunning(srv) ==> FewRunning(srv')
    ensures AllButOne(srv, id) ==> AllButOne(srv', id)
  {
    assert RunningJobs(srv') <= RunningJobs(srv);
    FewerRunning(RunningJobs(srv'), RunningJobs(srv));
    FewerRunning(RunningJobs(srv') - {id}, RunningJobs(srv) - {id});
  }

  lemma StartProvisionRuns(cfg: Config, srv: Server, n: int, lost: nat)
    requires cfg.provider == AAP && FewRunning(srv)
    ensures var srv' := Start(cfg, srv, Provision, n, lost);
            && AllButOne(srv', Itoa(n))
            && (lost >= 1 ==> FewRunning(srv'))
  {
    var srv' := Start(cfg, srv, Provision, n, lost);
    assert RunningJobs(srv') - {Itoa(n)} <= RunningJobs(srv);
    FewerRunning(RunningJobs(srv') - {Itoa(n)}, RunningJobs(srv));
    OneMoreRunning(RunningJobs(srv'), Itoa(n));
  }

  lemma StartDeprovisionRuns(cfg: Config, srv: Server, n: int, lost: nat)
    requires ServerGood(srv) && Itoa(n) !in srv.issued
    ensures var srv' := Start(cfg, srv, Deprovision, n, lost);
            srv'.provision == srv.provision && forall id :: RunningProvision(srv', id) <==> RunningProvision(srv, id)
  {
  }

  /** The overlap part of the invariant after a pass, from what the pass did to server and history. */
  ghost predicate PassTracks(w: World, o: Outcome)
    requires w.cr.Some?
  {
    && (KnownTally(o.srv.provision) <= 0 || o.srv.deprovision.launched > 0 ==> FewRunning(o.srv))
    && (KnownTally(o.srv.provision) > 0 && o.srv.deprovision.launched == 0 ==>
          exists id :: AllButOne(o.srv, id) && TracksBeforeAndAfter(w, o, id))
  }

  predicate TracksBeforeAndAfter(w: World, o: Outcome, id: string)
    requires w.cr.Some?
  {
    && LatestID(o.cr.status.jobs, Provision) == Some(id)
    && (Growth(w.srv.provision, o.srv.provision) == 0 ==> LatestID(w.cr.value.status.jobs, Provision) == Some(id))
  }

  lemma AfterPassKeepsOverlap(w: World, o: Outcome)
    requires w.cr.Some? && w.pending.None? && PassTracks(w, o)
    ensures OverlapInv(AfterPass(w, o))
  {
    var w' := AfterPass(w, o);
    if KnownTally(o.srv.provision) > 0 && o.srv.deprovision.launched == 0 {
      var id :| AllButOne(o.srv, id) && TracksBeforeAndAfter(w, o, id);
      assert AllButOne(w'.srv, id) && Tracked(w', id);
    }
  }

  /** A delete pass that launches has found the tracked job not running. */
  lemma DeleteLaunchFindsFew(cfg: Config, w: World, input: PassInput)
    requires cfg.provider == AAP && OverlapAvoided(cfg) && HistoryInv(cfg, w) && OverlapInv(w)
    requires w.cr.Some? && w.pending.None? && AsksToDeprovision(cfg, WithPhase(w.cr.value, Deleting), w.srv, input)
    ensures FewRunning(w.srv)
  {
    if Known(w, Provision) > 0 && w.srv.deprovision.launched == 0 {
      var id :| AllButOne(w.srv, id) && Tracked(w, id);
      ReadyMeansNotRunning(cfg, w.cr.value, w.srv, input, id);
      assert RunningJobs(w.srv) - {id} == RunningJobs(w.srv);
    }
  }

  lemma DeletePassTracks(cfg: Config, w: World, input: PassInput, o: Outcome)
    requires cfg.provider == AAP && OverlapAvoided(cfg) && HistoryInv(cfg, w) && OverlapInv(w)
    requires Legal(cfg, w, MainPass(input))
    requires DeleteEffect(cfg, w.cr.value, w.srv, input, o.cr.status.jobs, o.srv)
    ensures PassTracks(w, o)
  {
    var jobs, jobs' := w.cr.value.status.jobs, o.cr.status.jobs;
    NoRealDeprovision(cfg, w.srv, jobs);
    if o.srv == w.srv && PolledOnly(jobs, jobs', PolledType(jobs)) {
      PolledFacts(jobs, jobs', PolledType(jobs));
      if Known(w, Provision) > 0 && w.srv.deprovision.launched == 0 {
        var id :| AllButOne(w.srv, id) && Tracked(w, id);
        assert AllButOne(o.srv, id) && TracksBeforeAndAfter(w, o, id);
      }
    } else {
      DeleteLaunchFindsFew(cfg, w, input);
      StartDeprovisionRuns(cfg, w.srv, input.launch.n, if input.launch.LaunchLost? then 1 else 0);
      BoundsShrink(w.srv, o.srv, "");
    }
  }

  lemma UpdatePassTracks(cfg: Config, w: World, input: PassInput, o: Outcome)
    requires cfg.maxJobHistory >= 1 && cfg.provider == AAP && LaunchesTracked(cfg)
    requires HistoryInv(cfg, w) && ProvisionInv(w) && OverlapInv(w)
    requires Legal(cfg, w, MainPass(input)) && !w.cr.value.deleting
    requires UpdateEffect(cfg, w.cr.value.status.jobs, w.srv, input, o.cr.status.jobs, o.srv)
    ensures PassTracks(w, o)
  {
    var jobs, jobs' := w.cr.value.status.jobs, o.cr.status.jobs;
    if o.srv == w.srv && PolledOnly(jobs, jobs', Provision) {
      PolledFacts(jobs, jobs', Provision);
      if Known(w, Provision) > 0 {
        var id :| AllButOne(w.srv, id) && Tracked(w, id);
        assert AllButOne(o.srv, id) && TracksBeforeAndAfter(w, o, id);
      }
    } else {
      var job :| ProvisionAppended(cfg, jobs, w.srv, input, jobs', o.srv, job);
      assert FewRunning(w.srv);
      if o.srv != w.srv {
        StartProvisionRuns(cfg, w.srv, input.launch.n, if job.jobID == "" then 1 else 0);
        AppendedIsLatest(jobs, job, cfg.maxJobHistory);
        if job.jobID != "" {
          assert AllButOne(o.srv, job.jobID) && TracksBeforeAndAfter(w, o, job.jobID);
        }
      }
    }
  }

  lemma MainPassKeepsOverlap(cfg: Config, w: World, input: PassInput)
    requires cfg.maxJobHistory >= 1 && cfg.provider == AAP && OverlapAvoided(cfg)
    requires HistoryInv(cfg, w) && ProvisionInv(w) && OverlapInv(w) && Legal(cfg, w, MainPass(input))
    ensures OverlapInv(NextMainPass(cfg, w, input))
  {
    var cr := w.cr.value;
    var o := Reconcile(cfg, cr, w.srv, input);
    if cr.management.Unmanaged? {
      if Known(w, Provision) > 0 && w.srv.deprovision.launched == 0 {
        var id :| AllButOne(w.srv, id) && Tracked(w, id);
        assert AllButOne(o.srv, id) && TracksBeforeAndAfter(w, o, id);
      }
    } else if cr.deleting {
      HandleDeleteEffect(cfg, cr, w.srv, input);
      DeletePassTracks(cfg, w, input, o);
    } else {
      HandleUpdateEffect(cfg, cr, w.srv, input);
      UpdatePassTracks(cfg, w, input, o);
    }
    AfterPassKeepsOverlap(w, o);
  }

  /** A status write that is stored: the pending history becomes the stored one. */
  lemma StoredCommitKeepsOverlap(w: World)
    requires OverlapInv(w) && w.pending.Some? && w.cr.Some?
    ensures OverlapInv(NextMainCommit(w, false))
  {
    var w' := NextMainCommit(w, false);
    assert w'.srv == w.srv;
    if Known(w, Provision) > 0 && w.srv.deprovision.launched == 0 {
      var id :| AllButOne(w.srv, id) && Tracked(w, id);
      assert AllButOne(w'.srv, id) && Tracked(w', id);
    }
  }

  /** A status write that is lost: a launch only it knew of becomes a lost one. */
  lemma LostCommitKeepsOverlap(w: World, failed: bool)
    requires OverlapInv(w) && ProvisionInv(w) && w.pending.Some? && (failed || w.cr.None?)
    ensures OverlapInv(NextMainCommit(w, failed))
  {
    var w' := NextMainCommit(w, failed);
    assert RunningJobs(w'.srv) == RunningJobs(w.srv);
    if Known(w, Provision) > 0 && w.srv.deprovision.launched == 0 {
      var id :| AllButOne(w.srv, id) && Tracked(w, id);
      OneMoreRunning(RunningJobs(w.srv), id);
      if Known(w', Provision) > 0 {
        assert AllButOne(w'.srv, id) && Tracked(w', id);
      }
    }
  }

  lemma CommitKeepsOverlap(w: World, failed: bool)
    requires OverlapInv(w) && ProvisionInv(w) && w.pending.Some?
    ensures OverlapInv(NextMainCommit(w, failed))
  {
    if failed || w.cr.None? {
      LostCommitKeepsOverlap(w, failed);
    } else {
      StoredCommitKeepsOverlap(w);
    }
  }

  lemma ServerKeepsOverlap(cfg: Config, w: World, s: Step)
    requires OverlapInv(w) && Legal(cfg, w, s) && (s.JobProgress? || s.JobPurge?)
    ensures OverlapInv(Next(cfg, w, s))
  {
    var w' := Next(cfg, w, s);
    assert forall id :: RunningProvision(w'.srv, id) ==> RunningProvision(w.srv, id);
    BoundsShrink(w.srv, w'.srv, "");
    if Known(w, Provision) > 0 && w.srv.deprovision.launched == 0 {
      var id :| AllButOne(w.srv, id) && Tracked(w, id);
      BoundsShrink(w.srv, w'.srv, id);
      assert AllButOne(w'.srv, id) && Tracked(w', id);
    }
  }

  lemma OverlapKept(cfg: Config, w: World, s: Step)
    requires cfg.maxJobHistory >= 1 && cfg.provider == AAP && OverlapAvoided(cfg)
    requires HistoryInv(cfg, w) && ProvisionInv(w) && OverlapInv(w) && Legal(cfg, w, s)
    ensures OverlapInv(Next(cfg, w, s))
  {
    if s.MainPass? {
      MainPassKeepsOverlap(cfg, w, s.input);
    } else if s.MainCommit? {
      CommitKeepsOverlap(w, s.failed);
    } else if s.JobProgress? || s.JobPurge? {
      ServerKeepsOverlap(cfg, w, s);
    } else {
      OtherStepsKeepHistory(cfg, w, s);
      SameHistoryKeepsOverlap(w, Next(cfg, w, s));
    }
  }

  lemma SameHistoryKeepsOverlap(w: World, w': World)
    requires SameHistory(w, w') && OverlapInv(w)
    ensures OverlapInv(w')
  {
    if Known(w, Provision) > 0 && w.srv.deprovision.launched == 0 {
      var id :| AllButOne(w.srv, id) && Tracked(w, id);
      assert AllButOne(w'.srv, id) && Tracked(w', id);
    }
  }
}
