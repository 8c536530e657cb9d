// EDA job IDs over the whole life of a CR: an ID stored in any version names one job, exactly in the configurations
// in which launches are tracked.

module EdaIdTheorems {
  import opened Options
  import opened Jobs
  import opened JobIds
  import opened Providers
  import opened Passes
  import opened PassEffects
  import opened Lifecycle
  import opened LifecycleInvariants
  import opened FinalizerInvariants
  import opened LifecycleTheorems

  /** Two entries stored at any time under one real ID are the same job. */
  ghost predicate IDsIdentify(w: World) {
    forall c, d, j, k :: c in w.past && d in w.past && j in c.status.jobs && k in d.status.jobs ==>
      j.jobID != "" && j.jobID == k.jobID ==> Identity(j) == Identity(k)
  }

  ghost predicate IDsDistinct(cfg: Config) {
    forall w :: Reachable(cfg, w) ==> IDsIdentify(w)
  }

  // ---------- tracked launches: one job of each type ----------

  /** The identities of the one provision and the one deprovision job that are or are about to be stored. */
  datatype Names = Names(provision: Option<JobStatus>, deprovision: Option<JobStatus>) {
    function Of(t: JobType): Option<JobStatus> { if t == Provision then provision else deprovision }
  }

  predicate Named(jobs: seq<JobStatus>, n: Names) {
    forall j :: j in jobs && j.jobID != "" ==> n.Of(j.jobType) == Some(Identity(j))
  }

  predicate NoReal(jobs: seq<JobStatus>, t: JobType) {
    forall j :: j in jobs && j.jobType == t ==> j.jobID == ""
  }

  predicate HasID(jobs: seq<JobStatus>, id: string) {
    exists k :: 0 <= k < |jobs| && jobs[k].jobID == id
  }

  predicate NamesGood(n: Names) {
    && (n.provision.Some? ==> Counter(n.provision.value.jobID) == Some(1))
    && (n.provision.Some? && n.deprovision.Some? ==> n.provision.value.jobID != n.deprovision.value.jobID)
  }

  /** The provision job is still in the history as long as no deprovision job is. */
  predicate StillListed(w: World, n: Names) {
    n.provision.Some? ==>
      && (w.cr.Some? && PendingOf(w, Provision) == 0 && Known(w, Deprovision) <= PendingOf(w, Deprovision) ==>
            HasID(w.cr.value.status.jobs, n.provision.value.jobID))
      && (w.pending.Some? && Known(w, Deprovision) <= 0 ==>
            HasID(w.pending.value.status.jobs, n.provision.value.jobID))
  }

  predicate OnlyPending(w: World, t: JobType) {
    PendingOf(w, t) > 0 ==> forall c :: c in w.past ==> NoReal(c.status.jobs, t)
  }

  predicate NamesInv(w: World, n: Names) {
    && (forall c :: c in w.past ==> Named(c.status.jobs, n))
    && (w.pending.Some? ==> Named(w.pending.value.status.jobs, n))
    && NamesGood(n)
    && (n.provision.Some? ==> Known(w, Provision) > 0)
    && (n.deprovision.Some? ==> Known(w, Deprovision) > 0)
    && OnlyPending(w, Provision) && OnlyPending(w, Deprovision)
    && StillListed(w, n)
  }

  lemma NamesIdentify(w: World, n: Names)
    requires NamesInv(w, n)
    ensures IDsIdentify(w)
  {
    forall c, d, j, k | c in w.past && d in w.past && j in c.status.jobs && k in d.status.jobs
                        && j.jobID != "" && j.jobID == k.jobID
      ensures Identity(j) == Identity(k)
    {
      assert n.Of(j.jobType) == Some(Identity(j)) && n.Of(k.jobType) == Some(Identity(k));
    }
  }

  // ---------- histories ----------

  lemma UnnamedHaveNoCounter(jobs: seq<JobStatus>, n: Names)
    requires Named(jobs, n) && n.provision.None? && n.deprovision.None?
    ensures MaxCounter(jobs) == 0
  {
    MaxCounterBounds(jobs);
  }

  lemma FirstID(jobs: seq<JobStatus>, n: Names)
    requires Named(jobs, n) && n.provision.None? && n.deprovision.None?
    ensures Counter(GenerateID(jobs)) == Some(1)
  {
    UnnamedHaveNoCounter(jobs, n);
    GeneratedCounter(jobs);
  }

  /** With at most the provision job's counter in the history, the next generated ID differs from that job's. */
  lemma NextIDIsNew(jobs: seq<JobStatus>, n: Names)
    requires Named(jobs, n) && NamesGood(n) && n.provision.Some? && n.deprovision.None?
    requires HasID(jobs, n.provision.value.jobID)
    ensures GenerateID(jobs) != n.provision.value.jobID
  {
    MaxCounterBounds(jobs);
    forall j | j in jobs && Counter(j.jobID).Some? ensures Counter(j.jobID) == Some(1) {
      assert n.Of(j.jobType) == Some(Identity(j));
    }
    GeneratedCounter(jobs);
    var k :| 0 <= k < |jobs| && jobs[k].jobID == n.provision.value.jobID;
    assert jobs[k] in jobs;
  }

  lemma PolledStaysNamed(jobs: seq<JobStatus>, jobs': seq<JobStatus>, t: JobType, n: Names)
    requires PolledOnly(jobs, jobs', t) && Named(jobs, n)
    ensures Named(jobs', n)
  {
    PolledFacts(jobs, jobs', t);
    forall j | j in jobs' && j.jobID != "" ensures n.Of(j.jobType) == Some(Identity(j)) {
      var o :| o in jobs && Identity(o) == Identity(j);
      assert o.jobID == j.jobID && o.jobType == j.jobType;
    }
  }

  lemma PolledStaysListed(jobs: seq<JobStatus>, jobs': seq<JobStatus>, t: JobType, id: string)
    requires PolledOnly(jobs, jobs', t) && HasID(jobs, id)
    ensures HasID(jobs', id)
  {
    var k :| 0 <= k < |jobs| && jobs[k].jobID == id;
    assert |jobs'| == |jobs| && jobs'[k].jobID == id;
  }

  lemma AppendStaysNamed(jobs: seq<JobStatus>, job: JobStatus, maxHistory: nat, n: Names)
    requires maxHistory >= 1 && Named(jobs, n)
    requires job.jobID != "" ==> n.Of(job.jobType) == Some(Identity(job))
    ensures Named(AppendJob(jobs, job, maxHistory), n)
    ensures HasID(AppendJob(jobs, job, maxHistory), job.jobID)
  {
    AppendedMembers(jobs, job, maxHistory);
    var r := AppendJob(jobs, job, maxHistory);
    var k :| 0 <= k < |r| && r[k] == job;
  }

  // ---------- a pass ----------

  /** What a pass must say about its history and tallies for the invariant to hold afterwards. */
  ghost predicate PassNames(w: World, o: Outcome, n: Names, n': Names)
    requires w.cr.Some?
  {
    && Named(o.cr.status.jobs, n') && NamesGood(n')
    && (forall t :: n'.Of(t) == n.Of(t) || n.Of(t).None?)
    && (forall t :: n'.Of(t).Some? ==> KnownTally(o.srv.Of(t)) > 0)
    && (forall t :: Growth(w.srv.Of(t), o.srv.Of(t)) > 0 ==> n.Of(t).None?)
    && (n'.provision.Some? && KnownTally(o.srv.deprovision) <= 0 ==>
          HasID(o.cr.status.jobs, n'.provision.value.jobID))
    && (n'.provision.Some? && Growth(w.srv.provision, o.srv.provision) == 0 ==> n' == n.(deprovision := n'.deprovision))
    && (KnownTally(o.srv.deprovision) <= Growth(w.srv.deprovision, o.srv.deprovision) ==>
          KnownTally(w.srv.deprovision) <= 0)
  }

  lemma AfterPassNames(w: World, o: Outcome, n: Names, n': Names)
    requires w.cr.Some? && w.pending.None? && w.cr.value in w.past && NamesInv(w, n) && PassNames(w, o, n, n')
    ensures NamesInv(AfterPass(w, o), n')
  {
    var w' := AfterPass(w, o);
    forall c | c in w'.past
      ensures Named(c.status.jobs, n')
      ensures Growth(w.srv.provision, o.srv.provision) > 0 ==> NoReal(c.status.jobs, Provision)
      ensures Growth(w.srv.deprovision, o.srv.deprovision) > 0 ==> NoReal(c.status.jobs, Deprovision)
    {
      assert c in w.past || c.status == w.cr.value.status;
      StoredStaysNamed(c.status.jobs, n, n');
    }
  }

  lemma StoredStaysNamed(jobs: seq<JobStatus>, n: Names, n': Names)
    requires Named(jobs, n) && forall t :: n'.Of(t) == n.Of(t) || n.Of(t).None?
    ensures Named(jobs, n')
    ensures forall t :: n.Of(t).None? ==> NoReal(jobs, t)
  {
  }

  lemma PolledPassNames(w: World, o: Outcome, n: Names, t: JobType)
    requires w.cr.Some? && w.pending.None? && w.cr.value in w.past && NamesInv(w, n)
    requires o.srv == w.srv && PolledOnly(w.cr.value.status.jobs, o.cr.status.jobs, t)
    ensures PassNames(w, o, n, n)
  {
    PolledStaysNamed(w.cr.value.status.jobs, o.cr.status.jobs, t, n);
    if n.provision.Some? && Known(w, Deprovision) <= 0 {
      PolledStaysListed(w.cr.value.status.jobs, o.cr.status.jobs, t, n.provision.value.jobID);
    }
  }

  /** A failed provisioning trigger brings no name, whether or not its webhook got through. */
  lemma FailedPassNames(cfg: Config, w: World, o: Outcome, n: Names, job: JobStatus)
    requires cfg.maxJobHistory >= 1 && w.cr.Some? && w.pending.None? && w.cr.value in w.past && NamesInv(w, n)
    requires n == Names(None, None) && job.jobID == ""
    requires o.cr.status.jobs == AppendJob(w.cr.value.status.jobs, job, cfg.maxJobHistory)
    requires KnownTally(o.srv.provision) == KnownTally(w.srv.provision) && o.srv.deprovision == w.srv.deprovision
    ensures PassNames(w, o, n, n)
  {
    AppendStaysNamed(w.cr.value.status.jobs, job, cfg.maxJobHistory, n);
  }

  lemma LaunchedPassNames(cfg: Config, w: World, o: Outcome, n: Names, job: JobStatus) returns (n': Names)
    requires cfg.maxJobHistory >= 1 && w.cr.Some? && w.pending.None? && w.cr.value in w.past && NamesInv(w, n)
    requires n == Names(None, None) && job.jobType == Provision && job.jobID == GenerateID(w.cr.value.status.jobs)
    requires o.cr.status.jobs == AppendJob(w.cr.value.status.jobs, job, cfg.maxJobHistory)
    requires KnownTally(o.srv.provision) == 1 && o.srv.deprovision == w.srv.deprovision
    requires KnownTally(w.srv.provision) == 0 && KnownTally(w.srv.deprovision) <= 0
    ensures PassNames(w, o, n, n')
  {
    var jobs := w.cr.value.status.jobs;
    n' := Names(Some(Identity(job)), None);
    FirstID(jobs, n);
    StoredStaysNamed(jobs, n, n');
    AppendStaysNamed(jobs, job, cfg.maxJobHistory, n');
  }

  lemma UpdatePassNames(cfg: Config, w: World, input: PassInput, o: Outcome, n: Names) returns (n': Names)
    requires cfg.maxJobHistory >= 1 && cfg.provider == EDA && LaunchesTracked(cfg)
    requires HistoryInv(cfg, w) && TallyInv(cfg, w) && ProvisionInv(w) && NamesInv(w, n)
    requires Legal(cfg, w, MainPass(input)) && !w.cr.value.deleting && w.cr.value in w.past
    requires UpdateEffect(cfg, w.cr.value.status.jobs, w.srv, input, o.cr.status.jobs, o.srv)
    ensures PassNames(w, o, n, n')
  {
    var jobs, jobs' := w.cr.value.status.jobs, o.cr.status.jobs;
    if o.srv == w.srv && PolledOnly(jobs, jobs', Provision) {
      PolledPassNames(w, o, n, Provision);
      n' := n;
    } else {
      var job :| ProvisionAppended(cfg, jobs, w.srv, input, jobs', o.srv, job);
      NothingNamed(w, n);
      if job.jobID == "" {
        FailedPassNames(cfg, w, o, n, job);
        n' := n;
      } else {
        n' := LaunchedPassNames(cfg, w, o, n, job);
      }
    }
  }

  /** When provisioning is to be triggered before a deletion, no launch is known. */
  lemma NothingNamed(w: World, n: Names)
    requires w.cr.Some? && w.pending.None? && ProvisionInv(w) && NamesInv(w, n)
    requires !w.cr.value.deleting && NeedsTrigger(w.cr.value.status.jobs, Provision)
    requires w.srv.deprovision.launched == 0
    ensures n == Names(None, None) && Known(w, Provision) == 0 && Known(w, Deprovision) <= 0
  {
  }

  /** A deprovision webhook whose reply is lost leaves history and known launches alone. */
  lemma LostPassNames(w: World, o: Outcome, n: Names)
    requires w.cr.Some? && w.pending.None? && w.cr.value in w.past && NamesInv(w, n)
    requires o.cr.status.jobs == w.cr.value.status.jobs && o.srv.provision == w.srv.provision
    requires KnownTally(o.srv.deprovision) == KnownTally(w.srv.deprovision)
    ensures PassNames(w, o, n, n)
  {
  }

  lemma DeprovisionedPassNames(cfg: Config, w: World, o: Outcome, n: Names, mid: seq<JobStatus>, job: JobStatus)
    returns (n': Names)
    requires cfg.maxJobHistory >= 1 && w.cr.Some? && w.pending.None? && w.cr.value in w.past && NamesInv(w, n)
    requires n.deprovision.None? && job.jobType == Deprovision && job.jobID == GenerateID(w.cr.value.status.jobs)
    requires PolledOnly(w.cr.value.status.jobs, mid, Provision)
    requires o.cr.status.jobs == AppendJob(mid, job, cfg.maxJobHistory)
    requires KnownTally(o.srv.deprovision) == 1 && KnownTally(w.srv.deprovision) == 0
    requires o.srv.provision == w.srv.provision
    ensures PassNames(w, o, n, n')
  {
    var jobs := w.cr.value.status.jobs;
    n' := n.(deprovision := Some(Identity(job)));
    if n.provision.Some? { NextIDIsNew(jobs, n); }
    PolledStaysNamed(jobs, mid, Provision, n);
    StoredStaysNamed(mid, n, n');
    AppendStaysNamed(mid, job, cfg.maxJobHistory, n');
  }

  lemma DeletePassNames(cfg: Config, w: World, input: PassInput, o: Outcome, n: Names) returns (n': Names)
    requires cfg.maxJobHistory >= 1 && cfg.provider == EDA
    requires HistoryInv(cfg, w) && TallyInv(cfg, w) && NamesInv(w, n)
    requires Legal(cfg, w, MainPass(input)) && w.cr.value in w.past
    requires DeleteEffect(cfg, w.cr.value, w.srv, input, o.cr.status.jobs, o.srv)
    ensures PassNames(w, o, n, n')
  {
    var cr, jobs, jobs' := w.cr.value, w.cr.value.status.jobs, o.cr.status.jobs;
    n' := n;
    if o.srv == w.srv && PolledOnly(jobs, jobs', PolledType(jobs)) {
      PolledPassNames(w, o, n, PolledType(jobs));
    } else if input.launch.LaunchOk? {
      var mid, job :| DeprovisionAppended(cfg, cr, w.srv, input, jobs', o.srv, mid, job);
      NoRealDeprovision(cfg, w.srv, jobs);
      n' := DeprovisionedPassNames(cfg, w, o, n, mid, job);
    } else {
      LostPassNames(w, o, n);
    }
  }

  lemma MainPassKeepsNames(cfg: Config, w: World, input: PassInput, n: Names) returns (n': Names)
    requires cfg.maxJobHistory >= 1 && cfg.provider == EDA && LaunchesTracked(cfg)
    requires HistoryInv(cfg, w) && TallyInv(cfg, w) && ProvisionInv(w) && NamesInv(w, n)
    requires Legal(cfg, w, MainPass(input)) && w.cr.value in w.past
    ensures NamesInv(NextMainPass(cfg, w, input), n')
  {
    var cr := w.cr.value;
    var o := Reconcile(cfg, cr, w.srv, input);
    if cr.management.Unmanaged? {
      n' := n;
    } else if cr.deleting {
      HandleDeleteEffect(cfg, cr, w.srv, input);
      n' := DeletePassNames(cfg, w, input, o, n);
    } else {
      HandleUpdateEffect(cfg, cr, w.srv, input);
      n' := UpdatePassNames(cfg, w, input, o, n);
    }
    AfterPassNames(w, o, n, n');
  }

  // ---------- the other steps ----------

  /** A lost status write takes the name of a launch only it knew of. */
  lemma CommitKeepsNames(w: World, failed: bool, n: Names) returns (n': Names)
    requires VersionInv(w) && ProvisionInv(w) && w.pending.Some? && NamesInv(w, n)
    requires Known(w, Deprovision) <= 1
    ensures NamesInv(NextMainCommit(w, failed), n')
  {
    var w' := NextMainCommit(w, failed);
    n' := n;
    if failed || w.cr.None? {
      n' := Names(if PendingOf(w, Provision) > 0 then None else n.provision,
                  if PendingOf(w, Deprovision) > 0 then None else n.deprovision);
      forall c | c in w'.past ensures Named(c.status.jobs, n') {
        assert Named(c.status.jobs, n);
      }
    } else {
      assert forall c :: c in w'.past ==> c in w.past || c.status == w.pending.value.status;
    }
  }

  lemma OtherKeepsNames(cfg: Config, w: World, s: Step, n: Names)
    requires VersionInv(w) && NamesInv(w, n) && Legal(cfg, w, s) && !s.MainPass? && !s.MainCommit?
    ensures NamesInv(Next(cfg, w, s), n)
  {
    if !TouchesHistory(s) {
      OtherStepsKeepHistory(cfg, w, s);
      StoredStatuses(cfg, w, s);
      SameHistoryKeepsNames(w, Next(cfg, w, s), n);
    } else {
      ServerKeepsNames(w, Next(cfg, w, s), n);
    }
  }

  lemma ServerKeepsNames(w: World, w': World, n: Names)
    requires NamesInv(w, n) && w' == w.(srv := w'.srv)
    requires w'.srv.provision == w.srv.provision && w'.srv.deprovision == w.srv.deprovision
    ensures NamesInv(w', n)
  {
  }

  /** Steps other than status writes store only statuses that were stored before. */
  lemma StoredStatuses(cfg: Config, w: World, s: Step)
    requires VersionInv(w) && Legal(cfg, w, s) && !s.MainCommit?
    ensures forall c :: c in Next(cfg, w, s).past ==> exists d :: d in w.past && d.status == c.status
  {
    if w.cr.Some? {
      PastAfter(cfg, w, s);
      assert w.cr.value in w.past && Target(cfg, w, s).status == w.cr.value.status;
    } else {
      StepWithoutCr(cfg, w, s);
    }
  }

  lemma SameHistoryKeepsNames(w: World, w': World, n: Names)
    requires SameHistory(w, w') && NamesInv(w, n)
    requires forall c :: c in w'.past ==> exists d :: d in w.past && d.status == c.status
    ensures NamesInv(w', n)
  {
  }

  lemma NamesKept(cfg: Config, w: World, s: Step, n: Names) returns (n': Names)
    requires cfg.maxJobHistory >= 1 && cfg.provider == EDA && LaunchesTracked(cfg)
    requires Inv(cfg, w) && NamesInv(w, n) && Legal(cfg, w, s)
    ensures NamesInv(Next(cfg, w, s), n')
  {
    n' := n;
    if s.MainPass? {
      n' := MainPassKeepsNames(cfg, w, s.input, n);
    } else if s.MainCommit? {
      n' := CommitKeepsNames(w, s.failed, n);
    } else {
      OtherKeepsNames(cfg, w, s, n);
    }
  }

  lemma {:induction false} RunKeepsNames(cfg: Config, cr: Cr, steps: seq<Step>) returns (n: Names)
    requires cfg.maxJobHistory >= 1 && cfg.provider == EDA && LaunchesTracked(cfg)
    requires Starts(cfg, cr) && LegalRun(cfg, Initial(cr), steps)
    ensures NamesInv(Run(cfg, Initial(cr), steps), n)
  {
    if steps == [] {
      n := Names(None, None);
    } else {
      var front := steps[..|steps| - 1];
      n := RunKeepsNames(cfg, cr, front);
      RunKeepsInv(cfg, cr, front);
      n := NamesKept(cfg, Run(cfg, Initial(cr), front), steps[|steps| - 1], n);
    }
  }

  lemma TrackedIDsIdentify(cfg: Config, w: World)
    requires cfg.maxJobHistory >= 1 && cfg.provider == EDA && LaunchesTracked(cfg) && Reachable(cfg, w)
    ensures IDsIdentify(w)
  {
    var cr, steps :| ReachableBy(cfg, w, cr, steps);
    var n := RunKeepsNames(cfg, cr, steps);
    NamesIdentify(w, n);
  }

  // ---------- untracked launches: the first ID comes back ----------

  /** The last k entries, and the latest of all, are failed triggers; the next time is later than all. */
  predicate Failing(jobs: seq<JobStatus>, k: nat, now: int, maxHistory: nat) {
    && |jobs| <= maxHistory
    && (forall i :: 0 <= i < |jobs| && i >= |jobs| - k ==> jobs[i].jobID == "")
    && (forall i :: 0 <= i < |jobs| ==> jobs[i].timestamp < now)
    && NeedsTrigger(jobs, Provision)
  }

  lemma FailureAppended(jobs: seq<JobStatus>, k: nat, now: int, maxHistory: nat, failure: JobStatus)
    requires maxHistory >= 1 && Failing(jobs, k, now, maxHistory)
    requires failure.jobID == "" && failure.jobType == Provision && failure.timestamp == now
    ensures Failing(AppendJob(jobs, failure, maxHistory), k + 1, now + 1, maxHistory)
  {
    AppendShape(jobs, failure, maxHistory);
    AppendedIsLatestExactlyWhen(jobs, failure, maxHistory);
    var d, r := Dropped(jobs, maxHistory), AppendJob(jobs, failure, maxHistory);
    assert forall i :: 0 <= i < |r| - 1 ==> r[i] == jobs[i + d];
  }

  /** A world in which launch first went through at time 0 and is stored in some version. */
  ghost predicate Launched(cfg: Config, w: World, first: JobStatus) {
    && Reachable(cfg, w) && Provisioning(w) && w.srv.issued == {}
    && first.timestamp == 0 && first.jobID == GenerateID([])
    && exists c :: c in w.past && first in c.status.jobs
  }

  lemma FailOnce(cfg: Config, w: World, k: nat, first: JobStatus) returns (w': World)
    requires cfg.maxJobHistory >= 1 && cfg.provider == EDA && Launched(cfg, w, first)
    requires Failing(w.cr.value.status.jobs, k, k + 1, cfg.maxJobHistory)
    ensures Launched(cfg, w', first) && Failing(w'.cr.value.status.jobs, k + 1, k + 2, cfg.maxJobHistory)
  {
    var jobs := w.cr.value.status.jobs;
    w' := ProvisioningPass(cfg, w, k + 1, LaunchRejected);
    FailureAppended(jobs, k, k + 1, cfg.maxJobHistory, TriggerEntry(cfg, jobs, Input(k + 1, LaunchRejected)));
    PastKept(w, w', first);
  }

  lemma PastKept(w: World, w': World, first: JobStatus)
    requires w.past <= w'.past && exists c :: c in w.past && first in c.status.jobs
    ensures exists c :: c in w'.past && first in c.status.jobs
  {
    var c :| c in w.past && first in c.status.jobs;
    assert c in w'.past;
  }

  /** Failed triggers, one a tick, until nothing else is left in the history. */
  lemma {:induction false} FailAgain(cfg: Config, w: World, k: nat, n: nat, first: JobStatus) returns (w': World)
    requires cfg.maxJobHistory >= 1 && cfg.provider == EDA && Launched(cfg, w, first) && k <= n
    requires Failing(w.cr.value.status.jobs, k, k + 1, cfg.maxJobHistory)
    ensures Launched(cfg, w', first) && Failing(w'.cr.value.status.jobs, n, n + 1, cfg.maxJobHistory)
    decreases n - k
  {
    if k == n {
      w' := w;
    } else {
      w' := FailOnce(cfg, w, k, first);
      w' := FailAgain(cfg, w', k + 1, n, first);
    }
  }

  lemma FirstFailure(cfg: Config) returns (w: World, failure: JobStatus)
    requires cfg.provider == EDA && cfg.maxJobHistory >= 2 && !cfg.strictClock
    ensures Reachable(cfg, w) && Provisioning(w) && w.srv.issued == {} && w.cr.value.status.jobs == [failure]
    ensures failure.jobID == "" && failure.jobType == Provision && failure.timestamp == 0
  {
    var cr := FreshCr({Base, Feedback}, Managed);
    InitialReachable(cfg, cr);
    w := ProvisioningPass(cfg, Initial(cr), 0, LaunchRejected);
    failure := TriggerEntry(cfg, [], Input(0, LaunchRejected));
  }

  /** A failure and a launch in the same tick: the launch is stored, and the failure is still the latest entry. */
  lemma FirstLaunch(cfg: Config) returns (w: World, first: JobStatus)
    requires cfg.provider == EDA && cfg.maxJobHistory >= 2 && !cfg.strictClock
    ensures Launched(cfg, w, first) && Failing(w.cr.value.status.jobs, 0, 1, cfg.maxJobHistory)
  {
    var w1, failure := FirstFailure(cfg);
    TieFindsFailure(failure, failure);
    w := ProvisioningPass(cfg, w1, 0, LaunchOk(1));
    first := TriggerEntry(cfg, [failure], Input(0, LaunchOk(1)));
    assert w.cr.value.status.jobs == [failure, first];
    TieFindsFailure(failure, first);
    NoCounterNoID([failure]);
    NewestStored(cfg, w, first);
  }

  lemma NewestStored(cfg: Config, w: World, job: JobStatus)
    requires cfg.maxJobHistory >= 1 && Reachable(cfg, w) && w.cr.Some? && job in w.cr.value.status.jobs
    ensures exists c :: c in w.past && job in c.status.jobs
  {
    ReachableInv(cfg, w);
    assert w.cr.value in w.past;
  }

  /** Failed triggers carry no counter. */
  lemma NoCounterNoID(jobs: seq<JobStatus>)
    requires forall j :: j in jobs ==> j.jobID == ""
    ensures GenerateID(jobs) == GenerateID([])
  {
    UnnamedHaveNoCounter(jobs, Names(None, None));
    UnnamedHaveNoCounter([], Names(None, None));
  }

  lemma SecondLaunch(cfg: Config, w: World, first: JobStatus) returns (w': World, second: JobStatus)
    requires cfg.maxJobHistory >= 2 && cfg.provider == EDA && Launched(cfg, w, first)
    requires var m := cfg.maxJobHistory; Failing(w.cr.value.status.jobs, m, m + 1, m)
    ensures Launched(cfg, w', first)
    ensures second.jobID == GenerateID([]) && second.timestamp > 0
    ensures exists c :: c in w'.past && second in c.status.jobs
  {
    var m, jobs := cfg.maxJobHistory, w.cr.value.status.jobs;
    NoCounterNoID(jobs);
    w' := ProvisioningPass(cfg, w, m + 1, LaunchOk(2));
    second := TriggerEntry(cfg, jobs, Input(m + 1, LaunchOk(2)));
    PastKept(w, w', first);
    AppendedMembers(jobs, second, m);
    NewestStored(cfg, w', second);
  }

  /** Once failed triggers have filled the history, the next launch gets the first launch's ID. */
  lemma UntrackedIDReturns(cfg: Config)
    requires cfg.provider == EDA && cfg.maxJobHistory >= 2 && !cfg.strictClock
    ensures !IDsDistinct(cfg)
  {
    var w, first := FirstLaunch(cfg);
    var x := FailAgain(cfg, w, 0, cfg.maxJobHistory, first);
    var y, second := SecondLaunch(cfg, x, first);
    SecondRefutes(cfg, y, first, second);
  }

  lemma SecondRefutes(cfg: Config, w: World, first: JobStatus, second: JobStatus)
    requires Reachable(cfg, w) && first.jobID == second.jobID == GenerateID([]) && first.timestamp != second.timestamp
    requires exists c :: c in w.past && first in c.status.jobs
    requires exists c :: c in w.past && second in c.status.jobs
    ensures !IDsDistinct(cfg)
  {
    ProvidersIDsDisjoint([], 0);
    assert Identity(first) != Identity(second);
    assert !IDsIdentify(w);
  }

  /** Exactly when every EDA ID ever stored names one job. */
  lemma IDsDistinctExactlyWhen(cfg: Config)
    requires cfg.maxJobHistory >= 1 && cfg.provider == EDA
    ensures IDsDistinct(cfg) <==> LaunchesTracked(cfg)
  {
    if LaunchesTracked(cfg) {
      forall w | Reachable(cfg, w) ensures IDsIdentify(w) {
        TrackedIDsIdentify(cfg, w);
      }
    } else {
      UntrackedIDReturns(cfg);
    }
  }
}
