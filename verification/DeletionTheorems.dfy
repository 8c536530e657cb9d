// Whether a deletion can still be completed. With AAP, a deprovision job that failed, was canceled or is no longer
// known to the job endpoint holds the CR for good; from every other world a few steps end it.

module DeletionTheorems {
  import opened Options
  import opened Jobs
  import opened Decimal
  import opened Providers
  import opened Passes
  import opened PassEffects
  import opened Lifecycle
  import opened LifecycleInvariants
  import opened FinalizerInvariants
  import opened LifecycleTheorems

  // ---------- what blocks a deletion ----------

  predicate Successful(cfg: Config, srv: Server, id: string) {
    Seen(cfg, srv, id) && srv.jobs[id].status == "successful"
  }

  /** The job has succeeded or may still succeed, and the job endpoint knows it. */
  predicate MaySucceed(cfg: Config, srv: Server, id: string) {
    Seen(cfg, srv, id) && (Successful(cfg, srv, id) || !MapAAPStatusToJobState(srv.jobs[id].status).IsTerminal())
  }

  /** The recorded deprovision job can no longer be seen to succeed. */
  predicate Blocked(cfg: Config, srv: Server, jobs: seq<JobStatus>) {
    var id := LatestID(jobs, Deprovision);
    id.Some? && !MaySucceed(cfg, srv, id.value)
  }

  /** The base finalizer is held for good. */
  predicate Stuck(cfg: Config, w: World) {
    && w.cr.Some? && Base in w.cr.value.finalizers
    && (Deprovision in cfg.unseen || Blocked(cfg, w.srv, w.cr.value.status.jobs))
  }

  predicate NotManual(s: Step) { s.UserAnnotate? ==> !s.management.Manual? }

  /** A recorded job that cannot succeed stays that way: it is not restarted, and its number is not given out again. */
  lemma FailureIsFinal(cfg: Config, w: World, s: Step, id: string)
    requires ServerGood(w.srv) && Legal(cfg, w, s) && cfg.provider == AAP
    requires id in w.srv.issued && !MaySucceed(cfg, w.srv, id)
    requires s.MainPass? ==> NextMainPass(cfg, w, s.input).srv == w.srv
    ensures id in Next(cfg, w, s).srv.issued && !MaySucceed(cfg, Next(cfg, w, s).srv, id)
  {
    if !TouchesHistory(s) {
      OtherStepsKeepHistory(cfg, w, s);
    }
  }

  /** Exactly when a pass releases a managed CR whose recorded deprovision job the endpoint does not know: only when
      waiting is impossible because the poll interval is not positive. */
  lemma PurgedJobReleasesExactlyWhen(cfg: Config, cr: Cr, srv: Server, input: PassInput)
    requires cfg.provider == AAP && !cr.management.Manual? && Base in cr.finalizers
    requires !NeedsTrigger(cr.status.jobs, Deprovision)
    requires !Seen(cfg, srv, Latest(cr.status.jobs, Deprovision).value.jobID)
    ensures Base !in HandleDelete(cfg, cr, srv, input).cr.finalizers <==> cfg.pollInterval <= 0 && !input.updateFails
  {
  }

  /** No step takes the base finalizer from a stuck CR that is not in manual mode. */
  lemma StuckKeepsBase(cfg: Config, w: World, s: Step)
    requires cfg.maxJobHistory >= 1 && cfg.provider == AAP && cfg.pollInterval > 0
    requires Reachable(cfg, w) && Legal(cfg, w, s) && Stuck(cfg, w) && !w.cr.value.management.Manual?
    ensures Base in Target(cfg, w, s).finalizers
  {
    ReachableInv(cfg, w);
    RecordedEntry(cfg, w.srv, w.cr.value.status.jobs);
    if Base !in Target(cfg, w, s).finalizers {
      OnlyDeletePassReleasesBase(cfg, w, s);
      AAPRelease(cfg, w.cr.value, w.srv, s.input);
    }
  }

  lemma RecordedEntry(cfg: Config, srv: Server, jobs: seq<JobStatus>)
    requires DepEntriesGood(cfg, srv, jobs)
    ensures Latest(jobs, Deprovision).Some? ==> DepEntryGood(cfg, srv, Latest(jobs, Deprovision).value)
  {
    if Latest(jobs, Deprovision).Some? {
      var at := LatestAt(jobs, Deprovision).value;
      assert jobs[at] in jobs;
    }
  }

  /** The recorded deprovision job stays the recorded one. */
  lemma StaysRecorded(cfg: Config, w: World, s: Step)
    requires HistoryInv(cfg, w) && DeprovisionInv(w) && Legal(cfg, w, s) && w.cr.Some?
    requires HasType(w.cr.value.status.jobs, Deprovision)
    ensures var w' := Next(cfg, w, s);
            && (w'.cr.Some? ==>
                  LatestID(w'.cr.value.status.jobs, Deprovision) == LatestID(w.cr.value.status.jobs, Deprovision))
            && (s.MainPass? ==> w'.srv == w.srv)
  {
    if s.MainPass? {
      PassKeepsDeprovision(cfg, w.cr.value, w.srv, s.input);
    } else if s.MainCommit? {
      CommitKeepsRecorded(w, s.failed);
    } else if !TouchesHistory(s) {
      OtherStepsKeepHistory(cfg, w, s);
    }
  }

  lemma CommitKeepsRecorded(w: World, failed: bool)
    requires DeprovisionInv(w) && w.pending.Some? && w.cr.Some? && HasType(w.cr.value.status.jobs, Deprovision)
    ensures var w' := NextMainCommit(w, failed);
            w'.cr.Some? ==>
              LatestID(w'.cr.value.status.jobs, Deprovision) == LatestID(w.cr.value.status.jobs, Deprovision)
  {
  }

  lemma RecordedIsIssued(cfg: Config, w: World, id: string)
    requires cfg.maxJobHistory >= 1 && cfg.provider == AAP && Reachable(cfg, w) && w.cr.Some?
    requires LatestID(w.cr.value.status.jobs, Deprovision) == Some(id)
    ensures id in w.srv.issued && id != "" && HasType(w.cr.value.status.jobs, Deprovision)
  {
    ReachableInv(cfg, w);
    var jobs := w.cr.value.status.jobs;
    var at := LatestAt(jobs, Deprovision).value;
    assert jobs[at] in jobs && jobs[at].jobType == Deprovision;
  }

  lemma StaysBlocked(cfg: Config, w: World, s: Step)
    requires cfg.maxJobHistory >= 1 && cfg.provider == AAP && Reachable(cfg, w) && Legal(cfg, w, s) && w.cr.Some?
    requires Blocked(cfg, w.srv, w.cr.value.status.jobs)
    ensures var w' := Next(cfg, w, s); w'.cr.Some? ==> Blocked(cfg, w'.srv, w'.cr.value.status.jobs)
  {
    var id := LatestID(w.cr.value.status.jobs, Deprovision).value;
    RecordedIsIssued(cfg, w, id);
    ReachableInv(cfg, w);
    StaysRecorded(cfg, w, s);
    FailureIsFinal(cfg, w, s, id);
  }

  lemma StaysStuck(cfg: Config, w: World, s: Step)
    requires cfg.maxJobHistory >= 1 && cfg.provider == AAP && cfg.pollInterval > 0
    requires Reachable(cfg, w) && Legal(cfg, w, s) && NotManual(s)
    requires Stuck(cfg, w) && !w.cr.value.management.Manual?
    ensures Stuck(cfg, Next(cfg, w, s)) && !Next(cfg, w, s).cr.value.management.Manual?
  {
    StuckKeepsBase(cfg, w, s);
    StepWrites(cfg, w, s);
    TargetNotManual(cfg, w, s);
    if Deprovision !in cfg.unseen {
      StaysBlocked(cfg, w, s);
    }
  }

  lemma TargetNotManual(cfg: Config, w: World, s: Step)
    requires Legal(cfg, w, s) && w.cr.Some? && NotManual(s) && !w.cr.value.management.Manual?
    ensures !Target(cfg, w, s).management.Manual?
  {
  }

  // ---------- paths ----------

  /** Nothing fails and nobody interferes: quiet passes, stored writes, a server and a playbook that do their part. */
  predicate Calm(s: Step) {
    match s
    case MainPass(input) =>
      && input.tenant.TenantReady? && !input.vmListFails && !input.restartFails && !input.updateFails
      && !input.getFails && input.launch.LaunchOk?
    case MainCommit(failed) => !failed
    case JobProgress(_, status) => status == "successful"
    case FeedbackRead(_) => true
    case FeedbackSave => true
    case FeedbackRemoveFinalizer => true
    case FeedbackAbort => true
    case PlaybookRemoveFinalizer => true
    case OtherRemoveFinalizer => true
    case _ => false
  }

  predicate Allowed(s: Step, calm: bool) { NotManual(s) && (calm ==> Calm(s)) }

  /** At most n steps lead from w to w', none of them to manual mode; calm ones only, if so asked. */
  ghost predicate Path(cfg: Config, w: World, w': World, n: nat, calm: bool)
    decreases n, 1, cfg
  {
    w == w' || (n > 0 && exists s :: Begins(cfg, w, w', n, calm, s))
  }

  ghost predicate Begins(cfg: Config, w: World, w': World, n: nat, calm: bool, s: Step)
    requires n > 0
    decreases n, 0, cfg
  {
    Legal(cfg, w, s) && Allowed(s, calm) && Path(cfg, Next(cfg, w, s), w', n - 1, calm)
  }

  lemma OneStep(cfg: Config, w: World, s: Step, calm: bool)
    requires Legal(cfg, w, s) && Allowed(s, calm)
    ensures Path(cfg, w, Next(cfg, w, s), 1, calm)
  {
    assert Begins(cfg, w, Next(cfg, w, s), 1, calm, s);
  }

  lemma {:induction false} Longer(cfg: Config, w: World, w': World, n: nat, m: nat, calm: bool)
    requires Path(cfg, w, w', n, calm) && n <= m
    ensures Path(cfg, w, w', m, calm)
    decreases n
  {
    if w != w' {
      var s :| Begins(cfg, w, w', n, calm, s);
      Longer(cfg, Next(cfg, w, s), w', n - 1, m - 1, calm);
      assert Begins(cfg, w, w', m, calm, s);
    }
  }

  lemma {:induction false} CalmOrNot(cfg: Config, w: World, w': World, n: nat)
    requires Path(cfg, w, w', n, true)
    ensures Path(cfg, w, w', n, false)
    decreases n
  {
    if w != w' {
      var s :| Begins(cfg, w, w', n, true, s);
      CalmOrNot(cfg, Next(cfg, w, s), w', n - 1);
      assert Begins(cfg, w, w', n, false, s);
    }
  }

  lemma {:induction false} Join(cfg: Config, w: World, x: World, y: World, n: nat, m: nat, calm: bool)
    requires Path(cfg, w, x, n, calm) && Path(cfg, x, y, m, calm)
    ensures Path(cfg, w, y, n + m, calm)
    decreases n
  {
    if w == x {
      Longer(cfg, x, y, m, n + m, calm);
    } else {
      var s :| Begins(cfg, w, x, n, calm, s);
      Join(cfg, Next(cfg, w, s), x, y, n - 1, m, calm);
      assert Begins(cfg, w, y, n + m, calm, s);
    }
  }

  lemma {:induction false} PathReachable(cfg: Config, w: World, w': World, n: nat, calm: bool)
    requires Path(cfg, w, w', n, calm) && Reachable(cfg, w)
    ensures Reachable(cfg, w')
    decreases n
  {
    if w != w' {
      var s :| Begins(cfg, w, w', n, calm, s);
      NextReachable(cfg, w, s);
      PathReachable(cfg, Next(cfg, w, s), w', n - 1, calm);
    }
  }

  /** For good: whatever happens short of manual mode, a stuck CR keeps its base finalizer. */
  lemma {:induction false} StuckForGood(cfg: Config, w: World, w': World, n: nat)
    requires cfg.maxJobHistory >= 1 && cfg.provider == AAP && cfg.pollInterval > 0
    requires Reachable(cfg, w) && Stuck(cfg, w) && !w.cr.value.management.Manual?
    requires Path(cfg, w, w', n, false)
    ensures Stuck(cfg, w')
    decreases n
  {
    if w != w' {
      var s :| Begins(cfg, w, w', n, false, s);
      StaysStuck(cfg, w, s);
      NextReachable(cfg, w, s);
      StuckForGood(cfg, Next(cfg, w, s), w', n - 1);
    }
  }

  // ---------- inputs nobody can object to ----------

  /** The number a text of digits stands for. */
  function Value(s: string): nat {
    if AllDigits(s) then ParseNat(s) else 0
  }

  lemma Bound(texts: set<string>) returns (b: nat)
    ensures forall s :: s in texts ==> Value(s) < b
  {
    b := 0;
    var rest := texts;
    while rest != {}
      invariant rest <= texts
      invariant forall s :: s in texts - rest ==> Value(s) < b
      decreases |rest|
    {
      var s :| s in rest;
      b := if Value(s) < b then b else Value(s) + 1;
      rest := rest - {s};
    }
  }

  lemma FreshNumber(issued: set<string>) returns (n: nat)
    ensures Itoa(n) !in issued
  {
    n := Bound(issued);
    ParsePrint(n);
  }

  lemma LaterThanAll(jobs: seq<JobStatus>) returns (now: int)
    ensures forall j :: j in jobs ==> j.timestamp < now
  {
    now := 0;
    for i := 0 to |jobs|
      invariant forall k :: 0 <= k < i ==> jobs[k].timestamp < now
    {
      now := if jobs[i].timestamp < now then now else jobs[i].timestamp + 1;
    }
  }

  // ---------- the stages of a deletion ----------

  /** A managed CR in an armed deletion, with nothing under way in either controller. */
  ghost predicate Settled(cfg: Config, w: World) {
    && Reachable(cfg, w) && w.cr.Some? && w.pending.None? && w.feedback.Idle? && w.armed
    && w.cr.value.deleting && w.cr.value.management.Managed?
  }

  lemma SettledFacts(cfg: Config, w: World)
    requires cfg.maxJobHistory >= 1 && Reachable(cfg, w) && w.cr.Some? && w.armed
    ensures VersionInv(w) && w.cr.value in w.past
    ensures w.cr.value.deleting ==> Feedback in w.cr.value.finalizers && w.cr.value.labelled
  {
    ReachableInv(cfg, w);
  }

  lemma PassStores(w: World, o: Outcome)
    requires w.cr.Some? && w.pending.None? && o.cr.finalizers != {}
    ensures var mid := AfterPass(w, o);
            && mid.pending.Some? && mid.cr.Some? && mid.feedback == w.feedback && mid.armed == w.armed
            && var w' := NextMainCommit(mid, false);
               && w'.cr.Some? && w'.pending.None? && w'.feedback == w.feedback && w'.armed == w.armed && w'.srv == o.srv
               && w'.cr.value == w.cr.value.(version := w'.cr.value.version, finalizers := o.cr.finalizers,
                                             status := o.cr.status)
  {
  }

  lemma PassPath(cfg: Config, w: World, input: PassInput)
    requires Legal(cfg, w, MainPass(input)) && Calm(MainPass(input)) && NextMainPass(cfg, w, input).pending.Some?
    ensures Path(cfg, w, NextMainCommit(NextMainPass(cfg, w, input), false), 2, true)
  {
    var mid := NextMainPass(cfg, w, input);
    OneStep(cfg, w, MainPass(input), true);
    OneStep(cfg, mid, MainCommit(false), true);
    Join(cfg, w, mid, NextMainCommit(mid, false), 1, 1, true);
  }

  /** A quiet pass and its status write. */
  lemma QuietPass(cfg: Config, w: World, n: nat, now: int) returns (w': World)
    requires cfg.maxJobHistory >= 1 && Settled(cfg, w) && Itoa(n) !in w.srv.issued
    requires forall j :: j in w.cr.value.status.jobs ==> j.timestamp < now
    ensures Settled(cfg, w') && Path(cfg, w, w', 2, true)
    ensures var o := Reconcile(cfg, w.cr.value, w.srv, Input(now, LaunchOk(n)));
            && w'.cr.value.finalizers == o.cr.finalizers && w'.cr.value.status == o.cr.status && w'.srv == o.srv
  {
    var input := Input(now, LaunchOk(n));
    var o := Reconcile(cfg, w.cr.value, w.srv, input);
    SettledFacts(cfg, w);
    PassFrame(cfg, w.cr.value, w.srv, input);
    assert Feedback in o.cr.finalizers - {Base};
    PassStores(w, o);
    PassPath(cfg, w, input);
    w' := NextMainCommit(NextMainPass(cfg, w, input), false);
    PathReachable(cfg, w, w', 2, true);
  }

  /** The pass releases the base finalizer once the recorded job is seen to have succeeded. */
  predicate ReadyToRelease(cfg: Config, w: World)
    requires w.cr.Some?
  {
    Base in w.cr.value.finalizers ==>
      var id := LatestID(w.cr.value.status.jobs, Deprovision);
      id.Some? && Successful(cfg, w.srv, id.value)
  }

  lemma PassReleases(cfg: Config, cr: Cr, srv: Server, input: PassInput)
    requires cfg.provider == AAP && cr.deleting && cr.management.Managed? && !input.getFails && !input.updateFails
    requires Base in cr.finalizers ==>
               && !NeedsTrigger(cr.status.jobs, Deprovision)
               && Successful(cfg, srv, Latest(cr.status.jobs, Deprovision).value.jobID)
    ensures var o := Reconcile(cfg, cr, srv, input);
            Base !in o.cr.finalizers && o.cr.status.phase == Deleting
  {
    HandleDeleteEffect(cfg, cr, srv, input);
  }

  lemma ReleaseStage(cfg: Config, w: World) returns (w': World)
    requires cfg.maxJobHistory >= 1 && cfg.provider == AAP && Settled(cfg, w) && ReadyToRelease(cfg, w)
    ensures Settled(cfg, w') && Path(cfg, w, w', 2, true)
    ensures Base !in w'.cr.value.finalizers && w'.cr.value.status.phase == Deleting
  {
    var n := FreshNumber(w.srv.issued);
    var now := LaterThanAll(w.cr.value.status.jobs);
    if Base in w.cr.value.finalizers {
      RecordedIsIssued(cfg, w, LatestID(w.cr.value.status.jobs, Deprovision).value);
    }
    PassReleases(cfg, w.cr.value, w.srv, Input(now, LaunchOk(n)));
    w' := QuietPass(cfg, w, n, now);
  }

  lemma FinalizersStored(w: World, finalizers: set<Finalizer>)
    requires w.cr.Some? && finalizers != {}
    ensures var w' := SetFinalizers(w, finalizers);
            && w'.cr.Some? && w' == w.(cr := w'.cr, past := w'.past)
            && w'.cr.value == w.cr.value.(version := w'.cr.value.version, finalizers := finalizers)
  {
  }

  /** Released: the other finalizers go. */
  lemma RemoveStage(cfg: Config, w: World) returns (w': World)
    requires cfg.maxJobHistory >= 1 && Settled(cfg, w) && Base !in w.cr.value.finalizers
    requires w.cr.value.status.phase == Deleting
    ensures Settled(cfg, w') && Path(cfg, w, w', 2, true)
    ensures w'.cr.value.finalizers == {Feedback} && w'.cr.value.status.phase == Deleting
  {
    SettledFacts(cfg, w);
    var fs := w.cr.value.finalizers;
    assert Feedback in fs - {Aap} && Feedback in fs - {Aap} - {Other};
    var mid := Next(cfg, w, PlaybookRemoveFinalizer);
    FinalizersStored(w, fs - {Aap});
    OneStep(cfg, w, PlaybookRemoveFinalizer, true);
    FinalizersStored(mid, fs - {Aap} - {Other});
    OneStep(cfg, mid, OtherRemoveFinalizer, true);
    w' := Next(cfg, mid, OtherRemoveFinalizer);
    Join(cfg, w, mid, w', 1, 1, true);
    PathReachable(cfg, w, w', 2, true);
    assert forall f :: f in fs - {Aap} - {Other} <==> f == Feedback;
  }

  lemma NewestIsCurrent(cfg: Config, w: World)
    requires cfg.maxJobHistory >= 1 && Settled(cfg, w)
    ensures w.past != [] && w.past[|w.past| - 1] == w.cr.value && w.cr.value.labelled
  {
    SettledFacts(cfg, w);
  }

  /** The feedback controller reads the newest version and saves its phase. */
  lemma SaveStage(cfg: Config, w: World) returns (w': World)
    requires cfg.maxJobHistory >= 1 && Settled(cfg, w)
    requires w.cr.value.finalizers == {Feedback} && w.cr.value.status.phase == Deleting
    ensures w.past != [] && w.past[|w.past| - 1] == w.cr.value
    ensures w' == w.(feedback := HasSaved(|w.past| - 1), record := RecordDeleting) && Path(cfg, w, w', 2, true)
  {
    NewestIsCurrent(cfg, w);
    var v := |w.past| - 1;
    var read := w.(feedback := HasRead(v));
    w' := w.(feedback := HasSaved(v), record := RecordDeleting);
    OneStep(cfg, w, FeedbackRead(v), true);
    OneStep(cfg, read, FeedbackSave, true);
    Join(cfg, w, read, w', 1, 1, true);
  }

  /** The feedback controller saves the phase and drops the last finalizer. */
  lemma FeedbackStage(cfg: Config, w: World) returns (w': World)
    requires cfg.maxJobHistory >= 1 && Settled(cfg, w)
    requires w.cr.value.finalizers == {Feedback} && w.cr.value.status.phase == Deleting
    ensures w'.cr.None? && w'.record == RecordDeleting && Path(cfg, w, w', 3, true)
  {
    SettledFacts(cfg, w);
    var saved := SaveStage(cfg, w);
    OneStep(cfg, saved, FeedbackRemoveFinalizer, true);
    w' := Next(cfg, saved, FeedbackRemoveFinalizer);
    Join(cfg, w, saved, w', 2, 1, true);
    assert {Feedback} - {Feedback} == {};
  }

  /** From a settled world whose base finalizer can go, seven calm steps end the CR. */
  lemma FinishStage(cfg: Config, w: World) returns (w': World)
    requires cfg.maxJobHistory >= 1 && cfg.provider == AAP && Settled(cfg, w) && ReadyToRelease(cfg, w)
    ensures w'.cr.None? && w'.record == RecordDeleting && Path(cfg, w, w', 7, true)
  {
    var x := ReleaseStage(cfg, w);
    var y := RemoveStage(cfg, x);
    w' := FeedbackStage(cfg, y);
    Join(cfg, w, x, y, 2, 2, true);
    Join(cfg, w, y, w', 4, 3, true);
  }

  lemma CommitStage(cfg: Config, w: World, lose: bool)
    requires w.pending.Some? && w.cr.Some? && !Ends(w.cr.value)
    ensures var w' := NextMainCommit(w, lose);
            && Path(cfg, w, w', 1, !lose) && w'.pending.None? && w'.cr.Some?
            && w'.feedback == w.feedback && w'.armed == w.armed
            && w'.srv.jobs == w.srv.jobs && w'.srv.issued == w.srv.issued
            && w'.cr.value == w.cr.value.(version := w'.cr.value.version, status := w'.cr.value.status)
            && w'.cr.value.status == if lose then w.cr.value.status else w.pending.value.status
  {
    OneStep(cfg, w, MainCommit(lose), !lose);
  }

  /** The feedback controller and a pending status write come to rest. */
  lemma SettlePath(cfg: Config, w: World, lose: bool) returns (w': World)
    requires w.cr.Some? && !Ends(w.cr.value)
    ensures Path(cfg, w, w', 2, !lose) && w'.pending.None? && w'.cr.Some? && w'.feedback.Idle? && w'.armed == w.armed
    ensures w'.srv.jobs == w.srv.jobs && w'.srv.issued == w.srv.issued
    ensures w'.cr.value == w.cr.value.(version := w'.cr.value.version, status := w'.cr.value.status)
    ensures w'.cr.value.status == if w.pending.None? || lose then w.cr.value.status else w.pending.value.status
  {
    var idle := w.(feedback := Idle);
    OneStep(cfg, w, FeedbackAbort, !lose);
    if w.pending.Some? {
      CommitStage(cfg, idle, lose);
      w' := NextMainCommit(idle, lose);
      Join(cfg, w, idle, w', 1, 1, !lose);
    } else {
      w' := idle;
      Longer(cfg, w, w', 1, 2, !lose);
    }
  }

  lemma SettleStage(cfg: Config, w: World, lose: bool) returns (w': World)
    requires cfg.maxJobHistory >= 1 && Reachable(cfg, w) && w.cr.Some? && w.armed
    requires w.cr.value.deleting && w.cr.value.management.Managed?
    ensures Settled(cfg, w') && Path(cfg, w, w', 2, !lose)
    ensures w'.srv.jobs == w.srv.jobs && w'.srv.issued == w.srv.issued
    ensures w'.cr.value.finalizers == w.cr.value.finalizers
    ensures w'.cr.value.status == if w.pending.None? || lose then w.cr.value.status else w.pending.value.status
  {
    SettledFacts(cfg, w);
    w' := SettlePath(cfg, w, lose);
    PathReachable(cfg, w, w', 2, !lose);
  }

  /** Storing the pending status keeps the recorded job, and with it the readiness. */
  lemma StaysReady(cfg: Config, w: World, x: World)
    requires cfg.maxJobHistory >= 1 && cfg.provider == AAP && Reachable(cfg, w)
    requires w.cr.Some? && x.cr.Some? && ReadyToRelease(cfg, w)
    requires x.srv.jobs == w.srv.jobs && x.cr.value.finalizers == w.cr.value.finalizers
    requires x.cr.value.status == if w.pending.None? then w.cr.value.status else w.pending.value.status
    ensures ReadyToRelease(cfg, x)
  {
    if Base in w.cr.value.finalizers {
      RecordedIsIssued(cfg, w, LatestID(w.cr.value.status.jobs, Deprovision).value);
      ReachableInv(cfg, w);
    }
  }

  /** Progress: once AAP reports the recorded deprovision job successful, nine calm steps end the CR, with DELETING
      on record. */
  lemma SuccessfulDeletionEnds(cfg: Config, w: World)
    requires cfg.maxJobHistory >= 1 && cfg.provider == AAP && Reachable(cfg, w)
    requires w.cr.Some? && w.armed && w.cr.value.deleting && w.cr.value.management.Managed? && ReadyToRelease(cfg, w)
    ensures exists w' :: Path(cfg, w, w', 9, true) && w'.cr.None? && w'.record == RecordDeleting
  {
    var x := SettleStage(cfg, w, false);
    StaysReady(cfg, w, x);
    var w' := FinishStage(cfg, x);
    Join(cfg, w, x, w', 2, 7, true);
  }

  // ---------- when a deletion can end ----------

  /** The provision job the history tracks is still running as far as the job endpoint knows. */
  predicate SeenRunning(cfg: Config, srv: Server, jobs: seq<JobStatus>) {
    var id := LatestID(jobs, Provision);
    id.Some? && Seen(cfg, srv, id.value) && !MapAAPStatusToJobState(srv.jobs[id.value].status).IsTerminal()
  }

  lemma ReadyUnlessRunning(cfg: Config, cr: Cr, srv: Server, now: int, n: int)
    requires cfg.provider == AAP && "" !in srv.jobs
    requires Latest(cr.status.jobs, Deprovision).None? && !SeenRunning(cfg, srv, cr.status.jobs)
    ensures AsksToDeprovision(cfg, WithPhase(cr, Deleting), srv, Input(now, LaunchOk(n)))
  {
  }

  /** Nothing is deprovisioned yet and the provider is ready: a quiet pass launches and records the job. */
  lemma PassLaunches(cfg: Config, cr: Cr, srv: Server, now: int, n: int)
    requires cfg.maxJobHistory >= 1 && cfg.provider == AAP && ServerGood(srv)
    requires StatusGood(cfg, srv, cr.status, true)
    requires cr.deleting && cr.management.Managed? && Base in cr.finalizers
    requires Latest(cr.status.jobs, Deprovision).None? && !SeenRunning(cfg, srv, cr.status.jobs)
    ensures var o := Reconcile(cfg, cr, srv, Input(now, LaunchOk(n)));
            && o.srv == Start(cfg, srv, Deprovision, n, 0)
            && LatestID(o.cr.status.jobs, Deprovision) == Some(Itoa(n))
  {
    var input := Input(now, LaunchOk(n));
    var o := Reconcile(cfg, cr, srv, input);
    ReadyUnlessRunning(cfg, cr, srv, now, n);
    HandleDeleteEffect(cfg, cr, srv, input);
    DeleteLaunchesExactlyWhen(cfg, cr, srv, input);
    assert o.srv != srv;
    var mid, job :| DeprovisionAppended(cfg, cr, srv, input, o.cr.status.jobs, o.srv, mid, job);
    AppendedFirst(cfg, srv, cr.status.jobs, mid, job);
  }

  lemma AppendedFirst(cfg: Config, srv: Server, jobs: seq<JobStatus>, mid: seq<JobStatus>, job: JobStatus)
    requires cfg.maxJobHistory >= 1 && DepEntriesGood(cfg, srv, jobs) && job.jobType == Deprovision
    requires PolledOnly(jobs, mid, Provision) && Latest(jobs, Deprovision).None?
    ensures LatestID(AppendJob(mid, job, cfg.maxJobHistory), Deprovision) == Some(job.jobID)
  {
    PolledFacts(jobs, mid, Provision);
    SameIdentitiesKeepDepEntries(cfg, srv, jobs, mid);
    LatestIsFirstMaximum(jobs, Deprovision);
    AppendedIsLatestExactlyWhen(mid, job, cfg.maxJobHistory);
    AppendShape(mid, job, cfg.maxJobHistory);
  }

  /** AAP lets a running job succeed. */
  lemma JobSucceeds(cfg: Config, w: World, id: string) returns (w': World)
    requires Settled(cfg, w) && Seen(cfg, w.srv, id)
    requires !MapAAPStatusToJobState(w.srv.jobs[id].status).IsTerminal()
    ensures Settled(cfg, w') && Path(cfg, w, w', 1, true) && w'.cr == w.cr && w'.srv.issued == w.srv.issued
    ensures Successful(cfg, w'.srv, id)
  {
    OneStep(cfg, w, JobProgress(id, "successful"), true);
    NextReachable(cfg, w, JobProgress(id, "successful"));
    w' := Next(cfg, w, JobProgress(id, "successful"));
  }

  lemma LaunchQuietly(cfg: Config, w: World) returns (w': World, n: int)
    requires cfg.maxJobHistory >= 1 && cfg.provider == AAP && Deprovision !in cfg.unseen && Settled(cfg, w)
    requires Latest(w.cr.value.status.jobs, Deprovision).None? && !SeenRunning(cfg, w.srv, w.cr.value.status.jobs)
    requires Base in w.cr.value.finalizers
    ensures Settled(cfg, w') && Path(cfg, w, w', 2, true)
    ensures w'.srv == Start(cfg, w.srv, Deprovision, n, 0)
    ensures LatestID(w'.cr.value.status.jobs, Deprovision) == Some(Itoa(n))
  {
    ReachableInv(cfg, w);
    n := FreshNumber(w.srv.issued);
    var now := LaterThanAll(w.cr.value.status.jobs);
    PassLaunches(cfg, w.cr.value, w.srv, now, n);
    w' := QuietPass(cfg, w, n, now);
  }

  lemma LaunchPass(cfg: Config, w: World) returns (w': World)
    requires cfg.maxJobHistory >= 1 && cfg.provider == AAP && Deprovision !in cfg.unseen && Settled(cfg, w)
    requires Latest(w.cr.value.status.jobs, Deprovision).None? && !SeenRunning(cfg, w.srv, w.cr.value.status.jobs)
    requires Base in w.cr.value.finalizers
    ensures Settled(cfg, w') && Path(cfg, w, w', 3, true) && ReadyToRelease(cfg, w')
  {
    var x, n := LaunchQuietly(cfg, w);
    w' := JobSucceeds(cfg, x, Itoa(n));
    Join(cfg, w, x, w', 2, 1, true);
  }

  lemma LaunchStage(cfg: Config, w: World) returns (w': World)
    requires cfg.maxJobHistory >= 1 && cfg.provider == AAP && Deprovision !in cfg.unseen && Settled(cfg, w)
    requires Latest(w.cr.value.status.jobs, Deprovision).None? && Base in w.cr.value.finalizers
    ensures Settled(cfg, w') && Path(cfg, w, w', 4, true) && ReadyToRelease(cfg, w')
  {
    if SeenRunning(cfg, w.srv, w.cr.value.status.jobs) {
      var x := JobSucceeds(cfg, w, LatestID(w.cr.value.status.jobs, Provision).value);
      w' := LaunchPass(cfg, x);
      Join(cfg, w, x, w', 1, 3, true);
    } else {
      w' := LaunchPass(cfg, w);
      Longer(cfg, w, w', 3, 4, true);
    }
  }

  /** From a settled world that is not stuck the base finalizer can be made ready to go. */
  lemma ReadyStage(cfg: Config, w: World) returns (w': World)
    requires cfg.maxJobHistory >= 1 && cfg.provider == AAP && Settled(cfg, w) && !Stuck(cfg, w)
    ensures Settled(cfg, w') && Path(cfg, w, w', 4, true) && ReadyToRelease(cfg, w')
  {
    var id := LatestID(w.cr.value.status.jobs, Deprovision);
    if ReadyToRelease(cfg, w) {
      w' := w;
    } else if id.None? {
      w' := LaunchStage(cfg, w);
    } else {
      w' := JobSucceeds(cfg, w, id.value);
      Longer(cfg, w, w', 1, 4, true);
    }
  }

  /** A pending status whose deprovision job cannot succeed is given up; any other is stored. */
  lemma UnstuckSettles(cfg: Config, w: World) returns (w': World)
    requires cfg.maxJobHistory >= 1 && cfg.provider == AAP && Reachable(cfg, w)
    requires w.cr.Some? && w.armed && w.cr.value.deleting && w.cr.value.management.Managed? && !Stuck(cfg, w)
    ensures Settled(cfg, w') && !Stuck(cfg, w') && Path(cfg, w, w', 2, false)
  {
    var lose := w.pending.Some? && Blocked(cfg, w.srv, w.pending.value.status.jobs);
    w' := SettleStage(cfg, w, lose);
    if !lose {
      CalmOrNot(cfg, w, w', 2);
    }
  }

  lemma SettledDeletionEnds(cfg: Config, w: World) returns (w': World)
    requires cfg.maxJobHistory >= 1 && cfg.provider == AAP && Settled(cfg, w) && !Stuck(cfg, w)
    ensures w'.cr.None? && w'.record == RecordDeleting && Path(cfg, w, w', 11, true)
  {
    var x := ReadyStage(cfg, w);
    w' := FinishStage(cfg, x);
    Join(cfg, w, x, w', 4, 7, true);
  }

  /** From any world of a managed armed deletion that is not stuck, thirteen steps end the CR, with DELETING on
      record. */
  lemma UnstuckDeletionEnds(cfg: Config, w: World)
    requires cfg.maxJobHistory >= 1 && cfg.provider == AAP && Reachable(cfg, w)
    requires w.cr.Some? && w.armed && w.cr.value.deleting && w.cr.value.management.Managed? && !Stuck(cfg, w)
    ensures exists w' :: Path(cfg, w, w', 13, false) && w'.cr.None? && w'.record == RecordDeleting
  {
    var x := UnstuckSettles(cfg, w);
    var w' := SettledDeletionEnds(cfg, x);
    CalmOrNot(cfg, x, w', 11);
    Join(cfg, w, x, w', 2, 11, false);
  }

  /** Exactly when a managed armed deletion can still end: when it is not stuck. */
  lemma DeletionCanEndExactlyWhen(cfg: Config, w: World)
    requires cfg.maxJobHistory >= 1 && cfg.provider == AAP && cfg.pollInterval > 0 && Reachable(cfg, w)
    requires w.cr.Some? && w.armed && w.cr.value.deleting && w.cr.value.management.Managed?
    ensures (exists w', n :: Path(cfg, w, w', n, false) && w'.cr.None?) <==> !Stuck(cfg, w)
  {
    if Stuck(cfg, w) {
      forall w', n: nat | Path(cfg, w, w', n, false) ensures w'.cr.Some? {
        StuckForGood(cfg, w, w', n);
      }
    } else {
      UnstuckDeletionEnds(cfg, w);
    }
  }
}
