// What every step keeps about finalizers, stored versions and the fulfillment record once deletion has begun.

module FinalizerInvariants {
  import opened Options
  import opened Providers
  import opened Passes
  import opened PassEffects
  import opened Lifecycle
  import opened LifecycleInvariants

  // ---------- the invariants ----------

  /** A version number names one stored CR; the current CR is the newest, and something still holds it. */
  predicate VersionInv(w: World) {
    && (forall i :: 0 <= i < |w.past| ==> w.past[i].version == i)
    && w.past != []
    && (w.cr.Some? ==> w.cr.value == w.past[|w.past| - 1] && !Ends(w.cr.value))
    && (!w.feedback.Idle? ==> w.feedback.v < |w.past|)
  }

  predicate ManagementInv(cfg: Config, w: World) {
    w.cr.Some? && !cfg.allowManual ==> !w.cr.value.management.Manual?
  }

  /** The feedback finalizer stays on every stored version of an armed deletion; only its own controller, having
      seen it alone, takes it off, and that ends the CR. */
  predicate ArmedInv(w: World)
    requires VersionInv(w)
  {
    && (w.cr.Some? && !w.cr.value.deleting ==> !w.armed && forall c :: c in w.past ==> !c.deleting)
    && (w.armed ==>
          && (forall c :: c in w.past && c.deleting ==> c.labelled && Feedback in c.finalizers)
          && (w.cr.None? ==> LastFinalizer(w.past[|w.past| - 1])))
    && (w.feedback.HasSaved? ==> LastFinalizer(w.past[w.feedback.v]))
  }

  /** Once the CR is stored in phase Deleting it stays so; the record says DELETING only afterwards, and whoever is
      about to drop the feedback finalizer from such a version has already saved it. */
  predicate PhaseInv(w: World)
    requires VersionInv(w)
  {
    && (forall c :: c in w.past && c.status.phase == Deleting ==> c.deleting && NewestIsDeleting(w))
    && (w.pending.Some? && NewestIsDeleting(w) ==> w.pending.value.status.phase == Deleting)
    && (w.pending.Some? && w.cr.Some? && w.pending.value.status.phase == Deleting ==> w.cr.value.deleting)
    && (w.record == RecordDeleting ==> NewestIsDeleting(w))
    && (w.feedback.HasSaved? && w.past[w.feedback.v].status.phase == Deleting ==> w.record == RecordDeleting)
  }

  predicate NewestIsDeleting(w: World)
    requires w.past != []
  {
    w.past[|w.past| - 1].status.phase == Deleting
  }

  /** After an armed deletion has released the base finalizer, every stored phase is Deleting. */
  predicate RecordInv(w: World)
    requires VersionInv(w)
  {
    w.armed ==>
      && (forall c :: c in w.past && c.deleting && Base !in c.finalizers ==> c.status.phase == Deleting)
      && (w.cr.Some? && w.pending.Some? && Base !in w.cr.value.finalizers ==> w.pending.value.status.phase == Deleting)
  }

  /** EDA: once deletion is armed the base finalizer outlives the playbook's. */
  predicate OrderInv(w: World) {
    w.armed ==> forall c :: c in w.past && c.deleting && Base !in c.finalizers ==> Aap !in c.finalizers
  }

  // ---------- every step is at most one write to the CR ----------

  /** The CR a step tries to store; the current one when it stores nothing. */
  function Target(cfg: Config, w: World, s: Step): Cr
    requires Legal(cfg, w, s) && w.cr.Some?
  {
    var cr := w.cr.value;
    match s
    case MainPass(input) => cr.(finalizers := Reconcile(cfg, cr, w.srv, input).cr.finalizers)
    case MainCommit(failed) => if failed then cr else cr.(status := w.pending.value.status)
    case FeedbackAddFinalizer =>
      if Unchanged(w, w.feedback.v) then cr.(finalizers := cr.finalizers + {Feedback}) else cr
    case FeedbackRemoveFinalizer =>
      if Unchanged(w, w.feedback.v) then cr.(finalizers := cr.finalizers - {Feedback}) else cr
    case FeedbackDropUnlabelled =>
      if Unchanged(w, w.feedback.v) then cr.(finalizers := cr.finalizers - {Feedback}) else cr
    case PlaybookAddFinalizer => cr.(finalizers := cr.finalizers + {Aap})
    case PlaybookRemoveFinalizer => cr.(finalizers := cr.finalizers - {Aap})
    case PlaybookAnnotate(v) => cr.(annotatedVersion := v)
    case UserEdit(v) => cr.(specVersion := v)
    case UserAnnotate(m) => cr.(management := m)
    case UserDelete => cr.(deleting := true)
    case OtherAddFinalizer => cr.(finalizers := cr.finalizers + {Other})
    case OtherRemoveFinalizer => cr.(finalizers := cr.finalizers - {Other})
    case _ => cr
  }

  ghost predicate Writes(w: World, w': World, cr: Cr) {
    || (w'.cr == w.cr && w'.past == w.past && w.cr == Some(cr))
    || (w'.cr.None? && w'.past == w.past && Ends(cr))
    || (w'.past == w.past + [cr.(version := |w.past|)] && w'.cr == Some(cr.(version := |w.past|)) && !Ends(cr))
  }

  lemma StoreWrites(w: World, cr: Cr)
    requires w.cr.Some?
    ensures Writes(w, StoreIfChanged(w, cr), cr)
  {
  }

  lemma StepWrites(cfg: Config, w: World, s: Step)
    requires Legal(cfg, w, s) && w.cr.Some?
    ensures Writes(w, Next(cfg, w, s), Target(cfg, w, s))
  {
    StoreWrites(w, Target(cfg, w, s));
  }

  lemma StepWithoutCr(cfg: Config, w: World, s: Step)
    requires Legal(cfg, w, s) && w.cr.None?
    ensures var w' := Next(cfg, w, s);
            w'.cr.None? && w'.past == w.past && w'.armed == w.armed
  {
  }

  /** Where a step leaves the feedback controller. */
  lemma StepFeedback(cfg: Config, w: World, s: Step)
    requires VersionInv(w) && Legal(cfg, w, s)
    ensures var w' := Next(cfg, w, s);
            || w'.feedback == w.feedback
            || w'.feedback.Idle?
            || (w'.feedback.HasRead? && w'.feedback.v < |w'.past|)
            || (s.FeedbackSave? && w'.feedback == HasSaved(w.feedback.v) && LastFinalizer(w.past[w.feedback.v]))
  {
  }

  lemma StepArming(cfg: Config, w: World, s: Step)
    requires Legal(cfg, w, s)
    ensures var w' := Next(cfg, w, s);
            w'.armed == if s.UserDelete? && !w.cr.value.deleting
                        then w.cr.value.labelled && Base in w.cr.value.finalizers && Feedback in w.cr.value.finalizers
                        else w.armed
  {
  }

  lemma VersionKept(cfg: Config, w: World, s: Step)
    requires VersionInv(w) && Legal(cfg, w, s)
    ensures VersionInv(Next(cfg, w, s))
  {
    StepFeedback(cfg, w, s);
    if w.cr.Some? {
      StepWrites(cfg, w, s);
    } else {
      StepWithoutCr(cfg, w, s);
    }
  }

  lemma TargetManagement(cfg: Config, w: World, s: Step)
    requires ManagementInv(cfg, w) && Legal(cfg, w, s) && w.cr.Some?
    ensures !cfg.allowManual ==> !Target(cfg, w, s).management.Manual?
  {
  }

  lemma ManagementKept(cfg: Config, w: World, s: Step)
    requires ManagementInv(cfg, w) && Legal(cfg, w, s)
    ensures ManagementInv(cfg, Next(cfg, w, s))
  {
    if w.cr.Some? {
      StepWrites(cfg, w, s);
      TargetManagement(cfg, w, s);
    } else {
      StepWithoutCr(cfg, w, s);
    }
  }

  // ---------- the feedback finalizer ----------

  /** Compare-and-swap: if the version matches, what the feedback controller read is the current CR. */
  lemma ReadIsCurrent(w: World)
    requires VersionInv(w) && !w.feedback.Idle? && Unchanged(w, w.feedback.v)
    ensures w.past[w.feedback.v] == w.cr.value
  {
  }

  /** In an armed deletion a step keeps the feedback finalizer unless it is the last one. */
  lemma TargetFeedback(cfg: Config, w: World, s: Step)
    requires VersionInv(w) && ArmedInv(w) && Legal(cfg, w, s) && w.cr.Some?
    ensures var cr := Target(cfg, w, s);
            && cr.labelled == w.cr.value.labelled
            && cr.deleting == (w.cr.value.deleting || s.UserDelete?)
            && (w.armed ==> Feedback in cr.finalizers || (LastFinalizer(w.cr.value) && cr.finalizers == {}))
  {
    assert w.cr.value in w.past;
    if !w.feedback.Idle? && Unchanged(w, w.feedback.v) {
      ReadIsCurrent(w);
    }
    if s.MainPass? {
      PassFrame(cfg, w.cr.value, w.srv, s.input);
      assert w.armed ==> Feedback in Target(cfg, w, s).finalizers - {Base};
    }
  }

  /** The stored versions after a step on an existing CR: the old ones and at most one new one. */
  lemma PastAfter(cfg: Config, w: World, s: Step)
    requires Legal(cfg, w, s) && w.cr.Some?
    ensures forall c :: c in Next(cfg, w, s).past ==> c in w.past || c == Target(cfg, w, s).(version := |w.past|)
    ensures forall i :: 0 <= i < |w.past| ==> i < |Next(cfg, w, s).past| && Next(cfg, w, s).past[i] == w.past[i]
  {
    StepWrites(cfg, w, s);
  }

  lemma ArmedKeptWithCr(cfg: Config, w: World, s: Step)
    requires VersionInv(w) && ArmedInv(w) && Legal(cfg, w, s) && w.cr.Some? && VersionInv(Next(cfg, w, s))
    ensures ArmedInv(Next(cfg, w, s))
  {
    StepFeedback(cfg, w, s);
    StepArming(cfg, w, s);
    StepWrites(cfg, w, s);
    TargetFeedback(cfg, w, s);
    PastAfter(cfg, w, s);
    assert w.cr.value in w.past;
  }

  lemma ArmedKept(cfg: Config, w: World, s: Step)
    requires VersionInv(w) && ArmedInv(w) && Legal(cfg, w, s)
    ensures VersionInv(Next(cfg, w, s)) && ArmedInv(Next(cfg, w, s))
  {
    VersionKept(cfg, w, s);
    if w.cr.Some? {
      ArmedKeptWithCr(cfg, w, s);
    } else {
      StepFeedback(cfg, w, s);
      StepWithoutCr(cfg, w, s);
    }
  }

  // ---------- the base finalizer ----------

  lemma OnlyDeletePassReleasesBase(cfg: Config, w: World, s: Step)
    requires Legal(cfg, w, s) && w.cr.Some? && Base in w.cr.value.finalizers
    requires Base !in Target(cfg, w, s).finalizers
    ensures s.MainPass? && w.cr.value.deleting && !w.cr.value.management.Unmanaged?
    ensures Base !in HandleDelete(cfg, w.cr.value, w.srv, s.input).cr.finalizers
  {
    if s.MainPass? {
      PassFrame(cfg, w.cr.value, w.srv, s.input);
    }
  }

  /** AAP: when the base finalizer goes, the stored phase is already Deleting. */
  lemma AAPReleaseFindsDeleting(cfg: Config, w: World, s: Step)
    requires cfg.provider == AAP && cfg.pollInterval > 0 && !cfg.allowManual
    requires HistoryInv(cfg, w) && ManagementInv(cfg, w) && Legal(cfg, w, s)
    requires w.cr.Some? && Base in w.cr.value.finalizers && Base !in Target(cfg, w, s).finalizers
    ensures w.cr.value.status.phase == Deleting
  {
    OnlyDeletePassReleasesBase(cfg, w, s);
    AAPRelease(cfg, w.cr.value, w.srv, s.input);
    NoRealDeprovision(cfg, w.srv, w.cr.value.status.jobs);
  }

  lemma PassEndsDeleting(cfg: Config, w: World, s: Step)
    requires Legal(cfg, w, s) && s.MainPass? && w.cr.value.deleting
    requires w.cr.value.status.phase == Deleting || !w.cr.value.management.Unmanaged?
    ensures Next(cfg, w, s).pending.value.status.phase == Deleting
  {
    HandleDeleteEffect(cfg, w.cr.value, w.srv, s.input);
  }

  /** The phase of whatever a step stores without the base finalizer. */
  lemma TargetPhase(cfg: Config, w: World, s: Step)
    requires cfg.provider == AAP && cfg.pollInterval > 0 && !cfg.allowManual
    requires VersionInv(w) && ArmedInv(w) && HistoryInv(cfg, w) && ManagementInv(cfg, w) && RecordInv(w)
    requires Legal(cfg, w, s) && w.cr.Some? && w.armed && Base !in Target(cfg, w, s).finalizers
    ensures Target(cfg, w, s).status.phase == Deleting
  {
    assert w.cr.value in w.past;
    if Base in w.cr.value.finalizers {
      AAPReleaseFindsDeleting(cfg, w, s);
      OnlyDeletePassReleasesBase(cfg, w, s);
    }
  }

  lemma PendingPhase(cfg: Config, w: World, s: Step)
    requires cfg.provider == AAP && cfg.pollInterval > 0 && !cfg.allowManual
    requires VersionInv(w) && ArmedInv(w) && HistoryInv(cfg, w) && ManagementInv(cfg, w) && RecordInv(w)
    requires Legal(cfg, w, s) && w.cr.Some? && w.armed && Base !in Target(cfg, w, s).finalizers
    requires Next(cfg, w, s).pending.Some?
    ensures Next(cfg, w, s).pending.value.status.phase == Deleting
  {
    assert w.cr.value in w.past;
    if s.MainPass? {
      if Base in w.cr.value.finalizers {
        OnlyDeletePassReleasesBase(cfg, w, s);
      }
      PassEndsDeleting(cfg, w, s);
    } else {
      if Base in w.cr.value.finalizers {
        OnlyDeletePassReleasesBase(cfg, w, s);
        assert false;
      }
    }
  }

  /** An armed CR ends only when the feedback controller drops the last finalizer from the version it has saved. */
  lemma ArmedEnd(cfg: Config, w: World, s: Step)
    requires VersionInv(w) && ArmedInv(w) && Legal(cfg, w, s) && w.cr.Some? && w.armed
    requires Next(cfg, w, s).cr.None?
    ensures s.FeedbackRemoveFinalizer? && w.past[w.feedback.v] == w.cr.value && LastFinalizer(w.cr.value)
  {
    StepWrites(cfg, w, s);
    TargetFeedback(cfg, w, s);
    assert w.cr.value in w.past;
    if !w.feedback.Idle? && Unchanged(w, w.feedback.v) {
      ReadIsCurrent(w);
    }
  }

  lemma RecordKeptArmed(cfg: Config, w: World, s: Step)
    requires cfg.provider == AAP && cfg.pollInterval > 0 && !cfg.allowManual
    requires VersionInv(w) && ArmedInv(w) && HistoryInv(cfg, w) && ManagementInv(cfg, w) && RecordInv(w)
    requires Legal(cfg, w, s) && w.cr.Some? && w.armed
    requires VersionInv(Next(cfg, w, s))
    ensures RecordInv(Next(cfg, w, s))
  {
    var w' := Next(cfg, w, s);
    StepWrites(cfg, w, s);
    var target := Target(cfg, w, s);
    assert w.cr.value in w.past;
    if w'.cr.Some? && Base !in target.finalizers {
      TargetPhase(cfg, w, s);
      if w'.pending.Some? {
        PendingPhase(cfg, w, s);
      }
    }
    assert forall c :: c in w'.past ==> c in w.past || c == target.(version := |w.past|);
  }

  lemma RecordKept(cfg: Config, w: World, s: Step)
    requires cfg.provider == AAP && cfg.pollInterval > 0 && !cfg.allowManual
    requires VersionInv(w) && ArmedInv(w) && HistoryInv(cfg, w) && ManagementInv(cfg, w) && RecordInv(w)
    requires Legal(cfg, w, s)
    requires VersionInv(Next(cfg, w, s))
    ensures RecordInv(Next(cfg, w, s))
  {
    var w' := Next(cfg, w, s);
    StepArming(cfg, w, s);
    if w.cr.None? {
      StepWithoutCr(cfg, w, s);
    } else if w.armed {
      RecordKeptArmed(cfg, w, s);
    } else if w'.armed {
      StepWrites(cfg, w, s);
      assert forall c :: c in w'.past ==> c in w.past || c == Target(cfg, w, s).(version := |w.past|);
    }
  }

  // ---------- the record, whatever the configuration ----------

  lemma PassKeepsPhase(cfg: Config, w: World, input: PassInput)
    requires VersionInv(w) && PhaseInv(w) && Legal(cfg, w, MainPass(input))
    ensures var phase := Reconcile(cfg, w.cr.value, w.srv, input).cr.status.phase;
            && (w.cr.value.status.phase == Deleting ==> phase == Deleting)
            && (phase == Deleting ==> w.cr.value.deleting)
  {
    var cr := w.cr.value;
    assert cr in w.past;
    if cr.deleting {
      HandleDeleteEffect(cfg, cr, w.srv, input);
    } else {
      HandleUpdateEffect(cfg, cr, w.srv, input);
    }
  }

  /** What a step stores: Deleting stays, and comes only with the deletion mark. */
  lemma TargetKeepsPhase(cfg: Config, w: World, s: Step)
    requires VersionInv(w) && PhaseInv(w) && Legal(cfg, w, s) && w.cr.Some?
    ensures var cr := Target(cfg, w, s);
            && (NewestIsDeleting(w) ==> cr.status.phase == Deleting)
            && (cr.status.phase == Deleting ==> cr.deleting)
            && (w.cr.value.deleting ==> cr.deleting)
  {
    assert w.cr.value in w.past;
    if s.MainPass? {
      PassFrame(cfg, w.cr.value, w.srv, s.input);
    }
  }

  /** The record moves only with a save. */
  lemma OnlySavesRecord(cfg: Config, w: World, s: Step)
    requires Legal(cfg, w, s) && !s.FeedbackSave?
    ensures Next(cfg, w, s).record == w.record
    ensures Next(cfg, w, s).feedback.HasSaved? ==> Next(cfg, w, s).feedback == w.feedback
  {
  }

  /** A save moves it to the phase of the version that was read. */
  lemma SaveRecords(cfg: Config, w: World)
    requires Legal(cfg, w, FeedbackSave)
    ensures var w' := Next(cfg, w, FeedbackSave);
            && w'.record == SyncPhase(w.record, w.past[w.feedback.v].status.phase)
            && (w'.feedback.HasSaved? ==> w'.feedback.v == w.feedback.v)
  {
  }

  lemma RecordFollowsSaves(cfg: Config, w: World, s: Step)
    requires VersionInv(w) && PhaseInv(w) && Legal(cfg, w, s)
    ensures var w' := Next(cfg, w, s);
            && (w'.record == RecordDeleting ==> NewestIsDeleting(w))
            && (w'.feedback.HasSaved? && w'.feedback.v < |w.past| && w.past[w'.feedback.v].status.phase == Deleting ==>
                  w'.record == RecordDeleting)
  {
    if s.FeedbackSave? {
      SaveRecords(cfg, w);
      assert w.past[w.feedback.v] in w.past;
    } else {
      OnlySavesRecord(cfg, w, s);
    }
  }

  lemma PendingKeepsPhase(cfg: Config, w: World, s: Step)
    requires VersionInv(w) && PhaseInv(w) && Legal(cfg, w, s) && w.cr.Some?
    requires Next(cfg, w, s).pending.Some?
    ensures var phase := Next(cfg, w, s).pending.value.status.phase;
            && (NewestIsDeleting(w) ==> phase == Deleting)
            && (phase == Deleting ==> w.cr.value.deleting)
            && (!s.MainPass? ==> Target(cfg, w, s).status == w.cr.value.status)
  {
    if s.MainPass? {
      PassKeepsPhase(cfg, w, s.input);
    }
  }

  lemma PhaseKeptWithCr(cfg: Config, w: World, s: Step)
    requires VersionInv(w) && PhaseInv(w) && Legal(cfg, w, s) && w.cr.Some? && VersionInv(Next(cfg, w, s))
    ensures PhaseInv(Next(cfg, w, s))
  {
    StepFeedback(cfg, w, s);
    StepWrites(cfg, w, s);
    PastAfter(cfg, w, s);
    TargetKeepsPhase(cfg, w, s);
    RecordFollowsSaves(cfg, w, s);
    if Next(cfg, w, s).pending.Some? {
      PendingKeepsPhase(cfg, w, s);
    }
  }

  lemma PhaseKept(cfg: Config, w: World, s: Step)
    requires VersionInv(w) && PhaseInv(w) && Legal(cfg, w, s)
    requires VersionInv(Next(cfg, w, s))
    ensures PhaseInv(Next(cfg, w, s))
  {
    if w.cr.Some? {
      PhaseKeptWithCr(cfg, w, s);
    } else {
      StepWithoutCr(cfg, w, s);
      StepFeedback(cfg, w, s);
      RecordFollowsSaves(cfg, w, s);
    }
  }

  /** The end of an armed CR: the record says DELETING exactly when that is the phase the CR ends in. */
  lemma EndRecordedExactlyWhen(cfg: Config, w: World, s: Step)
    requires VersionInv(w) && ArmedInv(w) && PhaseInv(w) && Legal(cfg, w, s)
    requires w.cr.Some? && w.armed && Next(cfg, w, s).cr.None?
    ensures w.record == RecordDeleting <==> w.cr.value.status.phase == Deleting
  {
    ArmedEnd(cfg, w, s);
  }

  // ---------- EDA order ----------

  lemma OrderKept(cfg: Config, w: World, s: Step)
    requires cfg.provider == EDA && cfg.pollInterval > 0 && !cfg.allowManual
    requires VersionInv(w) && ArmedInv(w) && ManagementInv(cfg, w) && OrderInv(w) && Legal(cfg, w, s)
    ensures OrderInv(Next(cfg, w, s))
  {
    var w' := Next(cfg, w, s);
    StepArming(cfg, w, s);
    if w.cr.None? {
      StepWithoutCr(cfg, w, s);
    } else {
      StepWrites(cfg, w, s);
      var target := Target(cfg, w, s);
      assert w.cr.value in w.past;
      assert forall c :: c in w'.past ==> c in w.past || c == target.(version := |w.past|);
      if w'.armed && Base !in target.finalizers {
        TargetOrder(cfg, w, s);
      }
    }
  }

  lemma TargetOrder(cfg: Config, w: World, s: Step)
    requires cfg.provider == EDA && cfg.pollInterval > 0 && !cfg.allowManual
    requires VersionInv(w) && ArmedInv(w) && ManagementInv(cfg, w) && OrderInv(w) && Legal(cfg, w, s) && w.cr.Some?
    requires Next(cfg, w, s).armed && Base !in Target(cfg, w, s).finalizers
    ensures Aap !in Target(cfg, w, s).finalizers
  {
    StepArming(cfg, w, s);
    assert w.cr.value in w.past;
    if Base in w.cr.value.finalizers {
      OnlyDeletePassReleasesBase(cfg, w, s);
      HandleDeleteEffect(cfg, w.cr.value, w.srv, s.input);
      EDARelease(cfg, w.cr.value, w.srv, s.input);
    } else if s.MainPass? {
      PassFrame(cfg, w.cr.value, w.srv, s.input);
    }
  }
}
