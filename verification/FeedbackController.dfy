// The feedback controller's pass over one custom resource, as the sequence of calls its source makes. It reads a
// version that may be stale, and others act between its calls. Whatever they do, the pass stays within the
// lifecycle's steps, so what holds of every reachable world holds of this code.

module FeedbackController {
  import opened Interference
  import opened Options
  import opened Providers
  import opened Lifecycle
  import opened FinalizerInvariants
  import opened LifecycleTheorems

  /** What a pass meets: the replies to its calls, and what others try to do before each of its writes. The save
      counts as Done when nothing has changed and no call is made. */
  datatype FeedbackInput = FeedbackInput(fetchFails: bool, update: CallReply, save: CallReply, drop: CallReply,
                                         beforeUpdate: seq<Step>, beforeSave: seq<Step>, beforeDrop: seq<Step>)

  /** On a reachable world a matching version means that what was read is the current CR. */
  lemma ReadIsCurrentReachable(cfg: Config, w: World)
    requires cfg.maxJobHistory >= 1 && Reachable(cfg, w)
    ensures VersionInv(w)
    ensures !w.feedback.Idle? && Unchanged(w, w.feedback.v) ==> w.past[w.feedback.v] == w.cr.value
  {
    ReachableInv(cfg, w);
    if !w.feedback.Idle? && Unchanged(w, w.feedback.v) {
      ReadIsCurrent(w);
    }
  }

  /** No call fails and nobody else acts during the pass. */
  predicate Undisturbed(input: FeedbackInput) {
    && !input.fetchFails && input.update.Done? && input.save.Done? && input.drop.Done?
    && input.beforeUpdate == input.beforeSave == input.beforeDrop == []
  }

  predicate Alone(input: FeedbackInput) { input.beforeUpdate == input.beforeSave == input.beforeDrop == [] }

  /** One of the calls a pass makes over the version it has read gets an error reply. */
  predicate Trouble(read: Cr, input: FeedbackInput) {
    if !read.labelled then read.deleting && Feedback in read.finalizers && !input.drop.Done?
    else
      || input.fetchFails
      || (!read.deleting && Feedback !in read.finalizers && !input.update.Done?)
      || SaveTrouble(read, input)
  }

  predicate SaveTrouble(read: Cr, input: FeedbackInput) {
    !input.save.Done? || (LastFinalizer(read) && !input.drop.Done?)
  }

  /** What a pass without an error has done for the version it has read: the phase is on record, the CR is gone if the
      feedback finalizer was its last, and a CR being deleted without the label does not hold that finalizer. */
  predicate Accomplished(read: Cr, before: World, after: World) {
    && (read.labelled ==> after.record == SyncPhase(before.record, read.status.phase))
    && (read.labelled && LastFinalizer(read) ==> after.cr.None?)
    && (!read.labelled && read.deleting && Feedback in read.finalizers ==>
          after.cr.None? || Feedback !in after.cr.value.finalizers)
  }

  /** What an undisturbed pass over the current CR achieves: a CR that is not being deleted holds the feedback
      finalizer; one being deleted ends if that finalizer is its last; without the label it just loses it. */
  predicate Achieves(cr: Cr, result: Option<Cr>) {
    if !cr.labelled && cr.deleting then result.None? || Feedback !in result.value.finalizers
    else if cr.labelled && !cr.deleting then result.Some? && result.value.finalizers == cr.finalizers + {Feedback}
    else if cr.labelled && cr.finalizers == {Feedback} then result.None?
    else result == Some(cr)
  }

  /** The world after a finalizer write by the feedback controller and the end of its pass. */
  function AfterDrop(w: World): World
    requires w.feedback.HasRead? || w.feedback.HasSaved?
    requires w.feedback.v < |w.past|
  {
    var v := w.feedback.v;
    var dropped := if Unchanged(w, v) then SetFinalizers(w, w.past[v].finalizers - {Feedback}) else w;
    dropped.(feedback := Idle)
  }

  lemma DropIsAStep(cfg: Config, w: World, s: Step)
    requires cfg.maxJobHistory >= 1 && Reachable(cfg, w) && Legal(cfg, w, s)
    requires s.FeedbackRemoveFinalizer? || s.FeedbackDropUnlabelled?
    ensures Reachable(cfg, AfterDrop(w)) && Later(w, AfterDrop(w)) && AfterDrop(w).record == w.record
  {
    NextReachable(cfg, w, s);
    ReadIsCurrentReachable(cfg, w);
    StepIsLater(cfg, w, s);
    assert Next(cfg, w, s) == AfterDrop(w);
  }

  /** Dropping the last finalizer of a current CR that is being deleted ends it. */
  lemma DropEnds(w: World)
    requires !w.feedback.Idle? && w.feedback.v < |w.past| && Unchanged(w, w.feedback.v)
    requires w.past[w.feedback.v] == w.cr.value && LastFinalizer(w.cr.value)
    ensures AfterDrop(w).cr.None?
  {
    assert {Feedback} - {Feedback} == {};
  }

  /** The hub cluster and the fulfillment service. */
  class Hub {
    const cfg: Config
    var world: World

    constructor (cfg: Config, w: World)
      ensures this.cfg == cfg && world == w
    {
      this.cfg, world := cfg, w;
    }

    /** A write of the finalizers of the version that was read; it is stored only if that version is current. */
    method Update(version: nat, finalizers: set<Finalizer>, reply: CallReply) returns (failed: bool)
      modifies this
      ensures world == if !reply.Refused? && Unchanged(old(world), version) then SetFinalizers(old(world), finalizers)
                       else old(world)
      ensures failed <==> !reply.Done? || !Unchanged(old(world), version)
    {
      failed := !reply.Done?;
      if !reply.Refused? {
        if world.cr.Some? && world.cr.value.version == version {
          world := SetFinalizers(world, finalizers);
        } else {
          failed := true;
        }
      } else if world.cr.None? || world.cr.value.version != version {
        failed := true;
      }
    }

    method Save(phase: Phase, reply: CallReply) returns (failed: bool)
      modifies this
      ensures world == if reply.Refused? then old(world) else old(world).(record := SyncPhase(old(world).record, phase))
      ensures failed <==> !reply.Done?
    {
      if !reply.Refused? {
        world := world.(record := SyncPhase(world.record, phase));
      }
      failed := !reply.Done?;
    }

    method OthersAct(moves: seq<Step>)
      requires Reachable(cfg, world)
      modifies this
      ensures world == Interfere(cfg, Actor.FeedbackController, old(world), moves)
      ensures Reachable(cfg, world) && Later(old(world), world)
      ensures world.feedback == old(world).feedback && world.record == old(world).record
    {
      InterferenceIsHarmless(cfg, Actor.FeedbackController, world, moves);
      world := Interfere(cfg, Actor.FeedbackController, world, moves);
    }

    /** Where the pass stands; only the model looks at it. */
    method MoveTo(task: FeedbackTask)
      modifies this
      ensures world == old(world).(feedback := task)
    {
      world := world.(feedback := task);
    }

    method Leave()
      requires Reachable(cfg, world)
      modifies this
      ensures world == old(world).(feedback := Idle) && Reachable(cfg, world)
    {
      NextReachable(cfg, world, FeedbackAbort);
      MoveTo(Idle);
    }

    /** One pass over version v. Under any interference and any failures it stays within the lifecycle's steps, and
        the record is either left alone or takes over the phase of what the pass has read. */
    method Reconcile(v: nat, input: FeedbackInput) returns (failed: bool)
      requires cfg.maxJobHistory >= 1 && Reachable(cfg, world) && world.feedback.Idle? && v < |world.past|
      modifies this
      ensures Reachable(cfg, world) && world.feedback.Idle?
      ensures var read := old(world).past[v];
              var synced := SyncPhase(old(world).record, read.status.phase);
              && (world.record == old(world).record || world.record == synced)
              && (!read.labelled || input.fetchFails || input.save.Refused? ==> world.record == old(world).record)
              && (read.labelled && (read.deleting || Feedback in read.finalizers) && !input.fetchFails ==>
                    input.save.Refused? || world.record == synced)
      ensures Undisturbed(input) && Unchanged(old(world), v) ==> Achieves(old(world).cr.value, world.cr)
      ensures Trouble(old(world).past[v], input) ==> failed
      ensures Alone(input) && Unchanged(old(world), v) && !Trouble(old(world).past[v], input) ==> !failed
      ensures !failed ==> Accomplished(old(world).past[v], old(world), world)
    {
      var ci := Fetch(v, input);
      if !ci.labelled {
        failed := false;
        if ci.deleting && Feedback in ci.finalizers {
          failed := DropUnlabelled(v, ci, input);
        }
        Leave();
      } else if input.fetchFails {
        Leave();
        failed := true;
      } else {
        failed := ReconcileLabelled(v, ci, input);
      }
    }

    method Fetch(v: nat, input: FeedbackInput) returns (ci: Cr)
      requires cfg.maxJobHistory >= 1 && Reachable(cfg, world) && world.feedback.Idle? && v < |world.past|
      modifies this
      ensures HasFetched(ci) && ci == old(world).past[v] && ci.version == v && world.record == old(world).record
      ensures input.beforeUpdate == [] ==> world.cr == old(world).cr
      ensures Unchanged(old(world), v) ==> old(world).cr.value == ci
    {
      ReadIsCurrentReachable(cfg, world);
      ci := world.past[v];
      NextReachable(cfg, world, FeedbackRead(v));
      MoveTo(HasRead(v));
      ReadIsCurrentReachable(cfg, world);
      OthersAct(input.beforeUpdate);
    }

    method ReconcileLabelled(v: nat, fetched: Cr, input: FeedbackInput) returns (failed: bool)
      requires cfg.maxJobHistory >= 1 && HasFetched(fetched) && fetched.version == v && fetched.labelled
      modifies this
      ensures Reachable(cfg, world) && world.feedback.Idle?
      ensures var synced := SyncPhase(old(world).record, fetched.status.phase);
              && (world.record == old(world).record || world.record == synced)
              && (input.save.Refused? ==> world.record == old(world).record)
              && (fetched.deleting || Feedback in fetched.finalizers ==> input.save.Refused? || world.record == synced)
      ensures Undisturbed(input) && old(world).cr == Some(fetched) ==> Achieves(fetched, world.cr)
      ensures !input.fetchFails && Trouble(fetched, input) ==> failed
      ensures Alone(input) && Unchanged(old(world), v) && !Trouble(fetched, input) ==> !failed
      ensures !failed ==> Accomplished(fetched, old(world), world)
    {
      var ci := fetched;
      if !ci.deleting && Feedback !in ci.finalizers {
        failed, ci := AddFinalizer(v, ci, input);
        if failed {
          Leave();
          return;
        }
      }
      failed := SaveAndRelease(ci, input);
    }

    method DropUnlabelled(v: nat, ci: Cr, input: FeedbackInput) returns (failed: bool)
      requires cfg.maxJobHistory >= 1 && HasFetched(ci) && ci.version == v
      requires !ci.labelled && ci.deleting && Feedback in ci.finalizers
      modifies this
      ensures Reachable(cfg, world) && world.record == old(world).record
      ensures failed <==> !input.drop.Done? || !Unchanged(old(world), v)
      ensures !failed ==> world.cr.None? || Feedback !in world.cr.value.finalizers
    {
      ghost var before := world;
      if !input.drop.Refused? {
        DropIsAStep(cfg, world, FeedbackDropUnlabelled);
      }
      failed := Update(v, ci.finalizers - {Feedback}, input.drop);
      if !input.drop.Refused? {
        MoveTo(Idle);
        assert world == AfterDrop(before);
      }
    }

    /** The update's reply is the new version; without one the pass goes no further. */
    method AddFinalizer(v: nat, ci: Cr, input: FeedbackInput) returns (failed: bool, updated: Cr)
      requires cfg.maxJobHistory >= 1 && HasFetched(ci) && ci.version == v
      requires ci.labelled && !ci.deleting && Feedback !in ci.finalizers
      modifies this
      ensures Reachable(cfg, world) && world.record == old(world).record
      ensures !failed ==> HasFetched(updated) && updated.status == ci.status
                          && updated.labelled && !updated.deleting && Feedback in updated.finalizers
      ensures failed <==> !input.update.Done? || !Unchanged(old(world), v)
      ensures !failed ==> world.cr == Some(updated) && updated.finalizers == ci.finalizers + {Feedback}
    {
      var matches, newest := world.cr.Some? && world.cr.value.version == v, |world.past|;
      updated := ci;
      if !input.update.Refused? {
        NextReachable(cfg, world, FeedbackAddFinalizer);
        ReadIsCurrentReachable(cfg, world);
      }
      failed := Update(v, ci.finalizers + {Feedback}, input.update);
      if !failed {
        updated := world.cr.value;
        MoveTo(HasRead(updated.version));
      } else if !input.update.Refused? {
        MoveTo(if matches then HasRead(newest) else Idle);
      }
    }

    /** First save, then, if the feedback finalizer is the last one on a CR being deleted, drop it. */
    method SaveAndRelease(ci: Cr, input: FeedbackInput) returns (failed: bool)
      requires cfg.maxJobHistory >= 1 && HasFetched(ci)
      requires ci.labelled && (ci.deleting || Feedback in ci.finalizers)
      modifies this
      ensures Reachable(cfg, world) && world.feedback.Idle?
      ensures ci in world.past
      ensures world.record == if input.save.Refused? then old(world).record
                              else SyncPhase(old(world).record, ci.status.phase)
      ensures Undisturbed(input) && Unchanged(old(world), ci.version) ==>
                world.cr == if ci.deleting && ci.finalizers == {Feedback} then None else old(world).cr
      ensures SaveTrouble(ci, input) ==> failed
      ensures Alone(input) && Unchanged(old(world), ci.version) && !SaveTrouble(ci, input) ==> !failed
      ensures !failed && LastFinalizer(ci) ==> world.cr.None?
    {
      OthersAct(input.beforeSave);
      assert world.past[ci.version] == ci;
      var last := ci.deleting && ci.finalizers == {Feedback};
      failed := SavePhase(ci, last, input);
      if !failed && last {
        failed := ReleaseLast(ci, input);
      }
      assert world.past[ci.version] == ci;
      Leave();
    }

    /** The pass has read version ci and stands before its save. */
    ghost predicate HasFetched(ci: Cr)
      reads this
    {
      && Reachable(cfg, world) && world.feedback == HasRead(ci.version)
      && ci.version < |world.past| && world.past[ci.version] == ci
    }

    method SavePhase(ci: Cr, last: bool, input: FeedbackInput) returns (failed: bool)
      requires HasFetched(ci) && ci.labelled && (ci.deleting || Feedback in ci.finalizers)
      requires last <==> LastFinalizer(ci)
      modifies this
      ensures Reachable(cfg, world) && world.past == old(world).past && world.cr == old(world).cr
      ensures world.record == if input.save.Refused? then old(world).record
                              else SyncPhase(old(world).record, ci.status.phase)
      ensures failed <==> !input.save.Done?
      ensures !failed && last ==> world.feedback == HasSaved(ci.version)
    {
      if !input.save.Refused? {
        NextReachable(cfg, world, FeedbackSave);
      }
      failed := Save(ci.status.phase, input.save);
      if !input.save.Refused? {
        MoveTo(if last then HasSaved(ci.version) else Idle);
      }
    }

    method ReleaseLast(ci: Cr, input: FeedbackInput) returns (failed: bool)
      requires cfg.maxJobHistory >= 1 && Reachable(cfg, world)
      requires ci.version < |world.past| && world.past[ci.version] == ci
      requires world.feedback == HasSaved(ci.version)
      modifies this
      ensures Reachable(cfg, world) && Later(old(world), world) && world.record == old(world).record
      ensures !input.drop.Done? ==> failed
      ensures input.drop.Done? && input.beforeDrop == [] && Unchanged(old(world), ci.version) ==> !failed
      ensures !failed && LastFinalizer(ci) ==> world.cr.None?
    {
      OthersAct(input.beforeDrop);
      assert world.past[ci.version] == ci;
      failed := DropLast(ci, input);
    }

    method DropLast(ci: Cr, input: FeedbackInput) returns (failed: bool)
      requires cfg.maxJobHistory >= 1 && Reachable(cfg, world)
      requires ci.version < |world.past| && world.past[ci.version] == ci
      requires world.feedback == HasSaved(ci.version)
      modifies this
      ensures Reachable(cfg, world) && Later(old(world), world) && world.record == old(world).record
      ensures failed <==> !input.drop.Done? || !Unchanged(old(world), ci.version)
      ensures !failed && LastFinalizer(ci) ==> world.cr.None?
    {
      ghost var before := world;
      if !input.drop.Refused? {
        DropIsAStep(cfg, world, FeedbackRemoveFinalizer);
      }
      failed := Update(ci.version, ci.finalizers - {Feedback}, input.drop);
      if !input.drop.Refused? {
        MoveTo(Idle);
        assert world == AfterDrop(before);
        ReadIsCurrentReachable(cfg, before);
        if Unchanged(before, ci.version) && LastFinalizer(ci) {
          DropEnds(before);
        }
      }
    }
  }
}
