// The restart machine: a restart request is carried out by deleting the VirtualMachineInstance (VMI) and is
// complete when a VMI created after the request is seen.

module Restart {
  import opened Options

  datatype Condition = RestartInProgress | RestartFailed

  datatype Vmi = Vmi(created: int, terminating: bool)

  /** requested is spec.restartRequestedAt, last is status.lastRestartedAt; conditions holds those that are true. */
  datatype State = State(requested: Option<int>, last: Option<int>, conditions: set<Condition>,
                         hasReference: bool, vmi: Option<Vmi>)

  datatype DeleteReply = DeleteAccepted | DeleteNotFound | DeleteRejected

  datatype Faults = Faults(getFails: bool, delete: DeleteReply)

  /** state afterwards, whether the pass returned an error, and whether a VMI deletion was accepted. */
  datatype Outcome = Outcome(state: State, failed: bool, deleted: bool)

  // ---------- the pass ----------

  function Set(s: State, c: Condition): State { s.(conditions := s.conditions + {c}) }

  function ClearRestartConditions(s: State): State {
    s.(conditions := s.conditions - {RestartInProgress, RestartFailed})
  }

  function PerformRestart(s: State, f: Faults): Outcome {
    if !s.hasReference then Outcome(Set(s, RestartFailed), false, false)
    else if f.getFails then Outcome(s, true, false)
    else if s.vmi.None? then Outcome(Set(s, RestartInProgress), false, false)
    else
      match f.delete
      case DeleteRejected => Outcome(Set(s, RestartFailed), true, false)
      case DeleteNotFound =>
        Outcome(s.(conditions := s.conditions + {RestartInProgress} - {RestartFailed}, vmi := None), false, false)
      case DeleteAccepted =>
        Outcome(s.(conditions := s.conditions + {RestartInProgress} - {RestartFailed},
                   vmi := Some(s.vmi.value.(terminating := true))), false, true)
  }

  function CheckRestartCompletion(s: State, f: Faults): Outcome
    requires s.requested.Some?
  {
    if !s.hasReference then Outcome(s, false, false)
    else if f.getFails then Outcome(s, true, false)
    else if s.vmi.Some? && s.vmi.value.created > s.requested.value then
      Outcome(ClearRestartConditions(s).(last := s.requested), false, false)
    else Outcome(s, false, false)
  }

  function HandleRestartRequest(s: State, f: Faults): Outcome {
    if s.requested.None? then Outcome(ClearRestartConditions(s), false, false)
    else if RestartInProgress in s.conditions then CheckRestartCompletion(s, f)
    else if s.last.Some? && s.requested.value <= s.last.value then Outcome(s, false, false)
    else PerformRestart(s, f)
  }

  /** A request newer than the last restart, with no restart in progress. */
  predicate IsNew(s: State) {
    && s.requested.Some? && RestartInProgress !in s.conditions
    && (s.last.Some? ==> s.requested.value > s.last.value)
  }

  /** The pass can see the VMI, or that there is none. */
  predicate Looks(s: State, f: Faults) { s.hasReference && !f.getFails }

  /** A restart in progress whose VMI was created after the request. */
  predicate IsDone(s: State, f: Faults) {
    && s.requested.Some? && RestartInProgress in s.conditions
    && Looks(s, f) && s.vmi.Some? && s.vmi.value.created > s.requested.value
  }

  /** A pass, by what it leaves: when a restart is in progress afterwards, when it counts as failed, when a VMI is
      deleted, when the pass reports an error, and what becomes of VMI and last restart. */
  lemma PassMeans(s: State, f: Faults)
    ensures var o := HandleRestartRequest(s, f);
            && (RestartInProgress in o.state.conditions <==>
                  || (s.requested.Some? && RestartInProgress in s.conditions && !IsDone(s, f))
                  || (IsNew(s) && Looks(s, f) && (s.vmi.None? || f.delete != DeleteRejected)))
            && (RestartFailed in o.state.conditions <==>
                  || (IsNew(s) && (!s.hasReference || (Looks(s, f) && s.vmi.Some? && f.delete == DeleteRejected)))
                  || (RestartFailed in s.conditions && s.requested.Some? && !IsDone(s, f)
                      && !(IsNew(s) && Looks(s, f) && s.vmi.Some?)))
            && (o.deleted <==> IsNew(s) && Looks(s, f) && s.vmi.Some? && f.delete == DeleteAccepted)
            && (o.failed <==>
                  || (s.requested.Some? && s.hasReference && f.getFails
                      && (RestartInProgress in s.conditions || IsNew(s)))
                  || (IsNew(s) && Looks(s, f) && s.vmi.Some? && f.delete == DeleteRejected))
            && o.state.vmi == (if o.deleted then Some(Vmi(s.vmi.value.created, true))
                               else if IsNew(s) && Looks(s, f) && f.delete == DeleteNotFound then None
                               else s.vmi)
            && o.state.last == (if IsDone(s, f) then s.requested else s.last)
            && o.state.requested == s.requested && o.state.hasReference == s.hasReference
  {
  }

  // ---------- the controller's objects ----------

  class Cluster {
    var vmi: Option<Vmi>

    constructor (vmi: Option<Vmi>)
      ensures this.vmi == vmi
    {
      this.vmi := vmi;
    }
  }

  class ComputeInstance {
    var requested: Option<int>
    var last: Option<int>
    var conditions: set<Condition>
    var hasReference: bool
    const cluster: Cluster

    constructor (s: State, cluster: Cluster)
      requires cluster.vmi == s.vmi
      ensures this.cluster == cluster && View() == s
    {
      requested, last, conditions, hasReference := s.requested, s.last, s.conditions, s.hasReference;
      this.cluster := cluster;
    }

    function View(): State
      reads this, cluster
    {
      State(requested, last, conditions, hasReference, cluster.vmi)
    }

    method SetCondition(c: Condition)
      modifies this`conditions
      ensures conditions == old(conditions) + {c}
    {
      conditions := conditions + {c};
    }

    method RemoveCondition(c: Condition)
      modifies this`conditions
      ensures conditions == old(conditions) - {c}
    {
      conditions := conditions - {c};
    }

    method ClearConditions()
      modifies this`conditions
      ensures conditions == old(conditions) - {RestartInProgress, RestartFailed}
    {
      RemoveCondition(RestartInProgress);
      RemoveCondition(RestartFailed);
    }

    method Perform(f: Faults) returns (failed: bool, deleted: bool)
      modifies this, cluster
      ensures Outcome(View(), failed, deleted) == PerformRestart(old(View()), f)
    {
      failed, deleted := false, false;
      if !hasReference {
        SetCondition(RestartFailed);
        return;
      }
      if f.getFails {
        return true, false;
      }
      if cluster.vmi.None? {
        SetCondition(RestartInProgress);
        return;
      }
      match f.delete {
        case DeleteRejected =>
          SetCondition(RestartFailed);
          return true, false;
        case DeleteNotFound =>
          cluster.vmi := None;
        case DeleteAccepted =>
          cluster.vmi := Some(cluster.vmi.value.(terminating := true));
          deleted := true;
      }
      SetCondition(RestartInProgress);
      RemoveCondition(RestartFailed);
    }

    method CheckCompletion(f: Faults) returns (failed: bool)
      requires requested.Some?
      modifies this
      ensures Outcome(View(), failed, false) == CheckRestartCompletion(old(View()), f)
    {
      failed := false;
      if !hasReference {
        return;
      }
      if f.getFails {
        return true;
      }
      if cluster.vmi.None? {
        return;
      }
      if cluster.vmi.value.created > requested.value {
        last := requested;
        ClearConditions();
      }
    }

    method HandleRequest(f: Faults) returns (failed: bool, deleted: bool)
      modifies this, cluster
      ensures Outcome(View(), failed, deleted) == HandleRestartRequest(old(View()), f)
    {
      failed, deleted := false, false;
      if requested.None? {
        ClearConditions();
        return;
      }
      if RestartInProgress in conditions {
        failed := CheckCompletion(f);
        return;
      }
      if last.Some? && requested.value <= last.value {
        return;
      }
      failed, deleted := Perform(f);
    }
  }

  // ---------- runs ----------

  /** A lost pass acts on the cluster, but its status write fails, so its conditions and times are not stored. */
  datatype Step =
    | Pass(faults: Faults)
    | LostPass(faults: Faults)
    | VmiCreated(time: int)
    | VmiTerminated
    | Request(at: Option<int>)
    | ReferenceChanged(present: bool)

  predicate Legal(s: State, step: Step) {
    match step
    case VmiCreated(_) => s.vmi.None?
    case _ => true
  }

  function Next(s: State, step: Step): State {
    match step
    case Pass(f) => HandleRestartRequest(s, f).state
    case LostPass(f) => s.(vmi := HandleRestartRequest(s, f).state.vmi)
    case VmiCreated(t) => s.(vmi := Some(Vmi(t, false)))
    case VmiTerminated => s.(vmi := None)
    case Request(at) => s.(requested := at)
    case ReferenceChanged(p) => s.(hasReference := p)
  }

  predicate LegalRun(s: State, steps: seq<Step>)
    decreases |steps|, 0
  {
    steps == [] || (LegalRun(s, steps[..|steps| - 1]) && Legal(Run(s, steps[..|steps| - 1]), steps[|steps| - 1]))
  }

  function Run(s: State, steps: seq<Step>): State
    decreases |steps|, 1
  {
    if steps == [] then s else Next(Run(s, steps[..|steps| - 1]), steps[|steps| - 1])
  }

  const Fresh := State(None, None, {}, false, None)

  // ---------- conservation ----------

  predicate DeletesVmi(s: State, step: Step) {
    (step.Pass? || step.LostPass?) && HandleRestartRequest(s, step.faults).deleted
  }

  predicate Begins(s: State, step: Step) {
    step.Pass? && RestartInProgress !in s.conditions && RestartInProgress in Next(s, step).conditions
  }

  /** The pass found a VMI newer than the request of the restart in progress. */
  predicate Completes(s: State, step: Step) {
    && step.Pass? && s.requested.Some? && RestartInProgress in s.conditions
    && s.hasReference && !step.faults.getFails
    && s.vmi.Some? && s.vmi.value.created > s.requested.value
  }

  /** The pass found the request of a restart in progress withdrawn. */
  predicate Withdraws(s: State, step: Step) {
    step.Pass? && s.requested.None? && RestartInProgress in s.conditions
  }

  /** lost: the VMI deletions whose pass lost its status write. */
  datatype Tally = Tally(deleted: nat, lost: nat, begun: nat, completed: nat, withdrawn: nat)

  function One(b: bool): nat { if b then 1 else 0 }

  function Count(s: State, steps: seq<Step>): Tally {
    if steps == [] then Tally(0, 0, 0, 0, 0)
    else
      var front, step := steps[..|steps| - 1], steps[|steps| - 1];
      var t, at := Count(s, front), Run(s, front);
      Tally(t.deleted + One(DeletesVmi(at, step)), t.lost + One(step.LostPass? && DeletesVmi(at, step)),
            t.begun + One(Begins(at, step)),
            t.completed + One(Completes(at, step)), t.withdrawn + One(Withdraws(at, step)))
  }

  lemma StepBalance(s: State, step: Step)
    ensures DeletesVmi(s, step) ==> step.LostPass? || Begins(s, step)
    ensures One(RestartInProgress in s.conditions) + One(Begins(s, step))
         == One(RestartInProgress in Next(s, step).conditions) + One(Completes(s, step)) + One(Withdraws(s, step))
  {
  }

  /** Every restart begun is completed, withdrawn or in progress; every accepted VMI deletion belongs to a restart
      begun in the same pass or to a pass that lost its status write. */
  lemma {:induction false} RestartsAreConserved(steps: seq<Step>)
    ensures var t := Count(Fresh, steps);
            && t.begun == t.completed + t.withdrawn + One(RestartInProgress in Run(Fresh, steps).conditions)
            && t.deleted <= t.begun + t.lost
  {
    if steps == [] {
    } else {
      var front := steps[..|steps| - 1];
      RestartsAreConserved(front);
      StepBalance(Run(Fresh, front), steps[|steps| - 1]);
    }
  }

  // ---------- one deletion per request ----------

  predicate Handled(s: State) {
    && s.requested.Some?
    && (RestartInProgress in s.conditions || (s.last.Some? && s.requested.value <= s.last.value))
  }

  /** While the request stays the same, at most one accepted VMI deletion is not accounted for by a lost status
      write, from any state at all. */
  lemma {:induction false} OneDeletionPerRequest(s: State, steps: seq<Step>)
    requires s.requested.Some?
    requires forall step :: step in steps ==> !step.Request?
    ensures Run(s, steps).requested == s.requested
    ensures Count(s, steps).deleted <= 1 + Count(s, steps).lost
    ensures Count(s, steps).deleted > Count(s, steps).lost ==> Handled(Run(s, steps))
  {
    if steps == [] {
    } else {
      var front, step := steps[..|steps| - 1], steps[|steps| - 1];
      assert step in steps && forall x :: x in front ==> x in steps;
      OneDeletionPerRequest(s, front);
      DeletionHandles(Run(s, front), step);
    }
  }

  /** A handled request stays handled and deletes nothing; a deletion handles it unless its status write is lost. */
  lemma DeletionHandles(s: State, step: Step)
    requires !step.Request?
    ensures Handled(s) ==> !DeletesVmi(s, step) && Handled(Next(s, step))
    ensures DeletesVmi(s, step) && !step.LostPass? ==> Handled(Next(s, step))
  {
  }

  /** reliable: no pass of the stretch loses its status write. */
  ghost predicate OneDeletion(reliable: bool) {
    forall before, steps :: LegalRun(Fresh, before) && OneRequest(reliable, Run(Fresh, before), steps) ==>
      Count(Run(Fresh, before), steps).deleted <= 1
  }

  /** A legal run in which one request stands throughout. */
  predicate OneRequest(reliable: bool, s: State, steps: seq<Step>) {
    && s.requested.Some? && LegalRun(s, steps)
    && forall step :: step in steps ==> !step.Request? && (reliable ==> !step.LostPass?)
  }

  lemma {:induction false} NothingLost(s: State, steps: seq<Step>)
    requires forall step :: step in steps ==> !step.LostPass?
    ensures Count(s, steps).lost == 0
  {
    if steps == [] {
    } else {
      assert forall x :: x in steps[..|steps| - 1] ==> x in steps;
      NothingLost(s, steps[..|steps| - 1]);
      assert steps[|steps| - 1] in steps;
    }
  }

  lemma Extends(s: State, steps: seq<Step>, step: Step)
    requires LegalRun(s, steps) && Legal(Run(s, steps), step)
    ensures LegalRun(s, steps + [step]) && Run(s, steps + [step]) == Next(Run(s, steps), step)
    ensures Count(s, steps + [step]).deleted == Count(s, steps).deleted + One(DeletesVmi(Run(s, steps), step))
  {
    assert (steps + [step])[..|steps|] == steps;
  }

  lemma Then(steps: seq<Step>, step: Step) returns (all: seq<Step>)
    requires LegalRun(Fresh, steps) && Legal(Run(Fresh, steps), step)
    ensures LegalRun(Fresh, all) && Run(Fresh, all) == Next(Run(Fresh, steps), step)
  {
    Extends(Fresh, steps, step);
    all := steps + [step];
  }

  lemma OneRequestExtends(s: State, steps: seq<Step>, step: Step) returns (all: seq<Step>)
    requires OneRequest(false, s, steps) && Legal(Run(s, steps), step) && !step.Request?
    ensures all == steps + [step] && OneRequest(false, s, all) && Run(s, all) == Next(Run(s, steps), step)
    ensures Count(s, all).deleted == Count(s, steps).deleted + One(DeletesVmi(Run(s, steps), step))
  {
    Extends(s, steps, step);
    all := steps + [step];
  }

  /** A request at 5 for a VMI created at 1. */
  const Requested := State(Some(5), None, {}, true, Some(Vmi(1, false)))

  lemma RequestedIsReachable() returns (steps: seq<Step>)
    ensures LegalRun(Fresh, steps) && Run(Fresh, steps) == Requested
  {
    steps := [];
    steps := Then(steps, ReferenceChanged(true));
    steps := Then(steps, VmiCreated(1));
    steps := Then(steps, Request(Some(5)));
  }

  /** The deletion whose status write is lost is repeated on the recreated VMI, although that one is newer than the
      request. */
  lemma LostWriteDeletesTwice() returns (steps: seq<Step>)
    ensures OneRequest(false, Requested, steps) && Count(Requested, steps).deleted == 2
  {
    var f := Faults(false, DeleteAccepted);
    steps := OneRequestExtends(Requested, [], LostPass(f));
    assert Run(Requested, steps) == Requested.(vmi := Some(Vmi(1, true)));
    steps := OneRequestExtends(Requested, steps, VmiTerminated);
    steps := OneRequestExtends(Requested, steps, VmiCreated(9));
    assert Run(Requested, steps) == Requested.(vmi := Some(Vmi(9, false)));
    steps := OneRequestExtends(Requested, steps, Pass(f));
  }

  /** Exactly when one request never deletes two VMIs: when no status write is lost. */
  lemma OneDeletionExactlyWhen(reliable: bool)
    ensures OneDeletion(reliable) <==> reliable
  {
    if reliable {
      forall before, steps | LegalRun(Fresh, before) && OneRequest(true, Run(Fresh, before), steps)
        ensures Count(Run(Fresh, before), steps).deleted <= 1
      {
        OneDeletionPerRequest(Run(Fresh, before), steps);
        NothingLost(Run(Fresh, before), steps);
      }
    } else {
      var before := RequestedIsReachable();
      var steps := LostWriteDeletesTwice();
      assert OneRequest(false, Run(Fresh, before), steps);
    }
  }

  // ---------- what a completion has seen ----------

  /** The steps are passes only: nobody terminates or creates a VMI, changes the request or the reference. */
  predicate PassesOnly(steps: seq<Step>) {
    forall step :: step in steps ==> step.Pass? || step.LostPass?
  }

  predicate Checks(step: Step) { step.Pass? && !step.faults.getFails }

  /** The restart declared complete. */
  function Done(s: State): State {
    ClearRestartConditions(s).(last := s.requested)
  }

  /** What a deletion leaves for the next pass: a restart in progress, and the deleted VMI still terminating. */
  lemma AfterDeletion(s: State, f: Faults)
    requires DeletesVmi(s, Pass(f))
    ensures var t := Next(s, Pass(f));
            && t.requested == s.requested && t.requested.Some? && t.hasReference && RestartInProgress in t.conditions
            && t.vmi == Some(s.vmi.value.(terminating := true))
  {
  }

  lemma PassAfterDeletion(t: State, step: Step)
    requires t.requested.Some? && t.hasReference && RestartInProgress in t.conditions && t.vmi.Some?
    requires step.Pass? || step.LostPass?
    ensures Next(t, step) == if t.vmi.value.created > t.requested.value && Checks(step) then Done(t) else t
    ensures Next(Done(t), step) == Done(t)
  {
  }

  /** While the restart is still in progress and the deleted VMI still there: whatever else happens, requests and
      references changing included. */
  predicate Waits(t: State, steps: seq<Step>) {
    && LegalRun(t, steps)
    && (forall step :: step in steps ==> !step.VmiTerminated?)
    && (forall n: nat :: n <= |steps| ==> InProgressAfter(t, steps, n))
  }

  predicate InProgressAfter(t: State, steps: seq<Step>, n: nat)
    requires n <= |steps|
  {
    RestartInProgress in Run(t, steps[..n]).conditions
  }

  lemma {:induction false} WaitingKeepsDeletedVmi(t: State, steps: seq<Step>)
    requires t.vmi.Some? && Waits(t, steps)
    ensures Run(t, steps).vmi == t.vmi && Run(t, steps).last == t.last && RestartInProgress in Run(t, steps).conditions
  {
    assert steps[..|steps|] == steps && InProgressAfter(t, steps, |steps|);
    if steps == [] {
    } else {
      var front, step := steps[..|steps| - 1], steps[|steps| - 1];
      assert step in steps && forall x :: x in front ==> x in steps;
      forall n: nat | n <= |front| ensures InProgressAfter(t, front, n) {
        assert front[..n] == steps[..n] && InProgressAfter(t, steps, n);
      }
      WaitingKeepsDeletedVmi(t, front);
    }
  }

  /** Exactly when the next step declares the restart complete on the very VMI it deleted: a stored pass that can look
      at it, when that VMI was created after the request that stands by then. */
  lemma CompletesOnDeletedVmiExactlyWhen(s: State, f: Faults, steps: seq<Step>, step: Step)
    requires DeletesVmi(s, Pass(f)) && Waits(Next(s, Pass(f)), steps)
    ensures var u := Run(Next(s, Pass(f)), steps);
            && u.vmi == Some(s.vmi.value.(terminating := true))
            && (Completes(u, step) <==>
                  Checks(step) && u.hasReference && u.requested.Some? && s.vmi.value.created > u.requested.value)
            && (Completes(u, step) ==> Next(u, step) == Done(u))
  {
    AfterDeletion(s, f);
    WaitingKeepsDeletedVmi(Next(s, Pass(f)), steps);
  }

  /** When only passes follow the deletion, the whole outcome: complete if the VMI was created after the request and a
      pass got to look at it, and unchanged otherwise. */
  lemma {:induction false} PassesOnDeletedVmi(s: State, f: Faults, steps: seq<Step>)
    requires DeletesVmi(s, Pass(f)) && PassesOnly(steps)
    ensures var t := Next(s, Pass(f));
            && t.vmi == Some(s.vmi.value.(terminating := true))
            && Run(t, steps) == if s.vmi.value.created > s.requested.value && Checked(steps) then Done(t) else t
  {
    var t := Next(s, Pass(f));
    AfterDeletion(s, f);
    if steps == [] {
    } else {
      var front, step := steps[..|steps| - 1], steps[|steps| - 1];
      PassesOnDeletedVmi(s, f, front);
      assert step in steps;
      PassAfterDeletion(t, step);
      CheckedExtends(steps);
    }
  }

  predicate Checked(steps: seq<Step>) {
    exists step :: step in steps && Checks(step)
  }

  lemma CheckedExtends(steps: seq<Step>)
    requires steps != []
    ensures Checked(steps) <==> Checked(steps[..|steps| - 1]) || Checks(steps[|steps| - 1])
  {
    assert steps == steps[..|steps| - 1] + [steps[|steps| - 1]];
  }

  /** A run from the start in which the restart of a VMI created at 6, requested at 5, completes on that VMI. */
  lemma CompletesOnDeletedVmi() returns (steps: seq<Step>)
    ensures LegalRun(Fresh, steps)
    ensures Run(Fresh, steps) == State(Some(5), Some(5), {}, true, Some(Vmi(6, true)))
  {
    var pass := Pass(Faults(false, DeleteAccepted));
    steps := [];
    steps := Then(steps, ReferenceChanged(true));
    steps := Then(steps, VmiCreated(6));
    steps := Then(steps, Request(Some(5)));
    steps := Then(steps, pass);
    steps := Then(steps, pass);
  }

  // ---------- lastRestartedAt ----------

  /** The largest request made so far. */
  function LargestRequest(steps: seq<Step>): Option<int> {
    if steps == [] then None
    else
      var m := LargestRequest(steps[..|steps| - 1]);
      match steps[|steps| - 1]
      case Request(Some(t)) => if m.Some? && m.value > t then m else Some(t)
      case _ => m
  }

  /** Requested times never decrease. */
  predicate RequestsMonotone(steps: seq<Step>) {
    steps == [] ||
    (var front, step := steps[..|steps| - 1], steps[|steps| - 1];
     && RequestsMonotone(front)
     && (step.Request? && step.at.Some? && LargestRequest(front).Some? ==>
           LargestRequest(front).value <= step.at.value))
  }

  predicate AtMost(a: Option<int>, b: Option<int>) {
    a.Some? ==> b.Some? && a.value <= b.value
  }

  predicate RequestInv(s: State, largest: Option<int>) {
    && AtMost(s.requested, largest) && AtMost(s.last, largest)
    && (RestartInProgress in s.conditions && s.requested.Some? && s.last.Some? ==> s.requested.value > s.last.value)
    && (RestartInProgress in s.conditions && s.last.Some? ==> largest.Some? && largest.value > s.last.value)
  }

  /** A change of lastRestartedAt happens only in a pass that completes a restart, and copies the request. */
  lemma LastChangesOnlyOnCompletion(s: State, step: Step)
    ensures Next(s, step).last != s.last ==>
              Completes(s, step) && Next(s, step).last == s.requested && s.vmi.value.created > Next(s, step).last.value
    ensures Completes(s, step) ==> Next(s, step).last == s.requested
  {
  }

  /** With requested times that never decrease: lastRestartedAt never decreases and never exceeds the largest
      request; a restart in progress is for a request newer than it. */
  lemma {:induction false} LastIsMonotone(steps: seq<Step>)
    requires LegalRun(Fresh, steps) && RequestsMonotone(steps)
    ensures RequestInv(Run(Fresh, steps), LargestRequest(steps))
    ensures steps != [] ==> AtMost(Run(Fresh, steps[..|steps| - 1]).last, Run(Fresh, steps).last)
  {
    if steps == [] {
    } else {
      LastIsMonotone(steps[..|steps| - 1]);
      LastChangesOnlyOnCompletion(Run(Fresh, steps[..|steps| - 1]), steps[|steps| - 1]);
    }
  }

  /** Exactly when a step moves lastRestartedAt backwards: a pass completes a restart whose request was meanwhile
      replaced by one older than the last restart. */
  lemma LastDecreasesExactlyWhen(s: State, step: Step)
    ensures !AtMost(s.last, Next(s, step).last) <==>
            Completes(s, step) && s.last.Some? && s.requested.value < s.last.value
  {
  }

  /** A first restart, requested at 5 and completed by a VMI created at 6. */
  lemma OneRestart() returns (steps: seq<Step>)
    ensures LegalRun(Fresh, steps)
    ensures Run(Fresh, steps) == State(Some(5), Some(5), {}, true, Some(Vmi(6, false)))
  {
    var pass := Pass(Faults(false, DeleteAccepted));
    steps := [];
    steps := Then(steps, ReferenceChanged(true));
    steps := Then(steps, Request(Some(5)));
    steps := Then(steps, pass);
    steps := Then(steps, VmiCreated(6));
    steps := Then(steps, pass);
  }

  /** Such a run exists once requests may decrease: a request at 10 is begun, then replaced by one at 3. */
  lemma LastCanDecrease()
    ensures exists steps, step ::
              LegalRun(Fresh, steps) && !AtMost(Run(Fresh, steps).last, Next(Run(Fresh, steps), step).last)
  {
    var pass := Pass(Faults(false, DeleteAccepted));
    var steps := OneRestart();
    steps := Then(steps, Request(Some(10)));
    steps := Then(steps, pass);
    steps := Then(steps, Request(Some(3)));
    assert Run(Fresh, steps) == State(Some(3), Some(5), {RestartInProgress}, true, Some(Vmi(6, true)));
    assert !AtMost(Run(Fresh, steps).last, Next(Run(Fresh, steps), pass).last);
  }

  /** A failure is not cleared when the restart then begins on a VMI that does not exist. */
  lemma InProgressAndFailedTogether(s: State, f: Faults)
    ensures {RestartInProgress, RestartFailed} <= HandleRestartRequest(s, f).state.conditions
            && !({RestartInProgress, RestartFailed} <= s.conditions) <==>
            && s.requested.Some? && RestartFailed in s.conditions && RestartInProgress !in s.conditions
            && !(s.last.Some? && s.requested.value <= s.last.value)
            && s.hasReference && !f.getFails && s.vmi.None?
  {
  }
}
