// The main controller's whole pass: read the CR, run the handlers, then write the status, trying again on conflicts.
// Others act between its calls; the pass stays within the lifecycle's steps.

module MainController {
  import opened Interference
  import opened Options
  import opened Providers
  import opened Passes
  import opened Lifecycle
  import opened LifecycleTheorems
  import opened Reconciler

  /** One attempt at the status write: whether the read fails, what others do after it, and the reply to the update. */
  datatype Attempt = Attempt(getFails: bool, moves: seq<Step>, update: CallReply)

  /** The first attempt meets no failure and nobody acts during it. */
  predicate Undisturbed(attempts: seq<Attempt>) {
    attempts != [] && attempts[0] == Attempt(false, [], Done)
  }

  /** On a reachable world a version number names one stored CR. */
  lemma SameVersionIsCurrent(cfg: Config, w: World, cr: Cr)
    requires cfg.maxJobHistory >= 1 && Reachable(cfg, w) && Unchanged(w, cr.version)
    requires cr.version < |w.past| && w.past[cr.version] == cr
    ensures w.cr.value == cr && !Ends(cr)
  {
    ReachableInv(cfg, w);
  }

  lemma CurrentIsStored(cfg: Config, w: World)
    requires cfg.maxJobHistory >= 1 && Reachable(cfg, w) && w.cr.Some?
    ensures var cr := w.cr.value; cr.version < |w.past| && w.past[cr.version] == cr
  {
    ReachableInv(cfg, w);
  }

  /** A status write that is stored, and one that is given up, are both steps of the lifecycle. */
  lemma CommitIsAStep(cfg: Config, w: World, failed: bool)
    requires Reachable(cfg, w) && w.pending.Some?
    ensures Reachable(cfg, NextMainCommit(w, failed)) && NextMainCommit(w, failed).pending.None?
  {
    NextReachable(cfg, w, MainCommit(failed));
  }

  lemma CommitStores(cfg: Config, w: World, cr: Cr)
    requires w.cr == Some(cr) && w.pending.Some? && !Ends(cr)
    ensures NextMainCommit(w, false) == StoreIfChanged(w, cr.(status := w.pending.value.status)).(pending := None)
    ensures NextMainCommit(w, false).cr.Some? && NextMainCommit(w, false).cr.value.status == w.pending.value.status
  {
  }

  /** The CR's status is still what it was, or it is the one to be written. */
  predicate OneOfTwo(w: World, before: World)
    requires before.pending.Some?
  {
    w.cr.Some? ==>
      before.cr.Some? && w.cr.value.status in {before.cr.value.status, before.pending.value.status}
  }

  /** A conflict: the attempt reads the CR and is not refused, but others have stored another version in between. */
  predicate Conflicts(w: World, w': World, a: Attempt) {
    && w.cr.Some? && !a.getFails && !a.update.Refused?
    && w'.cr.Some? && w'.cr.value.version != w.cr.value.version
  }

  /** The world after the others' moves during the first n attempts. */
  ghost function AfterMoves(cfg: Config, w: World, attempts: seq<Attempt>, n: nat): World
    requires n <= |attempts|
  {
    if n == 0 then w
    else Interfere(cfg, Actor.MainController, AfterMoves(cfg, w, attempts, n - 1), attempts[n - 1].moves)
  }

  ghost predicate ConflictAt(cfg: Config, w: World, attempts: seq<Attempt>, i: nat)
    requires i < |attempts|
  {
    Conflicts(AfterMoves(cfg, w, attempts, i), AfterMoves(cfg, w, attempts, i + 1), attempts[i])
  }

  /** The first n attempts end in conflicts. */
  ghost predicate AllConflict(cfg: Config, w: World, attempts: seq<Attempt>, n: nat)
    requires n <= |attempts|
  {
    forall i: nat :: i < n ==> ConflictAt(cfg, w, attempts, i)
  }

  /** What an attempt that is no conflict leaves, from the world it reads (w) and the one it writes to (w'): the status
      is stored, unless the CR is gone, the read fails or the update is refused. */
  ghost predicate Decides(w: World, w': World, a: Attempt, result: World, failed: bool) {
    if a.getFails || w.cr.None? then GivenUp(w, result, failed)
    else if a.update.Refused? || w'.cr.None? then GivenUp(w', result, failed)
    else
      && w'.pending.Some? && w.pending.Some?
      && failed == a.update.Lost? && result == NextMainCommit(w', false)
      && result.cr.Some? && result.cr.value.status == w.pending.value.status
  }

  ghost predicate GivenUp(w: World, result: World, failed: bool) {
    w.pending.Some? && failed && result == NextMainCommit(w, true)
  }

  /** After n conflicts an attempt decides, or there is none left and the write is given up. */
  ghost predicate DecidedAfter(cfg: Config, w: World, attempts: seq<Attempt>, n: nat, result: World, failed: bool)
    requires n <= |attempts|
  {
    && AllConflict(cfg, w, attempts, n)
    && if n == |attempts| then GivenUp(AfterMoves(cfg, w, attempts, n), result, failed)
       else
         && !ConflictAt(cfg, w, attempts, n)
         && Decides(AfterMoves(cfg, w, attempts, n), AfterMoves(cfg, w, attempts, n + 1), attempts[n], result, failed)
  }

  /** What the retried status write comes to. */
  ghost predicate Retried(cfg: Config, w: World, attempts: seq<Attempt>, result: World, failed: bool) {
    exists n: nat :: n <= |attempts| && DecidedAfter(cfg, w, attempts, n, result, failed)
  }

  /** The first attempt that is no conflict is the one that decides, and its outcome is the only one. */
  lemma FirstOtherDecides(cfg: Config, w: World, attempts: seq<Attempt>, n: nat, result: World, failed: bool)
    requires Retried(cfg, w, attempts, result, failed) && n <= |attempts| && AllConflict(cfg, w, attempts, n)
    requires n < |attempts| ==> !ConflictAt(cfg, w, attempts, n)
    ensures DecidedAfter(cfg, w, attempts, n, result, failed)
  {
    var m: nat :| m <= |attempts| && DecidedAfter(cfg, w, attempts, m, result, failed);
    assert m == n;
  }

  /** Whatever others do during the attempts, the status to be written stays. */
  lemma {:induction false} MovesKeepPending(cfg: Config, w: World, attempts: seq<Attempt>, n: nat)
    requires n <= |attempts| && Reachable(cfg, w)
    ensures var moved := AfterMoves(cfg, w, attempts, n); Reachable(cfg, moved) && moved.pending == w.pending
  {
    if n == 0 {
    } else {
      MovesKeepPending(cfg, w, attempts, n - 1);
      InterferenceIsHarmless(cfg, Actor.MainController, AfterMoves(cfg, w, attempts, n - 1), attempts[n - 1].moves);
    }
  }

  /** After any number of conflicts an undisturbed attempt stores the pending status, as long as the CR exists. */
  lemma QuietAttemptStores(cfg: Config, w: World, attempts: seq<Attempt>, n: nat, result: World, failed: bool)
    requires Reachable(cfg, w) && w.pending.Some? && Retried(cfg, w, attempts, result, failed)
    requires n < |attempts| && AllConflict(cfg, w, attempts, n) && attempts[n] == Attempt(false, [], Done)
    requires AfterMoves(cfg, w, attempts, n).cr.Some?
    ensures !failed && result.cr.Some? && result.cr.value.status == w.pending.value.status
  {
    assert AfterMoves(cfg, w, attempts, n + 1) == AfterMoves(cfg, w, attempts, n);
    FirstOtherDecides(cfg, w, attempts, n, result, failed);
    MovesKeepPending(cfg, w, attempts, n);
  }

  /** No attempt gets an error reply, and the CR is there throughout. */
  ghost predicate OnlyConflicts(cfg: Config, w: World, attempts: seq<Attempt>) {
    && (forall i :: 0 <= i < |attempts| ==> !attempts[i].getFails && attempts[i].update.Done?)
    && (forall i: nat :: i <= |attempts| ==> AfterMoves(cfg, w, attempts, i).cr.Some?)
  }

  /** Without error replies and without the end of the CR the write is given up exactly when every attempt conflicts. */
  lemma GivenUpExactlyWhen(cfg: Config, w: World, attempts: seq<Attempt>, result: World, failed: bool)
    requires Reachable(cfg, w) && w.pending.Some? && Retried(cfg, w, attempts, result, failed)
    requires OnlyConflicts(cfg, w, attempts)
    ensures failed <==> AllConflict(cfg, w, attempts, |attempts|)
    ensures !failed ==> result.cr.Some? && result.cr.value.status == w.pending.value.status
  {
    var n: nat :| n <= |attempts| && DecidedAfter(cfg, w, attempts, n, result, failed);
    MovesKeepPending(cfg, w, attempts, n);
  }

  /** What is left after the handlers (passed): a changed status is written with retries, an unchanged one is not. */
  ghost predicate StatusStored(cfg: Config, passed: World, changed: bool, attempts: seq<Attempt>, result: World,
                               failed: bool)
  {
    if changed then Retried(cfg, passed, attempts, result, failed)
    else !failed && passed.pending.Some? && result == NextMainCommit(passed, false)
  }

  /** The pass reports an error when its handlers or its status write do. */
  ghost predicate PassEnds(cfg: Config, passed: World, changed: bool, attempts: seq<Attempt>, result: World,
                           handlersFailed: bool, failed: bool)
  {
    exists writeFailed ::
      StatusStored(cfg, passed, changed, attempts, result, writeFailed) && failed == (handlersFailed || writeFailed)
  }

  /** The hub cluster with the main controller's view of the provisioning server. */
  class Hub {
    const reconciler: ComputeInstanceReconciler
    const cfg: Config
    var world: World

    constructor (reconciler: ComputeInstanceReconciler, w: World)
      ensures this.reconciler == reconciler && cfg == reconciler.cfg && world == w
    {
      this.reconciler, cfg, world := reconciler, reconciler.cfg, w;
    }

    method OthersAct(moves: seq<Step>)
      requires Reachable(cfg, world)
      modifies this`world
      ensures world == Interfere(cfg, Actor.MainController, old(world), moves)
      ensures Reachable(cfg, world) && Later(old(world), world) && Spared(Actor.MainController, old(world), world)
    {
      InterferenceIsHarmless(cfg, Actor.MainController, world, moves);
      world := Interfere(cfg, Actor.MainController, world, moves);
    }

    /** The pass ends without having stored its status. */
    method GiveUp()
      requires Reachable(cfg, world) && world.pending.Some?
      modifies this`world
      ensures Reachable(cfg, world) && world == NextMainCommit(old(world), true)
    {
      CommitIsAStep(cfg, world, true);
      world := NextMainCommit(world, true);
    }

    /** updateStatusWithRetry: read the latest version, write the status to it, and try again only on a conflict. */
    method UpdateStatusWithRetry(attempts: seq<Attempt>) returns (failed: bool)
      requires cfg.maxJobHistory >= 1 && Reachable(cfg, world) && world.pending.Some?
      modifies this`world
      ensures Reachable(cfg, world) && world.pending.None?
      ensures OneOfTwo(world, old(world))
      ensures !failed ==> world.cr.Some? && world.cr.value.status == old(world).pending.value.status
      ensures Undisturbed(attempts) ==> failed == old(world).cr.None? && world == NextMainCommit(old(world), false)
      ensures Retried(cfg, old(world), attempts, world, failed)
    {
      var i := 0;
      while i < |attempts|
        invariant i <= |attempts|
        invariant Reachable(cfg, world) && Spared(Actor.MainController, old(world), world)
        invariant world == AfterMoves(cfg, old(world), attempts, i)
        invariant AllConflict(cfg, old(world), attempts, i)
        invariant i > 0 ==> !Undisturbed(attempts)
      {
        var conflict;
        failed, conflict := TryUpdateStatus(attempts[i]);
        assert conflict == ConflictAt(cfg, old(world), attempts, i);
        if !conflict {
          assert DecidedAfter(cfg, old(world), attempts, i, world, failed);
          return;
        }
        i := i + 1;
      }
      GiveUp();
      failed := true;
      assert DecidedAfter(cfg, old(world), attempts, i, world, failed);
    }

    method TryUpdateStatus(attempt: Attempt) returns (failed: bool, conflict: bool)
      requires cfg.maxJobHistory >= 1 && Reachable(cfg, world) && world.pending.Some?
      modifies this`world
      ensures Reachable(cfg, world)
      ensures var moved := Interfere(cfg, Actor.MainController, old(world), attempt.moves);
              && conflict == Conflicts(old(world), moved, attempt)
              && (conflict ==> world == moved && Spared(Actor.MainController, old(world), world) && attempt.moves != [])
              && (!conflict ==> Decides(old(world), moved, attempt, world, failed))
      ensures !conflict ==> world.pending.None? && OneOfTwo(world, old(world))
    {
      if attempt.getFails || world.cr.None? {
        GiveUp();
        return true, false;
      }
      var latest := world.cr.value;
      CurrentIsStored(cfg, world);
      OthersAct(attempt.moves);
      assert latest.version < |world.past| && world.past[latest.version] == latest;
      if world.cr.Some? && !attempt.update.Refused? && world.cr.value.version != latest.version {
        return false, true;
      }
      if world.cr.None? || attempt.update.Refused? {
        GiveUp();
        return true, false;
      }
      Write(latest);
      return attempt.update.Lost?, false;
    }

    /** The update of a version that is still current. */
    method Write(latest: Cr)
      requires cfg.maxJobHistory >= 1 && Reachable(cfg, world) && world.pending.Some?
      requires Unchanged(world, latest.version) && latest.version < |world.past| && world.past[latest.version] == latest
      modifies this`world
      ensures Reachable(cfg, world) && world == NextMainCommit(old(world), false)
      ensures world.cr.Some? && world.cr.value.status == old(world).pending.value.status && world.pending.None?
    {
      SameVersionIsCurrent(cfg, world, latest);
      CommitStores(cfg, world, latest);
      CommitIsAStep(cfg, world, false);
      world := StoreIfChanged(world, latest.(status := world.pending.value.status));
      world := world.(pending := None);
    }

    /** The handlers run on objects made from what was read; what they did to metadata and server is there at once. */
    method RunHandlers(input: PassInput) returns (requeueAfter: int, failed: bool, status: Status)
      requires Reachable(cfg, world) && world.cr.Some? && Legal(cfg, world, MainPass(input)) && cfg == reconciler.cfg
      modifies this`world
      ensures var o := Passes.Reconcile(cfg, old(world).cr.value, old(world).srv, input);
              && world == AfterPass(old(world), o)
              && requeueAfter == o.requeueAfter && failed == o.failed && status == o.cr.status
      ensures Reachable(cfg, world)
    {
      NextReachable(cfg, world, MainPass(input));
      var ci := new ComputeInstance(world.cr.value);
      var srv := new ProvisioningServer(world.srv);
      requeueAfter, failed := reconciler.Reconcile(ci, srv, input);
      status := ci.View().status;
      world := AfterPass(world, Outcome(ci.View(), srv.View(), requeueAfter, failed));
    }

    /** One whole pass. A CR that is gone is nothing to do; a status that did not change is not written. */
    method Reconcile(input: PassInput, attempts: seq<Attempt>) returns (requeueAfter: int, failed: bool)
      requires cfg.maxJobHistory >= 1 && cfg == reconciler.cfg && Reachable(cfg, world) && world.pending.None?
      requires world.cr.Some? ==> InputLegal(cfg, world.cr.value, world.srv, input)
      modifies this`world
      ensures Reachable(cfg, world) && world.pending.None?
      ensures old(world).cr.None? ==> world == old(world) && requeueAfter == 0 && !failed
      ensures old(world).cr.Some? && Undisturbed(attempts) ==>
                world == NextMainCommit(NextMainPass(cfg, old(world), input), false)
      ensures old(world).cr.Some? ==>
                var o := Passes.Reconcile(cfg, old(world).cr.value, old(world).srv, input);
                && requeueAfter == o.requeueAfter
                && PassEnds(cfg, NextMainPass(cfg, old(world), input), o.cr.status != old(world).cr.value.status,
                            attempts, world, o.failed, failed)
    {
      if world.cr.None? {
        return 0, false;
      }
      var oldStatus := world.cr.value.status;
      var status;
      requeueAfter, failed, status := RunHandlers(input);
      ghost var passed, handlersFailed := world, failed;
      var writeFailed := StoreStatus(status != oldStatus, attempts);
      failed := failed || writeFailed;
      assert StatusStored(cfg, passed, status != oldStatus, attempts, world, writeFailed);
    }

    method StoreStatus(changed: bool, attempts: seq<Attempt>) returns (failed: bool)
      requires cfg.maxJobHistory >= 1 && Reachable(cfg, world) && world.pending.Some?
      requires changed || world.cr.None? || world.cr.value.status == world.pending.value.status
      modifies this`world
      ensures Reachable(cfg, world) && world.pending.None?
      ensures Undisturbed(attempts) || !changed ==> world == NextMainCommit(old(world), false)
      ensures StatusStored(cfg, old(world), changed, attempts, world, failed)
      ensures !changed ==> world.cr == old(world).cr
    {
      failed := false;
      if changed {
        failed := UpdateStatusWithRetry(attempts);
      } else {
        CommitIsAStep(cfg, world, false);
        world := NextMainCommit(world, false);   // nothing is written
      }
    }
  }
}
