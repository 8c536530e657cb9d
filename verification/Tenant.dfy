// The tenant protocol: a namespace and a user defined network (UDN) inside it are created under a finalizer and
// taken down in order before the finalizer goes.

module TenantModel {
  datatype Presence = Absent | Live | Terminating

  datatype Phase = NoPhase | Progressing | FailedPhase | Ready | DeletingPhase

  /** recorded: status.namespace holds the tenant's namespace name (it is the same name on every pass). */
  datatype Status = Status(phase: Phase, recorded: bool)

  datatype World = World(present: bool, finalizer: bool, deleting: bool, status: Status, ns: Presence, udn: Presence)

  /** A lost create takes effect although the caller sees an error. */
  datatype CreateReply = CreateOk | CreateRejected | CreateLost

  datatype Faults = Faults(updateFails: bool, nsCreate: CreateReply, udnCreate: CreateReply,
                           udnGetFails: bool, udnDeleteFails: bool, nsGetFails: bool, nsDeleteFails: bool,
                           statusWriteFails: bool)

  const NoFaults := Faults(false, CreateOk, CreateOk, false, false, false, false, false)

  // ---------- create ----------

  /** CreateOrUpdate of the namespace: creates it when absent, leaves an existing one in place. */
  function CreateNamespace(w: World, reply: CreateReply): World {
    if reply.CreateRejected? || w.ns != Absent then w else w.(ns := Live)
  }

  /** CreateOrUpdate of the UDN: the cluster refuses a new object in a namespace that is not live. */
  function CreateUDN(w: World, reply: CreateReply): World {
    if reply.CreateRejected? || w.udn != Absent || w.ns != Live then w else w.(udn := Live)
  }

  predicate CreateUDNFails(w: World, reply: CreateReply) {
    !reply.CreateOk? || (w.udn == Absent && w.ns != Live)
  }

  function HandleUpdate(w: World, f: Faults): World {
    if !w.finalizer then
      if f.updateFails then w else w.(finalizer := true)
    else
      var w1 := CreateNamespace(w, f.nsCreate).(status := Status(Progressing, true));
      if !f.nsCreate.CreateOk? then w1.(status := Status(FailedPhase, true))
      else
        var w2 := CreateUDN(w1, f.udnCreate);
        if CreateUDNFails(w1, f.udnCreate) then w2.(status := Status(FailedPhase, true))
        else w2.(status := Status(Ready, true))
  }

  // ---------- delete ----------

  function Kill(p: Presence): Presence { if p == Live then Terminating else p }

  /** deleteTenantUDN is done: nothing recorded, or the UDN is observed absent. */
  predicate UDNGone(w: World, f: Faults) { !w.status.recorded || (!f.udnGetFails && w.udn == Absent) }

  predicate NamespaceGone(w: World, f: Faults) { !w.status.recorded || (!f.nsGetFails && w.ns == Absent) }

  function HandleDelete(w: World, f: Faults): World {
    var w0 := w.(status := w.status.(phase := DeletingPhase));
    if !w.finalizer then w0
    else if !UDNGone(w, f) then
      if f.udnGetFails || f.udnDeleteFails then w0 else w0.(udn := Kill(w.udn))
    else if !NamespaceGone(w, f) then
      if f.nsGetFails || f.nsDeleteFails then w0 else w0.(ns := Kill(w.ns))
    else if f.updateFails then w0
    else w0.(finalizer := false, present := false)
  }

  /** One pass; its status counts only if the status write succeeds. */
  function Reconcile(w: World, f: Faults): World {
    if !w.present then w
    else
      var r := if w.deleting then HandleDelete(w, f) else HandleUpdate(w, f);
      if f.statusWriteFails then r.(status := w.status) else r
  }
}

module TenantController {
  import opened TenantModel
  import M = TenantModel

  class Cluster {
    var ns: Presence
    var udn: Presence

    constructor (w: World)
      ensures ns == w.ns && udn == w.udn
    {
      ns, udn := w.ns, w.udn;
    }
  }

  /** The tenant as one pass holds it. */
  class Tenant {
    var present: bool
    var finalizer: bool
    var deleting: bool
    var status: Status
    const cluster: Cluster

    constructor (w: World, cluster: Cluster)
      requires cluster.ns == w.ns && cluster.udn == w.udn
      ensures this.cluster == cluster && View() == w
    {
      present, finalizer, deleting, status := w.present, w.finalizer, w.deleting, w.status;
      this.cluster := cluster;
    }

    function View(): World
      reads this, cluster
    {
      World(present, finalizer, deleting, status, cluster.ns, cluster.udn)
    }

    /** Sets status.namespace whether or not the creation succeeded. */
    method CreateOrUpdateNamespace(reply: CreateReply) returns (failed: bool)
      modifies this`status, cluster`ns
      ensures View() == M.CreateNamespace(old(View()), reply).(status := old(status).(recorded := true))
      ensures failed == !reply.CreateOk?
    {
      if !reply.CreateRejected? && cluster.ns == Absent {
        cluster.ns := Live;
      }
      status := status.(recorded := true);
      failed := !reply.CreateOk?;
    }

    method CreateOrUpdateUDN(reply: CreateReply) returns (failed: bool)
      modifies cluster`udn
      ensures View() == M.CreateUDN(old(View()), reply)
      ensures failed == M.CreateUDNFails(old(View()), reply)
    {
      failed := !reply.CreateOk?;
      if cluster.udn == Absent {
        if cluster.ns != Live {
          return true;
        }
        if !reply.CreateRejected? {
          cluster.udn := Live;
        }
      }
    }

    method HandleUpdate(f: Faults)
      modifies this, cluster
      ensures View() == M.HandleUpdate(old(View()), f)
    {
      if !finalizer {
        if !f.updateFails {
          finalizer := true;
        }
        return;
      }
      status := status.(phase := Progressing);
      var nsFailed := CreateOrUpdateNamespace(f.nsCreate);
      if nsFailed {
        status := status.(phase := FailedPhase);
        return;
      }
      var udnFailed := CreateOrUpdateUDN(f.udnCreate);
      if udnFailed {
        status := status.(phase := FailedPhase);
        return;
      }
      status := status.(phase := Ready);
    }

    /** Returns whether the caller may go on: the UDN is absent, or there is nothing to delete. */
    method DeleteUDN(f: Faults) returns (gone: bool)
      modifies cluster`udn
      ensures gone == UDNGone(old(View()), f)
      ensures cluster.udn == if gone || f.udnGetFails || f.udnDeleteFails then old(cluster.udn)
                             else Kill(old(cluster.udn))
    {
      if !status.recorded {
        return true;
      }
      if f.udnGetFails {
        return false;
      }
      if cluster.udn == Absent {
        return true;
      }
      if !f.udnDeleteFails {
        cluster.udn := Kill(cluster.udn);
      }
      gone := false;
    }

    method DeleteNamespace(f: Faults) returns (gone: bool)
      modifies cluster`ns
      ensures gone == NamespaceGone(old(View()), f)
      ensures cluster.ns == if gone || f.nsGetFails || f.nsDeleteFails then old(cluster.ns)
                            else Kill(old(cluster.ns))
    {
      if !status.recorded {
        return true;
      }
      if f.nsGetFails {
        return false;
      }
      if cluster.ns == Absent {
        return true;
      }
      if cluster.ns != Terminating && !f.nsDeleteFails {
        cluster.ns := Terminating;
      }
      gone := false;
    }

    method HandleDelete(f: Faults)
      requires deleting
      modifies this, cluster
      ensures View() == M.HandleDelete(old(View()), f)
    {
      status := status.(phase := DeletingPhase);
      if !finalizer {
        return;
      }
      var udnGone := DeleteUDN(f);
      if !udnGone {
        return;
      }
      var nsGone := DeleteNamespace(f);
      if !nsGone {
        return;
      }
      if !f.updateFails {
        finalizer := false;
        present := false;   // the last finalizer of a tenant being deleted
      }
    }

    method Reconcile(f: Faults)
      modifies this, cluster
      ensures View() == M.Reconcile(old(View()), f)
    {
      if !present {
        return;
      }
      var oldStatus := status;
      if deleting {
        HandleDelete(f);
      } else {
        HandleUpdate(f);
      }
      if f.statusWriteFails {
        status := oldStatus;
      }
    }
  }
}

module TenantTheorems {
  import opened TenantModel

  datatype Step =
    | Pass(faults: Faults)
    | UserDelete
    | UDNTerminated
    | NamespaceTerminated
    | NamespaceDrains      // the cluster deletes what a terminating namespace holds

  /** reliable: the assumption that no status write fails. */
  predicate Legal(reliable: bool, w: World, s: Step) {
    match s
    case Pass(f) => reliable ==> !f.statusWriteFails
    case UserDelete => w.present
    case UDNTerminated => w.udn == Terminating
    case NamespaceTerminated => w.ns == Terminating && w.udn == Absent
    case NamespaceDrains => w.ns == Terminating
  }

  function Next(w: World, s: Step): World {
    match s
    case Pass(f) => Reconcile(w, f)
    case UserDelete => if w.finalizer then w.(deleting := true) else w.(deleting := true, present := false)
    case UDNTerminated => w.(udn := Absent)
    case NamespaceTerminated => w.(ns := Absent)
    case NamespaceDrains => w.(udn := Kill(w.udn))
  }

  const Fresh := World(true, false, false, Status(NoPhase, false), Absent, Absent)

  predicate LegalRun(reliable: bool, steps: seq<Step>)
    decreases |steps|, 0
  {
    steps == [] ||
    (LegalRun(reliable, steps[..|steps| - 1]) && Legal(reliable, Run(steps[..|steps| - 1]), steps[|steps| - 1]))
  }

  function Run(steps: seq<Step>): World
    decreases |steps|, 1
  {
    if steps == [] then Fresh else Next(Run(steps[..|steps| - 1]), steps[|steps| - 1])
  }

  predicate HasResources(w: World) { w.ns != Absent || w.udn != Absent }

  // ---------- what holds whatever fails ----------

  /** Before the finalizer is stored, a tenant that still exists has nothing on the cluster and no name on record;
      a UDN lives only inside a namespace. */
  predicate ProtectedInv(w: World) {
    && (w.present && !w.finalizer ==> !HasResources(w) && !w.status.recorded)
    && (w.udn != Absent ==> w.ns != Absent)
  }

  lemma {:induction false} ResourcesNeedFinalizer(reliable: bool, steps: seq<Step>)
    requires LegalRun(reliable, steps)
    ensures ProtectedInv(Run(steps))
  {
    if steps == [] {
    } else {
      ResourcesNeedFinalizer(reliable, steps[..|steps| - 1]);
    }
  }

  /** The controller deletes a namespace only in a pass that observes its UDN absent. */
  lemma NamespaceAfterUDN(w: World, f: Faults)
    ensures w.ns == Live && Reconcile(w, f).ns == Terminating ==> w.deleting && w.udn == Absent && !f.udnGetFails
  {
  }

  /** Exactly when a pass lets a tenant go while something of it remains: it deletes without a recorded namespace. */
  lemma PassLeaksExactlyWhen(w: World, f: Faults)
    requires w.present
    ensures !Reconcile(w, f).present && HasResources(Reconcile(w, f)) <==>
            w.deleting && w.finalizer && !f.updateFails && !w.status.recorded && HasResources(w)
  {
  }

  // ---------- leak freedom ----------

  /** Nothing is left on the cluster of a tenant that is gone. */
  ghost predicate LeakFree(reliable: bool) {
    forall steps :: LegalRun(reliable, steps) ==> (HasResources(Run(steps)) ==> Run(steps).present)
  }

  predicate ReliableInv(w: World) {
    HasResources(w) ==> w.present && w.finalizer && w.status.recorded
  }

  lemma {:induction false} ReliableRun(steps: seq<Step>)
    requires LegalRun(true, steps)
    ensures ReliableInv(Run(steps))
  {
    if steps == [] {
    } else {
      ReliableRun(steps[..|steps| - 1]);
    }
  }

  lemma RunExtends(reliable: bool, steps: seq<Step>, s: Step)
    requires LegalRun(reliable, steps) && Legal(reliable, Run(steps), s)
    ensures LegalRun(reliable, steps + [s]) && Run(steps + [s]) == Next(Run(steps), s)
  {
    assert (steps + [s])[..|steps|] == steps;
  }

  /** One lost status write between creation and deletion leaves the namespace behind: its name is on record
      nowhere, so the delete pass finds nothing to delete. */
  lemma LostStatusWriteLeaks()
    ensures !LeakFree(false)
  {
    var lost := Pass(NoFaults.(statusWriteFails := true));
    var steps := [];
    RunExtends(false, steps, Pass(NoFaults)); steps := steps + [Pass(NoFaults)];
    RunExtends(false, steps, lost); steps := steps + [lost];
    RunExtends(false, steps, UserDelete); steps := steps + [UserDelete];
    RunExtends(false, steps, Pass(NoFaults)); steps := steps + [Pass(NoFaults)];
    assert !Run(steps).present && Run(steps).ns == Live;
  }

  /** Exactly when no run leaks: when no status write is lost. */
  lemma LeakFreeExactlyWhen(reliable: bool)
    ensures LeakFree(reliable) <==> reliable
  {
    if reliable {
      forall steps | LegalRun(true, steps) ensures HasResources(Run(steps)) ==> Run(steps).present {
        ReliableRun(steps);
      }
    } else {
      LostStatusWriteLeaks();
    }
  }

  // ---------- what a pass does ----------

  /** Both resources can be created by the pass, or are there already. */
  predicate CreationSucceeds(w: World, f: Faults) {
    && f.nsCreate == CreateOk && f.udnCreate == CreateOk
    && (w.udn == Absent ==> w.ns != Terminating)
  }

  /** An update pass whose status is stored: without the finalizer it only adds it; with it, the phase is Ready exactly
      when both creations succeed and Failed otherwise, the namespace's name is on record, a missing namespace is
      created unless that was rejected, and a missing UDN after it. */
  lemma UpdatePassMeans(w: World, f: Faults)
    requires w.present && !w.deleting && !f.statusWriteFails
    ensures var r := Reconcile(w, f);
            && r.present && !r.deleting
            && if !w.finalizer then r == w.(finalizer := !f.updateFails)
               else
                 && r.finalizer && r.status.recorded
                 && (r.status.phase == Ready <==> CreationSucceeds(w, f))
                 && (r.status.phase == FailedPhase <==> !CreationSucceeds(w, f))
                 && r.ns == (if w.ns == Absent && f.nsCreate != CreateRejected then Live else w.ns)
                 && r.udn == (if w.udn != Absent || r.ns != Live || !f.nsCreate.CreateOk? || f.udnCreate.CreateRejected?
                              then w.udn else Live)
  {
  }

  /** A pass after which the stored phase has become Ready leaves namespace and UDN in place. */
  lemma ReadyMeansPresent(w: World, f: Faults)
    requires w.present && !w.deleting && !f.statusWriteFails && (w.udn != Absent ==> w.ns != Absent)
    requires w.finalizer || w.status.phase != Ready
    ensures Reconcile(w, f).status.phase == Ready ==> Reconcile(w, f).ns != Absent && Reconcile(w, f).udn != Absent
  {
  }

  /** While a tenant is not being deleted nothing of it terminates, the UDN needs its namespace, and a stored Ready
      means that both are live. */
  predicate StandingInv(w: World) {
    w.present && !w.deleting ==>
      && w.ns != Terminating && w.udn != Terminating
      && (w.udn == Live ==> w.ns == Live)
      && (w.ns == Live ==> w.finalizer)
      && (w.status.phase == Ready ==> w.ns == Live && w.udn == Live)
  }

  /** Over every run, whatever fails. */
  lemma {:induction false} ReadyMeansLive(reliable: bool, steps: seq<Step>)
    requires LegalRun(reliable, steps)
    ensures StandingInv(Run(steps))
  {
    if steps == [] {
    } else {
      ReadyMeansLive(reliable, steps[..|steps| - 1]);
    }
  }

  /** From every reachable tenant not being deleted, two passes without faults end Ready with both live. */
  lemma TwoPassesReady(reliable: bool, steps: seq<Step>)
    requires LegalRun(reliable, steps) && Run(steps).present && !Run(steps).deleting
    ensures var w := Reconcile(Reconcile(Run(steps), NoFaults), NoFaults);
            w.status == Status(Ready, true) && w.finalizer && w.ns == Live && w.udn == Live
  {
    ReadyMeansLive(reliable, steps);
    UpdatePassMeans(Run(steps), NoFaults);
    UpdatePassMeans(Reconcile(Run(steps), NoFaults), NoFaults);
  }

  /** A delete pass with the finalizer and the name on record acts on one thing only: the UDN as long as it is there,
      then the namespace, then the finalizer. What is already terminating stays so; a failing call changes nothing. */
  lemma DeletePassMeans(w: World, f: Faults)
    requires w.present && w.deleting && w.finalizer && w.status.recorded
    ensures var r := Reconcile(w, f);
            && r.status == (if f.statusWriteFails then w.status else Status(DeletingPhase, true))
            && (r.udn != w.udn <==> w.udn == Live && !f.udnGetFails && !f.udnDeleteFails)
            && (r.ns != w.ns <==>
                  w.udn == Absent && w.ns == Live && !f.udnGetFails && !f.nsGetFails && !f.nsDeleteFails)
            && (r.udn == w.udn || r.udn == Terminating) && (r.ns == w.ns || r.ns == Terminating)
            && (!r.present <==>
                  w.udn == Absent && w.ns == Absent && !f.udnGetFails && !f.nsGetFails && !f.updateFails)
            && r.finalizer == r.present
  {
  }

  // ---------- progress ----------

  function Rank(p: Presence): nat { match p case Absent => 0 case Terminating => 1 case Live => 2 }

  function Measure(w: World): nat {
    Rank(w.udn) + Rank(w.ns) + if w.present then 1 else 0
  }

  /** A delete pass in which nothing fails either waits for an object that is already terminating or gets closer to
      the end; no pass ever moves away from it. */
  lemma DeletePassProgress(w: World, f: Faults)
    requires w.present && w.deleting && w.finalizer
    ensures Measure(Reconcile(w, f)) <= Measure(w)
    ensures f == NoFaults ==>
              || Measure(Reconcile(w, f)) < Measure(w)
              || (Reconcile(w, f).(status := w.status) == w
                  && (w.udn == Terminating || (w.udn == Absent && w.ns == Terminating)))
  {
  }

  /** A fault-free pass, after which the cluster finishes terminating whatever can be finished. */
  function Round(w: World): World {
    var w1 := Reconcile(w, NoFaults);
    var w2 := if w1.udn == Terminating then Next(w1, UDNTerminated) else w1;
    if w2.ns == Terminating && w2.udn == Absent then Next(w2, NamespaceTerminated) else w2
  }

  function Rounds(w: World, n: nat): World
    decreases n
  {
    if n == 0 then w else Rounds(Round(w), n - 1)
  }

  lemma RoundProgress(w: World)
    requires w.present && w.deleting && w.finalizer && ReliableInv(w) && ProtectedInv(w)
    ensures var r := Round(w);
            && Measure(r) < Measure(w)
            && r.deleting && ReliableInv(r) && ProtectedInv(r)
            && (r.present ==> r.finalizer)
  {
  }

  lemma {:induction false} RoundsFinish(w: World, n: nat)
    requires w.deleting && ReliableInv(w) && ProtectedInv(w) && Measure(w) <= n
    requires w.present ==> w.finalizer
    ensures !Rounds(w, n).present && !HasResources(Rounds(w, n))
    decreases n
  {
    if n == 0 {
    } else {
      if w.present {
        RoundProgress(w);
        RoundsFinish(Round(w), n - 1);
      } else {
        assert Round(w) == w;
        RoundsFinish(w, n - 1);
      }
    }
  }

  /** A tenant being deleted exists only as long as the finalizer holds it. */
  lemma {:induction false} FinalizerHolds(reliable: bool, steps: seq<Step>)
    requires LegalRun(reliable, steps)
    ensures var w := Run(steps); w.deleting && w.present ==> w.finalizer
  {
    if steps == [] {
    } else {
      FinalizerHolds(reliable, steps[..|steps| - 1]);
    }
  }

  /** From any reachable tenant being deleted, without lost status writes, five rounds without faults suffice: tenant,
      UDN and namespace are gone. */
  lemma DeletionTerminates(steps: seq<Step>)
    requires LegalRun(true, steps) && Run(steps).deleting
    ensures var w := Rounds(Run(steps), 5); !w.present && !HasResources(w)
  {
    var w := Run(steps);
    ResourcesNeedFinalizer(true, steps);
    ReliableRun(steps);
    FinalizerHolds(true, steps);
    RoundsFinish(w, Measure(w));
    if Measure(w) < 5 { MoreRounds(w, Measure(w), 5); }
  }

  lemma {:induction false} MoreRounds(w: World, m: nat, n: nat)
    requires m <= n && !Rounds(w, m).present && !HasResources(Rounds(w, m))
    ensures !Rounds(w, n).present && !HasResources(Rounds(w, n))
    decreases m, n
  {
    if m > 0 {
      MoreRounds(Round(w), m - 1, n - 1);
    } else if n > 0 {
      assert Round(w) == w;
      MoreRounds(w, 0, n - 1);
    }
  }
}
