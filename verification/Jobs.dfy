// The job history kept in status.jobs: its data types, the search for the latest job of a type,
// append-and-trim, and update in place by job ID.

module Options {
  datatype Option<+T> = None | Some(value: T)
}

module Jobs {
  import opened Options

  datatype JobType = Provision | Deprovision

  datatype JobState = Pending | Waiting | Running | Succeeded | Failed | Canceled | Unknown {
    predicate IsTerminal() { Succeeded? || Failed? || Canceled? }
    predicate IsSuccessful() { Succeeded? }
  }

  /** The texts the controller puts into a job's message, by what they say. */
  datatype Message =
    | NoMessage
    | TriggerFailed(error: string)
    | Triggered
    | WebhookSent
    | PollingUnsupported
    | PlaybookRunning
    | PlaybookDone
    | Reported(status: string)
    | ReportedWithDetails(status: string, details: string)
    | PollFailed(error: string)

  datatype JobStatus = JobStatus(jobID: string, jobType: JobType, timestamp: int, state: JobState,
                                 message: Message, blockDeletionOnFailure: bool)

  // ---------- the latest job of a type ----------

  /** The scan of FindLatestJobByType over a prefix-recursive history: the index of the job it settles on. */
  function LatestAt(jobs: seq<JobStatus>, t: JobType): (r: Option<nat>)
    ensures r.Some? ==> r.value < |jobs| && jobs[r.value].jobType == t
  {
    if jobs == [] then None
    else
      var p := LatestAt(jobs[..|jobs| - 1], t);
      var last := jobs[|jobs| - 1];
      if last.jobType == t && (p.None? || last.timestamp > jobs[p.value].timestamp) then Some(|jobs| - 1) else p
  }

  function Latest(jobs: seq<JobStatus>, t: JobType): Option<JobStatus> {
    match LatestAt(jobs, t)
    case None => None
    case Some(i) => Some(jobs[i])
  }

  /** Entry i is the first among the entries of type t with the largest timestamp. */
  predicate IsFirstMaximum(jobs: seq<JobStatus>, t: JobType, i: nat) {
    && i < |jobs|
    && jobs[i].jobType == t
    && (forall k :: 0 <= k < i && jobs[k].jobType == t ==> jobs[k].timestamp < jobs[i].timestamp)
    && (forall k :: i < k < |jobs| && jobs[k].jobType == t ==> jobs[k].timestamp <= jobs[i].timestamp)
  }

  predicate HasType(jobs: seq<JobStatus>, t: JobType) {
    exists k :: 0 <= k < |jobs| && jobs[k].jobType == t
  }

  lemma {:induction false} LatestScan(jobs: seq<JobStatus>, t: JobType)
    ensures LatestAt(jobs, t).None? ==> !HasType(jobs, t)
    ensures LatestAt(jobs, t).Some? ==> IsFirstMaximum(jobs, t, LatestAt(jobs, t).value)
  {
    if jobs == [] {
    } else {
      var front := jobs[..|jobs| - 1];
      LatestScan(front, t);
      assert forall k :: 0 <= k < |front| ==> jobs[k] == front[k];
    }
  }

  lemma LatestIsFirstMaximum(jobs: seq<JobStatus>, t: JobType)
    ensures LatestAt(jobs, t).Some? <==> HasType(jobs, t)
    ensures forall i: nat :: LatestAt(jobs, t) == Some(i) <==> IsFirstMaximum(jobs, t, i)
  {
    LatestScan(jobs, t);
    forall i: nat | IsFirstMaximum(jobs, t, i)
      ensures LatestAt(jobs, t) == Some(i)
    {
      assert jobs[i].jobType == t;
    }
  }

  /** The loop: remembers the best index so far (-1 for nil) and replaces it only on a strictly later time. */
  method FindLatestJobByType(jobs: seq<JobStatus>, t: JobType) returns (r: Option<nat>)
    ensures r == LatestAt(jobs, t)
    ensures r.None? <==> !HasType(jobs, t)
    ensures r.Some? ==> IsFirstMaximum(jobs, t, r.value)
  {
    r := None;
    for i := 0 to |jobs|
      invariant r == LatestAt(jobs[..i], t)
    {
      assert jobs[..i + 1][..i] == jobs[..i];
      if jobs[i].jobType == t {
        if r.None? || jobs[i].timestamp > jobs[r.value].timestamp {
          r := Some(i);
        }
      }
    }
    assert jobs[..|jobs|] == jobs;
    LatestIsFirstMaximum(jobs, t);
  }

  predicate DistinctTimestamps(jobs: seq<JobStatus>, t: JobType) {
    forall i, k :: 0 <= i < k < |jobs| && jobs[i].jobType == t && jobs[k].jobType == t ==>
      jobs[i].timestamp != jobs[k].timestamp
  }

  /** The first maximum bounds every entry of its type. */
  lemma LatestBounds(jobs: seq<JobStatus>, t: JobType, j: JobStatus)
    requires j in jobs && j.jobType == t
    ensures LatestAt(jobs, t).Some? && j.timestamp <= jobs[LatestAt(jobs, t).value].timestamp
  {
    LatestIsFirstMaximum(jobs, t);
    var k :| 0 <= k < |jobs| && jobs[k] == j;
    assert jobs[k].jobType == t;
    assert HasType(jobs, t);
  }

  lemma SameMembers(a: seq<JobStatus>, b: seq<JobStatus>, j: JobStatus)
    requires multiset(a) == multiset(b)
    ensures j in a <==> j in b
  {
    assert j in a <==> j in multiset(a);
    assert j in b <==> j in multiset(b);
  }

  /** Array order does not matter when timestamps within the type are distinct. */
  lemma {:induction false} LatestIgnoresOrder(a: seq<JobStatus>, b: seq<JobStatus>, t: JobType)
    requires multiset(a) == multiset(b)
    requires DistinctTimestamps(a, t)
    ensures Latest(a, t) == Latest(b, t)
  {
    match Latest(a, t) {
      case Some(x) =>
        SameMembers(a, b, x);
        LatestBounds(b, t, x);
        var y := Latest(b, t).value;
        SameMembers(a, b, y);
        LatestBounds(a, t, y);
        var i :| 0 <= i < |a| && a[i] == y;
        assert a[LatestAt(a, t).value] == x && i == LatestAt(a, t).value;
      case None =>
        if Latest(b, t).Some? {
          SameMembers(a, b, Latest(b, t).value);
          LatestBounds(a, t, Latest(b, t).value);
          assert false;
        }
    }
  }

  // ---------- append and trim ----------

  /** appendJob: the new entry goes last, then only the last maxHistory entries stay. */
  function AppendJob(jobs: seq<JobStatus>, job: JobStatus, maxHistory: nat): (r: seq<JobStatus>) {
    var all := jobs + [job];
    if |all| > maxHistory then all[|all| - maxHistory..] else all
  }

  /** How many old entries an append drops. */
  function Dropped(jobs: seq<JobStatus>, maxHistory: nat): nat {
    if |jobs| + 1 > maxHistory then |jobs| + 1 - maxHistory else 0
  }

  lemma AppendShape(jobs: seq<JobStatus>, job: JobStatus, maxHistory: nat)
    requires maxHistory >= 1
    ensures AppendJob(jobs, job, maxHistory) == jobs[Dropped(jobs, maxHistory)..] + [job]
    ensures Dropped(jobs, maxHistory) <= |jobs|
  {
  }

  /** Exactly when the appended job is found as the latest of its type: when it is strictly later than every
      kept entry of that type. On a tie an older entry wins. */
  lemma {:induction false} AppendedIsLatestExactlyWhen(jobs: seq<JobStatus>, job: JobStatus, maxHistory: nat)
    requires maxHistory >= 1
    ensures var r := AppendJob(jobs, job, maxHistory);
            LatestAt(r, job.jobType) == Some(|r| - 1) <==>
            forall k :: Dropped(jobs, maxHistory) <= k < |jobs| && jobs[k].jobType == job.jobType ==>
              jobs[k].timestamp < job.timestamp
  {
    AppendShape(jobs, job, maxHistory);
    var d := Dropped(jobs, maxHistory);
    var r := AppendJob(jobs, job, maxHistory);
    LatestIsFirstMaximum(r, job.jobType);
    assert forall k :: 0 <= k < |r| - 1 ==> r[k] == jobs[k + d];
    assert forall k :: d <= k < |jobs| ==> jobs[k] == r[k - d];
  }

  lemma FirstMaximumShifts(jobs: seq<JobStatus>, job: JobStatus, d: nat, t: JobType, i: nat)
    requires d <= i < |jobs| && job.jobType != t && IsFirstMaximum(jobs, t, i)
    ensures IsFirstMaximum(jobs[d..] + [job], t, i - d)
  {
    var r := jobs[d..] + [job];
    forall k | 0 <= k < i - d && r[k].jobType == t ensures r[k].timestamp < r[i - d].timestamp {
      assert r[k] == jobs[k + d];
    }
    forall k | i - d < k < |r| && r[k].jobType == t ensures r[k].timestamp <= r[i - d].timestamp {
      assert k < |r| - 1 && r[k] == jobs[k + d];
    }
  }

  lemma FirstMaximumIsLatest(jobs: seq<JobStatus>, t: JobType, i: nat)
    requires IsFirstMaximum(jobs, t, i)
    ensures Latest(jobs, t) == Some(jobs[i])
  {
    LatestIsFirstMaximum(jobs, t);
  }

  /** The other type keeps its latest job unless that very entry was trimmed. */
  lemma AppendKeepsOtherLatest(jobs: seq<JobStatus>, job: JobStatus, maxHistory: nat, t: JobType)
    requires maxHistory >= 1 && t != job.jobType
    requires LatestAt(jobs, t).Some?
    requires LatestAt(jobs, t).value >= Dropped(jobs, maxHistory)
    ensures Latest(AppendJob(jobs, job, maxHistory), t) == Latest(jobs, t)
  {
    var d, i := Dropped(jobs, maxHistory), LatestAt(jobs, t).value;
    LatestScan(jobs, t);
    FirstMaximumShifts(jobs, job, d, t, i);
    FirstMaximumIsLatest(jobs[d..] + [job], t, i - d);
    AppendShape(jobs, job, maxHistory);
  }

  // ---------- find and update by ID ----------

  /** findJobByID: the first entry that carries the ID. */
  function IndexOfID(jobs: seq<JobStatus>, jobID: string): (r: Option<nat>)
    ensures r.Some? ==> r.value < |jobs| && jobs[r.value].jobID == jobID
                        && forall k :: 0 <= k < r.value ==> jobs[k].jobID != jobID
    ensures r.None? ==> forall k :: 0 <= k < |jobs| ==> jobs[k].jobID != jobID
  {
    if jobs == [] then None
    else if jobs[0].jobID == jobID then Some(0)
    else match IndexOfID(jobs[1..], jobID)
         case None =>
           assert forall k :: 1 <= k < |jobs| ==> jobs[k] == jobs[1..][k - 1];
           None
         case Some(i) =>
           assert forall k :: 1 <= k < i + 1 ==> jobs[k] == jobs[1..][k - 1];
           Some(i + 1)
  }

  /** updateJob: overwrites the first entry with the job's ID; leaves the list alone when there is none. */
  function UpdateJob(jobs: seq<JobStatus>, job: JobStatus): seq<JobStatus> {
    match IndexOfID(jobs, job.jobID)
    case None => jobs
    case Some(i) => jobs[i := job]
  }

  /** What every status poll does: copy the latest job of a type, set state and message, write it back by ID. */
  function PollLatest(jobs: seq<JobStatus>, t: JobType, state: JobState, message: Message): seq<JobStatus> {
    match Latest(jobs, t)
    case None => jobs
    case Some(j) => UpdateJob(jobs, j.(state := state, message := message))
  }

  /** The part of an entry that no poll may change. */
  function Identity(j: JobStatus): JobStatus {
    j.(state := Pending, message := NoMessage)
  }

  function Identities(jobs: seq<JobStatus>): (r: seq<JobStatus>)
    ensures |r| == |jobs|
    ensures forall k :: 0 <= k < |jobs| ==> r[k] == Identity(jobs[k])
  {
    seq(|jobs|, i requires 0 <= i < |jobs| => Identity(jobs[i]))
  }

  /** Exactly when a poll leaves every entry's identity alone: when the first entry carrying the latest job's ID
      has the latest job's identity. Repeated failed triggers, all with the empty ID, break this. */
  lemma PollKeepsIdentitiesExactlyWhen(jobs: seq<JobStatus>, t: JobType, state: JobState, message: Message)
    requires Latest(jobs, t).Some?
    ensures IndexOfID(jobs, Latest(jobs, t).value.jobID).Some?
    ensures var i := IndexOfID(jobs, Latest(jobs, t).value.jobID).value;
            Identities(PollLatest(jobs, t, state, message)) == Identities(jobs)
            <==> Identity(jobs[i]) == Identity(Latest(jobs, t).value)
  {
    var l := LatestAt(jobs, t).value;
    var j := jobs[l];
    var i := IndexOfID(jobs, j.jobID).value;
    var r := PollLatest(jobs, t, state, message);
    assert r == jobs[i := j.(state := state, message := message)];
    if Identities(r) == Identities(jobs) {
      assert Identities(r)[i] == Identity(r[i]);
      assert Identities(jobs)[i] == Identity(jobs[i]);
    }
    if Identity(jobs[i]) == Identity(j) {
      forall k | 0 <= k < |jobs| ensures Identities(r)[k] == Identities(jobs)[k] {
      }
    }
  }

  /** Two failed triggers share the empty ID, so polling the later one rewrites the earlier one. */
  lemma PollCanRewriteAnotherEntry()
    ensures var a := JobStatus("", Provision, 1, Failed, NoMessage, false);
            var b := JobStatus("", Provision, 2, Failed, NoMessage, false);
            PollLatest([a, b], Provision, Failed, NoMessage)[0].timestamp == 2
  {
    var a := JobStatus("", Provision, 1, Failed, NoMessage, false);
    var b := JobStatus("", Provision, 2, Failed, NoMessage, false);
    assert [a, b][..1] == [a];
    assert LatestAt([a], Provision) == Some(0);
    assert LatestAt([a, b], Provision) == Some(1);
  }

  /** After a poll the latest job of the polled type still has its ID and time; every entry of the new list has
      the identity of some entry of the old list. */
  lemma {:induction false} PollFacts(jobs: seq<JobStatus>, t: JobType, state: JobState, message: Message)
    ensures var r := PollLatest(jobs, t, state, message);
            && |r| == |jobs|
            && (Latest(jobs, t).Some? ==>
                  && Latest(r, t).Some?
                  && Identity(Latest(r, t).value) == Identity(Latest(jobs, t).value)
                  && Latest(r, t).value.state == state)
            && (forall e :: e in r ==> exists o :: o in jobs && Identity(o) == Identity(e))
  {
    var r := PollLatest(jobs, t, state, message);
    if Latest(jobs, t).Some? {
      LatestIsFirstMaximum(jobs, t);
      LatestIsFirstMaximum(r, t);
      var l := LatestAt(jobs, t).value;
      var j := jobs[l];
      var i := IndexOfID(jobs, j.jobID).value;
      assert i <= l;
      var upd := j.(state := state, message := message);
      assert r == jobs[i := upd];
      assert IsFirstMaximum(r, t, i) by {
        forall k | 0 <= k < i && r[k].jobType == t ensures r[k].timestamp < r[i].timestamp {
          assert r[k] == jobs[k];
        }
        forall k | i < k < |r| && r[k].jobType == t ensures r[k].timestamp <= r[i].timestamp {
          assert r[k] == jobs[k];
        }
      }
      forall e | e in r ensures exists o :: o in jobs && Identity(o) == Identity(e) {
        if e == upd {
          assert j in jobs && Identity(j) == Identity(e);
        } else {
          assert e in jobs;
        }
      }
    } else {
      forall e | e in r ensures exists o :: o in jobs && Identity(o) == Identity(e) {
        assert e in jobs;
      }
    }
  }

  /** What a poll stores: the latest job of the type gets the state and message and stays the latest; entries under
      other IDs stay as they are. */
  lemma PollStores(jobs: seq<JobStatus>, t: JobType, state: JobState, message: Message)
    requires Latest(jobs, t).Some?
    ensures var r, job := PollLatest(jobs, t, state, message), Latest(jobs, t).value;
            && |r| == |jobs|
            && Latest(r, t) == Some(job.(state := state, message := message))
            && (forall k :: 0 <= k < |jobs| && jobs[k].jobID != job.jobID ==> r[k] == jobs[k])
            && (forall k :: 0 <= k < |jobs| ==> r[k].jobID == jobs[k].jobID)
  {
    PollFacts(jobs, t, state, message);
    var r, job := PollLatest(jobs, t, state, message), Latest(jobs, t).value;
    var i := IndexOfID(jobs, job.jobID).value;
    LatestIsFirstMaximum(jobs, t);
    LatestIsFirstMaximum(r, t);
    assert i <= LatestAt(jobs, t).value;
    assert r == jobs[i := job.(state := state, message := message)];
  }

  // ---------- whole histories ----------

  datatype HistoryStep = Append(job: JobStatus) | Poll(jobType: JobType, state: JobState, message: Message)

  function Apply(jobs: seq<JobStatus>, s: HistoryStep, maxHistory: nat): seq<JobStatus> {
    match s
    case Append(j) => AppendJob(jobs, j, maxHistory)
    case Poll(t, st, m) => PollLatest(jobs, t, st, m)
  }

  /** The history after a sequence of steps, starting from nothing. */
  function History(steps: seq<HistoryStep>, maxHistory: nat): seq<JobStatus> {
    if steps == [] then []
    else Apply(History(steps[..|steps| - 1], maxHistory), steps[|steps| - 1], maxHistory)
  }

  /** Every job ever appended, in order. */
  function Log(steps: seq<HistoryStep>): seq<JobStatus> {
    if steps == [] then []
    else
      var p := Log(steps[..|steps| - 1]);
      match steps[|steps| - 1]
      case Append(j) => p + [j]
      case Poll(_, _, _) => p
  }

  predicate UniqueIDs(jobs: seq<JobStatus>) {
    forall i, k :: 0 <= i < k < |jobs| ==> jobs[i].jobID != jobs[k].jobID
  }

  /** A log with unique IDs had unique IDs before its last step. */
  lemma UniqueBefore(steps: seq<HistoryStep>)
    requires steps != [] && UniqueIDs(Log(steps))
    ensures UniqueIDs(Log(steps[..|steps| - 1]))
  {
    var plog := Log(steps[..|steps| - 1]);
    assert forall k :: 0 <= k < |plog| ==> plog[k] == Log(steps)[k];
  }

  /** Every reachable history is the tail, in append order, of the log of all appended jobs, cut to maxHistory,
      and differs from it only in states and messages. */
  lemma {:induction false} HistoryIsLogSuffix(steps: seq<HistoryStep>, maxHistory: nat)
    requires maxHistory >= 1
    requires UniqueIDs(Log(steps))
    ensures IsTailOf(History(steps, maxHistory), Log(steps), maxHistory)
  {
    if steps == [] {
    } else {
      var front := steps[..|steps| - 1];
      UniqueBefore(steps);
      HistoryIsLogSuffix(front, maxHistory);
      match steps[|steps| - 1] {
        case Append(j) => AppendKeepsSuffix(History(front, maxHistory), Log(front), j, maxHistory);
        case Poll(t, st, m) => PollKeepsTail(History(front, maxHistory), Log(front), t, st, m, maxHistory);
      }
    }
  }

  /** h is the end of the log, as long as maxHistory allows, up to states and messages. */
  predicate IsTailOf(h: seq<JobStatus>, log: seq<JobStatus>, maxHistory: nat) {
    && |h| == (if |log| <= maxHistory then |log| else maxHistory)
    && Identities(h) == Identities(log[|log| - |h|..])
  }

  lemma PollKeepsSuffix(p: seq<JobStatus>, plog: seq<JobStatus>, t: JobType, st: JobState, m: Message)
    requires |p| <= |plog| && UniqueIDs(plog)
    requires Identities(p) == Identities(plog[|plog| - |p|..])
    ensures |PollLatest(p, t, st, m)| == |p|
    ensures Identities(PollLatest(p, t, st, m)) == Identities(p)
  {
    PollFacts(p, t, st, m);
    if Latest(p, t).Some? {
      PollKeepsIdentitiesExactlyWhen(p, t, st, m);
      var l := LatestAt(p, t).value;
      var i := IndexOfID(p, p[l].jobID).value;
      var base := |plog| - |p|;
      var tail := plog[base..];
      assert Identity(p[l]) == Identities(tail)[l] == Identity(plog[base + l]);
      assert Identity(p[i]) == Identities(tail)[i] == Identity(plog[base + i]);
      assert l == i;
    }
  }

  lemma PollKeepsTail(p: seq<JobStatus>, plog: seq<JobStatus>, t: JobType, st: JobState, m: Message, maxHistory: nat)
    requires UniqueIDs(plog) && IsTailOf(p, plog, maxHistory)
    ensures IsTailOf(PollLatest(p, t, st, m), plog, maxHistory)
  {
    PollKeepsSuffix(p, plog, t, st, m);
  }

  lemma AppendKeepsSuffix(p: seq<JobStatus>, plog: seq<JobStatus>, j: JobStatus, maxHistory: nat)
    requires maxHistory >= 1 && IsTailOf(p, plog, maxHistory)
    ensures IsTailOf(AppendJob(p, j, maxHistory), plog + [j], maxHistory)
  {
    AppendShape(p, j, maxHistory);
    var d := Dropped(p, maxHistory);
    var h, log := AppendJob(p, j, maxHistory), plog + [j];
    var tail := log[|log| - |h|..];
    forall k | 0 <= k < |h| ensures Identities(h)[k] == Identities(tail)[k] {
      if k < |h| - 1 {
        assert h[k] == p[k + d];
        assert Identities(p)[k + d] == Identities(plog[|plog| - |p|..])[k + d];
      }
    }
  }
}
