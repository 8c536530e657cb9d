// The feedback controller's synchronisation of a CR's status into the fulfillment record: a record whose fields
// and condition list are updated in place.

module FeedbackSync {
  import opened Options
  import opened Providers
  import L = Lifecycle

  datatype CrConditionStatus = CrTrue | CrFalse | CrUnknown

  datatype CrCondition = CrCondition(status: CrConditionStatus, message: string)

  /** What syncState reads from the CR: its conditions by type (None when missing), phase, floating IP annotation
      and last restart. */
  datatype CrView = CrView(progressing: Option<CrCondition>, accepted: Option<CrCondition>,
                           available: Option<CrCondition>,
                           restartInProgress: Option<CrCondition>, restartFailed: Option<CrCondition>,
                           phase: Phase, ipAddress: Option<string>, lastRestartedAt: Option<int>)

  datatype Kind = Progressing | Available | RestartInProgress | RestartFailed | OtherKind(name: string)

  datatype RecordStatus = Unspecified | True | False

  datatype RecordCondition = RecordCondition(kind: Kind, status: RecordStatus, message: string,
                                             lastTransitionTime: Option<int>)

  datatype Record = Record(conditions: seq<RecordCondition>, state: L.RecordState, ipAddress: string,
                           lastRestartedAt: Option<int>)

  // ---------- specification ----------

  function MapConditionStatus(s: CrConditionStatus): RecordStatus {
    match s case CrTrue => True case CrFalse => False case CrUnknown => Unspecified
  }

  predicate IsTrue(c: Option<CrCondition>) { c.Some? && c.value.status == CrTrue }

  predicate IsUnknown(c: Option<CrCondition>) { c.None? || c.value.status == CrUnknown }

  /** What PROGRESSING should say, from the CR's Progressing and Accepted conditions. */
  function ProgressingOf(cr: CrView): (RecordStatus, string) {
    if IsUnknown(cr.progressing) && IsUnknown(cr.accepted) then (Unspecified, "")
    else if IsTrue(cr.progressing) then (True, cr.progressing.value.message)
    else if IsTrue(cr.accepted) then (True, cr.accepted.value.message)
    else (False, "")
  }

  function FindKind(conditions: seq<RecordCondition>, kind: Kind): (r: Option<nat>)
    ensures r.Some? ==> r.value < |conditions| && conditions[r.value].kind == kind
                        && forall k :: 0 <= k < r.value ==> conditions[k].kind != kind
    ensures r.None? ==> forall k :: 0 <= k < |conditions| ==> conditions[k].kind != kind
    decreases |conditions|
  {
    if conditions == [] then None
    else
      var n := |conditions| - 1;
      var r := FindKind(conditions[..n], kind);
      if r.Some? then r
      else if conditions[n].kind == kind then Some(n)
      else None
  }

  /** findComputeInstanceCondition: a missing condition is first appended as FALSE. */
  function WithKind(conditions: seq<RecordCondition>, kind: Kind): (r: seq<RecordCondition>)
    ensures FindKind(r, kind).Some?
  {
    if FindKind(conditions, kind).Some? then conditions
    else conditions + [RecordCondition(kind, False, "", None)]
  }

  /** The condition after a sync: status and message are copied, the time moves only with the status. */
  function Synced(c: RecordCondition, status: RecordStatus, message: string, now: int): RecordCondition {
    RecordCondition(c.kind, status, message, if status != c.status then Some(now) else c.lastTransitionTime)
  }

  function SyncKind(conditions: seq<RecordCondition>, kind: Kind, status: RecordStatus, message: string, now: int)
    : seq<RecordCondition>
  {
    var all := WithKind(conditions, kind);
    var i := FindKind(all, kind).value;
    all[i := Synced(all[i], status, message, now)]
  }

  /** A CR condition that is missing leaves the record's condition alone. */
  function SyncFrom(conditions: seq<RecordCondition>, kind: Kind, c: Option<CrCondition>, now: int)
    : seq<RecordCondition>
  {
    if c.None? then conditions else SyncKind(conditions, kind, MapConditionStatus(c.value.status), c.value.message, now)
  }

  function SyncConditions(conditions: seq<RecordCondition>, cr: CrView, now: int): seq<RecordCondition> {
    var p := ProgressingOf(cr);
    var c1 := SyncKind(conditions, Progressing, p.0, p.1, now);
    var c2 := SyncFrom(c1, Available, cr.available, now);
    var c3 := SyncFrom(c2, RestartInProgress, cr.restartInProgress, now);
    SyncFrom(c3, RestartFailed, cr.restartFailed, now)
  }

  function SyncState(r: Record, cr: CrView, now: int): Record {
    Record(SyncConditions(r.conditions, cr, now), L.SyncPhase(r.state, cr.phase),
           if cr.ipAddress.Some? && cr.ipAddress.value != "" then cr.ipAddress.value else r.ipAddress,
           if cr.lastRestartedAt.Some? then cr.lastRestartedAt else r.lastRestartedAt)
  }

  // ---------- the record being synchronised ----------

  class FulfillmentRecord {
    var conditions: seq<RecordCondition>
    var state: L.RecordState
    var ipAddress: string
    var lastRestartedAt: Option<int>

    constructor (r: Record)
      ensures View() == r
    {
      conditions, state, ipAddress, lastRestartedAt := r.conditions, r.state, r.ipAddress, r.lastRestartedAt;
    }

    function View(): Record
      reads this
    {
      Record(conditions, state, ipAddress, lastRestartedAt)
    }

    /** The position of the condition of a kind; appends one if there is none. */
    method FindCondition(kind: Kind) returns (i: nat)
      modifies this`conditions
      ensures conditions == WithKind(old(conditions), kind)
      ensures FindKind(conditions, kind) == Some(i)
    {
      i := 0;
      while i < |conditions|
        invariant i <= |conditions| && conditions == old(conditions)
        invariant forall k :: 0 <= k < i ==> conditions[k].kind != kind
      {
        if conditions[i].kind == kind {
          return;
        }
        i := i + 1;
      }
      conditions := conditions + [RecordCondition(kind, False, "", None)];
    }

    method SyncCondition(kind: Kind, status: RecordStatus, message: string, now: int)
      modifies this`conditions
      ensures conditions == SyncKind(old(conditions), kind, status, message, now)
    {
      var i := FindCondition(kind);
      var oldStatus := conditions[i].status;
      var time := conditions[i].lastTransitionTime;
      if status != oldStatus {
        time := Some(now);
      }
      conditions := conditions[i := RecordCondition(conditions[i].kind, status, message, time)];
    }

    method SyncFromCr(kind: Kind, c: Option<CrCondition>, now: int)
      modifies this`conditions
      ensures conditions == SyncFrom(old(conditions), kind, c, now)
    {
      if c.Some? {
        SyncCondition(kind, MapConditionStatus(c.value.status), c.value.message, now);
      }
    }

    method Sync(cr: CrView, now: int)
      modifies this
      ensures View() == SyncState(old(View()), cr, now)
    {
      var p := ProgressingOf(cr);
      SyncCondition(Progressing, p.0, p.1, now);
      SyncFromCr(Available, cr.available, now);
      SyncFromCr(RestartInProgress, cr.restartInProgress, now);
      SyncFromCr(RestartFailed, cr.restartFailed, now);
      state := L.SyncPhase(state, cr.phase);
      if cr.ipAddress.Some? && cr.ipAddress.value != "" {
        ipAddress := cr.ipAddress.value;
      }
      if cr.lastRestartedAt.Some? {
        lastRestartedAt := cr.lastRestartedAt;
      }
    }
  }

  // ---------- idempotence ----------

  /** The condition of a kind the record shows. */
  function Shown(conditions: seq<RecordCondition>, kind: Kind): Option<RecordCondition> {
    match FindKind(conditions, kind)
    case None => None
    case Some(i) => Some(conditions[i])
  }

  /** Overwriting an entry with one of the same kind shows it for that kind and changes nothing another kind shows. */
  lemma OverwriteShows(all: seq<RecordCondition>, kind: Kind, c: RecordCondition, other: Kind)
    requires FindKind(all, kind).Some? && c.kind == kind
    ensures var r := all[FindKind(all, kind).value := c];
            && Shown(r, kind) == Some(c)
            && (other != kind ==> Shown(r, other) == Shown(all, other))
  {
    var r := all[FindKind(all, kind).value := c];
    SameKindsSameFind(all, r, kind);
    SameKindsSameFind(all, r, other);
  }

  /** The condition a sync starts from. */
  function Base(conditions: seq<RecordCondition>, kind: Kind): RecordCondition {
    if Shown(conditions, kind).Some? then Shown(conditions, kind).value else RecordCondition(kind, False, "", None)
  }

  /** Syncing one kind shows the new status and message for it and changes nothing another kind shows. */
  lemma SyncKindShows(conditions: seq<RecordCondition>, kind: Kind, status: RecordStatus, message: string, now: int,
                      other: Kind)
    ensures var r := SyncKind(conditions, kind, status, message, now);
            && Shown(r, kind) == Some(Synced(Base(conditions, kind), status, message, now))
            && (other != kind ==> Shown(r, other) == Shown(conditions, other))
  {
    var all := WithKind(conditions, kind);
    FindAppended(conditions, kind, other);
    assert Shown(all, kind) == Some(Base(conditions, kind));
    OverwriteShows(all, kind, Synced(all[FindKind(all, kind).value], status, message, now), other);
  }

  lemma FindInAppended(conditions: seq<RecordCondition>, c: RecordCondition, kind: Kind)
    ensures FindKind(conditions + [c], kind) ==
            if FindKind(conditions, kind).None? && c.kind == kind then Some(|conditions|)
            else FindKind(conditions, kind)
  {
    assert (conditions + [c])[..|conditions|] == conditions;
  }

  lemma FindAppended(conditions: seq<RecordCondition>, kind: Kind, other: Kind)
    ensures other != kind ==> Shown(WithKind(conditions, kind), other) == Shown(conditions, other)
    ensures FindKind(conditions, kind).None? ==> FindKind(WithKind(conditions, kind), kind) == Some(|conditions|)
  {
    var missing := RecordCondition(kind, False, "", None);
    FindInAppended(conditions, missing, kind);
    FindInAppended(conditions, missing, other);
  }

  lemma SameKindsSameFind(a: seq<RecordCondition>, b: seq<RecordCondition>, kind: Kind)
    requires |a| == |b| && forall k :: 0 <= k < |a| ==> a[k].kind == b[k].kind
    ensures FindKind(a, kind) == FindKind(b, kind)
  {
    var f, g := FindKind(a, kind), FindKind(b, kind);
    if f.Some? { assert b[f.value].kind == kind; }
    if g.Some? { assert a[g.value].kind == kind; }
  }

  /** The kind already shows the status and message: syncing it again changes nothing at all. */
  predicate Settled(conditions: seq<RecordCondition>, kind: Kind, status: RecordStatus, message: string) {
    var shown := Shown(conditions, kind);
    shown.Some? && shown.value.status == status && shown.value.message == message
  }

  lemma SettledSync(conditions: seq<RecordCondition>, kind: Kind, status: RecordStatus, message: string, now: int)
    requires Settled(conditions, kind, status, message)
    ensures SyncKind(conditions, kind, status, message, now) == conditions
  {
  }

  predicate SettledFrom(conditions: seq<RecordCondition>, kind: Kind, c: Option<CrCondition>) {
    c.Some? ==> Settled(conditions, kind, MapConditionStatus(c.value.status), c.value.message)
  }

  /** A sync settles its own kind and keeps every other kind settled. */
  lemma SyncFromSettles(conditions: seq<RecordCondition>, kind: Kind, c: Option<CrCondition>, now: int,
                        other: Kind, status: RecordStatus, message: string)
    ensures SettledFrom(SyncFrom(conditions, kind, c, now), kind, c)
    ensures other != kind && Settled(conditions, other, status, message) ==>
              Settled(SyncFrom(conditions, kind, c, now), other, status, message)
  {
    if c.Some? {
      SyncKindShows(conditions, kind, MapConditionStatus(c.value.status), c.value.message, now, other);
    }
  }

  /** After a sync all four kinds are settled. */
  ghost predicate AllSettled(conditions: seq<RecordCondition>, cr: CrView) {
    && Settled(conditions, Progressing, ProgressingOf(cr).0, ProgressingOf(cr).1)
    && SettledFrom(conditions, Available, cr.available)
    && SettledFrom(conditions, RestartInProgress, cr.restartInProgress)
    && SettledFrom(conditions, RestartFailed, cr.restartFailed)
  }

  lemma KeepsSettled(conditions: seq<RecordCondition>, kind: Kind, c: Option<CrCondition>, now: int,
                     other: Kind, d: Option<CrCondition>)
    requires other != kind && SettledFrom(conditions, other, d)
    ensures SettledFrom(SyncFrom(conditions, kind, c, now), other, d)
  {
    if d.Some? {
      SyncFromSettles(conditions, kind, c, now, other, MapConditionStatus(d.value.status), d.value.message);
    }
  }

  lemma SyncSettlesAll(conditions: seq<RecordCondition>, cr: CrView, now: int)
    ensures AllSettled(SyncConditions(conditions, cr, now), cr)
  {
    var p := ProgressingOf(cr);
    var c1 := SyncKind(conditions, Progressing, p.0, p.1, now);
    var c2 := SyncFrom(c1, Available, cr.available, now);
    var c3 := SyncFrom(c2, RestartInProgress, cr.restartInProgress, now);
    SyncKindShows(conditions, Progressing, p.0, p.1, now, Available);
    SyncFromSettles(c1, Available, cr.available, now, Progressing, p.0, p.1);
    SyncFromSettles(c2, RestartInProgress, cr.restartInProgress, now, Progressing, p.0, p.1);
    SyncFromSettles(c3, RestartFailed, cr.restartFailed, now, Progressing, p.0, p.1);
    KeepsSettled(c2, RestartInProgress, cr.restartInProgress, now, Available, cr.available);
    KeepsSettled(c3, RestartFailed, cr.restartFailed, now, Available, cr.available);
    KeepsSettled(c3, RestartFailed, cr.restartFailed, now, RestartInProgress, cr.restartInProgress);
  }

  lemma SettledSyncFrom(conditions: seq<RecordCondition>, kind: Kind, c: Option<CrCondition>, now: int)
    requires SettledFrom(conditions, kind, c)
    ensures SyncFrom(conditions, kind, c, now) == conditions
  {
    if c.Some? {
      SettledSync(conditions, kind, MapConditionStatus(c.value.status), c.value.message, now);
    }
  }

  lemma AllSettledSync(conditions: seq<RecordCondition>, cr: CrView, now: int)
    requires AllSettled(conditions, cr)
    ensures SyncConditions(conditions, cr, now) == conditions
  {
    SettledSync(conditions, Progressing, ProgressingOf(cr).0, ProgressingOf(cr).1, now);
    SettledSyncFrom(conditions, Available, cr.available, now);
    SettledSyncFrom(conditions, RestartInProgress, cr.restartInProgress, now);
    SettledSyncFrom(conditions, RestartFailed, cr.restartFailed, now);
  }

  /** Idempotence on any record: a second pass over the same CR, at any later time, changes nothing, so nothing is
      sent. */
  lemma SyncIsIdempotent(r: Record, cr: CrView, now: int, later: int)
    ensures SyncState(SyncState(r, cr, now), cr, later) == SyncState(r, cr, now)
  {
    SyncSettlesAll(r.conditions, cr, now);
    AllSettledSync(SyncConditions(r.conditions, cr, now), cr, later);
  }

  // ---------- transition times ----------

  /** The time shown for a kind moves from one record to the next only with its status, and then to now. */
  ghost predicate TimesFollow(a: seq<RecordCondition>, b: seq<RecordCondition>, kind: Kind, now: int) {
    Shown(a, kind).Some? ==>
      && Shown(b, kind).Some?
      && Shown(b, kind).value.lastTransitionTime ==
         if Shown(b, kind).value.status != Shown(a, kind).value.status then Some(now)
         else Shown(a, kind).value.lastTransitionTime
  }

  lemma SyncFromTimes(conditions: seq<RecordCondition>, kind: Kind, c: Option<CrCondition>, now: int, shown: Kind)
    ensures var r := SyncFrom(conditions, kind, c, now);
            && TimesFollow(conditions, r, shown, now)
            && (shown != kind ==> Shown(r, shown) == Shown(conditions, shown))
  {
    if c.Some? {
      SyncKindShows(conditions, kind, MapConditionStatus(c.value.status), c.value.message, now, shown);
    }
  }

  /** In one pass every condition's transition time moves exactly with its status, whatever its kind. */
  lemma TimeMovesExactlyWithStatus(r: Record, cr: CrView, now: int, kind: Kind)
    ensures TimesFollow(r.conditions, SyncState(r, cr, now).conditions, kind, now)
  {
    var p := ProgressingOf(cr);
    var c1 := SyncKind(r.conditions, Progressing, p.0, p.1, now);
    var c2 := SyncFrom(c1, Available, cr.available, now);
    var c3 := SyncFrom(c2, RestartInProgress, cr.restartInProgress, now);
    SyncKindShows(r.conditions, Progressing, p.0, p.1, now, kind);
    SyncFromTimes(c1, Available, cr.available, now, kind);
    SyncFromTimes(c2, RestartInProgress, cr.restartInProgress, now, kind);
    SyncFromTimes(c3, RestartFailed, cr.restartFailed, now, kind);
  }

  /** The time of a condition that a synchronisation adds: none for FALSE, now otherwise. */
  predicate StartsFalse(conditions: seq<RecordCondition>, kind: Kind, now: int) {
    var shown := Shown(conditions, kind);
    shown.Some? ==> shown.value.lastTransitionTime == if shown.value.status == False then None else Some(now)
  }

  lemma SyncFromStartsFalse(conditions: seq<RecordCondition>, kind: Kind, c: Option<CrCondition>, now: int, shown: Kind)
    requires StartsFalse(conditions, shown, now)
    requires shown == kind ==> Shown(conditions, kind) == None
    ensures var r := SyncFrom(conditions, kind, c, now);
            && StartsFalse(r, shown, now)
            && (shown != kind ==> Shown(r, shown) == Shown(conditions, shown))
  {
    if c.Some? {
      SyncKindShows(conditions, kind, MapConditionStatus(c.value.status), c.value.message, now, shown);
    }
  }

  /** A kind the record lacked counts as FALSE before: added as FALSE it shows no time, otherwise now. */
  lemma MissingCountsAsFalse(r: Record, cr: CrView, now: int, kind: Kind)
    requires Shown(r.conditions, kind) == None
    ensures StartsFalse(SyncState(r, cr, now).conditions, kind, now)
  {
    var p := ProgressingOf(cr);
    var c1 := SyncKind(r.conditions, Progressing, p.0, p.1, now);
    var c2 := SyncFrom(c1, Available, cr.available, now);
    var c3 := SyncFrom(c2, RestartInProgress, cr.restartInProgress, now);
    SyncKindShows(r.conditions, Progressing, p.0, p.1, now, kind);
    SyncFromStartsFalse(c1, Available, cr.available, now, kind);
    SyncFromStartsFalse(c2, RestartInProgress, cr.restartInProgress, now, kind);
    SyncFromStartsFalse(c3, RestartFailed, cr.restartFailed, now, kind);
  }

  // ---------- what the record says afterwards ----------

  /** The status a CR condition's status stands for in the record. */
  predicate StandsFor(cr: CrConditionStatus, record: RecordStatus) {
    && (cr == CrTrue ==> record == True)
    && (cr == CrFalse ==> record == False)
    && (cr == CrUnknown ==> record == Unspecified)
  }

  /** The record's condition of a kind follows the CR's condition; a missing one leaves it as it was. */
  predicate Follows(before: seq<RecordCondition>, conditions: seq<RecordCondition>, kind: Kind, c: Option<CrCondition>)
  {
    match c
    case None => Shown(conditions, kind) == Shown(before, kind)
    case Some(condition) =>
      var shown := Shown(conditions, kind);
      shown.Some? && StandsFor(condition.status, shown.value.status) && shown.value.message == condition.message
  }

  predicate Says(c: Option<CrCondition>, status: CrConditionStatus) { c.Some? && c.value.status == status }

  /** PROGRESSING: true while the CR is progressing or, failing that, accepted, with that condition's message; unknown
      when neither is known; false otherwise. */
  predicate Progresses(conditions: seq<RecordCondition>, cr: CrView) {
    var shown := Shown(conditions, Progressing);
    && shown.Some?
    && if Says(cr.progressing, CrTrue)
       then shown.value.status == True && shown.value.message == cr.progressing.value.message
       else if Says(cr.accepted, CrTrue)
       then shown.value.status == True && shown.value.message == cr.accepted.value.message
       else if Says(cr.progressing, CrFalse) || Says(cr.accepted, CrFalse)
       then shown.value.status == False && shown.value.message == ""
       else shown.value.status == Unspecified && shown.value.message == ""
  }

  /** The state the record shows for each phase of the CR. */
  predicate StateFollows(before: L.RecordState, state: L.RecordState, phase: Phase) {
    && (phase == Phase.Starting ==> state == L.RecordStarting)
    && (phase == Phase.Running ==> state == L.RecordRunning)
    && (phase == Phase.Failed ==> state == L.RecordFailed)
    && (phase == Phase.Deleting ==> state == L.RecordDeleting)
    && (phase == Phase.NoPhase ==> state == before)
  }

  /** The record after a synchronisation, from the CR alone. */
  predicate RecordFollows(before: Record, after: Record, cr: CrView) {
    && StateFollows(before.state, after.state, cr.phase)
    && ConditionsFollow(before.conditions, after.conditions, cr)
    && after.ipAddress == (if cr.ipAddress == None || cr.ipAddress == Some("") then before.ipAddress
                           else cr.ipAddress.value)
    && after.lastRestartedAt == (if cr.lastRestartedAt == None then before.lastRestartedAt else cr.lastRestartedAt)
  }

  predicate ConditionsFollow(before: seq<RecordCondition>, conditions: seq<RecordCondition>, cr: CrView) {
    && Progresses(conditions, cr)
    && Follows(before, conditions, Available, cr.available)
    && Follows(before, conditions, RestartInProgress, cr.restartInProgress)
    && Follows(before, conditions, RestartFailed, cr.restartFailed)
  }

  /** After a synchronisation, from the CR alone: state, all four conditions, address and restart time. */
  lemma SyncMeans(r: Record, cr: CrView, now: int)
    ensures RecordFollows(r, SyncState(r, cr, now), cr)
  {
    var conditions := SyncConditions(r.conditions, cr, now);
    SyncProgresses(r.conditions, cr, now);
    SyncFollows(r.conditions, cr, now, Available);
    SyncFollows(r.conditions, cr, now, RestartInProgress);
    SyncFollows(r.conditions, cr, now, RestartFailed);
    FieldsMean(r, SyncState(r, cr, now), cr, now, conditions);
  }

  lemma FieldsMean(r: Record, s: Record, cr: CrView, now: int, conditions: seq<RecordCondition>)
    requires s == Record(conditions, L.SyncPhase(r.state, cr.phase), s.ipAddress, s.lastRestartedAt)
    requires s.ipAddress == if cr.ipAddress.Some? && cr.ipAddress.value != "" then cr.ipAddress.value else r.ipAddress
    requires s.lastRestartedAt == if cr.lastRestartedAt.Some? then cr.lastRestartedAt else r.lastRestartedAt
    requires Progresses(conditions, cr)
    requires Follows(r.conditions, conditions, Available, Followed(cr, Available))
    requires Follows(r.conditions, conditions, RestartInProgress, Followed(cr, RestartInProgress))
    requires Follows(r.conditions, conditions, RestartFailed, Followed(cr, RestartFailed))
    ensures RecordFollows(r, s, cr)
  {
  }

  lemma SyncProgresses(conditions: seq<RecordCondition>, cr: CrView, now: int)
    ensures Progresses(SyncConditions(conditions, cr, now), cr)
  {
    SyncSettlesAll(conditions, cr, now);
    SettledProgresses(SyncConditions(conditions, cr, now), cr);
  }

  lemma SettledProgresses(conditions: seq<RecordCondition>, cr: CrView)
    requires Settled(conditions, Progressing, ProgressingOf(cr).0, ProgressingOf(cr).1)
    ensures Progresses(conditions, cr)
  {
  }

  lemma SettledFollows(before: seq<RecordCondition>, conditions: seq<RecordCondition>, kind: Kind,
                       c: Option<CrCondition>)
    requires SettledFrom(conditions, kind, c) && c.Some?
    ensures Follows(before, conditions, kind, c)
  {
  }

  lemma SyncFollows(conditions: seq<RecordCondition>, cr: CrView, now: int, kind: Kind)
    requires kind in {Available, RestartInProgress, RestartFailed}
    ensures Follows(conditions, SyncConditions(conditions, cr, now), kind, Followed(cr, kind))
  {
    var c := Followed(cr, kind);
    if c.None? {
      MissingStays(conditions, cr, now, kind);
    } else {
      SyncSettlesAll(conditions, cr, now);
      SettledFollows(conditions, SyncConditions(conditions, cr, now), kind, c);
    }
  }

  /** The CR's condition a kind follows; PROGRESSING follows more than one. */
  function Followed(cr: CrView, kind: Kind): Option<CrCondition> {
    match kind
    case Available => cr.available
    case RestartInProgress => cr.restartInProgress
    case RestartFailed => cr.restartFailed
    case _ => None
  }

  /** A kind with nothing to follow is left alone: those the CR lacks, and all the record has of its own. */
  lemma MissingStays(conditions: seq<RecordCondition>, cr: CrView, now: int, kind: Kind)
    requires kind != Progressing && Followed(cr, kind).None?
    ensures Shown(SyncConditions(conditions, cr, now), kind) == Shown(conditions, kind)
  {
    var p := ProgressingOf(cr);
    var c1 := SyncKind(conditions, Progressing, p.0, p.1, now);
    var c2 := SyncFrom(c1, Available, cr.available, now);
    var c3 := SyncFrom(c2, RestartInProgress, cr.restartInProgress, now);
    SyncKindShows(conditions, Progressing, p.0, p.1, now, kind);
    SyncFromTimes(c1, Available, cr.available, now, kind);
    SyncFromTimes(c2, RestartInProgress, cr.restartInProgress, now, kind);
    SyncFromTimes(c3, RestartFailed, cr.restartFailed, now, kind);
  }
}
