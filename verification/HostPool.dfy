// The condition list of a HostPool: an in-place list that is meant to behave as a map from type to condition.

module HostPool {
  import opened Options

  datatype ConditionStatus = True | False | Unknown

  datatype Condition = Condition(conditionType: string, status: ConditionStatus, reason: string, message: string,
                                 lastTransitionTime: int)

  // ---------- the list ----------

  predicate UniqueTypes(conditions: seq<Condition>) {
    forall i, k :: 0 <= i < k < |conditions| ==> conditions[i].conditionType != conditions[k].conditionType
  }

  /** The position of the first condition of a type. */
  function Find(conditions: seq<Condition>, t: string): (r: Option<nat>)
    ensures r.Some? ==> r.value < |conditions| && conditions[r.value].conditionType == t
                        && forall k :: 0 <= k < r.value ==> conditions[k].conditionType != t
    ensures r.None? ==> forall k :: 0 <= k < |conditions| ==> conditions[k].conditionType != t
    decreases |conditions|
  {
    if conditions == [] then None
    else
      var n := |conditions| - 1;
      var r := Find(conditions[..n], t);
      if r.Some? then r
      else if conditions[n].conditionType == t then Some(n)
      else None
  }

  /** A set reads the clock when it starts (now) and again when it finds a changed status (later). */
  datatype Operation =
    | Set(conditionType: string, status: ConditionStatus, reason: string, message: string, now: int, later: int)
    | Remove(conditionType: string)

  /** The entry a set writes: an existing entry's time is kept exactly when its status stays the same. */
  function Updated(existing: Option<Condition>, op: Operation): Condition
    requires op.Set?
  {
    var time := if existing.None? then op.now
                else if existing.value.status != op.status then op.later
                else existing.value.lastTransitionTime;
    Condition(op.conditionType, op.status, op.reason, op.message, time)
  }

  function Replaced(conditions: seq<Condition>, op: Operation): seq<Condition>
    requires op.Set?
  {
    match Find(conditions, op.conditionType)
    case Some(i) => conditions[i := Updated(Some(conditions[i]), op)]
    case None => conditions + [Updated(None, op)]
  }

  function Removed(conditions: seq<Condition>, t: string): seq<Condition> {
    match Find(conditions, t)
    case Some(i) => conditions[..i] + conditions[i + 1..]
    case None => conditions
  }

  class ConditionList {
    var conditions: seq<Condition>

    constructor ()
      ensures conditions == []
    {
      conditions := [];
    }

    /** SetCondition: overwrite the first entry of the type, or append. */
    method SetCondition(t: string, status: ConditionStatus, reason: string, message: string, now: int, later: int)
      modifies this`conditions
      ensures conditions == Replaced(old(conditions), Set(t, status, reason, message, now, later))
    {
      var condition := Condition(t, status, reason, message, now);
      var i := 0;
      while i < |conditions|
        invariant 0 <= i <= |conditions| && conditions == old(conditions)
        invariant forall k :: 0 <= k < i ==> conditions[k].conditionType != t
      {
        if conditions[i].conditionType == t {
          if conditions[i].status != status {
            condition := condition.(lastTransitionTime := later);
          } else {
            condition := condition.(lastTransitionTime := conditions[i].lastTransitionTime);
          }
          assert Find(old(conditions), t) == Some(i);
          conditions := conditions[i := condition];
          return;
        }
        i := i + 1;
      }
      conditions := conditions + [condition];
    }

    method GetCondition(t: string) returns (r: Option<Condition>)
      ensures r == Get(conditions, t)
      ensures r.Some? ==> r.value in conditions && r.value.conditionType == t
    {
      var i := 0;
      while i < |conditions|
        invariant 0 <= i <= |conditions|
        invariant forall k :: 0 <= k < i ==> conditions[k].conditionType != t
      {
        if conditions[i].conditionType == t {
          assert Find(conditions, t) == Some(i);
          return Some(conditions[i]);
        }
        i := i + 1;
      }
      r := None;
    }

    /** RemoveCondition: splice the first entry of the type out. */
    method RemoveCondition(t: string)
      modifies this`conditions
      ensures conditions == Removed(old(conditions), t)
    {
      var i := 0;
      while i < |conditions|
        invariant 0 <= i <= |conditions| && conditions == old(conditions)
        invariant forall k :: 0 <= k < i ==> conditions[k].conditionType != t
      {
        if conditions[i].conditionType == t {
          assert Find(old(conditions), t) == Some(i);
          conditions := conditions[..i] + conditions[i + 1..];
          return;
        }
        i := i + 1;
      }
    }
  }

  // ---------- operation sequences on the list and on a map ----------

  function ApplyToList(conditions: seq<Condition>, op: Operation): seq<Condition> {
    if op.Set? then Replaced(conditions, op) else Removed(conditions, op.conditionType)
  }

  function ApplyToMap(m: map<string, Condition>, op: Operation): map<string, Condition> {
    match op
    case Set(t, _, _, _, _, _) => m[t := Updated(if t in m then Some(m[t]) else None, op)]
    case Remove(t) => m - {t}
  }

  function ListAfter(ops: seq<Operation>): seq<Condition> {
    if ops == [] then [] else ApplyToList(ListAfter(ops[..|ops| - 1]), ops[|ops| - 1])
  }

  function MapAfter(ops: seq<Operation>): map<string, Condition> {
    if ops == [] then map[] else ApplyToMap(MapAfter(ops[..|ops| - 1]), ops[|ops| - 1])
  }

  /** What GetCondition returns. */
  function Get(conditions: seq<Condition>, t: string): Option<Condition> {
    match Find(conditions, t)
    case Some(i) => Some(conditions[i])
    case None => None
  }

  function Lookup(m: map<string, Condition>, t: string): Option<Condition> {
    if t in m then Some(m[t]) else None
  }

  /** Types are unique and reading any type from the list is reading it from the map. */
  ghost predicate Represents(conditions: seq<Condition>, m: map<string, Condition>) {
    UniqueTypes(conditions) && forall t :: Get(conditions, t) == Lookup(m, t)
  }

  /** What a set stores: status, reason and message as given, the time by whether the status is new. */
  lemma SetStores(conditions: seq<Condition>, t: string, status: ConditionStatus, reason: string, message: string,
                  now: int, later: int, u: string)
    ensures var before := Get(conditions, t);
            var after := ApplyToList(conditions, Set(t, status, reason, message, now, later));
            && (u != t ==> Get(after, u) == Get(conditions, u))
            && Get(after, t)
               == Some(Condition(t, status, reason, message,
                                 if before.None? then now
                                 else if before.value.status == status then before.value.lastTransitionTime
                                 else later))
  {
    SetShows(conditions, Set(t, status, reason, message, now, later), u);
    SetShows(conditions, Set(t, status, reason, message, now, later), t);
  }

  lemma SetShows(conditions: seq<Condition>, op: Operation, u: string)
    requires op.Set?
    ensures Get(Replaced(conditions, op), u)
         == if u == op.conditionType then Some(Updated(Get(conditions, u), op)) else Get(conditions, u)
  {
    match Find(conditions, op.conditionType) {
      case Some(i) => OverwriteShows(conditions, i, Updated(Some(conditions[i]), op), u);
      case None => AppendShows(conditions, Updated(None, op), u);
    }
  }

  lemma OverwriteShows(conditions: seq<Condition>, i: nat, c: Condition, u: string)
    requires Find(conditions, c.conditionType) == Some(i)
    ensures Get(conditions[i := c], u) == if u == c.conditionType then Some(c) else Get(conditions, u)
  {
    var r := conditions[i := c];
    var at, at' := Find(conditions, u), Find(r, u);
    if at.Some? { assert r[at.value].conditionType == u; }
    if at'.Some? { assert conditions[at'.value].conditionType == u; }
  }

  lemma AppendShows(conditions: seq<Condition>, c: Condition, u: string)
    requires Find(conditions, c.conditionType).None?
    ensures Get(conditions + [c], u) == if u == c.conditionType then Some(c) else Get(conditions, u)
  {
    assert (conditions + [c])[..|conditions|] == conditions;
  }

  lemma SpliceShows(conditions: seq<Condition>, i: nat, u: string)
    requires UniqueTypes(conditions) && i < |conditions|
    ensures Get(conditions[..i] + conditions[i + 1..], u)
         == if u == conditions[i].conditionType then None else Get(conditions, u)
  {
    var r := conditions[..i] + conditions[i + 1..];
    var at, at' := Find(conditions, u), Find(r, u);
    if at'.Some? { assert r[at'.value] == conditions[if at'.value < i then at'.value else at'.value + 1]; }
    if at.Some? && at.value != i { assert r[if at.value < i then at.value else at.value - 1] == conditions[at.value]; }
  }

  lemma SetKeepsUnique(conditions: seq<Condition>, op: Operation)
    requires UniqueTypes(conditions) && op.Set?
    ensures UniqueTypes(Replaced(conditions, op))
  {
  }

  lemma SpliceKeepsUnique(conditions: seq<Condition>, i: nat)
    requires UniqueTypes(conditions) && i < |conditions|
    ensures UniqueTypes(conditions[..i] + conditions[i + 1..])
  {
    var r := conditions[..i] + conditions[i + 1..];
    forall j, k | 0 <= j < k < |r| ensures r[j].conditionType != r[k].conditionType {
      assert r[j] == conditions[if j < i then j else j + 1] && r[k] == conditions[if k < i then k else k + 1];
    }
  }

  lemma SetRefines(conditions: seq<Condition>, m: map<string, Condition>, op: Operation)
    requires Represents(conditions, m) && op.Set?
    ensures Represents(Replaced(conditions, op), ApplyToMap(m, op))
  {
    SetKeepsUnique(conditions, op);
    forall u ensures Get(Replaced(conditions, op), u) == Lookup(ApplyToMap(m, op), u) {
      SetShows(conditions, op, u);
    }
  }

  lemma RemoveRefines(conditions: seq<Condition>, m: map<string, Condition>, t: string)
    requires Represents(conditions, m)
    ensures Represents(Removed(conditions, t), m - {t})
  {
    match Find(conditions, t) {
      case Some(i) =>
        SpliceKeepsUnique(conditions, i);
        forall u ensures Get(Removed(conditions, t), u) == Lookup(m - {t}, u) {
          SpliceShows(conditions, i, u);
        }
      case None =>
        assert Get(conditions, t) == Lookup(m, t);
    }
  }

  /** For every operation sequence from an empty list, reading the list is reading the map the same operations
      build, and types stay unique. */
  lemma {:induction false} ListRefinesMap(ops: seq<Operation>)
    ensures Represents(ListAfter(ops), MapAfter(ops))
  {
    if ops == [] {
    } else {
      var front, op := ops[..|ops| - 1], ops[|ops| - 1];
      ListRefinesMap(front);
      if op.Set? {
        SetRefines(ListAfter(front), MapAfter(front), op);
      } else {
        RemoveRefines(ListAfter(front), MapAfter(front), op.conditionType);
      }
    }
  }

  /** Every entry of the list is the map's entry for its type. */
  lemma EntriesAreTheMaps(ops: seq<Operation>, k: nat)
    requires k < |ListAfter(ops)|
    ensures var c := ListAfter(ops)[k]; c.conditionType in MapAfter(ops) && MapAfter(ops)[c.conditionType] == c
  {
    ListRefinesMap(ops);
    var c := ListAfter(ops)[k];
    assert Find(ListAfter(ops), c.conditionType) == Some(k);
    assert Get(ListAfter(ops), c.conditionType) == Lookup(MapAfter(ops), c.conditionType);
  }

  /** The conditions of the other types, in order. */
  function Others(conditions: seq<Condition>, t: string): seq<Condition> {
    if conditions == [] then []
    else
      var rest, last := Others(conditions[..|conditions| - 1], t), conditions[|conditions| - 1];
      if last.conditionType == t then rest else rest + [last]
  }

  lemma {:induction false} OthersConcat(a: seq<Condition>, b: seq<Condition>, t: string)
    ensures Others(a + b, t) == Others(a, t) + Others(b, t)
  {
    if b == [] {
      assert a + b == a;
    } else {
      OthersConcat(a, b[..|b| - 1], t);
      assert (a + b)[..|a + b| - 1] == a + b[..|b| - 1];
    }
  }

  /** What stands at position i does not matter to the others if it is of the type itself. */
  lemma OthersSplit(conditions: seq<Condition>, i: nat, t: string)
    requires i < |conditions| && conditions[i].conditionType == t
    ensures Others(conditions, t) == Others(conditions[..i], t) + Others(conditions[i + 1..], t)
  {
    assert conditions == conditions[..i + 1] + conditions[i + 1..];
    OthersConcat(conditions[..i + 1], conditions[i + 1..], t);
    assert conditions[..i + 1][..i] == conditions[..i];
  }

  lemma ReplaceLeavesOthers(conditions: seq<Condition>, i: nat, c: Condition)
    requires i < |conditions| && conditions[i].conditionType == c.conditionType
    ensures Others(conditions[i := c], c.conditionType) == Others(conditions, c.conditionType)
  {
    var r := conditions[i := c];
    assert r[..i] == conditions[..i] && r[i + 1..] == conditions[i + 1..];
    OthersSplit(conditions, i, c.conditionType);
    OthersSplit(r, i, c.conditionType);
  }

  lemma AppendLeavesOthers(conditions: seq<Condition>, c: Condition)
    ensures Others(conditions + [c], c.conditionType) == Others(conditions, c.conditionType)
  {
    assert (conditions + [c])[..|conditions|] == conditions;
  }

  /** An operation on one type leaves the conditions of all other types, and their order, alone, on any list. */
  lemma OthersUntouched(conditions: seq<Condition>, op: Operation)
    ensures Others(ApplyToList(conditions, op), op.conditionType) == Others(conditions, op.conditionType)
  {
    var t := op.conditionType;
    match Find(conditions, t) {
      case Some(i) =>
        if op.Set? {
          ReplaceLeavesOthers(conditions, i, Updated(Some(conditions[i]), op));
        } else {
          OthersSplit(conditions, i, t);
          OthersConcat(conditions[..i], conditions[i + 1..], t);
        }
      case None =>
        if op.Set? {
          AppendLeavesOthers(conditions, Updated(None, op));
        }
    }
  }

  /** Exactly when a set keeps the time of an existing condition, for a clock that has moved on since. */
  lemma TimeKeptExactlyWhen(ops: seq<Operation>, op: Operation)
    requires op.Set? && op.conditionType in MapAfter(ops)
    requires op.later > MapAfter(ops)[op.conditionType].lastTransitionTime
    ensures var before, after := MapAfter(ops)[op.conditionType], MapAfter(ops + [op])[op.conditionType];
            after.lastTransitionTime == before.lastTransitionTime <==> op.status == before.status
  {
    assert (ops + [op])[..|ops|] == ops;
  }
}
