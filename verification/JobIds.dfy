// Job identifiers. AAP IDs are integers printed in decimal; EDA IDs are a fixed prefix followed by a counter
// that is recovered by scanning and parsing the IDs already in the history.

module Decimal {
  import opened Options

  // Go's int is 64 bits wide on the platforms the operator is built for.
  const MAX_INT := 0x7FFF_FFFF_FFFF_FFFF
  const MIN_INT := -0x8000_0000_0000_0000

  predicate IsDigit(c: char) { '0' <= c <= '9' }

  predicate AllDigits(s: string) { forall i :: 0 <= i < |s| ==> IsDigit(s[i]) }

  function DigitChar(d: nat): char
    requires d < 10
  {
    ('0' as int + d) as char
  }

  function DigitValue(c: char): nat
    requires IsDigit(c)
  {
    c as int - '0' as int
  }

  function PrintNat(n: nat): (s: string)
    ensures |s| > 0 && AllDigits(s)
  {
    if n < 10 then [DigitChar(n)] else PrintNat(n / 10) + [DigitChar(n % 10)]
  }

  function ParseNat(s: string): nat
    requires AllDigits(s)
  {
    if s == [] then 0 else ParseNat(s[..|s| - 1]) * 10 + DigitValue(s[|s| - 1])
  }

  /** strconv.Itoa. */
  function Itoa(n: int): string {
    if n < 0 then "-" + PrintNat(-n) else PrintNat(n)
  }

  /** strconv.Atoi: an optional sign, then one or more digits, within the range of int. */
  function Atoi(s: string): Option<int> {
    var signed := s != [] && (s[0] == '+' || s[0] == '-');
    var digits := if signed then s[1..] else s;
    if digits == [] || !AllDigits(digits) then None
    else
      var magnitude: int := ParseNat(digits);
      var n: int := if signed && s[0] == '-' then -magnitude else magnitude;
      if MIN_INT <= n <= MAX_INT then Some(n) else None
  }

  lemma {:induction false} ParsePrint(n: nat)
    ensures ParseNat(PrintNat(n)) == n
  {
    if n >= 10 {
      ParsePrint(n / 10);
      var s := PrintNat(n);
      assert s[..|s| - 1] == PrintNat(n / 10);
      assert DigitValue(DigitChar(n % 10)) == n % 10;
    }
  }

  lemma AtoiUnsigned(s: string)
    requires s != "" && AllDigits(s) && ParseNat(s) <= MAX_INT
    ensures Atoi(s) == Some(ParseNat(s))
  {
    assert IsDigit(s[0]);
  }

  lemma AtoiNegative(s: string)
    requires s != "" && AllDigits(s) && ParseNat(s) <= -MIN_INT
    ensures Atoi("-" + s) == Some(0 - ParseNat(s))
  {
    assert ("-" + s)[1..] == s;
  }

  /** Parsing undoes printing for every int. */
  lemma AtoiItoa(n: int)
    requires MIN_INT <= n <= MAX_INT
    ensures Atoi(Itoa(n)) == Some(n)
  {
    if n < 0 {
      ParsePrint(-n);
      AtoiNegative(PrintNat(-n));
    } else {
      ParsePrint(n);
      AtoiUnsigned(PrintNat(n));
    }
  }

  /** The printed form: the last digit first, no leading zero, a minus sign for negative numbers. */
  lemma ItoaPrints(n: nat)
    ensures var s := Itoa(n);
            && s[|s| - 1] == "0123456789"[n % 10]
            && s[..|s| - 1] == (if n < 10 then "" else Itoa(n / 10))
            && (n > 0 ==> Itoa(0 - n) == "-" + s)
  {
  }

  // ---------- which texts parse ----------

  function Zeros(n: nat): string { seq(n, _ => '0') }

  /** The text is n in decimal, after a sign and any number of zeros; only zero may have either sign. */
  predicate Written(s: string, sign: string, zeros: nat, n: int) {
    && (sign == "-" ==> n <= 0) && (sign == "+" || sign == "" ==> n >= 0) && sign in {"", "+", "-"}
    && s == sign + Zeros(zeros) + PrintNat(if n < 0 then -n else n)
  }

  lemma {:induction false} ParseZeros(zeros: nat)
    ensures AllDigits(Zeros(zeros)) && ParseNat(Zeros(zeros)) == 0
  {
    if zeros == 0 {
    } else {
      ParseZeros(zeros - 1);
      assert Zeros(zeros)[..zeros - 1] == Zeros(zeros - 1);
    }
  }

  lemma {:induction false} ParsePadded(zeros: nat, n: nat)
    ensures AllDigits(Zeros(zeros) + PrintNat(n)) && ParseNat(Zeros(zeros) + PrintNat(n)) == n
  {
    var s := Zeros(zeros) + PrintNat(n);
    if n < 10 {
      ParseZeros(zeros);
      assert s[..|s| - 1] == Zeros(zeros) && s[|s| - 1] == DigitChar(n);
    } else {
      ParsePadded(zeros, n / 10);
      assert s[..|s| - 1] == Zeros(zeros) + PrintNat(n / 10) && s[|s| - 1] == DigitChar(n % 10);
    }
  }

  /** Digits are zeros followed by the printed number they stand for. */
  lemma {:induction false} DigitsArePadded(s: string) returns (zeros: nat)
    requires s != "" && AllDigits(s)
    ensures s == Zeros(zeros) + PrintNat(ParseNat(s))
  {
    var front, last := s[..|s| - 1], s[|s| - 1];
    assert s == front + [last] && DigitChar(DigitValue(last)) == last;
    if front == "" {
      zeros := 0;
    } else {
      zeros := DigitsArePadded(front);
      if ParseNat(front) == 0 {
        assert front == Zeros(zeros + 1);
        zeros := zeros + 1;
      }
    }
  }

  lemma AtoiPlus(s: string)
    requires s != "" && AllDigits(s) && ParseNat(s) <= MAX_INT
    ensures Atoi("+" + s) == Some(ParseNat(s))
  {
    assert ("+" + s)[1..] == s;
  }

  lemma WrittenParses(s: string, sign: string, zeros: nat, n: int)
    requires Written(s, sign, zeros, n) && MIN_INT <= n <= MAX_INT
    ensures Atoi(s) == Some(n)
  {
    var digits := Zeros(zeros) + PrintNat(if n < 0 then -n else n);
    ParsePadded(zeros, if n < 0 then -n else n);
    assert s == sign + digits;
    if sign == "-" {
      AtoiNegative(digits);
    } else if sign == "+" {
      AtoiPlus(digits);
    } else {
      assert s == digits;
      AtoiUnsigned(digits);
    }
  }

  lemma DigitsWritten(s: string, sign: string, digits: string) returns (zeros: nat)
    requires digits != "" && AllDigits(digits) && sign in {"", "+", "-"} && s == sign + digits
    ensures Written(s, sign, zeros, if sign == "-" then 0 - ParseNat(digits) else ParseNat(digits))
  {
    zeros := DigitsArePadded(digits);
  }

  lemma ParsesWritten(s: string, n: int) returns (sign: string, zeros: nat)
    requires Atoi(s) == Some(n)
    ensures Written(s, sign, zeros, n) && MIN_INT <= n <= MAX_INT
  {
    sign := if s[0] == '+' then "+" else if s[0] == '-' then "-" else "";
    var digits := if sign == "" then s else s[1..];
    zeros := DigitsWritten(s, sign, digits);
  }

  /** A text parses as n exactly when it is n written out, with or without a sign and leading zeros, within the range
      of int. */
  lemma AtoiExactlyWhen(s: string, n: int)
    ensures Atoi(s) == Some(n) <==> MIN_INT <= n <= MAX_INT && exists sign, zeros :: Written(s, sign, zeros, n)
  {
    if Atoi(s) == Some(n) {
      var sign, zeros := ParsesWritten(s, n);
    }
    forall sign, zeros | Written(s, sign, zeros, n) && MIN_INT <= n <= MAX_INT ensures Atoi(s) == Some(n) {
      WrittenParses(s, sign, zeros, n);
    }
  }

  lemma ItoaStart(n: int)
    ensures Itoa(n) != "" && (IsDigit(Itoa(n)[0]) || Itoa(n)[0] == '-')
  {
    assert IsDigit(PrintNat(if n < 0 then -n else n)[0]);
  }
}

module JobIds {
  import opened Options
  import opened Jobs
  import opened Decimal

  const EDA_JOB_ID_PREFIX: string := "eda-webhook-"

  predicate IsEDAJobID(jobID: string) {
    EDA_JOB_ID_PREFIX <= jobID
  }

  /** The counter an ID contributes to the scan: None when it is no EDA ID or does not parse. */
  function Counter(jobID: string): Option<int> {
    if IsEDAJobID(jobID) then Atoi(jobID[|EDA_JOB_ID_PREFIX|..]) else None
  }

  /** The largest counter in the history, 0 when there is none above 0. */
  function MaxCounter(jobs: seq<JobStatus>): (m: int)
    ensures 0 <= m <= MAX_INT
  {
    if jobs == [] then 0
    else
      var p := MaxCounter(jobs[..|jobs| - 1]);
      match Counter(jobs[|jobs| - 1].jobID)
      case Some(c) => if c > p then c else p
      case None => p
  }

  lemma {:induction false} MaxCounterBounds(jobs: seq<JobStatus>)
    ensures forall j :: j in jobs && Counter(j.jobID).Some? ==> Counter(j.jobID).value <= MaxCounter(jobs)
    ensures MaxCounter(jobs) == 0 || exists j :: j in jobs && Counter(j.jobID) == Some(MaxCounter(jobs))
  {
    if jobs == [] {
    } else {
      var front, last := jobs[..|jobs| - 1], jobs[|jobs| - 1];
      assert jobs == front + [last];
      MaxCounterBounds(front);
      if MaxCounter(jobs) != 0 && MaxCounter(jobs) == MaxCounter(front) {
        var j :| j in front && Counter(j.jobID) == Some(MaxCounter(front));
        assert j in jobs;
      }
      assert last in jobs;
    }
  }

  /** int addition of one, wrapping at the int maximum. */
  function Increment(n: int): int {
    if n == MAX_INT then MIN_INT else n + 1
  }

  function GenerateID(jobs: seq<JobStatus>): string {
    EDA_JOB_ID_PREFIX + Itoa(Increment(MaxCounter(jobs)))
  }

  /** generateEDAJobID: the loop over the history. */
  method GenerateEDAJobID(jobs: seq<JobStatus>) returns (jobID: string)
    ensures jobID == GenerateID(jobs)
  {
    var maxCounter := 0;
    for i := 0 to |jobs|
      invariant maxCounter == MaxCounter(jobs[..i])
    {
      assert jobs[..i + 1][..i] == jobs[..i];
      var counter := Counter(jobs[i].jobID);
      if counter.Some? && counter.value > maxCounter {
        maxCounter := counter.value;
      }
    }
    assert jobs[..|jobs|] == jobs;
    jobID := EDA_JOB_ID_PREFIX + Itoa(Increment(maxCounter));
  }

  lemma CounterOfPrinted(n: int)
    requires MIN_INT <= n <= MAX_INT
    ensures IsEDAJobID(EDA_JOB_ID_PREFIX + Itoa(n))
    ensures Counter(EDA_JOB_ID_PREFIX + Itoa(n)) == Some(n)
  {
    AtoiItoa(n);
    assert (EDA_JOB_ID_PREFIX + Itoa(n))[|EDA_JOB_ID_PREFIX|..] == Itoa(n);
  }

  /** The two kinds of IDs never mix, and neither is ever empty. */
  lemma ProvidersIDsDisjoint(jobs: seq<JobStatus>, n: int)
    ensures IsEDAJobID(GenerateID(jobs)) && GenerateID(jobs) != ""
    ensures !IsEDAJobID(Itoa(n)) && Itoa(n) != ""
  {
    CounterOfPrinted(Increment(MaxCounter(jobs)));
    ItoaStart(n);
    assert EDA_JOB_ID_PREFIX[0] == 'e';
  }

  /** Exactly the IDs that count: the prefix and a text that parses. */
  lemma CounterExactlyWhen(jobID: string, c: int)
    ensures Counter(jobID) == Some(c) <==> exists text :: jobID == "eda-webhook-" + text && Atoi(text) == Some(c)
  {
    if Counter(jobID) == Some(c) {
      assert jobID == "eda-webhook-" + jobID[12..];
    }
    forall text | jobID == "eda-webhook-" + text && Atoi(text) == Some(c) ensures Counter(jobID) == Some(c) {
      assert jobID[12..] == text && jobID[..12] == "eda-webhook-";
    }
  }

  /** m is the largest counter in the list, or 0 when none is above it. */
  ghost predicate IsLargest(jobs: seq<JobStatus>, m: nat) {
    && (forall j, c :: j in jobs && Counter(j.jobID) == Some(c) ==> c <= m)
    && (m == 0 || exists j :: j in jobs && Counter(j.jobID) == Some(m as int))
  }

  /** The generated ID carries the number after the largest counter, wrapped at the maximum. */
  lemma GeneratedFollowsLargest(jobs: seq<JobStatus>, m: nat)
    requires IsLargest(jobs, m)
    ensures GenerateID(jobs) == "eda-webhook-" + Itoa(if m == MAX_INT then MIN_INT else m + 1)
  {
    MaxCounterBounds(jobs);
    assert MaxCounter(jobs) == m;
  }

  /** The first ID of all, and the one after it. */
  lemma FirstIDs(job: JobStatus)
    ensures GenerateID([]) == "eda-webhook-1"
    ensures job.jobID == "eda-webhook-1" ==> GenerateID([job]) == "eda-webhook-2"
  {
    CounterOfPrinted(1);
    ItoaPrints(1);
    ItoaPrints(2);
    assert Itoa(1) == "1" && Itoa(2) == "2";
    assert EDA_JOB_ID_PREFIX + "1" == "eda-webhook-1" && EDA_JOB_ID_PREFIX + "2" == "eda-webhook-2";
    if job.jobID == "eda-webhook-1" {
      assert [job][..0] == [];
      assert MaxCounter([job]) == 1;
    }
  }

  predicate Fresh(jobID: string, jobs: seq<JobStatus>) {
    forall j :: j in jobs ==> j.jobID != jobID
  }

  /** Exactly when the generated ID is new: always, except when the counter is exhausted and the wrapped-around
      ID is already taken. */
  lemma GeneratedIDFreshExactlyWhen(jobs: seq<JobStatus>)
    ensures Fresh(GenerateID(jobs), jobs) <==>
            !(MaxCounter(jobs) == MAX_INT && exists j :: j in jobs && j.jobID == EDA_JOB_ID_PREFIX + Itoa(MIN_INT))
  {
    var m := MaxCounter(jobs);
    if m < MAX_INT {
      CounterOfPrinted(m + 1);
      MaxCounterBounds(jobs);
    }
  }

  lemma GeneratedCounter(jobs: seq<JobStatus>)
    requires MaxCounter(jobs) < MAX_INT
    ensures Counter(GenerateID(jobs)) == Some(MaxCounter(jobs) + 1)
  {
    CounterOfPrinted(MaxCounter(jobs) + 1);
  }

  lemma KeptCounters(jobs: seq<JobStatus>, n: nat)
    requires n <= |jobs|
    ensures MaxCounter(jobs[n..]) <= MaxCounter(jobs)
  {
    MaxCounterBounds(jobs);
    MaxCounterBounds(jobs[n..]);
    assert forall j :: j in jobs[n..] ==> j in jobs;
  }
}

/** The life of one history: launches that get a generated ID, other entries, polls, and trimming in between. */
module JobIdRuns {
  import opened Options
  import opened Jobs
  import opened Decimal
  import opened JobIds

  /** A launch brings an entry whose ID is generated; any other entry (a failed trigger, an AAP job) brings its own. */
  datatype Event =
    | Launched(job: JobStatus)
    | Appended(job: JobStatus)
    | Polled(jobType: JobType, state: JobState, message: Message)

  /** Only launches bring EDA counters. */
  predicate OnlyLaunchesCount(events: seq<Event>) {
    forall e :: e in events && e.Appended? ==> Counter(e.job.jobID).None?
  }

  function Advance(jobs: seq<JobStatus>, e: Event, maxHistory: nat): seq<JobStatus> {
    match e
    case Launched(j) => AppendJob(jobs, j.(jobID := GenerateID(jobs)), maxHistory)
    case Appended(j) => AppendJob(jobs, j, maxHistory)
    case Polled(t, st, m) => PollLatest(jobs, t, st, m)
  }

  function After(start: seq<JobStatus>, events: seq<Event>, maxHistory: nat): seq<JobStatus> {
    if events == [] then start
    else Advance(After(start, events[..|events| - 1], maxHistory), events[|events| - 1], maxHistory)
  }

  predicate LaunchAt(events: seq<Event>, i: nat) {
    i < |events| && events[i].Launched?
  }

  /** The ID the launch at position i gets. */
  function IDAt(start: seq<JobStatus>, events: seq<Event>, maxHistory: nat, i: nat): string
    requires LaunchAt(events, i)
  {
    GenerateID(After(start, events[..i], maxHistory))
  }

  // ---------- one event ----------

  lemma PollKeepsIDs(jobs: seq<JobStatus>, t: JobType, state: JobState, message: Message)
    ensures var r := PollLatest(jobs, t, state, message);
            |r| == |jobs| && forall k :: 0 <= k < |jobs| ==> r[k].jobID == jobs[k].jobID
  {
  }

  lemma {:induction false} SameIDsSameCounter(a: seq<JobStatus>, b: seq<JobStatus>)
    requires |a| == |b| && forall k :: 0 <= k < |a| ==> a[k].jobID == b[k].jobID
    ensures MaxCounter(a) == MaxCounter(b)
  {
    if a == [] {
    } else {
      SameIDsSameCounter(a[..|a| - 1], b[..|b| - 1]);
    }
  }

  lemma LaunchRaisesCounter(jobs: seq<JobStatus>, job: JobStatus, maxHistory: nat)
    requires maxHistory >= 1 && MaxCounter(jobs) < MAX_INT
    ensures MaxCounter(Advance(jobs, Launched(job), maxHistory)) == MaxCounter(jobs) + 1
  {
    var e := job.(jobID := GenerateID(jobs));
    var r := AppendJob(jobs, e, maxHistory);
    AppendShape(jobs, e, maxHistory);
    GeneratedCounter(jobs);
    var kept := jobs[Dropped(jobs, maxHistory)..];
    assert r == kept + [e] && r[..|r| - 1] == kept;
    KeptCounters(jobs, Dropped(jobs, maxHistory));
  }

  lemma EventRaisesByOne(jobs: seq<JobStatus>, e: Event, maxHistory: nat)
    requires maxHistory >= 1 && MaxCounter(jobs) < MAX_INT && OnlyLaunchesCount([e])
    ensures MaxCounter(Advance(jobs, e, maxHistory)) <= MaxCounter(jobs) + 1
  {
    match e {
      case Launched(j) => LaunchRaisesCounter(jobs, j, maxHistory);
      case Polled(t, st, m) =>
        PollKeepsIDs(jobs, t, st, m);
        SameIDsSameCounter(jobs, PollLatest(jobs, t, st, m));
      case Appended(j) =>
        assert e in [e];
        AppendShape(jobs, j, maxHistory);
        var r, kept := AppendJob(jobs, j, maxHistory), jobs[Dropped(jobs, maxHistory)..];
        assert r == kept + [j] && r[..|r| - 1] == kept;
        KeptCounters(jobs, Dropped(jobs, maxHistory));
    }
  }

  // ---------- from any history ----------

  lemma {:induction false} CounterBound(start: seq<JobStatus>, events: seq<Event>, maxHistory: nat)
    requires maxHistory >= 1 && OnlyLaunchesCount(events) && MaxCounter(start) + |events| <= MAX_INT
    ensures MaxCounter(After(start, events, maxHistory)) <= MaxCounter(start) + |events|
  {
    if events == [] {
    } else {
      var front, e := events[..|events| - 1], events[|events| - 1];
      assert e in events && forall x :: x in front ==> x in events;
      CounterBound(start, front, maxHistory);
      EventRaisesByOne(After(start, front, maxHistory), e, maxHistory);
    }
  }

  /** The largest counter after the first n events. */
  function CounterAfter(start: seq<JobStatus>, events: seq<Event>, maxHistory: nat, n: nat): int
    requires n <= |events|
  {
    MaxCounter(After(start, events[..n], maxHistory))
  }

  /** No event trims the entry with the largest counter away. */
  predicate Remembers(start: seq<JobStatus>, events: seq<Event>, maxHistory: nat) {
    forall n: nat :: n < |events| ==>
      CounterAfter(start, events, maxHistory, n) <= CounterAfter(start, events, maxHistory, n + 1)
  }

  lemma {:induction false} CounterKept(start: seq<JobStatus>, events: seq<Event>, maxHistory: nat, k: nat, i: nat)
    requires Remembers(start, events, maxHistory) && k <= i <= |events|
    ensures CounterAfter(start, events, maxHistory, k) <= CounterAfter(start, events, maxHistory, i)
    decreases i
  {
    if k == i {
    } else {
      CounterKept(start, events, maxHistory, k, i - 1);
      assert CounterAfter(start, events, maxHistory, i - 1) <= CounterAfter(start, events, maxHistory, i - 1 + 1);
    }
  }

  lemma AfterNext(start: seq<JobStatus>, events: seq<Event>, maxHistory: nat, i: nat)
    requires i < |events|
    ensures After(start, events[..i + 1], maxHistory)
         == Advance(After(start, events[..i], maxHistory), events[i], maxHistory)
  {
    assert events[..i + 1][..i] == events[..i];
  }

  lemma CounterBelowMax(start: seq<JobStatus>, events: seq<Event>, maxHistory: nat, i: nat)
    requires maxHistory >= 1 && OnlyLaunchesCount(events) && MaxCounter(start) + |events| <= MAX_INT && i < |events|
    ensures CounterAfter(start, events, maxHistory, i) < MAX_INT
  {
    assert forall x :: x in events[..i] ==> x in events;
    CounterBound(start, events[..i], maxHistory);
  }

  /** A launch gets the counter after the largest one. */
  lemma LaunchCounterFromAny(start: seq<JobStatus>, events: seq<Event>, maxHistory: nat, i: nat)
    requires maxHistory >= 1 && OnlyLaunchesCount(events) && MaxCounter(start) + |events| <= MAX_INT
    requires LaunchAt(events, i)
    ensures Counter(IDAt(start, events, maxHistory, i)) == Some(CounterAfter(start, events, maxHistory, i) + 1)
  {
    CounterBelowMax(start, events, maxHistory, i);
    GeneratedCounter(After(start, events[..i], maxHistory));
  }

  /** And that counter is then the largest in the history. */
  lemma LaunchRaises(start: seq<JobStatus>, events: seq<Event>, maxHistory: nat, i: nat)
    requires maxHistory >= 1 && OnlyLaunchesCount(events) && MaxCounter(start) + |events| <= MAX_INT
    requires LaunchAt(events, i)
    ensures CounterAfter(start, events, maxHistory, i + 1) == CounterAfter(start, events, maxHistory, i) + 1
  {
    CounterBelowMax(start, events, maxHistory, i);
    AfterNext(start, events, maxHistory, i);
    LaunchRaisesCounter(After(start, events[..i], maxHistory), events[i].job, maxHistory);
  }

  /** As long as the largest counter is never trimmed away, no ID is used twice, and none of the starting IDs is used
      again, even after its own entry was trimmed. */
  lemma LaunchIDsNeverRepeat(start: seq<JobStatus>, events: seq<Event>, maxHistory: nat, i: nat)
    requires maxHistory >= 1 && OnlyLaunchesCount(events) && MaxCounter(start) + |events| <= MAX_INT
    requires Remembers(start, events, maxHistory) && LaunchAt(events, i)
    ensures Fresh(IDAt(start, events, maxHistory, i), start)
    ensures forall k: nat :: k < i && LaunchAt(events, k) ==>
              IDAt(start, events, maxHistory, k) != IDAt(start, events, maxHistory, i)
  {
    LaunchCounterFromAny(start, events, maxHistory, i);
    CounterKept(start, events, maxHistory, 0, i);
    MaxCounterBounds(start);
    forall k: nat | k < i && LaunchAt(events, k)
      ensures IDAt(start, events, maxHistory, k) != IDAt(start, events, maxHistory, i)
    {
      LaunchCounterFromAny(start, events, maxHistory, k);
      LaunchRaises(start, events, maxHistory, k);
      CounterKept(start, events, maxHistory, k + 1, i);
    }
  }

  // ---------- from the empty history: exactly when an ID is used again ----------

  /** streak: the counter of the last launch. others: the entries appended since. */
  datatype Memory = Memory(streak: nat, others: nat) {
    function Remembered(maxHistory: nat): nat { if others >= maxHistory then 0 else streak }
  }

  function MemoryOf(events: seq<Event>, maxHistory: nat): Memory {
    if events == [] then Memory(0, 0)
    else Remember(MemoryOf(events[..|events| - 1], maxHistory), events[|events| - 1], maxHistory)
  }

  function Remember(m: Memory, e: Event, maxHistory: nat): Memory {
    match e
    case Launched(_) => Memory(m.Remembered(maxHistory) + 1, 0)
    case Appended(_) => Memory(m.streak, m.others + 1)
    case Polled(_, _, _) => m
  }

  function Counters(jobs: seq<JobStatus>): (r: seq<Option<int>>)
    ensures |r| == |jobs| && forall k :: 0 <= k < |jobs| ==> r[k] == Counter(jobs[k].jobID)
  {
    seq(|jobs|, k requires 0 <= k < |jobs| => Counter(jobs[k].jobID))
  }

  /** The counters after an append and trim. */
  function AppendCounter(counters: seq<Option<int>>, c: Option<int>, maxHistory: nat): seq<Option<int>> {
    var all := counters + [c];
    if |all| > maxHistory then all[|all| - maxHistory..] else all
  }

  lemma CountersOfAppend(jobs: seq<JobStatus>, job: JobStatus, maxHistory: nat)
    requires maxHistory >= 1
    ensures Counters(AppendJob(jobs, job, maxHistory)) == AppendCounter(Counters(jobs), Counter(job.jobID), maxHistory)
  {
    var all, d := jobs + [job], if |jobs| + 1 > maxHistory then |jobs| + 1 - maxHistory else 0;
    var r, cs := AppendJob(jobs, job, maxHistory), AppendCounter(Counters(jobs), Counter(job.jobID), maxHistory);
    forall k | 0 <= k < |r| ensures Counters(r)[k] == cs[k] {
      assert r[k] == all[k + d] && cs[k] == (Counters(jobs) + [Counter(job.jobID)])[k + d];
    }
  }

  /** Where the history keeps the last launch: before the others, with the largest counter of all. */
  predicate Shape(counters: seq<Option<int>>, m: Memory, maxHistory: nat) {
    && |counters| <= maxHistory
    && (forall k :: 0 <= k < |counters| && k >= |counters| - m.others ==> counters[k].None?)
    && (forall k :: 0 <= k < |counters| && counters[k].Some? ==> counters[k].value <= m.streak)
    && (m.Remembered(maxHistory) > 0 ==>
          m.others < |counters| && counters[|counters| - 1 - m.others] == Some(m.streak))
  }

  lemma ShapeAppended(counters: seq<Option<int>>, m: Memory, maxHistory: nat)
    requires maxHistory >= 1 && Shape(counters, m, maxHistory)
    ensures Shape(AppendCounter(counters, None, maxHistory), Memory(m.streak, m.others + 1), maxHistory)
  {
    var d, r := if |counters| < maxHistory then 0 else 1, AppendCounter(counters, None, maxHistory);
    assert forall k :: 0 <= k < |r| - 1 ==> r[k] == counters[k + d];
  }

  /** In a full memory of others nothing counts. */
  lemma ShapeBound(counters: seq<Option<int>>, m: Memory, maxHistory: nat, k: nat)
    requires Shape(counters, m, maxHistory) && k < |counters| && counters[k].Some?
    ensures counters[k].value <= m.Remembered(maxHistory)
  {
  }

  lemma ShapeLaunched(counters: seq<Option<int>>, m: Memory, maxHistory: nat)
    requires maxHistory >= 1 && Shape(counters, m, maxHistory)
    ensures var next := m.Remembered(maxHistory) + 1;
            Shape(AppendCounter(counters, Some(next), maxHistory), Memory(next, 0), maxHistory)
  {
    var next := m.Remembered(maxHistory) + 1;
    var d, r := if |counters| < maxHistory then 0 else 1, AppendCounter(counters, Some(next), maxHistory);
    forall k | 0 <= k < |r| && r[k].Some? ensures r[k].value <= next {
      if k < |r| - 1 {
        assert r[k] == counters[k + d];
        ShapeBound(counters, m, maxHistory, k + d);
      }
    }
  }

  lemma ShapeCounter(jobs: seq<JobStatus>, m: Memory, maxHistory: nat)
    requires Shape(Counters(jobs), m, maxHistory)
    ensures MaxCounter(jobs) == m.Remembered(maxHistory)
  {
    MaxCounterBounds(jobs);
    if m.Remembered(maxHistory) > 0 {
      assert jobs[|jobs| - 1 - m.others] in jobs;
    }
    if MaxCounter(jobs) > 0 {
      var j :| j in jobs && Counter(j.jobID) == Some(MaxCounter(jobs));
      var k :| 0 <= k < |jobs| && jobs[k] == j;
      ShapeBound(Counters(jobs), m, maxHistory, k);
    }
  }

  lemma GeneratedIsNext(jobs: seq<JobStatus>, m: Memory, maxHistory: nat)
    requires Shape(Counters(jobs), m, maxHistory) && m.streak < MAX_INT
    ensures Counter(GenerateID(jobs)) == Some(m.Remembered(maxHistory) + 1)
  {
    ShapeCounter(jobs, m, maxHistory);
    GeneratedCounter(jobs);
  }

  lemma LaunchKeepsShape(jobs: seq<JobStatus>, m: Memory, job: JobStatus, maxHistory: nat)
    requires maxHistory >= 1 && Shape(Counters(jobs), m, maxHistory) && m.streak < MAX_INT
    requires job.jobID == GenerateID(jobs)
    ensures Shape(Counters(AppendJob(jobs, job, maxHistory)), Memory(m.Remembered(maxHistory) + 1, 0), maxHistory)
  {
    GeneratedIsNext(jobs, m, maxHistory);
    CountersOfAppend(jobs, job, maxHistory);
    ShapeLaunched(Counters(jobs), m, maxHistory);
  }

  lemma EventKeepsShape(jobs: seq<JobStatus>, m: Memory, e: Event, maxHistory: nat)
    requires maxHistory >= 1 && Shape(Counters(jobs), m, maxHistory) && m.streak < MAX_INT
    requires e.Appended? ==> Counter(e.job.jobID).None?
    ensures Shape(Counters(Advance(jobs, e, maxHistory)), Remember(m, e, maxHistory), maxHistory)
  {
    match e {
      case Launched(j) => LaunchKeepsShape(jobs, m, j.(jobID := GenerateID(jobs)), maxHistory);
      case Appended(j) =>
        CountersOfAppend(jobs, j, maxHistory);
        ShapeAppended(Counters(jobs), m, maxHistory);
      case Polled(t, st, msg) =>
        PollKeepsIDs(jobs, t, st, msg);
        assert Counters(PollLatest(jobs, t, st, msg)) == Counters(jobs);
    }
  }

  lemma {:induction false} HistoryHasShape(events: seq<Event>, maxHistory: nat)
    requires maxHistory >= 1 && OnlyLaunchesCount(events) && |events| <= MAX_INT
    ensures Shape(Counters(After([], events, maxHistory)), MemoryOf(events, maxHistory), maxHistory)
    ensures MemoryOf(events, maxHistory).streak <= |events|
  {
    if events == [] {
    } else {
      var front, e := events[..|events| - 1], events[|events| - 1];
      assert e in events && forall x :: x in front ==> x in events;
      HistoryHasShape(front, maxHistory);
      EventKeepsShape(After([], front, maxHistory), MemoryOf(front, maxHistory), e, maxHistory);
    }
  }

  lemma RememberedIsLargest(events: seq<Event>, maxHistory: nat, i: nat)
    requires maxHistory >= 1 && OnlyLaunchesCount(events) && |events| <= MAX_INT && i < |events|
    ensures CounterAfter([], events, maxHistory, i)
         == MemoryOf(events[..i], maxHistory).Remembered(maxHistory) < MAX_INT
  {
    assert forall x :: x in events[..i] ==> x in events;
    HistoryHasShape(events[..i], maxHistory);
    ShapeCounter(After([], events[..i], maxHistory), MemoryOf(events[..i], maxHistory), maxHistory);
  }

  /** The exact counter of every launch: one more than that of the last launch, unless maxHistory other entries have
      been appended since; then it starts again at 1. */
  lemma LaunchCounter(events: seq<Event>, maxHistory: nat, i: nat)
    requires maxHistory >= 1 && OnlyLaunchesCount(events) && |events| <= MAX_INT && LaunchAt(events, i)
    ensures var m := MemoryOf(events[..i], maxHistory);
            && CounterAfter([], events, maxHistory, i) == m.Remembered(maxHistory)
            && Counter(IDAt([], events, maxHistory, i)) == Some(m.Remembered(maxHistory) + 1)
  {
    RememberedIsLargest(events, maxHistory, i);
    GeneratedCounter(After([], events[..i], maxHistory));
  }

  /** How many entries other than launches are appended. */
  function Others(events: seq<Event>): nat {
    if events == [] then 0
    else Others(events[..|events| - 1]) + if events[|events| - 1].Appended? then 1 else 0
  }

  /** The launch at p is the last one before i. */
  predicate LastLaunch(events: seq<Event>, p: nat, i: nat) {
    p < i <= |events| && LaunchAt(events, p) && forall k: nat :: p < k < i ==> !LaunchAt(events, k)
  }

  /** Between a launch and the next one so many other entries were appended that the first was trimmed away. */
  predicate Forgotten(events: seq<Event>, maxHistory: nat, p: nat, i: nat) {
    LastLaunch(events, p, i) && LaunchAt(events, i) && Others(events[p + 1..i]) >= maxHistory
  }

  predicate Repeats(events: seq<Event>, maxHistory: nat, k: nat, i: nat) {
    && k < i && LaunchAt(events, k) && LaunchAt(events, i)
    && IDAt([], events, maxHistory, k) == IDAt([], events, maxHistory, i)
  }

  /** Memory counts what was appended since the last launch. */
  lemma {:induction false} MemoryFollows(events: seq<Event>, maxHistory: nat, p: nat, i: nat)
    requires LastLaunch(events, p, i)
    ensures MemoryOf(events[..i], maxHistory).others == Others(events[p + 1..i])
    ensures MemoryOf(events[..i], maxHistory).streak > 0
    decreases i
  {
    assert events[..i][..i - 1] == events[..i - 1];
    if i == p + 1 {
    } else {
      MemoryFollows(events, maxHistory, p, i - 1);
      assert !LaunchAt(events, i - 1);
      assert events[p + 1..i][..i - p - 2] == events[p + 1..i - 1];
    }
  }

  /** Without a launch there is nothing to remember. */
  lemma {:induction false} MemoryEmpty(events: seq<Event>, maxHistory: nat, i: nat)
    requires i <= |events| && forall k: nat :: k < i ==> !LaunchAt(events, k)
    ensures MemoryOf(events[..i], maxHistory).streak == 0
    decreases i
  {
    if i == 0 {
    } else {
      MemoryEmpty(events, maxHistory, i - 1);
      assert !LaunchAt(events, i - 1);
      assert events[..i][..i - 1] == events[..i - 1];
    }
  }

  lemma {:induction false} FirstLaunch(events: seq<Event>, i: nat) returns (f: nat)
    requires LaunchAt(events, i)
    ensures f <= i && LaunchAt(events, f) && forall k: nat :: k < f ==> !LaunchAt(events, k)
  {
    f := 0;
    while !events[f].Launched?
      invariant f <= i && forall k: nat :: k < f ==> !LaunchAt(events, k)
      decreases i - f
    {
      f := f + 1;
    }
  }

  /** A forgotten launch makes the counter start again, so the first launch's ID comes back. */
  lemma ForgettingRepeats(events: seq<Event>, maxHistory: nat, p: nat, i: nat) returns (f: nat)
    requires maxHistory >= 1 && OnlyLaunchesCount(events) && |events| <= MAX_INT
    requires Forgotten(events, maxHistory, p, i)
    ensures Repeats(events, maxHistory, f, i)
  {
    f := FirstLaunch(events, p);
    MemoryEmpty(events, maxHistory, f);
    LaunchCounter(events, maxHistory, f);
    MemoryFollows(events, maxHistory, p, i);
    LaunchCounter(events, maxHistory, i);
  }

  /** Nothing forgotten before n: memory never starts again. */
  ghost predicate NothingForgotten(events: seq<Event>, maxHistory: nat) {
    forall p, i :: !Forgotten(events, maxHistory, p, i)
  }

  /** The next launch after k gets a larger counter, and so on up to i. */
  lemma {:induction false} CountersIncrease(events: seq<Event>, maxHistory: nat, k: nat, i: nat)
    requires maxHistory >= 1 && NothingForgotten(events, maxHistory)
    requires k < i && LaunchAt(events, k) && LaunchAt(events, i)
    ensures MemoryOf(events[..k], maxHistory).Remembered(maxHistory)
          < MemoryOf(events[..i], maxHistory).Remembered(maxHistory)
    decreases i
  {
    var p := i - 1;
    while !LaunchAt(events, p)
      invariant k <= p < i && forall x: nat :: p < x < i ==> !LaunchAt(events, x)
      decreases p
    {
      p := p - 1;
    }
    assert LastLaunch(events, p, i);
    StreakAfterLaunch(events, maxHistory, p, i);
    if k < p {
      CountersIncrease(events, maxHistory, k, p);
    }
  }

  lemma {:induction false} StreakAfterLaunch(events: seq<Event>, maxHistory: nat, p: nat, i: nat)
    requires NothingForgotten(events, maxHistory) && LastLaunch(events, p, i) && LaunchAt(events, i)
    ensures MemoryOf(events[..i], maxHistory).Remembered(maxHistory)
         == MemoryOf(events[..p], maxHistory).Remembered(maxHistory) + 1
  {
    MemoryFollows(events, maxHistory, p, i);
    assert !Forgotten(events, maxHistory, p, i);
    StreakStays(events, maxHistory, p, i);
  }

  lemma {:induction false} StreakStays(events: seq<Event>, maxHistory: nat, p: nat, i: nat)
    requires LastLaunch(events, p, i)
    ensures MemoryOf(events[..i], maxHistory).streak == MemoryOf(events[..p], maxHistory).Remembered(maxHistory) + 1
    decreases i
  {
    assert events[..i][..i - 1] == events[..i - 1];
    if i == p + 1 {
    } else {
      assert !LaunchAt(events, i - 1);
      StreakStays(events, maxHistory, p, i - 1);
    }
  }

  /** Exactly when a history that starts empty gives an ID twice (below the int maximum): when at least maxHistory
      other entries were appended between one launch and the next. */
  lemma IDsRepeatExactlyWhen(events: seq<Event>, maxHistory: nat)
    requires maxHistory >= 1 && OnlyLaunchesCount(events) && |events| <= MAX_INT
    ensures (exists k, i :: Repeats(events, maxHistory, k, i)) <==> (exists p, i :: Forgotten(events, maxHistory, p, i))
  {
    if p, i :| Forgotten(events, maxHistory, p, i) {
      var f := ForgettingRepeats(events, maxHistory, p, i);
    } else {
      forall k, i | k < i && LaunchAt(events, k) && LaunchAt(events, i) ensures !Repeats(events, maxHistory, k, i) {
        CountersIncrease(events, maxHistory, k, i);
        LaunchCounter(events, maxHistory, k);
        LaunchCounter(events, maxHistory, i);
      }
    }
  }
}
