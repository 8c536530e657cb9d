// The webhook client's rate limiter: a cache of successful requests that is purged as it is used. It is compared
// with a log that never forgets, and the delays it returns are bounded for a caller that obeys them.

module RateLimiter {
  // ---------- specification ----------

  /** fmt.Sprintf("%s:%s", url, resourceName). */
  function CacheKey(url: string, name: string): string {
    url + ":" + name
  }

  predicate HasColon(s: string) { ':' in s }

  /** If one URL is longer, its last colon falls into the other pair's name. */
  lemma LongerUrlMeansColon(url1: string, name1: string, url2: string, name2: string)
    requires CacheKey(url1, name1) == CacheKey(url2, name2) && |url1| < |url2|
    ensures HasColon(name1)
  {
    var k := CacheKey(url1, name1);
    assert CacheKey(url2, name2)[|url2|] == ':';
    assert k[|url2|] == name1[|url2| - |url1| - 1];
  }

  /** Distinct (url, name) pairs have distinct keys as long as names contain no colon. */
  lemma CacheKeyInjective(url1: string, name1: string, url2: string, name2: string)
    requires !HasColon(name1) && !HasColon(name2)
    ensures CacheKey(url1, name1) == CacheKey(url2, name2) <==> url1 == url2 && name1 == name2
  {
    var k1, k2 := CacheKey(url1, name1), CacheKey(url2, name2);
    if k1 == k2 {
      if |url1| < |url2| { LongerUrlMeansColon(url1, name1, url2, name2); }
      if |url2| < |url1| { LongerUrlMeansColon(url2, name2, url1, name1); }
      assert url1 == k1[..|url1|] && url2 == k2[..|url2|];
      assert name1 == k1[|url1| + 1..] && name2 == k2[|url2| + 1..];
    }
  }

  /** Without that restriction two pairs can share a key. */
  lemma CacheKeyCollides()
    ensures CacheKey("a", "b:c") == CacheKey("a:b", "c")
  {
  }

  /** checkForExistingRequest before its purge: the elapsed time while it is below the interval, otherwise 0. */
  function Delta(cache: map<string, int>, key: string, interval: int, now: int): int {
    if key in cache && now - cache[key] < interval then now - cache[key] else 0
  }

  /** purgeExpiredRequests: each entry is judged at the moment it is visited; an entry without a visit time is not
      visited. */
  function Purged(cache: map<string, int>, interval: int, visits: map<string, int>): map<string, int> {
    map k | k in cache && !(k in visits && visits[k] - cache[k] > interval) :: cache[k]
  }

  /** One TriggerWebhook call: the clock at the check, at the visits of both purges, and at the store; and whether
      the POST succeeds. */
  datatype Call = Call(key: string, checkedAt: int, firstVisits: map<string, int>, storedAt: int,
                       secondVisits: map<string, int>, succeeds: bool)

  datatype Answer = Rejected(delay: int) | Posted(succeeded: bool)

  function Respond(delta: int, c: Call): Answer {
    if delta != 0 then Rejected(delta) else Posted(c.succeeds)
  }

  /** The cache after a call. */
  function AfterCall(cache: map<string, int>, interval: int, c: Call): map<string, int> {
    var delta := Delta(cache, c.key, interval, c.checkedAt);
    var checked := Purged(cache, interval, c.firstVisits);
    if delta == 0 && c.succeeds then Purged(checked[c.key := c.storedAt], interval, c.secondVisits) else checked
  }

  /** The log after a call: it records every success and forgets nothing. */
  function AfterCallLogged(log: map<string, int>, interval: int, c: Call): map<string, int> {
    if Delta(log, c.key, interval, c.checkedAt) == 0 && c.succeeds then log[c.key := c.storedAt] else log
  }

  // ---------- the client ----------

  class WebhookClient {
    var inflight: map<string, int>
    const minimumRequestInterval: int

    constructor (interval: int)
      ensures inflight == map[] && minimumRequestInterval == interval
    {
      inflight, minimumRequestInterval := map[], interval;
    }

    /** Visits the keys in any order and deletes what has expired by the time of its visit. */
    method PurgeExpiredRequests(visits: map<string, int>)
      modifies this
      ensures inflight == Purged(old(inflight), minimumRequestInterval, visits)
    {
      ghost var before := inflight;
      var keys := inflight.Keys;
      while keys != {}
        invariant keys <= before.Keys
        invariant inflight ==
                  map k | k in before && (k in keys || k in Purged(before, minimumRequestInterval, visits)) :: before[k]
        decreases keys
      {
        var key :| key in keys;
        if key in visits && visits[key] - inflight[key] > minimumRequestInterval {
          inflight := inflight - {key};
        }
        keys := keys - {key};
      }
    }

    method CheckForExistingRequest(key: string, now: int, visits: map<string, int>) returns (delta: int)
      modifies this
      ensures delta == Delta(old(inflight), key, minimumRequestInterval, now)
      ensures inflight == Purged(old(inflight), minimumRequestInterval, visits)
    {
      delta := 0;
      if key in inflight {
        delta := now - inflight[key];
        if delta >= minimumRequestInterval {
          delta := 0;
        }
      }
      PurgeExpiredRequests(visits);
    }

    method AddInflightRequest(key: string, now: int, visits: map<string, int>)
      modifies this
      ensures inflight == Purged(old(inflight)[key := now], minimumRequestInterval, visits)
    {
      inflight := inflight[key := now];
      PurgeExpiredRequests(visits);
    }

    method TriggerWebhook(c: Call) returns (answer: Answer)
      modifies this
      ensures answer == Respond(Delta(old(inflight), c.key, minimumRequestInterval, c.checkedAt), c)
      ensures inflight == AfterCall(old(inflight), minimumRequestInterval, c)
    {
      var delta := CheckForExistingRequest(c.key, c.checkedAt, c.firstVisits);
      if delta != 0 {
        return Rejected(delta);
      }
      if !c.succeeds {
        return Posted(false);
      }
      AddInflightRequest(c.key, c.storedAt, c.secondVisits);
      answer := Posted(true);
    }
  }

  // ---------- purging never changes an answer ----------

  /** All clock readings of a call lie between its check and its end, in order. */
  predicate CallTimed(c: Call, start: int, end: int) {
    && start <= c.checkedAt <= c.storedAt <= end
    && (forall k :: k in c.firstVisits ==> c.checkedAt <= c.firstVisits[k] <= end)
    && (forall k :: k in c.secondVisits ==> c.storedAt <= c.secondVisits[k] <= end)
  }

  /** A call sequence under a monotone clock: every call starts no earlier than the previous one ended. */
  predicate Timed(calls: seq<Call>, ends: seq<int>, start: int) {
    && |ends| == |calls|
    && (forall i :: 0 <= i < |calls| ==> TimedAt(calls, ends, start, i))
  }

  predicate TimedAt(calls: seq<Call>, ends: seq<int>, start: int, i: nat)
    requires i < |calls| == |ends|
  {
    CallTimed(calls[i], StartOf(ends, start, i), ends[i])
  }

  /** When call number i may start at the earliest: the end of the call before it. */
  function StartOf(ends: seq<int>, start: int, i: nat): int
    requires i <= |ends|
  {
    if i == 0 then start else ends[i - 1]
  }

  lemma TimedPrefix(calls: seq<Call>, ends: seq<int>, start: int, n: nat)
    requires Timed(calls, ends, start) && n <= |calls|
    ensures Timed(calls[..n], ends[..n], start)
  {
    forall i | 0 <= i < n ensures TimedAt(calls[..n], ends[..n], start, i) {
      assert TimedAt(calls, ends, start, i);
    }
  }

  function CacheAfter(calls: seq<Call>, interval: int): map<string, int> {
    if calls == [] then map[] else AfterCall(CacheAfter(calls[..|calls| - 1], interval), interval, calls[|calls| - 1])
  }

  function LogAfter(calls: seq<Call>, interval: int): map<string, int> {
    if calls == [] then map[]
    else AfterCallLogged(LogAfter(calls[..|calls| - 1], interval), interval, calls[|calls| - 1])
  }

  /** The cache is the log without some entries that have already expired. */
  predicate Agrees(cache: map<string, int>, log: map<string, int>, interval: int, now: int) {
    && (forall k :: k in cache ==> k in log && log[k] == cache[k])
    && (forall k :: k in log && k !in cache ==> now - log[k] > interval)
  }

  lemma AgreeingDelta(cache: map<string, int>, log: map<string, int>, interval: int, key: string, now: int, later: int)
    requires Agrees(cache, log, interval, now) && now <= later
    ensures Delta(cache, key, interval, later) == Delta(log, key, interval, later)
  {
  }

  lemma PurgeKeepsAgreement(cache: map<string, int>, log: map<string, int>, interval: int,
                            visits: map<string, int>, now: int)
    requires Agrees(cache, log, interval, now)
    requires forall k :: k in visits ==> visits[k] <= now
    ensures Agrees(Purged(cache, interval, visits), log, interval, now)
  {
  }

  lemma CallKeepsAgreement(cache: map<string, int>, log: map<string, int>, interval: int, c: Call, start: int, end: int)
    requires Agrees(cache, log, interval, start) && CallTimed(c, start, end)
    ensures Agrees(AfterCall(cache, interval, c), AfterCallLogged(log, interval, c), interval, end)
  {
    AgreeingDelta(cache, log, interval, c.key, start, c.checkedAt);
    assert Agrees(cache, log, interval, end);
    PurgeKeepsAgreement(cache, log, interval, c.firstVisits, end);
    if Delta(cache, c.key, interval, c.checkedAt) == 0 && c.succeeds {
      var checked := Purged(cache, interval, c.firstVisits);
      PurgeKeepsAgreement(checked[c.key := c.storedAt], log[c.key := c.storedAt], interval, c.secondVisits, end);
    }
  }

  lemma {:induction false} CacheAgreesWithLog(calls: seq<Call>, ends: seq<int>, start: int, interval: int)
    requires Timed(calls, ends, start)
    ensures Agrees(CacheAfter(calls, interval), LogAfter(calls, interval), interval, StartOf(ends, start, |calls|))
  {
    if calls == [] {
    } else {
      var n := |calls| - 1;
      TimedPrefix(calls, ends, start, n);
      assert TimedAt(calls, ends, start, n);
      CacheAgreesWithLog(calls[..n], ends[..n], start, interval);
      CallKeepsAgreement(CacheAfter(calls[..n], interval), LogAfter(calls[..n], interval), interval, calls[n],
                         StartOf(ends, start, n), ends[n]);
    }
  }

  /** What the purging client answers to call number i, as a delay; and what the log would answer. */
  function DeltaAt(calls: seq<Call>, interval: int, i: nat): int
    requires i < |calls|
  {
    Delta(CacheAfter(calls[..i], interval), calls[i].key, interval, calls[i].checkedAt)
  }

  function LoggedDeltaAt(calls: seq<Call>, interval: int, i: nat): int
    requires i < |calls|
  {
    Delta(LogAfter(calls[..i], interval), calls[i].key, interval, calls[i].checkedAt)
  }

  /** For every call sequence over any keys, every call gets the answer the unpurged log would give. */
  lemma PurgingNeverChangesAnAnswer(calls: seq<Call>, ends: seq<int>, start: int, interval: int, i: nat)
    requires Timed(calls, ends, start) && i < |calls|
    ensures Respond(DeltaAt(calls, interval, i), calls[i]) == Respond(LoggedDeltaAt(calls, interval, i), calls[i])
    ensures DeltaAt(calls, interval, i) == LoggedDeltaAt(calls, interval, i)
  {
    TimedPrefix(calls, ends, start, i);
    CacheAgreesWithLog(calls[..i], ends[..i], start, interval);
    assert StartOf(ends[..i], start, i) == StartOf(ends, start, i);
    assert TimedAt(calls, ends, start, i);
    AgreeingDelta(CacheAfter(calls[..i], interval), LogAfter(calls[..i], interval), interval, calls[i].key,
                  StartOf(ends, start, i), calls[i].checkedAt);
  }

  /** Call number k posted key successfully: it was let through and the POST succeeded. */
  ghost predicate SucceededAt(calls: seq<Call>, interval: int, k: nat, key: string) {
    k < |calls| && calls[k].key == key && calls[k].succeeds && LoggedDeltaAt(calls, interval, k) == 0
  }

  /** Call k is the last success of the key before call n. */
  ghost predicate LastSuccess(calls: seq<Call>, interval: int, k: nat, n: nat, key: string) {
    && k < n <= |calls| && SucceededAt(calls, interval, k, key)
    && forall m :: k < m < n ==> !SucceededAt(calls, interval, m, key)
  }

  /** The log holds, for each key, the time of its last success. */
  lemma {:induction false} LogIsLastSuccess(calls: seq<Call>, interval: int, k: nat, n: nat, key: string)
    requires LastSuccess(calls, interval, k, n, key)
    ensures key in LogAfter(calls[..n], interval) && LogAfter(calls[..n], interval)[key] == calls[k].storedAt
  {
    var c := calls[n - 1];
    assert calls[..n][..n - 1] == calls[..n - 1] && calls[..n][n - 1] == c;
    if k < n - 1 {
      LogIsLastSuccess(calls, interval, k, n - 1, key);
      assert !SucceededAt(calls, interval, n - 1, key);
    }
  }

  /** Spacing: a POST for a key that has succeeded before comes at the very instant of its last success or at
      least the interval after it; a rejection returns the time elapsed since. */
  lemma PostsAreSpaced(calls: seq<Call>, ends: seq<int>, start: int, interval: int, i: nat, k: nat)
    requires Timed(calls, ends, start) && i < |calls| && LastSuccess(calls, interval, k, i, calls[i].key)
    ensures var elapsed := calls[i].checkedAt - calls[k].storedAt;
            && (DeltaAt(calls, interval, i) == 0 <==> elapsed == 0 || elapsed >= interval)
            && (DeltaAt(calls, interval, i) != 0 ==> DeltaAt(calls, interval, i) == elapsed)
  {
    PurgingNeverChangesAnAnswer(calls, ends, start, interval, i);
    LogIsLastSuccess(calls, interval, k, i, calls[i].key);
  }

  // ---------- what the client answers ----------

  /** The answer to call number i of a client that has answered the calls before it. */
  function AnswerAt(calls: seq<Call>, interval: int, i: nat): Answer
    requires i < |calls|
  {
    Respond(DeltaAt(calls, interval, i), calls[i])
  }

  /** A success is a call that was answered as posted and succeeded. */
  lemma SuccessIsPosted(calls: seq<Call>, ends: seq<int>, start: int, interval: int, i: nat)
    requires Timed(calls, ends, start) && i < |calls|
    ensures SucceededAt(calls, interval, i, calls[i].key) <==> AnswerAt(calls, interval, i) == Posted(true)
  {
    PurgingNeverChangesAnAnswer(calls, ends, start, interval, i);
  }

  /** A key that succeeded before: rejected with the elapsed time while that is above zero and below the interval;
      otherwise posted, with the outcome of the POST. */
  lemma AnswerMeans(calls: seq<Call>, ends: seq<int>, start: int, interval: int, i: nat, k: nat)
    requires Timed(calls, ends, start) && i < |calls| && LastSuccess(calls, interval, k, i, calls[i].key)
    ensures var elapsed := calls[i].checkedAt - calls[k].storedAt;
            && elapsed >= 0
            && AnswerAt(calls, interval, i)
               == if 0 < elapsed < interval then Rejected(elapsed) else Posted(calls[i].succeeds)
  {
    PostsAreSpaced(calls, ends, start, interval, i, k);
    CallsFollow(calls, ends, start, k, i);
    CallBounds(calls, ends, start, i);
  }

  lemma {:induction false} NoSuccessNoLog(calls: seq<Call>, interval: int, n: nat, key: string)
    requires n <= |calls| && forall m: nat :: m < n ==> !SucceededAt(calls, interval, m, key)
    ensures key !in LogAfter(calls[..n], interval)
  {
    if n == 0 {
    } else {
      NoSuccessNoLog(calls, interval, n - 1, key);
      assert !SucceededAt(calls, interval, n - 1, key);
      assert calls[..n][..n - 1] == calls[..n - 1];
    }
  }

  /** A key that has not succeeded before is always posted. */
  lemma NewKeyIsPosted(calls: seq<Call>, ends: seq<int>, start: int, interval: int, i: nat)
    requires Timed(calls, ends, start) && i < |calls|
    requires forall m: nat :: m < i ==> !SucceededAt(calls, interval, m, calls[i].key)
    ensures AnswerAt(calls, interval, i) == Posted(calls[i].succeeds)
  {
    NoSuccessNoLog(calls, interval, i, calls[i].key);
    PurgingNeverChangesAnAnswer(calls, ends, start, interval, i);
  }

  /** What the call's last purge visited and left is no older than the interval. */
  lemma PurgeLeavesYoung(cache: map<string, int>, interval: int, c: Call, k: string)
    requires k in AfterCall(cache, interval, c)
    ensures var posted := Respond(Delta(cache, c.key, interval, c.checkedAt), c) == Posted(true);
            var visits := if posted then c.secondVisits else c.firstVisits;
            k in visits ==> visits[k] - AfterCall(cache, interval, c)[k] <= interval
  {
  }

  // ---------- rejections end soon ----------

  function Pow2(n: nat): nat { if n == 0 then 1 else 2 * Pow2(n - 1) }

  /** Retries of one key after its last success at time stored: each is rejected with the elapsed time, and the
      next comes no sooner than the returned delay after it. */
  predicate PatientRejections(times: seq<int>, stored: int, interval: int) {
    && (forall i :: 0 <= i < |times| ==> 0 < times[i] - stored < interval)
    && (forall i :: 0 <= i < |times| - 1 ==> WaitsOut(times, stored, i))
  }

  predicate WaitsOut(times: seq<int>, stored: int, i: nat)
    requires i + 1 < |times|
  {
    times[i + 1] >= times[i] + (times[i] - stored)
  }

  lemma {:induction false} ElapsedDoubles(times: seq<int>, stored: int, interval: int, i: nat)
    requires PatientRejections(times, stored, interval) && i < |times|
    ensures Pow2(i) * (times[0] - stored) <= times[i] - stored
  {
    if i == 0 {
    } else {
      ElapsedDoubles(times, stored, interval, i - 1);
      assert WaitsOut(times, stored, i - 1);
      assert Pow2(i) * (times[0] - stored) == 2 * (Pow2(i - 1) * (times[0] - stored));
    }
  }

  /** After r rejections of an obedient caller 2^(r-1) times the first elapsed time is still below the interval. */
  lemma RejectionsAreLogarithmic(times: seq<int>, stored: int, interval: int)
    requires PatientRejections(times, stored, interval) && times != []
    ensures Pow2(|times| - 1) * (times[0] - stored) < interval
    ensures Pow2(|times| - 1) < interval
  {
    ElapsedDoubles(times, stored, interval, |times| - 1);
    var p, d := Pow2(|times| - 1), times[0] - stored;
    assert p <= p * d by { MulAtLeast(p, d); }
  }

  lemma MulAtLeast(p: nat, d: int)
    requires d >= 1
    ensures p <= p * d
  {
  }

  /** The calls at the positions idx are retries of the key that succeeded at k, none sooner than the delay returned
      to the one before allows. Other keys may be called in between; up to the last retry every call of the key itself
      is rejected. */
  ghost predicate ObedientRetries(calls: seq<Call>, interval: int, k: nat, idx: seq<nat>) {
    && idx != [] && k < |calls| && SucceededAt(calls, interval, k, calls[k].key)
    && (forall j :: 0 <= j < |idx| ==> k < idx[j] < |calls| && calls[idx[j]].key == calls[k].key)
    && (forall j :: 0 <= j < |idx| - 1 ==> NextRetry(calls, interval, idx, j))
    && (forall i: nat :: k < i <= idx[|idx| - 1] && calls[i].key == calls[k].key ==> DeltaAt(calls, interval, i) != 0)
  }

  ghost predicate NextRetry(calls: seq<Call>, interval: int, idx: seq<nat>, j: nat)
    requires j + 1 < |idx| && idx[j] < |calls| && idx[j + 1] < |calls|
  {
    && idx[j] < idx[j + 1]
    && calls[idx[j + 1]].checkedAt >= calls[idx[j]].checkedAt + DeltaAt(calls, interval, idx[j])
  }

  lemma {:induction false} RetriesAscend(calls: seq<Call>, interval: int, k: nat, idx: seq<nat>, j: nat)
    requires ObedientRetries(calls, interval, k, idx) && j < |idx|
    ensures idx[j] <= idx[|idx| - 1]
    decreases |idx| - j
  {
    if j == |idx| - 1 {
    } else {
      assert NextRetry(calls, interval, idx, j);
      RetriesAscend(calls, interval, k, idx, j + 1);
    }
  }

  lemma CallBounds(calls: seq<Call>, ends: seq<int>, start: int, i: nat)
    requires Timed(calls, ends, start) && i < |calls|
    ensures StartOf(ends, start, i) <= calls[i].checkedAt <= calls[i].storedAt <= ends[i]
  {
    assert TimedAt(calls, ends, start, i);
  }

  lemma {:induction false} CallsFollow(calls: seq<Call>, ends: seq<int>, start: int, k: nat, i: nat)
    requires Timed(calls, ends, start) && k < i < |calls|
    ensures calls[k].storedAt <= ends[i - 1]
  {
    CallBounds(calls, ends, start, i - 1);
    if k < i - 1 {
      CallsFollow(calls, ends, start, k, i - 1);
    }
  }

  /** A rejected retry is told the time since the success, strictly between 0 and the interval. */
  lemma RetryDelay(calls: seq<Call>, ends: seq<int>, start: int, interval: int, k: nat, idx: seq<nat>, j: nat)
    requires Timed(calls, ends, start) && ObedientRetries(calls, interval, k, idx) && j < |idx|
    ensures DeltaAt(calls, interval, idx[j]) == calls[idx[j]].checkedAt - calls[k].storedAt
    ensures 0 < DeltaAt(calls, interval, idx[j]) < interval
  {
    var i := idx[j];
    RetriesAscend(calls, interval, k, idx, j);
    forall m | k < m < i ensures !SucceededAt(calls, interval, m, calls[k].key) {
      PurgingNeverChangesAnAnswer(calls, ends, start, interval, m);
    }
    PostsAreSpaced(calls, ends, start, interval, i, k);
    CallsFollow(calls, ends, start, k, i);
    CallBounds(calls, ends, start, i);
  }

  /** The check times of the retries, as a sequence. */
  function RetryTimes(calls: seq<Call>, idx: seq<nat>): (r: seq<int>)
    requires forall j :: 0 <= j < |idx| ==> idx[j] < |calls|
    ensures |r| == |idx| && forall j :: 0 <= j < |idx| ==> r[j] == calls[idx[j]].checkedAt
  {
    seq(|idx|, j requires 0 <= j < |idx| => calls[idx[j]].checkedAt)
  }

  lemma RetryWaits(calls: seq<Call>, ends: seq<int>, start: int, interval: int, k: nat, idx: seq<nat>, j: nat)
    requires Timed(calls, ends, start) && ObedientRetries(calls, interval, k, idx) && j + 1 < |idx|
    ensures WaitsOut(RetryTimes(calls, idx), calls[k].storedAt, j)
  {
    RetryDelay(calls, ends, start, interval, k, idx, j);
    assert NextRetry(calls, interval, idx, j);
  }

  lemma RetriesArePatient(calls: seq<Call>, ends: seq<int>, start: int, interval: int, k: nat, idx: seq<nat>)
    requires Timed(calls, ends, start) && ObedientRetries(calls, interval, k, idx)
    ensures PatientRejections(RetryTimes(calls, idx), calls[k].storedAt, interval)
  {
    var times, stored := RetryTimes(calls, idx), calls[k].storedAt;
    forall j | 0 <= j < |times| ensures 0 < times[j] - stored < interval {
      RetryDelay(calls, ends, start, interval, k, idx, j);
    }
    forall j | 0 <= j < |times| - 1 ensures WaitsOut(times, stored, j) {
      RetryWaits(calls, ends, start, interval, k, idx, j);
    }
  }

  /** The time from the success to the first retry. */
  function FirstWait(calls: seq<Call>, k: nat, idx: seq<nat>): int
    requires k < |calls| && idx != [] && idx[0] < |calls|
  {
    calls[idx[0]].checkedAt - calls[k].storedAt
  }

  /** The client itself, serving any number of keys: the number of obedient retries of a key it can reject in a row is
      logarithmic in the interval, and every delay it returns to them lies strictly between 0 and the interval. */
  lemma ObedientRetriesEnd(calls: seq<Call>, ends: seq<int>, start: int, interval: int, k: nat, idx: seq<nat>)
    requires Timed(calls, ends, start) && ObedientRetries(calls, interval, k, idx)
    ensures Pow2(|idx| - 1) * FirstWait(calls, k, idx) < interval
    ensures Pow2(|idx| - 1) < interval
    ensures forall j :: 0 <= j < |idx| ==> 0 < DeltaAt(calls, interval, idx[j]) < interval
  {
    RetryDelays(calls, ends, start, interval, k, idx);
    RetriesArePatient(calls, ends, start, interval, k, idx);
    RetryBound(calls, interval, k, idx);
  }

  lemma RetryBound(calls: seq<Call>, interval: int, k: nat, idx: seq<nat>)
    requires k < |calls| && idx != [] && forall j :: 0 <= j < |idx| ==> idx[j] < |calls|
    requires PatientRejections(RetryTimes(calls, idx), calls[k].storedAt, interval)
    ensures Pow2(|idx| - 1) * FirstWait(calls, k, idx) < interval && Pow2(|idx| - 1) < interval
  {
    FirstRetryBound(RetryTimes(calls, idx), calls[k].storedAt, interval, |idx| - 1, FirstWait(calls, k, idx));
  }

  lemma FirstRetryBound(times: seq<int>, stored: int, interval: int, n: nat, wait: int)
    requires PatientRejections(times, stored, interval) && |times| == n + 1 && times[0] - stored == wait
    ensures Pow2(n) * wait < interval && Pow2(n) < interval
  {
    RejectionsAreLogarithmic(times, stored, interval);
  }

  lemma RetryDelays(calls: seq<Call>, ends: seq<int>, start: int, interval: int, k: nat, idx: seq<nat>)
    requires Timed(calls, ends, start) && ObedientRetries(calls, interval, k, idx)
    ensures forall j :: 0 <= j < |idx| ==> 0 < DeltaAt(calls, interval, idx[j]) < interval
  {
    forall j | 0 <= j < |idx| ensures 0 < DeltaAt(calls, interval, idx[j]) < interval {
      RetryDelay(calls, ends, start, interval, k, idx, j);
    }
  }
}
