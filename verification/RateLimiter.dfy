/** The fixed-window rate limiter with a bounded table of buckets. */
module RateLimiter {
  import opened Basics

  const MAX_BUCKETS: nat := 10_000
  const U32_MAX: int := 0xffff_ffff

  type U32 = x: int | 0 <= x <= U32_MAX witness 0

  datatype Bucket = Bucket(startedAt: I64, count: U32, window: I64)

  type Table = map<string, Bucket>

  function SaturatingSub(a: I64, b: I64): I64 {
    Saturate(a - b)
  }

  /** The window of the bucket is over. */
  predicate Expired(b: Bucket, now: I64) {
    SaturatingSub(now, b.startedAt) >= b.window
  }

  function Key(namespace: string, key: string): string {
    namespace + ":" + key
  }

  datatype Answer = Accepted | Limited | TableFull | Misconfigured

  // --- The limiter without a table bound -----------------------------------------------

  /** The bucket a call for a key counts against. */
  function CurrentBucket(t: Table, k: string, window: I64, now: I64): Bucket {
    if k in t && !Expired(t[k], now) then t[k] else Bucket(now, 0, window)
  }

  /** One more call, the counter saturating. */
  function Count(b: Bucket): Bucket {
    b.(count := if b.count == U32_MAX then U32_MAX else b.count + 1)
  }

  /** Decide on a call for `k` and count it if it is accepted. */
  function Admit(t: Table, k: string, limit: U32, window: I64, now: I64): (Table, Answer) {
    var b := CurrentBucket(t, k, window, now);
    if b.count >= limit then (t[k := b], Limited) else (t[k := Count(b)], Accepted)
  }

  function UnboundedCheck(t: Table, k: string, limit: U32, window: I64, now: I64): (Table, Answer) {
    if limit == 0 || window <= 0 then (t, Misconfigured) else Admit(t, k, limit, window, now)
  }

  // --- The limiter as it is: evict when full, refuse when still full -------------------

  function Retained(t: Table, now: I64): Table {
    map k | k in t && !Expired(t[k], now) :: t[k]
  }

  function BoundedCheck(t: Table, k: string, limit: U32, window: I64, now: I64): (Table, Answer) {
    if limit == 0 || window <= 0 then (t, Misconfigured)
    else
      var kept := if |t| >= MAX_BUCKETS then Retained(t, now) else t;
      if |kept| >= MAX_BUCKETS then (kept, TableFull) else Admit(kept, k, limit, window, now)
  }

  /** The object: `check` and `reset` on a locked table that is updated in place. */
  class RateLimiter {
    var buckets: Table

    constructor ()
      ensures buckets == map[]
    {
      buckets := map[];
    }

    method Check(namespace: string, key: string, limit: U32, window: I64, now: I64) returns (answer: Answer)
      requires |buckets| <= MAX_BUCKETS
      modifies this
      ensures (buckets, answer) == BoundedCheck(old(buckets), namespace + ":" + key, limit, window, now)
      ensures |buckets| <= MAX_BUCKETS
    {
      if limit == 0 || window <= 0 { return Misconfigured; }
      if |buckets| >= MAX_BUCKETS {
        buckets := map k | k in buckets && SaturatingSub(now, buckets[k].startedAt) < buckets[k].window :: buckets[k];
        RetainedIsSmaller(old(buckets), now);
        assert buckets == Retained(old(buckets), now);
        if |buckets| >= MAX_BUCKETS { return TableFull; }
      }
      ghost var kept := buckets;
      var k := Key(namespace, key);
      if k !in buckets {
        buckets := buckets[k := Bucket(now, 0, window)];
      }
      var bucket := buckets[k];
      if SaturatingSub(now, bucket.startedAt) >= bucket.window {
        bucket := Bucket(now, 0, window);
      }
      buckets := buckets[k := bucket];
      if bucket.count >= limit {
        assert buckets == Admit(kept, k, limit, window, now).0;
        return Limited;
      }
      buckets := buckets[k := Count(bucket)];
      assert buckets == Admit(kept, k, limit, window, now).0;
      answer := Accepted;
    }

    method Reset(namespace: string, key: string)
      modifies this
      ensures buckets == old(buckets) - {namespace + ":" + key}
    {
      buckets := buckets - {Key(namespace, key)};
    }
  }

  lemma RetainedIsSmaller(t: Table, now: I64)
    ensures |Retained(t, now)| <= |t|
    ensures Retained(t, now).Keys <= t.Keys
  {
    SubsetIsSmaller(Retained(t, now).Keys, t.Keys);
  }

  lemma SubsetIsSmaller<T>(a: set<T>, b: set<T>)
    requires a <= b
    ensures |a| <= |b|
  {
    assert b == a + (b - a);
  }

  // --- What one call does ------------------------------------------------------------------

  /** The keys whose window has not passed; the difference of the times saturates. */
  function LiveKeys(t: Table, now: I64): set<string> {
    set k | k in t && Saturate(now - t[k].startedAt) < t[k].window
  }

  lemma RetainedIsLive(t: Table, now: I64)
    ensures Retained(t, now).Keys == LiveKeys(t, now) && |Retained(t, now)| == |LiveKeys(t, now)|
    ensures |LiveKeys(t, now)| <= |t|
  {
    var kept := Retained(t, now);
    assert kept.Keys == LiveKeys(t, now) && |kept| == |kept.Keys|;
    RetainedIsSmaller(t, now);
  }

  /** A call is refused for lack of room if and only if 10000 windows are running. Otherwise it
      is limited if and only if the running window of its key has had its calls, and accepted and
      counted else: in that window, or in a new one that starts with it. */
  lemma CheckDecided(t: Table, k: string, limit: U32, window: I64, now: I64)
    requires limit > 0 && window > 0
    ensures var (after, answer) := BoundedCheck(t, k, limit, window, now);
            var running := k in LiveKeys(t, now);
            && (answer == TableFull <==> |LiveKeys(t, now)| >= 10_000)
            && (answer != TableFull ==>
                  && (answer == Limited <==> running && t[k].count >= limit)
                  && (answer == Accepted <==> !(running && t[k].count >= limit))
                  && k in after
                  && (answer == Limited ==> after[k] == t[k])
                  && (answer == Accepted ==>
                        after[k] == if running then Bucket(t[k].startedAt, t[k].count + 1, t[k].window)
                                    else Bucket(now, 1, window)))
  {
    RetainedIsLive(t, now);
  }

  /** Other keys lose their bucket exactly if the table holds 10000 and their window has passed. */
  lemma CheckEvictsExactly(t: Table, k: string, limit: U32, window: I64, now: I64, o: string)
    requires limit > 0 && window > 0 && o != k
    ensures var after := BoundedCheck(t, k, limit, window, now).0;
            && (o in after <==> o in t && (|t| < 10_000 || o in LiveKeys(t, now)))
            && (o in after ==> after[o] == t[o])
  {
    RetainedIsLive(t, now);
  }

  /** So a key that has no bucket is served whenever there is room, whoever else calls. */
  lemma NewKeyIsAccepted(t: Table, k: string, limit: U32, window: I64, now: I64)
    requires limit > 0 && window > 0 && k !in t && |LiveKeys(t, now)| < 10_000
    ensures BoundedCheck(t, k, limit, window, now).1 == Accepted
  {
    CheckDecided(t, k, limit, window, now);
  }

  lemma MisconfiguredChangesNothing(t: Table, k: string, limit: U32, window: I64, now: I64)
    ensures BoundedCheck(t, k, limit, window, now).1 == Misconfigured <==> limit == 0 || window <= 0
    ensures limit == 0 || window <= 0 ==> BoundedCheck(t, k, limit, window, now).0 == t
  {
  }

  // --- Runs ------------------------------------------------------------------------------

  datatype Call =
    | Check(key: string, limit: U32, window: I64, now: I64)
    | Reset(key: string)

  function CallBounded(t: Table, c: Call): (Table, Answer) {
    match c
    case Check(k, limit, window, now) => BoundedCheck(t, k, limit, window, now)
    case Reset(k) => (t - {k}, Accepted)
  }

  function CallUnbounded(t: Table, c: Call): (Table, Answer) {
    match c
    case Check(k, limit, window, now) => UnboundedCheck(t, k, limit, window, now)
    case Reset(k) => (t - {k}, Accepted)
  }

  /** A call together with the answer it got. */
  type Event = (Call, Answer)

  function RunBounded(t: Table, calls: seq<Call>): (events: seq<Event>)
    ensures |events| == |calls|
    ensures forall i :: 0 <= i < |calls| ==> events[i].0 == calls[i]
    decreases |calls|
  {
    if calls == [] then []
    else
      var (next, answer) := CallBounded(t, calls[0]);
      [(calls[0], answer)] + RunBounded(next, calls[1..])
  }

  function RunUnbounded(t: Table, calls: seq<Call>): (events: seq<Event>)
    decreases |calls|
  {
    if calls == [] then []
    else
      var (next, answer) := CallUnbounded(t, calls[0]);
      [(calls[0], answer)] + RunUnbounded(next, calls[1..])
  }

  /** The table a sequence of calls leaves behind. */
  function TableAfter(t: Table, calls: seq<Call>): Table
    decreases |calls|
  {
    if calls == [] then t else TableAfter(CallBounded(t, calls[0]).0, calls[1..])
  }

  function UnboundedTableAfter(t: Table, calls: seq<Call>): Table
    decreases |calls|
  {
    if calls == [] then t else UnboundedTableAfter(CallUnbounded(t, calls[0]).0, calls[1..])
  }

  /** The events that were not refused for lack of room. */
  function Served(events: seq<Event>): seq<Event> {
    if events == [] then []
    else if events[0].1 == TableFull then Served(events[1..])
    else [events[0]] + Served(events[1..])
  }

  function CallsOf(events: seq<Event>): seq<Call> {
    seq(|events|, i requires 0 <= i < |events| => events[i].0)
  }

  /** The clock never runs backwards, and never before `from`. */
  predicate ClockMonotone(calls: seq<Call>, from: I64) {
    calls == [] ||
    (if calls[0].Check? then from <= calls[0].now && ClockMonotone(calls[1..], calls[0].now)
     else ClockMonotone(calls[1..], from))
  }

  /** The bounded table is the unbounded one less some buckets whose window is over. */
  ghost predicate Simulates(bounded: Table, unbounded: Table, now: I64) {
    && (forall k :: k in bounded ==> k in unbounded && unbounded[k] == bounded[k])
    && (forall k :: k in unbounded && k !in bounded ==> Expired(unbounded[k], now))
    && (forall k :: k in unbounded ==> unbounded[k].startedAt <= now && unbounded[k].window > 0)
  }

  lemma ExpiredStays(b: Bucket, now: I64, later: I64)
    requires Expired(b, now) && now <= later
    ensures Expired(b, later)
  {
  }

  lemma CheckSimulates(bounded: Table, unbounded: Table, from: I64, c: Call)
    requires c.Check? && from <= c.now && Simulates(bounded, unbounded, from)
    ensures var (b, answer) := CallBounded(bounded, c);
            if answer == TableFull then Simulates(b, unbounded, c.now)
            else CallUnbounded(unbounded, c).1 == answer && Simulates(b, CallUnbounded(unbounded, c).0, c.now)
  {
    SimulatesLater(bounded, unbounded, from, c.now);
    EvictionSimulates(bounded, unbounded, c.now);
  }

  lemma SimulatesLater(bounded: Table, unbounded: Table, now: I64, later: I64)
    requires now <= later && Simulates(bounded, unbounded, now)
    ensures Simulates(bounded, unbounded, later)
  {
    forall k | k in unbounded && Expired(unbounded[k], now) ensures Expired(unbounded[k], later) {
      ExpiredStays(unbounded[k], now, later);
    }
  }

  lemma EvictionSimulates(bounded: Table, unbounded: Table, now: I64)
    requires Simulates(bounded, unbounded, now)
    ensures Simulates(Retained(bounded, now), unbounded, now)
  {
  }

  /** Leaving out the calls refused because the table was full, the bounded limiter gives
      the answers of an unbounded one, on every sequence of calls and resets. */
  lemma {:induction false} BoundedRefinesUnbounded(bounded: Table, unbounded: Table, calls: seq<Call>, from: I64)
    requires Simulates(bounded, unbounded, from) && ClockMonotone(calls, from)
    ensures var served := Served(RunBounded(bounded, calls));
            && RunUnbounded(unbounded, CallsOf(served)) == served
            && forall k <- TableAfter(bounded, calls) ::
                 && k in UnboundedTableAfter(unbounded, CallsOf(served))
                 && UnboundedTableAfter(unbounded, CallsOf(served))[k] == TableAfter(bounded, calls)[k]
    decreases |calls|
  {
    if calls != [] {
      var c := calls[0];
      var (next, answer) := CallBounded(bounded, c);
      var events := RunBounded(bounded, calls);
      assert events[1..] == RunBounded(next, calls[1..]);
      if c.Reset? {
        BoundedRefinesUnbounded(next, unbounded - {c.key}, calls[1..], from);
        FirstServed(events);
      } else {
        CheckSimulates(bounded, unbounded, from, c);
        if answer == TableFull {
          BoundedRefinesUnbounded(next, unbounded, calls[1..], c.now);
        } else {
          BoundedRefinesUnbounded(next, CallUnbounded(unbounded, c).0, calls[1..], c.now);
          FirstServed(events);
        }
      }
    }
  }

  lemma FirstServed(events: seq<Event>)
    requires events != [] && events[0].1 != TableFull
    ensures CallsOf(Served(events)) == [events[0].0] + CallsOf(Served(events[1..]))
    ensures CallsOf(Served(events))[1..] == CallsOf(Served(events[1..]))
  {
  }

  /** The table never holds more than `MAX_BUCKETS` buckets. */
  lemma TableStaysBounded(t: Table, c: Call)
    requires |t| <= MAX_BUCKETS
    ensures |CallBounded(t, c).0| <= MAX_BUCKETS
  {
    match c {
      case Check(_, _, _, now) => RetainedIsSmaller(t, now);
      case Reset(k) => SubsetIsSmaller((t - {k}).Keys, t.Keys);
    }
  }

  lemma {:induction false} RunsStayBounded(t: Table, calls: seq<Call>)
    requires |t| <= MAX_BUCKETS
    ensures |TableAfter(t, calls)| <= MAX_BUCKETS
    decreases |calls|
  {
    if calls != [] {
      TableStaysBounded(t, calls[0]);
      RunsStayBounded(CallBounded(t, calls[0]).0, calls[1..]);
    }
  }

  // --- How many calls a key gets through ------------------------------------------------

  /** The times of the accepted calls for `k`, in order. */
  function AcceptedTimes(events: seq<Event>, k: string): seq<int> {
    if events == [] then []
    else
      var (c, answer) := events[0];
      (if c.Check? && c.key == k && answer == Accepted then [c.now as int] else []) + AcceptedTimes(events[1..], k)
  }

  /** How many of the times lie in `[from, until)`. */
  function Within(times: seq<int>, from: int, until: int): nat {
    if times == [] then 0
    else Within(times[..|times| - 1], from, until) + (if from <= times[|times| - 1] < until then 1 else 0)
  }

  /** How many of the times lie in the interval that starts at `start` and is one window long. */
  function InWindow(times: seq<int>, start: int, window: I64): nat {
    Within(times, start, start + window)
  }

  /** Every call for `k` uses the same limit and window, and `k` is never reset. */
  predicate Steady(calls: seq<Call>, k: string, limit: U32, window: I64) {
    forall c <- calls :: c.key == k ==> c.Check? && c.limit == limit && c.window == window
  }

  lemma {:induction false} WithinGrows(times: seq<int>, n: int, from: int, until: int)
    ensures Within(times + [n], from, until) == Within(times, from, until) + (if from <= n < until then 1 else 0)
  {
    assert (times + [n])[..|times|] == times;
  }

  lemma {:induction false} WithinNarrower(times: seq<int>, from: int, until: int, from1: int, until1: int)
    requires forall x <- times :: from <= x < until ==> from1 <= x < until1
    ensures Within(times, from, until) <= Within(times, from1, until1)
  {
    if times != [] {
      var front := times[..|times| - 1];
      assert forall x <- front :: x in times;
      assert times[|times| - 1] in times;
      WithinNarrower(front, from, until, from1, until1);
    }
  }

  lemma {:induction false} WithinLosesFirst(times: seq<int>, s: int, from: int, until: int)
    requires s in times && s < from && s < until
    ensures Within(times, from, until) < Within(times, s, until)
  {
    var front, last := times[..|times| - 1], times[|times| - 1];
    if s in front {
      WithinLosesFirst(front, s, from, until);
    } else {
      WithinNarrower(front, from, until, s, until);
    }
  }

  /** What a key's bucket says about the calls accepted so far, `end` being any time after them all. */
  ghost predicate Accounts(b: Bucket, times: seq<int>, limit: U32, window: I64, end: int) {
    && b.window == window
    && b.startedAt as int in times
    && b.count as int == Within(times, b.startedAt, end) <= limit
    && (forall x <- times :: x < b.startedAt + window && x < end)
    && (forall t :: b.startedAt - window < t ==> Within(times, t, end) <= b.count + limit - 1)
  }

  ghost predicate WindowsHold(times: seq<int>, limit: U32, window: I64) {
    forall t :: InWindow(times, t, window) <= 2 * limit - 1
  }

  const BEYOND: int := I64_MAX + 1

  ghost predicate Tracks(t: Table, k: string, times: seq<int>, limit: U32, window: I64) {
    && WindowsHold(times, limit, window)
    && (k !in t ==> times == [])
    && (k in t ==> Accounts(t[k], times, limit, window, BEYOND))
  }

  /** A call accepted by the bucket in force. */
  lemma JoinsBucket(b: Bucket, times: seq<int>, limit: U32, window: I64, now: I64)
    requires window > 0 && Accounts(b, times, limit, window, BEYOND) && WindowsHold(times, limit, window)
    requires b.startedAt <= now && !Expired(b, now) && b.count < limit
    ensures Accounts(Count(b), times + [now as int], limit, window, BEYOND)
    ensures WindowsHold(times + [now as int], limit, window)
  {
    var n := now as int;
    WithinGrows(times, n, b.startedAt, BEYOND);
    forall t: int | b.startedAt - window < t
      ensures Within(times + [n], t, BEYOND) <= Count(b).count + limit - 1
    {
      WithinGrows(times, n, t, BEYOND);
    }
    forall t: int ensures InWindow(times + [n], t, window) <= 2 * limit - 1 {
      assert InWindow(times, t, window) <= 2 * limit - 1;
      WithinGrows(times, n, t, t + window);
      WithinNarrower(times, t, t + window, t, BEYOND);
    }
  }

  /** A call that opens a bucket, the one before being over. */
  lemma OpensBucket(b: Bucket, times: seq<int>, limit: U32, window: I64, now: I64)
    requires window > 0 && limit > 0 && Accounts(b, times, limit, window, BEYOND) && WindowsHold(times, limit, window)
    requires b.startedAt <= now && Expired(b, now)
    ensures Accounts(Bucket(now, 1, window), times + [now as int], limit, window, BEYOND)
    ensures WindowsHold(times + [now as int], limit, window)
  {
    var n := now as int;
    NoneWithin(times, n, BEYOND);
    WithinGrows(times, n, n, BEYOND);
    forall t: int | now - window < t ensures Within(times + [n], t, BEYOND) <= 1 + limit - 1 {
      WithinGrows(times, n, t, BEYOND);
      WithinLosesFirst(times, b.startedAt, t, BEYOND);
    }
    forall t: int ensures InWindow(times + [n], t, window) <= 2 * limit - 1 {
      assert InWindow(times, t, window) <= 2 * limit - 1;
      WithinGrows(times, n, t, t + window);
      if t <= n < t + window {
        WithinNarrower(times, t, t + window, t, BEYOND);
        WithinLosesFirst(times, b.startedAt, t, BEYOND);
      }
    }
  }

  lemma {:induction false} NoneWithin(times: seq<int>, from: int, until: int)
    requires forall x <- times :: x < from
    ensures Within(times, from, until) == 0
  {
    if times != [] {
      var front := times[..|times| - 1];
      assert forall x <- front :: x in times;
      assert times[|times| - 1] in times;
      NoneWithin(front, from, until);
    }
  }

  /** The first call for a key. */
  lemma OpensFirst(limit: U32, window: I64, now: I64)
    requires window > 0 && limit > 0
    ensures Accounts(Bucket(now, 1, window), [now as int], limit, window, BEYOND)
    ensures WindowsHold([now as int], limit, window)
  {
    var n := now as int;
    assert [] + [n] == [n];
    forall t: int, u: int ensures Within([n], t, u) == if t <= n < u then 1 else 0 {
      WithinGrows([], n, t, u);
    }
    assert forall t :: InWindow([n], t, window) <= 1;
  }

  lemma CallTracks(t: Table, k: string, times: seq<int>, limit: U32, window: I64, c: Call, from: I64)
    requires limit > 0 && window > 0 && Steady([c], k, limit, window)
    requires Tracks(t, k, times, limit, window)
    requires k in t ==> t[k].startedAt <= from
    requires c.Check? ==> from <= c.now
    ensures var (next, answer) := CallUnbounded(t, c);
            && Tracks(next, k, times + AcceptedTimes([(c, answer)], k), limit, window)
            && (k in next ==> next[k].startedAt <= if c.Check? then c.now else from)
  {
    var (next, answer) := CallUnbounded(t, c);
    assert c in [c];
    assert AcceptedTimes([(c, answer)], k) == if c.key == k && answer == Accepted then [c.now as int] else [];
    if c.key == k && answer == Accepted {
      if k !in t {
        assert times + [c.now as int] == [c.now as int];
        OpensFirst(limit, window, c.now);
      } else if Expired(t[k], c.now) {
        OpensBucket(t[k], times, limit, window, c.now);
      } else {
        JoinsBucket(t[k], times, limit, window, c.now);
      }
    } else {
      assert times + AcceptedTimes([(c, answer)], k) == times;
    }
  }

  lemma StaysSteady(calls: seq<Call>, k: string, limit: U32, window: I64)
    requires calls != [] && Steady(calls, k, limit, window)
    ensures Steady([calls[0]], k, limit, window) && Steady(calls[1..], k, limit, window)
  {
    assert calls[0] in calls && forall c <- calls[1..] :: c in calls;
  }

  lemma AcceptedFirst(first: Event, rest: seq<Event>, k: string)
    ensures AcceptedTimes([first] + rest, k) == AcceptedTimes([first], k) + AcceptedTimes(rest, k)
  {
    assert ([first] + rest)[1..] == rest;
  }

  lemma {:induction false} UnboundedTracks(
    t: Table, k: string, times: seq<int>, limit: U32, window: I64, calls: seq<Call>, from: I64)
    requires limit > 0 && window > 0 && Steady(calls, k, limit, window) && ClockMonotone(calls, from)
    requires Tracks(t, k, times, limit, window)
    requires k in t ==> t[k].startedAt <= from
    ensures Tracks(UnboundedTableAfter(t, calls), k, times + AcceptedTimes(RunUnbounded(t, calls), k), limit, window)
    decreases |calls|
  {
    if calls == [] {
      assert times + AcceptedTimes(RunUnbounded(t, calls), k) == times;
    } else {
      var c := calls[0];
      var (next, answer) := CallUnbounded(t, c);
      StaysSteady(calls, k, limit, window);
      CallTracks(t, k, times, limit, window, c, from);
      var first := AcceptedTimes([(c, answer)], k);
      UnboundedTracks(next, k, times + first, limit, window, calls[1..], if c.Check? then c.now else from);
      FirstTracked(t, calls, k);
      Regrouped(times, first, AcceptedTimes(RunUnbounded(next, calls[1..]), k));
    }
  }

  lemma FirstTracked(t: Table, calls: seq<Call>, k: string)
    requires calls != []
    ensures var (next, answer) := CallUnbounded(t, calls[0]);
            && UnboundedTableAfter(t, calls) == UnboundedTableAfter(next, calls[1..])
            && AcceptedTimes(RunUnbounded(t, calls), k)
               == AcceptedTimes([(calls[0], answer)], k) + AcceptedTimes(RunUnbounded(next, calls[1..]), k)
  {
    var (next, answer) := CallUnbounded(t, calls[0]);
    assert RunUnbounded(t, calls) == [(calls[0], answer)] + RunUnbounded(next, calls[1..]);
    AcceptedFirst((calls[0], answer), RunUnbounded(next, calls[1..]), k);
  }

  lemma Regrouped(a: seq<int>, b: seq<int>, c: seq<int>)
    ensures (a + b) + c == a + (b + c)
  {
  }

  lemma {:induction false} ServedKeepsAccepted(events: seq<Event>, k: string)
    ensures AcceptedTimes(Served(events), k) == AcceptedTimes(events, k)
  {
    if events != [] {
      ServedKeepsAccepted(events[1..], k);
      if events[0].1 != TableFull { assert Served(events)[1..] == Served(events[1..]); }
    }
  }

  lemma {:induction false} ServedFollowsTheClock(
    events: seq<Event>, calls: seq<Call>, from: I64, k: string, limit: U32, window: I64)
    requires CallsOf(events) == calls && ClockMonotone(calls, from) && Steady(calls, k, limit, window)
    ensures ClockMonotone(CallsOf(Served(events)), from) && Steady(CallsOf(Served(events)), k, limit, window)
    decreases |calls|
  {
    if events != [] {
      var later := if calls[0].Check? then calls[0].now else from;
      assert CallsOf(events[1..]) == calls[1..];
      ServedFollowsTheClock(events[1..], calls[1..], later, k, limit, window);
      var rest := CallsOf(Served(events[1..]));
      if events[0].1 == TableFull {
        EarlierClock(rest, later, from);
      } else {
        FirstServed(events);
        assert CallsOf(Served(events))[1..] == rest;
      }
    }
  }

  lemma {:induction false} EarlierClock(calls: seq<Call>, later: I64, from: I64)
    requires ClockMonotone(calls, later) && from <= later
    ensures ClockMonotone(calls, from)
    decreases |calls|
  {
    if calls != [] && !calls[0].Check? { EarlierClock(calls[1..], later, from); }
  }

  lemma RunTracks(calls: seq<Call>, from: I64, k: string, limit: U32, window: I64)
    requires limit > 0 && window > 0 && Steady(calls, k, limit, window) && ClockMonotone(calls, from)
    ensures var times := AcceptedTimes(RunBounded(map[], calls), k);
            && WindowsHold(times, limit, window)
            && (k in TableAfter(map[], calls) ==> Accounts(TableAfter(map[], calls)[k], times, limit, window, BEYOND))
  {
    var events := RunBounded(map[], calls);
    var served := Served(events);
    BoundedRefinesUnbounded(map[], map[], calls, from);
    ServedKeepsAccepted(events, k);
    assert CallsOf(events) == calls;
    ServedFollowsTheClock(events, calls, from, k, limit, window);
    forall t: int ensures InWindow([], t, window) <= 2 * limit - 1 {}
    UnboundedTracks(map[], k, [], limit, window, CallsOf(served), from);
    assert [] + AcceptedTimes(served, k) == AcceptedTimes(events, k);
  }

  /** However calls for other keys and evictions interleave, no interval one window long
      lets through more than `2 * limit - 1` calls for a key. */
  lemma WindowBound(calls: seq<Call>, from: I64, k: string, limit: U32, window: I64, start: int)
    requires limit > 0 && window > 0 && Steady(calls, k, limit, window) && ClockMonotone(calls, from)
    ensures InWindow(AcceptedTimes(RunBounded(map[], calls), k), start, window) <= 2 * limit - 1
  {
    RunTracks(calls, from, k, limit, window);
  }

  /** A bucket in the table counts exactly the calls accepted in its own window, at most
      `limit` of them; nothing was accepted after that window. */
  lemma BucketCountsItsWindow(calls: seq<Call>, from: I64, k: string, limit: U32, window: I64)
    requires limit > 0 && window > 0 && Steady(calls, k, limit, window) && ClockMonotone(calls, from)
    requires k in TableAfter(map[], calls)
    ensures var b := TableAfter(map[], calls)[k];
            var times := AcceptedTimes(RunBounded(map[], calls), k);
            && b.window == window
            && InWindow(times, b.startedAt, window) == b.count as int <= limit
            && forall x <- times :: x < b.startedAt + window
  {
    RunTracks(calls, from, k, limit, window);
    AccountedInWindow(
      TableAfter(map[], calls)[k], AcceptedTimes(RunBounded(map[], calls), k), limit, window);
  }

  lemma AccountedInWindow(b: Bucket, times: seq<int>, limit: U32, window: I64)
    requires Accounts(b, times, limit, window, BEYOND)
    ensures InWindow(times, b.startedAt, window) == b.count as int
  {
    WithinNarrower(times, b.startedAt, BEYOND, b.startedAt, b.startedAt + window);
    WithinNarrower(times, b.startedAt, b.startedAt + window, b.startedAt, BEYOND);
  }

  lemma LimitedBucket(t: Table, k: string, limit: U32, window: I64, now: I64)
    requires limit > 0 && window > 0 && BoundedCheck(t, k, limit, window, now).1 == Limited
    ensures k in t && !Expired(t[k], now) && t[k].count >= limit
  {
  }

  lemma FullBucketExplains(b: Bucket, times: seq<int>, limit: U32, window: I64, now: I64)
    requires Accounts(b, times, limit, window, BEYOND) && !Expired(b, now) && b.count >= limit
    ensures Within(times, now - window + 1, BEYOND) >= limit
  {
    WithinNarrower(times, b.startedAt, BEYOND, now - window + 1, BEYOND);
  }

  /** A call is refused for its key only after `limit` calls were accepted during the window
      that ends with it. */
  lemma RefusedOnlyAtTheLimit(calls: seq<Call>, from: I64, k: string, limit: U32, window: I64, now: I64)
    requires limit > 0 && window > 0 && Steady(calls, k, limit, window) && ClockMonotone(calls, from)
    requires BoundedCheck(TableAfter(map[], calls), k, limit, window, now).1 == Limited
    ensures Within(AcceptedTimes(RunBounded(map[], calls), k), now - window + 1, BEYOND) >= limit
  {
    RunTracks(calls, from, k, limit, window);
    LimitedBucket(TableAfter(map[], calls), k, limit, window, now);
    FullBucketExplains(
      TableAfter(map[], calls)[k], AcceptedTimes(RunBounded(map[], calls), k), limit, window, now);
  }

  // --- The bound is reached ---------------------------------------------------------------

  function Burst(k: string, limit: U32, window: I64, now: I64, size: nat): seq<Call> {
    seq(size, _ => Check(k, limit, window, now))
  }

  function Copies(n: int, size: nat): seq<int> {
    seq(size, _ => n)
  }

  lemma OneBucketFits(k: string, b: Bucket)
    ensures |map[k := b]| < MAX_BUCKETS
  {
    assert map[k := b].Keys == {k};
    assert |map[k := b].Keys| == 1;
  }

  lemma {:induction false} AcceptedAppend(a: seq<Event>, b: seq<Event>, k: string)
    ensures AcceptedTimes(a + b, k) == AcceptedTimes(a, k) + AcceptedTimes(b, k)
  {
    if a == [] {
      assert a + b == b;
    } else {
      assert (a + b)[1..] == a[1..] + b;
      AcceptedAppend(a[1..], b, k);
    }
  }

  lemma {:induction false} RunsAppend(t: Table, a: seq<Call>, b: seq<Call>)
    ensures RunBounded(t, a + b) == RunBounded(t, a) + RunBounded(TableAfter(t, a), b)
    decreases |a|
  {
    if a == [] {
      assert a + b == b;
    } else {
      assert (a + b)[1..] == a[1..] + b;
      RunsAppend(CallBounded(t, a[0]).0, a[1..], b);
    }
  }

  lemma AcceptedInBucket(k: string, b: Bucket, limit: U32, window: I64, now: I64)
    requires b.window == window > 0 && b.count < limit && b.startedAt <= now < b.startedAt + window
    ensures CallBounded(map[k := b], Check(k, limit, window, now)) == (map[k := Count(b)], Accepted)
  {
    OneBucketFits(k, b);
    assert map[k := b][k := Count(b)] == map[k := Count(b)];
  }

  /** All the calls, each accepted. */
  function AllAccepted(calls: seq<Call>): seq<Event> {
    seq(|calls|, i requires 0 <= i < |calls| => (calls[i], Accepted))
  }

  /** A burst that still fits into the bucket in force is accepted as a whole. */
  lemma {:induction false} BurstAccepted(k: string, b: Bucket, limit: U32, window: I64, now: I64, size: nat)
    requires b.window == window > 0 && b.count + size <= limit && b.startedAt <= now < b.startedAt + window
    ensures var burst := Burst(k, limit, window, now, size);
            && TableAfter(map[k := b], burst) == map[k := b.(count := b.count + size)]
            && RunBounded(map[k := b], burst) == AllAccepted(burst)
    decreases size
  {
    if size > 0 {
      var burst := Burst(k, limit, window, now, size);
      AcceptedInBucket(k, b, limit, window, now);
      BurstAccepted(k, Count(b), limit, window, now, size - 1);
      assert burst[1..] == Burst(k, limit, window, now, size - 1);
      assert AllAccepted(burst) == [(burst[0], Accepted)] + AllAccepted(burst[1..]);
    }
  }

  lemma {:induction false} BurstTimes(k: string, limit: U32, window: I64, now: I64, size: nat)
    ensures AcceptedTimes(AllAccepted(Burst(k, limit, window, now, size)), k) == Copies(now, size)
  {
    if size > 0 {
      var burst := Burst(k, limit, window, now, size);
      BurstTimes(k, limit, window, now, size - 1);
      assert burst[1..] == Burst(k, limit, window, now, size - 1);
      assert AllAccepted(burst)[1..] == AllAccepted(burst[1..]);
      assert Copies(now, size) == [now as int] + Copies(now, size - 1);
    }
  }

  lemma {:induction false} WithinAppend(a: seq<int>, b: seq<int>, from: int, until: int)
    ensures Within(a + b, from, until) == Within(a, from, until) + Within(b, from, until)
  {
    if b == [] {
      assert a + b == a;
    } else {
      WithinAppend(a, b[..|b| - 1], from, until);
      assert (a + b)[..|a + b| - 1] == a + b[..|b| - 1];
    }
  }

  lemma {:induction false} WithinCopies(n: int, size: nat, from: int, until: int)
    requires from <= n < until
    ensures Within(Copies(n, size), from, until) == size
  {
    if size > 0 {
      assert Copies(n, size)[..size - 1] == Copies(n, size - 1);
      WithinCopies(n, size - 1, from, until);
    }
  }

  /** A call that opens a bucket and the rest of the limit within its window. */
  function Filling(k: string, limit: U32, window: I64, opens: I64, fills: I64): seq<Call>
    requires limit >= 1
  {
    [Check(k, limit, window, opens)] + Burst(k, limit, window, fills, limit - 1)
  }

  /** One call opens a bucket; the rest of the limit comes just before its window ends, and a
      whole limit as soon as it has ended. */
  function Rush(k: string, limit: U32, window: I64): seq<Call>
    requires limit >= 1 && window >= 1
  {
    Filling(k, limit, window, 0, window - 1) + Filling(k, limit, window, window, window)
  }

  lemma OpeningCall(k: string, t: Table, limit: U32, window: I64, now: I64)
    requires limit >= 1 && window >= 1
    requires t == map[] || (exists b: Bucket :: t == map[k := b] && Expired(b, now))
    ensures CallBounded(t, Check(k, limit, window, now)) == (map[k := Bucket(now, 1, window)], Accepted)
  {
    if t != map[] {
      var b: Bucket :| t == map[k := b] && Expired(b, now);
      OneBucketFits(k, b);
    }
    assert t[k := Bucket(now, 1, window)] == map[k := Bucket(now, 1, window)];
  }

  lemma BucketFilled(k: string, t: Table, limit: U32, window: I64, opens: I64, fills: I64)
    requires limit >= 1 && window >= 1 && opens <= fills < opens + window
    requires t == map[] || (exists b: Bucket :: t == map[k := b] && Expired(b, opens))
    ensures var calls := Filling(k, limit, window, opens, fills);
            && TableAfter(t, calls) == map[k := Bucket(opens, limit, window)]
            && RunBounded(t, calls) == AllAccepted(calls)
  {
    var calls := Filling(k, limit, window, opens, fills);
    OpeningCall(k, t, limit, window, opens);
    BurstAccepted(k, Bucket(opens, 1, window), limit, window, fills, limit - 1);
    assert calls[1..] == Burst(k, limit, window, fills, limit - 1);
    assert AllAccepted(calls) == [(calls[0], Accepted)] + AllAccepted(calls[1..]);
  }

  lemma FillingTimes(k: string, limit: U32, window: I64, opens: I64, fills: I64)
    requires limit >= 1
    ensures AcceptedTimes(AllAccepted(Filling(k, limit, window, opens, fills)), k)
            == [opens as int] + Copies(fills, limit - 1)
  {
    var calls := Filling(k, limit, window, opens, fills);
    BurstTimes(k, limit, window, fills, limit - 1);
    assert calls[1..] == Burst(k, limit, window, fills, limit - 1);
    assert AllAccepted(calls)[1..] == AllAccepted(calls[1..]);
  }

  lemma TwoRuns(t: Table, a: seq<Call>, between: Table, b: seq<Call>)
    requires TableAfter(t, a) == between && RunBounded(t, a) == AllAccepted(a)
    requires RunBounded(between, b) == AllAccepted(b)
    ensures RunBounded(t, a + b) == AllAccepted(a) + AllAccepted(b)
  {
    RunsAppend(t, a, b);
  }

  lemma SecondBucketFilled(k: string, limit: U32, window: I64)
    requires limit >= 1 && window >= 1
    ensures var late := Filling(k, limit, window, window, window);
            RunBounded(map[k := Bucket(0, limit, window)], late) == AllAccepted(late)
  {
    var t := map[k := Bucket(0, limit, window)];
    assert t == map[k := Bucket(0, limit, window)] && Expired(Bucket(0, limit, window), window);
    BucketFilled(k, t, limit, window, window, window);
  }

  lemma RushEvents(k: string, limit: U32, window: I64)
    requires limit >= 1 && window >= 1
    ensures RunBounded(map[], Rush(k, limit, window)) ==
            AllAccepted(Filling(k, limit, window, 0, window - 1)) + AllAccepted(Filling(k, limit, window, window, window))
  {
    BucketFilled(k, map[], limit, window, 0, window - 1);
    SecondBucketFilled(k, limit, window);
    TwoRuns(map[], Filling(k, limit, window, 0, window - 1),
            map[k := Bucket(0, limit, window)], Filling(k, limit, window, window, window));
  }

  lemma RushAccepted(k: string, limit: U32, window: I64)
    requires limit >= 1 && window >= 1
    ensures AcceptedTimes(RunBounded(map[], Rush(k, limit, window)), k)
            == ([0] + Copies(window - 1, limit - 1)) + ([window as int] + Copies(window, limit - 1))
  {
    RushEvents(k, limit, window);
    AcceptedAppend(AllAccepted(Filling(k, limit, window, 0, window - 1)),
                   AllAccepted(Filling(k, limit, window, window, window)), k);
    FillingTimes(k, limit, window, 0, window - 1);
    FillingTimes(k, limit, window, window, window);
  }

  lemma RushCount(limit: nat, window: I64)
    requires limit >= 1 && window >= 2
    ensures InWindow(([0] + Copies(window - 1, limit - 1)) + ([window as int] + Copies(window, limit - 1)), 1, window)
            == 2 * limit - 1
  {
    var before, after := Copies(window - 1, limit - 1), Copies(window, limit - 1);
    WithinAppend([0] + before, [window as int] + after, 1, 1 + window);
    WithinAppend([0], before, 1, 1 + window);
    WithinAppend([window as int], after, 1, 1 + window);
    WithinCopies(window - 1, limit - 1, 1, 1 + window);
    WithinCopies(window, limit - 1, 1, 1 + window);
    WithinGrows([], 0, 1, 1 + window);
    WithinGrows([], window, 1, 1 + window);
    assert [] + [0] == [0] && [] + [window as int] == [window as int];
  }

  lemma RushIsSteady(k: string, limit: U32, window: I64)
    requires limit >= 1 && window >= 1
    ensures Steady(Rush(k, limit, window), k, limit, window) && ClockMonotone(Rush(k, limit, window), 0)
  {
    InTimeOrder(Rush(k, limit, window), 0);
  }

  /** For every limit and every window of at least two seconds, the bound `2 * limit - 1` is
      reached by calls that meet all its conditions. */
  lemma WindowBoundIsTight(k: string, limit: U32, window: I64)
    requires limit >= 1 && window >= 2
    ensures Steady(Rush(k, limit, window), k, limit, window) && ClockMonotone(Rush(k, limit, window), 0)
    ensures InWindow(AcceptedTimes(RunBounded(map[], Rush(k, limit, window)), k), 1, window) == 2 * limit - 1
  {
    RushIsSteady(k, limit, window);
    RushAccepted(k, limit, window);
    RushCount(limit, window);
  }

  lemma {:induction false} InTimeOrder(calls: seq<Call>, from: I64)
    requires forall c <- calls :: c.Check? && from <= c.now
    requires forall i, j :: 0 <= i < j < |calls| ==> calls[i].Check? && calls[j].Check? && calls[i].now <= calls[j].now
    ensures ClockMonotone(calls, from)
    decreases |calls|
  {
    if calls != [] {
      assert calls[0] in calls;
      forall c | c in calls[1..] ensures c.Check? && calls[0].now <= c.now {
        var i :| 0 <= i < |calls[1..]| && calls[1..][i] == c;
        assert calls[i + 1] == c && calls[0].now <= calls[i + 1].now;
      }
      InTimeOrder(calls[1..], calls[0].now);
    }
  }
}
