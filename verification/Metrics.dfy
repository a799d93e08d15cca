/** Metric history: at most `limit` representative samples of a whole time range. */
module Metrics {
  import opened Basics

  const MAXIMUM: nat := 10_000

  type Timestamp = I64

  function BoundedLimit(requested: nat): (limit: Timestamp)
    ensures 1 <= limit <= MAXIMUM
    ensures requested == 0 ==> limit == 100
    ensures 1 <= requested <= 10_000 ==> limit == requested
    ensures requested > 10_000 ==> limit == 10_000
  {
    if requested == 0 then 100 else if requested < MAXIMUM then requested else MAXIMUM
  }

  function Greater(a: Timestamp, b: Timestamp): Timestamp {
    if a < b then b else a
  }

  function MetricBucketSeconds(since: Timestamp, latest: Option<Timestamp>, limit: Timestamp): (seconds: Timestamp)
    ensures seconds >= 1
  {
    var n := Greater(limit, 1);
    var last := if latest.Some? then latest.value else since;
    var span := Greater(Saturate(Saturate(last - since) + 1), 1);
    Greater(Saturate(span + (n - 1)) / n, 1)
  }

  // --- The query --------------------------------------------------------------------------

  predicate IsLatest(times: set<Timestamp>, t: Timestamp) {
    t in times && forall x <- times :: x <= t
  }

  ghost function Latest(times: set<Timestamp>): (t: Timestamp)
    requires times != {}
    ensures t in times && forall x <- times :: x <= t
  {
    LatestExists(times);
    var t :| IsLatest(times, t);
    t
  }

  lemma {:induction false} LatestExists(times: set<Timestamp>)
    requires times != {}
    ensures exists t :: IsLatest(times, t)
  {
    var t :| t in times;
    var rest := times - {t};
    assert forall x <- times :: x == t || x in rest;
    if rest == {} {
      assert IsLatest(times, t);
    } else {
      LatestExists(rest);
      var u :| IsLatest(rest, u);
      assert IsLatest(times, if t < u then u else t);
    }
  }

  /** The group of a sample; sample times are integers and the division is exact on them. */
  function BucketOf(t: Timestamp, since: Timestamp, width: int): int
    requires width >= 1
  {
    (t - since) / width
  }

  /** The samples that are the newest of their bucket of `width` seconds. */
  function Representatives(times: set<Timestamp>, since: Timestamp, width: int): set<Timestamp>
    requires width >= 1
  {
    set t | t in times && since <= t
         && forall u <- times :: since <= u && BucketOf(u, since, width) == BucketOf(t, since, width) ==> u <= t
  }

  ghost function Descending(times: set<Timestamp>): seq<Timestamp>
    decreases |times|
  {
    if times == {} then [] else [Latest(times)] + Descending(times - {Latest(times)})
  }

  function InRange(times: set<Timestamp>, since: Timestamp): set<Timestamp> {
    set t | t in times && since <= t
  }

  ghost function BucketWidth(times: set<Timestamp>, since: Timestamp, requested: nat): (width: Timestamp)
    ensures width >= 1
  {
    var ranged := InRange(times, since);
    MetricBucketSeconds(since, if ranged == {} then None else Some(Latest(ranged)), BoundedLimit(requested))
  }

  /** The sample times a history query returns, newest first. */
  ghost function SelectedTimes(times: set<Timestamp>, since: Timestamp, requested: nat): seq<Timestamp> {
    var all := Descending(Representatives(times, since, BucketWidth(times, since, requested)));
    var limit := BoundedLimit(requested);
    if |all| <= limit then all else all[..limit]
  }

  // --- The number of buckets -----------------------------------------------------------------

  /** Bucket numbers stay below the limit: no arithmetic on the way saturated for good. */
  predicate RangeFits(since: Timestamp, latest: Timestamp, limit: Timestamp)
    requires limit >= 1
  {
    latest - since < limit * (I64_MAX / limit)
  }

  lemma WidthOf(since: Timestamp, latest: Timestamp, limit: Timestamp)
    requires 1 <= limit <= MAXIMUM && 0 <= latest - since <= I64_MAX
    ensures var width := MetricBucketSeconds(since, Some(latest), limit);
            && (latest - since < limit * width <==> RangeFits(since, latest, limit))
            && (latest - since + limit <= I64_MAX ==> RangeFits(since, latest, limit))
  {
    var d := latest - since;
    var width := MetricBucketSeconds(since, Some(latest), limit);
    DivisionFacts(I64_MAX, limit);
    if d + limit <= I64_MAX {
      DivisionFacts(d + limit, limit);
      assert width == (d + limit) / limit;
    } else {
      assert width == I64_MAX / limit;
    }
  }

  /** Where nothing saturates the buckets are as narrow as the limit allows: a second less
      and the latest sample would fall outside the permitted number of them. */
  lemma WidthIsLeast(since: Timestamp, latest: Timestamp, limit: Timestamp)
    requires 1 <= limit <= MAXIMUM && 0 <= latest - since && latest - since + limit <= I64_MAX
    ensures var width := MetricBucketSeconds(since, Some(latest), limit);
            && (latest - since) / width < limit
            && (width > 1 ==> (latest - since) / (width - 1) >= limit)
  {
    var d := latest - since;
    var width := MetricBucketSeconds(since, Some(latest), limit);
    DivisionFacts(d + limit, limit);
    assert width == (d + limit) / limit;
    assert limit * width <= d + limit < limit * width + limit;
    assert limit * (width - 1) == limit * width - limit;
    BucketNumber(d, limit, width);
    if width > 1 { BucketNumber(d, limit, width - 1); }
  }

  lemma DivisionFacts(x: int, n: int)
    requires x >= n >= 1
    ensures x / n >= 1 && x - n < n * (x / n) <= x
  {
    assert x == n * (x / n) + x % n;
  }

  lemma BucketNumber(x: int, n: int, width: int)
    requires x >= 0 && n >= 1 && width >= 1
    ensures 0 <= x / width
    ensures x < n * width <==> x / width < n
  {
    assert x == width * (x / width) + x % width;
    if x / width < n {
      assert width * (x / width) <= width * (n - 1);
    } else {
      assert width * (x / width) >= width * n;
    }
  }

  lemma {:induction false} OnePerBucket(reps: set<Timestamp>, since: Timestamp, width: int, n: nat)
    requires width >= 1
    requires forall t <- reps :: since <= t && BucketOf(t, since, width) < n
    requires forall t, u :: t in reps && u in reps && BucketOf(t, since, width) == BucketOf(u, since, width) ==> t == u
    ensures |reps| <= n
    decreases n
  {
    if n == 0 {
      forall t | t in reps ensures false { BucketNumber(t - since, 1, width); }
      assert reps == {};
    } else if t :| t in reps && BucketOf(t, since, width) == n - 1 {
      OnePerBucket(reps - {t}, since, width, n - 1);
    } else {
      OnePerBucket(reps, since, width, n - 1);
    }
  }

  lemma {:induction false} DescendingFacts(times: set<Timestamp>)
    ensures var s := Descending(times);
            && |s| == |times|
            && (forall t :: t in s <==> t in times)
            && (forall i, j :: 0 <= i < j < |s| ==> s[j] < s[i])
            && (times != {} ==> s[0] == Latest(times))
    decreases |times|
  {
    if times != {} {
      var last := Latest(times);
      DescendingFacts(times - {last});
      assert Descending(times) == [last] + Descending(times - {last});
    }
  }

  /** The newest sample of the bucket that `t` falls into. */
  lemma HasRepresentative(times: set<Timestamp>, since: Timestamp, width: int, t: Timestamp) returns (r: Timestamp)
    requires width >= 1 && t in times && since <= t
    ensures r in Representatives(times, since, width)
    ensures t <= r < t + width && BucketOf(r, since, width) == BucketOf(t, since, width)
  {
    var bucket := set u | u in times && since <= u && BucketOf(u, since, width) == BucketOf(t, since, width);
    assert t in bucket;
    r := Latest(bucket);
    forall u | u in times && since <= u && BucketOf(u, since, width) == BucketOf(r, since, width) ensures u <= r {
      assert u in bucket;
    }
    assert t - since == width * (BucketOf(t, since, width)) + (t - since) % width;
    assert r - since == width * (BucketOf(r, since, width)) + (r - since) % width;
  }

  lemma FewEnough(times: set<Timestamp>, since: Timestamp, requested: nat)
    requires var ranged := InRange(times, since);
             ranged != {} ==> RangeFits(since, Latest(ranged), BoundedLimit(requested))
    ensures |Representatives(times, since, BucketWidth(times, since, requested))| <= BoundedLimit(requested)
  {
    var ranged := InRange(times, since);
    var limit := BoundedLimit(requested);
    var width := BucketWidth(times, since, requested);
    var reps := Representatives(times, since, width);
    if ranged == {} {
      assert forall t <- reps :: t in ranged;
      assert reps == {};
    } else {
      DivisionFacts(I64_MAX, limit);
      WidthOf(since, Latest(ranged), limit);
      forall t | t in reps ensures since <= t && BucketOf(t, since, width) < limit {
        assert t in ranged;
        BucketNumber(t - since, limit, width);
      }
      OnePerBucket(reps, since, width, limit);
    }
  }

  lemma EverySampleCovered(times: set<Timestamp>, since: Timestamp, width: int, s: seq<Timestamp>)
    requires width >= 1 && forall t :: t in s <==> t in Representatives(times, since, width)
    ensures forall t <- times :: since <= t ==> exists r <- s :: t <= r < t + width
  {
    forall t | t in times && since <= t ensures exists r <- s :: t <= r < t + width {
      var r := HasRepresentative(times, since, width, t);
      assert r in s;
    }
  }

  lemma LatestRepresents(times: set<Timestamp>, since: Timestamp, width: int)
    requires width >= 1 && InRange(times, since) != {}
    ensures Representatives(times, since, width) != {}
    ensures Latest(Representatives(times, since, width)) == Latest(InRange(times, since))
  {
    var ranged := InRange(times, since);
    var reps := Representatives(times, since, width);
    var r := HasRepresentative(times, since, width, Latest(ranged));
    assert r in ranged;
    assert r == Latest(ranged);
    assert Latest(reps) in ranged;
  }

  /** The sample is in range and no other of the same `width` seconds is newer. */
  predicate IsNewest(times: set<Timestamp>, since: Timestamp, width: int, t: Timestamp)
    requires width >= 1
  {
    && t in times && since <= t
    && forall u <- times :: since <= u && (u - since) / width == (t - since) / width ==> u <= t
  }

  lemma RepresentativesAreNewest(times: set<Timestamp>, since: Timestamp, width: int)
    requires width >= 1
    ensures forall t :: t in Representatives(times, since, width) <==> IsNewest(times, since, width, t)
  {
    forall t: Timestamp ensures BucketOf(t, since, width) == (t - since) / width {
    }
  }

  /** A history query returns exactly the newest sample of every bucket that has one: at most
      the limit, newest first, starting with the latest sample; and every sample in range has
      one of them less than one bucket after it. */
  lemma HistoryCoversTheRange(times: set<Timestamp>, since: Timestamp, requested: nat)
    requires var ranged := InRange(times, since);
             ranged != {} ==> RangeFits(since, Latest(ranged), BoundedLimit(requested))
    ensures var s := SelectedTimes(times, since, requested);
            var width := BucketWidth(times, since, requested);
            && |s| <= BoundedLimit(requested)
            && (forall t :: t in s <==> IsNewest(times, since, width, t))
            && (forall i, j :: 0 <= i < j < |s| ==> s[j] < s[i])
            && (InRange(times, since) != {} ==> s != [] && s[0] == Latest(InRange(times, since)))
            && (forall t <- times :: since <= t ==> exists r <- s :: t <= r < t + width)
  {
    var s := SelectedTimes(times, since, requested);
    var width := BucketWidth(times, since, requested);
    FewEnough(times, since, requested);
    var reps := Representatives(times, since, width);
    DescendingFacts(reps);
    assert s == Descending(reps);
    RepresentativesAreNewest(times, since, width);
    EverySampleCovered(times, since, width, s);
    if InRange(times, since) != {} { LatestRepresents(times, since, width); }
  }

  /** Samples at the start of every bucket of a range that has too many of them. */
  ghost function Crowd(since: Timestamp, latest: Timestamp, width: int, n: nat): set<Timestamp>
    requires width >= 1 && since <= latest
  {
    (set i: nat | i <= n && since + i * width <= latest :: Saturate(since + i * width)) + {latest}
  }

  /** When the range does not fit, the limit does drop a bucket for some samples; so the
      condition is exact. */
  lemma LimitDropsNothingExactly(since: Timestamp, latest: Timestamp, requested: nat)
    requires 0 <= latest - since <= I64_MAX
    ensures var limit := BoundedLimit(requested);
            RangeFits(since, latest, limit)
            <==> (forall times: set<Timestamp> | InRange(times, since) != {} && Latest(InRange(times, since)) == latest ::
                    |Representatives(times, since, BucketWidth(times, since, requested))| <= limit)
  {
    var limit := BoundedLimit(requested);
    if RangeFits(since, latest, limit) {
      forall times: set<Timestamp> | InRange(times, since) != {} && Latest(InRange(times, since)) == latest
        ensures |Representatives(times, since, BucketWidth(times, since, requested))| <= limit
      {
        FewEnough(times, since, requested);
      }
    } else {
      var times := CrowdOverflows(since, latest, requested);
      assert InRange(times, since) != {} && Latest(InRange(times, since)) == latest;
    }
  }

  lemma CrowdOverflows(since: Timestamp, latest: Timestamp, requested: nat) returns (times: set<Timestamp>)
    requires 0 <= latest - since <= I64_MAX && !RangeFits(since, latest, BoundedLimit(requested))
    ensures InRange(times, since) != {} && Latest(InRange(times, since)) == latest
    ensures |Representatives(times, since, BucketWidth(times, since, requested))| > BoundedLimit(requested)
  {
    var limit := BoundedLimit(requested);
    var width := MetricBucketSeconds(since, Some(latest), limit);
    WidthOf(since, latest, limit);
    times := Crowd(since, latest, width, limit);
    CrowdEndsAtLatest(since, latest, width, limit);
    assert BucketWidth(times, since, requested) == width;
    EveryBucketTaken(times, since, latest, width, limit);
  }

  lemma CrowdEndsAtLatest(since: Timestamp, latest: Timestamp, width: int, n: nat)
    requires width >= 1 && since <= latest
    ensures var ranged := InRange(Crowd(since, latest, width, n), since); ranged != {} && Latest(ranged) == latest
  {
    var times := Crowd(since, latest, width, n);
    assert latest in InRange(times, since);
    forall t | t in times ensures t <= latest {
      if t != latest { var i: nat :| i <= n && since + i * width <= latest && t == Saturate(since + i * width); }
    }
    assert forall t <- InRange(times, since) :: t <= latest;
  }

  lemma EveryBucketTaken(times: set<Timestamp>, since: Timestamp, latest: Timestamp, width: int, n: nat)
    requires width >= 1 && n * width <= latest - since && times == Crowd(since, latest, width, n)
    ensures |Representatives(times, since, width)| > n
  {
    var reps := Representatives(times, since, width);
    forall i: nat | i <= n ensures HasBucket(reps, since, width, i) {
      var t := BucketTaken(times, since, latest, width, n, i);
      var r := HasRepresentative(times, since, width, t);
    }
    ManyBuckets(reps, since, width, n);
  }

  lemma BucketTaken(times: set<Timestamp>, since: Timestamp, latest: Timestamp, width: int, n: nat, i: nat)
    returns (t: Timestamp)
    requires width >= 1 && n * width <= latest - since && times == Crowd(since, latest, width, n) && i <= n
    ensures t in times && since <= t && BucketOf(t, since, width) == i
  {
    assert 0 <= i * width <= n * width;
    t := Saturate(since + i * width);
    assert t - since == i * width;
    BucketStart(i, width);
  }

  lemma BucketStart(i: nat, width: int)
    requires width >= 1
    ensures (i * width) / width == i
  {
    BucketNumber(i * width, i + 1, width);
    if i > 0 { BucketNumber(i * width, i, width); }
  }

  ghost predicate HasBucket(reps: set<Timestamp>, since: Timestamp, width: int, i: int)
    requires width >= 1
  {
    exists r <- reps :: BucketOf(r, since, width) == i
  }

  lemma {:induction false} ManyBuckets(reps: set<Timestamp>, since: Timestamp, width: int, n: nat)
    requires width >= 1
    requires forall i: nat | i <= n :: HasBucket(reps, since, width, i)
    ensures |reps| > n
    decreases n
  {
    assert HasBucket(reps, since, width, n);
    var r :| r in reps && BucketOf(r, since, width) == n;
    if n > 0 {
      forall i: nat | i <= n - 1 ensures HasBucket(reps - {r}, since, width, i) {
        assert HasBucket(reps, since, width, i);
        var q :| q in reps && BucketOf(q, since, width) == i;
        assert q in reps - {r};
      }
      ManyBuckets(reps - {r}, since, width, n - 1);
    } else {
      assert reps != {};
    }
  }

  /** A range that does not fit: over the widest range but one, two samples are asked for and
      there are three buckets, so the oldest is dropped. */
  lemma SaturatedRangeDropsABucket()
    ensures !RangeFits(0, I64_MAX - 1, 2)
    ensures SelectedTimes({0, I64_MAX / 2, I64_MAX - 1}, 0, 2) == [I64_MAX - 1, I64_MAX / 2]
  {
    var times: set<Timestamp> := {0, I64_MAX / 2, I64_MAX - 1};
    var ranged := InRange(times, 0);
    assert ranged == times && I64_MAX - 1 in ranged;
    assert Latest(ranged) == I64_MAX - 1;
    assert BucketWidth(times, 0, 2) == I64_MAX / 2;
    ThreeRepresentatives();
    DescendingOfThree(0, I64_MAX / 2, I64_MAX - 1);
  }

  lemma ThreeRepresentatives()
    ensures var times: set<Timestamp> := {0, I64_MAX / 2, I64_MAX - 1};
            Representatives(times, 0, I64_MAX / 2) == times
  {
    var times: set<Timestamp> := {0, I64_MAX / 2, I64_MAX - 1};
    var width := I64_MAX / 2;
    assert BucketOf(I64_MAX - 1, 0, width) == 2 && BucketOf(I64_MAX / 2, 0, width) == 1 && BucketOf(0, 0, width) == 0;
    forall t | t in times ensures t in Representatives(times, 0, width) {}
  }

  lemma DescendingOfThree(a: Timestamp, b: Timestamp, c: Timestamp)
    requires a < b < c
    ensures Descending({a, b, c}) == [c, b, a]
  {
    assert Latest({a, b, c}) == c && {a, b, c} - {c} == {a, b};
    assert Latest({a, b}) == b && {a, b} - {b} == {a};
    assert Latest({a}) == a && {a} - {a} == {};
    assert Descending({a}) == [a] + Descending({});
    assert Descending({a, b}) == [b] + Descending({a});
  }
}
