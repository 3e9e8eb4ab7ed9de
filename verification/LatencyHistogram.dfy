/** The latency histogram of v10/cmd/benchmark/main.go: percentiles from counts per 10 microsecond bucket,
    proved against sorting all the samples. Durations are in nanoseconds. */
module LatencyHistogram {

  const BUCKET_WIDTH := 10_000
  const LATENCY_MAX := 10_000_000_000
  const BUCKET_COUNT := LATENCY_MAX / BUCKET_WIDTH + 1

  function BucketOf(latency: nat): (index: nat)
    ensures index < BUCKET_COUNT
  {
    var index := (latency + BUCKET_WIDTH - 1) / BUCKET_WIDTH;
    if index >= BUCKET_COUNT then BUCKET_COUNT - 1 else index
  }

  // How many samples fall into bucket b, and how many into it or an earlier one.
  function InBucket(samples: seq<nat>, b: int): nat {
    if samples == [] then 0
    else InBucket(samples[..|samples| - 1], b) + (if BucketOf(samples[|samples| - 1]) == b then 1 else 0)
  }

  function UpToBucket(samples: seq<nat>, b: int): nat {
    if samples == [] then 0
    else UpToBucket(samples[..|samples| - 1], b) + (if BucketOf(samples[|samples| - 1]) <= b then 1 else 0)
  }

  lemma {:induction false} NextBucket(samples: seq<nat>, b: int)
    ensures UpToBucket(samples, b) == UpToBucket(samples, b - 1) + InBucket(samples, b)
    decreases |samples|
  {
    if samples != [] {
      NextBucket(samples[..|samples| - 1], b);
    }
  }

  lemma {:induction false} BucketEnds(samples: seq<nat>)
    ensures UpToBucket(samples, -1) == 0 && UpToBucket(samples, BUCKET_COUNT - 1) == |samples|
    decreases |samples|
  {
    if samples != [] {
      BucketEnds(samples[..|samples| - 1]);
    }
  }

  lemma {:induction false} CountsAtMostAll(samples: seq<nat>, b: int)
    ensures UpToBucket(samples, b) <= |samples|
    decreases |samples|
  {
    if samples != [] {
      CountsAtMostAll(samples[..|samples| - 1], b);
    }
  }

  // ------------------------------------------------------------------ sorting

  ghost predicate Ascending(s: seq<nat>) {
    forall i, j :: 0 <= i <= j < |s| ==> s[i] <= s[j]
  }

  function Insert(s: seq<nat>, x: nat): (r: seq<nat>)
    ensures |r| == |s| + 1
  {
    if s == [] || s[|s| - 1] <= x then s + [x] else Insert(s[..|s| - 1], x) + [s[|s| - 1]]
  }

  function Sorted(samples: seq<nat>): (r: seq<nat>)
    ensures |r| == |samples|
  {
    if samples == [] then [] else Insert(Sorted(samples[..|samples| - 1]), samples[|samples| - 1])
  }

  lemma {:induction false} InsertContents(s: seq<nat>, x: nat)
    ensures multiset(Insert(s, x)) == multiset(s) + multiset{x}
    decreases |s|
  {
    if s != [] && s[|s| - 1] > x {
      InsertContents(s[..|s| - 1], x);
      assert s == s[..|s| - 1] + [s[|s| - 1]];
    }
  }

  lemma {:induction false} InsertCounts(s: seq<nat>, x: nat, b: int)
    ensures UpToBucket(Insert(s, x), b) == UpToBucket(s, b) + (if BucketOf(x) <= b then 1 else 0)
    decreases |s|
  {
    if s == [] || s[|s| - 1] <= x {
      assert (s + [x])[..|s|] == s;
    } else {
      InsertCounts(s[..|s| - 1], x, b);
      assert Insert(s, x)[..|s|] == Insert(s[..|s| - 1], x);
    }
  }

  // No element is above m.
  ghost predicate Below(s: seq<nat>, m: nat) {
    forall i :: 0 <= i < |s| ==> s[i] <= m
  }

  lemma {:induction false} InsertAscending(s: seq<nat>, x: nat)
    requires Ascending(s)
    ensures Ascending(Insert(s, x))
    ensures forall m: nat :: Below(s, m) && x <= m ==> Below(Insert(s, x), m)
    decreases |s|
  {
    if s != [] && s[|s| - 1] > x {
      InsertAscending(s[..|s| - 1], x);
      assert Below(s[..|s| - 1], s[|s| - 1]);
    }
  }

  /** `Sorted` is ascending and a permutation of the samples. */
  lemma {:induction false} SortedIsSorted(samples: seq<nat>)
    ensures Ascending(Sorted(samples)) && multiset(Sorted(samples)) == multiset(samples)
    decreases |samples|
  {
    if samples != [] {
      var init, last := samples[..|samples| - 1], samples[|samples| - 1];
      SortedIsSorted(init);
      InsertAscending(Sorted(init), last);
      InsertContents(Sorted(init), last);
      assert samples == init + [last];
    }
  }

  lemma {:induction false} SortedCounts(samples: seq<nat>, b: int)
    ensures UpToBucket(Sorted(samples), b) == UpToBucket(samples, b)
    decreases |samples|
  {
    if samples != [] {
      SortedCounts(samples[..|samples| - 1], b);
      InsertCounts(Sorted(samples[..|samples| - 1]), samples[|samples| - 1], b);
    }
  }

  lemma BucketIsMonotone(x: nat, y: nat)
    requires x <= y
    ensures BucketOf(x) <= BucketOf(y)
  {
  }

  // In an ascending sequence the first `rank` samples are within bucket b exactly when the last of them is.
  lemma {:induction false} RankWithin(s: seq<nat>, rank: nat, b: int)
    requires Ascending(s) && 1 <= rank <= |s|
    ensures UpToBucket(s, b) >= rank <==> BucketOf(s[rank - 1]) <= b
    ensures UpToBucket(s, b) <= |s|
    decreases |s|
  {
    var init, last := s[..|s| - 1], s[|s| - 1];
    BucketIsMonotone(s[rank - 1], last);
    if rank <= |init| {
      RankWithin(init, rank, b);
    } else if init != [] {
      RankWithin(init, |init|, b);
      BucketIsMonotone(init[|init| - 1], last);
    }
  }

  // ------------------------------------------------------------------ percentiles

  // The rank-th smallest sample, in whole buckets.
  function Answer(samples: seq<nat>, rank: nat): nat
    requires 1 <= rank <= |samples|
  {
    BucketOf(Sorted(samples)[rank - 1]) * BUCKET_WIDTH
  }

  /** The answer is the rank-th smallest sample rounded up to a whole bucket and clamped to LATENCY_MAX;
      it is less than a bucket above a sample that is not beyond LATENCY_MAX. */
  lemma AnswerIsCloseAbove(samples: seq<nat>, rank: nat)
    requires 1 <= rank <= |samples|
    ensures var exact, answer := Sorted(samples)[rank - 1], Answer(samples, rank);
            && answer % 10_000 == 0
            && (exact <= 10_000_000_000 ==> exact <= answer < exact + 10_000)
            && (exact > 10_000_000_000 ==> answer == 10_000_000_000)
  {
    RoundUp(Sorted(samples)[rank - 1]);
  }

  lemma RoundUp(x: nat)
    ensures var y := BucketOf(x) * BUCKET_WIDTH;
            && y % BUCKET_WIDTH == 0
            && (x <= LATENCY_MAX ==> x <= y < x + BUCKET_WIDTH)
            && (x > LATENCY_MAX ==> y == LATENCY_MAX)
  {
  }

  // The first bucket up to which `rank` samples have been counted is that of the rank-th smallest.
  lemma FirstBucketIsAnswer(samples: seq<nat>, rank: nat, b: nat)
    requires 1 <= rank <= |samples|
    requires UpToBucket(samples, b) >= rank && UpToBucket(samples, b - 1) < rank
    ensures b * BUCKET_WIDTH == Answer(samples, rank)
  {
    SortedIsSorted(samples);
    SortedCounts(samples, b);
    SortedCounts(samples, b - 1);
    RankWithin(Sorted(samples), rank, b);
    RankWithin(Sorted(samples), rank, b - 1);
  }

  // The rank of a percentile given in percent: the count times it, rounded up.
  function Rank(count: nat, percent: nat): nat {
    (count * percent + 99) / 100
  }

  /** It is the least rank that is at least that share of the count. */
  lemma RankIsNearest(count: nat, percent: nat, rank: nat)
    ensures rank >= Rank(count, percent) <==> rank * 100 >= count * percent
  {
    var share := count * percent;
    assert (share + 99) / 100 * 100 <= share + 99 < (share + 99) / 100 * 100 + 100;
  }

  datatype LatencySummary = LatencySummary(count: nat, p50: nat, p95: nat, p99: nat)

  class LatencyStats {
    var count: nat
    const buckets: array<nat>
    // the samples recorded so far
    ghost var samples: seq<nat>

    ghost predicate Valid()
      reads this, buckets
    {
      && buckets.Length == BUCKET_COUNT
      && count == |samples|
      && forall b :: 0 <= b < BUCKET_COUNT ==> buckets[b] == InBucket(samples, b)
    }

    constructor ()
      ensures Valid() && samples == [] && fresh(buckets)
    {
      buckets := new nat[BUCKET_COUNT](_ => 0);
      count, samples := 0, [];
    }

    // A negative latency is not a sample.
    method Record(latency: int)
      requires Valid()
      modifies this, buckets
      ensures Valid()
      ensures samples == if latency < 0 then old(samples) else old(samples) + [latency]
    {
      if latency < 0 {
        return;
      }
      var index := (latency + BUCKET_WIDTH - 1) / BUCKET_WIDTH;
      if index >= BUCKET_COUNT {
        index := BUCKET_COUNT - 1;
      }
      buckets[index] := buckets[index] + 1;
      count := count + 1;
      assert (samples + [latency])[..|samples|] == samples;
      samples := samples + [latency];
    }

    // The program asks for ranks from 1 to the count; beyond the count the loop runs out.
    method Percentile(rank: nat) returns (answer: nat)
      requires Valid()
      ensures 1 <= rank <= |samples| ==> answer == Answer(samples, rank)
      ensures rank > |samples| ==> answer == LATENCY_MAX
    {
      var seen := 0;
      BucketEnds(samples);
      for index := 0 to BUCKET_COUNT
        invariant seen == UpToBucket(samples, index - 1)
        invariant rank > 0 ==> seen < rank
      {
        NextBucket(samples, index);
        seen := seen + buckets[index];
        if seen >= rank {
          if 1 <= rank <= |samples| {
            FirstBucketIsAnswer(samples, rank, index);
          }
          CountsAtMostAll(samples, index);
          return index * BUCKET_WIDTH;
        }
      }
      answer := LATENCY_MAX;
    }

    method Summary() returns (summary: LatencySummary)
      requires Valid()
      ensures samples == [] ==> summary == LatencySummary(0, 0, 0, 0)
      ensures var n := |samples|;
              n > 0 ==>
                && 1 <= Rank(n, 50) <= Rank(n, 95) <= Rank(n, 99) <= n
                && summary == LatencySummary(n,
                    Answer(samples, Rank(n, 50)), Answer(samples, Rank(n, 95)), Answer(samples, Rank(n, 99)))
                && forall rank: nat :: (rank >= Rank(n, 50) <==> rank * 100 >= n * 50)
                                       && (rank >= Rank(n, 95) <==> rank * 100 >= n * 95)
                                       && (rank >= Rank(n, 99) <==> rank * 100 >= n * 99)
    {
      if count == 0 {
        return LatencySummary(0, 0, 0, 0);
      }
      var p50 := Percentile(Rank(count, 50));
      var p95 := Percentile(Rank(count, 95));
      var p99 := Percentile(Rank(count, 99));
      summary := LatencySummary(count, p50, p95, p99);
    }
  }
}
