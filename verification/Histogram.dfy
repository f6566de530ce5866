/** The dashboard's count of finished tasks per past hour, computed in one pass over the sorted finishing times. */
module Histogram {

  datatype Bucket = Bucket(startTime: int, count: nat)

  /** Bucket i spans the i-th past duration; everything later than its start belongs to bucket 0. */
  function BucketOf(t: int, now: int, d: int): nat
    requires d > 0
  {
    if t > now - d then 0 else (now - t) / d
  }

  /** How many of the times fall into bucket i. */
  function CountIn(times: seq<int>, now: int, d: int, i: nat): nat
    requires d > 0
  {
    if times == [] then 0
    else
      var n := |times| - 1;
      CountIn(times[..n], now, d, i) + if BucketOf(times[n], now, d) == i then 1 else 0
  }

  predicate NewestFirst(times: seq<int>) {
    forall i, j | 0 <= i < j < |times| :: times[i] >= times[j]
  }

  /** The start of bucket b. */
  function Start(now: int, d: int, b: nat): int {
    now - (b + 1) * d
  }

  lemma StartNext(now: int, d: int, b: nat)
    ensures Start(now, d, b + 1) == Start(now, d, b) - d
    ensures Start(now, d, 0) == now - d
  {
    assert (b + 2) * d == (b + 1) * d + d;
  }

  /** A time lies in bucket b > 0 exactly between the two starts, the later one included. */
  lemma BucketBounds(t: int, now: int, d: int, b: nat)
    requires d > 0
    ensures BucketOf(t, now, d) == b <==> Start(now, d, b) < t && (b > 0 ==> t <= Start(now, d, b - 1))
  {
    var q := BucketOf(t, now, d);
    MulMonotone(1, b, d);
    MulMonotone(q + 1, b, d);
    MulMonotone(b + 1, q, d);
    if t <= now - d {
      Quotient(now - t, d);
    }
  }

  lemma Quotient(x: int, d: int)
    requires d > 0
    ensures (x / d) * d <= x < (x / d + 1) * d
  {
  }

  lemma MulMonotone(a: int, b: int, d: int)
    requires d > 0
    ensures a <= b ==> a * d <= b * d
  {
  }

  lemma OlderBuckets(t: int, u: int, now: int, d: int)
    requires d > 0 && t >= u
    ensures BucketOf(t, now, d) <= BucketOf(u, now, d)
  {
    var i, j := BucketOf(t, now, d), BucketOf(u, now, d);
    BucketBounds(t, now, d, i);
    BucketBounds(u, now, d, j);
    MulMonotone(j + 1, i, d);
  }

  /** The positions of the times in bucket i: those after its start and not after the start of the one before. */
  ghost function Inside(times: seq<int>, now: int, d: int, i: nat): set<int> {
    set k | 0 <= k < |times| && now - (i + 1) * d < times[k] && (i == 0 || times[k] <= now - i * d)
  }

  lemma {:induction false} CountIsInside(times: seq<int>, now: int, d: int, i: nat)
    requires d > 0
    ensures CountIn(times, now, d, i) == |Inside(times, now, d, i)|
  {
    if times == [] {
      assert Inside(times, now, d, i) == {};
    } else {
      var n := |times| - 1;
      CountIsInside(times[..n], now, d, i);
      BucketBounds(times[n], now, d, i);
      assert Start(now, d, i) == now - (i + 1) * d && (i > 0 ==> Start(now, d, i - 1) == now - i * d);
      var front := Inside(times[..n], now, d, i);
      assert n !in front;
      assert Inside(times, now, d, i) == front + if BucketOf(times[n], now, d) == i then {n} else {};
    }
  }

  /** No time up to k falls into a bucket beyond the one reached. */
  lemma {:induction false} NoneBeyond(times: seq<int>, now: int, d: int, i: nat)
    requires d > 0 && forall t | t in times :: BucketOf(t, now, d) < i
    ensures CountIn(times, now, d, i) == 0
  {
    if times != [] {
      NoneBeyond(times[..|times| - 1], now, d, i);
      assert times[|times| - 1] in times;
    }
  }

  // ---------------------------------------------------------------- the pass

  /** The buckets finished so far are right. */
  ghost predicate Right(counter: seq<Bucket>, times: seq<int>, now: int, d: int)
    requires d > 0
  {
    forall i | 0 <= i < |counter| ::
      counter[i] == Bucket(Start(now, d, i), CountIn(times, now, d, i))
  }

  /** Close buckets until the current one starts before t; the distance to t shrinks by d each time. */
  method Advance(counter: seq<Bucket>, count: Bucket, t: int, endTime: int, d: int,
                 ghost seen: seq<int>, ghost now: int)
    returns (counter': seq<Bucket>, count': Bucket, endTime': int)
    requires d > 0 && t <= endTime == Start(now, d, |counter|)
    requires Right(counter + [count], seen, now, d) && forall s | s in seen :: BucketOf(s, now, d) <= |counter|
    ensures |counter'| > |counter| && Right(counter' + [count'], seen, now, d)
    ensures endTime' == Start(now, d, |counter'|) && BucketOf(t, now, d) == |counter'|
  {
    counter', count', endTime' := counter, count, endTime;
    while true
      invariant t <= endTime' == Start(now, d, |counter'|) && |counter'| >= |counter|
      invariant Right(counter' + [count'], seen, now, d)
      decreases endTime' - t
    {
      ghost var b := |counter'|;
      StartNext(now, d, b);
      NoneBeyond(seen, now, d, b + 1);
      counter' := counter' + [count'];
      endTime' := endTime' - d;
      count' := Bucket(endTime', 0);
      if t > endTime' {
        BucketBounds(t, now, d, b + 1);
        break;
      }
    }
  }

  method ScannedCount(times: seq<int>, now: int, d: int) returns (counter: seq<Bucket>)
    requires d > 0 && NewestFirst(times)
    ensures |counter| == if times == [] then 0 else BucketOf(times[|times| - 1], now, d) + 1
    ensures Right(counter, times, now, d)
    ensures forall i | 0 <= i < |counter| ::
              counter[i].startTime == now - (i + 1) * d && counter[i].count == |Inside(times, now, d, i)|
  {
    var endTime := now - d;
    var count := Bucket(endTime, 0);
    counter := [];
    StartNext(now, d, 0);
    for k := 0 to |times|
      invariant endTime == Start(now, d, |counter|)
      invariant Right(counter + [count], times[..k], now, d)
      invariant forall s | s in times[..k] :: BucketOf(s, now, d) <= |counter|
      invariant if k == 0 then counter == [] && count.count == 0
                else BucketOf(times[k - 1], now, d) == |counter| && count.count > 0
    {
      var t := times[k];
      ghost var seen := times[..k];
      assert times[..k + 1][..k] == seen && times[..k + 1] == seen + [t];
      if t > endTime {
        if k > 0 {
          OlderBuckets(times[k - 1], t, now, d);
        }
        BucketBounds(t, now, d, |counter|);
        ReachedBucket(t, now, d, |counter|);
      } else {
        counter, count, endTime := Advance(counter, count, t, endTime, d, seen, now);
      }
      assert forall i | 0 <= i < |counter| :: (counter + [count])[i] == counter[i];
      count := count.(count := count.count + 1);
    }
    assert times[..|times|] == times;
    if count.count > 0 {
      counter := counter + [count];
    }
    forall i | 0 <= i < |counter|
      ensures counter[i].startTime == now - (i + 1) * d && counter[i].count == |Inside(times, now, d, i)|
    {
      CountIsInside(times, now, d, i);
    }
  }

  /** A time after the start of bucket b lies in it or in a later-dated one. */
  lemma ReachedBucket(t: int, now: int, d: int, b: nat)
    requires d > 0 && t > Start(now, d, b)
    ensures BucketOf(t, now, d) <= b
  {
    var i := BucketOf(t, now, d);
    BucketBounds(t, now, d, i);
    MulMonotone(b + 1, i, d);
  }

  // ---------------------------------------------------------------- totals

  function Total(counter: seq<Bucket>): nat {
    if counter == [] then 0 else Total(counter[..|counter| - 1]) + counter[|counter| - 1].count
  }

  /** The times that fall into the first n buckets. */
  function CountBelow(times: seq<int>, now: int, d: int, n: nat): nat
    requires d > 0
  {
    if n == 0 then 0 else CountBelow(times, now, d, n - 1) + CountIn(times, now, d, n - 1)
  }

  lemma {:induction false} TotalIsCount(counter: seq<Bucket>, times: seq<int>, now: int, d: int)
    requires d > 0 && Right(counter, times, now, d)
    ensures Total(counter) == CountBelow(times, now, d, |counter|)
  {
    if counter != [] {
      TotalIsCount(counter[..|counter| - 1], times, now, d);
    }
  }

  lemma {:induction false} CountBelowSnoc(times: seq<int>, now: int, d: int, n: nat)
    requires d > 0 && times != []
    ensures CountBelow(times, now, d, n) == CountBelow(times[..|times| - 1], now, d, n)
                                            + if BucketOf(times[|times| - 1], now, d) < n then 1 else 0
  {
    if n > 0 {
      CountBelowSnoc(times, now, d, n - 1);
    }
  }

  lemma {:induction false} AllBelow(times: seq<int>, now: int, d: int, n: nat)
    requires d > 0 && forall t | t in times :: BucketOf(t, now, d) < n
    ensures CountBelow(times, now, d, n) == |times|
  {
    if times == [] {
      EmptyBelow(now, d, n);
    } else {
      CountBelowSnoc(times, now, d, n);
      assert times[|times| - 1] in times;
      AllBelow(times[..|times| - 1], now, d, n);
    }
  }

  lemma {:induction false} EmptyBelow(now: int, d: int, n: nat)
    requires d > 0
    ensures CountBelow([], now, d, n) == 0
  {
    if n > 0 {
      EmptyBelow(now, d, n - 1);
    }
  }

  /** Every task is counted in exactly one bucket: the counts sum to the number of tasks. */
  lemma CountsSumToTasks(counter: seq<Bucket>, times: seq<int>, now: int, d: int)
    requires d > 0 && NewestFirst(times) && Right(counter, times, now, d)
    requires |counter| == if times == [] then 0 else BucketOf(times[|times| - 1], now, d) + 1
    ensures Total(counter) == |times|
  {
    TotalIsCount(counter, times, now, d);
    forall t | t in times ensures BucketOf(t, now, d) < |counter| {
      OlderBuckets(t, times[|times| - 1], now, d);
    }
    AllBelow(times, now, d, |counter|);
  }
}
