/** The Gradient2 request-queue limit of gradient2.go and its sampling window of scheduling-levers.go, over real
    numbers. */
module Gradient {
  import opened Wrappers

  const MIN_LIMIT: nat := 2
  const MAX_LIMIT: nat := 128
  const WARMUP: nat := 10
  /** 2/(window+1) for the long window of 600 samples. */
  const FACTOR: real := 2.0 / 601.0

  function MinR(a: real, b: real): real {
    if a <= b then a else b
  }

  function MaxR(a: real, b: real): real {
    if a <= b then b else a
  }

  // ---- the range of the samples ----

  function Least(s: seq<real>): real
    requires s != []
  {
    if |s| == 1 then s[0] else MinR(Least(s[..|s| - 1]), s[|s| - 1])
  }

  function Greatest(s: seq<real>): real
    requires s != []
  {
    if |s| == 1 then s[0] else MaxR(Greatest(s[..|s| - 1]), s[|s| - 1])
  }

  function Sum(s: seq<real>): real {
    if s == [] then 0.0 else Sum(s[..|s| - 1]) + s[|s| - 1]
  }

  /** They are the bounds of the samples. */
  lemma {:induction false} RangeBounds(s: seq<real>)
    requires s != []
    ensures forall x | x in s :: Least(s) <= x <= Greatest(s)
    ensures Least(s) in s && Greatest(s) in s
  {
    if |s| > 1 {
      RangeBounds(s[..|s| - 1]);
      assert s == s[..|s| - 1] + [s[|s| - 1]];
    }
  }

  lemma Scale(a: real, b: real, n: real)
    requires a <= b && n >= 0.0
    ensures a * n <= b * n
  {
  }

  lemma ScaleStrict(a: real, b: real, n: real)
    requires a < b && n > 0.0
    ensures a * n < b * n
  {
  }

  /** n samples add up to between n times the least and n times the greatest. */
  lemma {:induction false} SumBounds(s: seq<real>, lo: real, hi: real)
    requires forall x | x in s :: lo <= x <= hi
    ensures lo * (|s| as real) <= Sum(s) <= hi * (|s| as real)
  {
    if s != [] {
      var n := |s| - 1;
      assert s[n] in s && forall x | x in s[..n] :: x in s;
      SumBounds(s[..n], lo, hi);
      assert lo * (|s| as real) == lo * (n as real) + lo;
      assert hi * (|s| as real) == hi * (n as real) + hi;
    }
  }

  lemma Quotient(sum: real, n: real, lo: real, hi: real)
    requires n > 0.0 && lo * n <= sum <= hi * n
    ensures lo <= sum / n <= hi
  {
    var q := sum / n;
    assert q * n == sum;
    if q < lo {
      ScaleStrict(q, lo, n);
    }
    if q > hi {
      ScaleStrict(hi, q, n);
    }
  }

  /** The average of samples lies in their range. */
  lemma AverageInRange(s: seq<real>)
    requires s != []
    ensures Least(s) <= Sum(s) / (|s| as real) <= Greatest(s)
  {
    RangeBounds(s);
    SumBounds(s, Least(s), Greatest(s));
    Quotient(Sum(s), |s| as real, Least(s), Greatest(s));
  }

  lemma RangeGrows(s: seq<real>, x: real)
    ensures Least(s + [x]) <= x <= Greatest(s + [x])
    ensures s != [] ==> Least(s + [x]) <= Least(s) && Greatest(s) <= Greatest(s + [x])
  {
    assert (s + [x])[..|s|] == s;
  }

  /** expAvgMeasurement: an average in the warmup, then an exponential average. */
  datatype Avg = Avg(value: real, sum: real, count: nat) {
    function Plus(sample: real): Avg {
      if count < WARMUP then Avg((sum + sample) / ((count + 1) as real), sum + sample, count + 1)
      else Avg(value * (1.0 - FACTOR) + sample * FACTOR, sum, count)
    }

    /** Pulled down by 5%. */
    function Decayed(): Avg {
      Avg(value * 0.95, sum, count)
    }
  }

  lemma MeanOf(sum: real, n: nat)
    requires n > 0
    ensures sum / (n as real) * (n as real) == sum
  {
  }

  /** The first ten samples are averaged; each later one moves the value its share of the way to the sample. */
  lemma PlusMoves(a: Avg, x: real)
    ensures var b := a.Plus(x);
            if a.count < WARMUP then
              b.count == a.count + 1 && b.sum == a.sum + x && Times(b.value, b.count as real) == b.sum
            else
              b.count == a.count && b.sum == a.sum && 601.0 * (b.value - a.value) == 2.0 * (x - a.value)
  {
    if a.count < WARMUP {
      MeanOf(a.sum + x, a.count + 1);
    } else {
      assert a.Plus(x).value - a.value == (x - a.value) * FACTOR;
    }
  }

  /** The average of these samples is in their range, and so are the ones it leads to. */
  ghost predicate Averages(a: Avg, samples: seq<real>) {
    && a.count <= WARMUP && (a.count < WARMUP ==> a.count == |samples|) && a.count <= |samples|
    && a.sum == Sum(samples[..a.count])
    && (samples != [] ==> Least(samples) <= a.value <= Greatest(samples))
  }

  lemma PlusAverages(a: Avg, samples: seq<real>, x: real)
    requires Averages(a, samples)
    ensures Averages(a.Plus(x), samples + [x])
  {
    RangeGrows(samples, x);
    var all := samples + [x];
    if a.count < WARMUP {
      assert all[..a.count] == samples[..a.count] == samples;
      assert all[..a.count + 1] == all;
      AverageInRange(all);
    } else {
      assert all[..a.count] == samples[..a.count];
    }
  }

  /** The decay stays in range because it comes only from above a sample's double. */
  lemma DecayAverages(a: Avg, samples: seq<real>, x: real)
    requires Averages(a, samples) && x in samples && x > 0.0 && a.value / x > 2.0
    ensures Averages(a.Decayed(), samples)
  {
    RangeBounds(samples);
    Doubled(a.value, x);
  }

  /** What a sample makes of the baseline. */
  function Learnt(a: Avg, rtt: real): Avg
    requires rtt > 0.0
  {
    if a.Plus(rtt).value / rtt > 2.0 then a.Plus(rtt).Decayed() else a.Plus(rtt)
  }

  /** A sample keeps the baseline between the smallest and the largest, decay or not. */
  lemma LearntAverages(a: Avg, samples: seq<real>, rtt: real)
    requires Averages(a, samples) && rtt > 0.0
    ensures Averages(Learnt(a, rtt), samples + [rtt])
  {
    hide Averages;
    PlusAverages(a, samples, rtt);
    assert (samples + [rtt])[|samples|] == rtt;
    if a.Plus(rtt).value / rtt > 2.0 {
      DecayAverages(a.Plus(rtt), samples + [rtt], rtt);
    }
  }

  function LearnAll(samples: seq<real>): Avg
    requires forall x | x in samples :: x > 0.0
  {
    if samples == [] then Avg(0.0, 0.0, 0)
    else
      var n := |samples| - 1;
      assert samples[n] in samples && forall x | x in samples[..n] :: x in samples;
      Learnt(LearnAll(samples[..n]), samples[n])
  }

  /** In the warmup a sample makes the baseline the mean of all samples so far. */
  lemma WarmupMean(a: Avg, samples: seq<real>, x: real)
    requires Averages(a, samples) && |samples| < WARMUP
    ensures Times(a.Plus(x).value, (|samples| + 1) as real) == Sum(samples + [x])
  {
    assert samples[..a.count] == samples && (samples + [x])[..|samples|] == samples;
    assert a.count == |samples| && a.sum == Sum(samples);
    hide Averages, Avg.Plus, Times;
    PlusMoves(a, x);
  }

  /** After every run of samples the baseline lies between the smallest and the largest of them. */
  lemma {:induction false} BaselineInRange(samples: seq<real>)
    requires forall x | x in samples :: x > 0.0
    ensures Averages(LearnAll(samples), samples)
    ensures samples != [] ==> Least(samples) <= LearnAll(samples).value <= Greatest(samples)
  {
    if samples != [] {
      var n := |samples| - 1;
      assert samples[n] in samples && forall x | x in samples[..n] :: x in samples;
      BaselineInRange(samples[..n]);
      LearntAverages(LearnAll(samples[..n]), samples[..n], samples[n]);
      assert samples[..n] + [samples[n]] == samples;
    }
  }

  /** The smoothed and clamped limit, `pushed` being the limit times the gradient. */
  function Smoothed(limit: real, pushed: real): real {
    MaxR(MIN_LIMIT as real, MinR(MAX_LIMIT as real, limit * 0.8 + (pushed + 4.0) * 0.2))
  }

  lemma SmoothedBounds(limit: real, pushed: real)
    requires MIN_LIMIT as real <= limit <= MAX_LIMIT as real && limit * 0.5 <= pushed <= limit
    ensures limit * 0.9 <= Smoothed(limit, pushed) <= limit + 0.8
    ensures MIN_LIMIT as real <= Smoothed(limit, pushed) <= MAX_LIMIT as real
  {
  }

  /** 1 while the peer answers as fast as its baseline, less when its queue builds latency. */
  function GradientOf(long: real, short: real): (g: real)
    requires short > 0.0
    ensures 0.5 <= g <= 1.0
  {
    MaxR(0.5, MinR(1.0, 1.5 * long / short))
  }

  lemma Ratio(a: real, b: real, k: real)
    requires b > 0.0
    ensures (a / b >= k <==> a >= k * b) && (a / b <= k <==> a <= k * b) && a / b * b == a
  {
    var q := a / b;
    assert q * b == a;
    if q < k {
      ScaleStrict(q, k, b);
    } else if q > k {
      ScaleStrict(k, q, b);
    }
  }

  /** The gradient is 1 exactly up to one and a half times the baseline, a half exactly from three times on, and between
      the two it falls as the latency grows. */
  lemma GradientExact(long: real, short: real)
    requires short > 0.0
    ensures var g := GradientOf(long, short);
            && (g == 1.0 <==> short <= 1.5 * long)
            && (g == 0.5 <==> short >= 3.0 * long)
            && (1.5 * long < short < 3.0 * long ==> Times(g, short) == 1.5 * long)
  {
    Ratio(1.5 * long, short, 1.0);
    Ratio(1.5 * long, short, 0.5);
  }

  function Times(a: real, b: real): real {
    a * b
  }

  lemma Pushed(limit: real, gradient: real)
    requires limit >= 0.0 && 0.5 <= gradient <= 1.0
    ensures limit * 0.5 <= Times(limit, gradient) <= limit
  {
    Scale(0.5, gradient, limit);
    Scale(gradient, 1.0, limit);
  }

  function NextLimit(limit: real, gradient: real): real {
    Smoothed(limit, Times(limit, gradient))
  }

  /** A pushed peer's limit rises by at most 0.8, falls by at most a tenth and stays in its bounds. */
  lemma NextLimitBounds(limit: real, gradient: real)
    requires MIN_LIMIT as real <= limit <= MAX_LIMIT as real && 0.5 <= gradient <= 1.0
    ensures limit * 0.9 <= NextLimit(limit, gradient) <= limit + 0.8
    ensures MIN_LIMIT as real <= NextLimit(limit, gradient) <= MAX_LIMIT as real
  {
    hide Times, Smoothed;
    Pushed(limit, gradient);
    SmoothedBounds(limit, Times(limit, gradient));
  }

  /** The limit rises exactly while the queue the gradient would take off is below the four requests of headroom, falls
      while it is above, and moves a fifth of the difference unless a bound stops it. */
  lemma NextLimitMoves(limit: real, gradient: real)
    requires MIN_LIMIT as real <= limit <= MAX_LIMIT as real && 0.5 <= gradient <= 1.0
    ensures var next, excess := NextLimit(limit, gradient), limit - Times(limit, gradient);
            && (next > limit <==> excess < 4.0 && limit < MAX_LIMIT as real)
            && (next < limit <==> excess > 4.0 && limit > MIN_LIMIT as real)
            && (MIN_LIMIT as real < next < MAX_LIMIT as real ==> 5.0 * (next - limit) == 4.0 - excess)
  {
    hide Times;
  }

  /** The limit after a sample that the baseline has learnt: it only moves for a peer with half its limit in flight. */
  function Moved(limit: real, long: Avg, rtt: real, inflight: int): real {
    if rtt <= 0.0 || inflight as real < limit / 2.0 then limit
    else NextLimit(limit, GradientOf(long.Plus(rtt).value, rtt))
  }

  class Gradient2 {
    var estimatedLimit: real
    var shortRTT: real
    var longRTT: Avg
    /** Every sample the baseline has learnt. */
    ghost var samples: seq<real>

    ghost predicate Valid()
      reads this
    {
      Averages(longRTT, samples) && MIN_LIMIT as real <= estimatedLimit <= MAX_LIMIT as real
    }

    constructor ()
      ensures Valid() && samples == [] && estimatedLimit == 16.0
    {
      estimatedLimit, shortRTT, longRTT, samples := 16.0, 0.0, Avg(0.0, 0.0, 0), [];
    }

    function Limit(): int
      reads this
    {
      estimatedLimit.Floor
    }

    /** One sample: the baseline always learns it; the limit moves only when the peer is pushed, up by at most
        0.8 and down by at most a tenth, and stays in its bounds. */
    method OnSample(rtt: real, inflight: int) returns (limit: int)
      requires Valid()
      modifies this
      ensures Valid() && limit == Limit() && MIN_LIMIT <= limit <= MAX_LIMIT
      ensures rtt <= 0.0 ==> longRTT == old(longRTT) && samples == old(samples)
      ensures rtt > 0.0 ==> longRTT == Learnt(old(longRTT), rtt) && samples == old(samples) + [rtt]
      ensures estimatedLimit == Moved(old(estimatedLimit), old(longRTT), rtt, inflight)
      ensures old(estimatedLimit) * 0.9 <= estimatedLimit <= old(estimatedLimit) + 0.8
    {
      hide NextLimit, GradientOf, Averages;
      if rtt <= 0.0 {
        return Limit();
      }
      LearntAverages(longRTT, samples, rtt);
      shortRTT := rtt;
      longRTT := longRTT.Plus(rtt);
      var long := longRTT.value;
      if long / shortRTT > 2.0 {
        longRTT := longRTT.Decayed();
      }
      samples := samples + [rtt];
      if inflight as real < estimatedLimit / 2.0 {
        return Limit();
      }
      NextLimitBounds(estimatedLimit, GradientOf(long, rtt));
      estimatedLimit := NextLimit(estimatedLimit, GradientOf(long, rtt));
      return Limit();
    }

    /** A drop: back off by a tenth, not below the minimum. */
    method OnDrop() returns (limit: int)
      requires Valid()
      modifies this`estimatedLimit
      ensures Valid() && limit == Limit() && MIN_LIMIT <= limit <= MAX_LIMIT
      ensures estimatedLimit == MaxR(MIN_LIMIT as real, old(estimatedLimit) * 0.9)
    {
      estimatedLimit := MaxR(MIN_LIMIT as real, estimatedLimit * 0.9);
      return Limit();
    }
  }

  lemma Doubled(a: real, b: real)
    requires b > 0.0 && a / b > 2.0
    ensures a > 2.0 * b
  {
    assert a == (a / b) * b;
    ScaleStrict(2.0, a / b, b);
  }

  // ---- the cap ----

  /** clampGradient2Limit; the write buffer's bound of 963 requests is above the engine's. */
  function Clamp(limit: int, peerMax: int): int {
    var cap := if 0 < peerMax < MAX_LIMIT then peerMax else MAX_LIMIT;
    if limit > cap then cap else if limit < MIN_LIMIT then MIN_LIMIT else limit
  }

  /** The cap respects a positive peer limit unless that is 1 and the limit is below the engine's minimum;
      limits that Gradient2 gives are never below it. */
  lemma ClampRespects(limit: int, peerMax: int)
    requires peerMax > 0
    ensures Clamp(limit, peerMax) <= peerMax <==> !(peerMax == 1 && limit < MIN_LIMIT)
    ensures limit >= MIN_LIMIT ==> 1 <= Clamp(limit, peerMax) <= peerMax && Clamp(limit, peerMax) <= MAX_LIMIT
  {
  }

  /** The cap takes a limit to the nearest one between the engine's minimum and the smaller of the two caps. */
  lemma ClampNearest(limit: int, peerMax: int, x: int)
    requires peerMax != 1 && MIN_LIMIT <= x <= MAX_LIMIT && (peerMax > 0 ==> x <= peerMax)
    ensures var c := Clamp(limit, peerMax);
            && MIN_LIMIT <= c <= MAX_LIMIT && (peerMax > 0 ==> c <= peerMax)
            && (c == limit || Distance(c, limit) < Distance(x, limit) || x == c)
  {
  }

  function Distance(a: int, b: int): int {
    if a <= b then b - a else a - b
  }

  // ---- the window ----

  const SECOND: int := 1_000_000_000
  const WINDOW_MIN_RTT: int := 100_000
  const WINDOW_MIN_SAMPLES: nat := 10
  const WINDOW_CAPACITY: nat := 200

  function Insert(x: int, s: seq<int>): seq<int> {
    if s == [] || x <= s[0] then [x] + s else [s[0]] + Insert(x, s[1..])
  }

  function Sorted(s: seq<int>): seq<int> {
    if s == [] then [] else Insert(s[0], Sorted(s[1..]))
  }

  ghost predicate Ascends(s: seq<int>) {
    forall i, j | 0 <= i < j < |s| :: s[i] <= s[j]
  }

  lemma {:induction false} InsertMembers(x: int, s: seq<int>)
    ensures multiset(Insert(x, s)) == multiset(s) + multiset{x} && forall y | y in Insert(x, s) :: y == x || y in s
  {
    if s != [] && x > s[0] {
      InsertMembers(x, s[1..]);
      assert s == [s[0]] + s[1..];
    }
  }

  lemma {:induction false} InsertAscends(x: int, s: seq<int>)
    requires Ascends(s)
    ensures Ascends(Insert(x, s))
  {
    if s != [] && x > s[0] {
      InsertAscends(x, s[1..]);
      InsertMembers(x, s[1..]);
      AscendsCons(s[0], Insert(x, s[1..]));
    }
  }

  lemma AscendsCons(x: int, s: seq<int>)
    requires Ascends(s) && forall y | y in s :: x <= y
    ensures Ascends([x] + s)
  {
    assert forall i | 0 <= i < |s| :: ([x] + s)[i + 1] == s[i] && s[i] in s;
  }

  lemma {:induction false} SortedAscends(s: seq<int>)
    ensures Ascends(Sorted(s)) && multiset(Sorted(s)) == multiset(s) && |Sorted(s)| == |s|
  {
    hide Ascends;
    if s == [] {
      EmptyAscends();
    } else {
      SortedAscends(s[1..]);
      InsertAscends(s[0], Sorted(s[1..]));
      InsertMembers(s[0], Sorted(s[1..]));
      assert s == [s[0]] + s[1..];
    }
    assert |multiset(Sorted(s))| == |Sorted(s)|;
  }

  lemma EmptyAscends()
    ensures Ascends([])
  {
  }

  /** The tracked value of a window: the lower median, 0 for an empty window. */
  function Tracked(rtts: seq<int>): int {
    if rtts == [] then 0
    else
      SortedAscends(rtts);
      Sorted(rtts)[MedianIndex(|rtts|)]
  }

  /** Half the number of samples, rounded half up, less one. */
  function MedianIndex(n: nat): (i: nat)
    requires n > 0
    ensures i < n && i == (n + 1) / 2 - 1
  {
    (n as real * 0.5 + 0.5).Floor - 1
  }

  /** At least half of the samples are no greater than the tracked one and at least half are no less. */
  lemma TrackedIsMedian(rtts: seq<int>)
    requires rtts != []
    ensures var t, s, i := Tracked(rtts), Sorted(rtts), MedianIndex(|rtts|);
            && t in rtts && multiset(s) == multiset(rtts) && |s| == |rtts|
            && (forall j | 0 <= j <= i :: s[j] <= t) && (forall j | i <= j < |s| :: t <= s[j])
            && 2 * (i + 1) >= |rtts| && 2 * (|rtts| - i) > |rtts|
  {
    hide Sorted;
    SortedAscends(rtts);
    var s := Sorted(rtts);
    assert s[MedianIndex(|rtts|)] in s;
    assert s[MedianIndex(|rtts|)] in multiset(s);
  }

  class WindowedGradient2 {
    const g: Gradient2
    var rtts: seq<int>
    var maxInflight: int
    var didDrop: bool
    var nextUpdate: Option<int>
    /** The times of the updates so far. */
    ghost var flushes: seq<int>

    ghost predicate Valid()
      reads this, g
    {
      && g.Valid() && |rtts| <= WINDOW_CAPACITY
      && (forall i, j | 0 <= i < j < |flushes| :: flushes[j] > flushes[i] + SECOND)
      && (if nextUpdate.None? then flushes == []
          else flushes != [] && nextUpdate.value == flushes[|flushes| - 1] + SECOND)
    }

    constructor (g: Gradient2)
      requires g.Valid()
      ensures Valid() && this.g == g && flushes == []
    {
      this.g := g;
      rtts, maxInflight, didDrop, nextUpdate, flushes := [], 0, false, None, [];
    }

    predicate Due(now: int)
      reads this
    {
      nextUpdate.None? || now > nextUpdate.value
    }

    /** Too short an answer is ignored unless it is a drop; any other enters the window, and the window's update
        takes effect if it is due. */
    method OnSample(now: int, rtt: int, inflight: int, drop: bool)
      requires Valid()
      modifies this, g
      ensures Valid()
      ensures rtt < WINDOW_MIN_RTT && !drop ==> Untouched()
      ensures rtt >= WINDOW_MIN_RTT || drop ==>
                Flushed(now, if |old(rtts)| < WINDOW_CAPACITY then old(rtts) + [rtt] else old(rtts),
                        if inflight > old(maxInflight) then inflight else old(maxInflight), old(didDrop) || drop)
    {
      hide Tracked, Averages, Moved, Learnt;
      if rtt < WINDOW_MIN_RTT && !drop {
        return;
      }
      if |rtts| < WINDOW_CAPACITY {
        rtts := rtts + [rtt];
      }
      if inflight > maxInflight {
        maxInflight := inflight;
      }
      didDrop := didDrop || drop;
      MaybeFlush(now);
    }

    method OnDrop(now: int)
      requires Valid()
      modifies this, g
      ensures Valid() && Flushed(now, old(rtts), old(maxInflight), true)
    {
      didDrop := true;
      MaybeFlush(now);
    }

    twostate predicate Untouched()
      reads this, g
    {
      && rtts == old(rtts) && maxInflight == old(maxInflight) && didDrop == old(didDrop)
      && nextUpdate == old(nextUpdate) && flushes == old(flushes)
      && g.estimatedLimit == old(g.estimatedLimit) && g.longRTT == old(g.longRTT) && g.samples == old(g.samples)
    }

    /** From the window w: if no update is due it just stays; else it is emptied and the limit makes one step, a cut
        if anything was dropped, else a sample of its median if it has enough samples, else none. */
    twostate predicate Flushed(now: int, w: seq<int>, inflight: int, dropped: bool)
      reads this, g
    {
      if !old(Due(now)) then
        && rtts == w && maxInflight == inflight && didDrop == dropped && nextUpdate == old(nextUpdate)
        && flushes == old(flushes) && g.estimatedLimit == old(g.estimatedLimit)
        && g.samples == old(g.samples) && g.longRTT == old(g.longRTT)
      else
        && rtts == [] && maxInflight == 0 && !didDrop && nextUpdate == Some(now + SECOND)
        && flushes == old(flushes) + [now]
        && (if dropped then
              && g.estimatedLimit == MaxR(MIN_LIMIT as real, old(g.estimatedLimit) * 0.9)
              && g.samples == old(g.samples) && g.longRTT == old(g.longRTT)
            else if |w| >= WINDOW_MIN_SAMPLES then
              && g.samples == (if Tracked(w) > 0 then old(g.samples) + [Tracked(w) as real] else old(g.samples))
              && g.longRTT == (if Tracked(w) > 0 then Learnt(old(g.longRTT), Tracked(w) as real) else old(g.longRTT))
              && g.estimatedLimit == Moved(old(g.estimatedLimit), old(g.longRTT), Tracked(w) as real, inflight)
              && old(g.estimatedLimit) * 0.9 <= g.estimatedLimit <= old(g.estimatedLimit) + 0.8
            else
              g.estimatedLimit == old(g.estimatedLimit) && g.samples == old(g.samples) && g.longRTT == old(g.longRTT))
    }

    method MaybeFlush(now: int)
      requires Valid()
      modifies this, g
      ensures Valid() && Flushed(now, old(rtts), old(maxInflight), old(didDrop))
    {
      hide Tracked, Averages, Moved, Learnt;
      if !Due(now) {
        return;
      }
      var w, inflight, dropped := rtts, maxInflight, didDrop;
      rtts, maxInflight, didDrop := [], 0, false;
      nextUpdate := Some(now + SECOND);
      flushes := flushes + [now];
      if dropped {
        var l := g.OnDrop();
      } else if |w| >= WINDOW_MIN_SAMPLES {
        var l := g.OnSample(Tracked(w) as real, inflight);
      }
    }
  }
}
