/** The windowed minimum latency of adaptive-pipeline.go. Times and durations are in nanoseconds. */
module Latency {
  import opened Wrappers

  const WINDOW: int := 30_000_000_000

  datatype Sample = Sample(at: int, latency: int)

  datatype Bucket = Bucket(start: int, min: int)

  predicate IsLive(b: Option<Bucket>, now: int) {
    b.Some? && now - b.value.start < 2 * WINDOW
  }

  /** A sample that went into the bucket. */
  predicate In(s: Sample, b: Option<Bucket>) {
    b.Some? && b.value.start <= s.at < b.value.start + WINDOW && b.value.min <= s.latency
  }

  /** The bucket's minimum is the latency of one of its samples. */
  ghost predicate Attained(history: seq<Sample>, b: Option<Bucket>) {
    b.Some? ==> exists i :: 0 <= i < |history| && history[i].latency == b.value.min && In(history[i], b)
  }

  ghost predicate Ordered(history: seq<Sample>) {
    forall i, j | 0 <= i < j < |history| :: history[i].at <= history[j].at
  }

  class WindowedMin {
    var cur: Option<Bucket>
    var prev: Option<Bucket>
    /** Every sample added so far. */
    ghost var history: seq<Sample>

    constructor ()
      ensures Valid() && history == []
    {
      cur, prev, history := None, None, [];
    }

    /** Every sample is in one of the buckets, or more than a window older than the current one. */
    ghost predicate Valid()
      reads this
    {
      && Ordered(history)
      && (cur.None? ==> history == [] && prev.None?)
      && (forall s | s in history :: In(s, cur) || In(s, prev) || (cur.Some? && s.at < cur.value.start - WINDOW))
      && (prev.Some? ==> cur.Some? && prev.value.start + WINDOW <= cur.value.start)
      && Attained(history, cur) && Attained(history, prev)
    }

    method Add(now: int, d: int)
      requires Valid() && forall s | s in history :: s.at <= now
      modifies this
      ensures Valid() && history == old(history) + [Sample(now, d)]
    {
      ghost var h := history + [Sample(now, d)];
      assert forall i | 0 <= i < |history| :: h[i] == history[i] && history[i] in history;
      assert h[|history|] == Sample(now, d);
      if cur.None? || now - cur.value.start >= WINDOW {
        if IsLive(cur, now) {
          prev := cur;
        } else {
          prev := None;
        }
        cur := Some(Bucket(now, d));
      } else if d < cur.value.min {
        cur := Some(cur.value.(min := d));
      }
      history := h;
      assert In(h[|h| - 1], cur);
      forall s | s in history
        ensures In(s, cur) || In(s, prev) || s.at < cur.value.start - WINDOW
      {
        assert s in old(history) || s == Sample(now, d);
      }
    }

    /** At most every sample of the last window, and a real sample less than two windows old. */
    method Get(now: int) returns (m: int, ok: bool)
      requires Valid() && forall s | s in history :: s.at <= now
      ensures forall s | s in history && now - s.at <= WINDOW :: ok && m <= s.latency
      ensures ok ==> exists s :: s in history && s.latency == m && now - s.at < 2 * WINDOW
    {
      m, ok := 0, false;
      var buckets := [cur, prev];
      for i := 0 to 2
        invariant ok ==> exists b :: (b == cur || b == prev) && IsLive(b, now) && b.value.min == m
        invariant forall j | 0 <= j < i :: IsLive(buckets[j], now) ==> ok && m <= buckets[j].value.min
      {
        if IsLive(buckets[i], now) && (!ok || buckets[i].value.min < m) {
          m, ok := buckets[i].value.min, true;
        }
      }
      assert buckets[0] == cur && buckets[1] == prev;
      if cur.Some? {
        ghost var i :| 0 <= i < |history| && In(history[i], cur);
        assert history[i] in history && cur.value.start <= now;
      }
      forall s | s in history && now - s.at <= WINDOW
        ensures ok && m <= s.latency
      {
        assert In(s, cur) || In(s, prev);
      }
      if ok {
        ghost var b :| (b == cur || b == prev) && IsLive(b, now) && b.value.min == m;
        ghost var i :| 0 <= i < |history| && history[i].latency == b.value.min && In(history[i], b);
        assert history[i] in history;
      }
    }
  }
}
