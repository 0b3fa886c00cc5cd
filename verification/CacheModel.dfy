/** The read-ahead cache of main.go as values: chunks of files keyed by path and chunk number, kept in
    32 shards with one global byte budget. */
module CacheModel {
  import opened Wrappers
  import opened Collections
  import Layouts

  const SHARDS: nat := 32

  /** A chunk's key: the path and the chunk's number in units of the path's chunk size. */
  datatype Key = Key(path: string, index: nat)

  /** Bytes [start, end] of a file. */
  datatype Chunk = Chunk(start: nat, end: int, data: seq<Byte>, session: int, lastAccess: int)

  /** `hash` stands for xxhash, `budget` is ReadAheadBudget. */
  datatype Config = Config(hash: string -> nat, budget: nat) {
    function Shard(path: string): nat {
      hash(path) % SHARDS
    }
  }

  /** `chunks` is the union of the shards' buffers: a key's path fixes its shard. */
  datatype Cache = Cache(chunks: map<Key, Chunk>, order: seq<seq<Key>>, total: seq<int>, used: int)

  ghost predicate NoDuplicates(o: seq<Key>) {
    forall i, j | 0 <= i < j < |o| :: o[i] != o[j]
  }

  function SizeSum(o: seq<Key>, chunks: map<Key, Chunk>): int
    requires forall k | k in o :: k in chunks
  {
    if o == [] then 0 else |chunks[o[0]].data| + SizeSum(o[1..], chunks)
  }

  function Sum(s: seq<int>): int {
    if s == [] then 0 else s[0] + Sum(s[1..])
  }

  /** What shard s keeps: its order lists its keys once each and its total is their size. */
  ghost predicate ShardOk(cfg: Config, c: Cache, s: nat)
    requires |c.order| == |c.total| == SHARDS && s < SHARDS
  {
    && NoDuplicates(c.order[s])
    && (forall k | k in c.order[s] :: k in c.chunks && cfg.Shard(k.path) == s)
    && (forall k | k in c.chunks && cfg.Shard(k.path) == s :: k in c.order[s])
    && c.total[s] == SizeSum(c.order[s], c.chunks)
  }

  ghost predicate Accounted(cfg: Config, c: Cache) {
    && |c.order| == |c.total| == SHARDS
    && (forall s | 0 <= s < SHARDS :: ShardOk(cfg, c, s))
    && c.used == Sum(c.total)
  }

  /** The sizes of the shards with more than one chunk, and with at most one. */
  function Multi(c: Cache): seq<int>
    requires |c.order| == |c.total|
  {
    seq(|c.total|, s requires 0 <= s < |c.total| => if |c.order[s]| > 1 then c.total[s] else 0)
  }

  function Single(c: Cache): seq<int>
    requires |c.order| == |c.total|
  {
    seq(|c.total|, s requires 0 <= s < |c.total| => if |c.order[s]| > 1 then 0 else c.total[s])
  }

  /** The shards with more than one chunk fit in the budget together. */
  ghost predicate Bounded(cfg: Config, c: Cache) {
    |c.order| == |c.total| && Sum(Multi(c)) <= cfg.budget
  }

  // ---- operations ----

  function Without(o: seq<Key>, k: Key): seq<Key> {
    if o == [] then [] else if o[0] == k then o[1..] else [o[0]] + Without(o[1..], k)
  }

  /** Take chunk k out of shard s, whose order becomes o. */
  function Forget(c: Cache, s: nat, k: Key, o: seq<Key>): Cache
    requires k in c.chunks && s < |c.order| == |c.total|
  {
    var size := |c.chunks[k].data|;
    c.(chunks := c.chunks - {k}, order := c.order[s := o], total := c.total[s := c.total[s] - size],
       used := c.used - size)
  }

  function Insert(c: Cache, s: nat, k: Key, b: Chunk): Cache
    requires s < |c.order| == |c.total|
  {
    c.(chunks := c.chunks[k := b], order := c.order[s := c.order[s] + [k]],
       total := c.total[s := c.total[s] + |b.data|], used := c.used + |b.data|)
  }

  /** Take the oldest key of shard s off its order, with its chunk if there is one. */
  function PopOldest(c: Cache, s: nat): Cache
    requires |c.order| == |c.total| == SHARDS && s < SHARDS && |c.order[s]| > 0
  {
    var k, o := c.order[s][0], c.order[s][1..];
    if k in c.chunks then Forget(c, s, k, o) else c.(order := c.order[s := o])
  }

  /** Evict the oldest chunks of shard s while the cache is over budget, but never the last one. */
  function Evict(cfg: Config, c: Cache, s: nat): (c': Cache)
    requires |c.order| == |c.total| == SHARDS && s < SHARDS
    ensures |c'.order| == |c'.total| == SHARDS
    decreases |c.order[s]|
  {
    if c.used > cfg.budget && |c.order[s]| > 1 then Evict(cfg, PopOldest(c, s), s) else c
  }

  function Overwrite(c: Cache, s: nat, k: Key): (c': Cache)
    requires |c.order| == |c.total| == SHARDS && s < SHARDS
    ensures |c'.order| == |c'.total| == SHARDS
  {
    if k in c.chunks then Forget(c, s, k, Without(c.order[s], k)) else c
  }

  /** ReadAheadCache.Put. */
  function Put(cfg: Config, c: Cache, k: Key, b: Chunk): (c': Cache)
    requires |c.order| == |c.total| == SHARDS
    ensures |c'.order| == |c'.total| == SHARDS
  {
    var s := cfg.Shard(k.path);
    Evict(cfg, Insert(Overwrite(c, s, k), s, k, b), s)
  }

  // ---- sums ----

  lemma {:induction false} SumUpdate(s: seq<int>, i: nat, v: int)
    requires i < |s|
    ensures Sum(s[i := v]) == Sum(s) - s[i] + v
  {
    if i > 0 {
      assert s[i := v][1..] == s[1..][i - 1 := v];
      SumUpdate(s[1..], i - 1, v);
    } else {
      assert s[i := v][1..] == s[1..];
    }
  }

  lemma {:induction false} SumLe(a: seq<int>, b: seq<int>)
    requires |a| == |b| && forall i | 0 <= i < |a| :: a[i] <= b[i]
    ensures Sum(a) <= Sum(b)
  {
    if a != [] {
      SumLe(a[1..], b[1..]);
    }
  }

  lemma {:induction false} SumAdd(a: seq<int>, b: seq<int>, c: seq<int>)
    requires |a| == |b| == |c| && forall i | 0 <= i < |a| :: c[i] == a[i] + b[i]
    ensures Sum(c) == Sum(a) + Sum(b)
  {
    if a != [] {
      SumAdd(a[1..], b[1..], c[1..]);
    }
  }

  lemma {:induction false} SizeSumSame(o: seq<Key>, a: map<Key, Chunk>, b: map<Key, Chunk>)
    requires forall k | k in o :: k in a && k in b && |a[k].data| == |b[k].data|
    ensures SizeSum(o, a) == SizeSum(o, b)
  {
    if o != [] {
      SizeSumSame(o[1..], a, b);
    }
  }

  lemma {:induction false} SizeSumAppend(o: seq<Key>, k: Key, chunks: map<Key, Chunk>)
    requires k in chunks && forall x | x in o :: x in chunks
    ensures (forall x | x in o + [k] :: x in chunks)
            && SizeSum(o + [k], chunks) == SizeSum(o, chunks) + |chunks[k].data|
  {
    if o == [] {
      assert o + [k] == [k];
      assert [k][1..] == [];
    } else {
      SizeSumAppend(o[1..], k, chunks);
      assert (o + [k])[1..] == o[1..] + [k];
    }
  }

  lemma {:induction false} WithoutFacts(o: seq<Key>, k: Key, chunks: map<Key, Chunk>)
    requires NoDuplicates(o) && k in o && forall x | x in o :: x in chunks
    ensures NoDuplicates(Without(o, k)) && |Without(o, k)| == |o| - 1
    ensures forall x :: x in Without(o, k) <==> x in o && x != k
    ensures SizeSum(Without(o, k), chunks) == SizeSum(o, chunks) - |chunks[k].data|
  {
    if o[0] == k {
      assert forall x | x in o[1..] :: x != k;
      assert forall x :: x in o <==> x == o[0] || x in o[1..];
    } else {
      assert k in o[1..];
      WithoutFacts(o[1..], k, chunks);
      var w := Without(o[1..], k);
      assert Without(o, k) == [o[0]] + w;
      assert forall x :: x in o <==> x == o[0] || x in o[1..];
      assert o[0] !in o[1..];
      assert ([o[0]] + w)[1..] == w;
    }
  }

  lemma {:induction false} WithoutMiddle(kept: seq<Key>, k: Key, rest: seq<Key>)
    requires k !in kept
    ensures Without(kept + [k] + rest, k) == kept + rest
  {
    if kept == [] {
      assert kept + [k] + rest == [k] + rest;
    } else {
      assert (kept + [k] + rest)[1..] == kept[1..] + [k] + rest;
      WithoutMiddle(kept[1..], k, rest);
    }
  }

  lemma {:induction false} WithoutNone(o: seq<Key>, k: Key)
    requires k !in o
    ensures Without(o, k) == o
  {
    if o != [] {
      WithoutNone(o[1..], k);
    }
  }

  // ---- accounting ----

  lemma ForgetKeeps(cfg: Config, c: Cache, k: Key, o: seq<Key>)
    requires Accounted(cfg, c) && k in c.chunks
    requires var s := cfg.Shard(k.path);
             && ShardOk(cfg, c, s) && NoDuplicates(o) && (forall x :: x in o <==> x in c.order[s] && x != k)
             && SizeSum(o, c.chunks) == SizeSum(c.order[s], c.chunks) - |c.chunks[k].data|
    ensures Accounted(cfg, Forget(c, cfg.Shard(k.path), k, o))
  {
    var s := cfg.Shard(k.path);
    var c' := Forget(c, s, k, o);
    SumUpdate(c.total, s, c.total[s] - |c.chunks[k].data|);
    forall t | 0 <= t < SHARDS
      ensures ShardOk(cfg, c', t)
    {
      assert ShardOk(cfg, c, t) && ShardOk(cfg, c, s);
      SizeSumSame(c'.order[t], c.chunks, c'.chunks);
    }
  }

  lemma OverwriteKeeps(cfg: Config, c: Cache, k: Key)
    requires Accounted(cfg, c)
    ensures var s := cfg.Shard(k.path); Accounted(cfg, Overwrite(c, s, k)) && k !in Overwrite(c, s, k).chunks
  {
    if k in c.chunks {
      var s := cfg.Shard(k.path);
      assert ShardOk(cfg, c, s);
      WithoutFacts(c.order[s], k, c.chunks);
      ForgetKeeps(cfg, c, k, Without(c.order[s], k));
    }
  }

  lemma InsertKeeps(cfg: Config, c: Cache, k: Key, b: Chunk)
    requires Accounted(cfg, c) && k !in c.chunks
    ensures Accounted(cfg, Insert(c, cfg.Shard(k.path), k, b))
  {
    var s := cfg.Shard(k.path);
    var c' := Insert(c, s, k, b);
    SumUpdate(c.total, s, c.total[s] + |b.data|);
    forall t | 0 <= t < SHARDS
      ensures ShardOk(cfg, c', t)
    {
      assert ShardOk(cfg, c, t);
      SizeSumSame(c.order[t], c.chunks, c'.chunks);
      if t == s {
        SizeSumAppend(c.order[s], k, c'.chunks);
      }
    }
  }

  lemma PopOldestKeeps(cfg: Config, c: Cache, s: nat)
    requires Accounted(cfg, c) && s < SHARDS && |c.order[s]| > 0
    ensures Accounted(cfg, PopOldest(c, s))
    ensures Trimmed(c, PopOldest(c, s), s) && |PopOldest(c, s).order[s]| == |c.order[s]| - 1
  {
    assert ShardOk(cfg, c, s);
    var o := c.order[s];
    assert forall x :: x in o <==> x == o[0] || x in o[1..];
    assert o[0] !in o[1..];
    ForgetKeeps(cfg, c, o[0], o[1..]);
  }

  /** c' is c with some of the oldest chunks of shard s gone. */
  ghost predicate Trimmed(c: Cache, c': Cache, s: nat) {
    && s < |c.order| == |c'.order| == |c.total| == |c'.total|
    && (forall k | k in c'.chunks :: k in c.chunks && c'.chunks[k] == c.chunks[k])
    && (forall t | 0 <= t < |c.order| && t != s :: c'.order[t] == c.order[t] && c'.total[t] == c.total[t])
    && |c'.order[s]| <= |c.order[s]| && c'.order[s] == c.order[s][|c.order[s]| - |c'.order[s]|..]
  }

  lemma TrimmedTwice(c: Cache, c1: Cache, c2: Cache, s: nat)
    requires Trimmed(c, c1, s) && Trimmed(c1, c2, s)
    ensures Trimmed(c, c2, s)
  {
  }

  lemma {:induction false} EvictKeeps(cfg: Config, c: Cache, s: nat)
    requires Accounted(cfg, c) && s < SHARDS
    ensures var c' := Evict(cfg, c, s);
            && Accounted(cfg, c') && Trimmed(c, c', s)
            && (c'.used <= cfg.budget || |c'.order[s]| <= 1)
            && (|c.order[s]| > 0 ==> |c'.order[s]| > 0)
    decreases |c.order[s]|
  {
    hide ShardOk, Sum, Forget;
    if c.used > cfg.budget && |c.order[s]| > 1 {
      PopOldestKeeps(cfg, c, s);
      var c1 := PopOldest(c, s);
      EvictKeeps(cfg, c1, s);
      TrimmedTwice(c, c1, Evict(cfg, c1, s), s);
    }
  }

  /** Eviction takes no more than it must: with the last chunk it took the cache was over budget. */
  lemma {:induction false} EvictLeast(cfg: Config, c: Cache, s: nat)
    requires Accounted(cfg, c) && s < SHARDS
    ensures var c' := Evict(cfg, c, s); var gone := |c.order[s]| - |c'.order[s]|;
            && gone >= 0 && (gone == 0 ==> c' == c)
            && (gone > 0 ==> c.order[s][gone - 1] in c.chunks
                             && c'.used + |c.chunks[c.order[s][gone - 1]].data| > cfg.budget)
    decreases |c.order[s]|
  {
    hide Sum;
    if c.used > cfg.budget && |c.order[s]| > 1 {
      PopOldestKeeps(cfg, c, s);
      assert ShardOk(cfg, c, s);
      var c1 := PopOldest(c, s);
      EvictLeast(cfg, c1, s);
      assert c1.order[s] == c.order[s][1..];
    }
  }

  /** Put keeps the books, and its own chunk survives its own evictions as the newest of its shard. */
  lemma PutKeeps(cfg: Config, c: Cache, k: Key, b: Chunk)
    requires Accounted(cfg, c)
    ensures var c' := Put(cfg, c, k, b); var o := c'.order[cfg.Shard(k.path)];
            && Accounted(cfg, c')
            && k in c'.chunks && c'.chunks[k] == b && |o| > 0 && o[|o| - 1] == k
            && (forall x | x in c'.chunks && x != k :: x in c.chunks && c'.chunks[x] == c.chunks[x])
  {
    var s := cfg.Shard(k.path);
    OverwriteKeeps(cfg, c, k);
    var c1 := Overwrite(c, s, k);
    InsertKeeps(cfg, c1, k, b);
    var c2 := Insert(c1, s, k, b);
    EvictKeeps(cfg, c2, s);
    var c' := Evict(cfg, c2, s);
    var o := c'.order[s];
    assert o[|o| - 1] == c2.order[s][|c2.order[s]| - 1] == k;
    assert ShardOk(cfg, c', s);
    assert o[|o| - 1] in o;
  }

  /** Put moves its chunk to the end of its shard's order and takes from the front only what it must: nothing while the
      cache is in budget, and down to the budget or to its own chunk if not. No other shard changes. */
  lemma PutLeast(cfg: Config, c: Cache, k: Key, b: Chunk)
    requires Accounted(cfg, c)
    ensures var c', s := Put(cfg, c, k, b), cfg.Shard(k.path);
            var o := Without(c.order[s], k) + [k];
            var gone := |o| - |c'.order[s]|;
            && 0 <= gone < |o| && c'.order[s] == o[gone..]
            && (forall t | 0 <= t < SHARDS && t != s :: c'.order[t] == c.order[t])
            && (c'.used <= cfg.budget || gone == |o| - 1)
            && (gone > 0 ==> o[gone - 1] in c.chunks && c'.used + |c.chunks[o[gone - 1]].data| > cfg.budget)
  {
    assert |c.order| == |c.total| == SHARDS;
    hide Accounted, ShardOk, Evict, SizeSum, Sum, Without, Overwrite, Insert, NoDuplicates;
    StoreKeeps(cfg, c, k, b);
    var s := cfg.Shard(k.path);
    var c2 := Insert(Overwrite(c, s, k), s, k, b);
    EvictTakes(cfg, c2, s);
    var gone := |c2.order[s]| - |Evict(cfg, c2, s).order[s]|;
    if gone > 0 {
      LastOnly(c2.order[s], gone - 1);
    }
  }

  lemma EvictTakes(cfg: Config, c: Cache, s: nat)
    requires Accounted(cfg, c) && s < SHARDS && |c.order[s]| > 0
    ensures var c', o := Evict(cfg, c, s), c.order[s];
            var gone := |o| - |c'.order[s]|;
            && 0 <= gone < |o| && c'.order[s] == o[gone..]
            && (forall t | 0 <= t < SHARDS && t != s :: c'.order[t] == c.order[t])
            && (c'.used <= cfg.budget || gone == |o| - 1)
            && (gone > 0 ==> o[gone - 1] in c.chunks && c'.used + |c.chunks[o[gone - 1]].data| > cfg.budget)
  {
    hide ShardOk, Evict, Sum;
    EvictKeeps(cfg, c, s);
    EvictLeast(cfg, c, s);
  }

  /** Put before it evicts. */
  lemma StoreKeeps(cfg: Config, c: Cache, k: Key, b: Chunk)
    requires Accounted(cfg, c)
    ensures var s := cfg.Shard(k.path); var c2 := Insert(Overwrite(c, s, k), s, k, b);
            && |c2.order| == |c.order| == SHARDS && Accounted(cfg, c2) && NoDuplicates(c2.order[s])
            && c2.order[s] == Without(c.order[s], k) + [k]
            && (forall t | 0 <= t < SHARDS && t != s :: c2.order[t] == c.order[t])
            && (forall x | x in c2.chunks && x != k :: x in c.chunks && c2.chunks[x] == c.chunks[x])
  {
    var s := cfg.Shard(k.path);
    assert ShardOk(cfg, c, s);
    if k !in c.chunks {
      WithoutNone(c.order[s], k);
    }
    OverwriteKeeps(cfg, c, k);
    InsertKeeps(cfg, Overwrite(c, s, k), k, b);
    assert ShardOk(cfg, Insert(Overwrite(c, s, k), s, k, b), s);
  }

  lemma LastOnly(o: seq<Key>, i: nat)
    requires NoDuplicates(o) && i + 1 < |o|
    ensures o[i] != o[|o| - 1]
  {
  }

  function Touched(c: Cache, k: Key, now: int): Cache {
    if k in c.chunks then c.(chunks := c.chunks[k := c.chunks[k].(lastAccess := now)]) else c
  }

  lemma TouchedKeeps(cfg: Config, c: Cache, k: Key, now: int)
    requires Accounted(cfg, c)
    ensures Accounted(cfg, Touched(c, k, now))
    ensures ChunksOk(c) ==> ChunksOk(Touched(c, k, now))
  {
    var c' := Touched(c, k, now);
    forall s | 0 <= s < SHARDS
      ensures ShardOk(cfg, c', s)
    {
      assert ShardOk(cfg, c, s);
      SizeSumSame(c.order[s], c.chunks, c'.chunks);
    }
  }

  lemma {:induction false} ZeroSum(s: seq<int>)
    requires forall i | 0 <= i < |s| :: s[i] == 0
    ensures Sum(s) == 0
  {
    if s != [] {
      ZeroSum(s[1..]);
    }
  }

  function EmptyCache(): Cache {
    Cache(map[], seq(SHARDS, _ => []), seq(SHARDS, _ => 0), 0)
  }

  lemma EmptyAccounted(cfg: Config)
    ensures Accounted(cfg, EmptyCache())
  {
    hide Sum;
    ZeroSum(EmptyCache().total);
  }

  // ---- the budget ----

  lemma UsedSplit(cfg: Config, c: Cache)
    requires Accounted(cfg, c)
    ensures c.used == Sum(Multi(c)) + Sum(Single(c))
  {
    SumAdd(Multi(c), Single(c), c.total);
  }

  lemma {:induction false} SizeSumNonNegative(o: seq<Key>, chunks: map<Key, Chunk>)
    requires forall k | k in o :: k in chunks
    ensures SizeSum(o, chunks) >= 0
  {
    if o != [] {
      SizeSumNonNegative(o[1..], chunks);
    }
  }

  lemma {:induction false} SumNonNegative(s: seq<int>)
    requires forall i | 0 <= i < |s| :: s[i] >= 0
    ensures Sum(s) >= 0
  {
    if s != [] {
      SumNonNegative(s[1..]);
    }
  }

  lemma SinglesNonNegative(cfg: Config, c: Cache)
    requires Accounted(cfg, c)
    ensures Sum(Single(c)) >= 0
    ensures forall s | 0 <= s < SHARDS :: c.total[s] >= 0
  {
    forall s | 0 <= s < SHARDS
      ensures c.total[s] >= 0
    {
      assert ShardOk(cfg, c, s);
      SizeSumNonNegative(c.order[s], c.chunks);
    }
    SumNonNegative(Single(c));
  }

  /** However far over budget the cache is, it is only by the shards that hold one chunk each. */
  lemma OverBudgetBySingles(cfg: Config, c: Cache)
    requires Accounted(cfg, c) && Bounded(cfg, c)
    ensures c.used <= cfg.budget + Sum(Single(c))
  {
    UsedSplit(cfg, c);
  }

  lemma {:induction false} SumBound(s: seq<int>, max: int)
    requires forall i | 0 <= i < |s| :: s[i] <= max
    ensures Sum(s) <= |s| * max
  {
    if s != [] {
      SumBound(s[1..], max);
      assert |s| * max == max + (|s| - 1) * max;
    }
  }

  /** So with chunks of at most `max` bytes the cache is at most one chunk per shard over budget. */
  lemma OverBudgetBound(cfg: Config, c: Cache, max: nat)
    requires Accounted(cfg, c) && Bounded(cfg, c)
    requires forall k | k in c.chunks :: |c.chunks[k].data| <= max
    ensures c.used <= cfg.budget + SHARDS * max
  {
    forall s | 0 <= s < SHARDS
      ensures Single(c)[s] <= max
    {
      assert ShardOk(cfg, c, s);
      var o := c.order[s];
      if |o| == 1 {
        assert o[0] in o && SizeSum(o[1..], c.chunks) == 0;
      } else if |o| == 0 {
        assert o == [];
      }
    }
    SumBound(Single(c), max);
    OverBudgetBySingles(cfg, c);
  }

  // ---- global eviction ----

  /** What triggerGlobalEviction knows when it runs; times are in seconds. */
  datatype Sweep = Sweep(activePath: string, activeSession: int, now: int)

  /** The code matches a key's printed form against the active path and a colon. */
  predicate OfActivePath(w: Sweep, k: Key) {
    k.path == w.activePath || w.activePath + ":" <= k.path
  }

  predicate Keeps(w: Sweep, k: Key, b: Chunk) {
    && (b.session == w.activeSession || OfActivePath(w, k))
    && w.now - b.lastAccess <= if OfActivePath(w, k) then 60 else 120
  }

  /** A chunk of the active path stays for a minute after its last use, any other for two minutes and only while it is
      of the active session. */
  lemma KeepsWhen(w: Sweep, k: Key, b: Chunk)
    ensures OfActivePath(w, k) ==> (Keeps(w, k, b) <==> w.now <= b.lastAccess + 60)
    ensures !OfActivePath(w, k) ==> (Keeps(w, k, b) <==> b.session == w.activeSession && w.now <= b.lastAccess + 120)
    ensures OfActivePath(w, k) <==> w.activePath == k.path || exists rest: string :: k.path == w.activePath + ":" + rest
  {
    if w.activePath + ":" <= k.path {
      var rest := k.path[|w.activePath + ":"|..];
      assert k.path == w.activePath + ":" + rest;
    }
  }

  /** One turn of evictShard's loop. */
  function SweepKey(c: Cache, s: nat, w: Sweep, k: Key): (c': Cache)
    requires |c.order| == |c.total| == SHARDS && s < SHARDS
    ensures |c'.order| == |c'.total| == SHARDS
  {
    if k in c.chunks && !Keeps(w, k, c.chunks[k]) then Forget(c, s, k, Without(c.order[s], k)) else c
  }

  /** evictShard over the keys `rest` of shard s. */
  function SweepKeys(c: Cache, s: nat, w: Sweep, rest: seq<Key>): (c': Cache)
    requires |c.order| == |c.total| == SHARDS && s < SHARDS
    ensures |c'.order| == |c'.total| == SHARDS
    decreases rest
  {
    if rest == [] then c else SweepKeys(SweepKey(c, s, w, rest[0]), s, w, rest[1..])
  }

  lemma Listed(cfg: Config, c: Cache, s: nat)
    requires Accounted(cfg, c) && s < SHARDS
    ensures NoDuplicates(c.order[s]) && forall k | k in c.order[s] :: cfg.Shard(k.path) == s
  {
    assert ShardOk(cfg, c, s);
  }

  lemma NotBefore(o: seq<Key>, i: nat)
    requires NoDuplicates(o) && i < |o|
    ensures o[i] !in o[..i]
  {
  }

  lemma {:induction false} SweepKeysAppend(c: Cache, s: nat, w: Sweep, done: seq<Key>, k: Key)
    requires |c.order| == |c.total| == SHARDS && s < SHARDS
    ensures SweepKeys(c, s, w, done + [k]) == SweepKey(SweepKeys(c, s, w, done), s, w, k)
    decreases done
  {
    if done == [] {
      assert [k][1..] == [];
    } else {
      assert (done + [k])[1..] == done[1..] + [k];
      SweepKeysAppend(SweepKey(c, s, w, done[0]), s, w, done[1..], k);
    }
  }

  function Ordered(c: Cache, s: nat, o: seq<Key>): (c': Cache)
    requires s < |c.order| == |c.total|
    ensures |c'.order| == |c.order| && |c'.total| == |c.total|
  {
    c.(order := c.order[s := o])
  }

  lemma ForgetOrdered(c: Cache, s: nat, k: Key, x: seq<Key>, o: seq<Key>)
    requires k in c.chunks && s < |c.order| == |c.total|
    ensures Forget(Ordered(c, s, x), s, k, o) == Ordered(Forget(c, s, k, c.order[s]), s, o)
  {
  }

  /** A turn of evictShard's loop, which collects the kept keys and sets the shard's order at the end. */
  lemma SweepTurn(c: Cache, c0: Cache, s: nat, w: Sweep, keys: seq<Key>, i: nat, kept: seq<Key>)
    requires |c0.order| == |c0.total| == |c.order| == |c.total| == SHARDS && s < SHARDS
    requires i < |keys| && keys[i] !in kept
    requires Ordered(c, s, kept + keys[i..]) == SweepKeys(c0, s, w, keys[..i])
    ensures var k := keys[i];
            SweepKeys(c0, s, w, keys[..i + 1]) ==
              if k in c.chunks && !Keeps(w, k, c.chunks[k]) then
                Ordered(Forget(c, s, k, c.order[s]), s, kept + keys[i + 1..])
              else Ordered(c, s, kept + [k] + keys[i + 1..])
  {
    hide SweepKeys, Without, Keeps, Forget;
    var k, all := keys[i], kept + keys[i..];
    assert keys[..i] + [k] == keys[..i + 1];
    assert all == kept + [k] + keys[i + 1..];
    SweepKeysAppend(c0, s, w, keys[..i], k);
    if k in c.chunks {
      WithoutMiddle(kept, k, keys[i + 1..]);
      ForgetOrdered(c, s, k, all, kept + keys[i + 1..]);
    }
  }

  /** c' is c with some of the chunks of shard s gone and nothing else changed. */
  ghost predicate Thinned(c: Cache, c': Cache, s: nat) {
    && s < SHARDS == |c.order| == |c'.order| == |c.total| == |c'.total|
    && (forall k | k in c'.chunks :: k in c.chunks && c'.chunks[k] == c.chunks[k])
    && (forall t | 0 <= t < SHARDS && t != s :: c'.order[t] == c.order[t] && c'.total[t] == c.total[t])
    && |c'.order[s]| <= |c.order[s]| && c'.total[s] <= c.total[s]
  }

  lemma ThinnedOk(c: Cache, c': Cache, s: nat)
    requires Thinned(c, c', s) && ChunksOk(c)
    ensures ChunksOk(c')
  {
  }

  lemma SweepKeyKeeps(cfg: Config, c: Cache, w: Sweep, k: Key)
    requires Accounted(cfg, c)
    ensures var s := cfg.Shard(k.path); Accounted(cfg, SweepKey(c, s, w, k)) && Thinned(c, SweepKey(c, s, w, k), s)
  {
    var s := cfg.Shard(k.path);
    assert ShardOk(cfg, c, s);
    if k in c.chunks {
      WithoutFacts(c.order[s], k, c.chunks);
      ForgetKeeps(cfg, c, k, Without(c.order[s], k));
    }
  }

  /** Sweeping keeps the books, takes out exactly the swept chunks that are stale and changes nothing else. */
  lemma {:induction false} SweepKeeps(cfg: Config, c: Cache, s: nat, w: Sweep, rest: seq<Key>)
    requires Accounted(cfg, c) && s < SHARDS && forall k | k in rest :: cfg.Shard(k.path) == s
    ensures var c' := SweepKeys(c, s, w, rest);
            && Accounted(cfg, c') && Thinned(c, c', s)
            && (forall k | k in c.chunks :: k in c'.chunks <==> k !in rest || Keeps(w, k, c.chunks[k]))
    decreases rest
  {
    if rest != [] {
      SweepKeyKeeps(cfg, c, w, rest[0]);
      SweepKeeps(cfg, SweepKey(c, s, w, rest[0]), s, w, rest[1..]);
      assert forall k :: k in rest <==> k == rest[0] || k in rest[1..];
    }
  }

  // ---- reading ----

  /** The bytes [off, end] of a path, from one chunk or stitched from two adjacent ones. The path's chunk size is read
      for each of the two keys, outside the shard's lock: `size` for the first, `size2` for the second. */
  function LookupWith(c: Cache, path: string, size: nat, size2: nat, off: nat, end: int): Option<seq<Byte>>
    requires size > 0 && size2 > 0 && off <= end + 1 && ChunksOk(c)
  {
    match At(c, path, size, off)
    case None => None
    case Some(b) =>
      if end <= b.end then Some(b.data[off - b.start..end - b.start + 1])
      else
        match At(c, path, size2, end)
        case None => None
        case Some(b2) =>
          if b2.start == b.end + 1 then Some(b.data[off - b.start..] + b2.data[..end - b2.start + 1]) else None
  }

  /** The same while the chunk size stays as it is. */
  function Lookup(c: Cache, path: string, size: nat, off: nat, end: int): Option<seq<Byte>>
    requires size > 0 && off <= end + 1 && ChunksOk(c)
  {
    LookupWith(c, path, size, size, off, end)
  }

  /** The chunk under the key of `off`, if it holds `off`. */
  function At(c: Cache, path: string, size: nat, off: nat): (b: Option<Chunk>)
    requires size > 0
  {
    var k := Key(path, off / size);
    if k in c.chunks && c.chunks[k].start <= off <= c.chunks[k].end then Some(c.chunks[k]) else None
  }

  ghost predicate ChunksOk(c: Cache) {
    forall k | k in c.chunks :: ChunkOk(c.chunks[k])
  }

  predicate ChunkOk(b: Chunk) {
    b.end == b.start + |b.data| - 1
  }

  lemma LookupLength(c: Cache, path: string, size: nat, off: nat, end: int)
    requires size > 0 && off <= end + 1 && ChunksOk(c)
    ensures Lookup(c, path, size, off, end).Some? ==> |Lookup(c, path, size, off, end).value| == end - off + 1
  {
  }

  /** The chunks a read of [off, end] marks as used: the first chunk even when the second is missing. */
  function ReadTouched(c: Cache, path: string, size: nat, off: nat, end: int, now: int): Cache
    requires size > 0 && off <= end + 1 && ChunksOk(c)
  {
    if At(c, path, size, off).None? then c
    else
      var c1 := Touched(c, Key(path, off / size), now);
      if Lookup(c, path, size, off, end).None? || end <= At(c, path, size, off).value.end then c1
      else Touched(c1, Key(path, end / size), now)
  }

  /** Every chunk holds what its file holds there. */
  ghost predicate Truthful(c: Cache, files: map<string, seq<Byte>>) {
    forall k | k in c.chunks :: ChunkTrue(k.path, c.chunks[k], files)
  }

  ghost predicate ChunkTrue(path: string, b: Chunk, files: map<string, seq<Byte>>) {
    ChunkOk(b) && path in files && b.end < |files[path]| && b.data == files[path][b.start..b.end + 1]
  }

  lemma AtTrue(c: Cache, files: map<string, seq<Byte>>, path: string, size: nat, off: nat)
    requires Truthful(c, files) && size > 0
    ensures match At(c, path, size, off) case None => true
            case Some(b) => ChunkTrue(path, b, files) && b.start <= off <= b.end
  {
  }

  lemma SliceSlice(f: seq<Byte>, a: nat, b: nat, x: nat, y: nat)
    requires a <= x <= y <= b <= |f|
    ensures f[a..b][x - a..y - a] == f[x..y]
  {
    assert forall i | 0 <= i < y - x :: f[a..b][x - a..y - a][i] == f[a..b][x - a + i] == f[x..y][i];
  }

  /** A hit returns exactly the file's bytes, whatever chunk sizes the chunks were stored and looked up under. */
  lemma HitTruthful(c: Cache, files: map<string, seq<Byte>>, path: string, size: nat, size2: nat, off: nat, end: int)
    requires Truthful(c, files) && size > 0 && size2 > 0 && off <= end + 1
    ensures LookupWith(c, path, size, size2, off, end).Some? ==>
              && path in files && end < |files[path]|
              && LookupWith(c, path, size, size2, off, end).value == files[path][off..end + 1]
  {
    hide At, Truthful;
    AtTrue(c, files, path, size, off);
    if At(c, path, size, off).Some? {
      var b, f := At(c, path, size, off).value, files[path];
      if end <= b.end {
        SliceSlice(f, b.start, b.end + 1, off, end + 1);
      } else {
        AtTrue(c, files, path, size2, end);
        if At(c, path, size2, end).Some? && At(c, path, size2, end).value.start == b.end + 1 {
          var b2 := At(c, path, size2, end).value;
          SliceSlice(f, b.start, b.end + 1, off, b.end + 1);
          SliceSlice(f, b2.start, b2.end + 1, b2.start, end + 1);
          assert b.data[off - b.start..] == f[off..b.end + 1];
          assert b2.data[..end - b2.start + 1] == f[b2.start..end + 1];
        }
      }
    }
  }

  // ---- when a read hits ----

  /** The path's chunks start on the grid of the chunk size and are no longer than it. */
  ghost predicate Gridded(c: Cache, path: string, size: nat) {
    forall i: nat | Key(path, i) in c.chunks ::
      c.chunks[Key(path, i)].start == i * size && |c.chunks[Key(path, i)].data| <= size
  }

  /** Byte x of the path is cached. */
  predicate Cached(c: Cache, path: string, size: nat, x: nat)
    requires size > 0
  {
    var k := Key(path, x / size);
    k in c.chunks && 0 <= x - c.chunks[k].start < |c.chunks[k].data|
  }

  function ByteAt(c: Cache, path: string, size: nat, x: nat): Byte
    requires size > 0 && Cached(c, path, size, x)
  {
    var b := c.chunks[Key(path, x / size)];
    b.data[x - b.start]
  }

  lemma AtCached(c: Cache, path: string, size: nat, x: nat)
    requires size > 0 && ChunksOk(c)
    ensures At(c, path, size, x).Some? <==> Cached(c, path, size, x)
    ensures At(c, path, size, x).Some? ==> At(c, path, size, x).value == c.chunks[Key(path, x / size)]
  {
  }

  /** Where the chunk of byte x lies. */
  lemma ChunkPlace(c: Cache, path: string, size: nat, x: nat)
    requires size > 0 && ChunksOk(c) && Gridded(c, path, size)
    ensures x / size * size <= x < x / size * size + size
    ensures var k := Key(path, x / size);
            k in c.chunks ==> ChunkOk(c.chunks[k]) && c.chunks[k].start == x / size * size && |c.chunks[k].data| <= size
  {
    Layouts.DivFloor(x, size);
  }

  /** In one chunk the bytes of a read are cached if the last is. */
  lemma OneChunk(c: Cache, path: string, size: nat, x: nat, y: nat)
    requires size > 0 && ChunksOk(c) && Gridded(c, path, size) && x <= y && x / size == y / size
    ensures Cached(c, path, size, y) ==> Cached(c, path, size, x)
  {
    ChunkPlace(c, path, size, x);
  }

  lemma Monotone(size: nat, x: nat, y: nat)
    requires size > 0 && x <= y
    ensures x / size <= y / size
  {
    Layouts.DivFloor(x, size);
    Layouts.DivFloor(y, size);
    if x / size > y / size {
      Layouts.MulLe(y / size + 1, x / size, size);
    }
  }

  lemma Between(size: nat, x: nat, y: nat, z: nat)
    requires size > 0 && x <= y <= z
    ensures x / size <= y / size <= z / size
  {
    Monotone(size, x, y);
    Monotone(size, y, z);
  }

  /** A read within one chunk. */
  lemma ShortRead(c: Cache, path: string, size: nat, off: nat, end: nat)
    requires size > 0 && off <= end && ChunksOk(c) && Gridded(c, path, size) && off / size == end / size
    ensures Lookup(c, path, size, off, end).Some? <==> Cached(c, path, size, end)
    ensures Lookup(c, path, size, off, end).Some? ==>
              var b := c.chunks[Key(path, off / size)];
              && b.start <= off && end - b.start < |b.data|
              && Lookup(c, path, size, off, end).value == b.data[off - b.start..end - b.start + 1]
  {
    hide At;
    AtCached(c, path, size, off);
    AtCached(c, path, size, end);
    OneChunk(c, path, size, off, end);
    ChunkPlace(c, path, size, off);
  }

  /** A read over the end of a chunk into the next. */
  lemma LongRead(c: Cache, path: string, size: nat, off: nat, end: nat)
    requires size > 0 && ChunksOk(c) && Gridded(c, path, size) && end / size == off / size + 1
    ensures var next := end / size * size;
            && next > 0 && off < next <= end && (next - 1) / size == off / size
            && (Lookup(c, path, size, off, end).Some? <==>
                  Cached(c, path, size, next - 1) && Cached(c, path, size, end))
    ensures Lookup(c, path, size, off, end).Some? ==>
              var b, b2 := c.chunks[Key(path, off / size)], c.chunks[Key(path, end / size)];
              && b.start <= off && b.start + |b.data| == b2.start && end - b2.start < |b2.data|
              && Lookup(c, path, size, off, end).value == b.data[off - b.start..] + b2.data[..end - b2.start + 1]
  {
    hide At;
    var q := off / size;
    AtCached(c, path, size, off);
    AtCached(c, path, size, end);
    ChunkPlace(c, path, size, off);
    ChunkPlace(c, path, size, end);
    assert (q + 1) * size == q * size + size;
    Layouts.DivUnique(q * size + size - 1, size, q);
    OneChunk(c, path, size, off, q * size + size - 1);
  }

  /** A read over more than two chunks. */
  lemma WideRead(c: Cache, path: string, size: nat, off: nat, end: nat)
    requires size > 0 && off <= end && ChunksOk(c) && Gridded(c, path, size) && end / size > off / size + 1
    ensures Lookup(c, path, size, off, end).None?
  {
    hide At;
    AtCached(c, path, size, off);
    AtCached(c, path, size, end);
    ChunkPlace(c, path, size, off);
    ChunkPlace(c, path, size, end);
    Layouts.MulLe(off / size + 2, end / size, size);
    assert (off / size + 2) * size == off / size * size + 2 * size;
  }

  /** With chunks on the grid a read hits exactly when it touches at most two chunks and every one of its bytes is
      cached; and then it returns those bytes. */
  lemma LookupIff(c: Cache, path: string, size: nat, off: nat, end: nat)
    requires size > 0 && off <= end && ChunksOk(c) && Gridded(c, path, size)
    ensures Lookup(c, path, size, off, end).Some? <==>
            end / size <= off / size + 1 && forall x: nat | off <= x <= end :: Cached(c, path, size, x)
    ensures Lookup(c, path, size, off, end).Some? ==>
              && |Lookup(c, path, size, off, end).value| == end - off + 1
              && forall x: nat | off <= x <= end ::
                   && Cached(c, path, size, x)
                   && Lookup(c, path, size, off, end).value[x - off] == ByteAt(c, path, size, x)
  {
    hide Lookup, Cached, Gridded, ChunksOk;
    Between(size, off, off, end);
    if end / size == off / size {
      ShortRead(c, path, size, off, end);
      forall x: nat | off <= x <= end
        ensures x / size == off / size && (Cached(c, path, size, end) ==> Cached(c, path, size, x))
      {
        Between(size, off, x, end);
        OneChunk(c, path, size, x, end);
      }
    } else if end / size == off / size + 1 {
      LongRead(c, path, size, off, end);
      var next := end / size * size;
      forall x: nat | off <= x <= end
        ensures x < next ==> x / size == off / size && (Cached(c, path, size, next - 1) ==> Cached(c, path, size, x))
        ensures x >= next ==> x / size == end / size && (Cached(c, path, size, end) ==> Cached(c, path, size, x))
      {
        LongPart(c, path, size, off, x, end);
      }
    } else {
      WideRead(c, path, size, off, end);
    }
    LookupBytes(c, path, size, off, end);
  }

  lemma LongPart(c: Cache, path: string, size: nat, off: nat, x: nat, end: nat)
    requires size > 0 && ChunksOk(c) && Gridded(c, path, size) && off <= x <= end && end / size == off / size + 1
    ensures var next := end / size * size;
            && next > 0
            && (x < next ==> x / size == off / size && (Cached(c, path, size, next - 1) ==> Cached(c, path, size, x)))
            && (x >= next ==> x / size == end / size && (Cached(c, path, size, end) ==> Cached(c, path, size, x)))
  {
    hide Cached, Gridded, ChunksOk;
    var q := off / size;
    Layouts.DivFloor(off, size);
    Layouts.DivFloor(end, size);
    assert (q + 1) * size == q * size + size;
    if x < (q + 1) * size {
      Layouts.DivUnique(x, size, q);
      Layouts.DivUnique((q + 1) * size - 1, size, q);
      OneChunk(c, path, size, x, (q + 1) * size - 1);
    } else {
      Layouts.DivUnique(x, size, q + 1);
      OneChunk(c, path, size, x, end);
    }
  }

  lemma LookupBytes(c: Cache, path: string, size: nat, off: nat, end: nat)
    requires size > 0 && off <= end && ChunksOk(c) && Gridded(c, path, size)
    requires Lookup(c, path, size, off, end).Some? ==>
               end / size <= off / size + 1 && forall x: nat | off <= x <= end :: Cached(c, path, size, x)
    ensures Lookup(c, path, size, off, end).Some? ==>
              && |Lookup(c, path, size, off, end).value| == end - off + 1
              && forall x: nat | off <= x <= end ::
                   Lookup(c, path, size, off, end).value[x - off] == ByteAt(c, path, size, x)
  {
    if Lookup(c, path, size, off, end).Some? {
      hide Lookup, Gridded, ChunksOk, Cached, ByteAt;
      Between(size, off, off, end);
      if end / size == off / size {
        ShortRead(c, path, size, off, end);
      } else {
        LongRead(c, path, size, off, end);
      }
      forall x: nat | off <= x <= end
        ensures Lookup(c, path, size, off, end).value[x - off] == ByteAt(c, path, size, x)
      {
        LookupByte(c, path, size, off, end, x);
      }
    }
  }

  lemma LookupByte(c: Cache, path: string, size: nat, off: nat, end: nat, x: nat)
    requires size > 0 && off <= x <= end && ChunksOk(c) && Gridded(c, path, size) && Cached(c, path, size, x)
    requires end / size <= off / size + 1 && Lookup(c, path, size, off, end).Some?
    ensures |Lookup(c, path, size, off, end).value| == end - off + 1
    ensures Lookup(c, path, size, off, end).value[x - off] == ByteAt(c, path, size, x)
  {
    hide Lookup, Gridded, ChunksOk;
    Between(size, off, x, end);
    if end / size == off / size {
      ShortRead(c, path, size, off, end);
    } else {
      LongRead(c, path, size, off, end);
      LongPart(c, path, size, off, x, end);
      ChunkPlace(c, path, size, end);
    }
  }

  /** A read of [off, end] uses chunk k: that of its first byte if cached, and on a hit that of its last. */
  predicate Uses(c: Cache, path: string, size: nat, off: nat, end: int, k: Key)
    requires size > 0 && off <= end + 1 && ChunksOk(c)
  {
    && Cached(c, path, size, off)
    && (k == Key(path, off / size)
        || (end >= 0 && k == Key(path, end / size) && end > c.chunks[Key(path, off / size)].end
            && Lookup(c, path, size, off, end).Some?))
  }

  /** Reading marks exactly the chunks it uses. */
  lemma ReadTouches(c: Cache, path: string, size: nat, off: nat, end: int, now: int, k: Key)
    requires size > 0 && off <= end + 1 && ChunksOk(c)
    ensures var c' := ReadTouched(c, path, size, off, end, now);
            && c' == c.(chunks := c'.chunks) && c'.chunks.Keys == c.chunks.Keys
            && (k in c.chunks ==>
                  c'.chunks[k] == if Uses(c, path, size, off, end, k) then c.chunks[k].(lastAccess := now)
                                  else c.chunks[k])
  {
    AtCached(c, path, size, off);
  }

  lemma PutOk(cfg: Config, c: Cache, k: Key, b: Chunk)
    requires Accounted(cfg, c) && ChunksOk(c) && ChunkOk(b)
    ensures ChunksOk(Put(cfg, c, k, b))
  {
    PutKeeps(cfg, c, k, b);
  }

  /** A shard's order is as long as the shard has chunks, so Put's compaction of it has nothing to do. */
  lemma OrderCounts(cfg: Config, c: Cache, s: nat)
    requires Accounted(cfg, c) && s < SHARDS
    ensures |c.order[s]| == |set k | k in c.chunks && cfg.Shard(k.path) == s|
  {
    assert ShardOk(cfg, c, s);
    DistinctCount(c.order[s]);
    assert (set k | k in c.order[s]) == (set k | k in c.chunks && cfg.Shard(k.path) == s);
  }
}
