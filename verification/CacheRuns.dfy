/** Runs of the read-ahead cache. Every Put holds only the lock of its own shard, so Puts on different
    shards, sweeps and lookups interleave; a step here is one atomic change of the global byte count. */
module CacheRuns {
  import opened Wrappers
  import opened CacheModel

  /** Where a shard's current Put stands. */
  datatype Phase = Idle | Adding(key: Key, chunk: Chunk) | Evicting

  datatype State = State(c: Cache, phase: seq<Phase>) {
    predicate Shape() {
      |c.order| == |c.total| == |phase| == SHARDS
    }
  }

  datatype Event =
    | Begin(key: Key, chunk: Chunk)
    | Add(shard: nat)
    | Pop(shard: nat)
    | Swept(key: Key, sweep: Sweep)
    | Touch(key: Key, now: int)

  /** The test at the head of Put's eviction loop, on the count its own last change returned. */
  function Settle(cfg: Config, c: Cache, s: nat): Phase
    requires s < |c.order|
  {
    if c.used > cfg.budget && |c.order[s]| > 1 then Evicting else Idle
  }

  function Step(cfg: Config, st: State, e: Event): (st': State)
    requires st.Shape()
    ensures st'.Shape()
  {
    match e
    case Begin(k, b) =>
      var s := cfg.Shard(k.path);
      if st.phase[s].Idle? then State(Overwrite(st.c, s, k), st.phase[s := Adding(k, b)]) else st
    case Add(s) =>
      if s < SHARDS && st.phase[s].Adding? then
        var c := Insert(st.c, s, st.phase[s].key, st.phase[s].chunk);
        State(c, st.phase[s := Settle(cfg, c, s)])
      else st
    case Pop(s) =>
      if s < SHARDS && st.phase[s].Evicting? && |st.c.order[s]| > 0 then
        var c := PopOldest(st.c, s);
        State(c, st.phase[s := Settle(cfg, c, s)])
      else st
    case Swept(k, w) =>
      var s := cfg.Shard(k.path);
      if st.phase[s].Idle? then st.(c := SweepKey(st.c, s, w, k)) else st
    case Touch(k, now) =>
      st.(c := Touched(st.c, k, now))
  }

  function Empty(): State {
    State(EmptyCache(), seq(SHARDS, _ => Idle))
  }

  function Run(cfg: Config, events: seq<Event>): (st: State)
    ensures st.Shape()
  {
    if events == [] then Empty() else Step(cfg, Run(cfg, events[..|events| - 1]), events[|events| - 1])
  }

  // ---- the budget under every interleaving ----

  /** The sizes of the shards that no Put is working on and that hold more than one chunk. */
  function Rested(st: State): seq<int>
    requires st.Shape()
  {
    seq(SHARDS, s requires 0 <= s < SHARDS => if st.phase[s].Idle? && |st.c.order[s]| > 1 then st.c.total[s] else 0)
  }

  ghost predicate PhaseOk(cfg: Config, st: State, s: nat)
    requires st.Shape() && s < SHARDS
  {
    match st.phase[s]
    case Idle => true
    case Adding(k, _) => cfg.Shard(k.path) == s && k !in st.c.chunks
    case Evicting => |st.c.order[s]| > 1
  }

  ghost predicate Inv(cfg: Config, st: State) {
    && st.Shape() && Accounted(cfg, st.c)
    && (forall s | 0 <= s < SHARDS :: PhaseOk(cfg, st, s))
    && Sum(Rested(st)) <= cfg.budget
  }

  /** A step on shard s that shrinks what it rests with, or that ends within the budget, keeps the bound. */
  lemma RestedStep(cfg: Config, st: State, st': State, s: nat)
    requires Inv(cfg, st) && st'.Shape() && Accounted(cfg, st'.c) && s < SHARDS
    requires forall t | 0 <= t < SHARDS && t != s ::
               st'.c.order[t] == st.c.order[t] && st'.c.total[t] == st.c.total[t] && st'.phase[t] == st.phase[t]
    requires st'.c.used <= cfg.budget || Rested(st')[s] <= Rested(st)[s] || Rested(st')[s] <= 0
    ensures Sum(Rested(st')) <= cfg.budget
  {
    SinglesNonNegative(cfg, st.c);
    SinglesNonNegative(cfg, st'.c);
    if st'.c.used <= cfg.budget {
      SumLe(Rested(st'), st'.c.total);
    } else {
      SumLe(Rested(st'), Rested(st));
    }
  }

  lemma BeginKeeps(cfg: Config, st: State, k: Key, b: Chunk)
    requires Inv(cfg, st)
    ensures Inv(cfg, Step(cfg, st, Begin(k, b)))
  {
    var s := cfg.Shard(k.path);
    var st' := Step(cfg, st, Begin(k, b));
    OverwriteKeeps(cfg, st.c, k);
    RestedStep(cfg, st, st', s);
    assert forall t | 0 <= t < SHARDS :: PhaseOk(cfg, st, t) ==> PhaseOk(cfg, st', t);
  }

  lemma AddKeeps(cfg: Config, st: State, s: nat)
    requires Inv(cfg, st)
    ensures Inv(cfg, Step(cfg, st, Add(s)))
  {
    if s < SHARDS && st.phase[s].Adding? {
      assert PhaseOk(cfg, st, s);
      var st' := Step(cfg, st, Add(s));
      InsertKeeps(cfg, st.c, st.phase[s].key, st.phase[s].chunk);
      RestedStep(cfg, st, st', s);
      forall t | 0 <= t < SHARDS
        ensures PhaseOk(cfg, st', t)
      {
        assert PhaseOk(cfg, st, t);
      }
    }
  }

  lemma PopKeeps(cfg: Config, st: State, s: nat)
    requires Inv(cfg, st)
    ensures Inv(cfg, Step(cfg, st, Pop(s)))
  {
    if s < SHARDS && st.phase[s].Evicting? && |st.c.order[s]| > 0 {
      var st' := Step(cfg, st, Pop(s));
      PopOldestKeeps(cfg, st.c, s);
      RestedStep(cfg, st, st', s);
      forall t | 0 <= t < SHARDS
        ensures PhaseOk(cfg, st', t)
      {
        assert PhaseOk(cfg, st, t);
      }
    }
  }

  lemma SweptKeeps(cfg: Config, st: State, k: Key, w: Sweep)
    requires Inv(cfg, st)
    ensures Inv(cfg, Step(cfg, st, Swept(k, w)))
  {
    var s := cfg.Shard(k.path);
    if st.phase[s].Idle? {
      var st' := Step(cfg, st, Swept(k, w));
      SweepKeyKeeps(cfg, st.c, w, k);
      SinglesNonNegative(cfg, st.c);
      SinglesNonNegative(cfg, st'.c);
      RestedStep(cfg, st, st', s);
      forall t | 0 <= t < SHARDS
        ensures PhaseOk(cfg, st', t)
      {
        assert PhaseOk(cfg, st, t);
      }
    }
  }

  lemma TouchKeeps(cfg: Config, st: State, k: Key, now: int)
    requires Inv(cfg, st)
    ensures Inv(cfg, Step(cfg, st, Touch(k, now)))
  {
    var st' := Step(cfg, st, Touch(k, now));
    TouchedKeeps(cfg, st.c, k, now);
    assert forall s | 0 <= s < SHARDS :: PhaseOk(cfg, st, s) ==> PhaseOk(cfg, st', s);
    assert Rested(st') == Rested(st);
  }

  lemma EmptyInv(cfg: Config)
    ensures Inv(cfg, Empty())
  {
    EmptyAccounted(cfg);
    ZeroSum(Rested(Empty()));
  }

  lemma StepKeeps(cfg: Config, st: State, e: Event)
    requires Inv(cfg, st)
    ensures Inv(cfg, Step(cfg, st, e))
  {
    match e
    case Begin(k, b) => BeginKeeps(cfg, st, k, b);
    case Add(s) => AddKeeps(cfg, st, s);
    case Pop(s) => PopKeeps(cfg, st, s);
    case Swept(k, w) => SweptKeeps(cfg, st, k, w);
    case Touch(k, now) => TouchKeeps(cfg, st, k, now);
  }

  /** In every interleaving the byte count is the sum of the cached chunks' sizes. */
  lemma {:induction false} RunInv(cfg: Config, events: seq<Event>)
    ensures Inv(cfg, Run(cfg, events))
  {
    if events == [] {
      EmptyInv(cfg);
    } else {
      RunInv(cfg, events[..|events| - 1]);
      StepKeeps(cfg, Run(cfg, events[..|events| - 1]), events[|events| - 1]);
    }
  }

  /** Whenever no Put is under way the cache is over budget by its single-chunk shards at most: with chunks of
      at most `max` bytes, by one chunk a shard. */
  lemma RunBounded(cfg: Config, events: seq<Event>, max: nat)
    requires forall s | 0 <= s < SHARDS :: Run(cfg, events).phase[s].Idle?
    requires forall k | k in Run(cfg, events).c.chunks :: |Run(cfg, events).c.chunks[k].data| <= max
    ensures Bounded(cfg, Run(cfg, events).c)
    ensures Run(cfg, events).c.used <= cfg.budget + SHARDS * max
  {
    RunInv(cfg, events);
    var st := Run(cfg, events);
    assert Rested(st) == Multi(st.c);
    OverBudgetBound(cfg, st.c, max);
  }

  // ---- a Put is its steps ----

  function Pops(n: nat, s: nat): seq<Event> {
    if n == 0 then [] else [Pop(s)] + Pops(n - 1, s)
  }

  function From(cfg: Config, st: State, events: seq<Event>): (st': State)
    requires st.Shape()
    ensures st'.Shape()
    decreases events
  {
    if events == [] then st else From(cfg, Step(cfg, st, events[0]), events[1..])
  }

  /** Eviction, step by step, is Evict. */
  lemma {:induction false} EvictIsPops(cfg: Config, st: State, s: nat) returns (n: nat)
    requires st.Shape() && s < SHARDS && st.phase[s] == Settle(cfg, st.c, s)
    ensures From(cfg, st, Pops(n, s)) == State(Evict(cfg, st.c, s), st.phase[s := Idle])
    decreases |st.c.order[s]|
  {
    if st.phase[s].Idle? {
      n := 0;
      assert st.phase[s := Idle] == st.phase;
    } else {
      var st' := Step(cfg, st, Pop(s));
      var m := EvictIsPops(cfg, st', s);
      n := m + 1;
      assert ([Pop(s)] + Pops(m, s))[1..] == Pops(m, s);
      assert st'.phase[s := Idle] == st.phase[s := Idle];
    }
  }

  /** Undisturbed, the steps of a Put add up to Put and leave its shard idle. */
  lemma PutIsSteps(cfg: Config, st: State, k: Key, b: Chunk) returns (n: nat)
    requires st.Shape() && st.phase[cfg.Shard(k.path)].Idle?
    ensures From(cfg, st, [Begin(k, b), Add(cfg.Shard(k.path))] + Pops(n, cfg.Shard(k.path))) ==
            State(Put(cfg, st.c, k, b), st.phase)
  {
    var s := cfg.Shard(k.path);
    var st1 := Step(cfg, st, Begin(k, b));
    var st2 := Step(cfg, st1, Add(s));
    n := EvictIsPops(cfg, st2, s);
    var events := [Begin(k, b), Add(s)] + Pops(n, s);
    assert events[1..][1..] == Pops(n, s);
    assert events[1..][0] == Add(s);
    assert st2.phase[s := Idle] == st.phase;
  }

  // ---- truth under every interleaving ----

  ghost predicate PendingTrue(st: State, files: map<string, seq<Byte>>) {
    && Truthful(st.c, files)
    && forall p | p in st.phase && p.Adding? :: ChunkTrue(p.key.path, p.chunk, files)
  }

  lemma StepTrue(cfg: Config, st: State, e: Event, files: map<string, seq<Byte>>)
    requires Inv(cfg, st) && PendingTrue(st, files)
    requires e.Begin? ==> ChunkTrue(e.key.path, e.chunk, files)
    ensures PendingTrue(Step(cfg, st, e), files)
  {
    var st' := Step(cfg, st, e);
    forall p | p in st'.phase && p.Adding?
      ensures ChunkTrue(p.key.path, p.chunk, files)
    {
      var s :| 0 <= s < |st'.phase| && st'.phase[s] == p;
      assert st.phase[s] in st.phase;
    }
    forall k | k in st'.c.chunks
      ensures ChunkTrue(k.path, st'.c.chunks[k], files)
    {
      if e.Add? && e.shard < SHARDS {
        assert st.phase[e.shard] in st.phase;
      }
      assert k in st.c.chunks ==> ChunkTrue(k.path, st.c.chunks[k], files);
    }
  }

  lemma {:induction false} RunTrue(cfg: Config, events: seq<Event>, files: map<string, seq<Byte>>)
    requires forall e | e in events && e.Begin? :: ChunkTrue(e.key.path, e.chunk, files)
    ensures PendingTrue(Run(cfg, events), files)
  {
    if events != [] {
      var before := events[..|events| - 1];
      RunTrue(cfg, before, files);
      RunInv(cfg, before);
      assert events[|events| - 1] in events;
      StepTrue(cfg, Run(cfg, before), events[|events| - 1], files);
    }
  }

  /** In every run of true stores, under whatever keys their chunk sizes gave them, a hit under any chunk sizes, also
      two different ones for its two keys, is exactly the file's bytes. */
  lemma HitsTrue(cfg: Config, events: seq<Event>, files: map<string, seq<Byte>>, path: string, size: nat, size2: nat,
                 off: nat, end: int)
    requires forall e | e in events && e.Begin? :: ChunkTrue(e.key.path, e.chunk, files)
    requires size > 0 && size2 > 0 && off <= end + 1
    ensures var c := Run(cfg, events).c;
            ChunksOk(c) && match LookupWith(c, path, size, size2, off, end)
                           case None => true
                           case Some(bytes) =>
                             path in files && end < |files[path]| && bytes == files[path][off..end + 1]
  {
    RunTrue(cfg, events, files);
    HitTruthful(Run(cfg, events).c, files, path, size, size2, off, end);
  }
}
