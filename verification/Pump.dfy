/** The pump of main.go: it reads a file chunk by chunk ahead of the player into the read-ahead cache. */
module Pump {
  import opened Wrappers
  import opened CacheModel
  import opened Collections
  import Layouts

  /** A pump's file: its path and size, and the path's chunk size. */
  datatype File = File(path: string, size: nat, cs: nat) {
    function Index(off: nat): nat
      requires cs > 0
    {
      off / cs
    }
  }

  /** One ReadAt: the bytes it delivered and whether it failed. */
  datatype Fetch = Fetch(data: seq<Byte>, err: bool)

  /** The cache, the pump's offset and the furthest player position reported so far; and on record, per chunk number,
      the bytes a read last delivered, and the chunks passed over because the warmup store has them or a read fell
      short. */
  datatype State = State(c: Cache, offset: nat, top: nat, last: map<nat, seq<Byte>>, skipped: set<nat>)

  /** A turn of the pump loop sees a player position, the warmup store's answer, the outcome of a read, the
      session and the time; reads of the player only mark chunks as used. */
  datatype Event =
    | Turn(player: nat, warm: bool, fetch: Fetch, session: int, now: int)
    | PlayerRead(key: Key, at: int)

  function Min(a: int, b: int): int {
    if a <= b then a else b
  }

  function Max(a: int, b: int): (c: int)
    ensures c == a || c == b
  {
    if a <= b then b else a
  }

  function PumpLeadLimit(budget: int, chunkSize: int): (lead: int)
  {
    if budget <= 0 || chunkSize <= 0 then budget
    else Min(Max(budget - Min(3 * chunkSize, budget / 2), chunkSize), budget)
  }

  /** The limit keeps three chunks of the budget free when that leaves at least half of it, and still two, or all but
      two chunks, of a budget of at least three; it is never less than a chunk unless the budget is, and never more
      than the budget. */
  lemma LeadReserve(budget: int, chunkSize: int)
    requires budget > 0 && chunkSize > 0
    ensures var lead := PumpLeadLimit(budget, chunkSize);
            && Min(chunkSize, budget) <= lead <= budget && 2 * lead >= budget
            && (budget >= 6 * chunkSize ==> lead == budget - 3 * chunkSize)
            && (budget >= 4 * chunkSize ==> lead <= budget - 2 * chunkSize)
            && (3 * chunkSize <= budget < 4 * chunkSize ==> lead <= 2 * chunkSize)
  {
  }

  predicate StrandedAhead(offset: int, player: int, budget: int) {
    player > 0 && budget > 0 && offset > player + 2 * budget
  }

  /** Where the pump goes on from: it snaps to the player when it is too far behind or stranded ahead. */
  function Anchor(budget: nat, cs: nat, offset: nat, player: nat): nat
    requires cs > 0
  {
    if player > offset + budget || StrandedAhead(offset, player, budget) then
      Layouts.DivFloor(player, cs);
      player / cs * cs
    else offset
  }

  /** The pump goes on from where it was, on the grid if it was there, unless it was more than the budget behind
      the player or more than twice the budget ahead; then from the start of the player's chunk. */
  lemma AnchorNear(budget: nat, cs: nat, offset: nat, player: nat)
    requires 0 < cs <= budget
    ensures var o := Anchor(budget, cs, offset, player);
            && player <= o + budget && (player > 0 ==> o <= player + 2 * budget)
            && (o == offset || (o % cs == 0 && o <= player < o + cs))
            && (player > offset + budget ==> offset <= o <= player)
            && (player <= offset + budget && (offset <= player + 2 * budget || player == 0) ==> o == offset)
  {
    Layouts.DivFloor(player, cs);
    Layouts.DivUnique(player / cs * cs, cs, player / cs);
  }

  /** What a turn makes of the cache, whether it gives up for now, and where it goes on. */
  datatype Outcome = Outcome(c: Cache, stop: bool, next: nat)

  function End(f: File, offset: nat): nat {
    Min(offset + f.cs, f.size)
  }

  predicate IsCovered(f: File, c: Cache, offset: nat)
    requires f.cs > 0 && ChunksOk(c) && offset < f.size
  {
    Lookup(c, f.path, f.cs, offset, End(f, offset) - 1).Some?
  }

  /** Where a read of n bytes at `offset` leaves the pump: behind them if it was full, else on the next chunk. */
  function Advance(f: File, offset: nat, n: nat): nat
    requires f.cs > 0
  {
    var got := offset + n;
    if got < End(f, offset) then
      Layouts.DivFloor(got, f.cs);
      got / f.cs * f.cs + f.cs
    else got
  }

  function Write(cfg: Config, f: File, c: Cache, offset: nat, e: Event): Cache
    requires f.cs > 0 && |c.order| == |c.total| == SHARDS && e.Turn?
  {
    var n := |e.fetch.data|;
    if n > 0 then
      Put(cfg, c, Key(f.path, f.Index(offset)), Chunk(offset, offset + n - 1, e.fetch.data, e.session, e.now))
    else c
  }

  /** nativePumpChunk. */
  function PumpChunk(cfg: Config, f: File, c: Cache, offset: nat, e: Event): Outcome
    requires f.cs > 0 && |c.order| == |c.total| == SHARDS && ChunksOk(c) && e.Turn?
  {
    if offset >= f.size then Outcome(c, true, offset)
    else if offset - e.player > PumpLeadLimit(cfg.budget, f.cs) then Outcome(c, false, offset)
    else if IsCovered(f, c, offset) then
      Outcome(ReadTouched(c, f.path, f.cs, offset, End(f, offset) - 1, e.now), false, offset + f.cs)
    else if e.warm then Outcome(c, false, offset + f.cs)
    else
      var n := |e.fetch.data|;
      var c' := Write(cfg, f, c, offset, e);
      if e.fetch.err then Outcome(c', true, offset + n)
      else Outcome(c', false, Advance(f, offset, n))
  }

  /** The pump may work at `offset`: it is in the file and not too far ahead of the player. */
  predicate MayPump(cfg: Config, f: File, offset: nat, player: nat) {
    offset < f.size && offset <= player + PumpLeadLimit(cfg.budget, f.cs)
  }

  /** Every byte of the chunk at `offset` is cached. */
  ghost predicate Full(f: File, c: Cache, offset: nat)
    requires f.cs > 0
  {
    forall x: nat | offset <= x < End(f, offset) :: Cached(c, f.path, f.cs, x)
  }

  /** A turn has to read: the pump may work and neither cache nor warmup store has the chunk. */
  ghost predicate Reads(cfg: Config, f: File, st: State, e: Event)
    requires f.cs > 0 && e.Turn?
  {
    MayPump(cfg, f, st.offset, e.player) && !Full(f, st.c, st.offset) && !e.warm
  }

  /** What reads have delivered, by chunk number. */
  ghost function Delivered(cfg: Config, f: File, st: State, e: Event): map<nat, seq<Byte>>
    requires f.cs > 0 && e.Turn?
  {
    if Reads(cfg, f, st, e) && e.fetch.data != [] then st.last[f.Index(st.offset) := e.fetch.data] else st.last
  }

  /** A turn leaves a chunk behind that is not in the cache as a whole. */
  ghost predicate Skips(cfg: Config, f: File, st: State, e: Event)
    requires f.cs > 0 && e.Turn?
  {
    && MayPump(cfg, f, st.offset, e.player) && !Full(f, st.c, st.offset)
    && (e.warm || (!e.fetch.err && st.offset + |e.fetch.data| < End(f, st.offset)))
  }

  /** A turn from where the pump stands, with what it leaves on record. */
  ghost function Pumped(cfg: Config, f: File, st: State, e: Event): State
    requires f.cs > 0 && |st.c.order| == |st.c.total| == SHARDS && ChunksOk(st.c) && e.Turn?
  {
    var o := PumpChunk(cfg, f, st.c, st.offset, e);
    State(o.c, if o.stop then st.offset else o.next, st.top, Delivered(cfg, f, st, e),
          if Skips(cfg, f, st, e) then st.skipped + {f.Index(st.offset)} else st.skipped)
  }

  /** The pump takes up the player's position. */
  function Anchored(cfg: Config, f: File, st: State, player: nat): State
    requires f.cs > 0
  {
    st.(offset := Anchor(cfg.budget, f.cs, st.offset, player), top := Max(st.top, player))
  }

  ghost function Step(cfg: Config, f: File, st: State, e: Event): State
    requires f.cs > 0 && |st.c.order| == |st.c.total| == SHARDS && ChunksOk(st.c)
  {
    match e
    case PlayerRead(k, at) => st.(c := Touched(st.c, k, at))
    case Turn(player, _, _, _, _) => Pumped(cfg, f, Anchored(cfg, f, st, player), e)
  }

  /** ReadAt delivers at most what was asked for. */
  predicate Deliverable(cfg: Config, f: File, st: State, e: Event)
    requires f.cs > 0 && e.Turn?
  {
    var offset := Anchor(cfg.budget, f.cs, st.offset, e.player);
    offset < f.size ==> |e.fetch.data| <= End(f, offset) - offset
  }

  // ---- what every turn keeps ----

  ghost predicate Ascending(o: seq<Key>) {
    forall i, j | 0 <= i < j < |o| :: o[i].index < o[j].index
  }

  /** Every chunk is the last write of its number, on the grid and not past the offset. */
  ghost predicate ChunkKept(f: File, st: State, k: Key)
    requires k in st.c.chunks
  {
    var b := st.c.chunks[k];
    && k.path == f.path && k.index in st.last && b.data == st.last[k.index]
    && b.start == k.index * f.cs && ChunkOk(b) && |b.data| <= f.cs && b.start <= st.offset
  }

  /** The chunk's bytes lie wholly behind the player. */
  predicate Behind(f: File, index: nat, player: nat) {
    (index + 1) * f.cs <= player
  }

  ghost predicate Inv(cfg: Config, f: File, st: State) {
    && f.cs > 0 && Accounted(cfg, st.c)
    && (forall k | k in st.c.chunks :: ChunkKept(f, st, k))
    && Ascending(st.c.order[cfg.Shard(f.path)])
    && st.c.used <= cfg.budget
    && (st.offset % f.cs == 0 || st.offset >= f.size)
    && st.offset <= st.top + PumpLeadLimit(cfg.budget, f.cs) + f.cs
    && (forall i | i in st.last :: |st.last[i]| <= f.cs)
    && (forall i | i in st.last && !Behind(f, i, st.top) :: Key(f.path, i) in st.c.chunks)
    && (forall i: nat | i * f.cs < st.offset && !Behind(f, i, st.top) :: Passed(f, st, i))
  }

  /** Chunk i was passed over, or was delivered as a whole, or lies past the file's end. */
  ghost predicate Passed(f: File, st: State, i: nat) {
    i in st.skipped || i * f.cs >= f.size || (i in st.last && i * f.cs + |st.last[i]| >= End(f, i * f.cs))
  }

  /** One path means one shard in use. */
  lemma OneShard(cfg: Config, f: File, c: Cache)
    requires Accounted(cfg, c) && forall k | k in c.chunks :: k.path == f.path
    ensures var s := cfg.Shard(f.path); ShardOk(cfg, c, s) && c.used == c.total[s]
  {
    var s := cfg.Shard(f.path);
    forall t | 0 <= t < SHARDS && t != s
      ensures c.total[t] == 0
    {
      assert ShardOk(cfg, c, t);
      NonEmpty(c.order[t]);
    }
    assert ShardOk(cfg, c, s);
    SumOne(c.total, s);
  }

  lemma {:induction false} SumOne(s: seq<int>, i: nat)
    requires i < |s| && forall j | 0 <= j < |s| && j != i :: s[j] == 0
    ensures Sum(s) == s[i]
  {
    if i == 0 {
      ZeroSum(s[1..]);
    } else {
      SumOne(s[1..], i - 1);
    }
  }

  /** Ascending chunks of at most cs bytes take at most cs bytes a number. */
  lemma {:induction false} AscendingSum(o: seq<Key>, chunks: map<Key, Chunk>, cs: nat, hi: nat)
    requires o != [] && Ascending(o)
    requires forall k | k in o :: k in chunks && |chunks[k].data| <= cs && k.index <= hi
    ensures o[0].index <= hi && SizeSum(o, chunks) <= (hi - o[0].index + 1) * cs
  {
    assert o[0] in o;
    if |o| == 1 {
      assert o[1..] == [];
      Layouts.MulLe(1, hi - o[0].index + 1, cs);
    } else {
      assert o[1..][0] == o[1];
      AscendingSum(o[1..], chunks, cs, hi);
      Layouts.MulLe(hi - o[1].index + 2, hi - o[0].index + 1, cs);
      assert (hi - o[1].index + 2) * cs == (hi - o[1].index + 1) * cs + cs;
    }
  }

  /** Eviction takes no chunk numbered `low` or more when the chunks from `low` on fit in the budget. */
  lemma {:induction false} EvictSpares(cfg: Config, f: File, c: Cache, low: nat, hi: nat)
    requires Accounted(cfg, c) && Ascending(c.order[cfg.Shard(f.path)])
    requires forall k | k in c.chunks :: k.path == f.path && |c.chunks[k].data| <= f.cs && k.index <= hi
    requires low <= hi ==> (hi - low + 1) * f.cs <= cfg.budget
    ensures var c' := Evict(cfg, c, cfg.Shard(f.path));
            && Ascending(c'.order[cfg.Shard(f.path)])
            && forall k | k in c.chunks && k.index >= low :: k in c'.chunks
    decreases |c.order[cfg.Shard(f.path)]|
  {
    var s := cfg.Shard(f.path);
    if c.used > cfg.budget && |c.order[s]| > 1 {
      OneShard(cfg, f, c);
      assert ShardOk(cfg, c, s);
      AscendingSum(c.order[s], c.chunks, f.cs, hi);
      var first := c.order[s][0].index;
      if first >= low {
        Layouts.MulLe(hi - first + 1, hi - low + 1, f.cs);
        assert false;
      }
      PopOldestKeeps(cfg, c, s);
      EvictSpares(cfg, f, PopOldest(c, s), low, hi);
    }
  }

  lemma Between(p: nat, o: nat, cs: nat)
    requires p < o
    ensures (o - p - 1) * cs == o * cs - p * cs - cs && (o - p + 1) * cs == (o - p - 1) * cs + 2 * cs
  {
  }

  lemma AtMostOne(d: nat, cs: nat)
    requires d * cs < 2 * cs
    ensures d * cs <= cs
  {
    if d >= 2 {
      Layouts.MulLe(2, d, cs);
    } else {
      Layouts.MulLe(d, 1, cs);
    }
  }

  /** With a budget of three chunks or more, the chunks from the player's to the one the pump may write fit. */
  lemma LeadFits(budget: nat, cs: nat, player: nat, offset: nat)
    requires cs > 0 && budget >= 3 * cs && offset % cs == 0
    requires offset - player <= PumpLeadLimit(budget, cs)
    ensures player / cs <= offset / cs ==> (offset / cs - player / cs + 1) * cs <= budget
  {
    hide PumpLeadLimit;
    LeadReserve(budget, cs);
    var p, o := player / cs, offset / cs;
    Layouts.DivFloor(player, cs);
    Layouts.DivFloor(offset, cs);
    if p < o {
      Between(p, o, cs);
      if budget < 4 * cs {
        AtMostOne(o - p - 1, cs);
      }
    }
  }

  lemma AscendingTail(o: seq<Key>)
    requires Ascending(o) && o != []
    ensures Ascending(o[1..]) && forall x | x in o[1..] :: o[0].index < x.index
  {
  }

  lemma AscendingCons(x: Key, w: seq<Key>)
    requires Ascending(w) && forall y | y in w :: x.index < y.index
    ensures Ascending([x] + w)
  {
  }

  lemma {:induction false} AscendingWithout(o: seq<Key>, k: Key)
    requires Ascending(o)
    ensures Ascending(Without(o, k)) && forall x | x in Without(o, k) :: x in o
  {
    hide Ascending;
    if o != [] {
      AscendingTail(o);
      AscendingWithout(o[1..], k);
      AscendingCons(o[0], Without(o[1..], k));
    }
  }

  lemma AtMost(i: nat, cs: nat, off: nat)
    requires cs > 0 && i * cs <= off
    ensures i <= off / cs
  {
    Layouts.DivFloor(off, cs);
    if i > off / cs {
      Layouts.MulLe(off / cs + 1, i, cs);
    }
  }

  /** Cached chunks are numbered up to the one at the offset. */
  lemma Numbered(cfg: Config, f: File, st: State, k: Key)
    requires Inv(cfg, f, st) && k in st.c.chunks
    ensures k.index <= f.Index(st.offset)
  {
    hide Accounted, Ascending, PumpLeadLimit;
    assert ChunkKept(f, st, k);
    AtMost(k.index, f.cs, st.offset);
  }

  /** The cache between adding the chunk at the offset and evicting. */
  function Added(cfg: Config, f: File, st: State, b: Chunk): (c: Cache)
    requires f.cs > 0 && |st.c.order| == |st.c.total| == SHARDS
    ensures |c.order| == |c.total| == SHARDS
  {
    var k, s := Key(f.path, f.Index(st.offset)), cfg.Shard(f.path);
    Insert(Overwrite(st.c, s, k), s, k, b)
  }

  lemma AddedKeeps(cfg: Config, f: File, st: State, b: Chunk)
    requires Inv(cfg, f, st) && st.offset % f.cs == 0 && |b.data| <= f.cs
    ensures var c := Added(cfg, f, st, b); var i := f.Index(st.offset);
            && Accounted(cfg, c) && Ascending(c.order[cfg.Shard(f.path)])
            && (forall k | k in c.chunks :: k.path == f.path && |c.chunks[k].data| <= f.cs && k.index <= i)
            && (forall k :: k in c.chunks <==> k in st.c.chunks || k == Key(f.path, i))
            && (forall k | k in c.chunks :: c.chunks[k] == if k == Key(f.path, i) then b else st.c.chunks[k])
  {
    hide Sum, SizeSum, Without, File.Index;
    var k, s := Key(f.path, f.Index(st.offset)), cfg.Shard(f.path);
    var c1 := Overwrite(st.c, s, k);
    OverwriteKeeps(cfg, st.c, k);
    InsertKeeps(cfg, c1, k, b);
    AscendingWithout(st.c.order[s], k);
    forall x | x in c1.chunks
      ensures x.path == f.path && x.index < k.index && |c1.chunks[x].data| <= f.cs
    {
      assert ChunkKept(f, st, x);
      Numbered(cfg, f, st, x);
    }
    assert ShardOk(cfg, c1, s);
    AscendingAppend(c1.order[s], k);
  }

  lemma AscendingAppend(o: seq<Key>, k: Key)
    requires Ascending(o) && forall x | x in o :: x.index < k.index
    ensures Ascending(o + [k])
  {
  }

  lemma SmallEnough(cfg: Config, f: File, c: Cache)
    requires Accounted(cfg, c) && f.cs <= cfg.budget
    requires forall k | k in c.chunks :: k.path == f.path && |c.chunks[k].data| <= f.cs
    requires c.used <= cfg.budget || |c.order[cfg.Shard(f.path)]| <= 1
    ensures c.used <= cfg.budget
  {
    OneShard(cfg, f, c);
    var o := c.order[cfg.Shard(f.path)];
    if |o| == 1 {
      assert o[0] in o && SizeSum(o[1..], c.chunks) == 0;
    }
  }

  lemma IndexStart(f: File, offset: nat)
    requires f.cs > 0 && offset % f.cs == 0
    ensures f.Index(offset) * f.cs == offset
  {
    Layouts.DivFloor(offset, f.cs);
  }

  /** The chunks left after a write are the last writes of their numbers. */
  lemma WrittenKept(f: File, st: State, b: Chunk, k: Key, c: Cache)
    requires f.cs > 0 && st.offset % f.cs == 0 && |b.data| <= f.cs && b.start == st.offset && ChunkOk(b)
             && k in c.chunks
    requires if k == Key(f.path, f.Index(st.offset)) then c.chunks[k] == b
             else k in st.c.chunks && c.chunks[k] == st.c.chunks[k] && ChunkKept(f, st, k)
    ensures ChunkKept(f, st.(c := c, last := st.last[f.Index(st.offset) := b.data]), k)
  {
    IndexStart(f, st.offset);
  }

  /** The budget half of a write: what the cache holds after it, and that it is within the budget. */
  lemma WriteFits(cfg: Config, f: File, st: State, b: Chunk)
    requires Inv(cfg, f, st) && cfg.budget >= 3 * f.cs && st.offset % f.cs == 0 && |b.data| <= f.cs
    requires st.offset - st.top <= PumpLeadLimit(cfg.budget, f.cs)
    ensures var i, s, low := f.Index(st.offset), cfg.Shard(f.path), f.Index(st.top);
            var c := Put(cfg, st.c, Key(f.path, i), b);
            && Accounted(cfg, c) && Ascending(c.order[s]) && c.used <= cfg.budget
            && (forall k | k in c.chunks :: k in st.c.chunks || k == Key(f.path, i))
            && (forall k | k in c.chunks :: c.chunks[k] == if k == Key(f.path, i) then b else st.c.chunks[k])
            && (forall k: Key | k.index >= low && (k in st.c.chunks || k == Key(f.path, i)) :: k in c.chunks)
  {
    hide Insert, Overwrite, Evict, PumpLeadLimit, Ascending, ChunkKept, Behind, ShardOk, Sum, File.Index;
    var i, s, low := f.Index(st.offset), cfg.Shard(f.path), f.Index(st.top);
    var c := Added(cfg, f, st, b);
    AddedKeeps(cfg, f, st, b);
    IndexFits(cfg, f, st);
    EvictSpares(cfg, f, c, low, i);
    EvictKeeps(cfg, c, s);
    SmallEnough(cfg, f, Evict(cfg, c, s));
  }

  lemma IndexFits(cfg: Config, f: File, st: State)
    requires Inv(cfg, f, st) && cfg.budget >= 3 * f.cs && st.offset % f.cs == 0
    requires st.offset - st.top <= PumpLeadLimit(cfg.budget, f.cs)
    ensures f.cs > 0 && (f.Index(st.top) <= f.Index(st.offset) ==>
              (f.Index(st.offset) - f.Index(st.top) + 1) * f.cs <= cfg.budget)
  {
    hide PumpLeadLimit, Accounted, Ascending, ChunkKept, Behind;
    LeadFits(cfg.budget, f.cs, st.top, st.offset);
  }

  /** Writing a chunk at the offset loses no chunk that the player has not left behind, and leaves the cache
      within the budget. */
  lemma WriteKeeps(cfg: Config, f: File, st: State, b: Chunk)
    requires Inv(cfg, f, st) && cfg.budget >= 3 * f.cs && st.offset % f.cs == 0 && |b.data| <= f.cs
    requires b.start == st.offset && ChunkOk(b)
    requires st.offset - st.top <= PumpLeadLimit(cfg.budget, f.cs)
    ensures var i := f.Index(st.offset);
            Inv(cfg, f, st.(c := Put(cfg, st.c, Key(f.path, i), b), last := st.last[i := b.data]))
  {
    hide Put, PumpLeadLimit, Ascending, ChunkKept, Behind, ShardOk, Sum, File.Index;
    var i := f.Index(st.offset);
    var c := Put(cfg, st.c, Key(f.path, i), b);
    WriteFits(cfg, f, st, b);
    forall k | k in c.chunks
      ensures ChunkKept(f, st.(c := c, last := st.last[i := b.data]), k)
    {
      WrittenKept(f, st, b, k, c);
    }
    forall j | j in st.last[i := b.data] && !Behind(f, j, st.top)
      ensures Key(f.path, j) in c.chunks
    {
      NotBehind(f, j, st.top);
    }
    IndexStart(f, st.offset);
    forall j: nat | j * f.cs < st.offset && !Behind(f, j, st.top)
      ensures Passed(f, st.(c := c, last := st.last[i := b.data]), j)
    {
      assert Passed(f, st, j);
    }
  }

  lemma NotBehind(f: File, i: nat, player: nat)
    requires f.cs > 0 && !Behind(f, i, player)
    ensures i >= f.Index(player)
  {
    Layouts.DivFloor(player, f.cs);
    if i < player / f.cs {
      Layouts.MulLe(i + 1, player / f.cs, f.cs);
    }
  }

  // ---- runs ----

  /** A full read ends at the next chunk or at the end of the file, a short one at the next chunk. */
  lemma AdvanceGrid(f: File, offset: nat, n: nat)
    requires f.cs > 0 && offset % f.cs == 0 && offset < f.size && n <= End(f, offset) - offset
    ensures var next := Advance(f, offset, n);
            offset <= next <= offset + f.cs && (next == offset + f.cs || next == f.size)
  {
    Layouts.DivFloor(offset, f.cs);
    var q := f.Index(offset);
    if n < f.cs {
      Layouts.DivUnique(offset + n, f.cs, q);
    }
  }

  lemma GridStep(cs: nat, offset: nat)
    requires cs > 0 && offset % cs == 0
    ensures (offset + cs) % cs == 0
  {
    Layouts.DivFloor(offset, cs);
    var q := offset / cs;
    assert (q + 1) * cs == q * cs + cs;
    Layouts.DivUnique(offset + cs, cs, q + 1);
  }

  /** Moving on past a chunk that was passed over or delivered, with the cache's chunks only touched, keeps the
      invariant. */
  lemma MoveKeeps(cfg: Config, f: File, st: State, c: Cache, next: nat)
    requires Inv(cfg, f, st) && st.offset <= next && (next % f.cs == 0 || next >= f.size)
    requires next <= st.top + PumpLeadLimit(cfg.budget, f.cs) + f.cs
    requires next == st.offset
             || (st.offset % f.cs == 0 && next <= st.offset + f.cs && Passed(f, st, f.Index(st.offset)))
    requires SameBytes(cfg, st.c, c)
    ensures Inv(cfg, f, st.(c := c, offset := next))
  {
    hide Accounted, Ascending, PumpLeadLimit, Behind, Passed;
    var st' := st.(c := c, offset := next);
    forall k | k in c.chunks
      ensures ChunkKept(f, st', k)
    {
      assert ChunkKept(f, st, k);
    }
    forall i: nat | i * f.cs < next && !Behind(f, i, st.top)
      ensures Passed(f, st', i)
    {
      if i * f.cs >= st.offset {
        OnlyChunk(f, st.offset, i);
      }
      SamePassed(f, st, st', i);
    }
  }

  lemma OnlyChunk(f: File, offset: nat, i: nat)
    requires f.cs > 0 && offset % f.cs == 0 && offset <= i * f.cs < offset + f.cs
    ensures i == f.Index(offset)
  {
    IndexStart(f, offset);
    var q := f.Index(offset);
    assert (q + 1) * f.cs == q * f.cs + f.cs;
    assert (i + 1) * f.cs == i * f.cs + f.cs;
    if i > q {
      Layouts.MulLe(q + 1, i, f.cs);
    } else if i < q {
      Layouts.MulLe(i + 1, q, f.cs);
    }
  }

  lemma SamePassed(f: File, st: State, st': State, i: nat)
    requires st'.skipped == st.skipped && st'.last == st.last && Passed(f, st, i)
    ensures Passed(f, st', i)
  {
  }

  /** The same cache but for access times. */
  ghost predicate SameBytes(cfg: Config, c: Cache, c': Cache) {
    && Accounted(cfg, c') && c'.order == c.order && c'.used == c.used && c'.chunks.Keys == c.chunks.Keys
    && forall k | k in c.chunks :: c'.chunks[k].(lastAccess := 0) == c.chunks[k].(lastAccess := 0)
  }

  lemma TouchedSame(cfg: Config, c: Cache, k: Key, now: int)
    requires Accounted(cfg, c)
    ensures SameBytes(cfg, c, Touched(c, k, now))
  {
    TouchedKeeps(cfg, c, k, now);
  }

  lemma ReadTouchedSame(cfg: Config, c: Cache, path: string, size: nat, off: nat, end: int, now: int)
    requires Accounted(cfg, c) && size > 0 && off <= end && ChunksOk(c)
    ensures SameBytes(cfg, c, ReadTouched(c, path, size, off, end, now))
  {
    hide Accounted, Touched, Lookup, At;
    TouchedSame(cfg, c, Key(path, off / size), now);
    TouchedSame(cfg, Touched(c, Key(path, off / size), now), Key(path, end / size), now);
  }

  lemma InvChunksOk(cfg: Config, f: File, st: State)
    requires Inv(cfg, f, st)
    ensures ChunksOk(st.c) && |st.c.order| == |st.c.total| == SHARDS
  {
    forall k | k in st.c.chunks
      ensures ChunkOk(st.c.chunks[k])
    {
      assert ChunkKept(f, st, k);
    }
  }

  /** Taking up the player's position. */
  lemma AnchorKeeps(cfg: Config, f: File, st: State, player: nat)
    requires Inv(cfg, f, st) && cfg.budget >= 3 * f.cs && !StrandedAhead(st.offset, player, cfg.budget)
    ensures Inv(cfg, f, Anchored(cfg, f, st, player))
  {
    hide Accounted, Ascending, PumpLeadLimit, Anchor, Behind, Passed;
    var st' := Anchored(cfg, f, st, player);
    AnchorNear(cfg.budget, f.cs, st.offset, player);
    LeadReserve(cfg.budget, f.cs);
    forall k | k in st'.c.chunks
      ensures ChunkKept(f, st', k)
    {
      assert ChunkKept(f, st, k);
    }
    forall i: nat
      ensures Behind(f, i, st.top) ==> Behind(f, i, st'.top)
    {
      BehindMore(f, i, st.top, st'.top);
    }
    forall i: nat | i * f.cs < st'.offset && !Behind(f, i, st'.top)
      ensures Passed(f, st', i)
    {
      if st'.offset != st.offset {
        JumpedOver(f, st'.offset, i, player);
        BehindMore(f, i, player, st'.top);
      }
      SamePassed(f, st, st', i);
    }
  }

  lemma BehindMore(f: File, i: nat, player: nat, player': nat)
    requires player <= player'
    ensures Behind(f, i, player) ==> Behind(f, i, player')
  {
  }

  /** A jump to the player's chunk leaves only chunks behind that the player has passed. */
  lemma JumpedOver(f: File, offset: nat, i: nat, player: nat)
    requires f.cs > 0 && offset % f.cs == 0 && offset <= player && i * f.cs < offset
    ensures Behind(f, i, player)
  {
    IndexStart(f, offset);
    var q := f.Index(offset);
    if i >= q {
      Layouts.MulLe(q, i, f.cs);
    }
    Layouts.MulLe(i + 1, q, f.cs);
  }

  lemma InvGridded(cfg: Config, f: File, st: State)
    requires Inv(cfg, f, st)
    ensures f.cs > 0 && ChunksOk(st.c) && Gridded(st.c, f.path, f.cs) && |st.c.order| == |st.c.total| == SHARDS
  {
    hide Accounted, Ascending, PumpLeadLimit;
    InvChunksOk(cfg, f, st);
    forall i: nat | Key(f.path, i) in st.c.chunks
      ensures st.c.chunks[Key(f.path, i)].start == i * f.cs && |st.c.chunks[Key(f.path, i)].data| <= f.cs
    {
      assert ChunkKept(f, st, Key(f.path, i));
    }
  }

  /** The cache covers a chunk exactly when it has all its bytes. */
  lemma CoveredFull(cfg: Config, f: File, st: State)
    requires Inv(cfg, f, st) && st.offset < f.size
    ensures ChunksOk(st.c) && (IsCovered(f, st.c, st.offset) <==> Full(f, st.c, st.offset))
  {
    hide Accounted, Ascending, PumpLeadLimit, Gridded, Cached, Lookup;
    InvGridded(cfg, f, st);
    var end := End(f, st.offset) - 1;
    IndexStart(f, st.offset);
    Layouts.DivUnique(end, f.cs, f.Index(st.offset));
    LookupIff(st.c, f.path, f.cs, st.offset, end);
  }

  /** A chunk the cache has as a whole was delivered as a whole. */
  lemma FullPassed(cfg: Config, f: File, st: State)
    requires Inv(cfg, f, st) && st.offset < f.size && Full(f, st.c, st.offset)
    ensures Passed(f, st, f.Index(st.offset))
  {
    hide Accounted, Ascending, PumpLeadLimit, Behind;
    var i, end := f.Index(st.offset), End(f, st.offset) - 1;
    IndexStart(f, st.offset);
    Layouts.DivUnique(end, f.cs, i);
    assert Cached(st.c, f.path, f.cs, end);
    assert ChunkKept(f, st, Key(f.path, i));
  }

  /** A turn whose read succeeds or fails after delivering something, but for where it leaves the offset. */
  ghost function Stored(cfg: Config, f: File, st: State, e: Event): State
    requires f.cs > 0 && |st.c.order| == |st.c.total| == SHARDS && e.Turn?
  {
    var i := f.Index(st.offset);
    st.(c := Write(cfg, f, st.c, st.offset, e),
        last := if e.fetch.data != [] then st.last[i := e.fetch.data] else st.last,
        skipped := if !e.fetch.err && st.offset + |e.fetch.data| < End(f, st.offset) then st.skipped + {i}
                   else st.skipped)
  }

  lemma SkipKeeps(cfg: Config, f: File, st: State, skipped: set<nat>)
    requires Inv(cfg, f, st) && st.skipped <= skipped
    ensures Inv(cfg, f, st.(skipped := skipped))
  {
    hide Accounted, Ascending, PumpLeadLimit, Behind;
    var st' := st.(skipped := skipped);
    forall k | k in st'.c.chunks
      ensures ChunkKept(f, st', k)
    {
      assert ChunkKept(f, st, k);
    }
  }

  lemma StoredKeeps(cfg: Config, f: File, st: State, e: Event)
    requires Inv(cfg, f, st) && cfg.budget >= 3 * f.cs && e.Turn? && e.player <= st.top
    requires MayPump(cfg, f, st.offset, e.player) && |e.fetch.data| <= End(f, st.offset) - st.offset
    ensures Inv(cfg, f, Stored(cfg, f, st, e))
    ensures !e.fetch.err ==> Passed(f, Stored(cfg, f, st, e), f.Index(st.offset))
  {
    hide Accounted, Ascending, PumpLeadLimit, Put, ChunkKept, Behind;
    InvChunksOk(cfg, f, st);
    var n, i := |e.fetch.data|, f.Index(st.offset);
    IndexStart(f, st.offset);
    var st1 := st;
    if n > 0 {
      var b := Chunk(st.offset, st.offset + n - 1, e.fetch.data, e.session, e.now);
      WriteKeeps(cfg, f, st, b);
      st1 := st.(c := Put(cfg, st.c, Key(f.path, i), b), last := st.last[i := b.data]);
    }
    SkipKeeps(cfg, f, st1, Stored(cfg, f, st, e).skipped);
  }

  lemma ChunkStepKeeps(cfg: Config, f: File, st: State, e: Event)
    requires Inv(cfg, f, st) && cfg.budget >= 3 * f.cs && e.Turn? && e.player <= st.top
    requires st.offset < f.size ==> |e.fetch.data| <= End(f, st.offset) - st.offset
    ensures ChunksOk(st.c) && Inv(cfg, f, Pumped(cfg, f, st, e))
  {
    hide Accounted, Ascending, PumpLeadLimit, Put, Lookup, ReadTouched, Advance, ChunkKept, Full, Behind, Passed;
    InvChunksOk(cfg, f, st);
    if MayPump(cfg, f, st.offset, e.player) {
      GridStep(f.cs, st.offset);
      CoveredFull(cfg, f, st);
      if Full(f, st.c, st.offset) {
        FullPassed(cfg, f, st);
        ReadTouchedSame(cfg, st.c, f.path, f.cs, st.offset, End(f, st.offset) - 1, e.now);
        MoveKeeps(cfg, f, st, ReadTouched(st.c, f.path, f.cs, st.offset, End(f, st.offset) - 1, e.now),
                  st.offset + f.cs);
      } else if e.warm {
        var st1 := st.(skipped := st.skipped + {f.Index(st.offset)});
        SkipKeeps(cfg, f, st, st1.skipped);
        SkippedPassed(f, st1, f.Index(st.offset));
        SameAsIs(cfg, st1.c);
        MoveKeeps(cfg, f, st1, st1.c, st.offset + f.cs);
      } else {
        StoredKeeps(cfg, f, st, e);
        var st1 := Stored(cfg, f, st, e);
        if !e.fetch.err {
          AdvanceGrid(f, st.offset, |e.fetch.data|);
          SameAsIs(cfg, st1.c);
          MoveKeeps(cfg, f, st1, st1.c, Advance(f, st.offset, |e.fetch.data|));
        }
      }
    }
  }

  lemma SkippedPassed(f: File, st: State, i: nat)
    requires i in st.skipped
    ensures Passed(f, st, i)
  {
  }

  lemma SameAsIs(cfg: Config, c: Cache)
    requires Accounted(cfg, c)
    ensures SameBytes(cfg, c, c)
  {
  }

  /** What a run may meet: reads that deliver no more than asked, and no stranded pump. */
  ghost predicate Calm(cfg: Config, f: File, st: State, e: Event)
    requires f.cs > 0
  {
    e.Turn? ==> Deliverable(cfg, f, st, e) && !StrandedAhead(st.offset, e.player, cfg.budget)
  }

  lemma StepKeeps(cfg: Config, f: File, st: State, e: Event)
    requires Inv(cfg, f, st) && cfg.budget >= 3 * f.cs && Calm(cfg, f, st, e)
    ensures ChunksOk(st.c) && Inv(cfg, f, Step(cfg, f, st, e))
  {
    hide Accounted, Ascending, PumpLeadLimit, Pumped, ChunkKept, Behind, Passed;
    InvChunksOk(cfg, f, st);
    match e
    case PlayerRead(k, at) =>
      TouchedSame(cfg, st.c, k, at);
      MoveKeeps(cfg, f, st, Touched(st.c, k, at), st.offset);
    case Turn(player, warm, fetch, session, now) =>
      AnchorKeeps(cfg, f, st, player);
      ChunkStepKeeps(cfg, f, Anchored(cfg, f, st, player), e);
  }

  /** A player that never moves back never strands the pump. */
  lemma ForwardCalm(cfg: Config, f: File, st: State, player: nat)
    requires Inv(cfg, f, st) && cfg.budget >= 3 * f.cs && player >= st.top
    ensures !StrandedAhead(st.offset, player, cfg.budget)
  {
    hide PumpLeadLimit;
    LeadReserve(cfg.budget, f.cs);
  }

  ghost predicate CalmRun(cfg: Config, f: File, st: State, events: seq<Event>)
    requires Inv(cfg, f, st) && cfg.budget >= 3 * f.cs
    decreases events
  {
    if events == [] then true
    else
      && Calm(cfg, f, st, events[0])
      && (StepKeeps(cfg, f, st, events[0]); CalmRun(cfg, f, Step(cfg, f, st, events[0]), events[1..]))
  }

  ghost function After(cfg: Config, f: File, st: State, events: seq<Event>): (st': State)
    requires Inv(cfg, f, st) && cfg.budget >= 3 * f.cs && CalmRun(cfg, f, st, events)
    ensures Inv(cfg, f, st')
    decreases events
  {
    if events == [] then st
    else
      StepKeeps(cfg, f, st, events[0]);
      After(cfg, f, Step(cfg, f, st, events[0]), events[1..])
  }

  /** The pump as it starts: an empty cache, the offset on the grid at or before the resume position. */
  function Start(f: File, resume: nat): State
    requires f.cs > 0
  {
    Layouts.DivFloor(resume, f.cs);
    State(EmptyCache(), resume / f.cs * f.cs, resume, map[], {})
  }

  lemma StartInv(cfg: Config, f: File, resume: nat)
    requires f.cs > 0 && cfg.budget >= 3 * f.cs
    ensures Inv(cfg, f, Start(f, resume))
  {
    hide PumpLeadLimit, Accounted;
    EmptyAccounted(cfg);
    LeadReserve(cfg.budget, f.cs);
    Layouts.DivFloor(resume, f.cs);
    Layouts.DivUnique(resume / f.cs * f.cs, f.cs, resume / f.cs);
    var st := Start(f, resume);
    forall i: nat | i * f.cs < st.offset
      ensures Behind(f, i, st.top)
    {
      JumpedOver(f, st.offset, i, resume);
    }
  }

  /** Byte x of the file was delivered, in the last delivery of its chunk. */
  predicate Got(f: File, st: State, x: nat)
    requires f.cs > 0
  {
    var i := x / f.cs;
    i in st.last && x < i * f.cs + |st.last[i]|
  }

  function GotByte(f: File, st: State, x: nat): Byte
    requires f.cs > 0 && Got(f, st, x)
  {
    Layouts.DivFloor(x, f.cs);
    st.last[x / f.cs][x - x / f.cs * f.cs]
  }

  /** A byte that was delivered and that the player has not passed is cached as delivered. */
  lemma StillThere(cfg: Config, f: File, st: State, x: nat)
    requires Inv(cfg, f, st) && Got(f, st, x) && x >= st.top
    ensures Cached(st.c, f.path, f.cs, x) && ByteAt(st.c, f.path, f.cs, x) == GotByte(f, st, x)
  {
    hide Accounted, Ascending, PumpLeadLimit, Behind;
    Layouts.DivFloor(x, f.cs);
    NotYetBehind(f, x / f.cs, st.top, x);
    assert ChunkKept(f, st, Key(f.path, x / f.cs));
  }

  lemma NotYetBehind(f: File, i: nat, player: nat, x: nat)
    requires x >= player && x < i * f.cs + f.cs
    ensures !Behind(f, i, player)
  {
    assert (i + 1) * f.cs == i * f.cs + f.cs;
  }

  /** A read of such bytes over at most two chunks hits, with the bytes as delivered. */
  ghost predicate Hits(f: File, st: State, x: nat, y: nat)
    requires f.cs > 0 && ChunksOk(st.c) && x <= y
  {
    && (forall z: nat | x <= z <= y :: Got(f, st, z))
    && match Lookup(st.c, f.path, f.cs, x, y)
       case None => false
       case Some(bytes) => |bytes| == y - x + 1 && forall z: nat | x <= z <= y :: bytes[z - x] == GotByte(f, st, z)
  }

  lemma Served(cfg: Config, f: File, st: State, x: nat, y: nat)
    requires Inv(cfg, f, st) && st.top <= x <= y && y / f.cs <= x / f.cs + 1
    requires forall z: nat | x <= z <= y :: Got(f, st, z)
    ensures ChunksOk(st.c) && Hits(f, st, x, y)
  {
    hide Inv, Lookup, Cached, Gridded, Got, GotByte;
    InvGridded(cfg, f, st);
    forall z: nat | x <= z <= y
      ensures Cached(st.c, f.path, f.cs, z) && ByteAt(st.c, f.path, f.cs, z) == GotByte(f, st, z)
    {
      StillThere(cfg, f, st, z);
    }
    LookupIff(st.c, f.path, f.cs, x, y);
  }

  /** Every byte between the player and the pump was delivered, but for the chunks passed over. */
  lemma Filled(cfg: Config, f: File, st: State, x: nat)
    requires Inv(cfg, f, st) && st.top <= x < st.offset && x < f.size && x / f.cs !in st.skipped
    ensures Got(f, st, x)
  {
    hide Accounted, Ascending, PumpLeadLimit, Behind, ChunkKept;
    Layouts.DivFloor(x, f.cs);
    NotYetBehind(f, x / f.cs, st.top, x);
    assert Passed(f, st, x / f.cs);
  }

  /** What a turn does: it waits, or stops at the end of the file, leaving all as it is; it reads and stores every byte
      delivered, staying where it is if the read failed; and it moves on, by a chunk at most, in all other cases. */
  lemma TurnWorks(cfg: Config, f: File, st: State, e: Event)
    requires Inv(cfg, f, st) && e.Turn?
    requires st.offset < f.size ==> |e.fetch.data| <= End(f, st.offset) - st.offset
    ensures ChunksOk(st.c)
    ensures var o, st' := PumpChunk(cfg, f, st.c, st.offset, e), Pumped(cfg, f, st, e);
            && (!MayPump(cfg, f, st.offset, e.player) ==> st' == st && (o.stop <==> st.offset >= f.size))
            && (MayPump(cfg, f, st.offset, e.player) ==> (o.stop <==> Reads(cfg, f, st, e) && e.fetch.err))
            && (MayPump(cfg, f, st.offset, e.player) && !o.stop ==> st.offset < st'.offset <= st.offset + f.cs)
            && (o.stop ==> st'.offset == st.offset)
            && (Reads(cfg, f, st, e) ==>
                  forall x: nat | st.offset <= x < st.offset + |e.fetch.data| ::
                    && Cached(st'.c, f.path, f.cs, x)
                    && ByteAt(st'.c, f.path, f.cs, x) == e.fetch.data[x - st.offset])
            && (!Reads(cfg, f, st, e) ==> st'.c.chunks.Keys == st.c.chunks.Keys)
  {
    hide Accounted, Ascending, PumpLeadLimit, Put, Lookup, Advance, ChunkKept, Full, Behind, Passed;
    InvChunksOk(cfg, f, st);
    if MayPump(cfg, f, st.offset, e.player) {
      CoveredFull(cfg, f, st);
      if Reads(cfg, f, st, e) {
        ReadStores(cfg, f, st, e);
        AdvanceGrid(f, st.offset, |e.fetch.data|);
        AdvanceMoves(f, st.offset, |e.fetch.data|);
      } else if Full(f, st.c, st.offset) {
        ReadTouchedSame(cfg, st.c, f.path, f.cs, st.offset, End(f, st.offset) - 1, e.now);
      }
    }
  }

  lemma AdvanceMoves(f: File, offset: nat, n: nat)
    requires f.cs > 0 && offset % f.cs == 0 && offset < f.size && n <= End(f, offset) - offset
    ensures Advance(f, offset, n) > offset
  {
    IndexStart(f, offset);
    if n < f.cs {
      Layouts.DivUnique(offset + n, f.cs, f.Index(offset));
    }
  }

  lemma ReadStores(cfg: Config, f: File, st: State, e: Event)
    requires Inv(cfg, f, st) && e.Turn? && st.offset < f.size && |e.fetch.data| <= End(f, st.offset) - st.offset
    ensures var c := Write(cfg, f, st.c, st.offset, e);
            forall x: nat | st.offset <= x < st.offset + |e.fetch.data| ::
              Cached(c, f.path, f.cs, x) && ByteAt(c, f.path, f.cs, x) == e.fetch.data[x - st.offset]
  {
    hide Accounted, Ascending, PumpLeadLimit, Put, ChunkKept, Behind, Passed;
    var n, i := |e.fetch.data|, f.Index(st.offset);
    IndexStart(f, st.offset);
    if n > 0 {
      PutKeeps(cfg, st.c, Key(f.path, i), Chunk(st.offset, st.offset + n - 1, e.fetch.data, e.session, e.now));
    }
    forall x: nat | st.offset <= x < st.offset + n
      ensures x / f.cs == i
    {
      Layouts.DivUnique(x, f.cs, i);
    }
  }

  /** The player never moves back. */
  ghost predicate ForwardRun(cfg: Config, f: File, st: State, events: seq<Event>)
    requires Inv(cfg, f, st) && cfg.budget >= 3 * f.cs
    decreases events
  {
    if events == [] then true
    else
      var e := events[0];
      && (e.Turn? ==> Deliverable(cfg, f, st, e) && e.player >= st.top)
      && (Forwards(cfg, f, st, e); ForwardRun(cfg, f, Step(cfg, f, st, e), events[1..]))
  }

  lemma Forwards(cfg: Config, f: File, st: State, e: Event)
    requires Inv(cfg, f, st) && cfg.budget >= 3 * f.cs
    requires e.Turn? ==> Deliverable(cfg, f, st, e) && e.player >= st.top
    ensures Calm(cfg, f, st, e) && ChunksOk(st.c) && Inv(cfg, f, Step(cfg, f, st, e))
  {
    if e.Turn? {
      ForwardCalm(cfg, f, st, e.player);
    }
    StepKeeps(cfg, f, st, e);
  }

  lemma {:induction false} ForwardIsCalm(cfg: Config, f: File, st: State, events: seq<Event>)
    requires Inv(cfg, f, st) && cfg.budget >= 3 * f.cs && ForwardRun(cfg, f, st, events)
    ensures CalmRun(cfg, f, st, events)
    decreases events
  {
    if events != [] {
      Forwards(cfg, f, st, events[0]);
      ForwardIsCalm(cfg, f, Step(cfg, f, st, events[0]), events[1..]);
    }
  }

  /** With a budget of at least three chunks, in every run of turns in which the pump is not stranded ahead, whatever
      the reads deliver: the offset is on the chunk grid until the end of the file, the lead over the player is at most
      one chunk past the limit, the cache is within its budget; every byte between player and pump was delivered, but
      for chunks that the warmup store has or whose read fell short; and every read over at most two chunks of bytes
      that were delivered and that the player has not passed hits, with the bytes as last delivered. */
  lemma PumpServes(cfg: Config, f: File, resume: nat, events: seq<Event>)
    requires f.cs > 0 && cfg.budget >= 3 * f.cs
    ensures Inv(cfg, f, Start(f, resume))
    ensures CalmRun(cfg, f, Start(f, resume), events) ==>
              var st := After(cfg, f, Start(f, resume), events);
              && ChunksOk(st.c) && st.c.used <= cfg.budget
              && (st.offset % f.cs == 0 || st.offset >= f.size)
              && st.offset - st.top <= PumpLeadLimit(cfg.budget, f.cs) + f.cs
              && (forall x: nat | st.top <= x < st.offset && x < f.size && x / f.cs !in st.skipped :: Got(f, st, x))
              && forall x: nat, y: nat | st.top <= x <= y && y / f.cs <= x / f.cs + 1
                                         && forall z: nat | x <= z <= y :: Got(f, st, z) ::
                   Hits(f, st, x, y)
  {
    StartInv(cfg, f, resume);
    if CalmRun(cfg, f, Start(f, resume), events) {
      hide Got, Hits;
      var st := After(cfg, f, Start(f, resume), events);
      InvChunksOk(cfg, f, st);
      forall x: nat | st.top <= x < st.offset && x < f.size && x / f.cs !in st.skipped
        ensures Got(f, st, x)
      {
        Filled(cfg, f, st, x);
      }
      forall x: nat, y: nat | st.top <= x <= y && y / f.cs <= x / f.cs + 1
                              && forall z: nat | x <= z <= y :: Got(f, st, z)
        ensures Hits(f, st, x, y)
      {
        Served(cfg, f, st, x, y);
      }
    }
  }
}
