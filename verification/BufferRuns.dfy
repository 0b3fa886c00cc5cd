/** The buffers behind the runs of the read-ahead cache. Puts on different shards interleave and share one pool; from
    taking a buffer to storing its chunk a Put holds one that is neither live nor pooled. */
module BufferRuns {
  import opened Wrappers
  import opened CacheModel
  import opened CacheRuns

  /** A Put under way: its buffer, what it will store, and whether the bytes have been copied yet. */
  datatype Flight = Flight(buf: nat, key: Key, chunk: Chunk, filled: bool)

  /** The buffers of the cached chunks, of the Puts under way by shard, and of the pool, as numbers below `made`; `mem`
      is what each buffer holds. */
  datatype Memory = Memory(st: State, live: map<Key, nat>, flight: map<nat, Flight>, pool: seq<nat>, made: nat,
                           mem: map<nat, seq<Byte>>)

  /** A step of the cache, with whether the pool has room for a buffer it frees; or a Put's first steps: to take its
      shard's lock and a buffer, which the oldest pooled one fits or not, and to copy its bytes. */
  datatype Move =
    | Grab(key: Key, chunk: Chunk, fits: bool)
    | Fill(shard: nat)
    | Do(event: Event, room: bool)

  /** Whether a shard's lock lets the step happen. */
  predicate Active(cfg: Config, m: Memory, e: Event)
    requires m.st.Shape()
  {
    match e
    case Begin(k, b) =>
      var s := cfg.Shard(k.path);
      m.st.phase[s].Idle? && s in m.flight && m.flight[s].filled && m.flight[s].key == k && m.flight[s].chunk == b
    case Add(s) => s < SHARDS && m.st.phase[s].Adding? && s in m.flight
    case Pop(s) => s < SHARDS && m.st.phase[s].Evicting? && |m.st.c.order[s]| > 0
    case Swept(k, _) => var s := cfg.Shard(k.path); m.st.phase[s].Idle? && s !in m.flight
    case Touch(_, _) => true
  }

  /** The chunk a step takes out. */
  function Freed(m: Memory, e: Event): Option<Key>
    requires m.st.Shape()
  {
    match e
    case Begin(k, _) => if k in m.live then Some(k) else None
    case Pop(s) =>
      if s < SHARDS && |m.st.c.order[s]| > 0 && m.st.c.order[s][0] in m.live then Some(m.st.c.order[s][0]) else None
    case Swept(k, w) =>
      if k in m.live && k in m.st.c.chunks && !Keeps(w, k, m.st.c.chunks[k]) then Some(k) else None
    case _ => None
  }

  /** Take k's buffer from it, for the pool if there is room. */
  function Recycled(m: Memory, k: Key, room: bool): Memory
    requires k in m.live
  {
    m.(live := m.live - {k}, pool := if room then m.pool + [m.live[k]] else m.pool)
  }

  function MoveStep(cfg: Config, m: Memory, move: Move): (m': Memory)
    requires m.st.Shape()
    ensures m'.st.Shape()
  {
    match move
    case Grab(k, b, fits) =>
      var s := cfg.Shard(k.path);
      if !m.st.phase[s].Idle? || s in m.flight then m
      else if m.pool != [] && fits then
        m.(flight := m.flight[s := Flight(m.pool[0], k, b, false)], pool := m.pool[1..])
      else
        m.(flight := m.flight[s := Flight(m.made, k, b, false)], pool := if m.pool == [] then [] else m.pool[1..],
           made := m.made + 1)
    case Fill(s) =>
      if s in m.flight && !m.flight[s].filled then
        m.(flight := m.flight[s := m.flight[s].(filled := true)],
           mem := m.mem[m.flight[s].buf := m.flight[s].chunk.data])
      else m
    case Do(e, room) =>
      if !Active(cfg, m, e) then m
      else
        var m1 := if Freed(m, e).Some? then Recycled(m, Freed(m, e).value, room) else m;
        var m2 := if e.Add? then
                    m1.(live := m1.live[m.st.phase[e.shard].key := m1.flight[e.shard].buf],
                        flight := m1.flight - {e.shard})
                  else m1;
        m2.(st := Step(cfg, m.st, e))
  }

  // ---- what every move keeps ----

  /** No buffer is used twice: by two chunks, two Puts under way or two places of the pool, or across them. */
  ghost predicate Apart(live: map<Key, nat>, flight: map<nat, Flight>, pool: seq<nat>) {
    && (forall k, l | k in live && l in live && k != l :: live[k] != live[l])
    && (forall s, t | s in flight && t in flight && s != t :: flight[s].buf != flight[t].buf)
    && (forall i, j | 0 <= i < j < |pool| :: pool[i] != pool[j])
    && (forall k, s | k in live && s in flight :: live[k] != flight[s].buf)
    && (forall k | k in live :: live[k] !in pool)
    && (forall s | s in flight :: flight[s].buf !in pool)
  }

  ghost predicate Made(m: Memory) {
    && (forall k | k in m.live :: m.live[k] < m.made)
    && (forall s | s in m.flight :: m.flight[s].buf < m.made)
    && (forall b | b in m.pool :: b < m.made)
  }

  /** Every chunk's buffer holds the chunk's bytes, and a copied buffer the bytes to be stored. */
  ghost predicate Holds(m: Memory) {
    && m.live.Keys == m.st.c.chunks.Keys
    && (forall k | k in m.live :: m.live[k] in m.mem && m.mem[m.live[k]] == m.st.c.chunks[k].data)
    && (forall s | s in m.flight && m.flight[s].filled ::
          m.flight[s].buf in m.mem && m.mem[m.flight[s].buf] == m.flight[s].chunk.data)
  }

  /** A Put that has begun still has the buffer it filled for what it adds; one that evicts has stored it. */
  ghost predicate Phased(cfg: Config, m: Memory) {
    && m.st.Shape()
    && forall s | 0 <= s < SHARDS ::
         match m.st.phase[s]
         case Idle => true
         case Adding(k, b) =>
           && cfg.Shard(k.path) == s && k !in m.live
           && s in m.flight && m.flight[s].filled && m.flight[s].key == k && m.flight[s].chunk == b
         case Evicting => s !in m.flight
  }

  ghost predicate Sound(cfg: Config, m: Memory) {
    Apart(m.live, m.flight, m.pool) && Made(m) && Holds(m) && Phased(cfg, m)
  }

  lemma ApartPop(live: map<Key, nat>, flight: map<nat, Flight>, pool: seq<nat>)
    requires Apart(live, flight, pool) && pool != []
    ensures Apart(live, flight, pool[1..]) && pool[0] !in pool[1..] && (forall k | k in live :: live[k] != pool[0])
    ensures forall s | s in flight :: flight[s].buf != pool[0]
    ensures pool[0] in pool && forall x | x in pool[1..] :: x in pool
  {
  }

  lemma ApartFly(live: map<Key, nat>, flight: map<nat, Flight>, pool: seq<nat>, s: nat, f: Flight)
    requires Apart(live, flight, pool) && s !in flight && f.buf !in pool
    requires (forall k | k in live :: live[k] != f.buf) && forall t | t in flight :: flight[t].buf != f.buf
    ensures Apart(live, flight[s := f], pool)
  {
  }

  lemma ApartFree(live: map<Key, nat>, flight: map<nat, Flight>, pool: seq<nat>, k: Key)
    requires Apart(live, flight, pool) && k in live
    ensures Apart(live - {k}, flight, pool + [live[k]]) && Apart(live - {k}, flight, pool)
  {
  }

  lemma ApartLand(live: map<Key, nat>, flight: map<nat, Flight>, pool: seq<nat>, s: nat, k: Key)
    requires Apart(live, flight, pool) && s in flight && k !in live
    ensures Apart(live[k := flight[s].buf], flight - {s}, pool)
  {
  }

  lemma GrabKeeps(cfg: Config, m: Memory, k: Key, b: Chunk, fits: bool)
    requires Sound(cfg, m)
    ensures Sound(cfg, MoveStep(cfg, m, Grab(k, b, fits)))
  {
    hide Apart;
    var s := cfg.Shard(k.path);
    if m.st.phase[s].Idle? && s !in m.flight {
      var pool := if m.pool == [] then [] else m.pool[1..];
      if m.pool != [] {
        ApartPop(m.live, m.flight, m.pool);
      }
      var buf := if m.pool != [] && fits then m.pool[0] else m.made;
      ApartFly(m.live, m.flight, pool, s, Flight(buf, k, b, false));
    }
  }

  lemma ApartFilled(live: map<Key, nat>, flight: map<nat, Flight>, pool: seq<nat>, s: nat)
    requires Apart(live, flight, pool) && s in flight
    ensures Apart(live, flight[s := flight[s].(filled := true)], pool)
  {
  }

  lemma FillKeeps(cfg: Config, m: Memory, s: nat)
    requires Sound(cfg, m)
    ensures Sound(cfg, MoveStep(cfg, m, Fill(s)))
  {
    if s in m.flight && !m.flight[s].filled {
      ApartFilled(m.live, m.flight, m.pool, s);
      assert forall k | k in m.live :: m.live[k] != m.flight[s].buf;
    }
  }

  /** Taking out a chunk, with its buffer pooled or dropped, leaves every other chunk its bytes. */
  lemma FreeKeeps(cfg: Config, m: Memory, k: Key, room: bool, st: State)
    requires Sound(cfg, m) && k in m.live && st.c.chunks == m.st.c.chunks - {k}
    ensures var m' := Recycled(m, k, room).(st := st); Apart(m'.live, m'.flight, m'.pool) && Made(m') && Holds(m')
  {
    hide Apart, Phased;
    ApartFree(m.live, m.flight, m.pool, k);
  }

  lemma BeginMoves(cfg: Config, m: Memory, k: Key, b: Chunk, room: bool)
    requires Sound(cfg, m) && Active(cfg, m, Begin(k, b))
    ensures Sound(cfg, MoveStep(cfg, m, Do(Begin(k, b), room)))
  {
    hide Apart;
    if k in m.live {
      FreeKeeps(cfg, m, k, room, Step(cfg, m.st, Begin(k, b)));
    }
  }

  lemma AddMoves(cfg: Config, m: Memory, s: nat, room: bool)
    requires Sound(cfg, m) && Active(cfg, m, Add(s))
    ensures Sound(cfg, MoveStep(cfg, m, Do(Add(s), room)))
  {
    hide Apart;
    ApartLand(m.live, m.flight, m.pool, s, m.st.phase[s].key);
  }

  lemma PopMoves(cfg: Config, m: Memory, s: nat, room: bool)
    requires Sound(cfg, m) && Active(cfg, m, Pop(s))
    ensures Sound(cfg, MoveStep(cfg, m, Do(Pop(s), room)))
  {
    hide Apart;
    if m.st.c.order[s][0] in m.live {
      FreeKeeps(cfg, m, m.st.c.order[s][0], room, Step(cfg, m.st, Pop(s)));
    }
  }

  lemma SweptMoves(cfg: Config, m: Memory, k: Key, w: Sweep, room: bool)
    requires Sound(cfg, m) && Active(cfg, m, Swept(k, w))
    ensures Sound(cfg, MoveStep(cfg, m, Do(Swept(k, w), room)))
  {
    hide Apart;
    if k in m.live && !Keeps(w, k, m.st.c.chunks[k]) {
      FreeKeeps(cfg, m, k, room, Step(cfg, m.st, Swept(k, w)));
    }
  }

  lemma TouchMoves(cfg: Config, m: Memory, k: Key, now: int, room: bool)
    requires Sound(cfg, m)
    ensures Sound(cfg, MoveStep(cfg, m, Do(Touch(k, now), room)))
  {
    hide Apart;
  }

  lemma MoveKeeps(cfg: Config, m: Memory, move: Move)
    requires m.st.Shape() && Sound(cfg, m)
    ensures Sound(cfg, MoveStep(cfg, m, move))
  {
    hide Sound, MoveStep;
    match move
    case Grab(k, b, fits) => GrabKeeps(cfg, m, k, b, fits);
    case Fill(s) => FillKeeps(cfg, m, s);
    case Do(e, room) =>
      if Active(cfg, m, e) {
        match e
        case Begin(k, b) => BeginMoves(cfg, m, k, b, room);
        case Add(s) => AddMoves(cfg, m, s, room);
        case Pop(s) => PopMoves(cfg, m, s, room);
        case Swept(k, w) => SweptMoves(cfg, m, k, w, room);
        case Touch(k, now) => TouchMoves(cfg, m, k, now, room);
      } else {
        StaysPut(cfg, m, e, room);
      }
  }

  lemma StaysPut(cfg: Config, m: Memory, e: Event, room: bool)
    requires m.st.Shape() && !Active(cfg, m, e)
    ensures MoveStep(cfg, m, Do(e, room)) == m
  {
  }

  // ---- runs ----

  function Moved(cfg: Config, moves: seq<Move>): (m: Memory)
    ensures m.st.Shape()
  {
    if moves == [] then Memory(Empty(), map[], map[], [], 0, map[])
    else MoveStep(cfg, Moved(cfg, moves[..|moves| - 1]), moves[|moves| - 1])
  }

  /** Under every interleaving no two of the live, held and pooled buffers are the same, and what a lookup reads in a
      chunk's buffer is the chunk as it was stored, whatever Puts on other shards are writing meanwhile. */
  lemma {:induction false} BuffersApart(cfg: Config, moves: seq<Move>)
    ensures var m := Moved(cfg, moves);
            && Apart(m.live, m.flight, m.pool) && Sound(cfg, m)
            && forall k | k in m.st.c.chunks ::
                 k in m.live && m.live[k] in m.mem && m.mem[m.live[k]] == m.st.c.chunks[k].data
  {
    if moves != [] {
      BuffersApart(cfg, moves[..|moves| - 1]);
      MoveKeeps(cfg, Moved(cfg, moves[..|moves| - 1]), moves[|moves| - 1]);
    }
  }

  /** The cache part of a run of moves is a run of the cache's own steps. */
  lemma {:induction false} MovesAreSteps(cfg: Config, moves: seq<Move>) returns (events: seq<Event>)
    ensures Moved(cfg, moves).st == Run(cfg, events)
  {
    if moves == [] {
      events := [];
    } else {
      var before := MovesAreSteps(cfg, moves[..|moves| - 1]);
      var move := moves[|moves| - 1];
      if move.Do? && Active(cfg, Moved(cfg, moves[..|moves| - 1]), move.event) {
        events := before + [move.event];
        assert events[..|events| - 1] == before;
      } else {
        events := before;
      }
    }
  }
}
