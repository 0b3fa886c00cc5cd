/** The read-ahead cache of main.go over real buffers: chunks live in arrays that a pool recycles. */
module ReadAhead {
  import opened Wrappers
  import opened CacheModel
  import Layouts

  const MIB: nat := 0x10_0000

  /** A cached chunk: the first `len` bytes of `buf`, whose Length is the buffer's capacity. */
  datatype Slot = Slot(start: nat, end: int, buf: array<Byte>, len: nat, session: int, lastAccess: int)

  /** The slot holds the chunk. */
  ghost predicate Holds(s: Slot, b: Chunk)
    reads s.buf
  {
    && s.len == |b.data| <= s.buf.Length && s.buf[..s.len] == b.data
    && s.start == b.start && s.end == b.end && s.session == b.session && s.lastAccess == b.lastAccess
  }

  /** No two live chunks share a buffer, no live chunk's buffer is in the pool, no buffer is pooled twice. */
  ghost predicate Apart(slots: map<Key, Slot>, pool: seq<array<Byte>>) {
    && (forall k, l | k in slots && l in slots && k != l :: slots[k].buf != slots[l].buf)
    && (forall k | k in slots :: slots[k].buf !in pool)
    && (forall i, j | 0 <= i < j < |pool| :: pool[i] != pool[j])
  }

  ghost function Bufs(slots: map<Key, Slot>): set<array<Byte>> {
    set k | k in slots :: slots[k].buf
  }

  lemma ApartDrop(slots: map<Key, Slot>, pool: seq<array<Byte>>, k: Key)
    requires Apart(slots, pool) && k in slots
    ensures Apart(slots - {k}, pool) && slots[k].buf !in Bufs(slots - {k}) && slots[k].buf !in pool
  {
  }

  lemma ApartPool(slots: map<Key, Slot>, pool: seq<array<Byte>>, buf: array<Byte>)
    requires Apart(slots, pool) && buf !in Bufs(slots) && buf !in pool
    ensures Apart(slots, pool + [buf])
  {
  }

  lemma ApartTake(slots: map<Key, Slot>, pool: seq<array<Byte>>)
    requires Apart(slots, pool) && pool != []
    ensures Apart(slots, pool[1..]) && pool[0] !in Bufs(slots) && pool[0] !in pool[1..]
  {
  }

  lemma ApartPlace(slots: map<Key, Slot>, pool: seq<array<Byte>>, k: Key, slot: Slot)
    requires Apart(slots, pool) && slot.buf !in pool
    requires slot.buf !in Bufs(slots) || (k in slots && slots[k].buf == slot.buf)
    ensures Apart(slots[k := slot], pool)
  {
    assert forall l | l in slots :: slots[l].buf in Bufs(slots);
  }

  lemma ApartTouch(slots: map<Key, Slot>, pool: seq<array<Byte>>, k: Key, now: int)
    requires Apart(slots, pool) && k in slots
    ensures Apart(slots[k := slots[k].(lastAccess := now)], pool)
    ensures Bufs(slots[k := slots[k].(lastAccess := now)]) == Bufs(slots)
  {
    var touched := slots[k := slots[k].(lastAccess := now)];
    forall b | b in Bufs(slots)
      ensures b in Bufs(touched)
    {
      var l :| l in slots && slots[l].buf == b;
      assert l in touched && touched[l].buf == b;
    }
  }

  /** Bytes [from, from+len) of a buffer. */
  datatype Part = Part(buf: array<Byte>, from: nat, len: nat) {
    predicate Valid() {
      from + len <= buf.Length
    }

    ghost function Bytes(): seq<Byte>
      requires Valid()
      reads buf
    {
      buf[from..from + len]
    }
  }

  lemma Prefix(s: Slot, b: Chunk, from: nat, to: nat)
    requires Holds(s, b) && from <= to <= s.len
    ensures b.data[from..to] == s.buf[from..to]
  {
  }

  /** Where the bytes of a read lie. */
  datatype Place = Miss | One(first: Part) | Two(first: Part, second: Part) {
    predicate Within(bufs: set<array<Byte>>) {
      && (!Miss? ==> first.Valid() && first.buf in bufs)
      && (Two? ==> second.Valid() && second.buf in bufs)
    }

    ghost function Bytes(): Option<seq<Byte>>
      requires (!Miss? ==> first.Valid()) && (Two? ==> second.Valid())
      reads if Miss? then {} else {first.buf}, if Two? then {second.buf} else {}
    {
      match this
      case Miss => None
      case One(a) => Some(a.Bytes())
      case Two(a, b) => Some(a.Bytes() + b.Bytes())
    }
  }

  /** A path's chunk size once its piece length is known. */
  function AlignedChunk(base: nat, pieceLen: nat): (size: nat)
    requires pieceLen > 0 && base > 0
  {
    if base / pieceLen > 0 then base / pieceLen * pieceLen else base
  }

  /** It is the largest multiple of the piece length that fits in the base, or the base if none does. */
  lemma AlignedChunkMax(base: nat, pieceLen: nat)
    requires pieceLen > 0 && base > 0
    ensures var size := AlignedChunk(base, pieceLen);
            && 0 < size <= base
            && (pieceLen > base ==> size == base)
            && (pieceLen <= base ==> size % pieceLen == 0 && base < size + pieceLen)
  {
    Layouts.DivFloor(base, pieceLen);
    var n := base / pieceLen;
    if n > 0 {
      Layouts.MulLe(1, n, pieceLen);
      Layouts.DivUnique(n * pieceLen, pieceLen, n);
    }
  }

  function Fit(room: nat, len: nat): nat {
    if len <= room then len else room
  }

  /** d with as much of src as fits laid over it from `at`. */
  function Overlay(d: seq<Byte>, at: nat, src: seq<Byte>): (r: seq<Byte>)
    requires at <= |d|
    ensures |r| == |d|
  {
    var n := Fit(|d| - at, |src|);
    d[..at] + src[..n] + d[at + n..]
  }

  lemma OverlayAt(d: seq<Byte>, at: nat, src: seq<Byte>, i: nat)
    requires at <= |d| && i < |d|
    ensures Overlay(d, at, src)[i] == if at <= i < at + |src| then src[i - at] else d[i]
  {
  }

  /** Laying down a and then b behind it is laying down both. */
  lemma OverlayTwice(d: seq<Byte>, a: seq<Byte>, b: seq<Byte>)
    ensures Overlay(Overlay(d, 0, a), Fit(|d|, |a|), b) == Overlay(d, 0, a + b)
    ensures Fit(|d|, |a|) + Fit(|d| - Fit(|d|, |a|), |b|) == Fit(|d|, |a + b|)
  {
    hide Overlay;
    var n := Fit(|d|, |a|);
    forall i | 0 <= i < |d|
      ensures Overlay(Overlay(d, 0, a), n, b)[i] == Overlay(d, 0, a + b)[i]
    {
      OverlayAt(d, 0, a, i);
      OverlayAt(Overlay(d, 0, a), n, b, i);
      OverlayAt(d, 0, a + b, i);
    }
  }

  /** Go's copy: as much of src[from..from+len] as fits into dest[at..]. */
  method Copy(dest: array<Byte>, at: nat, src: array<Byte>, from: nat, len: nat) returns (n: nat)
    requires dest != src && at <= dest.Length && from + len <= src.Length
    modifies dest
    ensures n == Fit(dest.Length - at, len)
    ensures dest[..] == Overlay(old(dest[..]), at, src[from..from + len])
  {
    n := 0;
    while n < len && at + n < dest.Length
      invariant n <= len && at + n <= dest.Length
      invariant forall i | 0 <= i < dest.Length ::
                  dest[i] == if at <= i < at + n then src[from + i - at] else old(dest[i])
    {
      dest[at + n] := src[from + n];
      n := n + 1;
    }
  }

  /** Copy a read's bytes, as many as fit. */
  method CopyPlace(dest: array<Byte>, at: Place, ghost bufs: set<array<Byte>>) returns (n: nat)
    requires at.Within(bufs) && dest !in bufs && !at.Miss?
    modifies dest
    ensures n == Fit(dest.Length, |old(at.Bytes().value)|)
            && dest[..] == Overlay(old(dest[..]), 0, old(at.Bytes().value))
  {
    hide Overlay;
    n := Copy(dest, 0, at.first.buf, at.first.from, at.first.len);
    if at.Two? {
      OverlayTwice(old(dest[..]), at.first.Bytes(), at.second.Bytes());
      var n2 := Copy(dest, n, at.second.buf, at.second.from, at.second.len);
      n := n + n2;
    }
  }

  method Materialize(at: Place, size: nat, ghost bufs: set<array<Byte>>) returns (a: array<Byte>)
    requires at.Within(bufs) && !at.Miss? && |at.Bytes().value| == size
    ensures fresh(a) && a[..] == at.Bytes().value
  {
    a := new Byte[size];
    var n := CopyPlace(a, at, bufs);
  }

  method RemoveFrom(o: seq<Key>, k: Key) returns (r: seq<Key>)
    ensures r == Without(o, k)
  {
    hide Without;
    var i := 0;
    while i < |o| && o[i] != k
      invariant i <= |o| && k !in o[..i]
    {
      i := i + 1;
    }
    if i == |o| {
      r := o;
      assert o[..i] == o;
      WithoutNone(o, k);
    } else {
      r := o[..i] + o[i + 1..];
      assert o == o[..i] + [k] + o[i + 1..];
      WithoutMiddle(o[..i], k, o[i + 1..]);
    }
  }

  class ReadAheadCache {
    const hash: string -> nat
    var base: nat
    var budget: int
    var slots: map<Key, Slot>
    var order: seq<seq<Key>>
    var total: seq<int>
    var used: int
    var pool: seq<array<Byte>>
    var poolCap: nat
    var activePath: string
    var session: int
    var sizes: map<string, nat>
    /** What the slots' buffers hold. */
    ghost var contents: map<Key, Chunk>

    constructor (hash: string -> nat, base: nat, budget: int, poolCap: nat)
      requires base > 0
      ensures Valid() && View() == EmptyCache() && pool == []
      ensures this.hash == hash && this.base == base && this.budget == budget && this.poolCap == poolCap
    {
      this.hash, this.base, this.budget, this.poolCap := hash, base, budget, poolCap;
      slots, contents, order, total, used := map[], map[], seq(SHARDS, _ => []), seq(SHARDS, _ => 0), 0;
      pool, activePath, session, sizes := [], "", 0, map[];
      new;
      EmptyAccounted(Cfg());
    }

    function Cfg(): Config
      reads `budget
    {
      Config(hash, if budget <= 0 then 256 * MIB else budget)
    }

    ghost function View(): Cache
      reads `contents, `order, `total, `used
    {
      Cache(contents, order, total, used)
    }

    ghost predicate Ok()
      reads this, Bufs(slots)
    {
      && |order| == |total| == SHARDS && base > 0
      && (forall p | p in sizes :: sizes[p] > 0)
      && contents.Keys == slots.Keys && (forall k | k in slots :: Holds(slots[k], contents[k]))
      && Apart(slots, pool)
    }

    ghost predicate Valid()
      reads this, Bufs(slots)
    {
      Ok() && Accounted(Cfg(), View()) && ChunksOk(View())
    }

    function ChunkSize(path: string): (size: nat)
      reads this
    {
      if path in sizes then sizes[path] else base
    }

    /** The pump tells the cache a path's piece length; the stored chunks stay as they are. */
    method SetPieceLen(path: string, pieceLen: int)
      requires Valid()
      modifies this`sizes
      ensures Valid()
      ensures ChunkSize(path) == if pieceLen <= 0 then base else AlignedChunk(base, pieceLen)
      ensures forall p | p != path :: ChunkSize(p) == old(ChunkSize(p))
    {
      hide Accounted, ChunksOk, AlignedChunk;
      if pieceLen <= 0 {
        sizes := sizes - {path};
        return;
      }
      AlignedChunkMax(base, pieceLen);
      sizes := sizes[path := AlignedChunk(base, pieceLen)];
    }

    // ---- the pool ----

    /** Keep a buffer that no chunk uses for a later Put, if it has the base capacity and the pool has room. */
    method Recycle(buf: array<Byte>)
      requires Ok() && buf !in Bufs(slots) && buf !in pool
      modifies this`pool
      ensures Ok()
      ensures pool == if buf.Length == base && |old(pool)| < poolCap then old(pool) + [buf] else old(pool)
    {
      hide Apart;
      if buf.Length == base && |pool| < poolCap {
        ApartPool(slots, pool, buf);
        pool := pool + [buf];
      }
    }

    /** A buffer for `size` bytes that nothing else uses: the pool's oldest if it is large enough, else a new one. */
    method TakeBuffer(size: nat) returns (buf: array<Byte>)
      requires Ok()
      modifies this`pool
      ensures Ok() && buf.Length >= size
      ensures pool == if old(pool) == [] then [] else old(pool)[1..]
      ensures fresh(buf) || (old(pool) != [] && buf == old(pool)[0])
      ensures buf !in Bufs(slots) && buf !in pool
    {
      hide Apart;
      if pool != [] {
        ApartTake(slots, pool);
        buf := pool[0];
        pool := pool[1..];
        if buf.Length >= size {
          return;
        }
      }
      buf := new Byte[if size < base then base else size](_ => 0);
    }

    // ---- storing ----

    /** Take chunk k out of its shard s, whose order becomes o; its buffer is no chunk's afterwards. */
    method Detach(s: nat, k: Key, o: seq<Key>) returns (buf: array<Byte>)
      requires Ok() && k in slots && s < SHARDS
      modifies this`slots, this`order, this`total, this`used, this`contents
      ensures Ok() && View() == Forget(old(View()), s, k, o)
      ensures slots == old(slots) - {k} && buf == old(slots[k].buf)
      ensures buf !in Bufs(slots) && buf !in pool
    {
      hide Apart;
      ApartDrop(slots, pool, k);
      buf := slots[k].buf;
      var len := slots[k].len;
      assert len == |contents[k].data|;
      order := order[s := o];
      total := total[s := total[s] - len];
      used := used - len;
      slots, contents := slots - {k}, contents - {k};
    }

    /** Take chunk k out of its shard s, whose order becomes o, and recycle its buffer. */
    method Drop(s: nat, k: Key, o: seq<Key>)
      requires Ok() && k in slots && s < SHARDS
      modifies this`slots, this`order, this`total, this`used, this`pool, this`contents
      ensures Ok() && View() == Forget(old(View()), s, k, o)
      ensures slots == old(slots) - {k}
      ensures forall a | a in pool :: a in old(pool) || a == old(slots[k].buf)
    {
      hide Apart, Forget;
      var buf := Detach(s, k, o);
      Recycle(buf);
    }

    /** Put's eviction loop on shard s. */
    method EvictOldest(s: nat)
      requires Ok() && s < SHARDS
      modifies this`slots, this`order, this`total, this`used, this`pool, this`contents
      ensures Ok() && View() == Evict(Cfg(), old(View()), s)
      ensures Bufs(slots) <= Bufs(old(slots))
    {
      hide Apart;
      while used > Cfg().budget && |order[s]| > 1
        invariant Ok()
        invariant Evict(Cfg(), View(), s) == Evict(Cfg(), old(View()), s)
        invariant Bufs(slots) <= Bufs(old(slots))
        decreases |order[s]|
      {
        var v, rest := order[s][0], order[s][1..];
        if v in slots {
          Drop(s, v, rest);
        } else {
          order := order[s := rest];
        }
      }
    }

    /** Account for overwriting the chunk at k, if there is one. */
    method Discard(s: nat, k: Key)
      requires Ok() && s < SHARDS
      modifies this`slots, this`order, this`total, this`used, this`pool, this`contents
      ensures Ok() && k !in slots && View() == Overwrite(old(View()), s, k) && Bufs(slots) <= Bufs(old(slots))
      ensures forall a | a in pool :: a in old(pool) || a in Bufs(old(slots))
    {
      hide Forget, Without, Apart;
      if k in slots {
        var o := RemoveFrom(order[s], k);
        Drop(s, k, o);
      }
    }

    /** Store a copy of d[..n] as bytes [start, end] of a path. */
    method Put(path: string, start: nat, end: int, d: array<Byte>, n: nat, now: int)
      requires Valid() && d !in Bufs(slots) && d !in pool && n <= d.Length && end == start + n - 1
      modifies this`slots, this`order, this`total, this`used, this`pool, this`contents, pool
      ensures Valid()
      ensures View() == CacheModel.Put(Cfg(), old(View()), Key(path, start / ChunkSize(path)),
                          Chunk(start, end, old(d[..n]), if path == activePath then session else 0, now))
    {
      hide Insert, Evict, Overwrite, Accounted, ChunksOk, Apart;
      var k, s := Key(path, start / ChunkSize(path)), Cfg().Shard(path);
      var sess := if path == activePath then session else 0;
      ghost var b := Chunk(start, end, d[..n], sess, now);
      Store(s, k, Slot(start, end, d, n, sess, now), b);
      PutKeeps(Cfg(), old(View()), k, b);
      PutOk(Cfg(), old(View()), k, b);
      OrderCounts(Cfg(), View(), s);
      if |order[s]| > 100 && |order[s]| > 2 * |set x | x in slots && Cfg().Shard(x.path) == s| {
        assert false;  // the order is never compacted
      }
    }

    /** Store a copy of the slot at k in shard s. */
    method Store(s: nat, k: Key, slot: Slot, ghost b: Chunk)
      requires Ok() && s < SHARDS && slot.buf !in Bufs(slots) && slot.buf !in pool
      requires Holds(slot, b)
      modifies this`slots, this`order, this`total, this`used, this`pool, this`contents, pool
      ensures Ok() && View() == Evict(Cfg(), Insert(Overwrite(old(View()), s, k), s, k, b), s)
    {
      hide Insert, Evict, Overwrite, Apart;
      var buf := CopyOf(slot.buf, slot.len);
      Discard(s, k);
      Place(s, k, slot.(buf := buf), b);
      EvictOldest(s);
    }

    /** A buffer of our own with the bytes d[..n]. */
    method CopyOf(d: array<Byte>, n: nat) returns (buf: array<Byte>)
      requires Ok() && d !in Bufs(slots) && d !in pool && n <= d.Length
      modifies this`pool, pool
      ensures Ok() && buf !in Bufs(slots) && buf !in pool
      ensures buf.Length >= n && buf[..n] == d[..n] == old(d[..n])
    {
      buf := TakeBuffer(n);
      var copied := Copy(buf, 0, d, 0, n);
      assert buf[..n] == d[..n];
    }

    method Place(s: nat, k: Key, slot: Slot, ghost b: Chunk)
      requires Ok() && s < SHARDS && k !in slots && slot.buf !in Bufs(slots) && slot.buf !in pool && Holds(slot, b)
      modifies this`slots, this`order, this`total, this`used, this`contents
      ensures Ok() && View() == Insert(old(View()), s, k, b)
    {
      hide Apart;
      ApartPlace(slots, pool, k, slot);
      order := order[s := order[s] + [k]];
      total := total[s := total[s] + slot.len];
      used := used + slot.len;
      slots, contents := slots[k := slot], contents[k := b];
    }

    // ---- global eviction ----

    /** evictShard. */
    method SweepShard(s: nat, w: Sweep)
      requires Valid() && s < SHARDS
      modifies this`slots, this`order, this`total, this`used, this`pool, this`contents
      ensures Valid() && View() == SweepKeys(old(View()), s, w, old(order[s]))
    {
      hide Accounted, ChunksOk, Apart, Thinned, SweepKeys;
      ghost var c0, keys := View(), order[s];
      Listed(Cfg(), c0, s);
      SweepLoop(s, w);
      SweepKeeps(Cfg(), c0, s, w, keys);
      ThinnedOk(c0, View(), s);
    }

    method SweepLoop(s: nat, w: Sweep)
      requires Ok() && s < SHARDS && NoDuplicates(order[s])
      modifies this`slots, this`order, this`total, this`used, this`pool, this`contents
      ensures Ok() && View() == SweepKeys(old(View()), s, w, old(order[s]))
    {
      hide Apart, Without, NoDuplicates, Keeps, Forget;
      var keys, kept: seq<Key> := order[s], [];
      ghost var c0 := View();
      assert kept + keys[0..] == keys && keys[..0] == [] && order[s := keys] == order;
      for i := 0 to |keys|
        invariant Ok() && order == c0.order
        invariant forall k | k in kept :: k in keys[..i]
        invariant Ordered(View(), s, kept + keys[i..]) == SweepKeys(c0, s, w, keys[..i])
      {
        NotBefore(keys, i);
        SweepTurn(View(), c0, s, w, keys, i, kept);
        assert keys[..i + 1] == keys[..i] + [keys[i]];
        var stale := SweepSlot(s, w, keys[i]);
        if !stale {
          kept := kept + [keys[i]];
        }
      }
      order := order[s := kept];
      assert kept + keys[|keys|..] == kept && keys[..|keys|] == keys;
    }

    /** Drop the chunk at k if it is stale; the shard's order is set later. */
    method SweepSlot(s: nat, w: Sweep, k: Key) returns (stale: bool)
      requires Ok() && s < SHARDS
      modifies this`slots, this`order, this`total, this`used, this`pool, this`contents
      ensures Ok() && order == old(order)
      ensures stale <==> k in old(contents) && !Keeps(w, k, old(contents[k]))
      ensures View() == if stale then Forget(old(View()), s, k, old(order[s])) else old(View())
    {
      hide Apart;
      stale := k in slots && Stale(w, k);
      if stale {
        assert order[s := order[s]] == order;
        Drop(s, k, order[s]);
      }
    }

    predicate Stale(w: Sweep, k: Key)
      requires k in slots
      reads `slots
    {
      if slots[k].session != w.activeSession && !OfActivePath(w, k) then true
      else w.now - slots[k].lastAccess > if OfActivePath(w, k) then 60 else 120
    }

    // ---- reading ----

    method TouchSlot(k: Key, now: int)
      requires Valid() && k in slots
      modifies this`slots, this`contents
      ensures Valid() && View() == Touched(old(View()), k, now)
      ensures slots == old(slots)[k := old(slots[k]).(lastAccess := now)] && Bufs(slots) == Bufs(old(slots))
    {
      hide Accounted, ChunksOk, Apart;
      TouchedKeeps(Cfg(), View(), k, now);
      ApartTouch(slots, pool, k, now);
      slots := slots[k := slots[k].(lastAccess := now)];
      contents := contents[k := contents[k].(lastAccess := now)];
    }

    /** The key of `off`, if the chunk under it holds `off`. */
    function Find(path: string, off: nat): (k: Option<Key>)
      requires ChunkSize(path) > 0
      reads this
    {
      var k := Key(path, off / ChunkSize(path));
      if k in slots && slots[k].start <= off <= slots[k].end then Some(k) else None
    }

    lemma FindIsAt(path: string, off: nat)
      requires Ok()
      ensures match Find(path, off)
              case None => At(View(), path, ChunkSize(path), off).None?
              case Some(k) =>
                && k == Key(path, off / ChunkSize(path)) && k in slots && k in contents
                && At(View(), path, ChunkSize(path), off) == Some(contents[k])
                && slots[k].start == contents[k].start <= off <= slots[k].end == contents[k].end
    {
    }

    /** Covered: whether a read of [off, end] would hit. */
    method Covered(path: string, off: nat, end: int, now: int) returns (hit: bool)
      requires Valid() && off <= end + 1
      modifies this`slots, this`contents
      ensures Valid() && hit == Lookup(old(View()), path, ChunkSize(path), off, end).Some?
      ensures View() == if hit then ReadTouched(old(View()), path, ChunkSize(path), off, end, now) else old(View())
      ensures Bufs(slots) == Bufs(old(slots))
    {
      hide Accounted, ChunksOk, At, Touched, Apart, Bufs;
      FindIsAt(path, off);
      var k := Find(path, off);
      if k.None? {
        return false;
      }
      if end <= slots[k.value].end {
        TouchSlot(k.value, now);
        return true;
      }
      FindIsAt(path, end);
      var k2 := Find(path, end);
      if k2.Some? && slots[k2.value].start == slots[k.value].end + 1 {
        TouchSlot(k.value, now);
        TouchSlot(k2.value, now);
        return true;
      }
      return false;
    }

    function Locate(path: string, off: nat, end: int): Place
      requires ChunkSize(path) > 0 && off <= end + 1
      requires forall k | k in slots :: slots[k].end == slots[k].start + slots[k].len - 1
      reads this
    {
      match Find(path, off)
      case None => Miss
      case Some(k) =>
        var b := slots[k];
        if end <= b.end then One(Part(b.buf, off - b.start, end - off + 1))
        else
          match Find(path, end)
          case None => Miss
          case Some(k2) =>
            var b2 := slots[k2];
            if b2.start == b.end + 1 then
              Two(Part(b.buf, off - b.start, b.len - (off - b.start)), Part(b2.buf, 0, end - b2.start + 1))
            else Miss
    }

    lemma LensOk()
      requires Valid()
      ensures forall k | k in slots ::
                slots[k].end == slots[k].start + slots[k].len - 1 && slots[k].len <= slots[k].buf.Length
    {
    }

    /** Where a read's bytes lie, and what follows for the two slots it looks at. */
    lemma LocateShape(path: string, off: nat, end: int)
      requires Valid() && off <= end + 1
      ensures forall k | k in slots :: slots[k].end == slots[k].start + slots[k].len - 1
      ensures Locate(path, off, end).Within(Bufs(slots))
      ensures Find(path, off).None? ==> Locate(path, off, end).Miss?
      ensures Locate(path, off, end).One? ==> end <= slots[Find(path, off).value].end
      ensures Locate(path, off, end).Two? ==> end > slots[Find(path, off).value].end && Find(path, end).Some?
    {
      hide Accounted, ChunksOk, At, Apart;
      LensOk();
    }

    lemma LocateIsLookup(path: string, off: nat, end: int)
      requires Valid() && off <= end + 1
      ensures Locate(path, off, end).Bytes() == Lookup(View(), path, ChunkSize(path), off, end)
    {
      hide Accounted, ChunksOk, At, Find, Apart, Bufs;
      LensOk();
      FindIsAt(path, off);
      var k := Find(path, off);
      if k.Some? {
        var b := slots[k.value];
        if end <= b.end {
          Prefix(b, contents[k.value], off - b.start, end - b.start + 1);
        } else {
          FindIsAt(path, end);
          var k2 := Find(path, end);
          if k2.Some? && slots[k2.value].start == b.end + 1 {
            Prefix(b, contents[k.value], off - b.start, b.len);
            Prefix(slots[k2.value], contents[k2.value], 0, end - slots[k2.value].start + 1);
          }
        }
      }
    }

    /** Mark the chunks of a read as used, and say where its bytes lie. */
    method TouchRead(path: string, off: nat, end: int, now: int) returns (at: Place)
      requires Valid() && off <= end + 1
      modifies this`slots, this`contents
      ensures Valid() && View() == ReadTouched(old(View()), path, ChunkSize(path), off, end, now)
      ensures Bufs(slots) == Bufs(old(slots)) && at.Within(Bufs(slots))
      ensures at.Bytes() == Lookup(old(View()), path, ChunkSize(path), off, end)
    {
      hide Accounted, ChunksOk, At, Touched, Apart, Find, Lookup, Bufs;
      LocateShape(path, off, end);
      LocateIsLookup(path, off, end);
      FindIsAt(path, off);
      at := Locate(path, off, end);
      var k := Find(path, off);
      if at.Two? {
        FindIsAt(path, end);
        var k2 := Find(path, end);
        TouchSlot(k.value, now);
        TouchSlot(k2.value, now);
      } else if k.Some? {
        TouchSlot(k.value, now);
      }
    }

    /** A copy of bytes [off, end] of a path, or null. */
    method Get(path: string, off: nat, end: int, now: int) returns (out: array?<Byte>)
      requires Valid() && off <= end + 1
      modifies this`slots, this`contents
      ensures Valid() && View() == ReadTouched(old(View()), path, ChunkSize(path), off, end, now)
      ensures match Lookup(old(View()), path, ChunkSize(path), off, end)
              case None => out == null
              case Some(bytes) => out != null && fresh(out) && out[..] == bytes
    {
      hide Accounted, ChunksOk, Apart, Lookup, ReadTouched;
      LookupLength(View(), path, ChunkSize(path), off, end);
      var at := TouchRead(path, off, end, now);
      if at.Miss? {
        return null;
      }
      out := Materialize(at, end - off + 1, Bufs(slots));
    }

    /** Copy as much of bytes [off, end] of a path as fits into dest, and say how much; 0 on a miss. */
    method CopyTo(path: string, off: nat, end: int, dest: array<Byte>, now: int) returns (n: nat)
      requires Valid() && off <= end + 1 && dest !in Bufs(slots) && dest !in pool
      modifies this`slots, this`contents, dest
      ensures Valid() && View() == ReadTouched(old(View()), path, ChunkSize(path), off, end, now)
      ensures match Lookup(old(View()), path, ChunkSize(path), off, end)
              case None => n == 0 && dest[..] == old(dest[..])
              case Some(bytes) => n == Fit(dest.Length, |bytes|) && dest[..] == Overlay(old(dest[..]), 0, bytes)
    {
      hide Accounted, ChunksOk, Apart, Lookup, ReadTouched, Overlay;
      n := 0;
      var at := TouchRead(path, off, end, now);
      if !at.Miss? {
        n := CopyPlace(dest, at, Bufs(slots));
      }
    }
  }
}
