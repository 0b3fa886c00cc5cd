/** Scans of the dirty-chunk bitmap: AvailableRange of torrent.go and undirtied-chunks-iter.go. A bitmap is the
    ascending sequence its iterator yields. */
module Ranges {
  import opened Wrappers
  import opened Layouts

  ghost predicate Bitmap(bits: seq<nat>) {
    forall i, j | 0 <= i < j < |bits| :: bits[i] < bits[j]
  }

  /** Move an iterator at position j on to the first bit that is at least `min`. */
  method AdvanceIfNeeded(bits: seq<nat>, j: nat, min: nat) returns (k: nat)
    requires Bitmap(bits) && j <= |bits|
    ensures j <= k <= |bits|
    ensures (forall i | j <= i < k :: bits[i] < min) && (forall i | k <= i < |bits| :: bits[i] >= min)
  {
    k := j;
    while k < |bits| && bits[k] < min
      invariant j <= k <= |bits| && forall i | j <= i < k :: bits[i] < min
    {
      k := k + 1;
    }
  }

  // ---- the unset indexes of a range ----

  /** The indexes of [start, end) that are not in the bitmap, ascending and once each. */
  ghost predicate UnsetList(bits: seq<nat>, start: nat, end: nat, out: seq<nat>) {
    && (forall i :: i in out <==> start <= i < end && i !in bits)
    && (forall i, j | 0 <= i < j < |out| :: out[i] < out[j])
  }

  function Succ32(x: nat): nat {
    (x + 1) % U32
  }

  function Pred32(x: nat): nat {
    (x + U32 - 1) % U32
  }

  /** Append [from, to) to what was called back so far. */
  method CallEach(out: seq<nat>, from: nat, to: nat) returns (r: seq<nat>)
    requires from < U32 && to < U32
    ensures |r| == |out| + (if from < to then to - from else 0)
    ensures r[..|out|] == out && forall k | |out| <= k < |r| :: r[k] == from + (k - |out|)
  {
    r := out;
    var index := from;
    while index < to
      invariant from <= index && (index <= to || index == from)
      invariant |r| == |out| + (index - from) && r[..|out|] == out
      invariant forall k | |out| <= k < |r| :: r[k] == from + (k - |out|)
    {
      r := r + [index];
      index := Succ32(index);
    }
  }

  /** Calling back a stretch without set bits extends the list to the stretch's end. */
  lemma Extend(bits: seq<nat>, start: nat, from: nat, to: nat, out: seq<nat>, r: seq<nat>)
    requires start <= from && UnsetList(bits, start, from, out) && forall b | b in bits :: !(from <= b < to)
    requires |r| == |out| + (if from < to then to - from else 0)
    requires r[..|out|] == out && forall k | |out| <= k < |r| :: r[k] == from + (k - |out|)
    ensures UnsetList(bits, start, if from < to then to else from, r)
  {
    forall i | i in r
      ensures start <= i < (if from < to then to else from) && i !in bits
    {
      var k :| 0 <= k < |r| && r[k] == i;
      assert k < |out| ==> r[..|out|][k] in out;
    }
    forall i | start <= i < (if from < to then to else from) && i !in bits
      ensures i in r
    {
      if i < from {
        assert i in out && i in r[..|out|];
      } else {
        assert r[|out| + (i - from)] == i;
      }
    }
    forall i, j | 0 <= i < j < |r|
      ensures r[i] < r[j]
    {
      if i < |out| {
        assert r[i] == r[..|out|][i] == out[i] && out[i] in out;
        if j < |out| {
          assert r[j] == r[..|out|][j] == out[j];
        }
      }
    }
  }

  lemma SetBetween(bits: seq<nat>, j: nat, from: nat, to: nat)
    requires j <= |bits| && forall i | 0 <= i < j :: bits[i] < from
    requires forall i | j <= i < |bits| :: bits[i] >= to
    ensures forall b | b in bits :: !(from <= b < to)
  {
  }

  /** iterBitmapUnsetInRange on 32-bit indexes; `out` is what it calls back, in order. */
  method IterUnset(bits: seq<nat>, start: nat, end: nat) returns (out: seq<nat>)
    requires Bitmap(bits) && start < U32 && end < U32 && forall b | b in bits :: b < U32
    ensures UnsetList(bits, start, end, out)
  {
    var j := AdvanceIfNeeded(bits, 0, start);
    out := [];
    var lastDirty: nat := Pred32(start);
    ghost var from: nat := start;
    while j < |bits| && bits[j] < end
      invariant j <= |bits| && from == Succ32(lastDirty) && start <= from && (from <= end || from == start)
      invariant forall i | j <= i < |bits| :: bits[i] >= from
      invariant forall i | 0 <= i < j :: bits[i] < from
      invariant UnsetList(bits, start, from, out)
    {
      var next := bits[j];
      ghost var before := out;
      out := CallEach(out, Succ32(lastDirty), next);
      SetBetween(bits, j, from, next);
      Extend(bits, start, from, next, before, out);
      lastDirty := next;
      from := next + 1;
      j := j + 1;
    }
    ghost var before := out;
    out := CallEach(out, Succ32(lastDirty), end);
    SetBetween(bits, j, from, end);
    Extend(bits, start, from, end, before, out);
  }

  // ---- the bytes ready from an offset on ----

  /** The dirty bit of the chunk that holds byte x. */
  function BitAt(l: Layout, x: nat): nat
    requires l.Valid()
  {
    l.Offset(Quotient(x, l.pieceLength)) + Quotient(Position(x, l.pieceLength), l.chunkSize)
  }

  function Quotient(x: nat, n: nat): nat
    requires n > 0
  {
    x / n
  }

  /** Where byte x lies in its piece. */
  function Position(x: nat, pieceLength: nat): nat
    requires pieceLength > 0
  {
    x % pieceLength
  }

  /** Byte x can be served: its piece is complete or, in responsive mode, its chunk has been written. */
  ghost predicate Ready(l: Layout, complete: set<nat>, dirty: seq<nat>, responsive: bool, x: int)
    requires l.Valid()
  {
    0 <= x < l.length && (x / l.pieceLength in complete || (responsive && BitAt(l, x) in dirty))
  }

  /** How far the bits set from `start` on reach, up to `end`. */
  method ReadyRun(dirty: seq<nat>, start: nat, end: nat) returns (curr: nat)
    requires Bitmap(dirty) && start <= end
    ensures start <= curr <= end && (forall b | start <= b < curr :: b in dirty) && (curr < end ==> curr !in dirty)
  {
    var j := AdvanceIfNeeded(dirty, 0, start);
    curr := start;
    while j < |dirty|
      invariant j <= |dirty| && start <= curr <= end
      invariant forall b | start <= b < curr :: b in dirty
      invariant forall i | 0 <= i < j :: dirty[i] < curr
      invariant forall i | j <= i < |dirty| :: dirty[i] >= curr
      decreases |dirty| - j
    {
      if dirty[j] != curr || curr >= end {
        return;
      }
      curr := curr + 1;
      j := j + 1;
    }
  }

  /** Bytes of one piece. */
  lemma InPiece(l: Layout, i: nat, x: nat)
    requires l.Valid() && i < l.NumPieces() && i * l.pieceLength <= x < i * l.pieceLength + l.PieceLen(i)
    ensures x < l.length && x / l.pieceLength == i && x % l.pieceLength == x - i * l.pieceLength
  {
    PieceLenBound(l, i);
    DivUnique(x, l.pieceLength, i);
  }

  /** A position between the start of chunk c and the end of chunk c + n - 1 is in one of them. */
  lemma InChunks(y: nat, cs: nat, c: nat, n: nat)
    requires cs > 0 && c * cs <= y < (c + n) * cs
    ensures c <= y / cs < c + n
  {
    DivFloor(y, cs);
    if y / cs < c {
      MulLe(y / cs + 1, c, cs);
    }
    if y / cs >= c + n {
      MulLe(c + n, y / cs, cs);
    }
  }

  /** Bytes of a run of chunks of one piece have the run's bits. */
  lemma InRun(l: Layout, i: nat, x: nat, c: nat, n: nat)
    requires l.Valid() && i < l.NumPieces() && i * l.pieceLength <= x < i * l.pieceLength + l.PieceLen(i)
    requires c * l.chunkSize <= x - i * l.pieceLength < (c + n) * l.chunkSize
    ensures x < l.length && x / l.pieceLength == i && l.Offset(i) + c <= BitAt(l, x) < l.Offset(i) + c + n
  {
    hide Layout.PieceLen, Layout.NumPieces, Layout.Offset;
    InPiece(l, i, x);
    InChunks(x - i * l.pieceLength, l.chunkSize, c, n);
  }

  /** The first byte after a run that ends inside its piece has the bit after the run. */
  lemma AfterRun(l: Layout, i: nat, c: nat)
    requires l.Valid() && i < l.NumPieces() && c * l.chunkSize < l.PieceLen(i)
    ensures var x := i * l.pieceLength + c * l.chunkSize; x / l.pieceLength == i && BitAt(l, x) == l.Offset(i) + c
  {
    InPiece(l, i, i * l.pieceLength + c * l.chunkSize);
    DivUnique(c * l.chunkSize, l.chunkSize, c);
  }

  ghost predicate AllReady(l: Layout, complete: set<nat>, dirty: seq<nat>, responsive: bool, from: int, to: int)
    requires l.Valid()
  {
    forall x | from <= x < to :: Ready(l, complete, dirty, responsive, x)
  }

  function Cap(n: int, max: int): int {
    if n > max then max else n
  }

  /** Where byte `off` lies: its piece, and the number and position of its chunk there. */
  lemma Where(l: Layout, off: int)
    requires l.Valid() && l.OffsetRequest(off).Some?
    ensures var q := l.OffsetRequest(off).value; var c := q.begin / l.chunkSize; var x := off - q.index * l.pieceLength;
            && q.index == off / l.pieceLength < l.NumPieces() && 0 <= x < l.PieceLen(q.index)
            && q.begin == c * l.chunkSize <= x < q.begin + l.chunkSize
            && c < l.PerPiece() && BitAt(l, off) == l.Offset(q.index) + c
  {
    OffsetRequestHolds(l, off);
    var q := l.OffsetRequest(off).value;
    var r := l.FromRequest(q);
    BlockBytes(l, r, off);
    DivFloor(off, l.pieceLength);
    DivFloor(off % l.pieceLength, l.chunkSize);
    DivUnique(q.begin, l.chunkSize, off % l.pieceLength / l.chunkSize);
    CeilDiv(l.length, l.pieceLength, q.index);
    PieceLenBound(l, q.index);
    ChunkInPiece(l, q.index, q.begin / l.chunkSize);
  }

  /** Chunk c + ready is where a run of chunks of piece i stops; x0 is the offset's position in the piece. */
  lemma RunReady(l: Layout, complete: set<nat>, dirty: seq<nat>, i: nat, c: nat, ready: nat, x0: nat, n: nat)
    requires l.Valid() && i < l.NumPieces() && c * l.chunkSize <= x0
    requires x0 + n <= l.PieceLen(i) && x0 + n <= (c + ready) * l.chunkSize
    requires forall b | l.Offset(i) + c <= b < l.Offset(i) + c + ready :: b in dirty
    ensures AllReady(l, complete, dirty, true, i * l.pieceLength + x0, i * l.pieceLength + x0 + n)
  {
    forall x | i * l.pieceLength + x0 <= x < i * l.pieceLength + x0 + n
      ensures Ready(l, complete, dirty, true, x)
    {
      InRun(l, i, x, c, ready);
    }
  }

  /** A run that ends before its piece's last bit ends at a byte that is not ready. */
  lemma RunStops(l: Layout, complete: set<nat>, dirty: seq<nat>, i: nat, c: nat)
    requires l.Valid() && i < l.NumPieces() && i !in complete
    requires c < l.PerPiece() && l.Offset(i) + c !in dirty
    ensures !Ready(l, complete, dirty, true, i * l.pieceLength + Cap(c * l.chunkSize, l.PieceLen(i)))
  {
    ChunkInPiece(l, i, c);
    PieceLenBound(l, i);
    if c * l.chunkSize < l.PieceLen(i) {
      AfterRun(l, i, c);
    } else if i + 1 < l.NumPieces() {
      assert false;
    }
  }

  lemma OffsetNext(l: Layout, i: nat)
    requires l.Valid()
    ensures l.Offset(i + 1) == l.Offset(i) + l.PerPiece()
  {
    assert (i + 1) * l.PerPiece() == i * l.PerPiece() + l.PerPiece();
  }

  /** The chunk-by-chunk half of a turn, inside piece i from its byte x0 in chunk c on. */
  method ServeRun(l: Layout, complete: set<nat>, dirty: seq<nat>, i: nat, c: nat, x0: nat, max: nat)
    returns (n: nat, more: bool)
    requires l.Valid() && Bitmap(dirty) && max > 0 && i < l.NumPieces() && i !in complete && x0 < l.PieceLen(i)
    requires c < l.PerPiece() && c * l.chunkSize <= x0 < c * l.chunkSize + l.chunkSize
    requires BitAt(l, i * l.pieceLength + x0) == l.Offset(i) + c && (i * l.pieceLength + x0) / l.pieceLength == i
    ensures n <= max && AllReady(l, complete, dirty, true, i * l.pieceLength + x0, i * l.pieceLength + x0 + n)
    ensures if more then n > 0 else n == max || !Ready(l, complete, dirty, true, i * l.pieceLength + x0 + n)
  {
    hide Bitmap, BitAt, Layout.PieceLen, Layout.PerPiece, Layout.NumPieces, Layout.Offset;
    OffsetNext(l, i);
    var start := l.Offset(i) + c;
    var curr := ReadyRun(dirty, start, l.Offset(i + 1));
    var ready := curr - start;
    if ready <= 0 {
      return 0, false;
    }
    MulLe(1, ready, l.chunkSize);
    assert (c + ready) * l.chunkSize == c * l.chunkSize + ready * l.chunkSize;
    var canServe := Cap(ready * l.chunkSize - (x0 - c * l.chunkSize), l.PieceLen(i) - x0);
    n := Cap(canServe, max);
    more := curr >= l.Offset(i + 1);
    RunReady(l, complete, dirty, i, c, ready, x0, n);
    if !more {
      RunStops(l, complete, dirty, i, c + ready);
    }
  }

  /** One turn of AvailableRange's loop: how many bytes it adds, and whether it goes on. */
  method Serve(l: Layout, complete: set<nat>, dirty: seq<nat>, off: int, max: nat, responsive: bool)
    returns (n: nat, more: bool)
    requires l.Valid() && Bitmap(dirty) && max > 0
    ensures n <= max && AllReady(l, complete, dirty, responsive, off, off + n)
    ensures if more then n > 0 else n == max || !Ready(l, complete, dirty, responsive, off + n)
  {
    hide Bitmap, BitAt, Layout.PieceLen, Layout.PerPiece, Layout.NumPieces;
    BlocksTile(l, off);
    var req := l.OffsetRequest(off);
    if req.None? {
      return 0, false;
    }
    Where(l, off);
    var i := req.value.index;
    var x0 := off - i * l.pieceLength;
    if i in complete {
      n := Cap(l.PieceLen(i) - x0, max);
      forall x | off <= x < off + n
        ensures Ready(l, complete, dirty, responsive, x)
      {
        InPiece(l, i, x);
      }
      return n, true;
    }
    if !responsive {
      return 0, false;
    }
    n, more := ServeRun(l, complete, dirty, i, req.value.begin / l.chunkSize, x0, max);
  }

  /** AvailableRange returns the length of the longest run of ready bytes from off on, up to max, and 0 before the
      info is known. */
  method AvailableRange(info: Option<Layout>, complete: set<nat>, dirty: seq<nat>, off: int, max: int, responsive: bool)
    returns (avail: nat)
    requires (info.Some? ==> info.value.Valid()) && Bitmap(dirty)
    ensures avail <= if max < 0 then 0 else max
    ensures info.None? ==> avail == 0
    ensures info.Some? ==> AllReady(info.value, complete, dirty, responsive, off, off + avail)
    ensures info.Some? && avail < max ==> !Ready(info.value, complete, dirty, responsive, off + avail)
  {
    hide Ready, Bitmap;
    avail := 0;
    if info.None? {
      return;
    }
    while avail < max
      invariant avail <= if max < 0 then 0 else max
      invariant AllReady(info.value, complete, dirty, responsive, off, off + avail)
    {
      var n, more := Serve(info.value, complete, dirty, off + avail, max - avail, responsive);
      avail := avail + n;
      if !more {
        break;
      }
    }
  }
}
