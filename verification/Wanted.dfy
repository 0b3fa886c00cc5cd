/** Which pieces are wanted: the inputs of a piece's priority (piece.go, reader.go, file.go) and the
    cache of pending pieces derived from them (torrent.go), as values. */
module Wanted {
  import opened Layouts

  const PRIORITY_NONE: nat := 0
  const PRIORITY_READAHEAD: nat := 3
  const PRIORITY_NOW: nat := 5

  datatype Piece = Piece(hashing: bool, marking: bool, completionOk: bool, priority: nat, pendingWrites: nat)

  /** Pieces [begin, end). */
  datatype Range = Range(begin: nat, end: nat) {
    predicate Has(i: nat) {
      begin <= i < end
    }

    /** All but the first piece. */
    function Tail(): set<nat> {
      Interval(begin + 1, end)
    }
  }

  datatype File = File(begin: nat, end: nat, priority: nat)

  /** What storage says about a piece. */
  datatype Completion = Completion(complete: bool, ok: bool)

  /** `now` and `readahead` are the cached reader piece sets, `pending` is _pendingPieces. */
  datatype Want = Want(
    pieces: seq<Piece>,
    completed: set<nat>,
    queued: set<nat>,
    pending: set<nat>,
    readers: map<nat, Range>,
    now: set<nat>,
    readahead: set<nat>,
    files: seq<File>)

  function Raise(a: nat, b: nat): nat {
    if b > a then b else a
  }

  /** The highest priority of a file with bytes in piece i. */
  function FilePriority(files: seq<File>, i: nat): nat {
    if files == [] then PRIORITY_NONE
    else
      var f := files[|files| - 1];
      var rest := FilePriority(files[..|files| - 1], i);
      if f.begin <= i < f.end then Raise(rest, f.priority) else rest
  }

  function PurePriority(w: Want, i: nat): nat
    requires i < |w.pieces|
  {
    var byFile := FilePriority(w.files, i);
    var byNow := if i in w.now then Raise(byFile, PRIORITY_NOW) else byFile;
    var byReadahead := if i in w.readahead then Raise(byNow, PRIORITY_READAHEAD) else byNow;
    Raise(byReadahead, w.pieces[i].priority)
  }

  function UncachedPriority(w: Want, i: nat): nat
    requires i < |w.pieces|
  {
    if w.pieces[i].hashing || w.pieces[i].marking || i in w.completed || i in w.queued then PRIORITY_NONE
    else PurePriority(w, i)
  }

  /** readerPiecePriorities: the first piece of every reader's range. */
  function ReaderNow(readers: map<nat, Range>): set<nat> {
    set id | id in readers && readers[id].begin < readers[id].end :: readers[id].begin
  }

  /** readerPiecePriorities: the other pieces of the readers' ranges. */
  function ReaderReadahead(readers: map<nat, Range>): set<nat> {
    set id, i | id in readers && i in readers[id].Tail() :: i
  }

  /** pending is right for every piece but those in `stale`. */
  ghost predicate PendingExcept(w: Want, stale: set<nat>) {
    && (forall i | i in w.pending :: i < |w.pieces|)
    && (forall i | 0 <= i < |w.pieces| && i !in stale :: i in w.pending <==> UncachedPriority(w, i) != PRIORITY_NONE)
  }

  ghost predicate Shape(w: Want) {
    && (forall id | id in w.readers :: w.readers[id].end <= |w.pieces|)
    && (forall f | f in w.files :: f.end <= |w.pieces|)
    && w.now == ReaderNow(w.readers)
    && w.readahead == ReaderReadahead(w.readers)
  }

  ghost predicate WantInv(w: Want) {
    Shape(w) && PendingExcept(w, {})
  }

  // ---- who wants a piece ----

  /** Storage has the piece, or it is on its way through a hash check. */
  predicate Settled(w: Want, i: nat)
    requires i < |w.pieces|
  {
    i in w.completed || i in w.queued || w.pieces[i].hashing || w.pieces[i].marking
  }

  ghost predicate ReaderWants(w: Want, i: nat) {
    exists id :: id in w.readers && w.readers[id].Has(i)
  }

  ghost predicate FileWants(files: seq<File>, i: nat) {
    exists k :: 0 <= k < |files| && files[k].begin <= i < files[k].end && files[k].priority > PRIORITY_NONE
  }

  lemma {:induction false} FilePriorityIff(files: seq<File>, i: nat)
    ensures FilePriority(files, i) != PRIORITY_NONE <==> FileWants(files, i)
  {
    if files != [] {
      var n := |files| - 1;
      FilePriorityIff(files[..n], i);
      assert forall k | 0 <= k < n :: files[..n][k] == files[k];
      if FileWants(files[..n], i) {
        var k :| 0 <= k < n && files[..n][k].begin <= i < files[..n][k].end && files[..n][k].priority > PRIORITY_NONE;
        assert files[k].begin <= i < files[k].end && files[k].priority > PRIORITY_NONE;
      }
    }
  }

  lemma ReaderSetsIff(w: Want, i: nat)
    requires Shape(w)
    ensures i in w.now || i in w.readahead <==> ReaderWants(w, i)
  {
    if ReaderWants(w, i) {
      var id :| id in w.readers && w.readers[id].Has(i);
      if i == w.readers[id].begin {
        assert i in ReaderNow(w.readers);
      } else {
        assert i in w.readers[id].Tail();
      }
    }
    if i in w.now {
      var id :| id in w.readers && w.readers[id].begin < w.readers[id].end && w.readers[id].begin == i;
      assert w.readers[id].Has(i);
    }
    if i in w.readahead {
      var id :| id in w.readers && i in w.readers[id].Tail();
      assert w.readers[id].Has(i);
    }
  }

  /** A piece has a priority exactly when a reader's range, a file with a priority or the piece itself asks for it
      and it is neither complete nor on its way through a check. */
  lemma WantedIff(w: Want, i: nat)
    requires Shape(w) && i < |w.pieces|
    ensures UncachedPriority(w, i) != PRIORITY_NONE <==>
            !Settled(w, i) && (ReaderWants(w, i) || FileWants(w.files, i) || w.pieces[i].priority > PRIORITY_NONE)
  {
    FilePriorityIff(w.files, i);
    ReaderSetsIff(w, i);
  }

  /** Somebody asks for piece i at this level: a reader that starts with it, one that reads on to it, a file, or the
      piece itself. */
  ghost predicate AskedAt(w: Want, i: nat, level: nat)
    requires i < |w.pieces|
  {
    || (level == PRIORITY_NOW && exists id :: id in w.readers && w.readers[id].Has(i) && w.readers[id].begin == i)
    || (level == PRIORITY_READAHEAD && exists id :: id in w.readers && w.readers[id].Has(i) && w.readers[id].begin < i)
    || (exists k :: 0 <= k < |w.files| && w.files[k].begin <= i < w.files[k].end && w.files[k].priority == level)
    || w.pieces[i].priority == level
  }

  lemma {:induction false} FilePriorityMax(files: seq<File>, i: nat)
    ensures var level := FilePriority(files, i);
            && (level == PRIORITY_NONE
                || exists k :: 0 <= k < |files| && files[k].begin <= i < files[k].end && files[k].priority == level)
            && (forall k | 0 <= k < |files| && files[k].begin <= i < files[k].end :: files[k].priority <= level)
  {
    if files != [] {
      var n := |files| - 1;
      FilePriorityMax(files[..n], i);
      assert forall k | 0 <= k < n :: files[..n][k] == files[k];
      var level := FilePriority(files[..n], i);
      if level != PRIORITY_NONE {
        var k :| 0 <= k < n && files[..n][k].begin <= i < files[..n][k].end && files[..n][k].priority == level;
        assert files[k].begin <= i < files[k].end && files[k].priority == level;
      }
    }
  }

  lemma ReaderLevels(w: Want, i: nat)
    requires Shape(w)
    ensures i in w.now <==> exists id :: id in w.readers && w.readers[id].Has(i) && w.readers[id].begin == i
    ensures i in w.readahead <==> exists id :: id in w.readers && w.readers[id].Has(i) && w.readers[id].begin < i
  {
    if i in w.now {
      var id :| id in w.readers && w.readers[id].begin < w.readers[id].end && w.readers[id].begin == i;
      assert w.readers[id].Has(i);
    }
    if i in w.readahead {
      var id :| id in w.readers && i in w.readers[id].Tail();
      assert w.readers[id].Has(i);
    }
    if id :| id in w.readers && w.readers[id].Has(i) && w.readers[id].begin < i {
      assert i in w.readers[id].Tail();
    }
  }

  /** A piece that is still to be had has the highest level anybody asks for it at, and none if nobody does. */
  lemma PriorityIsHighest(w: Want, i: nat)
    requires Shape(w) && i < |w.pieces| && !Settled(w, i)
    ensures var level := UncachedPriority(w, i);
            && (level == PRIORITY_NONE || AskedAt(w, i, level))
            && (forall other: nat | AskedAt(w, i, other) :: other <= level)
  {
    FilePriorityMax(w.files, i);
    ReaderLevels(w, i);
    hide Shape, FilePriority;
  }

  // ---- readers ----

  /** byteRegionPieces: the pieces [begin, end) that hold the bytes [off, off + size). */
  function ByteRegionPieces(l: Layout, off: int, size: int): Range
    requires l.Valid()
  {
    if off >= l.length then Range(0, 0)
    else
      var size' := if off < 0 then size + off else size;
      var off' := if off < 0 then 0 else off;
      if size' <= 0 then Range(0, 0)
      else Region(l, off', off' + size')
  }

  /** The pieces from the one that holds byte lo to the one that holds the byte before hi, none past the last. */
  function Region(l: Layout, lo: nat, hi: nat): Range
    requires l.Valid()
  {
    var end := (hi + l.pieceLength - 1) / l.pieceLength;
    Range(lo / l.pieceLength, if end > l.NumPieces() then l.NumPieces() else end)
  }

  /** Byte b of the torrent lies in piece i. */
  ghost predicate ByteIn(l: Layout, b: nat, i: nat)
    requires l.Valid()
  {
    b < l.length && b / l.pieceLength == i
  }

  /** A piece is in the region exactly when it holds a byte of the region inside the torrent. */
  lemma ByteRegionExact(l: Layout, off: int, size: int, i: nat)
    requires l.Valid()
    ensures ByteRegionPieces(l, off, size).end <= l.NumPieces()
    ensures ByteRegionPieces(l, off, size).Has(i) <==> exists b: nat | ByteIn(l, b, i) :: off <= b < off + size
  {
    var lo := if off < 0 then 0 else off;
    if lo < l.length && lo < off + size {
      hide Region;
      assert ByteRegionPieces(l, off, size) == Region(l, lo, off + size);
      RegionHas(l, lo, off + size, i);
    }
  }

  lemma RegionHas(l: Layout, lo: nat, hi: nat, i: nat)
    requires l.Valid() && lo < hi && lo < l.length
    ensures Region(l, lo, hi).end <= l.NumPieces()
    ensures Region(l, lo, hi).Has(i) <==> exists b: nat | ByteIn(l, b, i) :: lo <= b < hi
  {
    RegionBounds(l, lo, hi, i);
    RegionBytes(l, lo, hi, i);
  }

  lemma RegionBytes(l: Layout, lo: nat, hi: nat, i: nat)
    requires l.Valid() && lo < hi && lo < l.length
    ensures lo / l.pieceLength <= i && i * l.pieceLength < hi && i * l.pieceLength < l.length
      <==> exists b: nat | ByteIn(l, b, i) :: lo <= b < hi
  {
    if lo / l.pieceLength <= i && i * l.pieceLength < hi && i * l.pieceLength < l.length {
      RegionBounds(l, lo, hi, i);
      var b: nat := if lo < i * l.pieceLength then i * l.pieceLength else lo;
      DivUnique(i * l.pieceLength, l.pieceLength, i);
      assert ByteIn(l, b, i);
    }
    forall b: nat | ByteIn(l, b, i) && lo <= b < hi
      ensures lo / l.pieceLength <= i && i * l.pieceLength < hi && i * l.pieceLength < l.length
    {
      ByteAfter(l, lo, b, i);
    }
  }

  lemma ByteAfter(l: Layout, lo: nat, b: nat, i: nat)
    requires l.Valid() && ByteIn(l, b, i) && lo <= b
    ensures lo / l.pieceLength <= i && i * l.pieceLength <= b
  {
    DivFloor(b, l.pieceLength);
    DivFloor(lo, l.pieceLength);
    if i < lo / l.pieceLength {
      MulLe(i + 1, lo / l.pieceLength, l.pieceLength);
    }
  }

  lemma RegionBounds(l: Layout, lo: nat, hi: nat, i: nat)
    requires l.Valid() && lo < hi && lo < l.length
    ensures i < (hi + l.pieceLength - 1) / l.pieceLength <==> i * l.pieceLength < hi
    ensures i < l.NumPieces() <==> i * l.pieceLength < l.length
    ensures lo / l.pieceLength <= i ==> lo < i * l.pieceLength || lo / l.pieceLength == i
  {
    CeilDiv(hi, l.pieceLength, i);
    CeilDiv(l.length, l.pieceLength, i);
    DivFloor(lo, l.pieceLength);
    if lo / l.pieceLength < i {
      MulLe(lo / l.pieceLength + 1, i, l.pieceLength);
    }
  }

  /** A reader over the bytes [offset, offset + length) of the torrent, at `pos`. */
  datatype Reader = Reader(offset: int, length: int, pos: int, readahead: int, reading: bool)

  /** piecesUncached: the pieces the reader wants; `readahead` is what its readahead function says. */
  function PiecesUncached(l: Layout, r: Reader): Range
    requires l.Valid()
  {
    var ra := if r.readahead < 1 then 1 else r.readahead;
    var ra' := if !r.reading then 0 else ra;
    ByteRegionPieces(l, r.offset + r.pos, if ra' > r.length - r.pos then r.length - r.pos else ra')
  }

  /** The bytes a reader wants: from its position on, as far as its readahead, at least one, but not past its end. */
  predicate Ahead(r: Reader, b: int) {
    r.reading && r.offset + r.pos <= b < r.offset + r.length
    && b < r.offset + r.pos + if r.readahead < 1 then 1 else r.readahead
  }

  /** The pieces a reader wants are exactly those that hold a byte it wants. */
  lemma PiecesUncachedExact(l: Layout, r: Reader, i: nat)
    requires l.Valid()
    ensures PiecesUncached(l, r).Has(i) <==> exists b: nat | ByteIn(l, b, i) :: Ahead(r, b)
  {
    var ra := if !r.reading then 0 else if r.readahead < 1 then 1 else r.readahead;
    var size := if ra > r.length - r.pos then r.length - r.pos else ra;
    var off := r.offset + r.pos;
    ByteRegionExact(l, off, size, i);
    assert forall b: nat :: Ahead(r, b) <==> off <= b < off + size;
  }

  /** A reading reader that stands before its end wants the piece under its position, and wants no
      piece outside its own extent; one that is not reading wants nothing. */
  lemma PiecesUncachedCover(l: Layout, r: Reader)
    requires l.Valid()
    requires 0 <= r.offset && 0 <= r.pos && 0 <= r.length && r.offset + r.length <= l.length
    ensures var p := PiecesUncached(l, r);
            && p.end <= l.NumPieces()
            && (r.reading && r.pos < r.length <==> p.begin < p.end)
            && (r.reading && r.pos < r.length ==> p.begin == (r.offset + r.pos) / l.pieceLength)
            && (forall i: nat | p.Has(i) ::
                  exists b: nat | ByteIn(l, b, i) :: r.offset + r.pos <= b < r.offset + r.length)
  {
    var p := PiecesUncached(l, r);
    var ra := if !r.reading then 0 else if r.readahead < 1 then 1 else r.readahead;
    var size := if ra > r.length - r.pos then r.length - r.pos else ra;
    var off := r.offset + r.pos;
    assert p == ByteRegionPieces(l, off, size);
    if r.reading && r.pos < r.length {
      assert ByteIn(l, off, off / l.pieceLength);
      ByteRegionExact(l, off, size, off / l.pieceLength);
    } else {
      assert p == Range(0, 0);
    }
    forall i: nat | p.Has(i)
      ensures exists b: nat | ByteIn(l, b, i) :: r.offset + r.pos <= b < r.offset + r.length
    {
      ByteRegionExact(l, off, size, i);
      var b: nat :| ByteIn(l, b, i) && off <= b < off + size;
      assert r.offset + r.pos <= b < r.offset + r.length;
    }
  }
}
