/** The byte layout of a torrent: pieces, chunks, request indexes and the conversions between
    them (misc.go and the request-index arithmetic of torrent.go). A torrent of `length` bytes is cut into
    pieces of `pieceLength` bytes (the last one may be short) and every piece into chunks of
    `chunkSize` bytes (the last one of each piece may be short). */
module Layouts {
  import opened Wrappers

  /** One block on the wire: `length` bytes at `begin` inside piece `index`. */
  datatype Request = Request(index: nat, begin: nat, length: nat)

  datatype Layout = Layout(length: nat, pieceLength: nat, chunkSize: nat) {
    ghost predicate Valid() {
      pieceLength > 0 && chunkSize > 0
    }

    /** validateInfo ties the piece count to the total length. */
    function NumPieces(): nat
      requires Valid()
    {
      (length + pieceLength - 1) / pieceLength
    }

    function PieceLen(i: nat): nat
      requires Valid()
    {
      if i + 1 == NumPieces() && length % pieceLength != 0 then length % pieceLength else pieceLength
    }

    function PerPiece(): nat
      requires Valid()
    {
      (pieceLength + chunkSize - 1) / chunkSize
    }

    function NumChunks(i: nat): nat
      requires Valid()
    {
      (PieceLen(i) + chunkSize - 1) / chunkSize
    }

    /** The first request index of piece i. */
    function Offset(i: nat): nat
      requires Valid()
    {
      i * PerPiece()
    }

    function PieceOf(r: nat): nat
      requires Valid()
    {
      PerPieceBound(this);
      r / PerPiece()
    }

    function ChunkOf(r: nat): nat
      requires Valid()
    {
      PerPieceBound(this);
      r % PerPiece()
    }

    /** Request indexes that name a block of the torrent. */
    predicate ValidIndex(r: nat)
      requires Valid()
    {
      PieceOf(r) < NumPieces() && ChunkOf(r) < NumChunks(PieceOf(r))
    }

    function ToRequest(r: nat): Request
      requires Valid()
      requires ValidIndex(r)
    {
      ChunkInPiece(this, PieceOf(r), ChunkOf(r));
      var (begin, len) := ChunkIndexSpec(ChunkOf(r), PieceLen(PieceOf(r)), chunkSize);
      Request(PieceOf(r), begin, len)
    }

    function FromRequest(q: Request): nat
      requires Valid()
    {
      Offset(q.index) + q.begin / chunkSize
    }

    /** torrentRequestOffset, without its range check. */
    function RequestOffset(q: Request): nat {
      q.index * pieceLength + q.begin
    }

    /** torrentOffsetRequest: the block that holds a byte offset. */
    function OffsetRequest(off: int): Option<Request>
      requires Valid()
    {
      if off < 0 || off >= length then None
      else
        var index := off / pieceLength;
        var begin := off % pieceLength / chunkSize * chunkSize;
        DivFloor(off, pieceLength);
        DivFloor(off % pieceLength, chunkSize);
        var pieceLeft := pieceLength - begin;
        var len := if chunkSize > pieceLeft then pieceLeft else chunkSize;
        var torrentLeft := length - index * pieceLength - begin;
        Some(Request(index, begin, if len > torrentLeft then torrentLeft else len))
    }

    /** Byte `off` of the torrent lies in block `q`. */
    ghost predicate Holds(q: Request, off: int) {
      RequestOffset(q) <= off < RequestOffset(q) + q.length
    }
  }

  /** chunkIndexSpec on unbounded integers. */
  function ChunkIndexSpec(index: nat, pieceLength: nat, chunkSize: nat): (nat, nat)
    requires index * chunkSize <= pieceLength
  {
    var begin := index * chunkSize;
    (begin, if begin + chunkSize > pieceLength then pieceLength - begin else chunkSize)
  }

  /** The request indexes of a torrent, each with its piece. */
  type Blocks = map<nat, nat>

  function BlockSet(b: Blocks, i: nat): set<nat> {
    set r | r in b && b[r] == i
  }

  predicate Within(i: nat, lo: nat, hi: nat) {
    lo <= i < hi
  }

  function Interval(lo: nat, hi: nat): set<nat> {
    set i: nat | lo <= i < hi && Within(i, lo, hi)
  }

  const U32: nat := 0x1_0000_0000

  /** chunkIndexSpec as the code runs it, on 32-bit unsigned integers. */
  function ChunkIndexSpec32(index: nat, pieceLength: nat, chunkSize: nat): (nat, nat)
    requires index * chunkSize <= pieceLength < U32 && chunkSize < U32
  {
    var begin := index * chunkSize;
    (begin, if (begin + chunkSize) % U32 > pieceLength then pieceLength - begin else chunkSize)
  }

  /** The 32-bit form gives the right block exactly when its end does not wrap around. */
  lemma ChunkIndexSpecWrap(index: nat, pieceLength: nat, chunkSize: nat)
    requires index * chunkSize < pieceLength < U32 && chunkSize < U32
    ensures ChunkIndexSpec32(index, pieceLength, chunkSize) == ChunkIndexSpec(index, pieceLength, chunkSize)
      <==> index * chunkSize + chunkSize < U32
  {
    var begin := index * chunkSize;
    if begin + chunkSize >= U32 {
      assert (begin + chunkSize) % U32 == begin + chunkSize - U32;
    } else {
      assert (begin + chunkSize) % U32 == begin + chunkSize;
    }
  }

  // ---- arithmetic ----

  lemma DivFloor(a: nat, b: nat)
    requires b > 0
    ensures 0 <= a / b * b <= a < a / b * b + b
    ensures a == a / b * b + a % b
  {
  }

  lemma MulLe(a: nat, b: nat, c: nat)
    requires a <= b
    ensures a * c <= b * c
  {
  }

  /** q is the quotient of a by b as soon as it brackets a. */
  lemma DivUnique(a: nat, b: nat, q: nat)
    requires b > 0 && q * b <= a < q * b + b
    ensures a / b == q && a % b == a - q * b
  {
    DivFloor(a, b);
    if a / b < q {
      MulLe(a / b + 1, q, b);
    } else if a / b > q {
      MulLe(q + 1, a / b, b);
    }
  }

  /** Ceiling division: c is below it exactly when the c-th cell starts before a. */
  lemma CeilDiv(a: nat, b: nat, c: nat)
    requires b > 0
    ensures c < (a + b - 1) / b <==> c * b < a
  {
    var n := (a + b - 1) / b;
    DivFloor(a + b - 1, b);
    if c < n {
      MulLe(c + 1, n, b);
    } else {
      MulLe(n, c, b);
    }
  }

  lemma PerPieceBound(l: Layout)
    requires l.Valid()
    ensures l.PerPiece() > 0
  {
    CeilDiv(l.pieceLength, l.chunkSize, 0);
  }

  // ---- layout facts ----

  lemma PieceLenBound(l: Layout, i: nat)
    requires l.Valid()
    ensures 0 < l.PieceLen(i) <= l.pieceLength
    ensures i < l.NumPieces() ==> i * l.pieceLength + l.PieceLen(i) <= l.length
    ensures i + 1 < l.NumPieces() ==> l.PieceLen(i) == l.pieceLength
    ensures i + 1 == l.NumPieces() ==> i * l.pieceLength + l.PieceLen(i) == l.length
  {
    CeilDiv(l.length, l.pieceLength, i);
    CeilDiv(l.length, l.pieceLength, i + 1);
    if i + 1 == l.NumPieces() {
      LastCell(l.length, l.pieceLength, i);
    } else if i + 1 < l.NumPieces() {
      assert i * l.pieceLength + l.pieceLength == (i + 1) * l.pieceLength;
    }
  }

  /** The last cell of a ceiling division holds the remainder, or a whole cell when there is none. */
  lemma LastCell(a: nat, b: nat, i: nat)
    requires b > 0 && i * b < a <= (i + 1) * b
    ensures i * b + (if a % b != 0 then a % b else b) == a
  {
    if a < (i + 1) * b {
      DivUnique(a, b, i);
    } else {
      DivUnique(a, b, i + 1);
    }
  }

  lemma ChunkInPiece(l: Layout, i: nat, c: nat)
    requires l.Valid()
    ensures c < l.NumChunks(i) <==> c * l.chunkSize < l.PieceLen(i)
    ensures c < l.PerPiece() <==> c * l.chunkSize < l.pieceLength
    ensures l.NumChunks(i) <= l.PerPiece()
  {
    CeilDiv(l.PieceLen(i), l.chunkSize, c);
    CeilDiv(l.pieceLength, l.chunkSize, c);
    PieceLenBound(l, i);
    CeilDiv(l.PieceLen(i), l.chunkSize, l.PerPiece());
    CeilDiv(l.pieceLength, l.chunkSize, l.PerPiece());
  }

  /** The request indexes of piece i are the interval that starts at Offset(i). */
  lemma PieceInterval(l: Layout, i: nat, r: nat)
    requires l.Valid()
    ensures i < l.NumPieces() && l.Offset(i) <= r < l.Offset(i) + l.NumChunks(i)
      <==> l.ValidIndex(r) && l.PieceOf(r) == i
  {
    PerPieceBound(l);
    ChunkInPiece(l, i, 0);
    DivFloor(r, l.PerPiece());
    if i < l.NumPieces() && l.Offset(i) <= r < l.Offset(i) + l.NumChunks(i) {
      DivUnique(r, l.PerPiece(), i);
    }
  }

  /** Converting an index to a block and back is the identity. */
  lemma IndexRoundTrip(l: Layout, r: nat)
    requires l.Valid() && l.ValidIndex(r)
    ensures l.FromRequest(l.ToRequest(r)) == r
    ensures l.ToRequest(r).length > 0
  {
    var c := l.ChunkOf(r);
    PerPieceBound(l);
    DivFloor(r, l.PerPiece());
    ChunkInPiece(l, l.PieceOf(r), c);
    DivUnique(c * l.chunkSize, l.chunkSize, c);
  }

  /** The block that holds a byte is the block of a valid index, and it does hold the byte. */
  lemma OffsetRequestHolds(l: Layout, off: nat)
    requires l.Valid() && off < l.length
    ensures l.OffsetRequest(off).Some?
    ensures var q := l.OffsetRequest(off).value;
            l.ValidIndex(l.FromRequest(q)) && l.ToRequest(l.FromRequest(q)) == q && l.Holds(q, off)
  {
    var i := off / l.pieceLength;
    var inPiece := off % l.pieceLength;
    var c := inPiece / l.chunkSize;
    var q := l.OffsetRequest(off).value;
    DivFloor(off, l.pieceLength);
    DivFloor(inPiece, l.chunkSize);
    CeilDiv(l.length, l.pieceLength, i);
    PieceLenBound(l, i);
    ChunkInPiece(l, i, c);
    DivUnique(c * l.chunkSize, l.chunkSize, c);
    PerPieceBound(l);
    assert q.begin / l.chunkSize == c;
    DivUnique(i * l.PerPiece() + c, l.PerPiece(), i);
  }

  /** No two blocks share a byte. */
  lemma BlocksDisjoint(l: Layout, r1: nat, r2: nat, off: nat)
    requires l.Valid() && l.ValidIndex(r1) && l.ValidIndex(r2)
    requires l.Holds(l.ToRequest(r1), off) && l.Holds(l.ToRequest(r2), off)
    ensures r1 == r2 && off < l.length
  {
    BlockBytes(l, r1, off);
    BlockBytes(l, r2, off);
    PerPieceBound(l);
    DivFloor(r1, l.PerPiece());
    DivFloor(r2, l.PerPiece());
  }

  lemma BlockBytes(l: Layout, r: nat, off: nat)
    requires l.Valid() && l.ValidIndex(r) && l.Holds(l.ToRequest(r), off)
    ensures off < l.length
    ensures l.PieceOf(r) == off / l.pieceLength
    ensures l.ChunkOf(r) == off % l.pieceLength / l.chunkSize
  {
    var i, c := l.PieceOf(r), l.ChunkOf(r);
    PieceLenBound(l, i);
    ChunkInPiece(l, i, c);
    DivUnique(off, l.pieceLength, i);
    DivUnique(off - i * l.pieceLength, l.chunkSize, c);
  }

  /** The blocks of all valid indexes tile [0, length): a byte offset is inside the torrent exactly
      when some block holds it, and then exactly one does, the one torrentOffsetRequest returns. */
  lemma BlocksTile(l: Layout, off: int)
    requires l.Valid()
    ensures 0 <= off < l.length <==> l.OffsetRequest(off).Some?
    ensures l.OffsetRequest(off).Some? ==>
              var r := l.FromRequest(l.OffsetRequest(off).value);
              l.ValidIndex(r) && forall r': nat | l.ValidIndex(r') :: l.Holds(l.ToRequest(r'), off) <==> r' == r
    ensures l.OffsetRequest(off).None? ==> forall r': nat | l.ValidIndex(r') :: !l.Holds(l.ToRequest(r'), off)
  {
    if 0 <= off < l.length {
      OffsetRequestHolds(l, off);
      var r := l.FromRequest(l.OffsetRequest(off).value);
      forall r': nat | l.ValidIndex(r')
        ensures l.Holds(l.ToRequest(r'), off) <==> r' == r
      {
        if l.Holds(l.ToRequest(r'), off) {
          BlocksDisjoint(l, r, r', off);
        }
      }
    } else {
      forall r': nat | l.ValidIndex(r')
        ensures !l.Holds(l.ToRequest(r'), off)
      {
        if l.Holds(l.ToRequest(r'), off) {
          BlockBytes(l, r', off);
        }
      }
    }
  }

  // ---- the request indexes as a map ----

  function BlocksOf(l: Layout): Blocks
    requires l.Valid()
  {
    map r: nat | r < l.NumPieces() * l.PerPiece() && l.ValidIndex(r) :: l.PieceOf(r)
  }

  lemma BlocksOfLayout(l: Layout, r: nat)
    requires l.Valid()
    ensures r in BlocksOf(l) <==> l.ValidIndex(r)
    ensures r in BlocksOf(l) ==> BlocksOf(l)[r] == l.PieceOf(r) < l.NumPieces()
  {
    PerPieceBound(l);
    DivFloor(r, l.PerPiece());
    if l.ValidIndex(r) {
      MulLe(l.PieceOf(r) + 1, l.NumPieces(), l.PerPiece());
    }
  }

  lemma BlockSetInterval(l: Layout, i: nat)
    requires l.Valid() && i < l.NumPieces()
    ensures BlockSet(BlocksOf(l), i) == Interval(l.Offset(i), l.Offset(i) + l.NumChunks(i))
    ensures |BlockSet(BlocksOf(l), i)| == l.NumChunks(i)
  {
    forall r: nat
      ensures r in BlockSet(BlocksOf(l), i) <==> r in Interval(l.Offset(i), l.Offset(i) + l.NumChunks(i))
    {
      BlocksOfLayout(l, r);
      PieceInterval(l, i, r);
    }
    IntervalSize(l.Offset(i), l.Offset(i) + l.NumChunks(i));
  }

  /** The valid indexes up to the next piece's first are the piece's own, also for a short piece. */
  lemma BlockSetSpan(l: Layout, i: nat)
    requires l.Valid() && i < l.NumPieces()
    ensures BlocksOf(l).Keys * Interval(l.Offset(i), l.Offset(i + 1)) == BlockSet(BlocksOf(l), i)
  {
    forall r: nat
      ensures r in BlockSet(BlocksOf(l), i) <==> r in BlocksOf(l) && l.Offset(i) <= r < l.Offset(i + 1)
    {
      BlocksOfLayout(l, r);
      IndexSpan(l, i, r);
    }
  }

  lemma IndexSpan(l: Layout, i: nat, r: nat)
    requires l.Valid()
    ensures l.PieceOf(r) == i <==> l.Offset(i) <= r < l.Offset(i + 1)
  {
    PerPieceBound(l);
    DivFloor(r, l.PerPiece());
    assert l.Offset(i + 1) == l.Offset(i) + l.PerPiece();
    if l.Offset(i) <= r < l.Offset(i + 1) {
      DivUnique(r, l.PerPiece(), i);
    }
  }

  lemma {:induction false} IntervalSize(lo: nat, hi: nat)
    requires lo <= hi
    ensures |Interval(lo, hi)| == hi - lo
    decreases hi
  {
    if lo < hi {
      IntervalSize(lo, hi - 1);
      assert Interval(lo, hi) == Interval(lo, hi - 1) + {hi - 1};
    }
  }
}
