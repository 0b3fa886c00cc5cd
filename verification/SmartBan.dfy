/** The writer of smartban.go: it cuts a piece's bytes, written in any portions, into blocks and compares each
    with what the peers were recorded to have sent. */
module SmartBan {
  import opened Wrappers

  type Addr = nat
  type Hash = nat

  datatype Record = Record(peer: Addr, hash: Hash)

  /** smartban.Cache: a hash function and the records of each block. */
  datatype Cache = Cache(hash: seq<Byte> -> Hash, blocks: map<nat, seq<Record>>) {
    /** The peers whose record of the block differs from the data. */
    function Bad(key: nat, data: seq<Byte>): set<Addr> {
      if key in blocks then set r | r in blocks[key] && r.hash != hash(data) :: r.peer else {}
    }
  }

  // ---- the blocks of a stream ----

  /** The whole blocks at the start of a stream. */
  function Whole(s: seq<Byte>, size: nat): seq<seq<Byte>>
    requires size > 0
    decreases |s|
  {
    if |s| < size then [] else [s[..size]] + Whole(s[size..], size)
  }

  /** What is left behind them. */
  function Tail(s: seq<Byte>, size: nat): (t: seq<Byte>)
    requires size > 0
    ensures |t| < size
    decreases |s|
  {
    if |s| < size then s else Tail(s[size..], size)
  }

  /** All blocks, the last one possibly short. */
  function Blocks(s: seq<Byte>, size: nat): seq<seq<Byte>>
    requires size > 0
  {
    if Tail(s, size) == [] then Whole(s, size) else Whole(s, size) + [Tail(s, size)]
  }

  lemma Times(k: nat, size: nat)
    requires k > 0
    ensures k * size == (k - 1) * size + size
  {
  }

  /** The blocks leave nothing out. */
  lemma {:induction false} BlocksCover(s: seq<Byte>, size: nat)
    requires size > 0
    ensures |Whole(s, size)| * size + |Tail(s, size)| == |s| && s[|s| - |Tail(s, size)|..] == Tail(s, size)
    decreases |s|
  {
    if |s| >= size {
      var rest := s[size..];
      BlocksCover(rest, size);
      assert |Whole(s, size)| == |Whole(rest, size)| + 1;
      Times(|Whole(s, size)|, size);
      assert s[|s| - |Tail(s, size)|..] == rest[|rest| - |Tail(rest, size)|..];
    }
  }

  /** Block k is the k-th stretch of `size` bytes. */
  lemma {:induction false} BlockAt(s: seq<Byte>, size: nat, k: nat, at: nat)
    requires size > 0 && k < |Whole(s, size)| && at == k * size
    ensures at + size <= |s| && Whole(s, size)[k] == s[at..at + size]
    decreases k
  {
    if k > 0 {
      Times(k, size);
      var rest := s[size..];
      BlockAt(rest, size, k - 1, at - size);
      assert rest[at - size..at] == s[at..at + size];
    } else {
      assert at == 0;
    }
  }

  /** Appending to a stream only works on its tail. */
  lemma {:induction false} Append(s: seq<Byte>, b: seq<Byte>, size: nat)
    requires size > 0
    ensures Whole(s + b, size) == Whole(s, size) + Whole(Tail(s, size) + b, size)
    ensures Tail(s + b, size) == Tail(Tail(s, size) + b, size)
    decreases |s|
  {
    if |s| >= size {
      assert (s + b)[..size] == s[..size] && (s + b)[size..] == s[size..] + b;
      Append(s[size..], b, size);
    } else {
      assert Whole(s, size) == [];
    }
  }

  /** Cutting one block off the front of what is to be appended. */
  lemma Front(s: seq<Byte>, block: seq<Byte>, size: nat)
    requires size > 0 && |Tail(s, size) + block| == size
    ensures Whole(s + block, size) == Whole(s, size) + [Tail(s, size) + block] && Tail(s + block, size) == []
  {
    Append(s, block, size);
    var t := Tail(s, size) + block;
    assert t[..size] == t && t[size..] == [];
  }

  lemma Behind(s: seq<Byte>, b: seq<Byte>, size: nat)
    requires size > 0 && |Tail(s, size) + b| < size
    ensures Whole(s + b, size) == Whole(s, size) && Tail(s + b, size) == Tail(s, size) + b
  {
    Append(s, b, size);
  }

  /** The peers that some block shows to be bad, the blocks being numbered from `first`. */
  function BadPeers(c: Cache, first: nat, blocks: seq<seq<Byte>>): set<Addr> {
    if blocks == [] then {}
    else BadPeers(c, first, blocks[..|blocks| - 1]) + c.Bad(first + |blocks| - 1, blocks[|blocks| - 1])
  }

  /** A peer is bad exactly when it was recorded with a block that differs. */
  lemma {:induction false} BadPeersExactly(c: Cache, first: nat, blocks: seq<seq<Byte>>, p: Addr)
    ensures p in BadPeers(c, first, blocks) <==>
            exists k, r | 0 <= k < |blocks| && first + k in c.blocks && r in c.blocks[first + k] ::
              r.peer == p && r.hash != c.hash(blocks[k])
  {
    if blocks != [] {
      var n := |blocks| - 1;
      BadPeersExactly(c, first, blocks[..n], p);
      assert forall k | 0 <= k < n :: blocks[..n][k] == blocks[k];
      if p in c.Bad(first + n, blocks[n]) {
        var r :| r in c.blocks[first + n] && r.hash != c.hash(blocks[n]) && r.peer == p;
        assert r.peer == p && r.hash != c.hash(blocks[n]);
      }
    }
  }

  // ---- the writer ----

  class BlockCheckingWriter {
    const cache: Cache
    const first: nat
    const chunkBuffer: array<Byte>
    var requestIndex: nat
    var badPeers: set<Addr>
    var bufferUsed: nat
    /** Everything written so far. */
    ghost var stream: seq<Byte>
    /** Everything checked so far. */
    ghost var checked: seq<seq<Byte>>

    constructor (cache: Cache, first: nat, chunkSize: nat)
      requires chunkSize > 0
      ensures Valid() && stream == [] && this.cache == cache && this.first == first && chunkBuffer.Length == chunkSize
      ensures fresh(chunkBuffer)
    {
      this.cache, this.first, requestIndex := cache, first, first;
      chunkBuffer := new Byte[chunkSize];
      badPeers, bufferUsed, stream, checked := {}, 0, [], [];
    }

    /** The checked blocks are numbered from `first` on, and the bad peers are those they show. */
    ghost predicate Booked()
      reads this
    {
      requestIndex == first + |checked| && badPeers == BadPeers(cache, first, checked)
    }

    ghost predicate Valid()
      reads this, chunkBuffer
    {
      && chunkBuffer.Length > 0 && bufferUsed < chunkBuffer.Length && Booked()
      && checked == Whole(stream, chunkBuffer.Length)
      && chunkBuffer[..bufferUsed] == Tail(stream, chunkBuffer.Length)
    }

    method CheckBlock(b: seq<Byte>)
      requires Booked()
      modifies this`requestIndex, this`badPeers, this`checked
      ensures Booked() && checked == old(checked) + [b]
    {
      badPeers := badPeers + cache.Bad(requestIndex, b);
      requestIndex := requestIndex + 1;
      checked := checked + [b];
      assert checked[..|checked| - 1] == old(checked);
    }

    method CheckBufferedBlock()
      requires Booked() && 0 < bufferUsed <= chunkBuffer.Length
      modifies this`requestIndex, this`badPeers, this`checked, this`bufferUsed
      ensures Booked() && bufferUsed == 0 && checked == old(checked) + [old(chunkBuffer[..bufferUsed])]
    {
      if bufferUsed == 0 {
        assert false;  // "checkBufferedBlock without buffered data"
      }
      var b := chunkBuffer[..bufferUsed];
      bufferUsed := 0;
      CheckBlock(b);
    }

    /** Go's copy into the buffer at bufferUsed. */
    method Fill(b: seq<Byte>) returns (n: nat)
      requires bufferUsed <= chunkBuffer.Length
      modifies chunkBuffer
      ensures n == if |b| <= chunkBuffer.Length - bufferUsed then |b| else chunkBuffer.Length - bufferUsed
      ensures chunkBuffer[..bufferUsed + n] == old(chunkBuffer[..bufferUsed]) + b[..n]
    {
      n := 0;
      while n < |b| && bufferUsed + n < chunkBuffer.Length
        invariant n <= |b| && bufferUsed + n <= chunkBuffer.Length
        invariant chunkBuffer[..bufferUsed + n] == old(chunkBuffer[..bufferUsed]) + b[..n]
      {
        chunkBuffer[bufferUsed + n] := b[n];
        n := n + 1;
      }
    }

    method FinishPartialBlock(b: seq<Byte>) returns (n: nat)
      requires Valid()
      modifies this`requestIndex, this`badPeers, this`checked, this`bufferUsed, this`stream, chunkBuffer
      ensures Valid() && n <= |b| && stream == old(stream) + b[..n]
      ensures n < |b| ==> bufferUsed == 0
    {
      ghost var size := chunkBuffer.Length;
      if bufferUsed == 0 {
        assert stream + b[..0] == stream;
        return 0;
      }
      n := Fill(b);
      bufferUsed := bufferUsed + n;
      if bufferUsed >= chunkBuffer.Length {
        Front(stream, b[..n], size);
        CheckBufferedBlock();
      } else {
        Behind(stream, b[..n], size);
      }
      stream := stream + b[..n];
    }

    /** A whole block, straight from the input. */
    method WholeBlock(block: seq<Byte>)
      requires Valid() && bufferUsed == 0 && |block| == chunkBuffer.Length
      modifies this`requestIndex, this`badPeers, this`checked, this`stream
      ensures Valid() && stream == old(stream) + block
    {
      Front(stream, block, chunkBuffer.Length);
      assert Tail(stream, chunkBuffer.Length) + block == block;
      CheckBlock(block);
      stream := stream + block;
    }

    /** The rest of the input, shorter than a block. */
    method Buffer(rest: seq<Byte>)
      requires Valid() && bufferUsed == 0 && |rest| < chunkBuffer.Length
      modifies this`bufferUsed, this`stream, chunkBuffer
      ensures Valid() && bufferUsed == |rest| && stream == old(stream) + rest
    {
      Behind(stream, rest, chunkBuffer.Length);
      bufferUsed := Fill(rest);
      stream := stream + rest;
    }

    /** Consumes all of b, whatever was written before. */
    method Write(b: seq<Byte>) returns (n: nat)
      requires Valid()
      modifies this`requestIndex, this`badPeers, this`checked, this`bufferUsed, this`stream, chunkBuffer
      ensures Valid() && n == |b| && stream == old(stream) + b
    {
      hide Booked, Whole, Tail;
      n := FinishPartialBlock(b);
      var rest := b[n..];
      if |rest| == 0 {
        assert b[..n] == b;
        return;
      }
      while |rest| >= chunkBuffer.Length
        invariant Valid() && bufferUsed == 0 && n <= |b| && rest == b[n..]
        invariant stream == old(stream) + b[..n]
        decreases |rest|
      {
        WholeBlock(rest[..chunkBuffer.Length]);
        assert b[..n + chunkBuffer.Length] == b[..n] + rest[..chunkBuffer.Length];
        n := n + chunkBuffer.Length;
        rest := rest[chunkBuffer.Length..];
      }
      if bufferUsed != 0 {
        assert false;  // "buffer not empty before buffering the tail"
      }
      Buffer(rest);
      assert b == b[..n] + rest;
      n := n + bufferUsed;
    }

    /** After it every block of the stream has been checked, the last one even if it is short. */
    method Flush()
      requires Valid()
      modifies this`requestIndex, this`badPeers, this`checked, this`bufferUsed
      ensures bufferUsed == 0 && checked == Blocks(stream, chunkBuffer.Length)
      ensures badPeers == BadPeers(cache, first, Blocks(stream, chunkBuffer.Length))
      ensures requestIndex == first + |Blocks(stream, chunkBuffer.Length)|
    {
      if bufferUsed != 0 {
        CheckBufferedBlock();
      }
      if bufferUsed != 0 {
        assert false;  // "flush left buffered data"
      }
    }
  }

  /** Any split of a piece's bytes into writes leads to the same verdict: the one on the whole stream. */
  method CheckPortions(cache: Cache, first: nat, chunkSize: nat, portions: seq<seq<Byte>>) returns (bad: set<Addr>)
    requires chunkSize > 0
    ensures bad == BadPeers(cache, first, Blocks(Joined(portions), chunkSize))
  {
    var w := new BlockCheckingWriter(cache, first, chunkSize);
    for i := 0 to |portions|
      invariant w.Valid() && w.stream == Joined(portions[..i]) && fresh(w) && fresh(w.chunkBuffer)
      invariant w.cache == cache && w.first == first && w.chunkBuffer.Length == chunkSize
    {
      var n := w.Write(portions[i]);
      assert portions[..i + 1][..i] == portions[..i];
    }
    assert portions[..|portions|] == portions;
    w.Flush();
    bad := w.badPeers;
  }

  function Joined(portions: seq<seq<Byte>>): seq<Byte> {
    if portions == [] then [] else Joined(portions[..|portions| - 1]) + portions[|portions| - 1]
  }
}
