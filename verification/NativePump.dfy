/** The pump loop of main.go over the real cache. */
module NativePump {
  import opened Wrappers
  import opened CacheModel
  import opened ReadAhead
  import P = Pump
  import Layouts

  class Pumper {
    const file: P.File
    const cache: ReadAheadCache
    var offset: nat

    constructor (file: P.File, cache: ReadAheadCache, resume: nat)
      requires file.cs > 0 && cache.Valid() && cache.ChunkSize(file.path) == file.cs && cache.budget > 0
      ensures Valid() && this.file == file && this.cache == cache && offset == P.Start(file, resume).offset
    {
      Layouts.DivFloor(resume, file.cs);
      this.file, this.cache, offset := file, cache, resume / file.cs * file.cs;
    }

    ghost predicate Valid()
      reads this, cache, Bufs(cache.slots)
    {
      file.cs > 0 && cache.Valid() && cache.ChunkSize(file.path) == file.cs && cache.budget > 0
    }

    /** What a turn sees, with the bytes a read delivered as the first n of a buffer. */
    ghost function Seen(player: nat, warm: bool, buf: array<Byte>, n: nat, err: bool, now: int): P.Event
      requires n <= buf.Length
      reads cache, buf
    {
      P.Turn(player, warm, P.Fetch(buf[..n], err), if file.path == cache.activePath then cache.session else 0, now)
    }

    /** nativePumpChunk; n and err are what ReadAt returns for bytes [at, end) read into buf. */
    method PumpChunk(at: nat, player: nat, warm: bool, buf: array<Byte>, n: nat, err: bool, now: int)
      returns (stop: bool, next: nat)
      requires Valid() && n <= buf.Length && buf !in Bufs(cache.slots) && buf !in cache.pool
      modifies cache`slots, cache`order, cache`total, cache`used, cache`pool, cache`contents, cache.pool
      ensures Valid() && buf[..n] == old(buf[..n])
      ensures var o := P.PumpChunk(cache.Cfg(), file, old(cache.View()), at, Seen(player, warm, buf, n, err, now));
              cache.View() == o.c && stop == o.stop && next == o.next
    {
      hide Accounted, ChunksOk, Apart, Lookup, ReadTouched, CacheModel.Put, P.PumpLeadLimit, Bufs;
      if at >= file.size {
        return true, at;
      }
      if at - player > P.PumpLeadLimit(cache.Cfg().budget, file.cs) {
        return false, at;
      }
      var end := P.End(file, at);
      var covered := cache.Covered(file.path, at, end - 1, now);
      if covered {
        return false, at + file.cs;
      }
      if warm {
        return false, at + file.cs;
      }
      if n > 0 {
        cache.Put(file.path, at, at + n - 1, buf, n, now);
      }
      if err {
        return true, at + n;
      }
      var got := at + n;
      if n < end - at {
        Layouts.DivFloor(got, file.cs);
        next := got / file.cs * file.cs + file.cs;
        return false, next;
      }
      return false, got;
    }

    /** One turn of the pump loop. */
    method Turn(player: nat, warm: bool, buf: array<Byte>, n: nat, err: bool, now: int, ghost st: P.State)
      requires Valid() && n <= buf.Length && buf !in Bufs(cache.slots) && buf !in cache.pool
      requires st.c == cache.View() && st.offset == offset
      modifies this`offset
      modifies cache`slots, cache`order, cache`total, cache`used, cache`pool, cache`contents, cache.pool
      ensures Valid()
      ensures var st' := P.Step(cache.Cfg(), file, st, Seen(player, warm, buf, n, err, now));
              cache.View() == st'.c && offset == st'.offset
    {
      hide Accounted, ChunksOk, Apart, P.PumpLeadLimit, Bufs, P.PumpChunk;
      var budget := cache.Cfg().budget;
      if player > offset + budget {
        Layouts.DivFloor(player, file.cs);
        offset := player / file.cs * file.cs;
      } else if P.StrandedAhead(offset, player, budget) {
        Layouts.DivFloor(player, file.cs);
        offset := player / file.cs * file.cs;
      }
      var stop, next := PumpChunk(offset, player, warm, buf, n, err, now);
      if !stop {
        offset := next;
      }
    }
  }
}
