/** The pieces of state that chunk workers share, as the objects they lock: the deque of slices with
    its multiplier, and the link that a worker may refresh. Each method is one atomic step of the
    worker pool, and its contract ties it to that step. */
module SharedWork {
  import opened Wrappers
  import opened ByteRanges
  import opened RdErrors
  import W = WorkerPool

  class SliceQueue {
    var slices: seq<Interval>
    var multiplier: nat

    constructor (missing: seq<Interval>)
      ensures slices == missing && multiplier == 1
    {
      slices, multiplier := missing, 1;
    }

    /** Pop the front slice, cut a chunk off it, and put the rest back at the front. */
    method PopChunk(base: nat, ghost s: W.State, ghost w: nat) returns (chunk: Option<Interval>)
      requires slices != [] ==> slices[0].lo < slices[0].hi
      requires s.queue == slices && s.mult == multiplier && s.job.base == base
      requires w < |s.workers| && s.workers[w].Idle?
      modifies this`slices
      ensures chunk.None? <==> old(slices) == []
      ensures chunk.None? ==> slices == []
      ensures chunk.Some? ==>
        W.Acted(s, w, W.Pop) == W.Put(s, w, W.Ready(chunk.value, 0)).(queue := slices)
    {
      if slices == [] {
        return None;
      }
      var slice := slices[0];
      slices := slices[1..];
      var chunkSize := Min(Min(base * multiplier, U64_MAX), slice.hi - slice.lo);
      var chunkEnd := slice.lo + chunkSize;
      if chunkEnd < slice.hi {
        slices := [Interval(chunkEnd, slice.hi)] + slices;
      }
      return Some(Interval(slice.lo, chunkEnd));
    }

    /** After a failed attempt: reset the multiplier and return all but one base chunk to the front. */
    method CutBack(base: nat, chunk: Interval, ghost s: W.State, ghost w: nat, ghost retries: nat)
      returns (kept: Interval)
      requires chunk.lo <= chunk.hi
      requires s.queue == slices && s.mult == multiplier && s.job.base == base
      requires w < |s.workers| && retries + 1 < W.MAX_DOWNLOAD_RETRIES
      modifies this
      ensures W.FailAttempt(s, w, chunk, retries, true)
           == W.Put(s, w, W.Ready(kept, retries + 1)).(queue := slices, mult := multiplier)
    {
      multiplier := 1;
      kept := chunk;
      if chunk.hi - chunk.lo > base {
        var newEnd := chunk.lo + base;
        slices := [Interval(newEnd, chunk.hi)] + slices;
        kept := Interval(chunk.lo, newEnd);
      }
    }

    /** A finished chunk doubles the multiplier, up to the cap. */
    method Grow(ghost s: W.State, ghost w: nat)
      requires 1 <= multiplier <= W.MAX_MULTIPLIER
      requires s.mult == multiplier && w < |s.workers| && s.workers[w].Growing?
      modifies this`multiplier
      ensures W.Acted(s, w, W.Grow) == W.Put(s, w, W.Idle).(mult := multiplier)
      ensures multiplier > old(multiplier) || old(multiplier) == multiplier == W.MAX_MULTIPLIER
    {
      multiplier := Min(multiplier * 2, W.MAX_MULTIPLIER);
    }
  }

  class LiveLink {
    var url: string
    var healRemaining: nat

    constructor (url: string)
      ensures this.url == url && healRemaining == W.MAX_SESSION_LINK_HEALS
    {
      this.url := url;
      healRemaining := W.MAX_SESSION_LINK_HEALS;
    }

    /** Called with the refresh lock held; `reply` is what the unrestrict call would return.
        Spends one heal exactly when it replaces the link. */
    method AttemptRefresh(e: RdError, reply: Result<string, string>) returns (healed: bool)
      modifies this
      ensures healed <==> e.ShouldRefresh() && old(healRemaining) > 0 && reply.Ok?
      ensures if healed then url == reply.value && healRemaining == old(healRemaining) - 1
              else url == old(url) && healRemaining == old(healRemaining)
    {
      if !e.ShouldRefresh() {
        return false;
      }
      if healRemaining == 0 {
        return false;
      }
      if reply.Err? {
        return false;
      }
      url := reply.value;
      healRemaining := healRemaining - 1;
      return true;
    }
  }
}
