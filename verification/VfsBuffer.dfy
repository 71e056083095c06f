/** The read-ahead window of one file handle, and any interleaving of reads on that handle. */
module VfsBuffer {
  import opened ByteRanges
  import opened RangeDb
  import C = CacheItem

  const U32: nat := 0x1_0000_0000
  const U32_MAX: nat := 0xFFFF_FFFF

  /** Bytes a read must return; the sum saturates at 64 bits and the result at 32. */
  function NeedLen(offset: nat, size: nat, fileSize: nat): nat {
    var end := Min(Min(offset + size, U64_MAX), fileSize);
    Min(Max(end - offset, 0), U32_MAX)
  }

  /** Bytes to fetch: the window or the need, whichever is more, capped at end of file and 32 bits. */
  function FillLen(offset: nat, need: nat, fileSize: nat, bufferSize: nat): nat {
    var remaining := Max(fileSize - offset, 0);
    if remaining == 0 then 0 else Min(Min(remaining, Max(bufferSize, need)), U32_MAX)
  }

  const MIN_BUFFER := 64 * 1024
  const MAX_BUFFER := 512 * 1024 * 1024

  /** The configured window size, where it lies between the two bounds. */
  function ClampedBuffer(configured: nat): (size: nat)
    ensures MIN_BUFFER <= size <= MAX_BUFFER
    ensures MIN_BUFFER <= configured <= MAX_BUFFER ==> size == configured
    ensures configured < MIN_BUFFER ==> size == MIN_BUFFER
    ensures configured > MAX_BUFFER ==> size == MAX_BUFFER
  {
    if configured < MIN_BUFFER then MIN_BUFFER else if configured > MAX_BUFFER then MAX_BUFFER else configured
  }

  /** A 32-bit read within a 64-bit file needs exactly the bytes of the requested slice, and the
      fetch never brings fewer than the reply takes, nor more than a 32-bit length. It reads ahead as far
      as the window goes, unless the file or the 32 bits end first, and no further than window or need. */
  lemma LengthsAgree(offset: nat, size: nat, data: seq<Byte>, bufferSize: nat)
    requires size <= U32_MAX && |data| <= U64_MAX
    ensures var need := NeedLen(offset, size, |data|);
      && need == |C.Slice(data, offset, size)|
      && need <= FillLen(offset, need, |data|, bufferSize) <= U32_MAX
      && offset + FillLen(offset, need, |data|, bufferSize) <= Max(|data|, offset)
      && (need > 0 ==>
            var fill := FillLen(offset, need, |data|, bufferSize);
            && fill > 0
            && (fill >= bufferSize || offset + fill == |data| || fill == U32_MAX)
            && (fill == need || fill <= bufferSize))
  {}

  /** The window: `data` holds the file from `start` on. */
  datatype Window = Window(start: nat, data: seq<Byte>)

  const EMPTY := Window(0, [])

  datatype PrepareRead =
    | Hit(data: seq<Byte>)
    | Miss(fillOffset: nat, fillLen: nat, take: nat)

  /** Serve from the window when the read starts where the window does and fits; otherwise drop the
      window and say what to fetch. */
  function Prepared(b: Window, offset: nat, size: nat, fileSize: nat, bufferSize: nat): (Window, PrepareRead) {
    var need := NeedLen(offset, size, fileSize);
    if need == 0 then (b, Hit([]))
    else if b.data != [] && offset == b.start && |b.data| >= need then
      (Window(b.start + need, b.data[need..]), Hit(b.data[..need]))
    else
      (if b.data == [] then b else EMPTY, Miss(offset, FillLen(offset, need, fileSize, bufferSize), need))
  }

  /** How many fetched bytes go to the reply; the length is cast to 32 bits. */
  function Taken(filled: seq<Byte>, take: nat): nat { Min(take, |filled| % U32) }

  /** Keep what the reply does not take. */
  function Fetched(fillOffset: nat, filled: seq<Byte>, take: nat): Window {
    var n := Taken(filled, take);
    Window(fillOffset + n, filled[n..])
  }

  /** The window agrees with the remote file. */
  ghost predicate Agrees(b: Window, remote: seq<Byte>) {
    b.data != [] ==> b.start + |b.data| <= |remote| && b.data == remote[b.start..b.start + |b.data|]
  }

  class VfsReadBuffer {
    var start: nat
    var data: seq<Byte>

    ghost function View(): Window reads this { Window(start, data) }

    constructor ()
      ensures View() == EMPTY
    {
      start, data := 0, [];
    }

    method Clear()
      modifies this
      ensures View() == EMPTY
    {
      start, data := 0, [];
    }

    method PrepareRead(offset: nat, size: nat, fileSize: nat, bufferSize: nat, ghost remote: seq<Byte>)
      returns (r: PrepareRead)
      requires size <= U32_MAX && |remote| == fileSize <= U64_MAX && Agrees(View(), remote)
      modifies this
      ensures Agrees(View(), remote)
      ensures (View(), r) == Prepared(old(View()), offset, size, fileSize, bufferSize)
      ensures r.Hit? ==> r.data == C.Slice(remote, offset, size)
    {
      PreparedAgrees(View(), offset, size, remote, bufferSize);
      hide NeedLen, FillLen, C.Slice;
      var need := NeedLen(offset, size, fileSize);
      if need == 0 {
        return Hit([]);
      }
      if data != [] && offset != start {
        Clear();
      }
      if data != [] {
        var avail := |data|;
        if avail >= need {
          var out := data[..need];
          start := start + need;
          data := data[need..avail];
          return Hit(out);
        }
        Clear();
      }
      return Miss(offset, FillLen(offset, need, fileSize, bufferSize), need);
    }

    method AfterFetch(fillOffset: nat, filled: seq<Byte>, take: nat, ghost remote: seq<Byte>)
      requires fillOffset + |filled| <= |remote| && filled == remote[fillOffset..fillOffset + |filled|]
      modifies this
      ensures View() == Fetched(fillOffset, filled, take)
      ensures Agrees(View(), remote)
    {
      var n := Min(take, |filled| % U32);
      start := fillOffset + n;
      data := filled[n..|filled|];
    }
  }

  /** A hit from an agreeing window is the requested slice, and what is left of the window agrees. */
  lemma PreparedAgrees(b: Window, offset: nat, size: nat, remote: seq<Byte>, bufferSize: nat)
    requires size <= U32_MAX && |remote| <= U64_MAX && Agrees(b, remote)
    ensures var (b', r) := Prepared(b, offset, size, |remote|, bufferSize);
      && Agrees(b', remote)
      && (r.Hit? ==> r.data == C.Slice(remote, offset, size))
      && (r.Miss? ==>
            && r.fillOffset == offset < |remote|
            && r.take == |C.Slice(remote, offset, size)| <= r.fillLen <= U32_MAX
            && offset + r.fillLen <= |remote|)
  {
    LengthsAgree(offset, size, remote, bufferSize);
  }

  /** Reading on: after a fetch the next read, where the last one ended, is a hit as long as the window
      holds what it needs. */
  lemma NextReadHits(p: Pending, size: nat, remote: seq<Byte>, bufferSize: nat)
    requires PendingOk(p, remote) && |remote| <= U64_MAX && size <= U32_MAX
    requires size <= p.fillLen - p.take || p.offset + p.fillLen == |remote|
    ensures var w := Fetched(p.fillOffset, C.Slice(remote, p.fillOffset, p.fillLen), p.take);
      Prepared(w, p.offset + p.take, size, |remote|, bufferSize).1.Hit?
  {
    LengthsAgree(p.offset + p.take, size, remote, bufferSize);
    hide FillLen;
  }

  // ----- Any interleaving of reads on one handle -----

  /** A read between its two visits to the buffer. */
  datatype Pending = Pending(offset: nat, size: nat, fillOffset: nat, fillLen: nat, take: nat)

  datatype Reply = Reply(offset: nat, size: nat, data: seq<Byte>)

  /** One handle: the window behind its lock, the reads now fetching, and every reply given. */
  datatype Handle = Handle(window: Window, pending: seq<Pending>, replies: seq<Reply>)

  datatype Event =
    | Prepare(offset: nat, size: nat, bufferSize: nat)   // first visit, under the lock
    | Direct(offset: nat, size: nat)                     // a read without a handle buffer
    | Complete(k: nat)                                   // the fetch succeeded; second visit
    | Abandon(k: nat)                                    // the fetch failed, or the read starts over

  predicate Enabled(h: Handle, e: Event) {
    match e
    case Prepare(_, size, _) => size <= U32_MAX
    case Direct(_, size) => size <= U32_MAX
    case Complete(k) => k < |h.pending|
    case Abandon(k) => k < |h.pending|
  }

  function Without<T>(s: seq<T>, k: nat): seq<T>
    requires k < |s|
  {
    s[..k] + s[k + 1..]
  }

  /** `remote` is the file; a fetch of a range returns its slice, as completed cache reads do. */
  function Next(h: Handle, remote: seq<Byte>, e: Event): Handle
    requires Enabled(h, e)
  {
    match e
    case Prepare(offset, size, bufferSize) =>
      var (w, r) := Prepared(h.window, offset, size, |remote|, bufferSize);
      (match r
       case Hit(data) => h.(window := w, replies := h.replies + [Reply(offset, size, data)])
       case Miss(fo, fl, take) =>
         if fl == 0 then h.(window := w, replies := h.replies + [Reply(offset, size, [])])
         else h.(window := w, pending := h.pending + [Pending(offset, size, fo, fl, take)]))
    case Direct(offset, size) => h.(replies := h.replies + [Reply(offset, size, C.Slice(remote, offset, size))])
    case Complete(k) =>
      var p := h.pending[k];
      var filled := C.Slice(remote, p.fillOffset, p.fillLen);
      Handle(Fetched(p.fillOffset, filled, p.take), Without(h.pending, k),
             h.replies + [Reply(p.offset, p.size, filled[..Min(p.take, |filled|)])])
    case Abandon(k) => h.(pending := Without(h.pending, k))
  }

  predicate Runs(h: Handle, remote: seq<Byte>, es: seq<Event>)
    decreases |es|
  {
    es == [] || (Enabled(h, es[0]) && Runs(Next(h, remote, es[0]), remote, es[1..]))
  }

  function Final(h: Handle, remote: seq<Byte>, es: seq<Event>): Handle
    requires Runs(h, remote, es)
    decreases |es|
  {
    if es == [] then h else Final(Next(h, remote, es[0]), remote, es[1..])
  }

  predicate PendingOk(p: Pending, remote: seq<Byte>) {
    && p.fillOffset == p.offset < |remote|
    && p.take == |C.Slice(remote, p.offset, p.size)| <= p.fillLen <= U32_MAX
    && p.offset + p.fillLen <= |remote|
  }

  ghost predicate Inv(h: Handle, remote: seq<Byte>) {
    && |remote| <= U64_MAX
    && Agrees(h.window, remote)
    && (forall p | p in h.pending :: PendingOk(p, remote))
    && (forall r | r in h.replies :: r.data == C.Slice(remote, r.offset, r.size))
  }

  /** A completed fetch replies with the requested slice, whatever happened to the window meanwhile. */
  lemma CompleteIsExact(p: Pending, remote: seq<Byte>)
    requires PendingOk(p, remote)
    ensures var filled := C.Slice(remote, p.fillOffset, p.fillLen);
      && filled[..Min(p.take, |filled|)] == C.Slice(remote, p.offset, p.size)
      && Agrees(Fetched(p.fillOffset, filled, p.take), remote)
  {
    var filled := C.Slice(remote, p.fillOffset, p.fillLen);
    assert filled == remote[p.offset..p.offset + p.fillLen];
  }

  lemma StepInv(h: Handle, remote: seq<Byte>, e: Event)
    requires Inv(h, remote) && Enabled(h, e)
    ensures Inv(Next(h, remote, e), remote)
  {
    match e
    case Prepare(offset, size, bufferSize) =>
      PreparedAgrees(h.window, offset, size, remote, bufferSize);
      LengthsAgree(offset, size, remote, bufferSize);
      hide Agrees, C.Slice, NeedLen, FillLen;
    case Direct(offset, size) =>
    case Complete(k) =>
      assert h.pending[k] in h.pending;
      CompleteIsExact(h.pending[k], remote);
      hide Agrees, C.Slice, Fetched;
    case Abandon(k) =>
  }

  lemma {:induction false} RunInv(h: Handle, remote: seq<Byte>, es: seq<Event>)
    requires Inv(h, remote) && Runs(h, remote, es)
    ensures Inv(Final(h, remote, es), remote)
    decreases |es|
  {
    hide Inv, Next, Enabled;
    if es != [] {
      StepInv(h, remote, es[0]);
      RunInv(Next(h, remote, es[0]), remote, es[1..]);
    }
  }

  /** The read-ahead buffer is invisible: however reads on a handle interleave, each reply equals
      what a direct read would return, and so has exactly the length the kernel was promised. */
  lemma BufferIsInvisible(remote: seq<Byte>, es: seq<Event>, i: nat)
    requires |remote| <= U64_MAX && Runs(Handle(EMPTY, [], []), remote, es)
    requires i < |Final(Handle(EMPTY, [], []), remote, es).replies|
    ensures var r := Final(Handle(EMPTY, [], []), remote, es).replies[i];
      && r.data == C.Slice(remote, r.offset, r.size)
      && (r.size <= U32_MAX ==> |r.data| == NeedLen(r.offset, r.size, |remote|))
  {
    RunInv(Handle(EMPTY, [], []), remote, es);
    var h := Final(Handle(EMPTY, [], []), remote, es);
    assert h.replies[i] in h.replies;
    if h.replies[i].size <= U32_MAX { LengthsAgree(h.replies[i].offset, h.replies[i].size, remote, 0); }
  }
}
