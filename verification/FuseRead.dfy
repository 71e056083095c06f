/** One FUSE read: buffer or cache, bounded retries, and at most one wait for a repair. */
module FuseRead {
  import opened Wrappers
  import opened ByteRanges
  import opened RangeDb
  import opened VfsBuffer
  import C = CacheItem

  const MAX_RETRIES := 3

  datatype Errno = ENOENT | EIO | EINTR

  /** What the registry says of the file at the start of a pass. */
  datatype FileView = Missing | Broken | NoLink | Present

  datatype LinkReply = FatalError | TransientError | Corrupted | Usable

  datatype CacheReply = Filled | Cancelled | DownloadFailed | IoFailed

  /** Everything outside: `view`, `opens` and `healed` by pass, `link` and `cache` by attempt. A
      filled cache read returns the slice of the remote file that was asked for. */
  datatype Outside = Outside(
    view: nat -> FileView,
    opens: nat -> bool,
    healed: nat -> bool,
    link: nat -> LinkReply,
    cache: nat -> CacheReply,
    repairWait: nat)

  /** How a pass over the attempts ends. */
  datatype PassEnd = Done(r: Result<seq<Byte>, Errno>) | NeedsRepair

  // ----- What a read comes to -----

  /** Attempt `k` settles nothing: another one is made. */
  predicate Undecided(out: Outside, k: nat) {
    out.link(k).TransientError? || (out.link(k).Usable? && out.cache(k).DownloadFailed?)
  }

  /** Attempt `k` is the first of the pass from `a` on that settles something. */
  predicate Settles(out: Outside, a: nat, k: nat) {
    a <= k <= a + MAX_RETRIES && !Undecided(out, k) && forall i: nat | a <= i < k :: Undecided(out, i)
  }

  /** What a deciding attempt comes to. */
  predicate Delivers(out: Outside, k: nat) { out.link(k).Usable? && out.cache(k).Filled? }

  predicate Interrupts(out: Outside, k: nat) { out.link(k).Usable? && out.cache(k).Cancelled? }

  predicate Breaks(out: Outside, k: nat) { out.link(k).Usable? && out.cache(k).IoFailed? }

  predicate WantsRepair(out: Outside, k: nat) { out.link(k).FatalError? || out.link(k).Corrupted? }

  /** The pass that starts with attempt `a` settles on an attempt for which `p` holds. */
  ghost predicate SettlesOn(out: Outside, a: nat, p: (Outside, nat) -> bool) {
    exists k: nat :: Settles(out, a, k) && p(out, k)
  }

  ghost predicate NeverSettles(out: Outside, a: nat) {
    forall i: nat | a <= i <= a + MAX_RETRIES :: Undecided(out, i)
  }

  /** The attempts of a pass, counted. */
  function Made(out: Outside, a: nat, left: nat): nat
    decreases left
  {
    if left == 0 then 0 else if Undecided(out, a) then 1 + Made(out, a + 1, left - 1) else 1
  }

  lemma {:induction false} MadeUpTo(out: Outside, a: nat, left: nat, k: nat)
    requires a <= k < a + left && (forall i: nat | a <= i < k :: Undecided(out, i)) && !Undecided(out, k)
    ensures Made(out, a, left) == k - a + 1
    decreases left
  {
    if a < k { MadeUpTo(out, a + 1, left - 1, k); }
  }

  lemma {:induction false} MadeAll(out: Outside, a: nat, left: nat)
    requires forall i: nat | a <= i < a + left :: Undecided(out, i)
    ensures Made(out, a, left) == left
    decreases left
  {
    if left > 0 { MadeAll(out, a + 1, left - 1); }
  }

  /** A pass settles once at most. */
  lemma SettledAt(out: Outside, a: nat, k: nat)
    requires a <= k <= a + MAX_RETRIES && !Undecided(out, k) && forall i: nat | a <= i < k :: Undecided(out, i)
    ensures SettlesOn(out, a, Delivers) <==> Delivers(out, k)
    ensures SettlesOn(out, a, Interrupts) <==> Interrupts(out, k)
    ensures SettlesOn(out, a, Breaks) <==> Breaks(out, k)
    ensures SettlesOn(out, a, WantsRepair) <==> WantsRepair(out, k)
    ensures !NeverSettles(out, a) && Made(out, a, MAX_RETRIES + 1) == k - a + 1
  {
    MadeUpTo(out, a, MAX_RETRIES + 1, k);
    assert Settles(out, a, k);
    forall i: nat | Settles(out, a, i) ensures i == k {
      assert i < k ==> Undecided(out, i);
      assert k < i ==> Undecided(out, k);
    }
    hide Delivers, Interrupts, Breaks, WantsRepair, Undecided;
  }

  lemma NoneSettled(out: Outside, a: nat)
    requires forall i: nat | a <= i <= a + MAX_RETRIES :: Undecided(out, i)
    ensures NeverSettles(out, a) && Made(out, a, MAX_RETRIES + 1) == MAX_RETRIES + 1
    ensures !SettlesOn(out, a, Delivers) && !SettlesOn(out, a, Interrupts)
    ensures !SettlesOn(out, a, Breaks) && !SettlesOn(out, a, WantsRepair)
  {
    MadeAll(out, a, MAX_RETRIES + 1);
    hide Undecided;
    forall k: nat ensures !Settles(out, a, k) {}
  }

  /** The window serves the read, or there is nothing to fetch. */
  predicate NoFetch(r: PrepareRead) { r.Hit? || r.fillLen == 0 }

  /** How the read looks from outside: the file is empty, or the handle's window serves the read. */
  datatype Situation = Situation(empty: bool, served: bool)

  /** A pass that needs the cache: the file is there, with content, a link and an item, and the window does
      not serve the read. */
  predicate Fetching(out: Outside, p: nat, x: Situation) {
    out.view(p).Present? && !x.empty && out.opens(p) && !x.served
  }

  /** Pass `p`, whose first attempt would be `a`, replies. */
  ghost predicate PassReplies(out: Outside, p: nat, a: nat, x: Situation) {
    || (!out.view(p).Missing? && x.empty)
    || (out.view(p).Present? && out.opens(p) && x.served)
    || (Fetching(out, p, x) && SettlesOn(out, a, Delivers))
  }

  ghost predicate PassInterrupted(out: Outside, p: nat, a: nat, x: Situation) {
    Fetching(out, p, x) && SettlesOn(out, a, Interrupts)
  }

  ghost predicate PassBreaks(out: Outside, p: nat, a: nat, x: Situation) {
    || (out.view(p).Present? && !x.empty && !out.opens(p))
    || (Fetching(out, p, x) && (SettlesOn(out, a, Breaks) || NeverSettles(out, a)))
  }

  /** Pass `p` finds the file broken, or meets a link that only a repair can cure. */
  ghost predicate PassWantsRepair(out: Outside, p: nat, a: nat, x: Situation) {
    || (out.view(p).Broken? && !x.empty)
    || (Fetching(out, p, x) && SettlesOn(out, a, WantsRepair))
  }

  /** A second pass is made: the first wants a repair, the read may wait, and the repair ends well. */
  ghost predicate Returns(out: Outside, x: Situation) {
    PassWantsRepair(out, 0, 0, x) && out.repairWait > 0 && out.healed(1)
  }

  /** The first attempt of a second pass. */
  function SecondStart(out: Outside, x: Situation): nat {
    if Fetching(out, 0, x) then Made(out, 0, MAX_RETRIES + 1) else 0
  }

  /** The first pass neither replied nor failed. */
  ghost predicate FirstIsOver(out: Outside, x: Situation) {
    !PassReplies(out, 0, 0, x) && !PassInterrupted(out, 0, 0, x) && !PassBreaks(out, 0, 0, x)
  }

  ghost predicate ReadReplies(out: Outside, x: Situation) {
    PassReplies(out, 0, 0, x) || (Returns(out, x) && PassReplies(out, 1, SecondStart(out, x), x))
  }

  ghost predicate ReadInterrupted(out: Outside, x: Situation) {
    PassInterrupted(out, 0, 0, x) || (Returns(out, x) && PassInterrupted(out, 1, SecondStart(out, x), x))
  }

  ghost predicate ReadBreaks(out: Outside, x: Situation) {
    PassBreaks(out, 0, 0, x) || (Returns(out, x) && PassBreaks(out, 1, SecondStart(out, x), x))
  }

  /** A miss empties the window, so the next look misses too. */
  lemma MissStays(w: Window, offset: nat, size: nat, fileSize: nat, bufferSize: nat)
    ensures var (next, r) := Prepared(w, offset, size, fileSize, bufferSize);
      !NoFetch(r) ==> Prepared(next, offset, size, fileSize, bufferSize) == (next, r)
  {
    hide NeedLen, FillLen;
  }

  class Reader {
    var passes: nat
    var attempts: nat
    var waits: nat
    var repairs: nat
    var waited: bool

    constructor ()
      ensures passes == attempts == waits == repairs == 0 && !waited
    {
      passes, attempts, waits, repairs, waited := 0, 0, 0, 0, false;
    }

    ghost predicate Bounded()
      reads this
    {
      && waits == (if waited then 1 else 0)
      && passes <= 1 + waits
      && attempts <= passes * (MAX_RETRIES + 1)
    }

    /** Wait for a repair, once per read. A fatal reply asks for the repair in any case, through one
        handler per file; a file already marked broken asks for it only when the read will wait. */
    method AwaitRepair(out: Outside, fatal: bool) returns (again: bool)
      modifies this
      ensures repairs == old(repairs) + (if fatal || (!old(waited) && waited) then 1 else 0)
      ensures passes == old(passes) && attempts == old(attempts)
      ensures waited == (old(waited) || out.repairWait > 0)
      ensures waits == old(waits) + (if !old(waited) && waited then 1 else 0)
      ensures again <==> !old(waited) && out.repairWait > 0 && out.healed(passes)
    {
      if fatal { repairs := repairs + 1; }
      if waited || out.repairWait == 0 { return false; }
      if !fatal { repairs := repairs + 1; }
      waited := true;
      waits := waits + 1;
      return out.healed(passes);
    }

    /** The attempts of one pass. */
    method TryFetch(out: Outside, buffer: VfsReadBuffer?, offset: nat, size: nat,
                    fillOffset: nat, fillLen: nat, take: nat, ghost remote: seq<Byte>, data: seq<Byte>)
      returns (end: PassEnd)
      requires data == C.Slice(remote, fillOffset, fillLen)
      requires if buffer == null then fillOffset == offset && fillLen == size
               else PendingOk(Pending(offset, size, fillOffset, fillLen, take), remote)
      modifies this`attempts, buffer
      ensures attempts == old(attempts) + Made(out, old(attempts), MAX_RETRIES + 1) <= old(attempts) + MAX_RETRIES + 1
      ensures end.Done? && end.r.Ok? <==> SettlesOn(out, old(attempts), Delivers)
      ensures end.Done? && end.r.Ok? ==> end.r.value == C.Slice(remote, offset, size)
      ensures end == Done(Err(EINTR)) <==> SettlesOn(out, old(attempts), Interrupts)
      ensures end == Done(Err(EIO)) <==> SettlesOn(out, old(attempts), Breaks) || NeverSettles(out, old(attempts))
      ensures end.NeedsRepair? <==> SettlesOn(out, old(attempts), WantsRepair)
      ensures end.Done? && end.r.Err? ==> !end.r.error.ENOENT?
      ensures buffer != null && old(buffer != null && Agrees(buffer.View(), remote)) ==> Agrees(buffer.View(), remote)
      ensures end.NeedsRepair? ==> buffer == null || buffer.View() == old(buffer.View())
    {
      ghost var first := attempts;
      hide Made, SettlesOn, NeverSettles, Settles;
      for attempt := 0 to MAX_RETRIES + 1
        invariant attempts == first + attempt
        invariant forall i: nat | first <= i < attempts :: Undecided(out, i)
        invariant buffer != null ==> buffer.View() == old(buffer.View())
      {
        var k := attempts;
        attempts := attempts + 1;
        var link := out.link(k);
        if !Undecided(out, k) { SettledAt(out, first, k); }
        if link.FatalError? || link.Corrupted? { return NeedsRepair; }
        if link.Usable? {
          match out.cache(k)
          case Filled =>
            if buffer == null { return Done(Ok(data)); }
            CompleteIsExact(Pending(offset, size, fillOffset, fillLen, take), remote);
            var reply := data[..Min(take, |data|)];
            buffer.AfterFetch(fillOffset, data, take, remote);
            return Done(Ok(reply));
          case Cancelled => return Done(Err(EINTR));
          case IoFailed => return Done(Err(EIO));
          case DownloadFailed =>
        }
      }
      NoneSettled(out, first);
      return Done(Err(EIO));
    }

    /** How the read looks from outside. */
    static ghost function Seen(buffer: VfsReadBuffer?, offset: nat, size: nat, contents: seq<Byte>, bufferSize: nat)
      : Situation
      reads buffer
    {
      Situation(contents == [],
                buffer != null && NoFetch(Prepared(buffer.View(), offset, size, |contents|, bufferSize).1))
    }

    /** One pass: look the file up, serve it from the window, or fetch it. `fatal` says that a link, not the
        registry, asked for the repair. */
    method Pass(out: Outside, buffer: VfsReadBuffer?, offset: nat, size: nat, contents: seq<Byte>, bufferSize: nat)
      returns (end: PassEnd, fatal: bool)
      requires size <= U32_MAX && |contents| <= U64_MAX
      requires buffer != null ==> Agrees(buffer.View(), contents)
      modifies this`passes, this`attempts, buffer
      ensures passes == old(passes) + 1
      ensures buffer != null ==> Agrees(buffer.View(), contents)
      ensures end.Done? && end.r.Ok? ==> end.r.value == C.Slice(contents, offset, size)
      ensures var x := old(Seen(buffer, offset, size, contents, bufferSize));
        var p, a := old(passes), old(attempts);
        && attempts == a + (if Fetching(out, p, x) then Made(out, a, MAX_RETRIES + 1) else 0)
        && attempts <= a + MAX_RETRIES + 1
        && (end.Done? && end.r.Ok? <==> PassReplies(out, p, a, x))
        && (end == Done(Err(EINTR)) <==> PassInterrupted(out, p, a, x))
        && (end == Done(Err(EIO)) <==> PassBreaks(out, p, a, x))
        && (end.NeedsRepair? <==> PassWantsRepair(out, p, a, x))
        && (end.NeedsRepair? ==> (fatal <==> out.view(p).Present?)
                                 && Seen(buffer, offset, size, contents, bufferSize) == x)
        && (end == Done(Err(ENOENT)) ==> !out.view(p).Present?)
    {
      var view := out.view(passes);
      var hasItem := out.opens(passes);
      passes, fatal := passes + 1, false;
      if view.Missing? { return Done(Err(ENOENT)), false; }
      if |contents| == 0 { return Done(Ok([])), false; }
      if view.Broken? { return NeedsRepair, false; }
      if view.NoLink? { return Done(Err(ENOENT)), false; }
      if !hasItem { return Done(Err(EIO)), false; }
      var fillOffset, fillLen, take := offset, size, size;
      hide SettlesOn, NeverSettles, Made;
      if buffer != null {
        PreparedAgrees(buffer.View(), offset, size, contents, bufferSize);
        MissStays(buffer.View(), offset, size, |contents|, bufferSize);
        hide Prepared;
        var prepared := buffer.PrepareRead(offset, size, |contents|, bufferSize, contents);
        if prepared.Hit? { return Done(Ok(prepared.data)), false; }
        if prepared.fillLen == 0 { return Done(Ok([])), false; }
        fillOffset, fillLen, take := prepared.fillOffset, prepared.fillLen, prepared.take;
      }
      var data := C.Slice(contents, fillOffset, fillLen);
      end := TryFetch(out, buffer, offset, size, fillOffset, fillLen, take, contents, data);
      fatal := true;
    }

    /** A read ends after at most two passes, eight attempts and one wait for a repair, and a reply is
        exactly the requested slice of the file; and it replies, is interrupted, or fails, exactly as what
        is outside decides. `contents` stands for what the cache delivers, `configured` for the window size. */
    method Read(out: Outside, buffer: VfsReadBuffer?, offset: nat, size: nat, contents: seq<Byte>, configured: nat)
      returns (r: Result<seq<Byte>, Errno>)
      requires size <= U32_MAX && |contents| <= U64_MAX
      requires buffer != null ==> Agrees(buffer.View(), contents)
      requires passes == attempts == waits == 0 && !waited
      modifies this, buffer
      ensures 1 <= passes <= 2 && attempts <= 2 * (MAX_RETRIES + 1) && waits <= 1
      ensures var x := old(Seen(buffer, offset, size, contents, ClampedBuffer(configured)));
        && (r.Ok? <==> ReadReplies(out, x))
        && (r == Err(EINTR) <==> ReadInterrupted(out, x))
        && (r == Err(EIO) <==> ReadBreaks(out, x))
        && (passes == 2 <==> Returns(out, x))
      ensures r.Ok? ==> r.value == C.Slice(contents, offset, size)
      ensures buffer != null ==> Agrees(buffer.View(), contents)
      ensures r.Err? && r.error.ENOENT? && out.view(passes - 1).Present? ==> repairs > old(repairs)
    {
      var bufferSize := ClampedBuffer(configured);
      ghost var x := Seen(buffer, offset, size, contents, bufferSize);
      hide PassReplies, PassInterrupted, PassBreaks, PassWantsRepair, Fetching, Made, Prepared;
      while true
        invariant Bounded() && repairs >= old(repairs)
        invariant passes <= 1 && (passes == 0 ==> attempts == 0 && !waited)
        invariant passes == 1 ==> waited && Returns(out, x) && attempts == SecondStart(out, x)
        invariant passes == 1 ==> FirstIsOver(out, x)
        invariant Seen(buffer, offset, size, contents, bufferSize) == x
        invariant buffer != null ==> Agrees(buffer.View(), contents)
        decreases 2 - passes
      {
        var end, fatal := Pass(out, buffer, offset, size, contents, bufferSize);
        if end.Done? { return end.r; }
        var again := AwaitRepair(out, fatal);
        if !again { return Err(ENOENT); }
      }
    }
  }
}
