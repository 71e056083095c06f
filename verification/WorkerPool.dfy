/** The chunk workers of one download session, as a transition system.

    The missing slices sit in a shared deque. Each worker pops a slice, splits off a chunk,
    and fetches it; a failed attempt is retried, and an oversized chunk is cut back to the base
    size with the rest pushed to the front of the deque. Workers share an adaptive multiplier,
    a budget of link refreshes under a lock, a cancel flag, and the abort that follows the
    first worker error. One event is one atomic action of one worker. */
module WorkerPool {
  import opened Wrappers
  import opened ByteRanges

  const MAX_DOWNLOAD_RETRIES := 3
  const MAX_SESSION_LINK_HEALS := 3
  const MAX_MULTIPLIER := 16

  /** Where one worker stands.
      `Ready` is the head of the retry loop; `Streaming` has a response open, has recorded the
      bytes up to `pos`; `Growing` has finished its chunk and is about to raise the multiplier;
      `Ended` is an Ok exit and `Failed` an Err exit. The client hands over only responses with a
      `Content-Range`, so a body ends within the chunk it was asked for. */
  datatype Worker =
    | Idle
    | Ready(chunk: Interval, retries: nat)
    | HealWait(chunk: Interval, retries: nat)
    | HealHold(chunk: Interval, retries: nat)
    | Streaming(chunk: Interval, retries: nat, pos: nat)
    | Growing
    | Ended
    | Failed
  {
    predicate HasChunk() { Ready? || HealWait? || HealHold? || Streaming? }
    predicate Stopped() { Ended? || Failed? }
  }

  /** Fixed when the session starts: the base chunk size, the file size, and the missing slices. */
  datatype Job = Job(base: nat, fileSize: nat, missing: seq<Interval>)

  /** The budget of link refreshes and the lock that guards it. */
  datatype Heal = Heal(left: nat, done: nat, lock: Option<nat>)

  /** The history. `finished` and `abandoned` keep the chunks that left the pool; the byte sets
      record what responses did: `recorded` was handed to the cache file, `delivered` by a response
      that ended cleanly, `extra` by one that broke off or was dropped, and `shortfall` is what clean
      ends left out. */
  datatype Log = Log(
    finished: seq<Interval>,
    abandoned: seq<Interval>,
    recorded: set<nat>,
    delivered: set<nat>,
    shortfall: set<nat>,
    extra: set<nat>)

  datatype State = State(
    job: Job,
    queue: seq<Interval>,
    workers: seq<Worker>,
    mult: nat,
    heal: Heal,
    cancelled: bool,
    aborted: bool,
    log: Log)

  /** What one worker does in one atomic step. */
  datatype Action =
    | Pop                           // take a chunk off the deque
    | Exit                          // leave on an empty deque or a cancel
    | Drop                          // a cancel or abort lands while a chunk is in hand
    | HttpFail                      // headers stalled, or an error no refresh can cure
    | StaleNode                     // 200 without Content-Range past offset zero
    | HealAsk                       // an error that a fresh link may cure
    | HealLock                      // the refresh lock is granted
    | HealRefused                   // no budget left, or the refresh call failed
    | HealOk                        // the link was refreshed
    | Open                          // a response with a `Content-Range` starts
    | Fragment(n: nat)              // `n` body bytes were written and recorded
    | BodyFail                      // the body stalled, broke off, or could not be written
    | Eof                           // the body ended cleanly
    | Grow                          // raise the multiplier

  datatype Event =
    | Cancel                        // the session is cancelled
    | AbortAll                      // the join loop saw a worker error
    | Act(w: nat, action: Action)

  /** The end of the chunk that a pop cuts from a slice; the product saturates at 64 bits. */
  function ChunkEnd(base: nat, mult: nat, slice: Interval): (end: nat)
    requires slice.lo < slice.hi
    ensures slice.lo <= end <= slice.hi
    ensures base > 0 && mult > 0 ==> slice.lo < end
  {
    assert base > 0 && mult > 0 ==> base * mult > 0;
    slice.lo + Min(Min(base * mult, U64_MAX), slice.hi - slice.lo)
  }

  predicate CanAct(s: State, w: nat, action: Action)
    requires w < |s.workers|
  {
    var k := s.workers[w];
    match action
    case Pop => k.Idle? && s.queue != [] && s.queue[0].lo < s.queue[0].hi
    case Exit => k.Idle? && (s.queue == [] || s.cancelled || s.aborted)
    case Drop => k.HasChunk() && (s.cancelled || s.aborted)
    case HttpFail => k.Ready?
    case StaleNode => k.Ready? && k.chunk.lo > 0
    case HealAsk => k.Ready?
    case HealLock => k.HealWait? && s.heal.lock == None
    case HealRefused => k.HealHold?
    case HealOk => k.HealHold? && s.heal.left > 0
    case Open => k.Ready?
    case Fragment(n) => k.Streaming? && 0 < n && k.pos + n <= k.chunk.hi
    case BodyFail => k.Streaming?
    case Eof => k.Streaming?
    case Grow => k.Growing?
  }

  predicate Enabled(s: State, e: Event) {
    match e
    case Cancel => !s.cancelled
    case AbortAll => !s.aborted && Failed in s.workers
    case Act(w, action) => w < |s.workers| && CanAct(s, w, action)
  }

  function Put(s: State, w: nat, k: Worker): State
    requires w < |s.workers|
  {
    s.(workers := s.workers[w := k])
  }

  /** A failed attempt: give up on the last retry, otherwise go round again. A shrinking failure
      also resets the multiplier and returns everything beyond one base chunk to the deque. */
  function FailAttempt(s: State, w: nat, chunk: Interval, retries: nat, shrink: bool): (t: State)
    requires w < |s.workers|
    ensures |t.workers| == |s.workers|
  {
    if retries + 1 >= MAX_DOWNLOAD_RETRIES then
      Put(s, w, Failed).(log := s.log.(abandoned := s.log.abandoned + [chunk]))
    else if !shrink then
      Put(s, w, Ready(chunk, retries + 1))
    else if chunk.hi - chunk.lo > s.job.base then
      var cut := chunk.lo + s.job.base;
      Put(s, w, Ready(Interval(chunk.lo, cut), retries + 1))
      .(mult := 1, queue := [Interval(cut, chunk.hi)] + s.queue)
    else
      Put(s, w, Ready(chunk, retries + 1)).(mult := 1)
  }

  /** A response ends uncleanly: the bytes it recorded are noted as extra. */
  function Spilled(log: Log, k: Worker): Log {
    if k.Streaming? then log.(extra := log.extra + Span(k.chunk.lo, k.pos)) else log
  }

  function Unlocked(heal: Heal): Heal { heal.(lock := None) }

  /** A response ends cleanly, whether or not it filled the chunk. */
  function Finished(log: Log, chunk: Interval, pos: nat): Log {
    Log(log.finished + [chunk],
        log.abandoned,
        log.recorded,
        log.delivered + Span(chunk.lo, pos),
        log.shortfall + Span(pos, chunk.hi),
        log.extra)
  }

  /** The deque after the front slice gave up its first chunk. */
  function Popped(queue: seq<Interval>, cut: nat): seq<Interval>
    requires queue != []
  {
    (if cut < queue[0].hi then [Interval(cut, queue[0].hi)] else []) + queue[1..]
  }

  function Acted(s: State, w: nat, action: Action): (t: State)
    requires w < |s.workers| && CanAct(s, w, action)
    ensures |t.workers| == |s.workers|
  {
    var k := s.workers[w];
    match action
    case Pop =>
      var cut := ChunkEnd(s.job.base, s.mult, s.queue[0]);
      Put(s, w, Ready(Interval(s.queue[0].lo, cut), 0)).(queue := Popped(s.queue, cut))
    case Exit => Put(s, w, Ended)
    case Drop =>
      var log := Spilled(s.log, k);
      Put(s, w, Ended).(
      log := log.(abandoned := log.abandoned + [k.chunk]),
      heal := if k.HealHold? then Unlocked(s.heal) else s.heal)
    case HttpFail => FailAttempt(s, w, k.chunk, k.retries, true)
    case StaleNode => FailAttempt(s, w, k.chunk, k.retries, false)
    case HealAsk => Put(s, w, HealWait(k.chunk, k.retries))
    case HealLock => Put(s, w, HealHold(k.chunk, k.retries)).(heal := s.heal.(lock := Some(w)))
    case HealRefused => FailAttempt(s.(heal := Unlocked(s.heal)), w, k.chunk, k.retries, true)
    case HealOk => Put(s, w, Ready(k.chunk, 0)).(heal := Heal(s.heal.left - 1, s.heal.done + 1, None))
    case Open => Put(s, w, Streaming(k.chunk, k.retries, k.chunk.lo))
    case Fragment(n) =>
      Put(s, w, k.(pos := k.pos + n)).(log := s.log.(recorded := s.log.recorded + Span(k.pos, k.pos + n)))
    case BodyFail => FailAttempt(s.(log := Spilled(s.log, k)), w, k.chunk, k.retries, true)
    case Eof => Put(s, w, Growing).(log := Finished(s.log, k.chunk, k.pos))
    case Grow => Put(s, w, Idle).(mult := Min(s.mult * 2, MAX_MULTIPLIER))
  }

  function Next(s: State, e: Event): (t: State)
    requires Enabled(s, e)
    ensures |t.workers| == |s.workers|
  {
    match e
    case Cancel => s.(cancelled := true)
    case AbortAll => s.(aborted := true)
    case Act(w, action) => Acted(s, w, action)
  }

  function Start(job: Job, streams: nat): State {
    State(job, job.missing, seq(Max(streams, 1), _ => Idle), 1, Heal(MAX_SESSION_LINK_HEALS, 0, None),
      false, false, Log([], [], {}, {}, {}, {}))
  }

  // ----- Runs -----

  /** `es` can happen in order from `s`. */
  predicate Runs(s: State, es: seq<Event>)
    decreases |es|
  {
    es == [] || (Enabled(s, es[0]) && Runs(Next(s, es[0]), es[1..]))
  }

  function Final(s: State, es: seq<Event>): State
    requires Runs(s, es)
    decreases |es|
  {
    if es == [] then s else Final(Next(s, es[0]), es[1..])
  }

  // ----- Sums over workers and lists -----

  function Sum(ws: seq<Worker>, f: Worker -> nat): nat {
    if ws == [] then 0 else f(ws[0]) + Sum(ws[1..], f)
  }

  lemma {:induction false} SumUpdate(ws: seq<Worker>, w: nat, k: Worker, f: Worker -> nat)
    requires w < |ws|
    ensures Sum(ws[w := k], f) + f(ws[w]) == Sum(ws, f) + f(k)
  {
    if w == 0 {
      assert ws[w := k][1..] == ws[1..];
    } else {
      assert ws[w := k][1..] == ws[1..][w - 1 := k];
      SumUpdate(ws[1..], w - 1, k, f);
    }
  }

  lemma {:induction false} SumAtLeast(ws: seq<Worker>, w: nat, f: Worker -> nat)
    requires w < |ws|
    ensures Sum(ws, f) >= f(ws[w])
  {
    if w != 0 { SumAtLeast(ws[1..], w - 1, f); }
  }

  lemma {:induction false} SumAtMost(ws: seq<Worker>, f: Worker -> nat, bound: nat)
    requires forall w | 0 <= w < |ws| :: f(ws[w]) <= bound
    ensures Sum(ws, f) <= |ws| * bound
  {
    if ws != [] { SumAtMost(ws[1..], f, bound); }
  }

  function At(v: Interval, b: int): nat { if v.lo <= b < v.hi then 1 else 0 }

  function Size(v: Interval): nat { Max(0, v.hi - v.lo) }

  /** How many intervals of the list contain byte `b`. */
  function Count(iv: seq<Interval>, b: int): nat {
    if iv == [] then 0 else At(iv[0], b) + Count(iv[1..], b)
  }

  function Sizes(iv: seq<Interval>): nat {
    if iv == [] then 0 else Size(iv[0]) + Sizes(iv[1..])
  }

  /** How many bytes-in-hand of a worker are byte `b`: one or none. */
  function HeldAt(b: int): Worker -> nat {
    (k: Worker) => if k.HasChunk() then At(k.chunk, b) else 0
  }

  function HeldSize(): Worker -> nat {
    (k: Worker) => if k.HasChunk() then Size(k.chunk) else 0
  }

  lemma {:induction false} CountConcat(a: seq<Interval>, c: seq<Interval>, b: int)
    ensures Count(a + c, b) == Count(a, b) + Count(c, b)
  {
    if a == [] {
      assert a + c == c;
    } else {
      assert (a + c)[1..] == a[1..] + c;
      CountConcat(a[1..], c, b);
    }
  }

  lemma {:induction false} CountHas(iv: seq<Interval>, b: int)
    ensures Count(iv, b) > 0 <==> Has(iv, b)
  {
    if iv != [] {
      CountHas(iv[1..], b);
      HasCons(iv);
    }
  }

  lemma {:induction false} CountNormal(iv: seq<Interval>, b: int)
    requires Normal(iv)
    ensures Count(iv, b) == if Has(iv, b) then 1 else 0
  {
    if iv != [] {
      CountNormal(iv[1..], b);
      TailBytes(iv);
      HasCons(iv);
    }
  }
}
