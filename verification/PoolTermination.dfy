/** The worker pool always stops: heals reset retry counters and failures put work back on the
    deque, yet no interleaving runs for ever and none gets stuck. */
module PoolTermination {
  import opened Wrappers
  import opened ByteRanges
  import opened WorkerPool
  import opened PoolSafety

  /** Bytes still queued or in hand. */
  function Outstanding(s: State): nat { Sizes(s.queue) + Sum(s.workers, HeldSize()) }

  /** How far a worker is from the end of its current attempt and its last retry. */
  function PhaseOf(k: Worker): nat {
    match k
    case Growing => 21
    case Idle => 20
    case Ready(_, r) => 4 * Max(0, MAX_DOWNLOAD_RETRIES - r) + 3
    case HealWait(_, r) => 4 * Max(0, MAX_DOWNLOAD_RETRIES - r) + 2
    case HealHold(_, r) => 4 * Max(0, MAX_DOWNLOAD_RETRIES - r) + 1
    case Streaming(_, r, _) => 4 * Max(0, MAX_DOWNLOAD_RETRIES - r) + 1
    case Ended => 0
    case Failed => 0
  }

  function Phase(): Worker -> nat { (k: Worker) => PhaseOf(k) }

  /** Body bytes that the open response may still bring. */
  function Left(): Worker -> nat {
    (k: Worker) => if k.Streaming? then Max(0, k.chunk.hi - k.pos) else 0
  }

  function Phases(s: State): nat {
    Sum(s.workers, Phase()) + (if s.cancelled then 0 else 1) + (if s.aborted then 0 else 1)
  }

  function BodyLeft(s: State): nat { Sum(s.workers, Left()) }

  /** The lexicographic order on (heals left, outstanding bytes, phases, body bytes left). */
  predicate Closer(t: State, s: State) {
    || t.heal.left < s.heal.left
    || (t.heal.left == s.heal.left &&
        (|| Outstanding(t) < Outstanding(s)
         || (Outstanding(t) == Outstanding(s) &&
             (|| Phases(t) < Phases(s)
              || (Phases(t) == Phases(s) && BodyLeft(t) < BodyLeft(s))))))
  }

  lemma {:induction false} SizesConcat(a: seq<Interval>, c: seq<Interval>)
    ensures Sizes(a + c) == Sizes(a) + Sizes(c)
  {
    if a == [] {
      assert a + c == c;
    } else {
      assert (a + c)[1..] == a[1..] + c;
      SizesConcat(a[1..], c);
    }
  }

  lemma SizesCons(v: Interval, rest: seq<Interval>)
    ensures Sizes([v] + rest) == Size(v) + Sizes(rest)
  {
    assert ([v] + rest)[1..] == rest;
  }

  /** How the three sums move when one worker is replaced. */
  lemma PutSums(s: State, t: State, w: nat, k: Worker)
    requires w < |s.workers| && t.workers == s.workers[w := k]
    requires t.cancelled == s.cancelled && t.aborted == s.aborted
    ensures Outstanding(t) - Sizes(t.queue) + HeldSize()(s.workers[w])
         == Outstanding(s) - Sizes(s.queue) + HeldSize()(k)
    ensures Phases(t) + PhaseOf(s.workers[w]) == Phases(s) + PhaseOf(k)
    ensures BodyLeft(t) + Left()(s.workers[w]) == BodyLeft(s) + Left()(k)
  {
    SumUpdate(s.workers, w, k, HeldSize());
    SumUpdate(s.workers, w, k, Phase());
    SumUpdate(s.workers, w, k, Left());
  }

  /** A failed attempt replaces one worker by one in a lower phase, and what it lets go of is queued
      again or given up. */
  lemma FailEffect(s: State, w: nat, chunk: Interval, retries: nat, shrink: bool)
    requires w < |s.workers| && s.workers[w].HasChunk() && HoldsSoundly(s.job, s.workers[w])
    requires chunk == s.workers[w].chunk && retries == s.workers[w].retries
    ensures var t := FailAttempt(s, w, chunk, retries, shrink);
      && t.workers == s.workers[w := t.workers[w]]
      && t.cancelled == s.cancelled && t.aborted == s.aborted && t.heal == s.heal
      && PhaseOf(t.workers[w]) < PhaseOf(s.workers[w])
      && Sizes(t.queue) + HeldSize()(t.workers[w]) <= Sizes(s.queue) + HeldSize()(s.workers[w])
  {
    SizesCons(Interval(chunk.lo + s.job.base, chunk.hi), s.queue);
    hide Sizes;
  }

  lemma FailCloser(s: State, heal: Heal, log: Log, w: nat, shrink: bool)
    requires w < |s.workers| && WorkerOk(s, w) && heal.left == s.heal.left
    requires s.workers[w].HasChunk()
    ensures var t := FailAttempt(s.(heal := heal, log := log), w, s.workers[w].chunk, s.workers[w].retries, shrink);
      Closer(t, s) && Outstanding(t) <= Outstanding(s)
  {
    var s' := s.(heal := heal, log := log);
    var t := FailAttempt(s', w, s.workers[w].chunk, s.workers[w].retries, shrink);
    FailEffect(s', w, s.workers[w].chunk, s.workers[w].retries, shrink);
    hide FailAttempt, PhaseOf;
    PutSums(s, t, w, t.workers[w]);
    hide Outstanding, Phases, BodyLeft, Sizes, Sum;
  }

  lemma PopCloser(s: State, w: nat)
    requires w < |s.workers| && CanAct(s, w, Pop)
    ensures Closer(Acted(s, w, Pop), s) && Outstanding(Acted(s, w, Pop)) <= Outstanding(s)
  {
    var t := Acted(s, w, Pop);
    PutSums(s, t, w, t.workers[w]);
    SizesCons(Interval(ChunkEnd(s.job.base, s.mult, s.queue[0]), s.queue[0].hi), s.queue[1..]);
    assert [] + s.queue[1..] == s.queue[1..];
    hide Outstanding, Phases, BodyLeft, Sum;
  }

  lemma ActCloser(s: State, w: nat, action: Action)
    requires w < |s.workers| && CanAct(s, w, action) && WorkerOk(s, w)
    ensures Closer(Acted(s, w, action), s) && Outstanding(Acted(s, w, action)) <= Outstanding(s)
  {
    hide FailAttempt, ChunkEnd, Popped, Finished, Closer;
    var t, k := Acted(s, w, action), s.workers[w];
    match action
    case HttpFail => FailCloser(s, s.heal, s.log, w, true);
    case StaleNode => FailCloser(s, s.heal, s.log, w, false);
    case HealRefused => FailCloser(s, Unlocked(s.heal), s.log, w, true);
    case BodyFail => FailCloser(s, s.heal, Spilled(s.log, k), w, true);
    case Pop => PopCloser(s, w);
    case _ => QuietCloser(s, w, action);
  }

  lemma QuietCloser(s: State, w: nat, action: Action)
    requires w < |s.workers| && CanAct(s, w, action) && WorkerOk(s, w)
    requires action !in {HttpFail, StaleNode, HealRefused, BodyFail, Pop}
    ensures Closer(Acted(s, w, action), s) && Outstanding(Acted(s, w, action)) <= Outstanding(s)
  {
    hide FailAttempt, ChunkEnd, Popped, Finished;
    var t := Acted(s, w, action);
    PutSums(s, t, w, t.workers[w]);
    hide Outstanding, Phases, BodyLeft, Sizes, Sum;
  }

  /** Every event brings the pool closer to its end, and never adds outstanding bytes. */
  lemma StepCloser(s: State, e: Event)
    requires WellFormed(s) && Enabled(s, e)
    ensures Closer(Next(s, e), s) && Outstanding(Next(s, e)) <= Outstanding(s)
  {
    if e.Act? {
      assert WorkerOk(s, e.w);
      ActCloser(s, e.w, e.action);
      hide Acted, CanAct, WellFormed, Closer;
    }
  }

  // ----- A bound on every run -----

  function Pair(x: nat, y: nat, bound: nat): nat { x * (bound + 1) + y }

  lemma PairLess(x: nat, y: nat, x': nat, y': nat, bound: nat)
    requires y' <= bound && (x' < x || (x' == x && y' < y))
    ensures Pair(x', y', bound) < Pair(x, y, bound)
  {
    if x' < x {
      assert x * (bound + 1) >= (x' + 1) * (bound + 1) == x' * (bound + 1) + bound + 1;
    }
  }

  function PhaseBound(s: State): nat { 21 * |s.workers| + 2 }

  function BodyBound(s: State): nat { |s.workers| * s.job.fileSize }

  /** The lexicographic measure packed into one number, given a cap on outstanding bytes. */
  function Rank(s: State, cap: nat): nat {
    Pair(Pair(Pair(s.heal.left, Outstanding(s), cap), Phases(s), PhaseBound(s)), BodyLeft(s), BodyBound(s))
  }

  lemma Bounds(s: State)
    requires WellFormed(s)
    ensures Phases(s) <= PhaseBound(s) && BodyLeft(s) <= BodyBound(s)
  {
    forall w | 0 <= w < |s.workers|
      ensures Phase()(s.workers[w]) <= 21 && Left()(s.workers[w]) <= s.job.fileSize
    {
      assert WorkerOk(s, w);
    }
    SumAtMost(s.workers, Phase(), 21);
    SumAtMost(s.workers, Left(), s.job.fileSize);
  }

  lemma CloserRanks(s: State, t: State, cap: nat)
    requires WellFormed(t) && Closer(t, s)
    requires |t.workers| == |s.workers| && t.job == s.job
    requires Outstanding(t) <= cap
    ensures Rank(t, cap) < Rank(s, cap)
  {
    Bounds(t);
    assert PhaseBound(t) == PhaseBound(s) && BodyBound(t) == BodyBound(s);
    hide Outstanding, Phases, BodyLeft, PhaseBound, BodyBound, Pair, WellFormed;
    var a, b := Pair(s.heal.left, Outstanding(s), cap), Pair(t.heal.left, Outstanding(t), cap);
    if t.heal.left != s.heal.left || Outstanding(t) != Outstanding(s) {
      PairLess(s.heal.left, Outstanding(s), t.heal.left, Outstanding(t), cap);
      PairLess(a, Phases(s), b, Phases(t), PhaseBound(s));
      var c, d := Pair(a, Phases(s), PhaseBound(s)), Pair(b, Phases(t), PhaseBound(s));
      PairLess(c, BodyLeft(s), d, BodyLeft(t), BodyBound(s));
    } else {
      if Phases(t) != Phases(s) {
        PairLess(a, Phases(s), b, Phases(t), PhaseBound(s));
      }
      var c, d := Pair(a, Phases(s), PhaseBound(s)), Pair(b, Phases(t), PhaseBound(s));
      PairLess(c, BodyLeft(s), d, BodyLeft(t), BodyBound(s));
    }
  }

  lemma {:induction false} RunBounded(s: State, es: seq<Event>, cap: nat)
    requires WellFormed(s) && Runs(s, es) && Outstanding(s) <= cap
    ensures |es| <= Rank(s, cap)
    decreases |es|
  {
    if es != [] {
      var t := Next(s, es[0]);
      StepWellFormed(s, es[0]);
      StepCloser(s, es[0]);
      if es[0].Act? { ActShape(s, es[0].w, es[0].action); }
      hide WellFormed, Closer, Rank, Next, Enabled, Outstanding;
      CloserRanks(s, t, cap);
      RunBounded(t, es[1..], cap);
    }
  }

  /** No interleaving of a session makes more events than a number fixed at its start. */
  lemma PoolTerminates(job: Job, streams: nat, es: seq<Event>)
    requires IsJob(job) && Runs(Start(job, streams), es)
    ensures |es| <= Rank(Start(job, streams), Sizes(job.missing))
  {
    var s := Start(job, streams);
    StartInv(job, streams);
    NoneHeldSize(s.workers);
    RunBounded(s, es, Sizes(job.missing));
  }

  lemma {:induction false} NoneHeldSize(ws: seq<Worker>)
    requires forall w | 0 <= w < |ws| :: ws[w].Idle?
    ensures Sum(ws, HeldSize()) == 0
  {
    if ws != [] { NoneHeldSize(ws[1..]); }
  }

  /** What worker `k` can do next when nobody stands in its way. */
  function Onward(s: State, w: nat): Event
    requires w < |s.workers|
  {
    Act(w, match s.workers[w]
           case Idle => if s.queue == [] then Exit else Pop
           case Ready(_, _) => Open
           case HealWait(_, _) => HealLock
           case HealHold(_, _) => HealRefused
           case Streaming(_, _, _) => Eof
           case Growing => Grow
           case _ => Exit)
  }

  /** The pool never gets stuck: a worker that has not stopped can go on, or it waits for the refresh
      lock and the holder of that lock can. */
  lemma NeverStuck(s: State, w: nat)
    requires WellFormed(s) && w < |s.workers| && !s.workers[w].Stopped()
    ensures exists v ::
      && 0 <= v < |s.workers| && Enabled(s, Onward(s, v))
      && (v == w || (s.workers[w].HealWait? && s.heal.lock == Some(v)))
  {
    assert s.queue != [] ==> s.queue[0] in s.queue;
    var v := if s.workers[w].HealWait? && s.heal.lock.Some? then s.heal.lock.value else w;
    assert WorkerOk(s, v);
    assert Enabled(s, Onward(s, v));
  }

  /** No worker can do anything more. */
  ghost predicate Quiet(s: State) {
    forall w, action | 0 <= w < |s.workers| :: !CanAct(s, w, action)
  }

  /** No deadlock: a run from the start has gone quiet if and only if every worker has stopped. With
      the bound on its length, every run that goes on as long as it can stops all workers. */
  lemma QuietMeansStopped(job: Job, streams: nat, es: seq<Event>)
    requires IsJob(job) && Runs(Start(job, streams), es)
    ensures var s := Final(Start(job, streams), es);
      Quiet(s) <==> forall w | 0 <= w < |s.workers| :: s.workers[w].Stopped()
  {
    StartInv(job, streams);
    RunInv(Start(job, streams), es);
    var s := Final(Start(job, streams), es);
    hide Final, Runs, Conserved, Ledger, SomeoneLeft, NothingDropped;
    if w :| 0 <= w < |s.workers| && !s.workers[w].Stopped() {
      NeverStuck(s, w);
      var v :| 0 <= v < |s.workers| && Enabled(s, Onward(s, v));
      assert CanAct(s, v, Onward(s, v).action);
    }
  }

  /** With a zero base chunk a pop hands out nothing and leaves the deque as it was, so the
      positive base is exactly what progress needs. */
  lemma PopMakesProgress(s: State, w: nat)
    requires w < |s.workers| && CanAct(s, w, Pop) && s.mult > 0
    ensures Size(Acted(s, w, Pop).workers[w].chunk) > 0 <==> s.job.base > 0
    ensures s.job.base == 0 ==> Acted(s, w, Pop).queue == s.queue
  {
    if s.job.base == 0 {
      assert ChunkEnd(0, s.mult, s.queue[0]) == s.queue[0].lo;
      assert [s.queue[0]] + s.queue[1..] == s.queue;
    }
  }
}
