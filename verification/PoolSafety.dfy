/** What every reachable state of the worker pool keeps: work conservation, the heal budget,
    and the completeness of a clean exit. */
module PoolSafety {
  import opened Wrappers
  import opened ByteRanges
  import opened WorkerPool

  /** Nonempty and inside the file. */
  predicate Sound(v: Interval, fileSize: nat) { v.lo < v.hi <= fileSize }

  predicate WorkerOk(s: State, w: nat)
    requires w < |s.workers|
  {
    var k := s.workers[w];
    && HoldsSoundly(s.job, k)
    && (k.HealHold? <==> s.heal.lock == Some(w))
  }

  predicate HoldsSoundly(job: Job, k: Worker) {
    && (k.HasChunk() ==> Sound(k.chunk, job.fileSize) && k.retries < MAX_DOWNLOAD_RETRIES)
    && (k.Streaming? ==> k.chunk.lo <= k.pos <= k.chunk.hi)
  }

  predicate WellFormed(s: State) {
    && s.job.base > 0
    && s.workers != []
    && 1 <= s.mult <= MAX_MULTIPLIER
    && s.heal.left + s.heal.done == MAX_SESSION_LINK_HEALS
    && (s.heal.lock.Some? ==> s.heal.lock.value < |s.workers|)
    && QueueOk(s.queue, s.job.fileSize)
    && (forall w | 0 <= w < |s.workers| :: WorkerOk(s, w))
  }

  predicate QueueOk(queue: seq<Interval>, fileSize: nat) {
    forall v | v in queue :: Sound(v, fileSize)
  }

  /** One worker moves to a sound state and the lock follows it. */
  lemma PutWellFormed(s: State, t: State, w: nat, k: Worker)
    requires WellFormed(s) && w < |s.workers| && t.workers == s.workers[w := k] && t.job == s.job
    requires t.heal.left + t.heal.done == s.heal.left + s.heal.done
    requires 1 <= t.mult <= MAX_MULTIPLIER && QueueOk(t.queue, s.job.fileSize)
    requires HoldsSoundly(s.job, k)
    requires LockFollows(s, t, w, k)
    ensures WellFormed(t)
  {
    forall v | 0 <= v < |t.workers| ensures WorkerOk(t, v) {
      assert WorkerOk(s, v);
    }
  }

  /** A failed attempt, with the lock given up if it was held. */
  lemma FailWellFormed(s: State, heal: Heal, log: Log, w: nat, shrink: bool)
    requires WellFormed(s) && w < |s.workers| && s.workers[w].HasChunk()
    requires heal == if s.heal.lock == Some(w) then Unlocked(s.heal) else s.heal
    ensures WellFormed(FailAttempt(s.(heal := heal, log := log), w, s.workers[w].chunk, s.workers[w].retries, shrink))
  {
    assert WorkerOk(s, w);
    var t := FailAttempt(s.(heal := heal, log := log), w, s.workers[w].chunk, s.workers[w].retries, shrink);
    PutWellFormed(s, t, w, t.workers[w]);
  }

  /** The lock moves only with the worker that takes it or gives it up. */
  predicate LockFollows(s: State, t: State, w: nat, k: Worker) {
    if k.HealHold? then t.heal.lock == Some(w) && (s.heal.lock == None || s.heal.lock == Some(w))
    else t.heal.lock == if s.heal.lock == Some(w) then None else s.heal.lock
  }

  lemma QuietAct(s: State, w: nat, action: Action)
    requires w < |s.workers| && CanAct(s, w, action) && WorkerOk(s, w)
    requires 1 <= s.mult <= MAX_MULTIPLIER
    requires action !in {HttpFail, StaleNode, HealRefused, BodyFail, Pop}
    ensures var t := Acted(s, w, action);
      && HoldsSoundly(s.job, t.workers[w])
      && LockFollows(s, t, w, t.workers[w])
      && t.heal.left + t.heal.done == s.heal.left + s.heal.done
      && 1 <= t.mult <= MAX_MULTIPLIER
      && t.queue == s.queue
  {
    hide FailAttempt, ChunkEnd, Popped, Finished;
  }

  lemma ActWellFormed(s: State, w: nat, action: Action)
    requires WellFormed(s) && w < |s.workers| && CanAct(s, w, action)
    ensures WellFormed(Acted(s, w, action))
  {
    assert WorkerOk(s, w);
    QueueAndMult(s);
    var t, k := Acted(s, w, action), s.workers[w];
    if action in {HttpFail, StaleNode, HealRefused, BodyFail, Pop} {
      hide WellFormed, FailAttempt, QueueOk;
      match action
      case HttpFail => FailWellFormed(s, s.heal, s.log, w, true);
      case StaleNode => FailWellFormed(s, s.heal, s.log, w, false);
      case HealRefused => FailWellFormed(s, Unlocked(s.heal), s.log, w, true);
      case BodyFail => FailWellFormed(s, s.heal, Spilled(s.log, k), w, true);
      case Pop => PopWellFormed(s, w);
    } else {
      QuietAct(s, w, action);
      ActShape(s, w, action);
      hide WellFormed, QueueOk, Acted, CanAct, HoldsSoundly, LockFollows, WorkerOk;
      PutWellFormed(s, t, w, t.workers[w]);
    }
  }

  lemma QueueAndMult(s: State)
    requires WellFormed(s)
    ensures 1 <= s.mult <= MAX_MULTIPLIER && QueueOk(s.queue, s.job.fileSize)
  {}

  lemma PopWellFormed(s: State, w: nat)
    requires WellFormed(s) && w < |s.workers| && CanAct(s, w, Pop)
    ensures WellFormed(Acted(s, w, Pop))
  {
    var t := Acted(s, w, Pop);
    assert s.queue[0] in s.queue;
    assert WorkerOk(s, w);
    PutWellFormed(s, t, w, t.workers[w]);
  }

  lemma StepWellFormed(s: State, e: Event)
    requires WellFormed(s) && Enabled(s, e)
    ensures WellFormed(Next(s, e))
  {
    if e.Act? {
      ActWellFormed(s, e.w, e.action);
      hide WellFormed, Acted, CanAct;
    } else {
      assert forall v | 0 <= v < |s.workers| :: WorkerOk(s, v) ==> WorkerOk(Next(s, e), v);
    }
  }

  // ----- Conservation of work -----

  /** How many times byte `b` is accounted for: queued, in hand, finished or abandoned. */
  function Accounts(s: State, b: int): nat {
    Count(s.queue, b) + Sum(s.workers, HeldAt(b)) + Count(s.log.finished, b) + Count(s.log.abandoned, b)
  }

  /** Every byte that was missing at the start is accounted for exactly once, every other byte never. */
  ghost predicate Conserved(s: State) {
    forall b: int :: Accounts(s, b) == if Has(s.job.missing, b) then 1 else 0
  }

  lemma CountOne(v: Interval, b: int)
    ensures Count([v], b) == At(v, b)
  {
    assert [v][1..] == [];
  }

  lemma AbandonAccounts(s: State, heal: Heal, log: Log, w: nat, b: int)
    requires w < |s.workers| && s.workers[w].HasChunk()
    requires log.finished == s.log.finished && log.abandoned == s.log.abandoned
    ensures var chunk := s.workers[w].chunk;
      Accounts(Put(s.(heal := heal), w, Failed).(log := log.(abandoned := log.abandoned + [chunk])), b)
      == Accounts(s, b)
  {
    var chunk := s.workers[w].chunk;
    SumUpdate(s.workers, w, Failed, HeldAt(b));
    CountConcat(s.log.abandoned, [chunk], b);
    CountOne(chunk, b);
    hide Sum, Count;
  }

  lemma CutAccounts(s: State, heal: Heal, log: Log, w: nat, cut: nat, retries: nat, b: int)
    requires w < |s.workers| && s.workers[w].HasChunk() && s.workers[w].chunk.lo <= cut <= s.workers[w].chunk.hi
    requires log.finished == s.log.finished && log.abandoned == s.log.abandoned
    ensures var chunk := s.workers[w].chunk;
      Accounts(Put(s.(heal := heal, log := log), w, Ready(Interval(chunk.lo, cut), retries))
               .(mult := 1, queue := [Interval(cut, chunk.hi)] + s.queue), b)
      == Accounts(s, b)
  {
    var chunk := s.workers[w].chunk;
    var rest := Interval(cut, chunk.hi);
    SumUpdate(s.workers, w, Ready(Interval(chunk.lo, cut), retries), HeldAt(b));
    CountConcat([rest], s.queue, b);
    CountOne(rest, b);
    hide Sum, Count;
  }

  lemma FailAccounts(s: State, heal: Heal, log: Log, w: nat, shrink: bool, b: int)
    requires w < |s.workers| && s.workers[w].HasChunk()
    requires log.finished == s.log.finished && log.abandoned == s.log.abandoned
    ensures Accounts(FailAttempt(s.(heal := heal, log := log), w, s.workers[w].chunk, s.workers[w].retries, shrink), b)
         == Accounts(s, b)
  {
    var k := s.workers[w];
    var t := FailAttempt(s.(heal := heal, log := log), w, k.chunk, k.retries, shrink);
    if k.retries + 1 >= MAX_DOWNLOAD_RETRIES {
      AbandonAccounts(s, heal, log, w, b);
      hide Accounts;
    } else if shrink && k.chunk.hi - k.chunk.lo > s.job.base {
      CutAccounts(s, heal, log, w, k.chunk.lo + s.job.base, k.retries + 1, b);
      hide Accounts;
    } else {
      hide Accounts;
      QuietAccounts(s, t, w, Ready(k.chunk, k.retries + 1), b);
    }
  }

  lemma PopAccounts(s: State, w: nat, b: int)
    requires w < |s.workers| && CanAct(s, w, Pop)
    ensures Accounts(Acted(s, w, Pop), b) == Accounts(s, b)
  {
    var t, slice := Acted(s, w, Pop), s.queue[0];
    var rest := Interval(ChunkEnd(s.job.base, s.mult, slice), slice.hi);
    SumUpdate(s.workers, w, t.workers[w], HeldAt(b));
    CountConcat([rest], s.queue[1..], b);
    CountOne(rest, b);
    assert [] + s.queue[1..] == s.queue[1..];
  }

  /** A step that changes only one worker, and not the chunk it holds. */
  lemma QuietAccounts(s: State, t: State, w: nat, k: Worker, b: int)
    requires w < |s.workers| && t.workers == s.workers[w := k]
    requires HeldAt(b)(k) == HeldAt(b)(s.workers[w])
    requires t.queue == s.queue && t.log.finished == s.log.finished && t.log.abandoned == s.log.abandoned
    ensures Accounts(t, b) == Accounts(s, b)
  {
    SumUpdate(s.workers, w, k, HeldAt(b));
  }

  /** A step that moves a worker's chunk to one of the two final lists. */
  lemma LeaveAccounts(s: State, t: State, w: nat, k: Worker, b: int)
    requires w < |s.workers| && t.workers == s.workers[w := k]
    requires s.workers[w].HasChunk() && !k.HasChunk() && t.queue == s.queue
    requires
      || (t.log.finished == s.log.finished + [s.workers[w].chunk] && t.log.abandoned == s.log.abandoned)
      || (t.log.abandoned == s.log.abandoned + [s.workers[w].chunk] && t.log.finished == s.log.finished)
    ensures Accounts(t, b) == Accounts(s, b)
  {
    var chunk := s.workers[w].chunk;
    SumUpdate(s.workers, w, k, HeldAt(b));
    CountConcat(s.log.abandoned, [chunk], b);
    CountConcat(s.log.finished, [chunk], b);
    CountOne(chunk, b);
  }

  lemma KeepAccounts(s: State, w: nat, action: Action, b: int)
    requires w < |s.workers| && CanAct(s, w, action)
    requires action !in {HttpFail, StaleNode, HealRefused, BodyFail, Pop, Drop, Eof}
    ensures Accounts(Acted(s, w, action), b) == Accounts(s, b)
  {
    hide Accounts, FailAttempt, Popped, ChunkEnd, Finished, Spilled, At;
    var t := Acted(s, w, action);
    assert t.workers == s.workers[w := t.workers[w]];
    QuietAccounts(s, t, w, t.workers[w], b);
  }

  lemma EndAccounts(s: State, w: nat, action: Action, b: int)
    requires w < |s.workers| && CanAct(s, w, action) && action in {Drop, Eof}
    ensures Accounts(Acted(s, w, action), b) == Accounts(s, b)
  {
    hide Accounts, FailAttempt, Popped, ChunkEnd;
    var t := Acted(s, w, action);
    LeaveAccounts(s, t, w, if action.Drop? then Ended else Growing, b);
  }

  lemma ActAccounts(s: State, w: nat, action: Action, b: int)
    requires w < |s.workers| && CanAct(s, w, action)
    ensures Accounts(Acted(s, w, action), b) == Accounts(s, b)
  {
    hide Accounts, FailAttempt, Popped, ChunkEnd, Finished;
    match action
    case Pop => PopAccounts(s, w, b);
    case Drop => EndAccounts(s, w, action, b);
    case Eof => EndAccounts(s, w, action, b);
    case HttpFail => FailAccounts(s, s.heal, s.log, w, true, b);
    case StaleNode => FailAccounts(s, s.heal, s.log, w, false, b);
    case HealRefused => FailAccounts(s, Unlocked(s.heal), s.log, w, true, b);
    case BodyFail => FailAccounts(s, s.heal, Spilled(s.log, s.workers[w]), w, true, b);
    case _ => KeepAccounts(s, w, action, b);
  }

  /** No event creates, loses or duplicates work. */
  lemma StepAccounts(s: State, e: Event, b: int)
    requires Enabled(s, e)
    ensures Accounts(Next(s, e), b) == Accounts(s, b)
  {
    if e.Act? {
      ActAccounts(s, e.w, e.action, b);
      hide Acted, CanAct, Accounts;
    }
  }

  lemma StepConserved(s: State, e: Event)
    requires Conserved(s) && Enabled(s, e)
    ensures Conserved(Next(s, e)) && Next(s, e).job == s.job
  {
    var t := Next(s, e);
    if e.Act? { ActShape(s, e.w, e.action); }
    hide Next, Enabled, Accounts, Acted, CanAct;
    forall b: int ensures Accounts(t, b) == Accounts(s, b) { StepAccounts(s, e, b); }
  }

  /** Two different places never account for the same byte. */
  lemma Disjoint(s: State, w: nat, v: nat, b: int)
    requires Conserved(s) && w < v < |s.workers|
    requires s.workers[w].HasChunk() && s.workers[v].HasChunk()
    requires At(s.workers[w].chunk, b) == 1
    ensures At(s.workers[v].chunk, b) == 0
    ensures !Has(s.queue, b) && !Has(s.log.finished, b) && !Has(s.log.abandoned, b)
  {
    SumTwo(s.workers, w, v, HeldAt(b));
    CountHas(s.queue, b);
    CountHas(s.log.finished, b);
    CountHas(s.log.abandoned, b);
    assert Accounts(s, b) <= 1;
  }

  lemma {:induction false} SumTwo(ws: seq<Worker>, w: nat, v: nat, f: Worker -> nat)
    requires w < v < |ws|
    ensures Sum(ws, f) >= f(ws[w]) + f(ws[v])
  {
    if w == 0 {
      SumAtLeast(ws[1..], v - 1, f);
    } else {
      SumTwo(ws[1..], w - 1, v - 1, f);
    }
  }

  // ----- What responses recorded -----

  /** Byte `b` was recorded by the response that worker `k` is streaming. */
  predicate InStream(k: Worker, b: int) { k.Streaming? && k.chunk.lo <= b < k.pos }

  ghost predicate Streamed(ws: seq<Worker>, b: int) {
    exists w | 0 <= w < |ws| :: InStream(ws[w], b)
  }

  /** The byte sets tell the whole history: recorded bytes are exactly those of a clean, a failed
      or a running response, and the finished chunks split into delivered bytes and shortfall. */
  ghost predicate Ledger(s: State) {
    && (forall b: nat :: b in s.log.recorded <==> b in s.log.delivered || b in s.log.extra || Streamed(s.workers, b))
    && (forall b: nat :: Has(s.log.finished, b) <==> b in s.log.delivered || b in s.log.shortfall)
    && s.log.delivered !! s.log.shortfall
  }

  lemma StreamedUpdate(ws: seq<Worker>, w: nat, k: Worker, b: int)
    requires w < |ws| && (Streamed(ws, b) || InStream(k, b) || Streamed(ws[w := k], b))
    ensures Streamed(ws[w := k], b) || InStream(ws[w], b)
    ensures Streamed(ws, b) || InStream(k, b)
    ensures InStream(k, b) ==> Streamed(ws[w := k], b)
  {
    if InStream(k, b) {
      assert ws[w := k][w] == k;
    }
    if Streamed(ws, b) {
      var v :| 0 <= v < |ws| && InStream(ws[v], b);
      assert v != w ==> ws[w := k][v] == ws[v];
    }
  }

  // ----- A worker that stays, or nothing left to do -----

  /** Some worker is still running, or the deque is empty, or the session was cut short. */
  ghost predicate SomeoneLeft(s: State) {
    || s.cancelled || s.aborted || Failed in s.workers || s.queue == []
    || exists w :: 0 <= w < |s.workers| && !s.workers[w].Stopped()
  }

  ghost predicate NothingDropped(s: State) {
    !s.cancelled && !s.aborted && Failed !in s.workers ==> s.log.abandoned == []
  }

  ghost predicate Inv(s: State) {
    WellFormed(s) && Conserved(s) && Ledger(s) && SomeoneLeft(s) && NothingDropped(s)
  }

  lemma FailLedger(s: State, heal: Heal, w: nat, shrink: bool)
    requires w < |s.workers| && s.workers[w].HasChunk() && !s.workers[w].Streaming? && Ledger(s)
    ensures Ledger(FailAttempt(s.(heal := heal), w, s.workers[w].chunk, s.workers[w].retries, shrink))
  {
    hide Ledger;
    var t := FailAttempt(s.(heal := heal), w, s.workers[w].chunk, s.workers[w].retries, shrink);
    QuietLedger(s, t, w, t.workers[w]);
  }

  lemma BodyFailLedger(s: State, w: nat)
    requires w < |s.workers| && CanAct(s, w, BodyFail) && WorkerOk(s, w) && Ledger(s)
    ensures Ledger(Acted(s, w, BodyFail))
  {
    var k := s.workers[w];
    var s', t := s.(log := Spilled(s.log, k)), Acted(s, w, BodyFail);
    assert t == FailAttempt(s', w, k.chunk, k.retries, true);
    hide Ledger, Acted, CanAct, WorkerOk, Spilled;
    SpillLedger(s, t, w, t.workers[w]);
  }

  /** Swapping one worker for another that has recorded nothing leaves the ledger right. */
  lemma QuietLedger(s: State, t: State, w: nat, k: Worker)
    requires w < |s.workers| && Ledger(s)
    requires t.workers == s.workers[w := k]
    requires forall b :: !InStream(s.workers[w], b) && !InStream(k, b)
    requires t.log == s.log.(abandoned := t.log.abandoned)
    ensures Ledger(t)
  {
    forall b: nat ensures Streamed(t.workers, b) <==> Streamed(s.workers, b) {
      if Streamed(t.workers, b) || Streamed(s.workers, b) { StreamedUpdate(s.workers, w, k, b); }
    }
  }

  lemma FragmentLedger(s: State, w: nat, n: nat)
    requires w < |s.workers| && CanAct(s, w, Fragment(n)) && WorkerOk(s, w) && Ledger(s)
    ensures Ledger(Acted(s, w, Fragment(n)))
  {
    var t := Acted(s, w, Fragment(n));
    forall b: nat ensures b in t.log.recorded <==> b in t.log.delivered || b in t.log.extra || Streamed(t.workers, b) {
      if Streamed(t.workers, b) || Streamed(s.workers, b) || InStream(t.workers[w], b) {
        StreamedUpdate(s.workers, w, t.workers[w], b);
      }
    }
  }

  /** A response ends uncleanly: what it recorded moves to `extra`. */
  lemma SpillLedger(s: State, t: State, w: nat, k: Worker)
    requires w < |s.workers| && WorkerOk(s, w) && Ledger(s) && !k.Streaming?
    requires t.workers == s.workers[w := k] && t.log == Spilled(s.log, s.workers[w]).(abandoned := t.log.abandoned)
    ensures Ledger(t)
  {
    forall b: nat ensures b in t.log.recorded <==> b in t.log.delivered || b in t.log.extra || Streamed(t.workers, b) {
      if Streamed(t.workers, b) || Streamed(s.workers, b) { StreamedUpdate(s.workers, w, k, b); }
    }
  }

  lemma EofLedger(s: State, w: nat)
    requires w < |s.workers| && CanAct(s, w, Eof) && WorkerOk(s, w) && Ledger(s) && Conserved(s)
    ensures Ledger(Acted(s, w, Eof))
  {
    var t, k := Acted(s, w, Eof), s.workers[w];
    forall b: nat ensures b in t.log.recorded <==> b in t.log.delivered || b in t.log.extra || Streamed(t.workers, b) {
      if Streamed(t.workers, b) || Streamed(s.workers, b) { StreamedUpdate(s.workers, w, Growing, b); }
    }
    FinishedSplit(s, w);
  }

  lemma HeldIsNotFinished(s: State, w: nat, b: nat)
    requires w < |s.workers| && s.workers[w].HasChunk() && Conserved(s)
    requires s.workers[w].chunk.lo <= b < s.workers[w].chunk.hi
    ensures !Has(s.log.finished, b)
  {
    SumAtLeast(s.workers, w, HeldAt(b));
    CountHas(s.log.finished, b);
    assert Accounts(s, b) <= 1;
  }

  /** The finished chunk is new, so its delivered part and its shortfall are too. */
  lemma FinishedSplit(s: State, w: nat)
    requires w < |s.workers| && s.workers[w].Streaming? && WorkerOk(s, w) && Ledger(s) && Conserved(s)
    ensures var k := s.workers[w];
      var delivered := s.log.delivered + Span(k.chunk.lo, k.pos);
      var shortfall := s.log.shortfall + Span(k.pos, k.chunk.hi);
      && delivered !! shortfall
      && forall b: nat :: Has(s.log.finished + [k.chunk], b) <==> b in delivered || b in shortfall
  {
    var k := s.workers[w];
    HasConcat(s.log.finished, [k.chunk]);
    HasOne(k.chunk);
    forall b: nat | k.chunk.lo <= b < k.chunk.hi ensures b !in s.log.delivered && b !in s.log.shortfall {
      HeldIsNotFinished(s, w, b);
    }
    hide Conserved, WorkerOk, Has, Accounts;
    SplitNew(s.log.finished, s.log.delivered, s.log.shortfall, k.chunk, k.pos);
  }

  lemma SplitNew(finished: seq<Interval>, delivered: set<nat>, shortfall: set<nat>, chunk: Interval, pos: nat)
    requires delivered !! shortfall && chunk.lo <= pos <= chunk.hi
    requires forall b: nat :: Has(finished, b) <==> b in delivered || b in shortfall
    requires forall b: nat | chunk.lo <= b < chunk.hi :: b !in delivered && b !in shortfall
    requires forall b :: Has(finished + [chunk], b) <==> Has(finished, b) || chunk.lo <= b < chunk.hi
    ensures var d, f := delivered + Span(chunk.lo, pos), shortfall + Span(pos, chunk.hi);
      d !! f && forall b: nat :: Has(finished + [chunk], b) <==> b in d || b in f
  {
    hide Has;
  }

  lemma ActLedger(s: State, w: nat, action: Action)
    requires w < |s.workers| && CanAct(s, w, action) && WorkerOk(s, w) && Conserved(s) && Ledger(s)
    ensures Ledger(Acted(s, w, action))
  {
    hide Conserved, Ledger, FailAttempt;
    var t := Acted(s, w, action);
    match action
    case Eof => EofLedger(s, w);
    case Fragment(n) => FragmentLedger(s, w, n);
    case Drop => SpillLedger(s, t, w, Ended);
    case BodyFail => BodyFailLedger(s, w);
    case HttpFail => FailLedger(s, s.heal, w, true);
    case StaleNode => FailLedger(s, s.heal, w, false);
    case HealRefused => FailLedger(s, Unlocked(s.heal), w, true);
    case _ => QuietLedger(s, t, w, t.workers[w]);
  }

  lemma StepLedger(s: State, e: Event)
    requires WellFormed(s) && Conserved(s) && Ledger(s) && Enabled(s, e)
    ensures Ledger(Next(s, e))
  {
    if e.Act? {
      assert WorkerOk(s, e.w);
      ActLedger(s, e.w, e.action);
      hide Acted, CanAct, Ledger, WellFormed, Conserved;
    } else {
      assert Next(s, e).workers == s.workers;
    }
  }

  /** A worker stops only by failing, by a cut session, or with the deque empty. */
  lemma PutSomeoneLeft(s: State, t: State, w: nat, k: Worker)
    requires w < |s.workers| && t.workers == s.workers[w := k]
    requires t.cancelled == s.cancelled && t.aborted == s.aborted && !s.workers[w].Failed?
    requires SomeoneLeft(s) && NothingDropped(s)
    requires
      || k.Failed? || s.cancelled || s.aborted
      || (t.log.abandoned == s.log.abandoned && (k.Ended? ==> t.queue == []))
    ensures SomeoneLeft(t) && NothingDropped(t)
  {
    assert t.workers[w] == k;
    if Failed in s.workers {
      var v :| 0 <= v < |s.workers| && s.workers[v] == Failed;
      assert t.workers[v] == Failed;
    }
  }

  /** What a worker action leaves alone, and when a worker may stop. */
  ghost predicate Shape(s: State, t: State, w: nat) {
    && w < |s.workers| && |t.workers| == |s.workers|
    && t.workers == s.workers[w := t.workers[w]]
    && t.job == s.job && t.cancelled == s.cancelled && t.aborted == s.aborted
    && !s.workers[w].Failed?
    && (|| t.workers[w].Failed? || s.cancelled || s.aborted
        || (t.log.abandoned == s.log.abandoned && (t.workers[w].Ended? ==> t.queue == [])))
  }

  lemma FailShape(s: State, heal: Heal, log: Log, w: nat, shrink: bool)
    requires w < |s.workers| && s.workers[w].HasChunk() && log.abandoned == s.log.abandoned
    ensures var t := FailAttempt(s.(heal := heal, log := log), w, s.workers[w].chunk, s.workers[w].retries, shrink);
      Shape(s, t, w) && t.log.recorded == log.recorded
  {}

  lemma PlainShape(s: State, w: nat, action: Action)
    requires w < |s.workers| && CanAct(s, w, action)
    requires action !in {HttpFail, StaleNode, HealRefused, BodyFail}
    ensures Shape(s, Acted(s, w, action), w)
  {
    hide FailAttempt, ChunkEnd, Popped, Spilled;
  }

  lemma ActShape(s: State, w: nat, action: Action)
    requires w < |s.workers| && CanAct(s, w, action)
    ensures Shape(s, Acted(s, w, action), w)
  {
    hide FailAttempt, ChunkEnd, Popped, Shape, Finished;
    match action
    case HttpFail => FailShape(s, s.heal, s.log, w, true);
    case StaleNode => FailShape(s, s.heal, s.log, w, false);
    case HealRefused => FailShape(s, Unlocked(s.heal), s.log, w, true);
    case BodyFail => FailShape(s, s.heal, Spilled(s.log, s.workers[w]), w, true);
    case _ => PlainShape(s, w, action);
  }

  /** Only a fragment records bytes. */
  lemma StepRecorded(s: State, e: Event)
    requires Enabled(s, e)
    ensures Next(s, e).job == s.job
    ensures !(e.Act? && e.action.Fragment?) ==> Next(s, e).log.recorded == s.log.recorded
  {
    if e.Act? {
      ActShape(s, e.w, e.action);
      hide FailAttempt, ChunkEnd, Popped, Shape;
      match e.action
      case HttpFail => FailShape(s, s.heal, s.log, e.w, true);
      case StaleNode => FailShape(s, s.heal, s.log, e.w, false);
      case HealRefused => FailShape(s, Unlocked(s.heal), s.log, e.w, true);
      case BodyFail => FailShape(s, s.heal, Spilled(s.log, s.workers[e.w]), e.w, true);
      case _ =>
    }
  }

  lemma StepSomeoneLeft(s: State, e: Event)
    requires WellFormed(s) && SomeoneLeft(s) && NothingDropped(s) && Enabled(s, e)
    ensures SomeoneLeft(Next(s, e)) && NothingDropped(Next(s, e))
  {
    if e.Act? {
      ActShape(s, e.w, e.action);
      hide Acted, CanAct, SomeoneLeft, NothingDropped, WellFormed;
      var t := Acted(s, e.w, e.action);
      PutSomeoneLeft(s, t, e.w, t.workers[e.w]);
    }
  }

  /** Every event keeps the invariant, from every state that satisfies it. */
  lemma StepInv(s: State, e: Event)
    requires Inv(s) && Enabled(s, e)
    ensures Inv(Next(s, e)) && Next(s, e).job == s.job
  {
    hide WellFormed, Conserved, Ledger, SomeoneLeft, NothingDropped, Next, Enabled;
    StepWellFormed(s, e);
    StepConserved(s, e);
    StepLedger(s, e);
    StepSomeoneLeft(s, e);
  }

  // ----- Whole runs -----

  /** What a session may be started on: a positive base chunk and slices of the file, as the gap walk gives. */
  ghost predicate IsJob(job: Job) {
    && job.base > 0
    && Normal(job.missing)
    && forall i | 0 <= i < |job.missing| :: job.missing[i].hi <= job.fileSize
  }

  lemma {:induction false} SumOfIdle(ws: seq<Worker>, b: int)
    requires forall w | 0 <= w < |ws| :: ws[w].Idle?
    ensures Sum(ws, HeldAt(b)) == 0
  {
    if ws != [] { SumOfIdle(ws[1..], b); }
  }

  /** A session starts in the invariant, on any list of missing slices of the file. */
  lemma StartInv(job: Job, streams: nat)
    requires IsJob(job)
    ensures Inv(Start(job, streams))
  {
    var s := Start(job, streams);
    forall b: int ensures Accounts(s, b) == if Has(job.missing, b) then 1 else 0 {
      CountNormal(job.missing, b);
      SumOfIdle(s.workers, b);
    }
    assert s.workers[0].Idle?;
  }

  lemma {:induction false} RunInv(s: State, es: seq<Event>)
    requires Inv(s) && Runs(s, es)
    ensures Inv(Final(s, es))
    ensures Final(s, es).job == s.job
    decreases |es|
  {
    hide Inv, Next, Enabled;
    if es != [] {
      StepInv(s, es[0]);
      RunInv(Next(s, es[0]), es[1..]);
    }
  }

  /** In every reachable state of any interleaving: each missing byte sits in exactly one queued
      slice, chunk in hand, finished chunk or abandoned chunk, and no other byte sits in any;
      heals left and heals done add up to three, one worker at most holds the refresh lock,
      and the multiplier stays between 1 and 16. */
  lemma PoolSafe(job: Job, streams: nat, es: seq<Event>)
    requires IsJob(job)
    requires Runs(Start(job, streams), es)
    ensures var s := Final(Start(job, streams), es);
      && (forall b: int :: Accounts(s, b) == if Has(job.missing, b) then 1 else 0)
      && s.heal.left + s.heal.done == 3
      && (forall v, w | 0 <= v < w < |s.workers| :: !(s.workers[v].HealHold? && s.workers[w].HealHold?))
      && 1 <= s.mult <= 16
  {
    var s0 := Start(job, streams);
    StartInv(job, streams);
    RunInv(s0, es);
    var s := Final(s0, es);
    forall v, w | 0 <= v < w < |s.workers| ensures !(s.workers[v].HealHold? && s.workers[w].HealHold?) {
      assert WorkerOk(s, v) && WorkerOk(s, w);
    }
  }

  // ----- A clean exit -----

  /** Every worker returned Ok and nobody cancelled. */
  predicate CleanExit(s: State) {
    !s.cancelled && !s.aborted && forall w | 0 <= w < |s.workers| :: s.workers[w].Ended?
  }

  /** After a clean exit the deque is empty, every missing byte belongs to a finished chunk, and
      all of them are on record exactly when each byte some clean end left out was recorded by
      another response. The code takes any end of body as success, so the condition is needed. */
  lemma CleanExitIsComplete(s: State)
    requires Inv(s) && CleanExit(s)
    ensures s.queue == [] && s.log.abandoned == []
    ensures forall b: nat :: Has(s.job.missing, b) <==> Has(s.log.finished, b)
    ensures (forall b: nat | Has(s.job.missing, b) :: b in s.log.recorded) <==> s.log.shortfall <= s.log.extra
  {
    assert Failed !in s.workers;
    forall b: nat ensures Has(s.job.missing, b) <==> Has(s.log.finished, b) {
      NoneHeld(s.workers, b);
      CountHas(s.log.finished, b);
      assert Accounts(s, b) == Count(s.log.finished, b);
    }
    forall b: nat ensures !Streamed(s.workers, b) {}
    if forall b: nat | Has(s.job.missing, b) :: b in s.log.recorded {
      forall b | b in s.log.shortfall ensures b in s.log.extra {
        assert Has(s.log.finished, b) && Has(s.job.missing, b);
      }
    }
  }

  lemma {:induction false} RunsOn(s: State, a: seq<Event>, b: seq<Event>)
    requires Runs(s, a) && Runs(Final(s, a), b)
    ensures Runs(s, a + b) && Final(s, a + b) == Final(Final(s, a), b)
    decreases |a|
  {
    hide Next, Enabled;
    if a == [] {
      assert a + b == b;
    } else {
      assert (a + b)[1..] == a[1..] + b;
      RunsOn(Next(s, a[0]), a[1..], b);
    }
  }

  lemma Onward(s: State, e: Event, es: seq<Event>)
    requires Enabled(s, e) && Runs(Next(s, e), es)
    ensures Runs(s, [e] + es) && Final(s, [e] + es) == Final(Next(s, e), es)
  {
    hide Next, Enabled;
    assert ([e] + es)[1..] == es;
  }

  /** A byte is missing and a worker asks for it; the body ends before the byte comes. */
  const TAKE := [Act(0, Pop), Act(0, Open)]
  const END_SHORT := [Act(0, Eof), Act(0, Grow), Act(0, Exit)]

  lemma Takes(s: State)
    requires s == Start(Job(1, 1, [Interval(0, 1)]), 1)
    ensures Runs(s, TAKE)
    ensures var t := Final(s, TAKE);
      && t.workers == [Streaming(Interval(0, 1), 0, 0)] && t.queue == [] && t.log.recorded == {}
      && !t.cancelled && !t.aborted
  {
    hide FailAttempt;
    assert s.workers == [Idle];
    var s1 := Next(s, TAKE[0]);
    assert s1.workers == [Ready(Interval(0, 1), 0)] && s1.queue == [];
    var s2 := Next(s1, TAKE[1]);
    hide Next, Enabled;
    Onward(s1, TAKE[1], []);
    Onward(s, TAKE[0], [TAKE[1]]);
    assert TAKE == [TAKE[0]] + [TAKE[1]];
  }

  lemma ShortEnd(s: State)
    requires s.workers == [Streaming(Interval(0, 1), 0, 0)] && s.queue == []
    ensures Enabled(s, END_SHORT[0]) && Enabled(Next(s, END_SHORT[0]), END_SHORT[1])
    ensures Enabled(Next(Next(s, END_SHORT[0]), END_SHORT[1]), END_SHORT[2])
    ensures var t := Next(Next(Next(s, END_SHORT[0]), END_SHORT[1]), END_SHORT[2]);
      && t.workers == [Ended] && t.log.recorded == s.log.recorded
      && t.cancelled == s.cancelled && t.aborted == s.aborted
  {
    hide FailAttempt, Popped, ChunkEnd;
    var s1 := Next(s, END_SHORT[0]);
    assert s1.workers == [Growing];
    var s2 := Next(s1, END_SHORT[1]);
    assert s2.workers == [Idle];
    assert Next(s2, END_SHORT[2]).workers == [Ended];
  }

  lemma EndsShort(s: State)
    requires s.workers == [Streaming(Interval(0, 1), 0, 0)] && s.queue == []
    ensures Runs(s, END_SHORT)
    ensures var t := Final(s, END_SHORT);
      && t.workers == [Ended] && t.log.recorded == s.log.recorded
      && t.cancelled == s.cancelled && t.aborted == s.aborted
  {
    hide Next, Enabled;
    ShortEnd(s);
    var es, s1 := END_SHORT, Next(s, END_SHORT[0]);
    Onward(Next(s1, es[1]), es[2], []);
    Onward(s1, es[1], [es[2]]);
    Onward(s, es[0], [es[1]] + [es[2]]);
    assert es == [es[0]] + ([es[1]] + [es[2]]);
  }

  /** The gap is real: from the start of a session this run ends in a clean exit, and the one missing
      byte was never recorded. */
  lemma ShortBodyLeavesGap()
    ensures var s, es := Start(Job(1, 1, [Interval(0, 1)]), 1), TAKE + END_SHORT;
      && IsJob(s.job) && Runs(s, es) && CleanExit(Final(s, es))
      && Has(s.job.missing, 0) && 0 !in Final(s, es).log.recorded
  {
    var s := Start(Job(1, 1, [Interval(0, 1)]), 1);
    HasOne(Interval(0, 1));
    Takes(s);
    EndsShort(Final(s, TAKE));
    hide Runs, Final;
    RunsOn(s, TAKE, END_SHORT);
  }

  lemma {:induction false} NoneHeld(ws: seq<Worker>, b: int)
    requires forall w | 0 <= w < |ws| :: ws[w].Ended?
    ensures Sum(ws, HeldAt(b)) == 0
  {
    if ws != [] { NoneHeld(ws[1..], b); }
  }
}
