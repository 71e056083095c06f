/** Which worker writes which byte. At any moment the chunks in hand are disjoint, but over a whole
    session two workers can write the same byte: a response that breaks off beyond one base chunk
    leaves written bytes in the part that goes back to the deque. That is the only way. */
module PoolWrites {
  import opened ByteRanges
  import opened WorkerPool
  import opened PoolSafety

  /** A pool with, for each worker, every byte it has written so far. */
  datatype Traced = Traced(s: State, written: seq<set<nat>>)

  function TracedNext(t: Traced, e: Event): (t': Traced)
    requires Enabled(t.s, e) && |t.written| == |t.s.workers|
    ensures |t'.written| == |t'.s.workers|
  {
    Traced(Next(t.s, e),
           if e.Act? && e.action.Fragment? then
             var k := t.s.workers[e.w];
             t.written[e.w := t.written[e.w] + Span(k.pos, k.pos + e.action.n)]
           else t.written)
  }

  /** The event returns bytes to the deque that the worker has already written. */
  predicate Overshoots(s: State, e: Event)
    requires Enabled(s, e)
  {
    e.Act? && e.action.BodyFail? && HandsBack(s.job, s.workers[e.w])
  }

  /** A worker that fails now will retry, will cut its chunk, and has written past the cut. */
  predicate HandsBack(job: Job, k: Worker) {
    && k.Streaming?
    && k.retries + 1 < MAX_DOWNLOAD_RETRIES
    && k.pos > k.chunk.lo + job.base
    && k.chunk.hi - k.chunk.lo > job.base
  }

  predicate Holds(k: Worker, b: int) { k.HasChunk() && k.chunk.lo <= b < k.chunk.hi }

  /** Nobody but `w` has written, holds or may yet pick up byte `b`. */
  ghost predicate Alone(t: Traced, w: nat, b: int) {
    && !Has(t.s.queue, b)
    && forall v | 0 <= v < |t.s.workers| && v < |t.written| && v != w ::
        !Holds(t.s.workers[v], b) && b !in t.written[v]
  }

  /** No byte is ever written by two workers: what one wrote is out of every other worker's reach. */
  ghost predicate Exclusive(t: Traced) {
    forall w, b | 0 <= w < |t.written| && b in t.written[w] :: Alone(t, w, b)
  }

  /** What a worker has written of its own chunk. */
  ghost predicate OwnWrites(job: Job, k: Worker, written: set<nat>) {
    && (k.Streaming? ==> forall b: nat | k.chunk.lo <= b < k.pos :: b in written)
    && (k.HasChunk() && k.chunk.hi - k.chunk.lo > job.base ==>
          forall b | b in written && Holds(k, b) :: k.Streaming? && b < k.pos)
  }

  ghost predicate TracedInv(t: Traced) {
    && Inv(t.s)
    && |t.written| == |t.s.workers|
    && (forall w | 0 <= w < |t.written| :: OwnWrites(t.s.job, t.s.workers[w], t.written[w]))
    && Exclusive(t)
  }

  /** A step that writes nothing and brings nothing new within anyone's reach keeps exclusivity,
      provided it returns no written byte to the deque. */
  lemma QuietExclusive(t: Traced, t': Traced, w: nat)
    requires w < |t.s.workers| == |t.written| && Exclusive(t) && t'.written == t.written
    requires |t'.s.workers| == |t.s.workers| && t'.s.workers == t.s.workers[w := t'.s.workers[w]]
    requires forall b | Holds(t'.s.workers[w], b) :: Has(t.s.queue, b) || Holds(t.s.workers[w], b)
    requires forall b | Has(t'.s.queue, b) :: Has(t.s.queue, b) || Holds(t.s.workers[w], b)
    requires forall b | b in t.written[w] :: !Has(t'.s.queue, b)
    ensures Exclusive(t')
  {
    forall v, b | 0 <= v < |t'.written| && b in t'.written[v] ensures Alone(t', v, b) {
      assert Alone(t, v, b);
      assert v != w ==> !Holds(t.s.workers[w], b);
      forall u | 0 <= u < |t.written| && u != v ensures !Holds(t'.s.workers[u], b) && b !in t.written[u] {
        assert !Holds(t.s.workers[u], b);
      }
    }
  }

  /** A fragment is written inside the worker's own chunk, which nobody else can reach. */
  lemma FragmentExclusive(t: Traced, w: nat, n: nat)
    requires TracedInv(t) && w < |t.s.workers| && CanAct(t.s, w, Fragment(n))
    ensures Exclusive(TracedNext(t, Act(w, Fragment(n))))
  {
    var t', k := TracedNext(t, Act(w, Fragment(n))), t.s.workers[w];
    assert OwnWrites(t.s.job, k, t.written[w]) && WorkerOk(t.s, w);
    forall v, b | 0 <= v < |t'.written| && b in t'.written[v] ensures Alone(t', v, b) {
      if b in t.written[v] { assert Alone(t, v, b); }
      if v != w {
        assert !Holds(k, b);
      } else if b !in t.written[w] {
        InHandIsPrivate(t.s, w, b);
        assert forall u | 0 <= u < |t.written| && b in t.written[u] :: Alone(t, u, b);
      }
    }
  }

  lemma InHandIsPrivate(s: State, w: nat, b: int)
    requires Conserved(s) && w < |s.workers| && Holds(s.workers[w], b)
    ensures !Has(s.queue, b)
    ensures forall v | 0 <= v < |s.workers| && v != w :: !Holds(s.workers[v], b)
  {
    SumAtLeast(s.workers, w, HeldAt(b));
    CountHas(s.queue, b);
    assert Accounts(s, b) <= 1;
    forall v | 0 <= v < |s.workers| && v != w ensures !Holds(s.workers[v], b) {
      if v < w { SumTwo(s.workers, v, w, HeldAt(b)); } else { SumTwo(s.workers, w, v, HeldAt(b)); }
    }
  }

  /** Cutting a failed chunk: every byte stays with the worker or goes to the deque. */
  lemma FailReach(s: State, heal: Heal, log: Log, w: nat, shrink: bool)
    requires w < |s.workers| && s.workers[w].HasChunk()
    ensures var k := s.workers[w];
      var t := FailAttempt(s.(heal := heal, log := log), w, k.chunk, k.retries, shrink);
      && (forall b | Holds(t.workers[w], b) :: Holds(k, b))
      && (forall b :: Has(t.queue, b) <==>
          Has(s.queue, b)
          || (shrink && k.retries + 1 < MAX_DOWNLOAD_RETRIES && k.chunk.lo + s.job.base <= b < k.chunk.hi))
  {
    var k := s.workers[w];
    var rest := Interval(k.chunk.lo + s.job.base, k.chunk.hi);
    HasConcat([rest], s.queue);
    HasOne(rest);
    hide Has;
  }

  lemma FailExclusive(t: Traced, heal: Heal, log: Log, w: nat, shrink: bool)
    requires w < |t.s.workers| == |t.written| && t.s.workers[w].HasChunk() && Exclusive(t)
    requires OwnWrites(t.s.job, t.s.workers[w], t.written[w])
    requires !HandsBack(t.s.job, t.s.workers[w])
    ensures var k := t.s.workers[w];
      Exclusive(t.(s := FailAttempt(t.s.(heal := heal, log := log), w, k.chunk, k.retries, shrink)))
  {
    var k := t.s.workers[w];
    var t' := t.(s := FailAttempt(t.s.(heal := heal, log := log), w, k.chunk, k.retries, shrink));
    FailReach(t.s, heal, log, w, shrink);
    forall b | b in t.written[w] ensures !Has(t'.s.queue, b) {
      assert Alone(t, w, b);
      assert Holds(k, b) || b < k.chunk.lo || k.chunk.hi <= b;
    }
    hide Has, Exclusive;
    QuietExclusive(t, t', w);
  }

  lemma PopExclusive(t: Traced, w: nat)
    requires w < |t.s.workers| == |t.written| && CanAct(t.s, w, Pop) && Exclusive(t)
    ensures Exclusive(t.(s := Acted(t.s, w, Pop)))
    ensures forall b | b in t.written[w] :: !Holds(Acted(t.s, w, Pop).workers[w], b)
  {
    var s, s' := t.s, Acted(t.s, w, Pop);
    var rest := Interval(ChunkEnd(s.job.base, s.mult, s.queue[0]), s.queue[0].hi);
    HasCons(s.queue);
    HasConcat([rest], s.queue[1..]);
    HasOne(rest);
    assert [] + s.queue[1..] == s.queue[1..];
    hide Has;
    assert forall b | Holds(s'.workers[w], b) :: Has(s.queue, b);
    assert forall b | Has(s'.queue, b) :: Has(s.queue, b);
    forall b | b in t.written[w] ensures !Has(s.queue, b) { assert Alone(t, w, b); }
    QuietExclusive(t, t.(s := s'), w);
  }

  /** An action other than a pop, a failure or a fragment keeps the deque and takes nothing in hand. */
  lemma IdleReach(s: State, w: nat, action: Action)
    requires w < |s.workers| && CanAct(s, w, action)
    requires action !in {HttpFail, StaleNode, HealRefused, BodyFail, Pop} && !action.Fragment?
    ensures var k := Acted(s, w, action).workers[w];
      && Acted(s, w, action).queue == s.queue
      && (k.HasChunk() ==> s.workers[w].HasChunk() && k.chunk == s.workers[w].chunk)
      && (k.Streaming? ==> k.pos == k.chunk.lo)
      && (s.workers[w].Streaming? ==> !k.HasChunk())
  {
    hide FailAttempt, ChunkEnd, Popped, Finished;
  }

  lemma ActExclusive(t: Traced, w: nat, action: Action)
    requires TracedInv(t) && w < |t.s.workers| && CanAct(t.s, w, action)
    requires !Overshoots(t.s, Act(w, action))
    ensures Exclusive(TracedNext(t, Act(w, action)))
  {
    var k := t.s.workers[w];
    assert OwnWrites(t.s.job, k, t.written[w]) && WorkerOk(t.s, w);
    if action.Fragment? {
      FragmentExclusive(t, w, action.n);
    } else if action in {HttpFail, StaleNode, HealRefused, BodyFail, Pop} {
      hide Exclusive, OwnWrites, FailAttempt, Inv;
      match action
      case HttpFail => FailExclusive(t, t.s.heal, t.s.log, w, true);
      case StaleNode => FailExclusive(t, t.s.heal, t.s.log, w, false);
      case HealRefused => FailExclusive(t, Unlocked(t.s.heal), t.s.log, w, true);
      case BodyFail => FailExclusive(t, t.s.heal, Spilled(t.s.log, k), w, true);
      case Pop => PopExclusive(t, w);
    } else {
      IdleReach(t.s, w, action);
      ActShape(t.s, w, action);
      forall b | b in t.written[w] ensures !Has(t.s.queue, b) { assert Alone(t, w, b); }
      hide Exclusive, Has, Acted, CanAct, Inv, OwnWrites, WorkerOk;
      QuietExclusive(t, t.(s := Acted(t.s, w, action)), w);
    }
  }

  lemma FailOwnWrites(s: State, heal: Heal, log: Log, w: nat, shrink: bool, written: set<nat>)
    requires w < |s.workers| && WorkerOk(s, w) && s.workers[w].HasChunk()
    requires OwnWrites(s.job, s.workers[w], written)
    requires s.workers[w].Streaming? ==> shrink
    ensures var k := s.workers[w];
      OwnWrites(s.job, FailAttempt(s.(heal := heal, log := log), w, k.chunk, k.retries, shrink).workers[w], written)
  {}

  lemma QuietOwnWrites(s: State, w: nat, action: Action, written: set<nat>)
    requires w < |s.workers| && CanAct(s, w, action) && OwnWrites(s.job, s.workers[w], written)
    requires action !in {HttpFail, StaleNode, HealRefused, BodyFail, Pop} && !action.Fragment?
    ensures OwnWrites(s.job, Acted(s, w, action).workers[w], written)
  {
    IdleReach(s, w, action);
    hide Acted, CanAct;
  }

  lemma FragmentOwnWrites(s: State, w: nat, n: nat, written: set<nat>)
    requires w < |s.workers| && CanAct(s, w, Fragment(n)) && OwnWrites(s.job, s.workers[w], written)
    ensures var k := s.workers[w];
      OwnWrites(s.job, Acted(s, w, Fragment(n)).workers[w], written + Span(k.pos, k.pos + n))
  {}

  /** A popped chunk is new to the worker that takes it. */
  lemma PopOwnWrites(t: Traced, w: nat)
    requires TracedInv(t) && w < |t.s.workers| && CanAct(t.s, w, Pop)
    ensures OwnWrites(t.s.job, Acted(t.s, w, Pop).workers[w], t.written[w])
  {
    PopExclusive(t, w);
    hide Exclusive, Inv;
  }

  lemma FailActOwnWrites(s: State, w: nat, action: Action, written: set<nat>)
    requires w < |s.workers| && CanAct(s, w, action) && OwnWrites(s.job, s.workers[w], written) && WorkerOk(s, w)
    requires action in {HttpFail, StaleNode, HealRefused, BodyFail} && !Overshoots(s, Act(w, action))
    ensures OwnWrites(s.job, Acted(s, w, action).workers[w], written)
  {
    hide OwnWrites, FailAttempt, WorkerOk;
    match action
    case HttpFail => FailOwnWrites(s, s.heal, s.log, w, true, written);
    case StaleNode => FailOwnWrites(s, s.heal, s.log, w, false, written);
    case HealRefused => FailOwnWrites(s, Unlocked(s.heal), s.log, w, true, written);
    case BodyFail => FailOwnWrites(s, s.heal, Spilled(s.log, s.workers[w]), w, true, written);
  }

  lemma ActOwnWrites(t: Traced, w: nat, action: Action)
    requires TracedInv(t) && w < |t.s.workers| && CanAct(t.s, w, action)
    requires !Overshoots(t.s, Act(w, action))
    ensures var t' := TracedNext(t, Act(w, action));
      OwnWrites(t'.s.job, t'.s.workers[w], t'.written[w])
  {
    assert OwnWrites(t.s.job, t.s.workers[w], t.written[w]) && WorkerOk(t.s, w);
    ActShape(t.s, w, action);
    hide Exclusive, OwnWrites, WorkerOk, Acted, CanAct, Overshoots, TracedInv, Shape;
    if action.Pop? {
      PopOwnWrites(t, w);
    } else if action.Fragment? {
      FragmentOwnWrites(t.s, w, action.n, t.written[w]);
    } else if action in {HttpFail, StaleNode, HealRefused, BodyFail} {
      FailActOwnWrites(t.s, w, action, t.written[w]);
    } else {
      QuietOwnWrites(t.s, w, action, t.written[w]);
    }
  }

  /** One step: exclusivity survives exactly when the step does not hand written bytes back. */
  lemma StepExclusive(t: Traced, e: Event)
    requires TracedInv(t) && Enabled(t.s, e)
    ensures Exclusive(TracedNext(t, e)) <==> !Overshoots(t.s, e)
    ensures !Overshoots(t.s, e) ==> TracedInv(TracedNext(t, e))
  {
    var t' := TracedNext(t, e);
    if Overshoots(t.s, e) {
      var k := t.s.workers[e.w];
      var b := k.chunk.lo + t.s.job.base;
      assert WorkerOk(t.s, e.w) && OwnWrites(t.s.job, k, t.written[e.w]);
      assert b in t'.written[e.w];
      FailReach(t.s, t.s.heal, Spilled(t.s.log, k), e.w, true);
      assert Has(t'.s.queue, b);
      assert !Alone(t', e.w, b);
    } else {
      StepInv(t.s, e);
      if e.Act? {
        ActShape(t.s, e.w, e.action);
        ActExclusive(t, e.w, e.action);
        ActOwnWrites(t, e.w, e.action);
        hide Exclusive, Inv, OwnWrites, Acted, CanAct, Overshoots;
        forall v | 0 <= v < |t'.written| ensures OwnWrites(t'.s.job, t'.s.workers[v], t'.written[v]) {
          assert OwnWrites(t.s.job, t.s.workers[v], t.written[v]);
        }
      } else {
        SameReach(t, t');
      }
    }
  }

  lemma SameReach(t: Traced, t': Traced)
    requires TracedInv(t) && Inv(t'.s) && t'.written == t.written
    requires t'.s.workers == t.s.workers && t'.s.queue == t.s.queue && t'.s.job == t.s.job
    ensures TracedInv(t')
  {
    forall w, b | 0 <= w < |t'.written| && b in t'.written[w] ensures Alone(t', w, b) {
      assert Alone(t, w, b);
    }
  }

  /** A run in which no response breaks off beyond one base chunk with a retry to come. */
  predicate GentleRun(s: State, es: seq<Event>)
    requires Runs(s, es)
    decreases |es|
  {
    es == [] || (!Overshoots(s, es[0]) && GentleRun(Next(s, es[0]), es[1..]))
  }

  function TracedFinal(t: Traced, es: seq<Event>): Traced
    requires Runs(t.s, es) && |t.written| == |t.s.workers|
    decreases |es|
  {
    if es == [] then t else TracedFinal(TracedNext(t, es[0]), es[1..])
  }

  lemma {:induction false} GentleRunInv(t: Traced, es: seq<Event>)
    requires TracedInv(t) && Runs(t.s, es) && GentleRun(t.s, es)
    ensures TracedInv(TracedFinal(t, es)) && TracedFinal(t, es).s == Final(t.s, es)
    decreases |es|
  {
    if es != [] {
      StepExclusive(t, es[0]);
      hide Inv, Exclusive, OwnWrites, Next, Enabled, Overshoots;
      GentleRunInv(TracedNext(t, es[0]), es[1..]);
    }
  }

  /** A session at its start, when nobody has written anything. */
  function TracedStart(job: Job, streams: nat): Traced {
    Traced(Start(job, streams), seq(Max(streams, 1), _ => {}))
  }

  /** Over every gentle run of a session, from its start, no two workers write the same byte. */
  lemma GentleRunExclusive(job: Job, streams: nat, es: seq<Event>)
    requires IsJob(job) && Runs(Start(job, streams), es) && GentleRun(Start(job, streams), es)
    ensures var t := TracedFinal(TracedStart(job, streams), es);
      && t.s == Final(Start(job, streams), es)
      && forall v, w | 0 <= v < w < |t.written| :: t.written[v] !! t.written[w]
  {
    StartInv(job, streams);
    GentleRunInv(TracedStart(job, streams), es);
    var t := TracedFinal(TracedStart(job, streams), es);
    hide Inv, TracedFinal, Runs, GentleRun;
    forall v, w, b | 0 <= v < w < |t.written| && b in t.written[v] ensures b !in t.written[w] {
      assert Alone(t, v, b);
    }
  }

  /** Some interleaving leads from `t` to `end`. */
  ghost predicate Reaches(t: Traced, end: Traced) {
    && |t.written| == |t.s.workers|
    && exists es :: Runs(t.s, es) && TracedFinal(t, es) == end
  }

  lemma ReachesVia(t: Traced, e: Event, end: Traced)
    requires |t.written| == |t.s.workers| && Enabled(t.s, e)
    requires TracedNext(t, e) == end || Reaches(TracedNext(t, e), end)
    ensures Reaches(t, end)
  {
    var t' := TracedNext(t, e);
    assert TracedFinal(t', []) == t';
    var es :| Runs(t'.s, es) && TracedFinal(t', es) == end;
    assert ([e] + es)[1..] == es;
    assert Runs(t.s, [e] + es) && TracedFinal(t, [e] + es) == end;
  }

  /** One worker takes the whole of a two-byte chunk. */
  lemma TakeBoth(t: Traced) returns (end: Traced)
    requires t.s.job.base == 1 && t.s.queue == [Interval(1, 3)] && t.s.mult == 2
    requires t.s.workers == [Idle, Idle] && |t.written| == 2
    ensures Reaches(t, end)
    ensures end.s.workers == [Streaming(Interval(1, 3), 0, 1), Idle] && end.s.queue == []
    ensures end.s.job.base == 1 && |end.written| == 2
  {
    var t1 := TracedNext(t, Act(0, Pop));
    assert t1.s.workers == [Ready(Interval(1, 3), 0), Idle] && t1.s.queue == [];
    end := TracedNext(t1, Act(0, Open));
    assert end.s.workers == [Streaming(Interval(1, 3), 0, 1), Idle];
    hide Acted, CanAct, FailAttempt;
    ReachesVia(t1, Act(0, Open), end);
    ReachesVia(t, Act(0, Pop), end);
  }

  /** It receives both bytes and then loses the response. */
  lemma LoseResponse(t: Traced) returns (end: Traced)
    requires t.s.workers == [Streaming(Interval(1, 3), 0, 1), Idle] && t.s.queue == []
    requires t.s.job.base == 1 && |t.written| == 2
    ensures Reaches(t, end)
    ensures end.s.workers == [Ready(Interval(1, 2), 1), Idle] && end.s.queue == [Interval(2, 3)]
    ensures end.s.job.base == 1 && end.s.mult == 1
    ensures |end.written| == 2 && 2 in end.written[0]
  {
    var t1 := TracedNext(t, Act(0, Fragment(2)));
    assert t1.s.workers == [Streaming(Interval(1, 3), 0, 3), Idle] && 2 in t1.written[0] && t1.s.queue == [];
    end := TracedNext(t1, Act(0, BodyFail));
    assert end.s.workers == [Ready(Interval(1, 2), 1), Idle];
    hide Acted, CanAct, FailAttempt;
    ReachesVia(t1, Act(0, BodyFail), end);
    ReachesVia(t, Act(0, Fragment(2)), end);
  }

  /** The other worker takes what came back. */
  lemma TakeReturned(t: Traced) returns (end: Traced)
    requires t.s.workers == [Ready(Interval(1, 2), 1), Idle] && t.s.queue == [Interval(2, 3)]
    requires t.s.job.base == 1 && t.s.mult == 1 && |t.written| == 2
    ensures Reaches(t, end)
    ensures |end.written| == 2 && end.written == t.written
    ensures |end.s.workers| == 2 && end.s.workers[1] == Streaming(Interval(2, 3), 0, 2)
  {
    var t1 := TracedNext(t, Act(1, Pop));
    assert t1.s.workers[1] == Ready(Interval(2, 3), 0);
    end := TracedNext(t1, Act(1, Open));
    assert end.s.workers[1] == Streaming(Interval(2, 3), 0, 2);
    hide Acted, CanAct, FailAttempt;
    ReachesVia(t1, Act(1, Open), end);
    ReachesVia(t, Act(1, Pop), end);
  }

  /** And writes it again. */
  lemma WriteAgain(t: Traced) returns (end: Traced)
    requires |t.written| == |t.s.workers| == 2 && t.s.workers[1] == Streaming(Interval(2, 3), 0, 2)
    ensures Reaches(t, end)
    ensures |end.written| == 2 && end.written[0] == t.written[0] && 2 in end.written[1]
  {
    end := TracedNext(t, Act(1, Fragment(1)));
    ReachesVia(t, Act(1, Fragment(1)), end);
  }

  /** The first byte is fetched. */
  lemma FirstByte(t: Traced) returns (end: Traced)
    requires t == Traced(Start(Job(1, 3, [Interval(0, 3)]), 2), [{}, {}])
    ensures Reaches(t, end)
    ensures end.s.job.base == 1 && end.s.queue == [Interval(1, 3)] && end.s.mult == 1
    ensures end.s.workers == [Streaming(Interval(0, 1), 0, 1), Idle] && |end.written| == 2
  {
    assert t.s.workers == [Idle, Idle];
    var t1 := TakeFirst(t);
    end := TracedNext(t1, Act(0, Fragment(1)));
    assert end.s.workers == [Streaming(Interval(0, 1), 0, 1), Idle];
    hide Acted, CanAct, FailAttempt;
    ReachesVia(t1, Act(0, Fragment(1)), end);
    ReachesTrans(t, t1, end);
  }

  lemma TakeFirst(t: Traced) returns (end: Traced)
    requires t.s.job == Job(1, 3, [Interval(0, 3)]) && t.s.queue == [Interval(0, 3)] && t.s.mult == 1
    requires t.s.workers == [Idle, Idle] && |t.written| == 2
    ensures Reaches(t, end)
    ensures end.s.job == t.s.job && end.s.queue == [Interval(1, 3)] && end.s.mult == 1
    ensures end.s.workers == [Streaming(Interval(0, 1), 0, 0), Idle] && |end.written| == 2
  {
    var t1 := TracedNext(t, Act(0, Pop));
    assert t1.s.workers == [Ready(Interval(0, 1), 0), Idle] && t1.s.queue == [Interval(1, 3)];
    end := TracedNext(t1, Act(0, Open));
    assert end.s.workers == [Streaming(Interval(0, 1), 0, 0), Idle];
    hide Acted, CanAct, FailAttempt;
    ReachesVia(t1, Act(0, Open), end);
    ReachesVia(t, Act(0, Pop), end);
  }

  /** Finishing it doubles the multiplier. */
  lemma FinishFirstByte(t: Traced) returns (end: Traced)
    requires t.s.workers == [Streaming(Interval(0, 1), 0, 1), Idle] && |t.written| == 2
    requires t.s.job.base == 1 && t.s.queue == [Interval(1, 3)] && t.s.mult == 1
    ensures Reaches(t, end)
    ensures end.s.job.base == 1 && end.s.queue == [Interval(1, 3)] && end.s.mult == 2
    ensures end.s.workers == [Idle, Idle] && |end.written| == 2
  {
    hide Finished, FailAttempt, Popped, ChunkEnd, Spilled;
    var t1 := TracedNext(t, Act(0, Eof));
    assert t1.s.workers == [Growing, Idle];
    end := TracedNext(t1, Act(0, Grow));
    assert end.s.workers == [Idle, Idle];
    hide Acted, CanAct;
    ReachesVia(t1, Act(0, Grow), end);
    ReachesVia(t, Act(0, Eof), end);
  }

  lemma ReachesTrans(a: Traced, b: Traced, c: Traced)
    requires Reaches(a, b) && Reaches(b, c)
    ensures Reaches(a, c)
  {
    var es :| Runs(a.s, es) && TracedFinal(a, es) == b;
    RunTrans(a, es, c);
  }

  lemma {:induction false} RunTrans(a: Traced, es: seq<Event>, c: Traced)
    requires |a.written| == |a.s.workers| && Runs(a.s, es) && Reaches(TracedFinal(a, es), c)
    ensures Reaches(a, c)
    decreases |es|
  {
    hide Next, Enabled;
    if es != [] {
      RunTrans(TracedNext(a, es[0]), es[1..], c);
      ReachesVia(a, es[0], c);
    }
  }

  /** The exception is real: base chunk 1, three missing bytes, two workers. Worker 0 finishes
      byte 0, takes bytes 1 and 2 as one doubled chunk, receives both, and the response then breaks
      off. Byte 2 goes back to the deque, and worker 1 writes it again. */
  lemma TwoWritersOfOneByte() returns (end: Traced)
    ensures Reaches(Traced(Start(Job(1, 3, [Interval(0, 3)]), 2), [{}, {}]), end)
    ensures |end.written| == 2 && 2 in end.written[0] && 2 in end.written[1]
  {
    var t0 := Traced(Start(Job(1, 3, [Interval(0, 3)]), 2), [{}, {}]);
    var t1 := FirstByte(t0);
    var t2 := FinishFirstByte(t1);
    var t3 := TakeBoth(t2);
    var t4 := LoseResponse(t3);
    var t5 := TakeReturned(t4);
    end := WriteAgain(t5);
    hide Reaches;
    ReachesTrans(t0, t1, t2);
    ReachesTrans(t0, t2, t3);
    ReachesTrans(t0, t3, t4);
    ReachesTrans(t0, t4, t5);
    ReachesTrans(t0, t5, end);
  }
}
