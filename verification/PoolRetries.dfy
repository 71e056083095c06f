/** How often a worker tries: a chunk is given up after three failed attempts in a row, where a refreshed
    link starts the count anew. */
module PoolRetries {
  import opened ByteRanges
  import opened WorkerPool
  import opened PoolSafety

  /** An attempt that came to nothing. */
  predicate FailsAttempt(action: Action) {
    action.HttpFail? || action.StaleNode? || action.HealRefused? || action.BodyFail?
  }

  /** The count of failed attempts of worker `w` after one more event. */
  function Counted(n: nat, e: Event, w: nat): nat {
    if !e.Act? || e.w != w then n
    else if e.action.Pop? || e.action.HealOk? then 0
    else if FailsAttempt(e.action) then n + 1
    else n
  }

  /** Failed attempts of worker `w` since it took its chunk or its link was refreshed. */
  function FailedAttempts(n: nat, es: seq<Event>, w: nat): nat
    decreases |es|
  {
    if es == [] then n else FailedAttempts(Counted(n, es[0], w), es[1..], w)
  }

  /** The worker's own counter is that count, and it has failed exactly when the count is three. */
  predicate Keeps(k: Worker, n: nat) {
    (k.HasChunk() ==> k.retries == n < 3) && (k.Failed? <==> n == 3)
  }

  lemma ActCounts(s: State, w: nat, action: Action, n: nat)
    requires w < |s.workers| && CanAct(s, w, action) && Keeps(s.workers[w], n)
    ensures Keeps(Acted(s, w, action).workers[w], Counted(n, Act(w, action), w))
  {
    hide ChunkEnd, Popped, Spilled, Finished;
  }

  lemma StepCounts(s: State, e: Event, w: nat, n: nat)
    requires Enabled(s, e) && w < |s.workers| && Keeps(s.workers[w], n)
    ensures Keeps(Next(s, e).workers[w], Counted(n, e, w))
  {
    if e.Act? {
      if e.w == w {
        ActCounts(s, w, e.action, n);
      } else {
        ActShape(s, e.w, e.action);
      }
      hide Acted, CanAct, Keeps;
    }
  }

  lemma {:induction false} RunCounts(s: State, es: seq<Event>, w: nat, n: nat)
    requires Runs(s, es) && w < |s.workers| && Keeps(s.workers[w], n)
    ensures w < |Final(s, es).workers| && Keeps(Final(s, es).workers[w], FailedAttempts(n, es, w))
    decreases |es|
  {
    hide Next, Enabled, Keeps, Counted;
    if es != [] {
      StepCounts(s, es[0], w, n);
      RunCounts(Next(s, es[0]), es[1..], w, Counted(n, es[0], w));
    }
  }

  /** In every run from the start a worker gives up if and only if its last three attempts failed, counted
      from where it took the chunk or had its link refreshed; until then it has failed less often. */
  lemma GivesUpAfterThree(job: Job, streams: nat, es: seq<Event>, w: nat)
    requires Runs(Start(job, streams), es) && w < Max(streams, 1)
    ensures var s, n := Final(Start(job, streams), es), FailedAttempts(0, es, w);
      && w < |s.workers| && n <= 3
      && (s.workers[w].Failed? <==> n == 3)
      && (s.workers[w].HasChunk() ==> s.workers[w].retries == n)
  {
    RunCounts(Start(job, streams), es, w, 0);
    CountStays(Start(job, streams), es, w, 0);
  }

  lemma {:induction false} CountStays(s: State, es: seq<Event>, w: nat, n: nat)
    requires Runs(s, es) && w < |s.workers| && Keeps(s.workers[w], n) && n <= 3
    ensures FailedAttempts(n, es, w) <= 3
    decreases |es|
  {
    if es != [] {
      StepCounts(s, es[0], w, n);
      NoFourth(s, es[0], w, n);
      hide Next, Enabled, Keeps, Counted;
      CountStays(Next(s, es[0]), es[1..], w, Counted(n, es[0], w));
    }
  }

  lemma NoFourth(s: State, e: Event, w: nat, n: nat)
    requires Enabled(s, e) && w < |s.workers| && Keeps(s.workers[w], n) && n <= 3
    ensures Counted(n, e, w) <= 3
  {}

  // ----- Why a chunk is given up -----

  /** Some worker gave up: then a chunk is lost, and only then does the session abort. */
  predicate Blames(s: State) {
    && (s.aborted ==> Failed in s.workers)
    && (Failed in s.workers ==> s.log.abandoned != [])
  }

  lemma FailureStays(s: State, w: nat, action: Action)
    requires w < |s.workers| && CanAct(s, w, action)
    ensures Failed in s.workers ==> Failed in Acted(s, w, action).workers
  {
    var t := Acted(s, w, action);
    ActShape(s, w, action);
    assert !s.workers[w].Failed?;
    hide Acted, CanAct;
    if v :| 0 <= v < |s.workers| && s.workers[v] == Failed { assert t.workers[v] == Failed; }
  }

  ghost predicate LosesChunk(s: State, t: State, w: nat) {
    && w < |t.workers| && (t.workers[w].Failed? ==> t.log.abandoned != [])
    && (s.log.abandoned != [] ==> t.log.abandoned != [])
    && t.aborted == s.aborted && t.cancelled == s.cancelled
  }

  lemma FailLosesChunk(s: State, heal: Heal, log: Log, w: nat, shrink: bool)
    requires w < |s.workers| && s.workers[w].HasChunk() && log.abandoned == s.log.abandoned
    ensures
      LosesChunk(s, FailAttempt(s.(heal := heal, log := log), w, s.workers[w].chunk, s.workers[w].retries, shrink), w)
  {}

  lemma FailureLosesChunk(s: State, w: nat, action: Action)
    requires w < |s.workers| && CanAct(s, w, action)
    ensures LosesChunk(s, Acted(s, w, action), w)
  {
    hide FailAttempt, ChunkEnd, Popped;
    match action
    case HttpFail => FailLosesChunk(s, s.heal, s.log, w, true);
    case StaleNode => FailLosesChunk(s, s.heal, s.log, w, false);
    case HealRefused => FailLosesChunk(s, Unlocked(s.heal), s.log, w, true);
    case BodyFail => FailLosesChunk(s, s.heal, Spilled(s.log, s.workers[w]), w, true);
    case _ =>
  }

  lemma StepBlames(s: State, e: Event)
    requires Blames(s) && Enabled(s, e)
    ensures Blames(Next(s, e)) && (Next(s, e).cancelled ==> s.cancelled || e == Cancel)
  {
    if e.Act? {
      var t := Acted(s, e.w, e.action);
      FailureStays(s, e.w, e.action);
      FailureLosesChunk(s, e.w, e.action);
      ActShape(s, e.w, e.action);
      hide Acted, CanAct;
      if Failed in t.workers && Failed !in s.workers { assert t.workers[e.w] == Failed; }
    }
  }

  lemma {:induction false} RunBlames(s: State, es: seq<Event>)
    requires Blames(s) && Runs(s, es)
    ensures Blames(Final(s, es)) && (Final(s, es).cancelled ==> s.cancelled || Cancel in es)
    decreases |es|
  {
    if es != [] {
      StepBlames(s, es[0]);
      hide Blames, Next, Enabled;
      RunBlames(Next(s, es[0]), es[1..]);
    }
  }

  /** A session that is not cancelled gives up a chunk if and only if some worker failed at three attempts
      in a row: no other trouble, and no other worker's, ends in lost work. */
  lemma ChunksAreLostToThreeFailures(job: Job, streams: nat, es: seq<Event>)
    requires IsJob(job) && Runs(Start(job, streams), es) && Cancel !in es
    ensures Final(Start(job, streams), es).log.abandoned != [] <==>
      exists w: nat :: w < Max(streams, 1) && FailedAttempts(0, es, w) == 3
  {
    var s0, s := Start(job, streams), Final(Start(job, streams), es);
    StartInv(job, streams);
    RunInv(s0, es);
    RunBlames(s0, es);
    forall w: nat | w < Max(streams, 1)
      ensures w < |s.workers| && (s.workers[w] == Failed <==> FailedAttempts(0, es, w) == 3)
    {
      GivesUpAfterThree(job, streams, es, w);
    }
    SameWorkers(s0, es);
    assert NothingDropped(s);
    hide Runs, Final, FailedAttempts, WellFormed, Conserved, Ledger, SomeoneLeft;
    if Failed in s.workers {
      var w: nat :| w < |s.workers| && s.workers[w] == Failed;
      assert FailedAttempts(0, es, w) == 3;
    }
  }

  lemma {:induction false} SameWorkers(s: State, es: seq<Event>)
    requires Runs(s, es)
    ensures |Final(s, es).workers| == |s.workers|
    decreases |es|
  {
    hide Next, Enabled;
    if es != [] { SameWorkers(Next(s, es[0]), es[1..]); }
  }
}
