/** The DNS probe for CDN hosts: numbered hosts are probed up to a ceiling that every reachable host
    pushes further, by compare-and-swap from many tasks at once. */
module Probe {
  const INITIAL_CEILING := 100
  const EXTENSION := 30

  /** One spawned task. `Raising(seen)` is the compare-and-swap loop with the ceiling it last read. */
  datatype Task = Probing | Raising(seen: nat) | Finished

  datatype Main = Loading | Spawning(upTo: nat) | Joining | Over

  /** `tasks[i]` probes host `i + 1`. */
  datatype State = State(ceiling: nat, tasks: seq<Task>, main: Main)

  datatype Event =
    | Load                // the outer loop reads the ceiling
    | Spawn
    | Join                // the inner loop is done
    | Check               // every task is joined
    | Answer(i: nat)      // a probe ends; a reachable host reads the ceiling
    | Swap(i: nat)        // one compare-and-swap attempt

  const START := State(INITIAL_CEILING, [], Loading)

  predicate Enabled(s: State, e: Event) {
    match e
    case Load => s.main.Loading?
    case Spawn => s.main.Spawning? && |s.tasks| < s.main.upTo
    case Join => s.main.Spawning? && |s.tasks| >= s.main.upTo
    case Check => s.main.Joining? && forall t | t in s.tasks :: t.Finished?
    case Answer(i) => i < |s.tasks| && s.tasks[i].Probing?
    case Swap(i) => i < |s.tasks| && s.tasks[i].Raising?
  }

  function Put(s: State, i: nat, t: Task): State
    requires i < |s.tasks|
  {
    s.(tasks := s.tasks[i := t])
  }

  /** `reachable` says which hosts answer. */
  function Next(s: State, reachable: nat -> bool, e: Event): State
    requires Enabled(s, e)
  {
    match e
    case Load => s.(main := Spawning(s.ceiling))
    case Spawn => s.(tasks := s.tasks + [Probing])
    case Join => s.(main := Joining)
    case Check => s.(main := if s.ceiling <= |s.tasks| then Over else Loading)
    case Answer(i) => Put(s, i, if reachable(i + 1) then Raising(s.ceiling) else Finished)
    case Swap(i) =>
      var raised := i + 1 + EXTENSION;
      if raised <= s.tasks[i].seen then Put(s, i, Finished)
      else if s.ceiling == s.tasks[i].seen then Put(s, i, Finished).(ceiling := raised)
      else Put(s, i, Raising(s.ceiling))
  }

  /** A bound that needs no more probing: large enough, and each reachable host below it leaves room. */
  predicate Closed(reachable: nat -> bool, n: nat) {
    n >= INITIAL_CEILING && forall k: nat | 1 <= k <= n && reachable(k) :: k + EXTENSION <= n
  }

  ghost predicate Inv(s: State, reachable: nat -> bool) {
    && INITIAL_CEILING <= s.ceiling && |s.tasks| <= s.ceiling
    && (s.main.Spawning? ==> |s.tasks| <= s.main.upTo <= s.ceiling)
    && (s.main.Loading? ==> |s.tasks| < s.ceiling)
    && (s.main.Over? ==> |s.tasks| == s.ceiling && forall t | t in s.tasks :: t.Finished?)
    && (forall i | 0 <= i < |s.tasks| :: TaskOk(s, reachable, i))
    && (forall n | Closed(reachable, n) :: s.ceiling <= n)
  }

  predicate TaskOk(s: State, reachable: nat -> bool, i: nat)
    requires i < |s.tasks|
  {
    match s.tasks[i]
    case Probing => true
    case Raising(seen) => seen <= s.ceiling && reachable(i + 1)
    case Finished => reachable(i + 1) ==> i + 1 + EXTENSION <= s.ceiling
  }

  lemma StepInv(s: State, reachable: nat -> bool, e: Event)
    requires Inv(s, reachable) && Enabled(s, e)
    ensures Inv(Next(s, reachable, e), reachable)
  {
    var t := Next(s, reachable, e);
    forall i | 0 <= i < |t.tasks| ensures TaskOk(t, reachable, i) {
      if i < |s.tasks| { assert TaskOk(s, reachable, i); }
    }
    if e.Answer? || e.Swap? { assert s.tasks[e.i] in s.tasks; }
    if e.Swap? {
      assert TaskOk(s, reachable, e.i);
      forall n | Closed(reachable, n) ensures t.ceiling <= n {
        assert 1 <= e.i + 1 <= n;
      }
    } else {
      hide Closed;
    }
  }

  predicate Runs(s: State, reachable: nat -> bool, es: seq<Event>)
    decreases |es|
  {
    es == [] || (Enabled(s, es[0]) && Runs(Next(s, reachable, es[0]), reachable, es[1..]))
  }

  function Final(s: State, reachable: nat -> bool, es: seq<Event>): State
    requires Runs(s, reachable, es)
    decreases |es|
  {
    if es == [] then s else Final(Next(s, reachable, es[0]), reachable, es[1..])
  }

  lemma {:induction false} RunInv(s: State, reachable: nat -> bool, es: seq<Event>)
    requires Inv(s, reachable) && Runs(s, reachable, es)
    ensures Inv(Final(s, reachable, es), reachable)
    decreases |es|
  {
    hide Inv, Next, Enabled;
    if es != [] {
      StepInv(s, reachable, es[0]);
      RunInv(Next(s, reachable, es[0]), reachable, es[1..]);
    }
  }

  /** However the tasks interleave, a probe that is over has probed exactly the hosts 1 to N, where N
      is the least closed bound. */
  lemma ProbesTheLeastClosedBound(reachable: nat -> bool, es: seq<Event>)
    requires Runs(START, reachable, es) && Final(START, reachable, es).main.Over?
    ensures var n := |Final(START, reachable, es).tasks|;
      Closed(reachable, n) && forall m | Closed(reachable, m) :: n <= m
  {
    RunInv(START, reachable, es);
    var s := Final(START, reachable, es);
    forall k: nat | 1 <= k <= |s.tasks| && reachable(k) ensures k + EXTENSION <= |s.tasks| {
      assert s.tasks[k - 1] in s.tasks && TaskOk(s, reachable, k - 1);
    }
  }

  // ----- Termination -----

  /** With no reachable host beyond `last`, this bound is closed. */
  function Top(last: nat): nat { if last + EXTENSION < INITIAL_CEILING then INITIAL_CEILING else last + EXTENSION }

  function Weight(t: Task, ceiling: nat): nat {
    match t
    case Probing => 3
    case Raising(seen) => if seen == ceiling then 1 else 2
    case Finished => 0
  }

  function Weights(tasks: seq<Task>, ceiling: nat): nat {
    if tasks == [] then 0 else Weight(tasks[0], ceiling) + Weights(tasks[1..], ceiling)
  }

  lemma {:induction false} WeightsUpdate(tasks: seq<Task>, i: nat, t: Task, ceiling: nat)
    requires i < |tasks|
    ensures Weights(tasks[i := t], ceiling) + Weight(tasks[i], ceiling) == Weights(tasks, ceiling) + Weight(t, ceiling)
  {
    if i == 0 {
      assert tasks[i := t][1..] == tasks[1..];
    } else {
      assert tasks[i := t][1..] == tasks[1..][i - 1 := t];
      WeightsUpdate(tasks[1..], i - 1, t, ceiling);
    }
  }

  function Phase(s: State): nat {
    match s.main
    case Spawning(upTo) => if |s.tasks| < upTo then 1 else 4
    case Joining => 3
    case Loading => 2
    case Over => 0
  }

  /** Every step lowers the room above the ceiling, the hosts not yet probed, the work of the tasks,
      or the phase of the main loop, the first of these that it changes at all. */
  predicate Closer(s: State, t: State, top: nat) {
    || top - t.ceiling < top - s.ceiling
    || (t.ceiling == s.ceiling && |t.tasks| > |s.tasks|)
    || (t.ceiling == s.ceiling && |t.tasks| == |s.tasks| && Weights(t.tasks, t.ceiling) < Weights(s.tasks, s.ceiling))
    || (t.ceiling == s.ceiling && t.tasks == s.tasks && Phase(t) < Phase(s))
  }

  lemma StepCloser(s: State, reachable: nat -> bool, e: Event, top: nat)
    requires Inv(s, reachable) && Enabled(s, e) && Closed(reachable, top)
    ensures Closer(s, Next(s, reachable, e), top) && Next(s, reachable, e).ceiling <= top
  {
    StepInv(s, reachable, e);
    var t := Next(s, reachable, e);
    hide Closed;
    match e
    case Answer(i) => WeightsUpdate(s.tasks, i, t.tasks[i], s.ceiling);
    case Swap(i) =>
      assert TaskOk(s, reachable, i);
      WeightsUpdate(s.tasks, i, t.tasks[i], s.ceiling);
    case _ =>
  }

  ghost predicate Step(s: State, reachable: nat -> bool, t: State) {
    exists e :: Enabled(s, e) && t == Next(s, reachable, e)
  }

  lemma {:induction false} Descend(states: nat -> State, reachable: nat -> bool, top: nat, i: nat)
    requires Closed(reachable, top) && Inv(states(i), reachable)
    requires forall j: nat :: Step(states(j), reachable, states(j + 1))
    ensures false
    decreases top - states(i).ceiling, top - |states(i).tasks|,
      Weights(states(i).tasks, states(i).ceiling), Phase(states(i))
  {
    assert Step(states(i), reachable, states(i + 1));
    var e :| Enabled(states(i), e) && states(i + 1) == Next(states(i), reachable, e);
    StepInv(states(i), reachable, e);
    StepCloser(states(i), reachable, e, top);
    assert states(i).ceiling <= top && states(i + 1).ceiling <= top;
    hide Closed, Step, Weights, Phase, Enabled, Next;
    Descend(states, reachable, top, i + 1);
  }

  /** Finitely many reachable hosts end every probe: no infinite sequence of states follows the steps. */
  lemma ProbeEnds(states: nat -> State, reachable: nat -> bool, last: nat)
    requires states(0) == START && forall k: nat | reachable(k) :: k <= last
    ensures exists j: nat :: !Step(states(j), reachable, states(j + 1))
  {
    assert Closed(reachable, Top(last));
    if forall j: nat :: Step(states(j), reachable, states(j + 1)) {
      Descend(states, reachable, Top(last), 0);
    }
  }

  /** Until it is over, some step is possible. */
  lemma NeverStuck(s: State, reachable: nat -> bool)
    requires Inv(s, reachable) && !s.main.Over?
    ensures exists e :: Enabled(s, e)
  {
    match s.main
    case Loading => assert Enabled(s, Load);
    case Spawning(upTo) => assert Enabled(s, if |s.tasks| < upTo then Spawn else Join);
    case Joining =>
      if i :| 0 <= i < |s.tasks| && !s.tasks[i].Finished? {
        assert Enabled(s, if s.tasks[i].Probing? then Answer(i) else Swap(i));
      } else {
        assert Enabled(s, Check);
      }
  }
}
