/** The priority repair queue, its one-permit wake-up, and the engine loop that drains it. */
module RepairQueue {
  import opened Lists
  import opened Torrents
  import opened Detect

  // ----- The queue -----

  function Without(q: seq<Key>, key: Key): (r: seq<Key>)
    ensures key !in r && forall k | k in r :: k in q
  {
    if q == [] then [] else if q[0] == key then Without(q[1..], key) else [q[0]] + Without(q[1..], key)
  }

  lemma {:induction false} FrontedHasNoRepeats(q: seq<Key>, key: Key)
    requires NoRepeats(q)
    ensures NoRepeats([key] + Without(q, key))
  {
    if q != [] {
      FrontedHasNoRepeats(q[1..], key);
      var rest := Without(q[1..], key);
      assert forall i | 0 <= i < |rest| :: rest[i] == ([key] + rest)[i + 1];
      assert forall k | k in rest :: k in q[1..];
      assert NoRepeats(rest);
      assert q[0] !in q[1..];
    }
  }

  lemma {:induction false} WithoutKeepsOthers(q: seq<Key>, key: Key, k: Key)
    requires k in q && k != key
    ensures k in Without(q, key)
  {
    if k != q[0] { WithoutKeepsOthers(q[1..], key, k); }
  }

  lemma {:induction false} WithoutIsWithin(q: seq<Key>, key: Key, k: Key)
    requires k in Without(q, key)
    ensures k in q
  {
    if k != q[0] { WithoutIsWithin(q[1..], key, k); }
  }

  /** In a queue without repeats, taking out the one place where a key stands takes out the key. */
  lemma {:induction false} WithoutIsRemove(q: seq<Key>, pos: nat)
    requires pos < |q| && NoRepeats(q)
    ensures Without(q, q[pos]) == q[..pos] + q[pos + 1..]
  {
    if pos == 0 {
      WithoutAbsent(q[1..], q[0]);
    } else {
      assert q[1..][pos - 1] == q[pos];
      WithoutIsRemove(q[1..], pos - 1);
      assert [q[0]] + (q[1..][..pos - 1] + q[1..][pos..]) == q[..pos] + q[pos + 1..];
    }
  }

  lemma {:induction false} WithoutAbsent(q: seq<Key>, key: Key)
    requires key !in q
    ensures Without(q, key) == q
  {
    if q != [] { WithoutAbsent(q[1..], key); }
  }

  /** What enqueue-all takes up: everything, or what the periodic scan would. */
  function TakenUp(torrents: map<Key, ManagedTorrent>, all: bool): Key -> bool {
    key => all || (key in torrents && PeriodicEligible(torrents[key]))
  }

  lemma OneMoreKey(q: seq<Key>, keys: seq<Key>, key: Key, p: Key -> bool)
    ensures PushedAll(q, Filtered(keys + [key], p))
         == if p(key) then Pushed(PushedAll(q, Filtered(keys, p)), key) else PushedAll(q, Filtered(keys, p))
  {
    assert (keys + [key])[..|keys|] == keys;
    var before := Filtered(keys, p);
    assert (before + [key])[..|before|] == before;
    assert !p(key) ==> before + [] == before;
  }

  /** The key moves to the front, wherever it was. */
  function Fronted(q: seq<Key>, key: Key): seq<Key> { [key] + Without(q, key) }

  class PriorityQueue {
    var queue: seq<Key>
    var permit: bool

    constructor ()
      ensures queue == [] && !permit
    {
      queue, permit := [], false;
    }

    method EnqueueRepair(key: Key)
      modifies this
      ensures queue == Pushed(old(queue), key) && permit
    {
      if key !in queue { queue := queue + [key]; }
      permit := true;
    }

    method EnqueueRepairFront(key: Key)
      requires NoRepeats(queue)
      modifies this
      ensures queue == Fronted(old(queue), key) && queue[0] == key && permit && NoRepeats(queue)
    {
      var pos := 0;
      while pos < |queue| && queue[pos] != key
        invariant 0 <= pos <= |queue|
        invariant key !in queue[..pos]
        invariant queue == old(queue)
      {
        pos := pos + 1;
      }
      if pos < |queue| {
        WithoutIsRemove(queue, pos);
        queue := queue[..pos] + queue[pos + 1..];
      } else {
        assert queue[..pos] == queue;
        WithoutAbsent(queue, key);
      }
      FrontedHasNoRepeats(old(queue), key);
      queue := [key] + queue;
      permit := true;
    }

    /** `keys` is the registry's key set in iteration order. */
    method EnqueueRepairAll(keys: seq<Key>, torrents: map<Key, ManagedTorrent>, all: bool)
      modifies this
      ensures queue == PushedAll(old(queue), Filtered(keys, TakenUp(torrents, all))) && permit
      ensures forall k :: k in queue <==>
        k in old(queue) || (k in keys && (all || (k in torrents && PeriodicEligible(torrents[k]))))
    {
      for i := 0 to |keys|
        invariant queue == PushedAll(old(queue), Filtered(keys[..i], TakenUp(torrents, all)))
      {
        OneMoreKey(old(queue), keys[..i], keys[i], TakenUp(torrents, all));
        assert keys[..i + 1] == keys[..i] + [keys[i]];
        hide PeriodicEligible, Filtered, PushedAll;
        var wanted := all;
        if !all && keys[i] in torrents { wanted := PeriodicRepairEligible(torrents[keys[i]]); }
        if wanted && keys[i] !in queue { queue := queue + [keys[i]]; }
      }
      assert keys[..|keys|] == keys;
      PushedAllIsUnion(old(queue), Filtered(keys, TakenUp(torrents, all)));
      hide PeriodicEligible, PushedAll;
      permit := true;
    }

    /** A session empties the queue, front first. */
    method Drain() returns (keys: seq<Key>)
      modifies this`queue
      ensures keys == old(queue) && queue == []
    {
      keys := [];
      while queue != []
        invariant keys + queue == old(queue)
        decreases |queue|
      {
        keys := keys + [queue[0]];
        queue := queue[1..];
      }
    }
  }

  // ----- The protocol -----

  /** Where the engine task stands. */
  datatype Engine =
    | Starting
    | Waiting                                    // the outer wait: shutdown, a permit, or a tick
    | Throttled                                  // a tick came too early: shutdown, a permit, or time
    | Began(periodic: bool)                      // a session is about to read the configuration
    | Draining(keys: seq<Key>, periodic: bool)
    | Repairing(todo: set<Key>)
    | Stopped

  /** `owed` counts tasks that have put keys in the queue and have yet to notify. `pledged` is history:
      keys enqueued and not repaired since. `dropped` are keys a session gave up at shutdown. */
  datatype State = State(
    queue: seq<Key>,
    permit: bool,
    owed: nat,
    engine: Engine,
    enabled: bool,
    shutdown: bool,
    pledged: set<Key>,
    dropped: set<Key>)

  datatype Event =
    | Enqueue(key: Key)
    | EnqueueFront(key: Key)
    | EnqueueMany(keys: seq<Key>)
    | Notify
    | Resume(keys: seq<Key>)       // torrents found under repair at startup
    | Wake
    | Tick(early: bool)
    | ThrottleOver
    | Begin
    | PopKey
    | Collected(extra: seq<Key>)   // the queue is empty; a periodic session adds what it found
    | Repair(key: Key)
    | EndSession
    | GiveUp
    | Toggle(on: bool)
    | Shutdown
    | Stop

  predicate Enabled(s: State, e: Event) {
    match e
    case Notify => s.owed > 0
    case Resume(_) => s.engine.Starting?
    case Wake => (s.engine.Waiting? || s.engine.Throttled?) && s.permit && !s.shutdown
    case Tick(_) => s.engine.Waiting? && s.enabled && !s.shutdown
    case ThrottleOver => s.engine.Throttled? && !s.shutdown
    case Begin => s.engine.Began?
    case PopKey => s.engine.Draining? && s.queue != []
    case Collected(extra) => s.engine.Draining? && s.queue == [] && (extra != [] ==> s.engine.periodic)
    case Repair(key) => s.engine.Repairing? && key in s.engine.todo && !s.shutdown
    case EndSession => s.engine.Repairing? && s.engine.todo == {}
    case GiveUp => s.engine.Repairing? && s.shutdown
    case Stop => (s.engine.Waiting? || s.engine.Throttled?) && s.shutdown
    case _ => true
  }

  function ToSet(keys: seq<Key>): set<Key> { set k | k in keys }

  function Next(s: State, e: Event): State
    requires Enabled(s, e)
  {
    match e
    case Enqueue(key) => s.(queue := Pushed(s.queue, key), owed := s.owed + 1, pledged := s.pledged + {key})
    case EnqueueFront(key) =>
      s.(queue := Fronted(s.queue, key), owed := s.owed + 1, pledged := s.pledged + {key})
    case EnqueueMany(keys) =>
      s.(queue := PushedAll(s.queue, keys), owed := s.owed + 1, pledged := s.pledged + ToSet(keys))
    case Notify => s.(owed := s.owed - 1, permit := true)
    case Resume(keys) =>
      s.(queue := PushedAll(s.queue, keys), permit := s.permit || keys != [], engine := Waiting,
      pledged := s.pledged + ToSet(keys))
    case Wake => s.(permit := false, engine := Began(false))
    case Tick(early) => s.(engine := if early then Throttled else Began(true))
    case ThrottleOver => s.(engine := Began(true))
    case Begin => s.(engine := if s.enabled then Draining([], s.engine.periodic) else Waiting)
    case PopKey => s.(queue := s.queue[1..], engine := Draining(s.engine.keys + [s.queue[0]], s.engine.periodic))
    case Collected(extra) => s.(engine := Repairing(ToSet(s.engine.keys + extra)))
    case Repair(key) => s.(engine := Repairing(s.engine.todo - {key}), pledged := s.pledged - {key})
    case EndSession => s.(engine := Waiting)
    case GiveUp => s.(engine := Waiting, dropped := s.dropped + s.engine.todo)
    case Toggle(on) => s.(enabled := on)
    case Shutdown => s.(shutdown := true)
    case Stop => s.(engine := Stopped)
  }

  /** Keys in a session's hands. */
  function InHand(e: Engine): set<Key> {
    match e
    case Draining(keys, _) => ToSet(keys)
    case Repairing(todo) => todo
    case _ => {}
  }

  /** No key is queued twice, and every pledged key is queued or in hand, unless it was dropped at
      shutdown. */
  ghost predicate Inv(s: State) {
    && NoRepeats(s.queue)
    && (forall k | k in s.pledged :: k in s.queue || k in InHand(s.engine) || k in s.dropped)
    && (!s.shutdown ==> s.dropped == {} && !s.engine.Stopped?)
  }

  /** A queued key will be found without waiting for the periodic tick: a permit is stored, someone is
      about to notify, or a session is on its way to the queue. */
  predicate Pending(s: State) {
    s.queue != [] ==> s.permit || s.owed > 0 || s.engine.Began? || s.engine.Draining?
  }

  /** The one step that breaks this: a session that finds repair switched off goes back to waiting
      with its permit spent. */
  predicate Squanders(s: State, e: Event) {
    e.Begin? && !s.enabled && s.queue != [] && !s.permit && s.owed == 0
  }

  lemma StepInv(s: State, e: Event)
    requires Inv(s) && Enabled(s, e)
    ensures Inv(Next(s, e))
  {
    match e
    case EnqueueFront(key) =>
      FrontedHasNoRepeats(s.queue, key);
      forall k | k in s.queue && k != key ensures k in Without(s.queue, key) { WithoutKeepsOthers(s.queue, key, k); }
    case EnqueueMany(keys) => PushedAllIsUnion(s.queue, keys);
    case Resume(keys) => PushedAllIsUnion(s.queue, keys);
    case PopKey => assert s.queue == [s.queue[0]] + s.queue[1..];
    case _ =>
  }

  /** No lost wake-up, exactly: of all steps only that one loses the wake-up for a queued key. */
  lemma StepPending(s: State, e: Event)
    requires Pending(s) && Enabled(s, e)
    ensures Pending(Next(s, e)) <==> !Squanders(s, e)
  {}

  predicate Runs(s: State, es: seq<Event>)
    decreases |es|
  {
    es == [] || (Enabled(s, es[0]) && Runs(Next(s, es[0]), es[1..]))
  }

  function Final(s: State, es: seq<Event>): State
    requires Runs(s, es)
    decreases |es|
  {
    if es == [] then s else Final(Next(s, es[0]), es[1..])
  }

  function Start(enabled: bool): State { State([], false, 0, Starting, enabled, false, {}, {}) }

  lemma {:induction false} RunInv(s: State, es: seq<Event>)
    requires Inv(s) && Runs(s, es)
    ensures Inv(Final(s, es))
    ensures s.enabled && Pending(s) && (forall e | e in es :: e != Toggle(false)) ==>
      Pending(Final(s, es)) && Final(s, es).enabled
    decreases |es|
  {
    if es != [] {
      hide Inv, Pending;
      StepInv(s, es[0]);
      if Pending(s) { StepPending(s, es[0]); }
      assert es[0] in es && forall e | e in es[1..] :: e in es;
      RunInv(Next(s, es[0]), es[1..]);
    }
  }

  /** In every run the queue holds no key twice, and no key that was enqueued and not repaired since
      is lost before shutdown. While repair stays enabled, a nonempty queue is always pending. */
  lemma QueueIsSafe(enabled: bool, es: seq<Event>)
    requires Runs(Start(enabled), es)
    ensures var s := Final(Start(enabled), es);
      && NoRepeats(s.queue)
      && (!s.shutdown ==> s.pledged <= ToSet(s.queue) + InHand(s.engine))
      && (enabled && (forall e | e in es :: e != Toggle(false)) ==> Pending(s))
  {
    RunInv(Start(enabled), es);
  }

  /** Keys a run puts in the queue. */
  function Requested(e: Event): set<Key> {
    match e
    case Enqueue(key) => {key}
    case EnqueueFront(key) => {key}
    case EnqueueMany(keys) => ToSet(keys)
    case Resume(keys) => ToSet(keys)
    case _ => {}
  }

  ghost predicate AskedIn(es: seq<Event>, key: Key) { exists e | e in es :: key in Requested(e) }

  predicate IsTimer(e: Event) { e.Tick? || e.ThrottleOver? }

  predicate IsPeriodic(e: Engine) { (e.Began? || e.Draining?) && e.periodic }

  /** Every key in the queue or in hand is in `asked`, and no session looks for more. */
  ghost predicate OnlyAsked(s: State, asked: set<Key>) {
    !IsPeriodic(s.engine) && (forall k | k in s.queue || k in InHand(s.engine) :: k in asked)
  }

  lemma StepOnlyAsked(s: State, e: Event, asked: set<Key>)
    requires OnlyAsked(s, asked) && Enabled(s, e) && !IsTimer(e)
    ensures OnlyAsked(Next(s, e), asked + Requested(e))
  {
    match e
    case EnqueueFront(key) =>
      forall k | k in Without(s.queue, key) ensures k in s.queue { WithoutIsWithin(s.queue, key, k); }
    case EnqueueMany(keys) => PushedAllIsUnion(s.queue, keys);
    case Resume(keys) => PushedAllIsUnion(s.queue, keys);
    case _ =>
  }

  lemma {:induction false} RunOnlyAsked(s: State, es: seq<Event>, asked: set<Key>) returns (all: set<Key>)
    requires OnlyAsked(s, asked) && Runs(s, es) && forall e | e in es :: !IsTimer(e)
    ensures OnlyAsked(Final(s, es), all) && forall k | k in all :: k in asked || AskedIn(es, k)
    decreases |es|
  {
    all := asked;
    if es != [] {
      assert es[0] in es && forall e | e in es[1..] :: e in es;
      StepOnlyAsked(s, es[0], asked);
      hide OnlyAsked, Next, Enabled;
      all := RunOnlyAsked(Next(s, es[0]), es[1..], asked + Requested(es[0]));
    }
  }

  /** A session woken by a permit looks for no work of its own: as long as no timer fires, every key in a
      session's hands was put in the queue by someone. */
  lemma WokenSessionsRepairWhatWasAsked(enabled: bool, es: seq<Event>, key: Key)
    requires Runs(Start(enabled), es) && forall e | e in es :: !IsTimer(e)
    requires key in InHand(Final(Start(enabled), es).engine)
    ensures AskedIn(es, key)
  {
    var all := RunOnlyAsked(Start(enabled), es, {});
  }

  /** A move of the engine, or of a thread that owes a notification. */
  predicate EngineMove(e: Event) {
    || e.Resume? || e.Wake? || e.Notify? || e.Tick? || e.ThrottleOver?
    || e.Begin? || e.PopKey? || e.Collected? || e.Repair? || e.EndSession?
  }

  /** The permit is spent: of the engine's own moves only the periodic tick is left to find the keys. */
  ghost predicate LeftToTheTick(s: State) {
    && s.queue != [] && s.enabled && !s.shutdown && !Pending(s)
    && (forall e | EngineMove(e) && Enabled(s, e) :: e.Tick?)
    && (forall early :: Enabled(s, Tick(early)))
  }

  lemma SpentPermit(s: State)
    requires s.queue != [] && s.engine == Waiting && s.enabled && !s.shutdown && !s.permit && s.owed == 0
    ensures LeftToTheTick(s)
  {}

  const SWITCHED_OFF := [Toggle(false), Notify, Wake, Begin, Toggle(true)]

  /** Switched off and on again at the wrong time, the engine sits on a queued key with its permit
      spent, in a run from the start. */
  lemma SwitchedOffLosesWakeUp(key: Key)
    ensures var es := [Resume([]), Enqueue(key)] + SWITCHED_OFF;
      Runs(Start(true), es) && LeftToTheTick(Final(Start(true), es))
  {
    var s1 := Next(Start(true), Resume([]));
    var s2 := Next(s1, Enqueue(key));
    assert s2 == State([key], false, 1, Waiting, true, false, {key}, {});
    SwitchOff(s2);
    var es := [Resume([]), Enqueue(key)] + SWITCHED_OFF;
    hide Next, Enabled, LeftToTheTick;
    assert es[1..] == [Enqueue(key)] + SWITCHED_OFF && es[1..][1..] == SWITCHED_OFF;
    assert Runs(s1, es[1..]) && Final(s1, es[1..]) == Final(s2, SWITCHED_OFF);
  }

  lemma SwitchOff(s: State)
    requires s.queue != [] && s.engine == Waiting && !s.permit && s.owed == 1 && !s.shutdown
    ensures Runs(s, SWITCHED_OFF) && LeftToTheTick(Final(s, SWITCHED_OFF))
  {
    var s1 := Next(s, Toggle(false));
    var s2 := Next(s1, Notify);
    var s3 := Next(s2, Wake);
    var s4 := Next(s3, Begin);
    var s5 := Next(s4, Toggle(true));
    SpentPermit(s5);
    var es := SWITCHED_OFF;
    hide LeftToTheTick;
    assert Runs(s4, es[4..]) && Runs(s3, es[3..]) && Runs(s2, es[2..]) && Runs(s1, es[1..]);
    assert Final(s4, es[4..]) == s5 && Final(s2, es[2..]) == s5;
  }

  // ----- Progress -----

  /** How far the engine is from having emptied the queue. */
  function Phase(s: State): nat {
    match s.engine
    case Starting => 8
    case Repairing(_) => if s.queue == [] then 1 else 7
    case Waiting => if s.queue == [] then 0 else if s.permit then 4 else 6
    case Throttled => if s.queue == [] then 0 else if s.permit then 4 else 5
    case Began(_) => 3
    case Draining(_, _) => 2
    case Stopped => 0
  }

  function Todo(s: State): nat { if s.engine.Repairing? then |s.engine.todo| else 0 }

  /** At rest, with nothing queued. */
  predicate Idle(s: State) { s.queue == [] && (s.engine.Waiting? || s.engine.Throttled?) }

  /** The next move; `early` says whether a tick finds the last scan too recent. */
  ghost function Move(s: State, early: bool): (e: Event)
    requires s.enabled && !s.engine.Stopped? && !Idle(s) && !s.shutdown
    ensures Enabled(s, e)
  {
    match s.engine
    case Starting => Resume([])
    case Repairing(todo) => if todo == {} then EndSession else var k :| k in todo; Repair(k)
    case Waiting => if s.permit then Wake else if s.owed > 0 then Notify else Tick(early)
    case Throttled => if s.permit then Wake else if s.owed > 0 then Notify else ThrottleOver
    case Began(_) => Begin
    case Draining(_, _) => if s.queue == [] then Collected([]) else PopKey
  }

  lemma MoveGetsCloser(s: State, early: bool)
    requires s.enabled && !s.engine.Stopped? && !Idle(s) && !s.shutdown
    ensures var t := Next(s, Move(s, early));
      && t.enabled && !t.shutdown && !t.engine.Stopped?
      && |t.queue| <= |s.queue|
      && (|t.queue| < |s.queue| || Phase(t) < Phase(s) || (Phase(t) == Phase(s) && Todo(t) < Todo(s)))
  {}

  /** Progress: from any state that keeps the invariant, with repair enabled, moves of the engine and of
      threads that owe a notification lead to an idle engine, an empty queue, and every pledged key
      repaired, whether ticks come early or not. */
  lemma {:induction false} CatchesUp(s: State, early: bool) returns (es: seq<Event>)
    requires Inv(s) && s.enabled && !s.shutdown
    ensures Runs(s, es) && (forall e | e in es :: EngineMove(e) && (e.Tick? ==> e.early == early))
    ensures Idle(Final(s, es)) && Final(s, es).pledged == {}
    decreases |s.queue|, Phase(s), Todo(s)
  {
    if Idle(s) {
      es := [];
    } else {
      var e := Move(s, early);
      MoveGetsCloser(s, early);
      StepInv(s, e);
      assert EngineMove(e) && (e.Tick? ==> e.early == early);
      hide Inv, Phase, Todo, Next, Enabled, Idle, EngineMove, Move;
      var rest := CatchesUp(Next(s, e), early);
      es := [e] + rest;
      assert es[1..] == rest;
    }
  }

  /** So every run can be completed: wherever it has come to, as long as repair is enabled and shutdown
      has not begun, every key that was ever enqueued can still be repaired, with no new request. */
  lemma EveryRunCatchesUp(enabled: bool, es: seq<Event>, early: bool) returns (more: seq<Event>)
    requires Runs(Start(enabled), es)
    requires Final(Start(enabled), es).enabled && !Final(Start(enabled), es).shutdown
    ensures var s := Final(Start(enabled), es);
      && Runs(s, more) && (forall e | e in more :: EngineMove(e) && (e.Tick? ==> e.early == early))
      && Idle(Final(s, more)) && Final(s, more).pledged == {}
  {
    RunInv(Start(enabled), es);
    more := CatchesUp(Final(Start(enabled), es), early);
  }
}
