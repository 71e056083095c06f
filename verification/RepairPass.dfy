/** One repair pass over one torrent: lock, preflight, cascade, and the state it leaves behind. */
module RepairPass {
  import opened Wrappers
  import opened Torrents
  import opened Registry
  import opened RegistryRuns
  import opened RdErrors
  import C = Cascade

  datatype JobStatus = Running | Done | JobFailed

  /** What the preflight finds: its network checks are an oracle, its effect on the copy is not. */
  datatype Finding =
    | Limited
    | Verified(links: seq<string>, states: map<string, string>)
    | Unsure(links: seq<string>, states: map<string, string>)

  datatype PreflightOutcome = Proceed(mt: ManagedTorrent) | VerifiedOk(mt: ManagedTorrent) | DeferBandwidth

  /** Without detail there is nothing to check. Otherwise links and file states are rewritten. */
  function Preflight(mt: ManagedTorrent, f: Finding): PreflightOutcome {
    if mt.info.None? then Proceed(mt)
    else
      match f
      case Limited => DeferBandwidth
      case Verified(links, states) => VerifiedOk(Rewritten(mt, links, states))
      case Unsure(links, states) => Proceed(Rewritten(mt, links, states))
  }

  function Rewritten(mt: ManagedTorrent, links: seq<string>, states: map<string, string>): ManagedTorrent
    requires mt.info.Some?
  {
    mt.(info := Some(mt.info.value.(links := links)), fileStates := Some(states))
  }

  /** Everything outside the registry: clocks, replies, database health, configuration.
      `fetched(k)` answers the pass's k-th detail call, `dbOk(k)` is the fate of its k-th write to the
      torrents table; the time limit of the cascade may fall while its reply number `cutOff` is awaited. */
  datatype Surroundings = Surroundings(
    now: int,
    later: int,
    timeoutMins: int,
    fetched: nat -> Option<TorrentInfo>,
    capacity: bool,
    finding: Finding,
    cutOff: Option<nat>,
    service: C.Service,
    cfg: C.RepairConfig,
    dbOk: nat -> bool,
    jobInserted: bool,
    jobUpdated: bool)

  datatype PassResult =
    | NotFound
    | SkippedUnrepairable
    | ResetStuck
    | NoCapacity
    | LockFailed
    | Finished(status: JobStatus)

  /** The repair ran into its time limit and was never released. */
  predicate Stuck(mt: ManagedTorrent, now: int, timeoutMins: int) {
    && mt.state.UnderRepair? && mt.startedAt.Some?
    && now - mt.startedAt.value > (if timeoutMins < 1 then 1 else timeoutMins) * 60
  }

  /** Same entry but for detail that was loaded on the way. */
  predicate SameButInfo(a: ManagedTorrent, b: ManagedTorrent) { a.(info := None) == b.(info := None) }

  ghost predicate OthersUntouched(a: Registry, b: Registry, key: Key) {
    && a.torrents - {key} == b.torrents - {key} && a.rows - {key} == b.rows - {key}
    && (key in a.torrents <==> key in b.torrents)
  }

  ghost predicate Mirrored(r: Registry, key: Key) {
    key in r.torrents && key in r.rows && r.rows[key] == ToRow(r.torrents[key])
  }

  /** The reason stored for an outcome. */
  function ReasonOf(o: C.Outcome): Option<string> {
    match o
    case Unrepairable(reason) => Some(ReasonText(reason))
    case UnrepairableMsg(message) => Some(message)
    case _ => None
  }

  function ReasonText(r: C.UnrepairableReason): string {
    match r
    case LoneBroken => "lone_broken"
    case NoRepairableFiles => "no_repairable_files"
    case DuplicateFileIDs => "duplicate_file_ids"
    case InvalidFileIDs => "invalid_file_ids"
    case NotCached => "not cached (restricted to cached)"
  }

  // ----- A pass, as a function of the entry and its surroundings -----

  /** Detail is loaded when it is missing and an id is known. */
  function Loaded(mt: ManagedTorrent, fetched: Option<TorrentInfo>): ManagedTorrent {
    if mt.info.None? && mt.rdIds != [] && fetched.Some? then mt.(info := fetched) else mt
  }

  predicate Known(mt: ManagedTorrent) { mt.info.Some? || mt.rdIds != [] }

  /** How a locked pass went. */
  datatype Course =
    | Limited(mt: ManagedTorrent)                                       // the preflight met a bandwidth limit
    | Verified(mt: ManagedTorrent)                                      // nothing was wrong
    | TimedOut(mt: ManagedTorrent, log: seq<C.Event>)                   // the cascade was cut off
    | Ran(mt: ManagedTorrent, log: seq<C.Event>, outcome: C.Outcome)    // the cascade ran to its end
  {
    predicate Cascading() { TimedOut? || Ran? }

    /** What was asked of the service. */
    function Calls(): seq<C.Event> { if Cascading() then log else [] }
  }

  predicate IsCutOff(s: Surroundings, log: seq<C.Event>) { s.cutOff.Some? && C.AwaitedAt(log, s.cutOff.value) }

  /** The course of a pass over an entry it has locked. */
  function Taken(locked: ManagedTorrent, s: Surroundings): Course {
    var mt := Loaded(locked, s.fetched(1));
    match Preflight(mt, s.finding)
    case DeferBandwidth => Course.Limited(mt)
    case VerifiedOk(fixed) => Course.Verified(fixed)
    case Proceed(next) =>
      var (log, outcome) := C.Cascaded(s.service, next, s.cfg);
      if IsCutOff(s, log) then TimedOut(next, C.CutOff(s.service, C.Plan(next, s.cfg), log, s.cutOff.value))
      else Course.Ran(next, log, outcome)
  }

  /** What an outcome makes of the entry and its job. */
  function Recorded(mt: ManagedTorrent, o: C.Outcome, now: int): (JobStatus, ManagedTorrent) {
    match o
    case Success(ids) =>
      (Done, InState(if ids.Some? then WithIds(mt, ids.value) else mt, TorrentState.Ok, None, now))
    case _ => (JobFailed, InState(mt, Broken, ReasonOf(o), now))
  }

  function LeftBy(c: Course, now: int): (JobStatus, ManagedTorrent) {
    match c
    case Limited(mt) => (JobFailed, InState(mt, Broken, None, now))
    case Verified(mt) => (Done, InState(mt, TorrentState.Ok, None, now))
    case TimedOut(mt, _) => (JobFailed, InState(mt, Broken, None, now))
    case Ran(mt, _, o) => Recorded(mt, o, now)
  }

  /** The last write of a locked pass to the torrents table. */
  function LastWrite(c: Course): nat {
    if c.Limited? then 1 else if c.Ran? && c.outcome.Success? && c.outcome.newRdIds.Some? then 3 else 2
  }

  function Lock(mt: ManagedTorrent, s: Surroundings): ManagedTorrent {
    InState(Loaded(mt, s.fetched(0)), UnderRepair, None, s.now)
  }

  /** The pass gets as far as the lock. */
  predicate Admitted(mt: ManagedTorrent, s: Surroundings) {
    Known(mt) && mt.unrepairable.None? && !Stuck(mt, s.now, s.timeoutMins) && s.capacity
  }

  /** The pass gets past the lock. */
  predicate Entered(mt: ManagedTorrent, s: Surroundings) { Admitted(mt, s) && s.dbOk(0) }

  function Passed(mt: ManagedTorrent, s: Surroundings): (PassResult, ManagedTorrent) {
    if !Known(mt) then (NotFound, mt)
    else
      var first := Loaded(mt, s.fetched(0));
      if mt.unrepairable.Some? then (SkippedUnrepairable, first)
      else if Stuck(mt, s.now, s.timeoutMins) then (ResetStuck, InState(first, Broken, None, s.later))
      else if !s.capacity then (NoCapacity, first)
      else if !s.dbOk(0) then (LockFailed, Lock(mt, s))
      else
        var (status, left) := LeftBy(Taken(Lock(mt, s), s), s.later);
        (Finished(status), left)
  }

  // ----- What a pass leaves -----

  lemma BrokenIsEligible(mt: ManagedTorrent)
    requires mt.state.Broken? && mt.unrepairable.None?
    ensures PeriodicEligible(mt)
  {}

  /** The entry stays, or is left, under repair: its lock could not be written, or the pass turned back
      from an entry that was under repair already. */
  predicate StaysUnderRepair(mt: ManagedTorrent, s: Surroundings) {
    || (Admitted(mt, s) && !s.dbOk(0))
    || (mt.state.UnderRepair? && (!Known(mt) || (!Stuck(mt, s.now, s.timeoutMins) && !s.capacity)))
  }

  lemma EndsUnderRepair(mt: ManagedTorrent, s: Surroundings)
    requires Healthy(mt)
    ensures Passed(mt, s).1.state.UnderRepair? <==> StaysUnderRepair(mt, s)
  {
    hide Stuck, Taken;
  }

  /** The bandwidth limit was met in the preflight or in the cascade. */
  ghost predicate MetLimit(c: Course, s: Surroundings) {
    c.Limited? || (c.Cascading() && C.Audited(s.service, C.Plan(c.mt, s.cfg), c.log).limited)
  }

  /** The audit of a cascade in a pass: it agrees with the outcome, whether cut off or not. */
  lemma CascadeAudited(locked: ManagedTorrent, s: Surroundings)
    requires Taken(locked, s).Cascading()
    ensures var c := Taken(locked, s);
      var a := C.Audited(s.service, C.Plan(c.mt, s.cfg), c.log);
      && a.orderly && a.held == None && C.Created(c.log) == C.Released(c.log)
      && (c.TimedOut? ==> a.adopted == [] && !a.limited)
      && (c.Ran? ==> C.Agrees(c.outcome, a, s.cfg.restrictToCached))
      && (c.Ran? && C.Hopeless(c.mt).None? ==> C.Faithful(c.outcome, a, c.mt, s.cfg))
  {
    hide C.Agrees, C.Faithful, C.Hopeless, C.Plan, C.Cascaded, C.Audited, C.CutOff, C.AwaitedAt;
    var mt := Taken(locked, s).mt;
    var (log, o) := C.Cascaded(s.service, mt, s.cfg);
    var plan := C.Plan(mt, s.cfg);
    C.CascadeIsFaithful(s.service, mt, s.cfg);
    AgreesIsOrderly(o, C.Audited(s.service, plan, log), s.cfg.restrictToCached);
    if IsCutOff(s, log) {
      C.CutWhileAwaiting(s.service, plan, log, s.cutOff.value);
    } else {
      C.EveryMagnetIsReleasedOnce(s.service, plan, log);
      assert C.Released(log) + C.Holds(None) == C.Released(log);
    }
  }

  lemma AgreesIsOrderly(o: C.Outcome, a: C.Audit, restrict: bool)
    requires C.Agrees(o, a, restrict)
    ensures a.orderly && a.held == None
  {}

  ghost function AuditOf(c: Course, s: Surroundings): C.Audit
    requires c.Cascading()
  {
    C.Audited(s.service, C.Plan(c.mt, s.cfg), c.log)
  }

  /** What a pass leaves behind a lock it got: `Ok` for a job that is done, otherwise `Broken`; a reason
      only when the cascade gave the torrent up for something else than bandwidth; and new ids only when
      the cascade adopted a torrent. */
  ghost predicate LeftAs(mt: ManagedTorrent, b: ManagedTorrent, status: JobStatus, c: Course, s: Surroundings) {
    && !status.Running? && b.accessKey == mt.accessKey && Healthy(b)
    && b.state == (if status.Done? then TorrentState.Ok else Broken)
    && (status.Done? <==> c.Verified? || (c.Ran? && c.outcome.Success?))
    && b.unrepairable == (if c.Ran? then ReasonOf(c.outcome) else None)
    && b.lastRepairedAt == (if status.Done? then Some(s.later) else mt.lastRepairedAt)
    && (MetLimit(c, s) || c.TimedOut? ==> status.JobFailed? && PeriodicEligible(b))
    && (c.Ran? ==> (MetLimit(c, s) <==> c.outcome.DeferBandwidth?))
    && if c.Cascading() && AuditOf(c, s).adopted != [] then b.rdIds == AuditOf(c, s).adopted && b.info == None
       else b.rdIds == mt.rdIds
  }

  lemma CourseLeaves(c: Course, s: Surroundings)
    requires c.Ran? ==> C.Agrees(c.outcome, AuditOf(c, s), s.cfg.restrictToCached)
    requires c.TimedOut? ==> AuditOf(c, s).adopted == [] && !AuditOf(c, s).limited
    ensures var (status, b) := LeftBy(c, s.later); LeftAs(c.mt, b, status, c, s)
  {
    hide C.Audited, C.Plan, PeriodicEligible, ReasonText;
    var b := LeftBy(c, s.later).1;
    if b.state.Broken? && b.unrepairable.None? { BrokenIsEligible(b); }
  }

  /** A pass changes key, ids and last repair only at its end. */
  lemma CourseKeeps(mt: ManagedTorrent, s: Surroundings)
    ensures var on := Taken(Lock(mt, s), s).mt;
      on.accessKey == mt.accessKey && on.rdIds == mt.rdIds && on.lastRepairedAt == mt.lastRepairedAt
  {
    hide C.Cascaded, C.Plan, C.CutOff, C.AwaitedAt;
  }

  lemma PassLeaves(mt: ManagedTorrent, s: Surroundings)
    requires Entered(mt, s)
    ensures var (r, b) := Passed(mt, s);
      r.Finished? && LeftAs(mt, b, r.status, Taken(Lock(mt, s), s), s)
  {
    var c := Taken(Lock(mt, s), s);
    CourseKeeps(mt, s);
    if c.Cascading() { CascadeAudited(Lock(mt, s), s); }
    hide C.Agrees, C.Faithful, C.Audited, C.Plan, Taken, Lock, LeftBy, MetLimit, PeriodicEligible, Healthy, ReasonOf;
    CourseLeaves(c, s);
  }

  // ----- What the preflight decides -----

  /** One of the two looks at the detail finds it. */
  predicate DetailKnown(mt: ManagedTorrent, s: Surroundings) {
    mt.info.Some? || (mt.rdIds != [] && (s.fetched(0).Some? || s.fetched(1).Some?))
  }

  /** The detail as the pass knows it: the entry's own, else the first reply. */
  function DetailOf(mt: ManagedTorrent, s: Surroundings): Option<TorrentInfo> {
    if mt.info.Some? then mt.info
    else if mt.rdIds == [] then None
    else if s.fetched(0).Some? then s.fetched(0) else s.fetched(1)
  }

  /** The files are those of the detail, the links and file states what the preflight made of them. */
  ghost predicate HoldsFound(mt: ManagedTorrent, detail: Option<TorrentInfo>, links: seq<string>,
                             states: map<string, string>)
  {
    && detail.Some? && mt.info.Some? && mt.info.value.files == detail.value.files
    && mt.info.value.links == links && mt.fileStates == Some(states)
  }

  /** What a pass does about what its preflight found. A verified torrent is done with as it is, a
      bandwidth limit puts it off untouched, and in both cases nothing is asked of the service; in all
      others the cascade runs, on the entry with the links that were found. */
  ghost predicate FollowsFinding(mt: ManagedTorrent, status: JobStatus, b: ManagedTorrent, c: Course, s: Surroundings) {
    var known, detail := DetailKnown(mt, s), DetailOf(mt, s);
    && (known && s.finding.Verified? <==> status.Done? && !c.Cascading())
    && (known && s.finding.Verified? ==>
          b.state.Ok? && b.rdIds == mt.rdIds && HoldsFound(b, detail, s.finding.links, s.finding.states))
    && (known && s.finding.Limited? <==> status.JobFailed? && !c.Cascading())
    && (known && s.finding.Limited? ==>
          b.state.Broken? && b.unrepairable.None? && b.rdIds == mt.rdIds && b.info == detail
          && b.fileStates == mt.fileStates)
    && (c.Cascading() <==> !known || s.finding.Unsure?)
    && (c.Cascading() ==>
          c.mt.rdIds == mt.rdIds
          && if known then HoldsFound(c.mt, detail, s.finding.links, s.finding.states) else c.mt.info.None?)
  }

  lemma FindingDecides(mt: ManagedTorrent, s: Surroundings)
    requires Entered(mt, s)
    ensures var (r, b) := Passed(mt, s);
      r.Finished? && FollowsFinding(mt, r.status, b, Taken(Lock(mt, s), s), s)
  {
    hide C.Cascaded, C.Plan, C.CutOff, C.AwaitedAt, ReasonText;
  }

  // ----- Ids that point at deleted torrents -----

  /** The service confirmed the deletion of `id`, and the cascade did not adopt it anew. */
  ghost predicate Lost(log: seq<C.Event>, id: Id) { C.Purged(id, None) in log && C.Adopted(id) !in log }

  ghost predicate KeepsLostId(b: ManagedTorrent, log: seq<C.Event>) { exists id | id in b.rdIds :: Lost(log, id) }

  /** The i-th deletion of an old torrent was answered in the course of the pass. */
  predicate Reached(c: Course, s: Surroundings, i: nat) {
    i < |c.mt.rdIds| && (c.TimedOut? && s.cutOff.Some? ==> i < s.cutOff.value)
  }

  lemma PurgesInCourse(locked: ManagedTorrent, s: Surroundings)
    requires var c := Taken(locked, s); c.Cascading() && C.Hopeless(c.mt).None?
    ensures var c := Taken(locked, s);
      && (forall i: nat | i < |c.log| && c.log[i].Purged? ::
            Reached(c, s, i) && c.log[i] == C.Purged(c.mt.rdIds[i], s.service.delete(i)))
      && (forall i: nat | Reached(c, s, i) ::
            i < |c.log| && c.log[i] == C.Purged(c.mt.rdIds[i], s.service.delete(i)))
  {
    hide C.Cascaded, C.Hopeless, C.Audited, C.Plan;
    C.OldTorrentsGoFirst(s.service, Taken(locked, s).mt, s.cfg);
  }

  /** The deletes were reached, one of them was carried out, and nothing was adopted instead. */
  predicate LosesIds(c: Course, s: Surroundings) {
    && c.Cascading() && C.Hopeless(c.mt).None?
    && !(c.Ran? && c.outcome.Success? && c.outcome.newRdIds.Some?)
    && exists i: nat | i < |c.mt.rdIds| :: Reached(c, s, i) && s.service.delete(i).None?
  }

  lemma KeptIdWasReached(c: Course, s: Surroundings, b: ManagedTorrent)
    requires c.Cascading() && KeepsLostId(b, c.log)
    requires forall i: nat | i < |c.log| && c.log[i].Purged? ::
      Reached(c, s, i) && c.log[i] == C.Purged(c.mt.rdIds[i], s.service.delete(i))
    ensures exists i: nat | i < |c.mt.rdIds| :: Reached(c, s, i) && s.service.delete(i).None?
  {
    hide C.AwaitedAt;
    var id :| id in b.rdIds && Lost(c.log, id);
    var i :| 0 <= i < |c.log| && c.log[i] == C.Purged(id, None);
    assert Reached(c, s, i);
  }

  lemma ReachedIdIsKept(c: Course, s: Surroundings, b: ManagedTorrent, i: nat)
    requires c.Cascading() && Reached(c, s, i) && s.service.delete(i).None? && b.rdIds == c.mt.rdIds
    requires i < |c.log| && c.log[i] == C.Purged(c.mt.rdIds[i], s.service.delete(i))
    requires forall id :: C.Adopted(id) !in c.log
    ensures KeepsLostId(b, c.log)
  {
    assert Lost(c.log, b.rdIds[i]);
  }

  /** An entry is left pointing at a deleted torrent exactly then, whatever the outcome is called. */
  lemma LostIdKept(mt: ManagedTorrent, s: Surroundings)
    requires Entered(mt, s)
    ensures var c := Taken(Lock(mt, s), s);
      c.Cascading() && KeepsLostId(Passed(mt, s).1, c.log) <==> LosesIds(c, s)
  {
    var c, b := Taken(Lock(mt, s), s), Passed(mt, s).1;
    if c.Cascading() {
      CourseKeeps(mt, s);
      CascadeAudited(Lock(mt, s), s);
      PassLeaves(mt, s);
      C.AdoptionsAudited(s.service, C.Plan(c.mt, s.cfg), c.log);
      if C.Hopeless(c.mt).Some? {
        assert c.log == [];
      } else {
        PurgesInCourse(Lock(mt, s), s);
        hide C.Cascaded, C.Hopeless, C.Audited, C.Plan, C.CutOff, C.AwaitedAt, C.Faithful, Passed, Taken, Lock;
        hide Lost, KeepsLostId;
        if KeepsLostId(b, c.log) { KeptIdWasReached(c, s, b); }
        if LosesIds(c, s) {
          var i: nat :| Reached(c, s, i) && s.service.delete(i).None?;
          ReachedIdIsKept(c, s, b, i);
        }
      }
    }
  }

  // ----- The pass as a whole -----

  /** Which guard gives which result, and what each result leaves. */
  ghost predicate Answers(mt: ManagedTorrent, r: PassResult, b: ManagedTorrent, s: Surroundings) {
    var open := Known(mt) && mt.unrepairable.None?;
    var stuck := Stuck(mt, s.now, s.timeoutMins);
    && (r.NotFound? <==> !Known(mt))
    && (r.SkippedUnrepairable? <==> Known(mt) && mt.unrepairable.Some?)
    && (r.ResetStuck? <==> open && stuck)
    && (r.NoCapacity? <==> open && !stuck && !s.capacity)
    && (r.LockFailed? <==> open && !stuck && s.capacity && !s.dbOk(0))
    && (r.Finished? <==> open && !stuck && s.capacity && s.dbOk(0))
    && (b.state.UnderRepair? <==> StaysUnderRepair(mt, s))
    && (r.NotFound? ==> b == mt)
    && (r.SkippedUnrepairable? || r.NoCapacity? ==> SameButInfo(mt, b))
    && (r.ResetStuck? ==> b.state.Broken? && PeriodicEligible(b))
    && (r.Finished? ==>
          var c := Taken(Lock(mt, s), s);
          && FollowsFinding(mt, r.status, b, c, s) && LeftAs(mt, b, r.status, c, s)
          && (c.Cascading() && KeepsLostId(b, c.log) <==> LosesIds(c, s)))
  }

  lemma PassAnswers(mt: ManagedTorrent, s: Surroundings)
    requires Healthy(mt)
    ensures var (r, b) := Passed(mt, s); Answers(mt, r, b, s)
  {
    EndsUnderRepair(mt, s);
    if Entered(mt, s) {
      FindingDecides(mt, s);
      PassLeaves(mt, s);
      LostIdKept(mt, s);
    }
    hide FollowsFinding, LeftAs, KeepsLostId, LosesIds, Taken, LeftBy, StaysUnderRepair, Lock, PeriodicEligible, Stuck;
    var (r, b) := Passed(mt, s);
    if r.ResetStuck? { BrokenIsEligible(b); }
  }

  // ----- Passes that show it -----

  const FILM := ManagedTorrent(
    "h/film", ["a"], Listing("a", "h", "film", 100, "downloaded"),
    Some(TorrentInfo([File(1, "a.mkv", 1, true)], [""])), Broken, None, None, None, None)

  /** A service that deletes what it is told to, and finds a magnet complete from the eighth call on. */
  const SLOW := C.Service(
    _ => None, _ => Result.Ok("m"), _ => None,
    k => Result.Ok(if k < 7 then C.Info(0, false) else C.Info(100, true)))

  const CALM := Surroundings(
    0, 1, 10, _ => None, true, Unsure([""], map[]), None, SLOW, C.RepairConfig(false, 1, _ => None), _ => true,
    true, true)

  lemma FilmIsPlayable(t: ManagedTorrent)
    requires t.info.Some? && t.info.value.files == FILM.info.value.files
    ensures Selected(t) == t.info.value.files && C.Ids(Selected(t)) == [1]
    ensures !NonPlayableSelected(t) && C.Hopeless(t).None?
  {
    var f := FILM.info.value.files[0];
    MkvIsPlayable();
    hide PathLooksPlayable;
    assert Selected(t) == [f] && f in Selected(t);
  }

  lemma MkvIsPlayable()
    ensures PathLooksPlayable("a.mkv")
  {
    assert Lower("a.mkv") == "a.mkv" && "a.mkv"[1..] == ".mkv" && PLAYABLE[0] == ".mkv";
    assert PLAYABLE[0] in PLAYABLE && EndsWith(Lower("a.mkv"), PLAYABLE[0]);
  }

  /** Three fruitless polls, or one that finds the magnet complete. */
  lemma SlowWait(log: seq<C.Event>)
    ensures |log| == 3 ==> var (next, r) := C.Waited(SLOW, log, "m", 3); |next| == 6 && r == Result.Ok(false)
    ensures |log| == 9 ==> C.Waited(SLOW, log, "m", 3).1 == Result.Ok(true)
  {
    var e := C.Polled("m", Result.Ok(C.Info(0, false)));
    if |log| == 3 {
      assert C.Waited(SLOW, log, "m", 3) == C.Waited(SLOW, log + [e], "m", 2);
      assert C.Waited(SLOW, log + [e], "m", 2) == C.Waited(SLOW, log + [e] + [e], "m", 1);
      assert C.Waited(SLOW, log + [e] + [e], "m", 1) == C.Waited(SLOW, log + [e] + [e] + [e], "m", 0);
    }
  }

  lemma SlowCascade(t: ManagedTorrent)
    requires t.info.Some? && t.info.value.files == FILM.info.value.files && t.rdIds == ["a"]
    ensures C.Cascaded(SLOW, t, CALM.cfg).1 == C.Success(None)
  {
    FilmIsPlayable(t);
    hide C.Waited, C.Ids, NonPlayableSelected, Selected, C.Hopeless;
    var purges := C.PurgedAll(SLOW, [], t.rdIds);
    assert t.rdIds[1..] == [];
    assert |purges| == 1;
    var chosen := purges + [C.Added(Result.Ok("m"))] + [C.Chosen("m", C.Only([1]), None)];
    SlowWait(chosen);
    var log := C.Reinserted(SLOW, t, C.FirstSelection(t), CALM.cfg).0;
    var again := log + [C.Added(Result.Ok("m"))] + [C.Chosen("m", C.Only([1]), None)];
    SlowWait(again);
    assert C.Singles([1])[1..] == [];
  }

  /** In a calm world the pass goes all the way through the cascade, on the entry with the links found. */
  lemma FilmIsTaken(s: Surroundings)
    requires s == CALM.(service := s.service)
    ensures Entered(FILM, s)
    ensures var c, t := Taken(Lock(FILM, s), s), Rewritten(Lock(FILM, s), [""], map[]);
      && c.Ran? && c.mt == t && (c.log, c.outcome) == C.Cascaded(s.service, t, s.cfg)
      && t.rdIds == ["a"] && t.info.value.files == FILM.info.value.files
      && var (status, left) := Recorded(t, c.outcome, s.later); Passed(FILM, s) == (Finished(status), left)
  {
    hide C.Cascaded;
  }

  lemma FilmLosesId(s: Surroundings)
    requires s == CALM.(service := s.service) && s.service.delete(0).None?
    requires var o := Taken(Lock(FILM, s), s).outcome; Taken(Lock(FILM, s), s).Ran? && (o.Success? ==> o.newRdIds.None?)
    ensures KeepsLostId(Passed(FILM, s).1, Taken(Lock(FILM, s), s).log)
  {
    FilmIsTaken(s);
    LostIdKept(FILM, s);
    var c := Taken(Lock(FILM, s), s);
    FilmIsPlayable(c.mt);
    hide Taken, Passed, Lock, Recorded, C.Cascaded, C.Hopeless, KeepsLostId;
    assert Reached(c, s, 0);
  }

  /** The torrent is repaired, its job done, its state `Ok`, and its only id deleted: the magnet asked
      for first was slow, the one for its single file was ready and is not kept. */
  lemma DonePassLosesIds()
    ensures Entered(FILM, CALM)
    ensures var (r, b) := Passed(FILM, CALM); r == Finished(Done) && b.state == TorrentState.Ok && b.rdIds == ["a"]
    ensures KeepsLostId(Passed(FILM, CALM).1, Taken(Lock(FILM, CALM), CALM).log)
  {
    FilmIsTaken(CALM);
    SlowCascade(Taken(Lock(FILM, CALM), CALM).mt);
    hide C.Cascaded, KeepsLostId, Taken, Passed, Entered;
    FilmLosesId(CALM);
  }

  /** The deletion went through, and the next call met a bandwidth limit. */
  lemma DeferredPassLosesIds()
    ensures var s := CALM.(service := SLOW.(add := _ => Result.Err(Api(TrafficExhausted("")))));
      var (r, b) := Passed(FILM, s);
      && Entered(FILM, s) && r == Finished(JobFailed) && b.rdIds == ["a"]
      && KeepsLostId(b, Taken(Lock(FILM, s), s).log)
  {
    var s := CALM.(service := SLOW.(add := _ => Result.Err(Api(TrafficExhausted("")))));
    FilmIsTaken(s);
    var t := Taken(Lock(FILM, s), s).mt;
    FilmIsPlayable(t);
    assert C.Cascaded(s.service, t, s.cfg).1 == C.Outcome.DeferBandwidth;
    hide C.Cascaded, KeepsLostId, Taken, Passed, Entered;
    FilmLosesId(s);
  }

  /** A broken torrent is left under repair by a pass that could not write its lock, and a torrent under
      repair by a pass that finds no capacity. */
  lemma PassesStayUnderRepair()
    ensures Passed(FILM, CALM.(dbOk := _ => false)) == (LockFailed, Lock(FILM, CALM))
    ensures var held := FILM.(state := UnderRepair, startedAt := Some(0));
      Healthy(held) && Passed(held, CALM.(capacity := false)) == (NoCapacity, held)
  {
  }

  // ----- The code -----

  /** `rd` is the service, asked for nothing yet in this pass but detail and link checks. */
  method RepairOne(mgr: TorrentManager, rd: C.Rd, key: Key, s: Surroundings)
    returns (r: PassResult, job: Option<JobStatus>)
    requires key in mgr.torrents ==> mgr.torrents[key].accessKey == key && Healthy(mgr.torrents[key])
    requires rd.service == s.service && rd.log == []
    modifies mgr, rd
    ensures OthersUntouched(old(mgr.View()), mgr.View(), key)
    ensures key !in old(mgr.torrents) ==> r.NotFound?
    ensures r.NotFound? ==> mgr.View() == old(mgr.View())
    ensures !r.Finished? ==> rd.log == []
    ensures key in old(mgr.torrents) ==>
      var mt := old(mgr.torrents)[key];
      && key in mgr.torrents && (r, mgr.torrents[key]) == Passed(mt, s) && Answers(mt, r, mgr.torrents[key], s)
      && (r.ResetStuck? && s.dbOk(0) ==> Mirrored(mgr.View(), key))
      && (!s.dbOk(0) && !r.Finished? ==> mgr.rows == old(mgr.rows))
      && (r.Finished? ==>
            var c := Taken(Lock(mt, s), s);
            rd.log == c.Calls() && (s.dbOk(LastWrite(c)) ==> Mirrored(mgr.View(), key)))
    ensures job == if r.LockFailed? && s.jobInserted then Some(Running)
                   else if r.Finished? && s.jobInserted then Some(if s.jobUpdated then r.status else Running)
                   else None
  {
    hide Answers, ToRow, Taken, LeftBy, Stuck, Mirrored;
    job := None;
    if key in mgr.torrents { PassAnswers(mgr.torrents[key], s); }
    var refused := Admit(mgr, key, s);
    if refused.Some? {
      if refused.value.LockFailed? && s.jobInserted { job := Some(Running); }
      return refused.value, job;
    }
    if s.jobInserted { job := Some(Running); }
    var status := Locked(mgr, rd, key, s);
    if s.jobInserted && s.jobUpdated { job := Some(status); }
    r := Finished(status);
  }

  /** Up to the lock: a result when the pass ends there. */
  method Admit(mgr: TorrentManager, key: Key, s: Surroundings) returns (r: Option<PassResult>)
    requires key in mgr.torrents ==> mgr.torrents[key].accessKey == key
    modifies mgr
    ensures OthersUntouched(old(mgr.View()), mgr.View(), key)
    ensures key !in old(mgr.torrents) ==> r == Some(NotFound)
    ensures r == Some(NotFound) ==> mgr.View() == old(mgr.View())
    ensures key in old(mgr.torrents) ==>
      var mt := old(mgr.torrents)[key];
      && key in mgr.torrents && mgr.torrents[key].accessKey == key
      && (if r.Some? then !r.value.Finished? && (r.value, mgr.torrents[key]) == Passed(mt, s)
          else Entered(mt, s) && mgr.torrents[key] == Lock(mt, s))
      && (r == Some(ResetStuck) && s.dbOk(0) ==> Mirrored(mgr.View(), key))
      && (!s.dbOk(0) ==> mgr.rows == old(mgr.rows))
  {
    hide ToRow, Taken, LeftBy;
    var found := mgr.EnsureTorrentInfo(key, s.fetched(0));
    if found.None? { return Some(NotFound); }
    var mt := found.value;
    if mt.unrepairable.Some? { return Some(SkippedUnrepairable); }
    if mt.state.UnderRepair? && mt.startedAt.Some?
       && s.now - mt.startedAt.value > 60 * (if s.timeoutMins >= 1 then s.timeoutMins else 1) {
      var _ := mgr.UpdateTorrentState(key, Broken, None, s.later, s.dbOk(0));
      return Some(ResetStuck);
    }
    if !s.capacity { return Some(NoCapacity); }
    var locked := mgr.UpdateTorrentState(key, UnderRepair, None, s.now, s.dbOk(0));
    if !locked { return Some(LockFailed); }
    return None;
  }

  /** The second look at the detail finds the entry that was just locked; what the preflight found
      out is kept, unless it stopped at a bandwidth limit. */
  method Prepare(mgr: TorrentManager, key: Key, s: Surroundings) returns (pre: PreflightOutcome)
    requires key in mgr.torrents && mgr.torrents[key].accessKey == key && Known(mgr.torrents[key])
    modifies mgr
    ensures OthersUntouched(old(mgr.View()), mgr.View(), key) && key in mgr.torrents
    ensures pre == Preflight(Loaded(old(mgr.torrents)[key], s.fetched(1)), s.finding)
    ensures mgr.torrents[key] ==
            if pre.DeferBandwidth? then Loaded(old(mgr.torrents)[key], s.fetched(1)) else pre.mt
    ensures mgr.torrents[key].accessKey == key
  {
    hide ToRow;
    var found := mgr.EnsureTorrentInfo(key, s.fetched(1));
    var mt := found.value;
    if mt.info.None? {
      pre := Proceed(mt);
    } else {
      match s.finding
      case Limited =>
        return PreflightOutcome.DeferBandwidth;
      case Verified(links, states) =>
        pre := VerifiedOk(mt.(info := Some(TorrentInfo(mt.info.value.files, links)), fileStates := Some(states)));
      case Unsure(links, states) =>
        pre := Proceed(mt.(info := Some(TorrentInfo(mt.info.value.files, links)), fileStates := Some(states)));
    }
    var _ := mgr.PersistTorrentSnapshot(pre.mt, s.dbOk(1));
  }

  /** The pass from the lock on. */
  method Locked(mgr: TorrentManager, rd: C.Rd, key: Key, s: Surroundings) returns (status: JobStatus)
    requires key in mgr.torrents && mgr.torrents[key].accessKey == key && Known(mgr.torrents[key])
    requires rd.service == s.service && rd.log == []
    modifies mgr, rd
    ensures OthersUntouched(old(mgr.View()), mgr.View(), key) && key in mgr.torrents
    ensures var c := Taken(old(mgr.torrents)[key], s);
      && (status, mgr.torrents[key]) == LeftBy(c, s.later) && rd.log == c.Calls()
      && (s.dbOk(LastWrite(c)) ==> Mirrored(mgr.View(), key))
  {
    hide ToRow, Recorded, Preflight, Loaded, Known, IsCutOff, C.Cascaded, C.CutOff, C.Plan;
    var pre := Prepare(mgr, key, s);
    if pre.DeferBandwidth? {
      var _ := mgr.UpdateTorrentState(key, Broken, None, s.later, s.dbOk(1));
      status := JobFailed;
    } else if pre.VerifiedOk? {
      var _ := mgr.UpdateTorrentState(key, TorrentState.Ok, None, s.later, s.dbOk(2));
      status := Done;
    } else {
      var outcome := RunCascade(rd, pre.mt, s);
      if outcome.None? {
        var _ := mgr.UpdateTorrentState(key, Broken, None, s.later, s.dbOk(2));
        status := JobFailed;
      } else {
        status := Settle(mgr, key, outcome.value, s);
      }
    }
  }

  /** No outcome when the time limit falls first: then the replies from there on never come, and the guard
      drops what it holds. */
  method RunCascade(rd: C.Rd, mt: ManagedTorrent, s: Surroundings) returns (o: Option<C.Outcome>)
    requires rd.service == s.service && rd.log == []
    modifies rd
    ensures var (log, outcome) := C.Cascaded(s.service, mt, s.cfg);
      if IsCutOff(s, log) then o == None && rd.log == C.CutOff(s.service, C.Plan(mt, s.cfg), log, s.cutOff.value)
      else o == Some(outcome) && rd.log == log
  {
    hide C.Cascaded, C.Agrees, C.Faithful, C.Hopeless, C.Plan, C.Audited;
    var outcome := C.ExecuteCascade(rd, mt, s.cfg);
    if IsCutOff(s, rd.log) {
      rd.log := C.CutOff(s.service, C.Plan(mt, s.cfg), rd.log, s.cutOff.value);
      return None;
    }
    return Some(outcome);
  }

  /** The torrent is fine, under new ids if there are any. */
  method SettleSuccess(mgr: TorrentManager, key: Key, newRdIds: Option<seq<Id>>, s: Surroundings)
    requires key in mgr.torrents && mgr.torrents[key].accessKey == key
    modifies mgr
    ensures OthersUntouched(old(mgr.View()), mgr.View(), key) && key in mgr.torrents
    ensures mgr.torrents[key] == Recorded(old(mgr.torrents)[key], C.Success(newRdIds), s.later).1
    ensures s.dbOk(if newRdIds.Some? then 3 else 2) ==> Mirrored(mgr.View(), key)
  {
    hide ToRow;
    if newRdIds.Some? {
      var _ := mgr.ReplaceRdIds(key, newRdIds.value, s.dbOk(2));
    }
    var _ := mgr.UpdateTorrentState(key, TorrentState.Ok, None, s.later, s.dbOk(if newRdIds.Some? then 3 else 2));
  }

  method ReasonName(reason: C.UnrepairableReason) returns (name: string)
    ensures name == ReasonText(reason)
  {
    match reason
    case LoneBroken => return "lone_broken";
    case NoRepairableFiles => return "no_repairable_files";
    case DuplicateFileIDs => return "duplicate_file_ids";
    case InvalidFileIDs => return "invalid_file_ids";
    case NotCached => return "not cached (restricted to cached)";
  }

  /** Record what the cascade came to. */
  method Settle(mgr: TorrentManager, key: Key, outcome: C.Outcome, s: Surroundings) returns (status: JobStatus)
    requires key in mgr.torrents && mgr.torrents[key].accessKey == key
    modifies mgr
    ensures OthersUntouched(old(mgr.View()), mgr.View(), key) && key in mgr.torrents
    ensures (status, mgr.torrents[key]) == Recorded(old(mgr.torrents)[key], outcome, s.later)
    ensures s.dbOk(if outcome.Success? && outcome.newRdIds.Some? then 3 else 2) ==> Mirrored(mgr.View(), key)
  {
    hide ToRow, ReasonText;
    match outcome
    case Success(newRdIds) =>
      SettleSuccess(mgr, key, newRdIds, s);
      return Done;
    case Unrepairable(reason) =>
      var name := ReasonName(reason);
      var _ := mgr.UpdateTorrentState(key, Broken, Some(name), s.later, s.dbOk(2));
      return JobFailed;
    case UnrepairableMsg(message) =>
      var _ := mgr.UpdateTorrentState(key, Broken, Some(message), s.later, s.dbOk(2));
      return JobFailed;
    case DeferBandwidth =>
      var _ := mgr.UpdateTorrentState(key, Broken, None, s.later, s.dbOk(2));
      return JobFailed;
  }
}
