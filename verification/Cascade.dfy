/** The four-strategy repair cascade and the remote torrents it owns on the way.

    Every magnet the cascade adds is held by a guard that deletes it unless it is dismissed.
    The service is an oracle: any reply to any call. Its log is audited by an automaton that
    knows nothing of the cascade's code. */
module Cascade {
  import opened Wrappers
  import opened RdErrors
  import opened Torrents
  import opened Detect

  /** `reason` maps an error's text to a canonical unrepairable reason. */
  datatype RepairConfig = RepairConfig(restrictToCached: bool, batchSize: nat, reason: RdError -> Option<string>)

  datatype UnrepairableReason = LoneBroken | NoRepairableFiles | DuplicateFileIDs | InvalidFileIDs | NotCached

  datatype Outcome =
    | Success(newRdIds: Option<seq<Id>>)
    | Unrepairable(reason: UnrepairableReason)
    | UnrepairableMsg(message: string)
    | DeferBandwidth

  const MISSING_TORRENT_DETAIL := "missing torrent detail (stale or removed rd id)"

  datatype Selection = All | Only(ids: seq<nat>)

  function Ids(files: seq<File>): (r: seq<nat>)
    ensures |r| == |files|
    ensures forall i | 0 <= i < |r| :: r[i] == files[i].id
  {
    if files == [] then [] else [files[0].id] + Ids(files[1..])
  }

  // ----- What the cascade asks the service to do -----

  /** The configured size, where it lies in 1 to 32. */
  function ClampedBatch(size: nat): (b: nat)
    ensures 1 <= b <= 32 && (1 <= size <= 32 ==> b == size) && (size < 1 ==> b == 1) && (size > 32 ==> b == 32)
  {
    if size < 1 then 1 else if size > 32 then 32 else size
  }

  /** Consecutive runs of `b` ids, the last one possibly shorter. */
  function Batches(ids: seq<nat>, b: nat): seq<seq<nat>>
    requires b > 0
  {
    if ids == [] then [] else if |ids| <= b then [ids] else [ids[..b]] + Batches(ids[b..], b)
  }

  function Flatten(batches: seq<seq<nat>>): seq<nat> {
    if batches == [] then [] else batches[0] + Flatten(batches[1..])
  }

  /** Batches cover the selection in order, all but the last are full and it is not empty, and there are
      as few as possible: one fewer could not hold it. */
  lemma {:induction false} BatchesPartition(ids: seq<nat>, b: nat)
    requires b > 0
    ensures Flatten(Batches(ids, b)) == ids
    ensures var cs := Batches(ids, b);
      && (forall i | 0 <= i < |cs| - 1 :: |cs[i]| == b)
      && (cs != [] ==> 0 < |cs[|cs| - 1]| <= b)
    ensures Fits(|ids|, |Batches(ids, b)|, b)
  {
    BatchCount(ids, b);
    hide Fits;
    if |ids| > b {
      BatchesPartition(ids[b..], b);
      var rest := Batches(ids[b..], b);
      assert Batches(ids, b)[1..] == rest;
      assert forall i | 0 < i < |Batches(ids, b)| :: Batches(ids, b)[i] == rest[i - 1];
    } else if ids != [] {
      assert Batches(ids, b)[1..] == [];
    }
  }

  lemma {:induction false} BatchCount(ids: seq<nat>, b: nat)
    requires b > 0
    ensures Fits(|ids|, |Batches(ids, b)|, b)
  {
    if |ids| > b {
      BatchCount(ids[b..], b);
      hide Fits;
      OneMore(|ids[b..]|, |Batches(ids[b..], b)|, b);
    }
  }

  /** `k` is `n / b` rounded up. */
  predicate Fits(n: nat, k: nat, b: nat) { if n == 0 then k == 0 else (k - 1) * b < n <= k * b }

  lemma OneMore(n: nat, k: nat, b: nat)
    requires n > 0 && b > 0 && Fits(n, k, b)
    ensures Fits(b + n, 1 + k, b)
  {
    assert (1 + k) * b == k * b + b && k * b == (k - 1) * b + b;
  }

  function Singles(ids: seq<nat>): (r: seq<Selection>)
    ensures |r| == |ids|
    ensures forall i | 0 <= i < |r| :: r[i] == Only([ids[i]])
  {
    seq(|ids|, i requires 0 <= i < |ids| => Only([ids[i]]))
  }

  function Groups(batches: seq<seq<nat>>): (r: seq<Selection>)
    ensures |r| == |batches|
    ensures forall i | 0 <= i < |r| :: r[i] == Only(batches[i])
  {
    seq(|batches|, i requires 0 <= i < |batches| => Only(batches[i]))
  }

  /** Where the batches begin in the plan. */
  function BatchStart(t: ManagedTorrent): nat { 1 + |Selected(t)| + (if NonPlayableSelected(t) then 1 else 0) }

  /** The selections of all magnets a full cascade adds, in order: everything at once, each file
      alone, the whole archive, and batches. */
  function Plan(t: ManagedTorrent, cfg: RepairConfig): (plan: seq<Selection>) {
    if t.info.None? then [All]
    else
      var ids := Ids(Selected(t));
      [Only(ids)] + Singles(ids)
      + (if NonPlayableSelected(t) then [All] else [])
      + (if |ids| > 1 then Groups(Batches(ids, ClampedBatch(cfg.batchSize))) else [])
  }

  /** A plan holds at most `2 + n + k` magnets, with `k` batches for `n` files rounded up. */
  lemma PlanIsShort(t: ManagedTorrent, cfg: RepairConfig)
    ensures var n, b := |Selected(t)|, ClampedBatch(cfg.batchSize);
      var k := |Batches(Ids(Selected(t)), b)|;
      |Plan(t, cfg)| <= 2 + n + k && Fits(n, k, b)
  {
    BatchesPartition(Ids(Selected(t)), ClampedBatch(cfg.batchSize));
  }

  // ----- The service and its log -----

  datatype Info = Info(progress: nat, hasLinks: bool)

  /** One entry per call, and one per guard released without a call. */
  datatype Event =
    | Purged(id: Id, err: Option<RdError>)                 // an old torrent of the entry deleted
    | Added(added: Result<Id, RdError>)
    | Chosen(id: Id, files: Selection, err: Option<RdError>)
    | Polled(id: Id, info: Result<Info, RdError>)
    | DeletedNow(id: Id, err: Option<RdError>)             // awaited deletion of a magnet
    | DeleteScheduled(id: Id)                              // a guard dropped while it held its id
    | Adopted(id: Id)                                      // a guard dismissed

  /** Any reply to the k-th call. */
  datatype Service = Service(
    delete: nat -> Option<RdError>,
    add: nat -> Result<Id, RdError>,
    select: nat -> Option<RdError>,
    info: nat -> Result<Info, RdError>)

  /** What an auditor of the log knows: how many magnets were asked for and which of them were seen
      ready, how often the current one was polled, and the error of the last awaited call, if it
      failed. An error is fatal if it is a bandwidth limit, if it meets the first magnet, or if an awaited
      deletion fails; an awaited deletion that succeeds bars the torrent. Deletions of old torrents are
      not held against the service. `orderly` says that every entry so far was in order: it is what the
      service answered, old torrents go first, at most one magnet is held at a time, only the held one is
      touched, selections follow the plan, nothing is asked after a fatal error or a bar, and only a
      magnet seen ready is adopted, as the last act. */
  datatype Audit = Audit(
    orderly: bool,
    purged: seq<Id>,
    magnets: nat,
    held: Option<Id>,
    ready: set<nat>,
    adopted: seq<Id>,
    limited: bool,
    polls: nat,
    failure: Option<RdError>,
    fatal: Option<RdError>,
    barred: bool)

  function IsLimit<T>(r: Result<T, RdError>): bool { r.Err? && r.error.IsBandwidthLimited() }

  function ErrorOf<T>(r: Result<T, RdError>): Option<RdError> { if r.Err? then Some(r.error) else None }

  function IsLimitOpt(e: Option<RdError>): bool { e.Some? && e.value.IsBandwidthLimited() }

  predicate IsReady(i: Info) { i.progress == 100 && i.hasLinks }

  /** What an error of the current magnet ends, if it ends anything. */
  function Ending(first: bool, err: Option<RdError>): Option<RdError> {
    if err.Some? && (first || err.value.IsBandwidthLimited()) then err else None
  }

  /** All is in order, and nothing has ended the cascade. */
  predicate Going(a: Audit) { a.orderly && !a.limited && a.adopted == [] && a.fatal == None && !a.barred }

  function Observed(plan: seq<Selection>, a: Audit, e: Event): Audit {
    match e
    case Purged(id, _) =>
      a.(orderly := Going(a) && a.magnets == 0 && a.held == None, purged := a.purged + [id])
    case Added(reply) =>
      a.(orderly := Going(a) && a.held == None && a.magnets < |plan|,
      magnets := a.magnets + 1,
      held := if reply.Ok? then Some(reply.value) else None,
      limited := a.limited || IsLimit(reply), polls := 0, failure := ErrorOf(reply),
      fatal := Ending(a.magnets == 0, ErrorOf(reply)))
    case Chosen(id, files, err) =>
      a.(orderly := Going(a) && a.held == Some(id) && 0 < a.magnets <= |plan| && files == plan[a.magnets - 1],
      limited := a.limited || IsLimitOpt(err), failure := err, fatal := Ending(a.magnets == 1, err))
    case Polled(id, reply) =>
      a.(orderly := Going(a) && a.held == Some(id) && a.magnets > 0,
      ready := if reply.Ok? && IsReady(reply.value) && a.magnets > 0 then a.ready + {a.magnets - 1} else a.ready,
      limited := a.limited || IsLimit(reply), polls := a.polls + 1, failure := ErrorOf(reply),
      fatal := Ending(a.magnets == 1, ErrorOf(reply)))
    case DeletedNow(id, err) =>
      a.(orderly := Going(a) && a.held == Some(id),
      held := if err.None? then None else a.held,
      limited := a.limited || IsLimitOpt(err), failure := err, fatal := err, barred := err.None?)
    case DeleteScheduled(id) =>
      a.(orderly := a.orderly && a.held == Some(id), held := None)
    case Adopted(id) =>
      a.(orderly := Going(a) && a.held == Some(id) && a.magnets > 0 && a.magnets - 1 in a.ready,
      held := None,
      adopted := a.adopted + [id])
  }

  const UNSEEN := Audit(true, [], 0, None, {}, [], false, 0, None, None, false)

  /** The entry is the service's answer to its k-th call; guards are released without one. */
  predicate IsReply(sv: Service, k: nat, e: Event) {
    match e
    case Purged(_, err) => err == sv.delete(k)
    case Added(added) => added == sv.add(k)
    case Chosen(_, _, err) => err == sv.select(k)
    case Polled(_, info) => info == sv.info(k)
    case DeletedNow(_, err) => err == sv.delete(k)
    case _ => true
  }

  /** One entry more, in order only if it is what the service said. */
  function Checked(sv: Service, plan: seq<Selection>, a: Audit, k: nat, e: Event): Audit {
    var b := Observed(plan, a, e);
    b.(orderly := b.orderly && IsReply(sv, k, e))
  }

  function Audited(sv: Service, plan: seq<Selection>, log: seq<Event>): Audit {
    if log == [] then UNSEEN
    else
      var k := |log| - 1;
      Checked(sv, plan, Audited(sv, plan, log[..k]), k, log[k])
  }

  lemma Noted(sv: Service, plan: seq<Selection>, log: seq<Event>, e: Event)
    ensures Audited(sv, plan, log + [e]) == Checked(sv, plan, Audited(sv, plan, log), |log|, e)
  {
    assert (log + [e])[..|log|] == log;
  }

  function MadeBy(e: Event): seq<Id> { if e.Added? && e.added.Ok? then [e.added.value] else [] }

  function FreedBy(e: Event): seq<Id> {
    if e.DeleteScheduled? || e.Adopted? || (e.DeletedNow? && e.err.None?) then [e.id] else []
  }

  /** Ids of magnets the service created, in order. */
  function Created(log: seq<Event>): seq<Id> {
    if log == [] then [] else Created(log[..|log| - 1]) + MadeBy(log[|log| - 1])
  }

  /** Ids deleted, scheduled for deletion, or adopted, in order. */
  function Released(log: seq<Event>): seq<Id> {
    if log == [] then [] else Released(log[..|log| - 1]) + FreedBy(log[|log| - 1])
  }

  function Holds(held: Option<Id>): seq<Id> { if held.Some? then [held.value] else [] }

  lemma OneEntry(plan: seq<Selection>, a: Audit, e: Event)
    requires Observed(plan, a, e).orderly
    ensures a.orderly && Holds(a.held) + MadeBy(e) == FreedBy(e) + Holds(Observed(plan, a, e).held)
  {}

  lemma Regrouped(r: seq<Id>, h: seq<Id>, m: seq<Id>, f: seq<Id>, n: seq<Id>)
    requires h + m == f + n
    ensures (r + h) + m == (r + f) + n
  {
    assert (r + h) + m == r + (h + m) && (r + f) + n == r + (f + n);
  }

  /** Linearity: in an orderly log the ids created are the ids released, each once and in the same
      order, but for the one still held. */
  lemma {:induction false} EveryMagnetIsReleasedOnce(sv: Service, plan: seq<Selection>, log: seq<Event>)
    requires Audited(sv, plan, log).orderly
    ensures Created(log) == Released(log) + Holds(Audited(sv, plan, log).held)
  {
    if log != [] {
      var k := |log| - 1;
      var a, b := Audited(sv, plan, log[..k]), Audited(sv, plan, log);
      assert b.held == Observed(plan, a, log[k]).held;
      OneEntry(plan, a, log[k]);
      hide Observed, MadeBy, FreedBy, Holds, Audited;
      EveryMagnetIsReleasedOnce(sv, plan, log[..k]);
      Regrouped(Released(log[..k]), Holds(a.held), MadeBy(log[k]), FreedBy(log[k]), Holds(b.held));
    }
  }

  /** The log of a repair that is cut off after `k` entries: the guard drops what it holds. */
  function CutOff(sv: Service, plan: seq<Selection>, log: seq<Event>, k: nat): seq<Event>
    requires k <= |log|
  {
    var held := Audited(sv, plan, log[..k]).held;
    log[..k] + (if held.Some? then [DeleteScheduled(held.value)] else [])
  }

  lemma {:induction false} PrefixOrderly(sv: Service, plan: seq<Selection>, log: seq<Event>, k: nat)
    requires k <= |log| && Audited(sv, plan, log).orderly
    ensures Audited(sv, plan, log[..k]).orderly
    decreases |log|
  {
    if k < |log| {
      var last := |log| - 1;
      OneEntry(plan, Audited(sv, plan, log[..last]), log[last]);
      hide Observed;
      PrefixOrderly(sv, plan, log[..last], k);
      assert log[..last][..k] == log[..k];
    } else {
      assert log[..k] == log;
    }
  }

  /** Cancellation: a repair may be cut off after any entry. The log up to there stays orderly, and with
      the guard's drop nothing is left over. */
  lemma CutOffAnywhere(sv: Service, plan: seq<Selection>, log: seq<Event>, k: nat)
    requires k <= |log| && Audited(sv, plan, log).orderly
    ensures var cut := CutOff(sv, plan, log, k);
      && Audited(sv, plan, log[..k]).orderly
      && Audited(sv, plan, cut).orderly && Audited(sv, plan, cut).held == None && Created(cut) == Released(cut)
  {
    hide Audited, Created, Released;
    PrefixOrderly(sv, plan, log, k);
    var cut, held := CutOff(sv, plan, log, k), Audited(sv, plan, log[..k]).held;
    if held.Some? {
      DropAudited(sv, plan, log[..k], held.value);
    } else {
      assert cut == log[..k];
    }
    EveryMagnetIsReleasedOnce(sv, plan, cut);
    assert Released(cut) + [] == Released(cut);
  }

  lemma OneAdoption(plan: seq<Selection>, a: Audit, e: Event)
    ensures Observed(plan, a, e).adopted == if e.Adopted? then a.adopted + [e.id] else a.adopted
  {}

  lemma {:induction false} AdoptionsAudited(sv: Service, plan: seq<Selection>, log: seq<Event>)
    ensures forall id :: id in Audited(sv, plan, log).adopted <==> Adopted(id) in log
  {
    if log != [] {
      var k := |log| - 1;
      var a := Audited(sv, plan, log[..k]);
      OneAdoption(plan, a, log[k]);
      hide Observed;
      assert Audited(sv, plan, log).adopted == if log[k].Adopted? then a.adopted + [log[k].id] else a.adopted;
      hide Audited;
      AdoptionsAudited(sv, plan, log[..k]);
      assert log == log[..k] + [log[k]];
    }
  }

  /** A time limit falls while a reply is awaited: the one that would have been entry `k`. */
  predicate AwaitedAt(log: seq<Event>, k: nat) { k < |log| && !log[k].DeleteScheduled? && !log[k].Adopted? }

  lemma CalmBefore(plan: seq<Selection>, a: Audit, e: Event)
    requires Observed(plan, a, e).orderly && !e.DeleteScheduled? && !e.Adopted?
    ensures a.adopted == [] && !a.limited
  {}

  /** What is cut off so has adopted nothing and met no bandwidth limit. */
  lemma CutWhileAwaiting(sv: Service, plan: seq<Selection>, log: seq<Event>, k: nat)
    requires Audited(sv, plan, log).orderly && AwaitedAt(log, k)
    ensures var cut := CutOff(sv, plan, log, k);
      var a := Audited(sv, plan, cut);
      && a.orderly && a.held == None && a.adopted == [] && !a.limited && Created(cut) == Released(cut)
  {
    hide Observed, Created, Released, Audited;
    CutOffAnywhere(sv, plan, log, k);
    CutOffAnywhere(sv, plan, log, k + 1);
    assert log[..k + 1] == log[..k] + [log[k]];
    Noted(sv, plan, log[..k], log[k]);
    var a := Audited(sv, plan, log[..k]);
    CalmBefore(plan, a, log[k]);
    if a.held.Some? {
      DropAudited(sv, plan, log[..k], a.held.value);
    } else {
      assert CutOff(sv, plan, log, k) == log[..k];
    }
  }

  // ----- What the cascade does, as a function of the service -----

  datatype Stage = Adding | Selecting | Polling | Deleting

  datatype Attempt =
    | Ready(id: Id)
    | NotReady
    | Uncached
    | Failed(stage: Stage, error: RdError)
  {
    predicate Limited() { Failed? && error.IsBandwidthLimited() }
  }

  /** Up to `left` polls, until one finds the torrent complete with links. */
  function Waited(sv: Service, log: seq<Event>, id: Id, left: nat): (seq<Event>, Result<bool, RdError>)
    decreases left
  {
    if left == 0 then (log, Result.Ok(false))
    else
      var reply := sv.info(|log|);
      var next := log + [Polled(id, reply)];
      if reply.Err? then (next, Err(reply.error))
      else if IsReady(reply.value) then (next, Result.Ok(true))
      else Waited(sv, next, id, left - 1)
  }

  /** Wait for a magnet, then adopt it, delete it, or let its guard drop. */
  function Concluded(sv: Service, log: seq<Event>, id: Id, restrict: bool, keep: bool): (seq<Event>, Attempt) {
    var (next, poll) := Waited(sv, log, id, 3);
    if poll.Err? then (next + [DeleteScheduled(id)], Failed(Polling, poll.error))
    else if poll.value then (if keep then next + [Adopted(id)] else next + [DeleteScheduled(id)], Ready(id))
    else if !restrict then (next + [DeleteScheduled(id)], NotReady)
    else
      var err := sv.delete(|next|);
      if err.None? then (next + [DeletedNow(id, err)], Uncached)
      else (next + [DeletedNow(id, err)] + [DeleteScheduled(id)], Failed(Deleting, err.value))
  }

  /** One magnet from beginning to end. */
  function Attempted(sv: Service, log: seq<Event>, files: Selection, restrict: bool, keep: bool)
    : (seq<Event>, Attempt)
  {
    var magnet := sv.add(|log|);
    var added := log + [Added(magnet)];
    if magnet.Err? then (added, Failed(Adding, magnet.error))
    else
      var refused := sv.select(|added|);
      var chosen := added + [Chosen(magnet.value, files, refused)];
      if refused.Some? then (chosen + [DeleteScheduled(magnet.value)], Failed(Selecting, refused.value))
      else Concluded(sv, chosen, magnet.value, restrict, keep)
  }

  /** With one file at most it is the file that is broken. */
  function FinishFailure(t: ManagedTorrent): Outcome {
    if |Selected(t)| <= 1 then Unrepairable(LoneBroken) else Unrepairable(InvalidFileIDs)
  }

  function MapRd(e: RdError, cfg: RepairConfig): Outcome {
    if e.IsBandwidthLimited() then DeferBandwidth
    else
      var r := cfg.reason(e);
      if r.Some? then UnrepairableMsg(r.value) else Unrepairable(InvalidFileIDs)
  }

  /** What an attempt decides; `None` lets the cascade go on. Only the first strategy takes every
      error as final. */
  function Settled(r: Attempt, first: bool, keep: bool, cfg: RepairConfig): Option<Outcome> {
    match r
    case Ready(id) => if keep then Some(Success(Some([id]))) else None
    case NotReady => None
    case Uncached => Some(Unrepairable(NotCached))
    case Failed(stage, e) =>
      if first || stage.Deleting? || e.IsBandwidthLimited() then Some(MapRd(e, cfg)) else None
  }

  function PurgedAll(sv: Service, log: seq<Event>, ids: seq<Id>): seq<Event>
    decreases |ids|
  {
    if ids == [] then log else PurgedAll(sv, log + [Purged(ids[0], sv.delete(|log|))], ids[1..])
  }

  /** Strategy 1: everything selected, after the old torrents are deleted. */
  function Reinserted(sv: Service, t: ManagedTorrent, files: Selection, cfg: RepairConfig)
    : (seq<Event>, Option<Outcome>)
  {
    var (log, r) := Attempted(sv, PurgedAll(sv, [], t.rdIds), files, cfg.restrictToCached, true);
    (log, Settled(r, true, true, cfg))
  }

  /** Strategies 2 and 4: the remaining `parts`, with `ready` for those before. */
  function Parted(sv: Service, log: seq<Event>, parts: seq<Selection>, cfg: RepairConfig, ready: bool)
    : (seq<Event>, Option<Outcome>)
    decreases |parts|
  {
    if parts == [] then (log, if ready then Some(Success(None)) else None)
    else
      var (next, r) := Attempted(sv, log, parts[0], cfg.restrictToCached, false);
      var end := Settled(r, false, false, cfg);
      if end.Some? then (next, end) else Parted(sv, next, parts[1..], cfg, ready && r.Ready?)
  }

  /** Strategy 3. */
  function Archived(sv: Service, log: seq<Event>, cfg: RepairConfig): (seq<Event>, Option<Outcome>) {
    var (next, r) := Attempted(sv, log, All, cfg.restrictToCached, true);
    (next, Settled(r, false, true, cfg))
  }

  /** Strategy 4, when there is more than one file; then the end. */
  function BatchesTried(sv: Service, log: seq<Event>, t: ManagedTorrent, cfg: RepairConfig): (seq<Event>, Outcome) {
    var ids := Ids(Selected(t));
    if |ids| <= 1 then (log, FinishFailure(t))
    else
      var (next, r) := Parted(sv, log, Groups(Batches(ids, ClampedBatch(cfg.batchSize))), cfg, true);
      (next, if r.Some? then r.value else FinishFailure(t))
  }

  /** Strategies 2 to 4. */
  function PartsTried(sv: Service, log: seq<Event>, t: ManagedTorrent, cfg: RepairConfig): (seq<Event>, Outcome) {
    var (log2, r2) := Parted(sv, log, Singles(Ids(Selected(t))), cfg, true);
    if r2.Some? then (log2, r2.value)
    else if NonPlayableSelected(t) then
      var (log3, r3) := Archived(sv, log2, cfg);
      if r3.Some? then (log3, r3.value) else BatchesTried(sv, log3, t, cfg)
    else BatchesTried(sv, log2, t, cfg)
  }

  /** No magnet is worth adding: nothing is known of the torrent, its file ids repeat, or none of
      its selected files can be played. */
  function Hopeless(t: ManagedTorrent): Option<Outcome> {
    if t.info.None? then
      if t.torrent.hash == "" then Some(UnrepairableMsg(MISSING_TORRENT_DETAIL)) else None
    else if DuplicateIds(Selected(t)) then Some(Unrepairable(DuplicateFileIDs))
    else if forall f | f in Selected(t) :: !PathLooksPlayable(f.path) then Some(Unrepairable(NoRepairableFiles))
    else None
  }

  /** The selection of the first magnet. */
  function FirstSelection(t: ManagedTorrent): Selection {
    if t.info.None? then All else Only(Ids(Selected(t)))
  }

  /** The whole cascade: its log and its outcome, for any service. */
  function Cascaded(sv: Service, t: ManagedTorrent, cfg: RepairConfig): (seq<Event>, Outcome) {
    if Hopeless(t).Some? then ([], Hopeless(t).value)
    else
      var (log, r) := Reinserted(sv, t, FirstSelection(t), cfg);
      if r.Some? then (log, r.value)
      else if t.info.None? then (log, FinishFailure(t))
      else PartsTried(sv, log, t, cfg)
  }

  // ----- The code -----

  class Rd {
    const service: Service
    var log: seq<Event>

    constructor (service: Service)
      ensures this.service == service && log == []
    {
      this.service, log := service, [];
    }

    method Purge(id: Id)
      modifies this
      ensures log == old(log) + [Purged(id, service.delete(old(|log|)))]
    {
      log := log + [Purged(id, service.delete(|log|))];
    }

    method DeleteTorrent(id: Id) returns (err: Option<RdError>)
      modifies this
      ensures err == service.delete(old(|log|)) && log == old(log) + [DeletedNow(id, err)]
    {
      err := service.delete(|log|);
      log := log + [DeletedNow(id, err)];
    }

    method AddMagnet() returns (r: Result<Id, RdError>)
      modifies this
      ensures r == service.add(old(|log|)) && log == old(log) + [Added(r)]
    {
      r := service.add(|log|);
      log := log + [Added(r)];
    }

    method SelectTorrentFiles(id: Id, files: Selection) returns (err: Option<RdError>)
      modifies this
      ensures err == service.select(old(|log|)) && log == old(log) + [Chosen(id, files, err)]
    {
      err := service.select(|log|);
      log := log + [Chosen(id, files, err)];
    }

    method GetTorrentInfo(id: Id) returns (r: Result<Info, RdError>)
      modifies this
      ensures r == service.info(old(|log|)) && log == old(log) + [Polled(id, r)]
    {
      r := service.info(|log|);
      log := log + [Polled(id, r)];
    }
  }

  /** Holds the id of a magnet that must not outlive the attempt unless it is dismissed. */
  class EphemeralTorrent {
    const rd: Rd
    var id: Option<Id>

    constructor (rd: Rd, id: Id)
      ensures this.rd == rd && this.id == Some(id)
    {
      this.rd, this.id := rd, Some(id);
    }

    /** Give the id up to the caller, who keeps the torrent. */
    method Dismiss() returns (r: Option<Id>)
      modifies this, rd
      ensures r == old(id) && id == None
      ensures rd.log == if old(id).Some? then old(rd.log) + [Adopted(old(id).value)] else old(rd.log)
    {
      r := id;
      id := None;
      if r.Some? { rd.log := rd.log + [Adopted(r.value)]; }
    }

    /** Delete the torrent now; after an error the id stays for `Drop` to retry. */
    method DeleteEphemeral() returns (err: Option<RdError>)
      modifies this, rd
      ensures old(id).None? ==> err == None && id == None && rd.log == old(rd.log)
      ensures old(id).Some? ==>
        && err == rd.service.delete(old(|rd.log|))
        && id == (if err.None? then None else old(id))
        && rd.log == old(rd.log) + [DeletedNow(old(id).value, err)]
    {
      if id.None? { return None; }
      err := rd.DeleteTorrent(id.value);
      if err.None? { id := None; }
    }

    /** The end of the guard's scope. */
    method Drop()
      modifies this, rd
      ensures id == None
      ensures rd.log == if old(id).Some? then old(rd.log) + [DeleteScheduled(old(id).value)] else old(rd.log)
    {
      if id.Some? {
        rd.log := rd.log + [DeleteScheduled(id.value)];
        id := None;
      }
    }
  }

  datatype Poll = IsReady | NotReadyKeep | RestrictExhausted

  /** Poll up to three times, until the torrent is complete with links. */
  method InfoReady(rd: Rd, id: Id, restrict: bool) returns (r: Result<Poll, RdError>)
    modifies rd
    ensures var (log, poll) := Waited(rd.service, old(rd.log), id, 3);
      && rd.log == log
      && match poll
         case Err(e) => r == Err(e)
         case Ok(ready) =>
           r == Result.Ok(if ready then Poll.IsReady else if restrict then RestrictExhausted else NotReadyKeep)
  {
    for attempt := 0 to 3
      invariant Waited(rd.service, old(rd.log), id, 3) == Waited(rd.service, rd.log, id, 3 - attempt)
    {
      var reply := rd.GetTorrentInfo(id);
      if reply.Err? { return Err(reply.error); }
      if reply.value.progress == 100 && reply.value.hasLinks { return Result.Ok(Poll.IsReady); }
    }
    return Result.Ok(if restrict then RestrictExhausted else NotReadyKeep);
  }

  /** Wait for the magnet, and settle what becomes of it. */
  method Conclude(rd: Rd, guard: EphemeralTorrent, id: Id, restrict: bool, keep: bool) returns (r: Attempt)
    requires guard.rd == rd && guard.id == Some(id)
    modifies rd, guard
    ensures (rd.log, r) == Concluded(rd.service, old(rd.log), id, restrict, keep)
  {
    var poll := InfoReady(rd, id, restrict);
    if poll.Err? {
      r := Failed(Polling, poll.error);
    } else if poll.value.IsReady? {
      r := Ready(id);
      if keep { var _ := guard.Dismiss(); }
    } else if poll.value.RestrictExhausted? {
      var err := guard.DeleteEphemeral();
      r := if err.None? then Uncached else Failed(Deleting, err.value);
    } else {
      r := NotReady;
    }
    guard.Drop();
  }

  /** Add a magnet, select files, wait for it, and let the guard clean up. `keep` dismisses a ready
      one. A torrent that `restrict` rules out is deleted before the attempt ends. */
  method TryMagnet(rd: Rd, files: Selection, restrict: bool, keep: bool) returns (r: Attempt)
    modifies rd
    ensures (rd.log, r) == Attempted(rd.service, old(rd.log), files, restrict, keep)
  {
    hide Concluded;
    var magnet := rd.AddMagnet();
    if magnet.Err? { return Failed(Adding, magnet.error); }
    var guard := new EphemeralTorrent(rd, magnet.value);
    var refused := rd.SelectTorrentFiles(magnet.value, files);
    if refused.Some? {
      guard.Drop();
      return Failed(Selecting, refused.value);
    }
    r := Conclude(rd, guard, magnet.value, restrict, keep);
  }

  method SelectedFilesOf(t: ManagedTorrent) returns (files: seq<File>)
    ensures files == Selected(t)
  {
    if t.info.None? { return []; }
    files := CollectSelected(t.info.value.files);
  }

  method MapError(e: RdError, cfg: RepairConfig) returns (o: Outcome)
    ensures o == MapRd(e, cfg) && StandsFor(o, e, cfg)
  {
    if e.IsBandwidthLimited() { return DeferBandwidth; }
    var known := cfg.reason(e);
    if known.Some? { return UnrepairableMsg(known.value); }
    return Unrepairable(InvalidFileIDs);
  }

  method GiveUp(t: ManagedTorrent) returns (o: Outcome)
    ensures o == FinishFailure(t) && NothingWorked(o, t)
  {
    var selected := SelectedFilesOf(t);
    return Unrepairable(if |selected| < 2 then LoneBroken else InvalidFileIDs);
  }

  /** Strategy 1: delete the old torrents, whatever comes of it, and add the magnet anew. */
  method Reinsert(rd: Rd, t: ManagedTorrent, files: Selection, cfg: RepairConfig) returns (r: Option<Outcome>)
    requires rd.log == []
    modifies rd
    ensures (rd.log, r) == Reinserted(rd.service, t, files, cfg)
  {
    hide Attempted;
    for i := 0 to |t.rdIds|
      invariant PurgedAll(rd.service, [], t.rdIds) == PurgedAll(rd.service, rd.log, t.rdIds[i..])
    {
      assert t.rdIds[i..][1..] == t.rdIds[i + 1..];
      rd.Purge(t.rdIds[i]);
    }
    var attempt := TryMagnet(rd, files, cfg.restrictToCached, true);
    match attempt
    case Ready(id) => return Some(Success(Some([id])));
    case NotReady => return None;
    case Uncached => return Some(Unrepairable(NotCached));
    case Failed(_, e) =>
      var o := MapError(e, cfg);
      return Some(o);
  }

  /** Strategies 2 and 4: one magnet for each of `parts`; success when all were ready. None is kept, and
      only a bandwidth limit or a failed deletion ends the loop. */
  method EachPart(rd: Rd, parts: seq<Selection>, cfg: RepairConfig) returns (r: Option<Outcome>)
    modifies rd
    ensures (rd.log, r) == Parted(rd.service, old(rd.log), parts, cfg, true)
  {
    hide Attempted;
    var allReady := true;
    for i := 0 to |parts|
      invariant Parted(rd.service, old(rd.log), parts, cfg, true)
             == Parted(rd.service, rd.log, parts[i..], cfg, allReady)
    {
      assert parts[i..][1..] == parts[i + 1..];
      var attempt := TryMagnet(rd, parts[i], cfg.restrictToCached, false);
      if attempt.Uncached? { return Some(Unrepairable(NotCached)); }
      if attempt.Limited() { return Some(DeferBandwidth); }
      if attempt.Failed? && attempt.stage.Deleting? {
        var o := MapError(attempt.error, cfg);
        return Some(o);
      }
      if !attempt.Ready? { allReady := false; }
    }
    return if allReady then Some(Success(None)) else None;
  }

  /** Strategy 3: the whole archive. */
  method ArchiveAll(rd: Rd, cfg: RepairConfig) returns (r: Option<Outcome>)
    modifies rd
    ensures (rd.log, r) == Archived(rd.service, old(rd.log), cfg)
  {
    hide Attempted;
    var attempt := TryMagnet(rd, All, cfg.restrictToCached, true);
    match attempt
    case Ready(id) => return Some(Success(Some([id])));
    case NotReady => return None;
    case Uncached => return Some(Unrepairable(NotCached));
    case Failed(stage, e) =>
      if e.IsBandwidthLimited() { return Some(DeferBandwidth); }
      if !stage.Deleting? { return None; }
      var o := MapError(e, cfg);
      return Some(o);
  }

  /** The ids in runs of `b`. */
  method Chunks(ids: seq<nat>, b: nat) returns (chunks: seq<seq<nat>>)
    requires b > 0
    ensures chunks == Batches(ids, b)
  {
    chunks := [];
    var i := 0;
    while i < |ids|
      invariant i <= |ids|
      invariant chunks + Batches(ids[i..], b) == Batches(ids, b)
    {
      var end := if i + b < |ids| then i + b else |ids|;
      assert end < |ids| ==> ids[i..][b..] == ids[end..];
      assert end == |ids| ==> ids[i..end] == ids[i..];
      assert ids[i..][..end - i] == ids[i..end];
      chunks := chunks + [ids[i..end]];
      i := end;
    }
  }

  /** Strategy 4: batches, when there is more than one file; then the end. */
  method TryBatches(rd: Rd, t: ManagedTorrent, cfg: RepairConfig) returns (o: Outcome)
    modifies rd
    ensures (rd.log, o) == BatchesTried(rd.service, old(rd.log), t, cfg)
  {
    hide Parted, Batches;
    var selected := SelectedFilesOf(t);
    var ids := Ids(selected);
    if |ids| > 1 {
      var chunks := Chunks(ids, if cfg.batchSize == 0 then 1 else if cfg.batchSize >= 32 then 32 else cfg.batchSize);
      var r := EachPart(rd, Groups(chunks), cfg);
      if r.Some? { return r.value; }
    }
    o := GiveUp(t);
  }

  /** Strategies 2 to 4. */
  method RepairParts(rd: Rd, t: ManagedTorrent, cfg: RepairConfig) returns (o: Outcome)
    requires t.info.Some?
    modifies rd
    ensures (rd.log, o) == PartsTried(rd.service, old(rd.log), t, cfg)
  {
    hide Parted, Archived, BatchesTried;
    var selected := SelectedFilesOf(t);
    var r := EachPart(rd, Singles(Ids(selected)), cfg);
    if r.Some? { return r.value; }
    var archive := HasNonPlayableSelected(t.info.value.files);
    if archive {
      r := ArchiveAll(rd, cfg);
      if r.Some? { return r.value; }
    }
    o := TryBatches(rd, t, cfg);
  }

  // ----- What the auditor finds -----

  /** Nothing is held, nothing is adopted, and the service has not refused for bandwidth. */
  ghost predicate Between(a: Audit, purged: seq<Id>, magnets: nat) {
    Going(a) && a.held == None && a.purged == purged && a.magnets == magnets
  }

  /** A magnet is held, and it has not been polled. */
  ghost predicate Holding(a: Audit, id: Id) {
    Going(a) && a.held == Some(id) && a.magnets > 0 && a.polls == 0 && a.magnets - 1 !in a.ready
  }

  /** A magnet is held, and no poll has found it ready or failed. */
  ghost predicate Awaiting(a: Audit, id: Id) {
    Going(a) && a.held == Some(id) && a.magnets > 0 && a.magnets - 1 !in a.ready && (a.polls == 0 || a.failure == None)
  }

  lemma PollAudited(sv: Service, plan: seq<Selection>, log: seq<Event>, id: Id)
    requires Awaiting(Audited(sv, plan, log), id)
    ensures var reply, a := sv.info(|log|), Audited(sv, plan, log);
      Audited(sv, plan, log + [Polled(id, reply)])
      == a.(ready := if reply.Ok? && IsReady(reply.value) then a.ready + {a.magnets - 1} else a.ready,
            limited := IsLimit(reply), polls := a.polls + 1, failure := ErrorOf(reply),
            fatal := Ending(a.magnets == 1, ErrorOf(reply)))
  {
    hide Audited;
    Noted(sv, plan, log, Polled(id, sv.info(|log|)));
  }

  lemma {:induction false} WaitAudited(sv: Service, plan: seq<Selection>, log: seq<Event>, id: Id, left: nat)
    requires var a := Audited(sv, plan, log); Awaiting(a, id) && (left == 0 ==> a.polls > 0)
    ensures var (next, r) := Waited(sv, log, id, left);
      var a, b := Audited(sv, plan, log), Audited(sv, plan, next);
      && b == a.(ready := b.ready, limited := b.limited, polls := b.polls, failure := b.failure, fatal := b.fatal)
      && (left > 0 ==> a.polls < b.polls) && b.polls <= a.polls + left && b.failure == ErrorOf(r)
      && (r == Result.Ok(false) ==> b.polls == a.polls + left)
      && b.ready == (if r == Result.Ok(true) then a.ready + {a.magnets - 1} else a.ready)
      && (b.limited <==> IsLimit(r)) && b.fatal == Ending(a.magnets == 1, ErrorOf(r))
    decreases left
  {
    hide Audited, IsReady;
    if left > 0 {
      PollAudited(sv, plan, log, id);
      var reply := sv.info(|log|);
      if reply.Ok? && !IsReady(reply.value) {
        WaitAudited(sv, plan, log + [Polled(id, reply)], id, left - 1);
      }
    }
  }

  /** The audit after an attempt: one more magnet, nothing held, and a bandwidth limit or an
      adoption noted exactly when the result says so. */
  ghost predicate AfterAttempt(a: Audit, b: Audit, r: Attempt, keep: bool) {
    && b.orderly && b.held == None && b.purged == a.purged && b.magnets == a.magnets + 1
    && b.ready == (if r.Ready? then a.ready + {a.magnets} else a.ready)
    && b.adopted == (if r.Ready? && keep then [r.id] else [])
    && (b.limited <==> r.Limited())
    && b.failure == (if r.Failed? then Some(r.error) else None)
    && b.fatal == (if r.Failed? && r.stage.Deleting? then Some(r.error) else Ending(a.magnets == 0, b.failure))
    && (b.barred <==> r.Uncached?)
    && (r.Ready? ==> 1 <= b.polls <= 3) && (r.NotReady? || r.Uncached? ==> b.polls == 3)
  }

  lemma DropAudited(sv: Service, plan: seq<Selection>, log: seq<Event>, id: Id)
    requires Audited(sv, plan, log).orderly && Audited(sv, plan, log).held == Some(id)
    ensures Audited(sv, plan, log + [DeleteScheduled(id)]) == Audited(sv, plan, log).(held := None)
  {
    hide Audited;
    Noted(sv, plan, log, DeleteScheduled(id));
  }

  lemma AdoptAudited(sv: Service, plan: seq<Selection>, log: seq<Event>, id: Id)
    requires var a := Audited(sv, plan, log);
      Going(a) && a.held == Some(id) && a.magnets > 0 && a.magnets - 1 in a.ready
    ensures Audited(sv, plan, log + [Adopted(id)]) == Audited(sv, plan, log).(held := None, adopted := [id])
  {
    hide Audited;
    Noted(sv, plan, log, Adopted(id));
  }

  lemma DeleteAudited(sv: Service, plan: seq<Selection>, log: seq<Event>, id: Id)
    requires var a := Audited(sv, plan, log); Going(a) && a.held == Some(id)
    ensures var err := sv.delete(|log|);
      Audited(sv, plan, log + [DeletedNow(id, err)])
      == Audited(sv, plan, log).(
         held := if err.None? then None else Some(id), limited := IsLimitOpt(err), failure := err,
         fatal := err, barred := err.None?)
  {
    hide Audited;
    Noted(sv, plan, log, DeletedNow(id, sv.delete(|log|)));
  }

  lemma ConcludeAudited(sv: Service, plan: seq<Selection>, log: seq<Event>, id: Id, restrict: bool, keep: bool)
    requires Holding(Audited(sv, plan, log), id)
    ensures var (next, r) := Concluded(sv, log, id, restrict, keep);
      var a := Audited(sv, plan, log);
      && AfterAttempt(a.(magnets := a.magnets - 1), Audited(sv, plan, next), r, keep)
      && (if restrict then !r.NotReady? else !r.Uncached? && !(r.Failed? && r.stage.Deleting?))
  {
    hide Audited, Waited;
    WaitAudited(sv, plan, log, id, 3);
    var (next, poll) := Waited(sv, log, id, 3);
    if poll.Ok? && poll.value && keep {
      AdoptAudited(sv, plan, next, id);
    } else if poll.Ok? && !poll.value && restrict {
      DeleteAudited(sv, plan, next, id);
      if sv.delete(|next|).Some? {
        DropAudited(sv, plan, next + [DeletedNow(id, sv.delete(|next|))], id);
      }
    } else {
      DropAudited(sv, plan, next, id);
    }
  }

  /** One magnet is released or adopted, and its result tells what the log shows. */
  lemma AttemptAudited(sv: Service, plan: seq<Selection>, log: seq<Event>, files: Selection, restrict: bool, keep: bool)
    requires var a := Audited(sv, plan, log);
      && Between(a, a.purged, a.magnets) && a.magnets < |plan| && plan[a.magnets] == files && a.magnets !in a.ready
    ensures var (next, r) := Attempted(sv, log, files, restrict, keep);
      && AfterAttempt(Audited(sv, plan, log), Audited(sv, plan, next), r, keep)
      && (if restrict then !r.NotReady? else !r.Uncached? && !(r.Failed? && r.stage.Deleting?))
  {
    hide Audited, Concluded;
    var added := log + [Added(sv.add(|log|))];
    Noted(sv, plan, log, Added(sv.add(|log|)));
    if sv.add(|log|).Ok? {
      var id := sv.add(|log|).value;
      ChooseAudited(sv, plan, added, id, files);
      hide Checked, Observed;
      var chosen := added + [Chosen(id, files, sv.select(|added|))];
      if sv.select(|added|).Some? {
        DropAudited(sv, plan, chosen, id);
      } else {
        ConcludeAudited(sv, plan, chosen, id, restrict, keep);
      }
    }
  }

  lemma ChooseAudited(sv: Service, plan: seq<Selection>, log: seq<Event>, id: Id, files: Selection)
    requires var a := Audited(sv, plan, log);
      Going(a) && a.held == Some(id) && 0 < a.magnets <= |plan| && plan[a.magnets - 1] == files
    ensures var err, a := sv.select(|log|), Audited(sv, plan, log);
      Audited(sv, plan, log + [Chosen(id, files, err)])
      == a.(limited := IsLimitOpt(err), failure := err, fatal := Ending(a.magnets == 1, err))
  {
    hide Audited;
    Noted(sv, plan, log, Chosen(id, files, sv.select(|log|)));
  }

  predicate AllReady(ready: set<nat>, from: nat, to: nat) { forall i | from <= i < to :: i in ready }

  /** Every selected file became ready alone, or every batch did. */
  predicate Worked(ready: set<nat>, t: ManagedTorrent, cfg: RepairConfig) {
    && t.info.Some?
    && (AllReady(ready, 1, 1 + |Selected(t)|)
        || (|Selected(t)| > 1 && AllReady(ready, BatchStart(t), |Plan(t, cfg)|)))
  }

  /** How an outcome must agree with what the log shows. */
  ghost predicate Agrees(o: Outcome, a: Audit, restrict: bool) {
    && a.orderly && a.held == None
    && (o.DeferBandwidth? <==> a.limited)
    && (if a.adopted == [] then o.Success? ==> o.newRdIds == None
        else o == Success(Some(a.adopted)) && |a.adopted| == 1)
    && (o == Unrepairable(NotCached) <==> a.barred) && (a.barred ==> restrict && a.polls == 3)
  }

  /** The outcome that stands for an error: a deferral for a bandwidth limit, else the reason known for
      its text, else bad file ids. */
  predicate StandsFor(o: Outcome, e: RdError, cfg: RepairConfig) {
    && (o.DeferBandwidth? <==> e.IsBandwidthLimited())
    && (!e.IsBandwidthLimited() && cfg.reason(e).Some? ==> o.UnrepairableMsg? && Some(o.message) == cfg.reason(e))
    && (!e.IsBandwidthLimited() && cfg.reason(e).None? ==> o == Unrepairable(InvalidFileIDs))
  }

  /** What is left to say when the whole plan was tried. */
  predicate NothingWorked(o: Outcome, t: ManagedTorrent) {
    o.Unrepairable? && o.reason in {LoneBroken, InvalidFileIDs} && (o.reason.LoneBroken? <==> |Selected(t)| <= 1)
  }

  /** How a cascade ends, from its log alone: with its fatal error, or ruled out, or with a success, or
      with the whole plan tried. */
  predicate GivesUp(o: Outcome, a: Audit, t: ManagedTorrent, cfg: RepairConfig) {
    if a.fatal.Some? then StandsFor(o, a.fatal.value, cfg)
    else if a.barred then o == Unrepairable(NotCached)
    else (o.Success? && a.failure == None) || (NothingWorked(o, t) && a.magnets == |Plan(t, cfg)|)
  }

  /** The cascade goes on, or ends as the log shows; readiness was noted only for magnets from `m` on. */
  ghost predicate Moved(r: Option<Outcome>, ready: set<nat>, m: nat, a: Audit, t: ManagedTorrent, cfg: RepairConfig) {
    && a.purged == t.rdIds
    && (r.Some? ==> GivesUp(r.value, a, t, cfg))
    && ready <= a.ready
    && (forall k | k in a.ready :: k < a.magnets && (k < m ==> k in ready))
    && if r.Some? then Agrees(r.value, a, cfg.restrictToCached) else Between(a, t.rdIds, a.magnets)
  }

  lemma {:induction false} PurgeAudited(sv: Service, plan: seq<Selection>, log: seq<Event>, ids: seq<Id>)
    requires var a := Audited(sv, plan, log); Between(a, a.purged, 0) && a.ready == {}
    ensures var a, b := Audited(sv, plan, log), Audited(sv, plan, PurgedAll(sv, log, ids));
      Between(b, a.purged + ids, 0) && b.ready == {}
    decreases |ids|
  {
    hide Audited;
    if ids == [] {
      assert Audited(sv, plan, log).purged + ids == Audited(sv, plan, log).purged;
    } else {
      var e := Purged(ids[0], sv.delete(|log|));
      Noted(sv, plan, log, e);
      PurgeAudited(sv, plan, log + [e], ids[1..]);
      assert Audited(sv, plan, log).purged + [ids[0]] + ids[1..] == Audited(sv, plan, log).purged + ids;
    }
  }

  /** An attempt that keeps a ready magnet. */
  lemma KeptAudited(a: Audit, b: Audit, r: Attempt, first: bool, t: ManagedTorrent, cfg: RepairConfig)
    requires Between(a, t.rdIds, a.magnets) && (first <==> a.magnets == 0) && (forall k | k in a.ready :: k < a.magnets)
    requires AfterAttempt(a, b, r, true) && if cfg.restrictToCached then !r.NotReady? else !r.Uncached?
    ensures var end := Settled(r, first, true, cfg);
      && Moved(end, a.ready, a.magnets, b, t, cfg) && b.magnets == a.magnets + 1
      && end != Some(Success(None)) && (first && end == None ==> b.ready == a.ready)
  {
    hide FinishFailure, Plan;
  }

  /** Strategy 1 deletes all old torrents first, and ends or goes on with nothing held. */
  lemma ReinsertAudited(sv: Service, t: ManagedTorrent, cfg: RepairConfig)
    requires Plan(t, cfg) != [] && Plan(t, cfg)[0] == FirstSelection(t)
    ensures var (log, r) := Reinserted(sv, t, FirstSelection(t), cfg);
      var a := Audited(sv, Plan(t, cfg), log);
      && Moved(r, {}, 0, a, t, cfg) && a.magnets == 1
      && r != Some(Success(None)) && (r == None ==> a.ready == {})
  {
    var plan, log, files := Plan(t, cfg), PurgedAll(sv, [], t.rdIds), FirstSelection(t);
    PurgeAudited(sv, plan, [], t.rdIds);
    assert [] + t.rdIds == t.rdIds;
    hide Audited, Attempted, Plan, PurgedAll, Moved, Settled, AfterAttempt, FirstSelection;
    AttemptAudited(sv, plan, log, files, cfg.restrictToCached, true);
    var (next, r) := Attempted(sv, log, files, cfg.restrictToCached, true);
    KeptAudited(Audited(sv, plan, log), Audited(sv, plan, next), r, true, t, cfg);
  }

  /** A run of parts succeeds if and only if every one of them was ready, and goes on only after all
      of them were tried. */
  lemma {:induction false} PartsAudited(sv: Service, log: seq<Event>, parts: seq<Selection>, t: ManagedTorrent,
                                        cfg: RepairConfig, ready: bool)
    requires var a, plan := Audited(sv, Plan(t, cfg), log), Plan(t, cfg);
      && Between(a, t.rdIds, a.magnets) && a.magnets > 0
      && a.magnets + |parts| <= |plan| && plan[a.magnets..a.magnets + |parts|] == parts
      && (forall k | k in a.ready :: k < a.magnets) && (parts == [] && ready ==> a.failure == None)
    ensures var (next, r) := Parted(sv, log, parts, cfg, ready);
      var a, b := Audited(sv, Plan(t, cfg), log), Audited(sv, Plan(t, cfg), next);
      && Moved(r, a.ready, a.magnets, b, t, cfg)
      && b.magnets <= a.magnets + |parts|
      && (r == Some(Success(None)) <==> ready && AllReady(b.ready, a.magnets, a.magnets + |parts|))
      && (r == None ==>
            b.magnets == a.magnets + |parts| && (ready ==> !AllReady(b.ready, a.magnets, a.magnets + |parts|)))
      && b.adopted == []
    decreases |parts|
  {
    hide Audited, Attempted, Plan, FinishFailure;
    if parts != [] {
      var plan := Plan(t, cfg);
      var a := Audited(sv, plan, log);
      assert plan[a.magnets] == plan[a.magnets..a.magnets + |parts|][0];
      AttemptAudited(sv, plan, log, parts[0], cfg.restrictToCached, false);
      var (next, attempt) := Attempted(sv, log, parts[0], cfg.restrictToCached, false);
      var b := Audited(sv, plan, next);
      if Settled(attempt, false, false, cfg).None? {
        assert plan[b.magnets..b.magnets + |parts| - 1] == parts[1..];
        PartsAudited(sv, next, parts[1..], t, cfg, ready && attempt.Ready?);
      } else {
        assert a.magnets !in b.ready;
      }
    }
  }

  lemma ArchiveAudited(sv: Service, log: seq<Event>, t: ManagedTorrent, cfg: RepairConfig)
    requires var a, plan := Audited(sv, Plan(t, cfg), log), Plan(t, cfg);
      && Between(a, t.rdIds, a.magnets) && 0 < a.magnets < |plan| && plan[a.magnets] == All
      && forall k | k in a.ready :: k < a.magnets
    ensures var (next, r) := Archived(sv, log, cfg);
      var a, b := Audited(sv, Plan(t, cfg), log), Audited(sv, Plan(t, cfg), next);
      && Moved(r, a.ready, a.magnets, b, t, cfg) && b.magnets == a.magnets + 1 && r != Some(Success(None))
  {
    hide Audited, Attempted, Plan, Moved, Settled, AfterAttempt;
    var plan := Plan(t, cfg);
    AttemptAudited(sv, plan, log, All, cfg.restrictToCached, true);
    var (next, r) := Attempted(sv, log, All, cfg.restrictToCached, true);
    KeptAudited(Audited(sv, plan, log), Audited(sv, plan, next), r, false, t, cfg);
  }

  /** Where each strategy's selections stand in the plan. */
  lemma PlanParts(t: ManagedTorrent, cfg: RepairConfig)
    ensures t.info.None? ==> Plan(t, cfg) == [All]
    ensures t.info.Some? ==>
      var ids, plan, start := Ids(Selected(t)), Plan(t, cfg), BatchStart(t);
      var groups := if |ids| > 1 then Groups(Batches(ids, ClampedBatch(cfg.batchSize))) else [];
      && |plan| == start + |groups| && plan[0] == Only(ids)
      && plan[1..1 + |ids|] == Singles(ids)
      && (NonPlayableSelected(t) ==> plan[1 + |ids|] == All)
      && plan[start..start + |groups|] == groups
      && (|ids| > 1 ==> groups != [])
  {
    hide Selected, Ids, PathLooksPlayable;
    assert |Ids(Selected(t))| > 1 ==> Batches(Ids(Selected(t)), ClampedBatch(cfg.batchSize)) != [];
  }

  /** Only the first magnet and the archive may be adopted. */
  predicate Adoptable(magnet: int, t: ManagedTorrent) {
    magnet == 0 || (NonPlayableSelected(t) && magnet == 1 + |Selected(t)|)
  }

  /** What an outcome says of the log when the cascade ends. */
  ghost predicate Faithful(o: Outcome, a: Audit, t: ManagedTorrent, cfg: RepairConfig) {
    && a.purged == t.rdIds
    && Agrees(o, a, cfg.restrictToCached)
    && (o == Success(None) <==> Worked(a.ready, t, cfg) && a.adopted == [])
    && (a.adopted != [] ==> Adoptable(a.magnets - 1, t))
    && GivesUp(o, a, t, cfg)
  }

  /** The cascade ended before the batches. */
  lemma EndsEarly(o: Outcome, a: Audit, t: ManagedTorrent, cfg: RepairConfig)
    requires a.purged == t.rdIds && Agrees(o, a, cfg.restrictToCached)
    requires t.info.Some? && a.magnets <= BatchStart(t) && forall k | k in a.ready :: k < a.magnets
    requires GivesUp(o, a, t, cfg)
    requires o == Success(None) <==> AllReady(a.ready, 1, 1 + |Selected(t)|)
    requires a.adopted != [] ==> Adoptable(a.magnets - 1, t)
    ensures Faithful(o, a, t, cfg)
  {
    PlanParts(t, cfg);
    hide Plan, Adoptable, NonPlayableSelected, Selected, Batches, Ids, PathLooksPlayable;
    if |Selected(t)| > 1 {
      assert |Plan(t, cfg)| - 1 !in a.ready;
    }
  }

  /** The cascade went through the batches, after files that were not all ready. */
  lemma EndsLate(o: Outcome, a: Audit, t: ManagedTorrent, cfg: RepairConfig)
    requires a.purged == t.rdIds && Agrees(o, a, cfg.restrictToCached) && a.adopted == []
    requires t.info.Some? && |Selected(t)| > 1
    requires !AllReady(a.ready, 1, 1 + |Selected(t)|)
    requires GivesUp(o, a, t, cfg)
    requires o == Success(None) <==> AllReady(a.ready, BatchStart(t), |Plan(t, cfg)|)
    ensures Faithful(o, a, t, cfg)
  {}

  lemma StillNotReady(before: set<nat>, after: set<nat>, from: nat, to: nat)
    requires !AllReady(before, from, to) && forall k | k in after && k < to :: k in before
    ensures !AllReady(after, from, to)
  {}

  lemma ArchiveIsAdoptable(magnet: int, t: ManagedTorrent)
    requires NonPlayableSelected(t) && magnet == 1 + |Selected(t)|
    ensures Adoptable(magnet, t)
  {}

  lemma NothingLeft(a: Audit, t: ManagedTorrent, cfg: RepairConfig)
    requires Between(a, t.rdIds, |Plan(t, cfg)|)
    ensures Agrees(FinishFailure(t), a, cfg.restrictToCached) && GivesUp(FinishFailure(t), a, t, cfg)
    ensures !FinishFailure(t).Success?
  {}

  /** A run of all batches ends the cascade. */
  lemma BatchesEnd(r: Option<Outcome>, before: set<nat>, b: Audit, t: ManagedTorrent, cfg: RepairConfig)
    requires t.info.Some? && |Selected(t)| > 1 && BatchStart(t) <= |Plan(t, cfg)|
    requires Moved(r, before, BatchStart(t), b, t, cfg) && !AllReady(before, 1, 1 + |Selected(t)|)
    requires r == Some(Success(None)) <==> AllReady(b.ready, BatchStart(t), |Plan(t, cfg)|)
    requires b.adopted == [] && (r == None ==> b.magnets == |Plan(t, cfg)|)
    ensures Faithful(if r.Some? then r.value else FinishFailure(t), b, t, cfg)
  {
    hide Plan, NonPlayableSelected, Adoptable, Agrees, GivesUp, FinishFailure;
    StillNotReady(before, b.ready, 1, 1 + |Selected(t)|);
    if r.None? { NothingLeft(b, t, cfg); }
    hide AllReady, Faithful;
    EndsLate(if r.Some? then r.value else FinishFailure(t), b, t, cfg);
  }

  /** All batches, as they stand in the plan. */
  lemma BatchesRun(sv: Service, log: seq<Event>, groups: seq<Selection>, t: ManagedTorrent, cfg: RepairConfig)
    requires t.info.Some? && |Selected(t)| > 1 && groups != []
    requires var plan, start := Plan(t, cfg), BatchStart(t);
      |plan| == start + |groups| && plan[start..start + |groups|] == groups
    requires var a := Audited(sv, Plan(t, cfg), log);
      && Between(a, t.rdIds, BatchStart(t)) && (forall k | k in a.ready :: k < a.magnets)
      && !AllReady(a.ready, 1, 1 + |Selected(t)|)
    ensures var (next, r) := Parted(sv, log, groups, cfg, true);
      Faithful(if r.Some? then r.value else FinishFailure(t), Audited(sv, Plan(t, cfg), next), t, cfg)
  {
    var plan := Plan(t, cfg);
    var a := Audited(sv, plan, log);
    hide Plan, NonPlayableSelected, Selected, Audited, Faithful, AllReady, Parted, Moved, FinishFailure;
    PartsAudited(sv, log, groups, t, cfg, true);
    var (next, r) := Parted(sv, log, groups, cfg, true);
    hide Between;
    BatchesEnd(r, a.ready, Audited(sv, plan, next), t, cfg);
  }

  lemma BatchesFaithful(sv: Service, log: seq<Event>, t: ManagedTorrent, cfg: RepairConfig)
    requires t.info.Some?
    requires var a := Audited(sv, Plan(t, cfg), log);
      && Between(a, t.rdIds, BatchStart(t)) && (forall k | k in a.ready :: k < a.magnets)
      && !AllReady(a.ready, 1, 1 + |Selected(t)|)
    ensures var (next, o) := BatchesTried(sv, log, t, cfg);
      Faithful(o, Audited(sv, Plan(t, cfg), next), t, cfg)
  {
    PlanParts(t, cfg);
    var a := Audited(sv, Plan(t, cfg), log);
    hide Plan, Batches, NonPlayableSelected, Audited, Adoptable, Faithful, AllReady, Parted, Agrees, GivesUp;
    hide FinishFailure, Moved, Selected;
    if |Selected(t)| > 1 {
      hide Between, BatchStart;
      BatchesRun(sv, log, Groups(Batches(Ids(Selected(t)), ClampedBatch(cfg.batchSize))), t, cfg);
    } else {
      NothingLeft(a, t, cfg);
      EndsEarly(FinishFailure(t), a, t, cfg);
    }
  }

  lemma PartsFaithful(sv: Service, log: seq<Event>, t: ManagedTorrent, cfg: RepairConfig)
    requires t.info.Some? && Selected(t) != []
    requires var a := Audited(sv, Plan(t, cfg), log); Between(a, t.rdIds, 1) && a.ready == {}
    ensures var (next, o) := PartsTried(sv, log, t, cfg);
      Faithful(o, Audited(sv, Plan(t, cfg), next), t, cfg)
  {
    PlanParts(t, cfg);
    var plan, ids := Plan(t, cfg), Ids(Selected(t));
    hide Plan, Batches, NonPlayableSelected, Audited, Adoptable, Faithful, AllReady, Parted, Archived, BatchesTried;
    hide Agrees, GivesUp;
    PartsAudited(sv, log, Singles(ids), t, cfg, true);
    var (log2, r2) := Parted(sv, log, Singles(ids), cfg, true);
    var a := Audited(sv, plan, log2);
    if r2.Some? {
      EndsEarly(r2.value, a, t, cfg);
    } else if NonPlayableSelected(t) {
      ArchiveAudited(sv, log2, t, cfg);
      var (log3, r3) := Archived(sv, log2, cfg);
      var b := Audited(sv, plan, log3);
      StillNotReady(a.ready, b.ready, 1, 1 + |ids|);
      if r3.Some? {
        ArchiveIsAdoptable(b.magnets - 1, t);
        EndsEarly(r3.value, b, t, cfg);
      } else {
        BatchesFaithful(sv, log3, t, cfg);
      }
    } else {
      BatchesFaithful(sv, log2, t, cfg);
    }
  }

  /** The whole cascade, audited: the log holds the service's answers; old torrents are deleted first
      and all of them; what is asked for follows the plan; every magnet is released; a bandwidth limit
      on any later call ends in `DeferBandwidth` and nothing else does; one magnet at most is adopted,
      and it is the one reported; success without an adoption means every selected file was ready
      alone, or every batch of them was; and the last failure comes only after the whole plan. */
  lemma CascadeIsFaithful(sv: Service, t: ManagedTorrent, cfg: RepairConfig)
    ensures var (log, o) := Cascaded(sv, t, cfg);
      var a := Audited(sv, Plan(t, cfg), log);
      && Agrees(o, a, cfg.restrictToCached)
      && (Hopeless(t).Some? ==> o == Hopeless(t).value && log == [])
      && (Hopeless(t).None? ==> Faithful(o, a, t, cfg))
  {
    PlanParts(t, cfg);
    if Hopeless(t).None? {
      var plan := Plan(t, cfg);
      var (log, r) := Reinserted(sv, t, FirstSelection(t), cfg);
      var a := Audited(sv, plan, log);
      ReinsertAudited(sv, t, cfg);
      hide Plan, Audited, Reinserted, PartsTried, Batches, NonPlayableSelected, FinishFailure, Between;
      if t.info.None? {
        if r.None? { NothingLeft(a, t, cfg); }
      } else if r.Some? {
        assert 1 !in a.ready;
        EndsEarly(r.value, a, t, cfg);
      } else {
        PartsFaithful(sv, log, t, cfg);
      }
    }
  }

  // ----- Errors -----

  /** How an awaited call for a magnet failed. */
  function FailureOf(e: Event): Option<RdError> {
    match e
    case Added(reply) => ErrorOf(reply)
    case Chosen(_, _, err) => err
    case Polled(_, reply) => ErrorOf(reply)
    case DeletedNow(_, err) => err
    case _ => None
  }

  /** How many magnets were asked for. */
  function Asked(log: seq<Event>): nat {
    if log == [] then 0 else Asked(log[..|log| - 1]) + (if log[|log| - 1].Added? then 1 else 0)
  }

  /** The last awaited call for a magnet. */
  function LastCall(log: seq<Event>): Option<Event> {
    if log == [] then None
    else
      var e := log[|log| - 1];
      if IsCall(e) then Some(e) else LastCall(log[..|log| - 1])
  }

  predicate IsCall(e: Event) { !e.Purged? && !e.DeleteScheduled? && !e.Adopted? }

  /** What one entry in order says of errors. */
  lemma OneCall(plan: seq<Selection>, a: Audit, e: Event)
    requires Observed(plan, a, e).orderly
    ensures var b := Observed(plan, a, e);
      && b.magnets == a.magnets + (if e.Added? then 1 else 0)
      && if !IsCall(e) then b.failure == a.failure && b.fatal == a.fatal && b.barred == a.barred
         else && b.failure == FailureOf(e) && (b.barred <==> e.DeletedNow? && e.err.None?)
              && b.fatal == if e.DeletedNow? then e.err else Ending(b.magnets == 1, FailureOf(e))
  {}

  lemma {:induction false} CallsAudited(sv: Service, plan: seq<Selection>, log: seq<Event>)
    requires Audited(sv, plan, log).orderly
    ensures var a, last := Audited(sv, plan, log), LastCall(log);
      && a.magnets == Asked(log)
      && a.failure == (if last.Some? then FailureOf(last.value) else None)
      && (a.barred <==> last.Some? && last.value.DeletedNow? && last.value.err.None?)
      && a.fatal == (if last.None? then None
                     else if last.value.DeletedNow? then last.value.err
                     else Ending(a.magnets == 1, a.failure))
    decreases |log|
  {
    if log != [] {
      var k := |log| - 1;
      var a := Audited(sv, plan, log[..k]);
      OneEntry(plan, a, log[k]);
      OneCall(plan, a, log[k]);
      hide Observed, FailureOf, Ending;
      CallsAudited(sv, plan, log[..k]);
    }
  }

  /** After a fatal error an orderly log asks for nothing more. */
  lemma {:induction false} FatalStays(sv: Service, plan: seq<Selection>, log: seq<Event>, k: nat)
    requires k <= |log| && Audited(sv, plan, log).orderly && Audited(sv, plan, log[..k]).fatal.Some?
    ensures var a, b := Audited(sv, plan, log[..k]), Audited(sv, plan, log);
      b.fatal == a.fatal && b.magnets == a.magnets
    decreases |log|
  {
    hide Audited;
    if k == |log| {
      assert log[..k] == log;
    } else {
      var init := log[..|log| - 1];
      assert init[..k] == log[..k];
      PrefixOrderly(sv, plan, log, |init|);
      FatalStays(sv, plan, init, k);
      FatalStep(sv, plan, log);
    }
  }

  lemma FatalStep(sv: Service, plan: seq<Selection>, log: seq<Event>)
    requires log != [] && Audited(sv, plan, log).orderly && Audited(sv, plan, log[..|log| - 1]).fatal.Some?
    ensures var a, b := Audited(sv, plan, log[..|log| - 1]), Audited(sv, plan, log);
      b.fatal == a.fatal && b.magnets == a.magnets
  {
    var a, e := Audited(sv, plan, log[..|log| - 1]), log[|log| - 1];
    OneCall(plan, a, e);
    CallNeedsGoing(plan, a, e);
    hide Observed, FailureOf, Ending;
  }

  lemma CallNeedsGoing(plan: seq<Selection>, a: Audit, e: Event)
    requires Observed(plan, a, e).orderly
    ensures IsCall(e) ==> a.fatal.None?
  {}

  /** A failed call that ends the cascade: any for the first magnet, any that hit a bandwidth limit, and
      any awaited deletion. */
  predicate IsFinal(log: seq<Event>, k: nat)
    requires k < |log|
  {
    var err := FailureOf(log[k]);
    err.Some? && (Asked(log[..k + 1]) == 1 || err.value.IsBandwidthLimited() || log[k].DeletedNow?)
  }

  lemma FatalEntry(sv: Service, plan: seq<Selection>, log: seq<Event>, k: nat)
    requires k < |log| && Audited(sv, plan, log).orderly && IsFinal(log, k)
    ensures Audited(sv, plan, log).fatal == FailureOf(log[k])
    ensures Asked(log) == Asked(log[..k + 1])
  {
    hide Audited, Observed, Asked, LastCall;
    PrefixOrderly(sv, plan, log, k + 1);
    CallsAudited(sv, plan, log[..k + 1]);
    CallsAudited(sv, plan, log);
    LastIsCall(log[..k + 1]);
    FatalStays(sv, plan, log, k + 1);
  }

  lemma LastIsCall(log: seq<Event>)
    requires log != [] && IsCall(log[|log| - 1])
    ensures LastCall(log) == Some(log[|log| - 1])
  {}

  /** Which errors count. A failed call for the first magnet ends the cascade with that error, before a
      second magnet is asked for; so does a failed awaited deletion, and a bandwidth limit, whenever they
      come. Any other failed call of a later magnet decides nothing: when it is the last one, the whole plan
      was tried and nothing worked. */
  lemma ErrorsDecide(sv: Service, t: ManagedTorrent, cfg: RepairConfig)
    requires Hopeless(t).None?
    ensures var (log, o) := Cascaded(sv, t, cfg);
      forall k | 0 <= k < |log| && IsFinal(log, k) ::
        Asked(log) == Asked(log[..k + 1]) && StandsFor(o, FailureOf(log[k]).value, cfg)
    ensures var (log, o) := Cascaded(sv, t, cfg);
      var last := LastCall(log);
      last.Some? && FailureOf(last.value).Some? && Asked(log) > 1 && !last.value.DeletedNow?
      && !FailureOf(last.value).value.IsBandwidthLimited() ==>
        Asked(log) == |Plan(t, cfg)| && NothingWorked(o, t)
  {
    var plan := Plan(t, cfg);
    var (log, o) := Cascaded(sv, t, cfg);
    CascadeIsFaithful(sv, t, cfg);
    CallsAudited(sv, plan, log);
    hide Cascaded, Hopeless, Audited, Plan, StandsFor, Asked, LastCall, IsFinal, NothingWorked;
    forall k | 0 <= k < |log| && IsFinal(log, k)
      ensures Asked(log) == Asked(log[..k + 1]) && StandsFor(o, FailureOf(log[k]).value, cfg)
    {
      FatalEntry(sv, plan, log, k);
      FailureOfEnd(log, k);
    }
  }

  lemma FailureOfEnd(log: seq<Event>, k: nat)
    requires k < |log| && IsFinal(log, k)
    ensures FailureOf(log[k]).Some?
  {}

  // ----- Old torrents -----

  /** The log grew, and no old torrent was deleted meanwhile. */
  ghost predicate Grown(log: seq<Event>, next: seq<Event>) {
    log <= next && forall i | |log| <= i < |next| :: !next[i].Purged?
  }

  lemma {:induction false} WaitGrows(sv: Service, log: seq<Event>, id: Id, left: nat)
    ensures Grown(log, Waited(sv, log, id, left).0)
    decreases left
  {
    if left > 0 { WaitGrows(sv, log + [Polled(id, sv.info(|log|))], id, left - 1); }
  }

  lemma ConcludeGrows(sv: Service, log: seq<Event>, id: Id, restrict: bool, keep: bool)
    ensures Grown(log, Concluded(sv, log, id, restrict, keep).0)
  {
    WaitGrows(sv, log, id, 3);
    hide Waited;
  }

  lemma AttemptGrows(sv: Service, log: seq<Event>, files: Selection, restrict: bool, keep: bool)
    ensures Grown(log, Attempted(sv, log, files, restrict, keep).0)
  {
    hide Concluded;
    var added := log + [Added(sv.add(|log|))];
    if sv.add(|log|).Ok? {
      var id := sv.add(|log|).value;
      ConcludeGrows(sv, added + [Chosen(id, files, sv.select(|added|))], id, restrict, keep);
    }
  }

  lemma {:induction false} PartsGrow(sv: Service, log: seq<Event>, parts: seq<Selection>, cfg: RepairConfig,
                                     ready: bool)
    ensures Grown(log, Parted(sv, log, parts, cfg, ready).0)
    decreases |parts|
  {
    if parts != [] {
      AttemptGrows(sv, log, parts[0], cfg.restrictToCached, false);
      hide Attempted, Settled;
      var (next, r) := Attempted(sv, log, parts[0], cfg.restrictToCached, false);
      PartsGrow(sv, next, parts[1..], cfg, ready && r.Ready?);
    }
  }

  lemma BatchesGrow(sv: Service, log: seq<Event>, t: ManagedTorrent, cfg: RepairConfig)
    ensures Grown(log, BatchesTried(sv, log, t, cfg).0)
  {
    hide Batches, Parted, Ids, Selected;
    PartsGrow(sv, log, Groups(Batches(Ids(Selected(t)), ClampedBatch(cfg.batchSize))), cfg, true);
  }

  lemma RestGrows(sv: Service, log: seq<Event>, t: ManagedTorrent, cfg: RepairConfig)
    ensures Grown(log, PartsTried(sv, log, t, cfg).0)
  {
    hide Parted, Attempted, Settled, BatchesTried, NonPlayableSelected, Ids, Selected;
    var parts := Singles(Ids(Selected(t)));
    PartsGrow(sv, log, parts, cfg, true);
    var log2 := Parted(sv, log, parts, cfg, true).0;
    AttemptGrows(sv, log2, All, cfg.restrictToCached, true);
    BatchesGrow(sv, log2, t, cfg);
    BatchesGrow(sv, Archived(sv, log2, cfg).0, t, cfg);
  }

  lemma {:induction false} PurgesInOrder(sv: Service, log: seq<Event>, ids: seq<Id>)
    ensures var next := PurgedAll(sv, log, ids);
      && |next| == |log| + |ids| && log <= next
      && forall i | 0 <= i < |ids| :: next[|log| + i] == Purged(ids[i], sv.delete(|log| + i))
    decreases |ids|
  {
    if ids != [] {
      var step := log + [Purged(ids[0], sv.delete(|log|))];
      PurgesInOrder(sv, step, ids[1..]);
      var next := PurgedAll(sv, log, ids);
      forall i | 0 <= i < |ids| ensures next[|log| + i] == Purged(ids[i], sv.delete(|log| + i)) {
        if i > 0 {
          assert next[|step| + (i - 1)] == Purged(ids[1..][i - 1], sv.delete(|step| + (i - 1)));
        } else {
          assert next[|log|] == step[|log|];
        }
      }
    }
  }

  /** A cascade that is not hopeless begins with the deletion of every old torrent, in order, whatever
      each deletion comes to, and deletes no old torrent later. */
  lemma OldTorrentsGoFirst(sv: Service, t: ManagedTorrent, cfg: RepairConfig)
    requires Hopeless(t).None?
    ensures var log := Cascaded(sv, t, cfg).0;
      && |t.rdIds| <= |log|
      && (forall i | 0 <= i < |t.rdIds| :: log[i] == Purged(t.rdIds[i], sv.delete(i)))
      && forall i | |t.rdIds| <= i < |log| :: !log[i].Purged?
  {
    var none: seq<Event> := [];
    var purges := PurgedAll(sv, none, t.rdIds);
    PurgesInOrder(sv, none, t.rdIds);
    assert forall i | 0 <= i < |t.rdIds| :: purges[i] == purges[|none| + i];
    AttemptGrows(sv, purges, FirstSelection(t), cfg.restrictToCached, true);
    hide Attempted, PurgedAll, PartsTried, Hopeless, FirstSelection, Settled;
    RestGrows(sv, Reinserted(sv, t, FirstSelection(t), cfg).0, t, cfg);
  }

  // ----- The whole cascade -----

  /** The four strategies in order, with an outcome that is faithful to the log. */
  method ExecuteCascade(rd: Rd, t: ManagedTorrent, cfg: RepairConfig) returns (o: Outcome)
    requires rd.log == []
    modifies rd
    ensures (rd.log, o) == Cascaded(rd.service, t, cfg)
    ensures var a := Audited(rd.service, Plan(t, cfg), rd.log);
      && Agrees(o, a, cfg.restrictToCached)
      && (Hopeless(t).Some? ==> o == Hopeless(t).value && rd.log == [])
      && (Hopeless(t).None? ==> Faithful(o, a, t, cfg))
  {
    CascadeIsFaithful(rd.service, t, cfg);
    hide Audited, Reinserted, PartsTried, Plan, Agrees, Faithful, PathLooksPlayable;
    if t.info.None? {
      if t.torrent.hash == "" {
        return UnrepairableMsg(MISSING_TORRENT_DETAIL);
      }
      var sole := Reinsert(rd, t, All, cfg);
      if sole.Some? { return sole.value; }
      o := GiveUp(t);
      return;
    }
    var repeated := DuplicateSelectedFileIds(t.info.value.files);
    if repeated {
      return Unrepairable(DuplicateFileIDs);
    }
    var selected := SelectedFilesOf(t);
    var playable := AnyPlayable(selected);
    if !playable {
      return Unrepairable(NoRepairableFiles);
    }
    var r := Reinsert(rd, t, Only(Ids(selected)), cfg);
    if r.Some? {
      return r.value;
    }
    o := RepairParts(rd, t, cfg);
  }
}
