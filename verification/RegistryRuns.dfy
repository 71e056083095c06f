/** Every run of the operations that change the registry, in any order: repair passes with the
    snapshots they hold, reads that mark files broken, refreshes, failed database writes, restarts.
    An operation builds its entry on a copy, puts it in memory, and then sends the rows off; the
    database takes them later, in any order, or fails. */
module RegistryRuns {
  import opened Wrappers
  import opened Lists
  import opened Torrents
  import opened Registry
  import opened Refresh
  import Convergence

  type Batch = map<Key, Row>

  /** `held` are copies of entries in the hands of operations; they may have gone stale. `writes` are the
      batches of rows made so far, the rows of the start first; those in `pending` are still under way.
      `memBy` and `rowBy` name the batch that goes with an entry in memory and with a row. */
  datatype World = World(
    memory: map<Key, ManagedTorrent>,
    rows: map<Key, Row>,
    held: seq<ManagedTorrent>,
    writes: seq<Batch>,
    pending: set<nat>,
    memBy: map<Key, nat>,
    rowBy: map<Key, nat>)

  datatype Event =
    | Take(key: Key)
    | SetState(k: nat, state: TorrentState, reason: Option<string>, now: int)
    | BreakFile(k: nat, path: string)
    | LoadInfo(key: Key, loaded: TorrentInfo)
    | Persist(k: nat, info: Option<TorrentInfo>, fileStates: Option<map<string, string>>)
    | Adopt(k: nat, ids: seq<Id>)
    | DoRefresh(list: seq<Listing>, d: DiffResult)
    | Land(i: nat, ok: bool)
    | Restart

  /** What callers respect: a reason comes only with `Broken`, an adopted torrent has one id, and a
      pass changes only detail and file states of the copy it holds. */
  ghost predicate Enabled(w: World, e: Event) {
    match e
    case Take(key) => key in w.memory
    case SetState(k, state, reason, _) => k < |w.held| && (reason.Some? ==> state.Broken?)
    case BreakFile(k, _) => k < |w.held|
    case Persist(k, _, _) => k < |w.held|
    case Adopt(k, ids) => k < |w.held| && |ids| == 1
    case DoRefresh(list, d) => IsDiff(w.memory, list, d)
    case Land(i, _) => i in w.pending && i < |w.writes|
    case _ => true
  }

  /** New entries in memory, and their rows sent off. */
  function Wrote(w: World, memory: map<Key, ManagedTorrent>, batch: Batch): World {
    var n := |w.writes|;
    w.(memory := memory, writes := w.writes + [batch], pending := w.pending + {n},
    memBy := w.memBy + map k | k in batch :: n)
  }

  function Put(w: World, mt: ManagedTorrent): World {
    Wrote(w, w.memory[mt.accessKey := mt], map[mt.accessKey := ToRow(mt)])
  }

  function Landed(w: World, i: nat, ok: bool): World
    requires i < |w.writes|
  {
    var settled := w.(pending := w.pending - {i});
    if !ok then settled
    else settled.(rows := w.rows + w.writes[i], rowBy := w.rowBy + map k | k in w.writes[i] :: i)
  }

  /** An operation that stores what it makes of the copy it holds. */
  predicate Stores(e: Event) { e.SetState? || e.BreakFile? || e.Persist? || e.Adopt? }

  function Change(mt: ManagedTorrent, e: Event): ManagedTorrent
    requires Stores(e)
  {
    match e
    case SetState(_, state, reason, now) => InState(mt, state, reason, now)
    case BreakFile(_, path) => WithBrokenFile(mt, path)
    case Persist(_, info, fileStates) => mt.(info := info, fileStates := fileStates)
    case Adopt(_, ids) => WithIds(mt, ids)
  }

  function Next(w: World, e: Event): World
    requires Enabled(w, e)
  {
    if Stores(e) then Put(w, Change(w.held[e.k], e))
    else
      match e
      case Take(key) => w.(held := w.held + [w.memory[key]])
      case LoadInfo(key, info) =>
        if key in w.memory then w.(memory := w.memory[key := w.memory[key].(info := Some(info))]) else w
      case DoRefresh(_, d) => Wrote(w, Merged(w.memory, d), Upserts(w.memory, d))
      case Land(i, ok) => Landed(w, i, ok)
      case Restart => Restored(w.rows, w.writes, w.rowBy)
  }

  /** After a restart memory is what the rows say, and nothing is under way. */
  function Restored(rows: map<Key, Row>, writes: seq<Batch>, rowBy: map<Key, nat>): World {
    World(Restarted(Registry(map[], rows)).torrents, rows, [], writes, {}, rowBy, rowBy)
  }

  function Start(rows: map<Key, Row>): World { Restored(rows, [rows], map k | k in rows :: 0) }

  /** The repair clock runs exactly during repair, and an unrepairable torrent is broken. */
  predicate Healthy(mt: ManagedTorrent) {
    && (mt.startedAt.Some? <==> mt.state.UnderRepair?)
    && (mt.unrepairable.Some? ==> mt.state.Broken?)
  }

  predicate EntryOk(key: Key, mt: ManagedTorrent) {
    && Healthy(mt)
    && mt.accessKey == key == KeyOf(mt.torrent)
    && NoRepeats(mt.rdIds)
  }

  ghost predicate AllOk(torrents: map<Key, ManagedTorrent>) { forall k | k in torrents :: EntryOk(k, torrents[k]) }

  ghost predicate RowsOk(rows: map<Key, Row>) { forall k | k in rows :: EntryOk(k, FromRow(rows[k])) }

  /** `row` is the one that batch number `origin[k]` brought for `k`. */
  predicate Brought(writes: seq<Batch>, origin: map<Key, nat>, k: Key, row: Row) {
    k in origin && origin[k] < |writes| && k in writes[origin[k]] && writes[origin[k]][k] == row
  }

  ghost predicate Inv(w: World) {
    && AllOk(w.memory)
    && (forall b | b in w.writes :: RowsOk(b))
    && (forall i | 0 <= i < |w.held| :: EntryOk(w.held[i].accessKey, w.held[i]))
    && (forall i | i in w.pending :: i < |w.writes|)
    && (forall k | k in w.memory :: Brought(w.writes, w.memBy, k, ToRow(w.memory[k])))
    && (forall k | k in w.rows :: Brought(w.writes, w.rowBy, k, w.rows[k]) && w.rowBy[k] !in w.pending)
  }

  lemma RowOk(k: Key, mt: ManagedTorrent)
    requires EntryOk(k, mt)
    ensures EntryOk(k, FromRow(ToRow(mt)))
  {}

  /** An entry made from a group of the list is in order when its health is. */
  lemma ListedOk(list: seq<Listing>, k: Key, e: Entry, mt: ManagedTorrent)
    requires k in Grouped(list) && EntryOf(e, Grouped(list)[k])
    requires mt.torrent == e.torrent && mt.rdIds == e.ids && mt.accessKey == k && Healthy(mt)
    ensures EntryOk(k, mt)
  {
    GroupedMeaning(list, k);
    hide Grouped, KeyOf, FirstBest, NoRepeats;
  }

  lemma PutOk(torrents: map<Key, ManagedTorrent>, list: seq<Listing>, d: DiffResult, k: Key)
    requires IsDiff(torrents, list, d)
    requires k in torrents ==> EntryOk(k, torrents[k])
    requires k in WithChanged(WithAdded(torrents, d.added), d.changed)
    ensures EntryOk(k, WithChanged(WithAdded(torrents, d.added), d.changed)[k])
  {
    PutAt(torrents, d, k);
    hide Grouped, EntryOf, KeyOf, NoRepeats, Elements, Differs, WithChanged, WithAdded;
    if k in d.added {
      ListedOk(list, k, d.added[k], NewEntry(k, d.added[k]));
    } else if k in d.changed {
      ListedOk(list, k, d.changed[k], ChangedEntry(torrents[k], k, d.changed[k]));
    }
  }

  lemma PutAt(torrents: map<Key, ManagedTorrent>, d: DiffResult, k: Key)
    ensures var put := WithChanged(WithAdded(torrents, d.added), d.changed);
      && (k in put <==> k in torrents || k in d.added)
      && (k in d.added && k !in d.changed ==> put[k] == NewEntry(k, d.added[k]))
      && (k in d.changed && k in torrents && k !in d.added ==> put[k] == ChangedEntry(torrents[k], k, d.changed[k]))
      && (k in torrents && k !in d.added && k !in d.changed ==> put[k] == torrents[k])
  {
    hide NewEntry, ChangedEntry;
  }

  /** What a batch must be like: in order, the rows of its entries in memory, and complete. */
  ghost predicate Fitting(w: World, memory: map<Key, ManagedTorrent>, batch: Batch) {
    && AllOk(memory) && RowsOk(batch)
    && (forall k | k in memory :: if k in batch then batch[k] == ToRow(memory[k])
                                  else k in w.memory && ToRow(w.memory[k]) == ToRow(memory[k]))
  }

  lemma WroteOk(w: World, memory: map<Key, ManagedTorrent>, batch: Batch)
    requires Inv(w) && Fitting(w, memory, batch)
    ensures Inv(Wrote(w, memory, batch))
    ensures Kept(w) ==> Kept(Wrote(w, memory, batch))
  {
    hide ToRow, RowsOk, AllOk, EntryOk;
    var next := Wrote(w, memory, batch);
    forall k | k in memory ensures Brought(next.writes, next.memBy, k, ToRow(memory[k])) {
      if k !in batch { assert Brought(w.writes, w.memBy, k, ToRow(w.memory[k])); }
    }
    forall k | k in w.rows ensures Brought(next.writes, next.rowBy, k, w.rows[k]) {
      assert Brought(w.writes, w.rowBy, k, w.rows[k]);
    }
  }

  lemma PutFits(w: World, mt: ManagedTorrent)
    requires Inv(w) && EntryOk(mt.accessKey, mt)
    ensures Fitting(w, w.memory[mt.accessKey := mt], map[mt.accessKey := ToRow(mt)])
  {
    RowOk(mt.accessKey, mt);
    hide EntryOk, ToRow, FromRow;
  }

  lemma MergedOk(torrents: map<Key, ManagedTorrent>, list: seq<Listing>, d: DiffResult, k: Key)
    requires AllOk(torrents) && IsDiff(torrents, list, d)
    ensures var memory, batch := Merged(torrents, d), Upserts(torrents, d);
      && (k in batch ==> EntryOk(k, FromRow(batch[k])))
      && (k in memory ==> EntryOk(k, memory[k]))
      && (k in memory && k in batch ==> batch[k] == ToRow(memory[k]))
      && (k in memory && k !in batch ==> k in torrents && memory[k] == torrents[k])
  {
    var put := WithChanged(WithAdded(torrents, d.added), d.changed);
    if k in put {
      PutOk(torrents, list, d, k);
      PutAt(torrents, d, k);
      RowOk(k, put[k]);
    }
    hide AllOk, EntryOk, WithChanged, WithAdded, ToRow, FromRow, IsDiff, SkipsNot;
  }

  lemma RefreshFits(w: World, list: seq<Listing>, d: DiffResult)
    requires Inv(w) && IsDiff(w.memory, list, d)
    ensures Fitting(w, Merged(w.memory, d), Upserts(w.memory, d))
  {
    hide EntryOk, Merged, Upserts, ToRow, FromRow, IsDiff;
    assert AllOk(w.memory);
    forall k { MergedOk(w.memory, list, d, k); }
    hide Inv;
  }

  // ----- Rows and memory -----

  /** The batch that goes with an entry in memory is under way, or is the last that reached its row. */
  ghost predicate KeptAt(w: World, k: Key) {
    k in w.memBy && (w.memBy[k] in w.pending || (k in w.rows && k in w.rowBy && w.rowBy[k] == w.memBy[k]))
  }

  ghost predicate Kept(w: World) { forall k | k in w.memory :: KeptAt(w, k) }

  /** The rows land after they have been overtaken, or a newest row is lost. */
  ghost predicate Spoils(w: World, e: Event)
    requires Enabled(w, e)
  {
    e.Land? && exists k | k in w.writes[e.i] && k in w.memory && k in w.memBy ::
      if e.ok then w.memBy[k] != e.i && w.memBy[k] !in w.pending else w.memBy[k] == e.i
  }

  lemma LandInv(w: World, i: nat, ok: bool)
    requires Inv(w) && i < |w.writes|
    ensures Inv(Landed(w, i, ok))
  {
    hide AllOk, EntryOk, RowsOk, ToRow;
    var next := Landed(w, i, ok);
    forall k | k in next.rows
      ensures Brought(next.writes, next.rowBy, k, next.rows[k]) && next.rowBy[k] !in next.pending
    {
      RowAfter(w, i, ok, k);
    }
  }

  lemma RowAfter(w: World, i: nat, ok: bool, k: Key)
    requires i < |w.writes|
    requires k in w.rows ==> Brought(w.writes, w.rowBy, k, w.rows[k]) && w.rowBy[k] !in w.pending
    requires k in Landed(w, i, ok).rows
    ensures var next := Landed(w, i, ok);
      Brought(next.writes, next.rowBy, k, next.rows[k]) && next.rowBy[k] !in next.pending
  {}

  lemma RestoredOk(w: World)
    requires Inv(w)
    ensures Inv(Restored(w.rows, w.writes, w.rowBy)) && Kept(Restored(w.rows, w.writes, w.rowBy))
  {
    forall k | k in w.rows ensures EntryOk(k, FromRow(w.rows[k])) && ToRow(FromRow(w.rows[k])) == w.rows[k] {
      assert Brought(w.writes, w.rowBy, k, w.rows[k]);
      assert RowsOk(w.writes[w.rowBy[k]]);
    }
    hide EntryOk, ToRow, FromRow, RowsOk;
  }

  lemma ChangeOk(w: World, e: Event)
    requires Inv(w) && Enabled(w, e) && Stores(e)
    ensures var mt := Change(w.held[e.k], e); EntryOk(mt.accessKey, mt)
  {
    assert EntryOk(w.held[e.k].accessKey, w.held[e.k]);
    hide AllOk, RowsOk, Brought;
  }

  lemma PutOnto(w: World, mt: ManagedTorrent)
    requires Inv(w) && EntryOk(mt.accessKey, mt)
    ensures Inv(Put(w, mt)) && (Kept(w) ==> Kept(Put(w, mt)))
  {
    hide Fitting, Inv, Kept, Wrote, EntryOk;
    PutFits(w, mt);
    WroteOk(w, w.memory[mt.accessKey := mt], map[mt.accessKey := ToRow(mt)]);
  }

  lemma LoadOk(w: World, key: Key, info: TorrentInfo)
    requires Inv(w)
    ensures var next := Next(w, LoadInfo(key, info)); Inv(next) && (Kept(w) ==> Kept(next))
  {
    hide RowsOk;
  }

  lemma TakeOk(w: World, key: Key)
    requires Inv(w) && key in w.memory
    ensures var next := Next(w, Take(key)); Inv(next) && (Kept(w) ==> Kept(next))
  {
    hide RowsOk, ToRow, Brought;
  }

  lemma StepInv(w: World, e: Event)
    requires Inv(w) && Enabled(w, e)
    ensures Inv(Next(w, e))
    ensures Kept(w) && !e.Land? ==> Kept(Next(w, e))
  {
    hide Inv, Kept, Fitting, IsDiff, Put, Wrote, Landed, Restored, Merged, Upserts, Change, EntryOk;
    if Stores(e) {
      ChangeOk(w, e);
      PutOnto(w, Change(w.held[e.k], e));
    } else {
      match e
      case Take(key) => TakeOk(w, key);
      case LoadInfo(key, info) => LoadOk(w, key, info);
      case DoRefresh(list, d) =>
        RefreshFits(w, list, d);
        WroteOk(w, Merged(w.memory, d), Upserts(w.memory, d));
      case Land(i, ok) => LandInv(w, i, ok);
      case Restart => RestoredOk(w);
    }
  }

  lemma SpoilParts(w: World, i: nat, ok: bool, k: Key)
    requires Inv(w) && Kept(w) && i in w.pending && i < |w.writes| && k in w.memory && k in w.memBy
    requires k in w.writes[i] && if ok then w.memBy[k] != i && w.memBy[k] !in w.pending else w.memBy[k] == i
    ensures !KeptAt(Landed(w, i, ok), k)
  {
    hide AllOk, RowsOk, ToRow, EntryOk;
    assert KeptAt(w, k);
  }

  lemma LandKeeps(w: World, i: nat, ok: bool, k: Key)
    requires i in w.pending && i < |w.writes| && KeptAt(w, k)
    requires k in w.writes[i] ==> if ok then w.memBy[k] == i || w.memBy[k] in w.pending else w.memBy[k] != i
    requires i == w.memBy[k] ==> k in w.writes[i]
    ensures KeptAt(Landed(w, i, ok), k)
  {}

  /** While entries and rows keep together, a step parts them if and only if an older row lands after the
      newest one of its torrent did, or the newest one is lost. */
  lemma StepKept(w: World, e: Event)
    requires Inv(w) && Kept(w) && Enabled(w, e)
    ensures Kept(Next(w, e)) <==> !Spoils(w, e)
  {
    StepInv(w, e);
    if e.Land? {
      hide AllOk, RowsOk, EntryOk, ToRow, Landed, KeptAt;
      var next := Next(w, e);
      LandIsQuiet(w, e.i, e.ok);
      if Spoils(w, e) {
        var k :| k in w.writes[e.i] && k in w.memory && k in w.memBy
          && if e.ok then w.memBy[k] != e.i && w.memBy[k] !in w.pending else w.memBy[k] == e.i;
        SpoilParts(w, e.i, e.ok, k);
      } else {
        forall k | k in w.memory ensures KeptAt(next, k) {
          assert KeptAt(w, k) && Brought(w.writes, w.memBy, k, ToRow(w.memory[k]));
          LandKeeps(w, e.i, e.ok, k);
        }
      }
    }
  }

  lemma LandIsQuiet(w: World, i: nat, ok: bool)
    requires i < |w.writes|
    ensures Landed(w, i, ok).memory == w.memory
  {}

  ghost predicate Runs(w: World, es: seq<Event>)
    decreases |es|
  {
    es == [] || (Enabled(w, es[0]) && Runs(Next(w, es[0]), es[1..]))
  }

  ghost function Final(w: World, es: seq<Event>): World
    requires Runs(w, es)
    decreases |es|
  {
    if es == [] then w else Final(Next(w, es[0]), es[1..])
  }

  lemma {:induction false} RunInv(w: World, es: seq<Event>)
    requires Inv(w) && Runs(w, es)
    ensures Inv(Final(w, es))
    decreases |es|
  {
    hide Inv, Next, Enabled;
    if es != [] {
      StepInv(w, es[0]);
      RunInv(Next(w, es[0]), es[1..]);
    }
  }

  lemma StartOk(rows: map<Key, Row>)
    requires RowsOk(rows)
    ensures Inv(Start(rows)) && Kept(Start(rows))
  {
    var w := Start(rows).(memory := map[]);
    assert Inv(w);
    hide RowsOk;
    RestoredOk(w);
  }

  lemma HealthAt(w: World, k: Key)
    requires Inv(w)
    ensures k in w.memory ==> EntryOk(k, w.memory[k])
    ensures forall b | b in w.writes && k in b :: EntryOk(k, FromRow(b[k]))
    ensures k in w.rows ==> EntryOk(k, FromRow(w.rows[k]))
  {
    hide EntryOk, ToRow, FromRow;
    if k in w.rows { assert Brought(w.writes, w.rowBy, k, w.rows[k]) && RowsOk(w.writes[w.rowBy[k]]); }
  }

  /** Health in every run from rows that are in order: the clock of a repair is set exactly while a
      torrent is under repair, a reason means it is broken, an id is never listed twice, and all of
      this holds of the rows and of those under way too, so a restart at any time finds it so. */
  lemma HealthInvariant(rows: map<Key, Row>, es: seq<Event>, k: Key)
    requires RowsOk(rows) && Runs(Start(rows), es)
    ensures var w := Final(Start(rows), es);
      && (k in w.memory ==> EntryOk(k, w.memory[k]))
      && (forall b | b in w.writes && k in b :: EntryOk(k, FromRow(b[k])))
      && (k in w.rows ==> EntryOk(k, FromRow(w.rows[k])))
      && (k in Next(w, Restart).memory ==> EntryOk(k, Next(w, Restart).memory[k]))
  {
    StartOk(rows);
    RunInv(Start(rows), es);
    var w := Final(Start(rows), es);
    hide Inv, EntryOk, Final, Runs, Start, RowsOk, FromRow, Next;
    HealthAt(w, k);
    StepInv(w, Restart);
    HealthAt(Next(w, Restart), k);
  }

  /** A row says what memory says if and only if its last writer and memory's wrote the same. */
  lemma RowMirrors(rows: map<Key, Row>, es: seq<Event>, k: Key)
    requires RowsOk(rows) && Runs(Start(rows), es)
    requires var w := Final(Start(rows), es); k in w.memory && k in w.rows
    ensures var w := Final(Start(rows), es);
      && k in w.rowBy && k in w.memBy && w.rowBy[k] < |w.writes| && w.memBy[k] < |w.writes|
      && k in w.writes[w.rowBy[k]] && k in w.writes[w.memBy[k]]
      && (w.rows[k] == ToRow(w.memory[k]) <==> w.writes[w.rowBy[k]][k] == w.writes[w.memBy[k]][k])
  {
    StartOk(rows);
    RunInv(Start(rows), es);
    hide Final, Runs, Start, AllOk, RowsOk, ToRow;
  }

  /** No step of the run parts an entry from its row. */
  ghost predicate Careful(w: World, es: seq<Event>)
    requires Runs(w, es)
    decreases |es|
  {
    es == [] || (!Spoils(w, es[0]) && Careful(Next(w, es[0]), es[1..]))
  }

  lemma {:induction false} CarefulRunKeeps(w: World, es: seq<Event>)
    requires Inv(w) && Kept(w) && Runs(w, es) && Careful(w, es)
    ensures Inv(Final(w, es)) && Kept(Final(w, es))
    decreases |es|
  {
    hide Inv, Kept, Next, Enabled, Spoils;
    if es != [] {
      StepInv(w, es[0]);
      StepKept(w, es[0]);
      CarefulRunKeeps(Next(w, es[0]), es[1..]);
    }
  }

  /** No row of `k` is under way. */
  predicate Quiet(w: World, k: Key) { forall i | i in w.pending && i < |w.writes| :: k !in w.writes[i] }

  lemma RestartAt(w: World, k: Key)
    requires Inv(w) && Kept(w) && k in w.memory && Quiet(w, k)
    ensures var next := Next(w, Restart); k in next.memory && ToRow(next.memory[k]) == ToRow(w.memory[k])
  {
    hide AllOk, RowsOk;
    assert KeptAt(w, k);
    assert Brought(w.writes, w.memBy, k, ToRow(w.memory[k])) && Brought(w.writes, w.rowBy, k, w.rows[k]);
  }

  /** In such a run a restart gives each torrent with no row under way back with the health it had. */
  lemma RestartKeepsHealth(rows: map<Key, Row>, es: seq<Event>, k: Key)
    requires RowsOk(rows) && Runs(Start(rows), es) && Careful(Start(rows), es)
    requires k in Final(Start(rows), es).memory && Quiet(Final(Start(rows), es), k)
    ensures var w := Final(Start(rows), es);
      && k in Next(w, Restart).memory
      && ToRow(Next(w, Restart).memory[k]) == ToRow(w.memory[k])
  {
    hide Inv, Final, Runs, Careful, Start, RowsOk, ToRow, Kept, Next, Quiet;
    StartOk(rows);
    CarefulRunKeeps(Start(rows), es);
    RestartAt(Final(Start(rows), es), k);
  }

  // ----- Rows that land in order -----

  /** The write succeeds, and no older one of its torrents is still under way. */
  ghost predicate Prompt(w: World, e: Event) {
    e.Land? && e.i < |w.writes| ==>
      e.ok && forall k, j | k in w.writes[e.i] && j in w.pending && j < |w.writes| && k in w.writes[j] :: e.i <= j
  }

  ghost predicate Prompts(w: World, es: seq<Event>)
    requires Runs(w, es)
    decreases |es|
  {
    es == [] || (Prompt(w, es[0]) && Prompts(Next(w, es[0]), es[1..]))
  }

  /** What is under way is newer than what has landed, and not newer than memory. */
  ghost predicate InOrder(w: World) {
    forall i, k | i in w.pending && i < |w.writes| && k in w.writes[i] ::
      && (k in w.memory && k in w.memBy ==> i <= w.memBy[k])
      && (k in w.rows && k in w.rowBy ==> w.rowBy[k] < i)
  }

  lemma WroteInOrder(w: World, memory: map<Key, ManagedTorrent>, batch: Batch)
    requires Inv(w) && InOrder(w) && forall k | k in memory && k !in batch :: k in w.memory
    ensures InOrder(Wrote(w, memory, batch))
  {
    hide AllOk, RowsOk, ToRow;
    var next := Wrote(w, memory, batch);
    forall i, k | i in next.pending && i < |next.writes| && k in next.writes[i]
      ensures k in next.memory && k in next.memBy ==> i <= next.memBy[k]
      ensures k in next.rows && k in next.rowBy ==> next.rowBy[k] < i
    {
      if k in w.rows { assert Brought(w.writes, w.rowBy, k, w.rows[k]); }
    }
  }

  lemma LandedInOrder(w: World, i: nat)
    requires InOrder(w) && i in w.pending && i < |w.writes| && Prompt(w, Land(i, true))
    ensures InOrder(Landed(w, i, true))
  {}

  lemma StepInOrder(w: World, e: Event)
    requires Inv(w) && InOrder(w) && Enabled(w, e) && Prompt(w, e)
    ensures InOrder(Next(w, e))
  {
    hide Inv, IsDiff, Wrote, Landed, Change, EntryOk, Prompt;
    if Stores(e) {
      var mt := Change(w.held[e.k], e);
      WroteInOrder(w, w.memory[mt.accessKey := mt], map[mt.accessKey := ToRow(mt)]);
    } else if e.DoRefresh? {
      RefreshFits(w, e.list, e.d);
      hide Merged, Upserts;
      WroteInOrder(w, Merged(w.memory, e.d), Upserts(w.memory, e.d));
    } else if e.Land? {
      PromptLands(w, e);
      LandedInOrder(w, e.i);
    }
  }

  lemma PromptLands(w: World, e: Event)
    requires e.Land? && e.i < |w.writes| && Prompt(w, e)
    ensures e == Land(e.i, true)
  {}

  lemma PromptIsCareful(w: World, e: Event)
    requires Inv(w) && Kept(w) && InOrder(w) && Enabled(w, e) && Prompt(w, e)
    ensures !Spoils(w, e)
  {
    hide AllOk, RowsOk, ToRow, EntryOk;
    if e.Land? {
      forall k | k in w.writes[e.i] && k in w.memory && k in w.memBy
        ensures w.memBy[k] == e.i || w.memBy[k] in w.pending
      {
        assert KeptAt(w, k);
      }
    }
  }

  /** When every write succeeds and the rows of a torrent land in the order they were made, nothing is
      parted: the run is careful. */
  lemma {:induction false} PromptRunIsCareful(w: World, es: seq<Event>)
    requires Inv(w) && Kept(w) && InOrder(w) && Runs(w, es) && Prompts(w, es)
    ensures Careful(w, es)
    decreases |es|
  {
    hide Inv, Kept, InOrder, Next, Enabled, Spoils, Prompt;
    if es != [] {
      PromptIsCareful(w, es[0]);
      StepInv(w, es[0]);
      StepKept(w, es[0]);
      StepInOrder(w, es[0]);
      PromptRunIsCareful(Next(w, es[0]), es[1..]);
    }
  }

  // ----- A run that loses health -----

  const FILM_KEY := "h/film"

  const FILM_ROW := Row(FILM_KEY, ["a"], "h", "film", TorrentState.Ok, None, None, None, None)

  const REVERSED := [
    Take(FILM_KEY), SetState(0, Broken, None, 1),
    Take(FILM_KEY), SetState(1, TorrentState.Ok, None, 2),
    Land(2, true), Land(1, true)]

  lemma Onward(w: World, e: Event, es: seq<Event>)
    requires Enabled(w, e) && Runs(Next(w, e), es)
    ensures Runs(w, [e] + es) && Final(w, [e] + es) == Final(Next(w, e), es)
  {
    hide Enabled, Next;
    assert ([e] + es)[1..] == es;
  }

  /** Both have stored their entry, and both rows are under way. */
  ghost predicate TwoUnderWay(w: World) {
    && w.pending == {1, 2} && |w.writes| == 3
    && FILM_KEY in w.memory && w.memory[FILM_KEY].state == TorrentState.Ok
    && FILM_KEY in w.writes[1] && w.writes[1][FILM_KEY].state == Broken
  }

  lemma PutShows(w: World, mt: ManagedTorrent)
    ensures var next, n := Put(w, mt), |w.writes|;
      && next.writes == w.writes + [map[mt.accessKey := ToRow(mt)]] && next.pending == w.pending + {n}
      && next.memory == w.memory[mt.accessKey := mt] && next.held == w.held
  {}

  lemma StoreTwice() returns (w1: World, w2: World, w3: World, w4: World)
    ensures var w0 := Start(map[FILM_KEY := FILM_ROW]);
      && Enabled(w0, REVERSED[0]) && w1 == Next(w0, REVERSED[0])
      && Enabled(w1, REVERSED[1]) && w2 == Next(w1, REVERSED[1])
    ensures Enabled(w2, REVERSED[2]) && w3 == Next(w2, REVERSED[2])
    ensures Enabled(w3, REVERSED[3]) && w4 == Next(w3, REVERSED[3]) && TwoUnderWay(w4)
  {
    var w0 := Start(map[FILM_KEY := FILM_ROW]);
    var mt := FromRow(FILM_ROW);
    var broken := InState(mt, Broken, None, 1);
    var fine := InState(broken, TorrentState.Ok, None, 2);
    hide Put, IsDiff;
    w1 := w0.(held := [mt]);
    w2 := Put(w1, broken);
    PutShows(w1, broken);
    w3 := w2.(held := [mt, broken]);
    w4 := Put(w3, fine);
    PutShows(w3, fine);
    assert w2.writes[1] == map[FILM_KEY := ToRow(broken)] && w4.writes[1] == w2.writes[1];
  }

  lemma LandInReverse(w: World)
    requires TwoUnderWay(w)
    ensures Enabled(w, REVERSED[4]) && Enabled(Next(w, REVERSED[4]), REVERSED[5])
    ensures var end := Next(Next(w, REVERSED[4]), REVERSED[5]);
      && end.pending == {} && FILM_KEY in end.memory && end.memory[FILM_KEY].state == TorrentState.Ok
      && FILM_KEY in Next(end, Restart).memory && Next(end, Restart).memory[FILM_KEY].state == Broken
  {
  }

  /** One thread finds the torrent broken, another then says it is fine; the second row lands first.
      Every write succeeds and none is left under way, and a restart brings back the broken torrent. */
  lemma LateRowUndoesHealth()
    ensures RowsOk(map[FILM_KEY := FILM_ROW])
    ensures var w := Start(map[FILM_KEY := FILM_ROW]);
      && Runs(w, REVERSED)
      && var end := Final(w, REVERSED);
         && end.pending == {} && FILM_KEY in end.memory && end.memory[FILM_KEY].state == TorrentState.Ok
         && FILM_KEY in Next(end, Restart).memory && Next(end, Restart).memory[FILM_KEY].state == Broken
  {
    assert KeyOf(FromRow(FILM_ROW).torrent) == FILM_KEY;
    var w1, w2, w3, w4 := StoreTwice();
    LandInReverse(w4);
    hide Enabled, Next, Runs, Final, TwoUnderWay;
    Reverses(Start(map[FILM_KEY := FILM_ROW]), w1, w2, w3, w4, Next(w4, REVERSED[4]));
  }

  lemma Reverses(w0: World, w1: World, w2: World, w3: World, w4: World, w5: World)
    requires Enabled(w0, REVERSED[0]) && Next(w0, REVERSED[0]) == w1
    requires Enabled(w1, REVERSED[1]) && Next(w1, REVERSED[1]) == w2
    requires Enabled(w2, REVERSED[2]) && Next(w2, REVERSED[2]) == w3
    requires Enabled(w3, REVERSED[3]) && Next(w3, REVERSED[3]) == w4
    requires Enabled(w4, REVERSED[4]) && Next(w4, REVERSED[4]) == w5
    requires Enabled(w5, REVERSED[5])
    ensures Runs(w0, REVERSED) && Final(w0, REVERSED) == Next(w5, REVERSED[5])
  {
    hide Enabled, Next;
    var es := REVERSED;
    Onward(w5, es[5], []);
    Onward(w4, es[4], [es[5]]);
    Onward(w3, es[3], [es[4]] + [es[5]]);
    Onward(w2, es[2], [es[3]] + ([es[4]] + [es[5]]));
    Onward(w1, es[1], [es[2]] + ([es[3]] + ([es[4]] + [es[5]])));
    Onward(w0, es[0], [es[1]] + ([es[2]] + ([es[3]] + ([es[4]] + [es[5]]))));
    assert es == [es[0]] + ([es[1]] + ([es[2]] + ([es[3]] + ([es[4]] + [es[5]]))));
  }

  // ----- Refreshes -----

  /** In every run, a refresh gives a listed torrent exactly its group's ids, once each. */
  lemma RefreshInRun(rows: map<Key, Row>, es: seq<Event>, list: seq<Listing>, d: DiffResult, k: Key)
    requires RowsOk(rows) && Runs(Start(rows), es)
    ensures var memory := Final(Start(rows), es).memory;
      IsDiff(memory, list, d) && k in Grouped(list) ==>
        k in Merged(memory, d) && Enumerates(Merged(memory, d)[k].rdIds, Grouped(list)[k].ids)
  {
    HealthInvariant(rows, es, k);
    var memory := Final(Start(rows), es).memory;
    hide Final, Runs, Start;
    if IsDiff(memory, list, d) && k in Grouped(list) {
      Convergence.IdsConverge(memory, list, d, k);
    }
  }
}
