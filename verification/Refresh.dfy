/** The refresh: compare the registry with a fresh remote list and move it there, leaving torrents
    that are being repaired alone. */
module Refresh {
  import opened Wrappers
  import opened Lists
  import opened Torrents
  import opened Registry

  /** All remote entries of one access key: the first of the most advanced ones, and every id. */
  datatype Group = Group(best: Listing, ids: set<Id>)

  function Joined(groups: map<Key, Group>, t: Listing): map<Key, Group> {
    var key := KeyOf(t);
    if key in groups then
      var g := groups[key];
      groups[key := Group(if t.progress > g.best.progress then t else g.best, g.ids + {t.id})]
    else groups[key := Group(t, {t.id})]
  }

  function Grouped(list: seq<Listing>): map<Key, Group> {
    if list == [] then map[] else Joined(Grouped(list[..|list| - 1]), list[|list| - 1])
  }

  /** `i` is the first among the entries of its key with the most progress. */
  predicate FirstBest(list: seq<Listing>, i: nat)
    requires i < |list|
  {
    forall j | 0 <= j < |list| && KeyOf(list[j]) == KeyOf(list[i]) ::
      if j < i then list[j].progress < list[i].progress else list[j].progress <= list[i].progress
  }

  ghost predicate IsGroup(list: seq<Listing>, key: Key, g: Group) {
    && (forall id :: id in g.ids <==> exists i :: 0 <= i < |list| && KeyOf(list[i]) == key && list[i].id == id)
    && exists i :: 0 <= i < |list| && KeyOf(list[i]) == key && list[i] == g.best && FirstBest(list, i)
  }

  ghost predicate HasKey(list: seq<Listing>, key: Key) { exists i :: 0 <= i < |list| && KeyOf(list[i]) == key }

  /** What grouping means, without the fold: one group for each key in the list, holding exactly the
      ids listed under it and the first of its most advanced entries. */
  lemma {:induction false} GroupedMeaning(list: seq<Listing>, key: Key)
    ensures key in Grouped(list) <==> HasKey(list, key)
    ensures key in Grouped(list) ==> IsGroup(list, key, Grouped(list)[key])
  {
    hide AccessKey;
    if list != [] {
      var init, t := list[..|list| - 1], list[|list| - 1];
      GroupedMeaning(init, key);
      if HasKey(init, key) {
        hide FirstBest, IsGroup;
        var i :| 0 <= i < |init| && KeyOf(init[i]) == key;
        assert KeyOf(list[i]) == key;
        GroupOfLonger(list, key, Grouped(init)[key]);
      } else if KeyOf(t) == key {
        assert KeyOf(list[|init|]) == key;
        NewGroup(list);
      } else if i :| 0 <= i < |list| && KeyOf(list[i]) == key {
        assert KeyOf(init[i]) == key;
      }
    }
  }

  lemma NewGroup(list: seq<Listing>)
    requires list != [] && !HasKey(list[..|list| - 1], KeyOf(list[|list| - 1]))
    ensures var t := list[|list| - 1]; IsGroup(list, KeyOf(t), Group(t, {t.id}))
  {
    hide AccessKey;
    var init, t := list[..|list| - 1], list[|list| - 1];
    assert forall i | 0 <= i < |list| - 1 :: init[i] == list[i] && KeyOf(init[i]) != KeyOf(t);
    assert KeyOf(list[|init|]) == KeyOf(t) && list[|init|].id == t.id && FirstBest(list, |init|);
  }

  lemma {:induction false} GroupsAreFewer(list: seq<Listing>)
    ensures |Grouped(list)| <= |list|
  {
    hide KeyOf;
    if list != [] {
      GroupsAreFewer(list[..|list| - 1]);
      var key := KeyOf(list[|list| - 1]);
      assert Grouped(list).Keys == Grouped(list[..|list| - 1]).Keys + {key};
    }
  }

  lemma GroupOfLonger(list: seq<Listing>, key: Key, g: Group)
    requires list != [] && IsGroup(list[..|list| - 1], key, g)
    ensures var t := list[|list| - 1];
      IsGroup(list, key,
              if KeyOf(t) == key then Group(if t.progress > g.best.progress then t else g.best, g.ids + {t.id}) else g)
  {
    hide AccessKey;
    var init, t := list[..|list| - 1], list[|list| - 1];
    var h := if KeyOf(t) == key then Group(if t.progress > g.best.progress then t else g.best, g.ids + {t.id}) else g;
    forall id ensures id in h.ids <==> exists i :: 0 <= i < |list| && KeyOf(list[i]) == key && list[i].id == id {
      if id in g.ids {
        var i :| 0 <= i < |init| && KeyOf(init[i]) == key && init[i].id == id;
        assert KeyOf(list[i]) == key && list[i].id == id;
      } else if id in h.ids {
        assert KeyOf(list[|init|]) == key && list[|init|].id == id;
      }
      if i :| 0 <= i < |list| && KeyOf(list[i]) == key && list[i].id == id && i < |init| {
        assert KeyOf(init[i]) == key && init[i].id == id;
      }
    }
    var i :| 0 <= i < |init| && KeyOf(init[i]) == key && init[i] == g.best && FirstBest(init, i);
    assert forall j | 0 <= j < |init| :: init[j] == list[j];
    var best := if KeyOf(t) == key && t.progress > g.best.progress then |init| else i;
    assert FirstBest(list, best) && list[best] == h.best && KeyOf(list[best]) == key;
  }

  // ----- The diff -----

  function Elements(ids: seq<Id>): set<Id> { set id | id in ids }

  predicate Enumerates(ids: seq<Id>, s: set<Id>) { Elements(ids) == s && NoRepeats(ids) && |ids| == |s| }

  /** The comparison of ids: same count, and none that is not listed. */
  predicate IdsChanged(ids: seq<Id>, listed: set<Id>) { |ids| != |listed| || exists id | id in ids :: id !in listed }

  predicate Differs(mt: ManagedTorrent, g: Group) {
    || g.best.status != mt.torrent.status
    || g.best.progress != mt.torrent.progress
    || IdsChanged(mt.rdIds, g.ids)
  }

  datatype Entry = Entry(torrent: Listing, ids: seq<Id>)

  /** The order of the lists, which comes from hash iteration, is not kept. */
  datatype DiffResult = DiffResult(added: map<Key, Entry>, removed: set<Key>, changed: map<Key, Entry>, duplicates: int)

  ghost predicate EntryOf(e: Entry, g: Group) { e.torrent == g.best && Enumerates(e.ids, g.ids) }

  ghost predicate IsDiff(current: map<Key, ManagedTorrent>, list: seq<Listing>, d: DiffResult) {
    var groups := Grouped(list);
    && d.added.Keys == groups.Keys - current.Keys
    && d.removed == current.Keys - groups.Keys
    && (forall k :: k in d.changed <==> k in groups && k in current && Differs(current[k], groups[k]))
    && (forall k | k in d.added :: EntryOf(d.added[k], groups[k]))
    && (forall k | k in d.changed :: EntryOf(d.changed[k], groups[k]))
    && d.duplicates == |list| - |groups|
  }

  method IdVector(s: set<Id>) returns (ids: seq<Id>)
    ensures Enumerates(ids, s)
  {
    ids := [];
    var todo := s;
    while todo != {}
      invariant Elements(ids) !! todo && Elements(ids) + todo == s
      invariant NoRepeats(ids) && |ids| + |todo| == |s|
    {
      var id :| id in todo;
      todo := todo - {id};
      assert Elements(ids + [id]) == Elements(ids) + {id};
      assert forall i | 0 <= i < |ids| :: ids[i] in Elements(ids);
      ids := ids + [id];
    }
  }

  method Diff(current: map<Key, ManagedTorrent>, list: seq<Listing>) returns (d: DiffResult)
    ensures IsDiff(current, list, d) && d.duplicates >= 0
  {
    var groups := GroupAll(list);
    GroupsAreFewer(list);
    hide Grouped, Differs, EntryOf;
    var added := Entries(groups, groups.Keys - current.Keys);
    var differing := Differing(groups, current);
    var changed := Entries(groups, differing);
    d := DiffResult(added, current.Keys - groups.Keys, changed, |list| - |groups|);
  }

  method GroupAll(list: seq<Listing>) returns (groups: map<Key, Group>)
    ensures groups == Grouped(list)
  {
    groups := map[];
    for i := 0 to |list|
      invariant groups == Grouped(list[..i])
    {
      assert list[..i + 1][..i] == list[..i];
      hide KeyOf;
      var t := list[i];
      var key := KeyOf(t);
      if key in groups {
        var g := groups[key];
        var best := if g.best.progress < t.progress then t else g.best;
        groups := groups[key := Group(best, g.ids + {t.id})];
      } else {
        groups := groups[key := Group(t, {t.id})];
      }
    }
    assert list[..|list|] == list;
  }

  method Differing(groups: map<Key, Group>, current: map<Key, ManagedTorrent>) returns (differing: set<Key>)
    ensures forall k :: k in differing <==> k in groups && k in current && Differs(current[k], groups[k])
  {
    differing := {};
    var todo := groups.Keys * current.Keys;
    while todo != {}
      invariant todo <= groups.Keys * current.Keys
      invariant forall k :: k in differing <==>
        k in groups && k in current && k !in todo && Differs(current[k], groups[k])
    {
      var k :| k in todo;
      var best, mt := groups[k].best, current[k];
      var idsChanged := |mt.rdIds| != |groups[k].ids| || exists id | id in mt.rdIds :: id !in groups[k].ids;
      if best.status != mt.torrent.status || best.progress != mt.torrent.progress || idsChanged {
        differing := differing + {k};
      }
      todo := todo - {k};
    }
  }

  /** The listing and the ids of each of `keys`. */
  method Entries(groups: map<Key, Group>, keys: set<Key>) returns (es: map<Key, Entry>)
    requires keys <= groups.Keys
    ensures es.Keys == keys
    ensures forall k | k in es :: EntryOf(es[k], groups[k])
  {
    hide Enumerates;
    es := map[];
    var todo := keys;
    while todo != {}
      invariant todo <= keys && es.Keys == keys - todo
      invariant forall k | k in es :: EntryOf(es[k], groups[k])
    {
      var k :| k in todo;
      var ids := IdVector(groups[k].ids);
      es := es[k := Entry(groups[k].best, ids)];
      todo := todo - {k};
    }
  }

  // ----- Applying it -----

  function NewEntry(key: Key, e: Entry): ManagedTorrent {
    ManagedTorrent(key, e.ids, e.torrent, None, TorrentState.Ok, None, None, None, None)
  }

  /** The list snapshot and the ids are replaced, health is kept; new ids make the detail stale. */
  function ChangedEntry(mt: ManagedTorrent, key: Key, e: Entry): ManagedTorrent {
    mt.(accessKey := key, rdIds := e.ids, torrent := e.torrent,
    info := if |mt.rdIds| != |e.ids| || Elements(mt.rdIds) != Elements(e.ids) then None else mt.info)
  }

  predicate SkipLocalRemove(state: TorrentState) { state.UnderRepair? }

  predicate BelongsToUnderRepair(torrents: map<Key, ManagedTorrent>, id: Id) {
    exists k | k in torrents :: torrents[k].state.UnderRepair? && id in torrents[k].rdIds
  }

  function WithAdded(torrents: map<Key, ManagedTorrent>, added: map<Key, Entry>): map<Key, ManagedTorrent> {
    torrents + (map k | k in added :: NewEntry(k, added[k]))
  }

  function WithChanged(torrents: map<Key, ManagedTorrent>, changed: map<Key, Entry>): map<Key, ManagedTorrent> {
    torrents + (map k | k in changed && k in torrents :: ChangedEntry(torrents[k], k, changed[k]))
  }

  /** Entries under repair stay. */
  function WithoutRemoved(torrents: map<Key, ManagedTorrent>, removed: set<Key>): map<Key, ManagedTorrent> {
    torrents - (set k | k in removed && k in torrents && SkipsNot(torrents[k]))
  }

  function Merged(torrents: map<Key, ManagedTorrent>, d: DiffResult): map<Key, ManagedTorrent> {
    WithoutRemoved(WithChanged(WithAdded(torrents, d.added), d.changed), d.removed)
  }

  predicate SkipsNot(mt: ManagedTorrent) { !SkipLocalRemove(mt.state) }

  /** The rows of what was added and changed, as one batch. */
  function Upserts(torrents: map<Key, ManagedTorrent>, d: DiffResult): map<Key, Row> {
    var put := WithChanged(WithAdded(torrents, d.added), d.changed);
    map k | k in d.added.Keys + d.changed.Keys && k in put :: ToRow(put[k])
  }

  function Applied(r: Registry, d: DiffResult, dbOk: bool): Registry {
    Registry(Merged(r.torrents, d), if dbOk then r.rows + Upserts(r.torrents, d) else r.rows)
  }

  predicate Errored(t: Listing) { t.status in ["error", "magnet_error", "virus", "dead"] }

  /** An errored entry, when such are to be deleted, and not one of a torrent under repair. */
  function ErrorGoes(torrents: map<Key, ManagedTorrent>, deleteErrors: bool): Listing -> bool {
    t => deleteErrors && Errored(t) && !BelongsToUnderRepair(torrents, t.id)
  }

  /** A download that makes no progress, and not one of a torrent under repair; `stalled` judges by age. */
  function StalledGoes(torrents: map<Key, ManagedTorrent>, stalled: Listing -> bool): Listing -> bool {
    t => !Errored(t) && t.status == "downloading" && stalled(t) && !BelongsToUnderRepair(torrents, t.id)
  }

  function NotErrored(): Listing -> bool { t => !Errored(t) }

  function IdsOf(list: seq<Listing>): (r: seq<Id>)
    ensures |r| == |list| && forall i | 0 <= i < |r| :: r[i] == list[i].id
  {
    seq(|list|, i requires 0 <= i < |list| => list[i].id)
  }

  /** What a refresh asks the remote side to delete: errored entries first, then stalled downloads. */
  ghost function Deletions(torrents: map<Key, ManagedTorrent>, all: seq<Listing>, deleteErrors: bool,
                           stalled: Listing -> bool): seq<Id>
  {
    IdsOf(Filtered(all, ErrorGoes(torrents, deleteErrors)))
    + IdsOf(Filtered(all, StalledGoes(torrents, stalled)))
  }

  /** An id is asked for exactly when it stands in the list, errored or stalled, and no torrent under repair
      has it. */
  lemma DeletionsAreExact(torrents: map<Key, ManagedTorrent>, all: seq<Listing>, deleteErrors: bool,
                          stalled: Listing -> bool, id: Id)
    ensures id in Deletions(torrents, all, deleteErrors, stalled) <==>
      && !BelongsToUnderRepair(torrents, id)
      && exists t | t in all ::
           t.id == id && if Errored(t) then deleteErrors else t.status == "downloading" && stalled(t)
  {
    var errored := Filtered(all, ErrorGoes(torrents, deleteErrors));
    var late := Filtered(all, StalledGoes(torrents, stalled));
    hide BelongsToUnderRepair, Errored, Filtered;
    if id in IdsOf(errored) {
      var i :| 0 <= i < |errored| && IdsOf(errored)[i] == id;
      assert errored[i] in errored;
    } else if id in IdsOf(late) {
      var i :| 0 <= i < |late| && IdsOf(late)[i] == id;
      assert late[i] in late;
    }
    if t :| t in all && t.id == id && (if Errored(t) then deleteErrors else t.status == "downloading" && stalled(t))
            && !BelongsToUnderRepair(torrents, id) {
      if Errored(t) {
        assert t in errored;
        var i :| 0 <= i < |errored| && errored[i] == t;
        assert IdsOf(errored)[i] == id;
      } else {
        assert t in late;
        var i :| 0 <= i < |late| && late[i] == t;
        assert IdsOf(late)[i] == id;
      }
    }
  }

  method IsErrored(t: Listing) returns (r: bool)
    ensures r == Errored(t)
  {
    r := t.status == "error" || t.status == "magnet_error" || t.status == "virus" || t.status == "dead";
  }

  method OnlyUsable(all: seq<Listing>) returns (usable: seq<Listing>)
    ensures usable == Filtered(all, NotErrored())
  {
    usable := [];
    for i := 0 to |all|
      invariant usable == Filtered(all[..i], NotErrored())
    {
      assert all[..i + 1][..i] == all[..i];
      var errored := IsErrored(all[i]);
      if !errored { usable := usable + [all[i]]; }
    }
    assert all[..|all|] == all;
  }

  method RdIdBelongsToUnderRepair(mgr: TorrentManager, id: Id) returns (r: bool)
    ensures r == BelongsToUnderRepair(mgr.torrents, id)
  {
    var todo := mgr.torrents.Keys;
    while todo != {}
      invariant todo <= mgr.torrents.Keys
      invariant forall k | k in mgr.torrents && k !in todo ::
        !(mgr.torrents[k].state.UnderRepair? && id in mgr.torrents[k].rdIds)
    {
      var k :| k in todo;
      if mgr.torrents[k].state == UnderRepair && id in mgr.torrents[k].rdIds { return true; }
      todo := todo - {k};
    }
    return false;
  }

  method DeleteErrored(mgr: TorrentManager, all: seq<Listing>, deleteErrors: bool) returns (asked: seq<Id>)
    ensures asked == IdsOf(Filtered(all, ErrorGoes(mgr.torrents, deleteErrors)))
  {
    hide BelongsToUnderRepair, Errored;
    asked := [];
    for i := 0 to |all|
      invariant asked == IdsOf(Filtered(all[..i], ErrorGoes(mgr.torrents, deleteErrors)))
    {
      assert all[..i + 1][..i] == all[..i];
      var errored := IsErrored(all[i]);
      var busy := RdIdBelongsToUnderRepair(mgr, all[i].id);
      if errored && deleteErrors && !busy { asked := asked + [all[i].id]; }
    }
    assert all[..|all|] == all;
  }

  method DeleteStalled(mgr: TorrentManager, all: seq<Listing>, stalled: Listing -> bool) returns (asked: seq<Id>)
    ensures asked == IdsOf(Filtered(all, StalledGoes(mgr.torrents, stalled)))
  {
    hide BelongsToUnderRepair, Errored;
    asked := [];
    for i := 0 to |all|
      invariant asked == IdsOf(Filtered(all[..i], StalledGoes(mgr.torrents, stalled)))
    {
      assert all[..i + 1][..i] == all[..i];
      var errored := IsErrored(all[i]);
      if !errored && all[i].status == "downloading" && stalled(all[i]) {
        var busy := RdIdBelongsToUnderRepair(mgr, all[i].id);
        if !busy { asked := asked + [all[i].id]; }
      }
    }
    assert all[..|all|] == all;
  }

  /** One refresh. Returns the ids it asked the remote side to delete. */
  method RunOnce(mgr: TorrentManager, all: seq<Listing>, deleteErrors: bool, stalled: Listing -> bool, dbOk: bool)
    returns (asked: seq<Id>, ghost d: DiffResult)
    modifies mgr
    ensures IsDiff(old(mgr.torrents), Filtered(all, NotErrored()), d)
    ensures mgr.View() == Applied(old(mgr.View()), d, dbOk)
    ensures asked == Deletions(old(mgr.torrents), all, deleteErrors, stalled)
  {
    hide IsDiff, Applied, ErrorGoes, StalledGoes, Errored, Filtered;
    var usable := OnlyUsable(all);
    var errored := DeleteErrored(mgr, all, deleteErrors);
    var late := DeleteStalled(mgr, all, stalled);
    asked := errored + late;
    var diff := Diff(mgr.torrents, usable);
    d := diff;
    Apply(mgr, diff, usable, dbOk);
  }

  method Apply(mgr: TorrentManager, d: DiffResult, ghost list: seq<Listing>, dbOk: bool)
    requires IsDiff(mgr.torrents, list, d)
    modifies mgr
    ensures mgr.View() == Applied(old(mgr.View()), d, dbOk)
  {
    hide Grouped, EntryOf, Differs, NewEntry, ChangedEntry, ToRow;
    ghost var before := mgr.torrents;
    Add(mgr, d.added);
    Change(mgr, d.changed);
    var rows := RowsOf(mgr.torrents, d.added.Keys + d.changed.Keys);
    Remove(mgr, d.removed);
    if dbOk { mgr.rows := mgr.rows + rows; }
  }

  method RowsOf(torrents: map<Key, ManagedTorrent>, keys: set<Key>) returns (rows: map<Key, Row>)
    requires keys <= torrents.Keys
    ensures rows == map k | k in keys && k in torrents :: ToRow(torrents[k])
  {
    rows := map k | k in keys && k in torrents :: ToRow(torrents[k]);
  }

  method Add(mgr: TorrentManager, added: map<Key, Entry>)
    modifies mgr`torrents
    ensures mgr.torrents == WithAdded(old(mgr.torrents), added)
  {
    var todo := added.Keys;
    while todo != {}
      invariant todo <= added.Keys
      invariant mgr.torrents == old(mgr.torrents) + (map k | k in added.Keys - todo :: NewEntry(k, added[k]))
    {
      var k :| k in todo;
      mgr.torrents := mgr.torrents[k :=
        ManagedTorrent(k, added[k].ids, added[k].torrent, None, TorrentState.Ok, None, None, None, None)];
      todo := todo - {k};
    }
  }

  method Change(mgr: TorrentManager, changed: map<Key, Entry>)
    requires changed.Keys <= mgr.torrents.Keys
    modifies mgr`torrents
    ensures mgr.torrents == WithChanged(old(mgr.torrents), changed)
  {
    hide ChangedEntry;
    ghost var before := mgr.torrents;
    var todo := changed.Keys;
    while todo != {}
      invariant todo <= changed.Keys
      invariant mgr.torrents == before + (map k | k in changed.Keys - todo :: ChangedEntry(before[k], k, changed[k]))
    {
      var k :| k in todo;
      var updated := Update(mgr.torrents[k], k, changed[k]);
      mgr.torrents := mgr.torrents[k := updated];
      todo := todo - {k};
    }
  }

  /** New ids, in whatever order, make the detail stale. */
  method Update(existing: ManagedTorrent, k: Key, e: Entry) returns (updated: ManagedTorrent)
    ensures updated == ChangedEntry(existing, k, e)
  {
    var idsChanged := |existing.rdIds| != |e.ids|
      || (exists id | id in e.ids :: id !in existing.rdIds)
      || (exists id | id in existing.rdIds :: id !in e.ids);
    assert idsChanged <==> |existing.rdIds| != |e.ids| || Elements(existing.rdIds) != Elements(e.ids) by {
      assert forall id :: id in Elements(e.ids) <==> id in e.ids;
      assert forall id :: id in Elements(existing.rdIds) <==> id in existing.rdIds;
    }
    updated := ManagedTorrent(
      k, e.ids, e.torrent, if idsChanged then None else existing.info, existing.state, existing.unrepairable,
      existing.lastRepairedAt, existing.fileStates, existing.startedAt);
  }

  method Remove(mgr: TorrentManager, removed: set<Key>)
    modifies mgr`torrents
    ensures mgr.torrents == WithoutRemoved(old(mgr.torrents), removed)
  {
    ghost var before := mgr.torrents;
    var todo := removed;
    while todo != {}
      invariant todo <= removed
      invariant mgr.torrents == before - (set k | k in removed - todo && k in before && SkipsNot(before[k]))
    {
      var k :| k in todo;
      if k !in mgr.torrents || mgr.torrents[k].state != UnderRepair {
        mgr.torrents := mgr.torrents - {k};
      }
      todo := todo - {k};
    }
  }
}
