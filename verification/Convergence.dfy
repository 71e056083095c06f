/** What a refresh achieves: the registry agrees with the remote list, and asking again changes nothing. */
module Convergence {
  import opened Lists
  import opened Torrents
  import opened Refresh

  /** One key after the diff is applied. */
  lemma MergedAt(torrents: map<Key, ManagedTorrent>, list: seq<Listing>, d: DiffResult, k: Key)
    requires IsDiff(torrents, list, d)
    ensures var m, groups := Merged(torrents, d), Grouped(list);
      && (k in m <==> k in groups || (k in torrents && torrents[k].state.UnderRepair?))
      && (k in groups && k !in torrents ==> k in d.added && m[k] == NewEntry(k, d.added[k]))
      && (k in groups && k in torrents && Differs(torrents[k], groups[k]) ==>
            k in d.changed && m[k] == ChangedEntry(torrents[k], k, d.changed[k]))
      && (k in groups && k in torrents && !Differs(torrents[k], groups[k]) ==> m[k] == torrents[k])
      && (k !in groups && k in m ==> m[k] == torrents[k])
  {
    hide Grouped, Differs, EntryOf, NewEntry, ChangedEntry;
    var added := WithAdded(torrents, d.added);
    AddedAt(torrents, d, k);
    hide WithAdded;
    ChangedAt(added, d, k);
    hide WithChanged;
  }

  lemma AddedAt(torrents: map<Key, ManagedTorrent>, d: DiffResult, k: Key)
    ensures var m := WithAdded(torrents, d.added);
      && (k in m <==> k in torrents || k in d.added)
      && (k in m ==> m[k] == if k in d.added then NewEntry(k, d.added[k]) else torrents[k])
  {
    hide NewEntry;
  }

  lemma ChangedAt(torrents: map<Key, ManagedTorrent>, d: DiffResult, k: Key)
    ensures var m := WithChanged(torrents, d.changed);
      && (k in m <==> k in torrents)
      && (k in m ==> m[k] == if k in d.changed then ChangedEntry(torrents[k], k, d.changed[k]) else torrents[k])
  {
    hide ChangedEntry;
  }

  // ----- Ids -----

  lemma {:induction false} ElementsCount(ids: seq<Id>)
    ensures |Elements(ids)| <= |ids|
    ensures |Elements(ids)| == |ids| <==> NoRepeats(ids)
  {
    if ids != [] {
      var init, last := ids[..|ids| - 1], ids[|ids| - 1];
      ElementsCount(init);
      assert ids == init + [last];
      assert Elements(ids) == Elements(init) + {last};
      if last in Elements(init) {
        var i :| 0 <= i < |init| && init[i] == last;
        assert ids[i] == ids[|init|];
      } else if NoRepeats(init) {
        forall i, j | 0 <= i < j < |ids| ensures ids[i] != ids[j] {
          assert ids[i] == init[i] && init[i] in Elements(init);
        }
      } else {
        var i, j :| 0 <= i < j < |init| && init[i] == init[j];
        assert ids[i] == ids[j];
      }
    }
  }

  lemma SubsetOfSameSize(a: set<Id>, b: set<Id>)
    requires a <= b && |a| == |b|
    ensures a == b
  {
    assert b == a + (b - a);
    assert |b - a| == 0;
  }

  /** The comparison by count and membership sees every change of ids, unless an entry lists the same
      id twice: then, and only then, it can take a wrong list for the right one. */
  lemma IdsComparisonIsExact(ids: seq<Id>, listed: set<Id>)
    requires !IdsChanged(ids, listed)
    ensures Elements(ids) == listed <==> NoRepeats(ids)
  {
    ElementsCount(ids);
    if |Elements(ids)| == |ids| {
      SubsetOfSameSize(Elements(ids), listed);
    }
  }

  lemma FreshIdsAgree(e: Entry, g: Group, mt: ManagedTorrent)
    requires EntryOf(e, g) && mt.torrent == e.torrent && mt.rdIds == e.ids
    ensures !Differs(mt, g)
  {
    assert forall id | id in e.ids :: id in Elements(e.ids);
  }

  // ----- Convergence -----

  /** An entry agrees with its group as far as the comparison looks. */
  lemma AgreesAfter(torrents: map<Key, ManagedTorrent>, list: seq<Listing>, d: DiffResult, k: Key)
    requires IsDiff(torrents, list, d) && k in Grouped(list)
    ensures k in Merged(torrents, d) && !Differs(Merged(torrents, d)[k], Grouped(list)[k])
  {
    MergedAt(torrents, list, d, k);
    hide Grouped, Merged, EntryOf, Differs;
    if k !in torrents {
      FreshIdsAgree(d.added[k], Grouped(list)[k], Merged(torrents, d)[k]);
    } else if Differs(torrents[k], Grouped(list)[k]) {
      FreshIdsAgree(d.changed[k], Grouped(list)[k], Merged(torrents, d)[k]);
    }
  }

  function Leftovers(torrents: map<Key, ManagedTorrent>, list: seq<Listing>): set<Key> {
    set k | k in torrents && k !in Grouped(list) && torrents[k].state.UnderRepair?
  }

  lemma KeysAfter(torrents: map<Key, ManagedTorrent>, list: seq<Listing>, d: DiffResult)
    requires IsDiff(torrents, list, d)
    ensures Merged(torrents, d).Keys == Grouped(list).Keys + Leftovers(torrents, list)
  {
    forall k ensures k in Merged(torrents, d) <==> k in Grouped(list) || k in Leftovers(torrents, list) {
      MergedAt(torrents, list, d, k);
    }
  }

  /** When every listed entry agrees, the diff is empty but for keys that are gone. */
  lemma NothingToDo(m: map<Key, ManagedTorrent>, list: seq<Listing>, again: DiffResult)
    requires IsDiff(m, list, again)
    requires forall k | k in Grouped(list) :: k in m && !Differs(m[k], Grouped(list)[k])
    ensures again.added == map[] && again.changed == map[] && again.removed == m.Keys - Grouped(list).Keys
  {
    hide Grouped, Differs, EntryOf;
    assert again.added.Keys == {};
    assert again.changed.Keys == {};
  }

  lemma OnlyBusyGone(m: map<Key, ManagedTorrent>, d: DiffResult)
    requires d.added == map[] && d.changed == map[]
    requires forall k | k in d.removed && k in m :: m[k].state.UnderRepair?
    ensures Merged(m, d) == m
  {
    assert WithAdded(m, d.added) == m;
    assert WithChanged(m, d.changed) == m;
  }

  /** Convergence: the library is the listed keys and the torrents under repair; every listed entry
      has its group's status, progress and ids; and the same list, taken again, adds and changes
      nothing, would remove only torrents under repair, and so leaves the library as it is. */
  lemma RefreshConverges(torrents: map<Key, ManagedTorrent>, list: seq<Listing>, d: DiffResult, again: DiffResult)
    requires IsDiff(torrents, list, d) && IsDiff(Merged(torrents, d), list, again)
    ensures var m, groups := Merged(torrents, d), Grouped(list);
      && m.Keys == groups.Keys + Leftovers(torrents, list)
      && (forall k | k in groups ::
            && m[k].torrent.status == groups[k].best.status
            && m[k].torrent.progress == groups[k].best.progress
            && !IdsChanged(m[k].rdIds, groups[k].ids))
      && again.added == map[] && again.changed == map[] && again.removed == Leftovers(torrents, list)
      && Merged(m, again) == m
      && d.duplicates + |groups| == |list|
  {
    var m := Merged(torrents, d);
    KeysAfter(torrents, list, d);
    forall k | k in Grouped(list) ensures k in m && !Differs(m[k], Grouped(list)[k]) {
      AgreesAfter(torrents, list, d, k);
    }
    NothingToDo(m, list, again);
    forall k | k in again.removed && k in m ensures m[k].state.UnderRepair? {
      MergedAt(torrents, list, d, k);
    }
    OnlyBusyGone(m, again);
    hide Grouped, Merged, EntryOf, IdsChanged;
  }

  /** Without repeated ids before, each listed entry has exactly its group's ids afterwards, once each. */
  lemma IdsConverge(torrents: map<Key, ManagedTorrent>, list: seq<Listing>, d: DiffResult, k: Key)
    requires IsDiff(torrents, list, d) && k in Grouped(list)
    requires k in torrents ==> NoRepeats(torrents[k].rdIds)
    ensures k in Merged(torrents, d) && Enumerates(Merged(torrents, d)[k].rdIds, Grouped(list)[k].ids)
  {
    MergedAt(torrents, list, d, k);
    AgreesAfter(torrents, list, d, k);
    hide Grouped, Merged;
    IdsComparisonIsExact(Merged(torrents, d)[k].rdIds, Grouped(list)[k].ids);
  }

  predicate SameHealth(a: ManagedTorrent, b: ManagedTorrent) {
    b.state == a.state && b.unrepairable == a.unrepairable && b.startedAt == a.startedAt
    && b.fileStates == a.fileStates && b.lastRepairedAt == a.lastRepairedAt
  }

  /** A refresh never touches the health of a torrent it keeps. */
  lemma HealthIsKept(torrents: map<Key, ManagedTorrent>, list: seq<Listing>, d: DiffResult, k: Key)
    requires IsDiff(torrents, list, d) && k in torrents
    ensures k in Merged(torrents, d) ==> SameHealth(torrents[k], Merged(torrents, d)[k])
  {
    MergedAt(torrents, list, d, k);
    hide Grouped, Merged, Differs;
  }

  /** A torrent that is new starts fine: listed with its group's ids, with nothing known against it, and
      of no interest to the repair scan. */
  lemma AddedStartsFine(torrents: map<Key, ManagedTorrent>, list: seq<Listing>, d: DiffResult, k: Key)
    requires IsDiff(torrents, list, d) && k in Grouped(list) && k !in torrents
    ensures k in Merged(torrents, d)
    ensures var mt, g := Merged(torrents, d)[k], Grouped(list)[k];
      && mt.accessKey == k && mt.torrent == g.best && Enumerates(mt.rdIds, g.ids)
      && mt.state.Ok? && mt.unrepairable.None? && mt.startedAt.None? && mt.lastRepairedAt.None?
      && mt.info.None? && mt.fileStates.None? && !PeriodicEligible(mt)
  {
    MergedAt(torrents, list, d, k);
    NewIsFine(k, d.added[k]);
    hide Grouped, Merged, Differs, Enumerates, PeriodicEligible;
  }

  lemma NewIsFine(k: Key, e: Entry)
    ensures !PeriodicEligible(NewEntry(k, e))
  {}

  /** The detail of a torrent stays exactly as long as its ids do. */
  lemma DetailFollowsIds(torrents: map<Key, ManagedTorrent>, list: seq<Listing>, d: DiffResult, k: Key)
    requires IsDiff(torrents, list, d) && k in Grouped(list) && k in torrents
    ensures k in Merged(torrents, d)
    ensures var before, after := torrents[k], Merged(torrents, d)[k];
      if |after.rdIds| == |before.rdIds| && Elements(after.rdIds) == Elements(before.rdIds)
      then after.info == before.info else after.info.None?
  {
    MergedAt(torrents, list, d, k);
    hide Grouped, Merged, Differs, Elements;
  }

  /** The whole list snapshot is the group's best exactly when the comparison saw a difference or it
      was so already; status, progress and ids alone do not settle it. */
  lemma SnapshotIsBest(torrents: map<Key, ManagedTorrent>, list: seq<Listing>, d: DiffResult, k: Key)
    requires IsDiff(torrents, list, d) && k in Grouped(list)
    ensures k in Merged(torrents, d)
    ensures var best := Grouped(list)[k].best;
      Merged(torrents, d)[k].torrent == best
      <==> (k in torrents ==> Differs(torrents[k], Grouped(list)[k]) || torrents[k].torrent == best)
  {
    MergedAt(torrents, list, d, k);
    hide Grouped, Merged, Differs;
  }

  /** A torrent with two remote ids whose list order changes: the registry keeps the old snapshot,
      whose id is no longer the group's best. */
  lemma OldSnapshotStays()
    ensures var a, b := Listing("1", "h", "n", 100, "downloaded"), Listing("2", "h", "n", 100, "downloaded");
      var key, list := KeyOf(a), [b, a];
      var torrents := map[key := NewEntry(key, Entry(a, ["1", "2"]))];
      var d := DiffResult(map[], {}, map[], 1);
      && IsDiff(torrents, list, d)
      && Merged(torrents, d)[key].torrent == a
      && Grouped(list) == map[key := Group(b, {"1", "2"})]
  {
    var a, b := Listing("1", "h", "n", 100, "downloaded"), Listing("2", "h", "n", 100, "downloaded");
    var key, list := KeyOf(a), [b, a];
    var torrents := map[key := NewEntry(key, Entry(a, ["1", "2"]))];
    assert KeyOf(b) == key;
    hide KeyOf;
    assert list[..1][..0] == [] && list[..1] == [b];
    assert Grouped([b]) == map[key := Group(b, {"2"})];
    assert Grouped(list) == map[key := Group(b, {"2"} + {"1"})];
    assert {"2"} + {"1"} == {"1", "2"};
    assert !Differs(torrents[key], Group(b, {"1", "2"}));
  }

  /** An entry that lists one id twice hides a second id that the remote list has. */
  lemma RepeatedIdHidesAnother()
    ensures !IdsChanged(["1", "1"], {"1", "2"}) && Elements(["1", "1"]) != {"1", "2"}
  {
    assert "2" !in ["1", "1"];
  }
}
