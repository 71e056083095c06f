/** The dirty flag of a cache item: when a clean item is one whose row is current, and when not. */
module DirtyFlag {
  import opened Wrappers
  import opened ByteRanges
  import opened RangeDb
  import opened CacheItem

  /** Reopening now would restore exactly what the item claims. */
  ghost predicate Persisted(s: State, i: nat)
    requires i < |s.items|
  {
    Restored(s.row, s.fileSize) == Ok(s.items[i].ranges)
  }

  /** A writer has recorded its range in the item and has yet to set the flag. */
  ghost predicate Unmarked(s: State, i: nat) {
    exists k :: 0 <= k < |s.threads| && s.threads[k] == Recorded(i)
  }

  /** The item is clean, and no writer is about to say otherwise. */
  ghost predicate Settled(s: State, i: nat)
    requires i < |s.items|
  {
    !s.items[i].dirty && !Unmarked(s, i)
  }

  /** The flag means what it should: what is clean is persisted. */
  ghost predicate CleanIsPersisted(s: State) {
    forall i | 0 <= i < |s.items| && Settled(s, i) :: Persisted(s, i)
  }

  /** The two steps that go wrong: storing a snapshot that differs from the ranges of a clean item, and
      clearing the flag while the row differs from the item's ranges. */
  ghost predicate Staling(s: State, remote: Remote, e: Event)
    requires Enabled(s, remote, e)
  {
    if !e.Act? then false
    else if e.action.Store? then
      exists i :: 0 <= i < |s.items| && Settled(s, i) && s.items[i].ranges != s.threads[e.k].snap
    else if e.action.Clear? then
      var i := s.threads[e.k].item;
      Restored(s.row, s.fileSize) != Ok(s.items[i].ranges) && !Unmarked(s, i)
    else false
  }

  /** After a snapshot is stored, an item is persisted exactly if its ranges are the snapshot. */
  lemma StorePersists(s: State, remote: Remote, k: nat, now: int, i: nat)
    requires Inv(s, remote) && k < |s.threads| && CanAct(s, k, Store(now)) && i < |s.items|
    ensures Persisted(Acted(s, remote, k, Store(now)), i) <==> s.items[i].ranges == s.threads[k].snap
  {
    assert ThreadOk(s, remote, s.threads[k]);
    TruthfulFits(s, remote, s.threads[k].snap);
    ReadWriteRow(s.fileSize, now, s.threads[k].snap);
    hide ReadRow, WriteRow;
  }

  /** A thread that neither was nor is between recording and marking changes nothing here. */
  lemma SameUnmarked(s: State, t: State, k: nat, th: Thread, i: nat)
    requires k <= |s.threads|
    requires t.threads == if k < |s.threads| then s.threads[k := th] else s.threads + [th]
    requires th != Recorded(i) && (k < |s.threads| ==> s.threads[k] != Recorded(i))
    ensures Unmarked(t, i) <==> Unmarked(s, i)
  {
    if Unmarked(s, i) {
      var j :| 0 <= j < |s.threads| && s.threads[j] == Recorded(i);
      assert t.threads[j] == Recorded(i);
    }
  }

  lemma ActKeepsOthers(s: State, remote: Remote, k: nat, action: Action, i: nat)
    requires k < |s.threads| && CanAct(s, k, action) && i < |s.items|
    requires action.Record? || action.MarkDirty? ==> s.threads[k].item != i
    ensures var t := Acted(s, remote, k, action);
      && |t.items| == |s.items| && t.items[i].ranges == s.items[i].ranges
      && (Unmarked(t, i) <==> Unmarked(s, i))
      && (t.items[i].dirty == s.items[i].dirty || (action.Clear? && s.threads[k].item == i))
      && (!action.Store? ==> t.row == s.row) && t.fileSize == s.fileSize
  {
    var t := Acted(s, remote, k, action);
    SameUnmarked(s, t, k, t.threads[k], i);
  }

  lemma StoreStep(s: State, remote: Remote, k: nat, now: int)
    requires Inv(s, remote) && k < |s.threads| && CanAct(s, k, Store(now)) && CleanIsPersisted(s)
    ensures CleanIsPersisted(Acted(s, remote, k, Store(now))) <==> !Staling(s, remote, Act(k, Store(now)))
  {
    var t := Acted(s, remote, k, Store(now));
    forall i | 0 <= i < |s.items|
      ensures Settled(t, i) <==> Settled(s, i)
      ensures Persisted(t, i) <==> s.items[i].ranges == s.threads[k].snap
    {
      ActKeepsOthers(s, remote, k, Store(now), i);
      StorePersists(s, remote, k, now, i);
    }
    hide Persisted, Inv, Unmarked, Settled;
  }

  lemma ClearStep(s: State, remote: Remote, k: nat)
    requires k < |s.threads| && CanAct(s, k, Clear) && CleanIsPersisted(s)
    ensures CleanIsPersisted(Acted(s, remote, k, Clear)) <==> !Staling(s, remote, Act(k, Clear))
  {
    var t := Acted(s, remote, k, Clear);
    forall j | 0 <= j < |s.items|
      ensures Settled(t, j) <==> (Settled(s, j) || (j == s.threads[k].item && !Unmarked(s, j)))
      ensures Persisted(t, j) <==> Persisted(s, j)
    {
      ActKeepsOthers(s, remote, k, Clear, j);
    }
    hide Unmarked, Restored, Settled;
  }

  /** Recording and marking leave the item unsettled, and other items as they were. */
  lemma QuietStep(s: State, remote: Remote, k: nat, action: Action)
    requires k < |s.threads| && CanAct(s, k, action) && CleanIsPersisted(s)
    requires !action.Store? && !action.Clear?
    ensures CleanIsPersisted(Acted(s, remote, k, action))
  {
    var t := Acted(s, remote, k, action);
    if action.Record? || action.MarkDirty? {
      assert t.threads[k] == Recorded(s.threads[k].item) || t.items[s.threads[k].item].dirty;
    }
    forall i | 0 <= i < |t.items| && Settled(t, i) ensures Persisted(t, i) {
      ActKeepsOthers(s, remote, k, action, i);
      assert Persisted(s, i);
    }
  }

  lemma EventStep(s: State, remote: Remote, e: Event)
    requires Enabled(s, remote, e) && CleanIsPersisted(s) && !e.Act?
    ensures CleanIsPersisted(Next(s, remote, e))
  {
    var t := Next(s, remote, e);
    forall i | 0 <= i < |t.items| && Settled(t, i) ensures Persisted(t, i) {
      if i < |s.items| {
        if e.BeginWrite? || e.BeginFlush? || e.BeginRead? {
          SameUnmarked(s, t, |s.threads|, t.threads[|s.threads|], i);
        } else {
          assert t.threads == s.threads;
        }
        assert Persisted(s, i);
      }
    }
  }

  /** A clean item is a persisted one, exactly: of all steps only a stale store and a late clear break
      it, and they always do. */
  lemma StepCleanIsPersisted(s: State, remote: Remote, e: Event)
    requires Inv(s, remote) && Enabled(s, remote, e) && CleanIsPersisted(s)
    ensures CleanIsPersisted(Next(s, remote, e)) <==> !Staling(s, remote, e)
  {
    if e.Act? {
      hide CleanIsPersisted, Inv, Acted, CanAct;
      match e.action
      case Store(now) => StoreStep(s, remote, e.k, now);
      case Clear => ClearStep(s, remote, e.k);
      case _ => QuietStep(s, remote, e.k, e.action);
    } else {
      EventStep(s, remote, e);
    }
  }

  /** With no step of another thread in between, storing a snapshot and clearing the flag leaves a clean
      item that is persisted if and only if nothing was recorded since the snapshot. */
  lemma StoreThenClear(s: State, remote: Remote, k: nat, now: int)
    requires Inv(s, remote) && k < |s.threads| && s.threads[k].Snapped? && s.threads[k].item < |s.items|
    ensures var i := s.threads[k].item;
      var t := Acted(Acted(s, remote, k, Store(now)), remote, k, Clear);
      && !t.items[i].dirty
      && (Persisted(t, i) <==> s.items[i].ranges == s.threads[k].snap)
  {
    StorePersists(s, remote, k, now, s.threads[k].item);
    hide Restored, WriteRow;
  }

  /** The forced flush of a dirty item does not skip: on its own it goes through all its steps, and if the
      row can be written it leaves the item clean and persisted. */
  lemma ForcedFlushPersists(s: State, remote: Remote, k: nat, now: int)
    requires Inv(s, remote) && k < |s.threads| && s.threads[k].Flushing? && s.threads[k].forced
    requires s.threads[k].item < |s.items| && s.items[s.threads[k].item].dirty
    ensures !CanAct(s, k, Skip) && CanAct(s, k, Pass)
    ensures var i := s.threads[k].item;
      var due := Acted(s, remote, k, Pass);
      && CanAct(due, k, Snap)
      && var snapped := Acted(due, remote, k, Snap);
        && CanAct(snapped, k, Store(now))
        && var stored := Acted(snapped, remote, k, Store(now));
          && CanAct(stored, k, Clear)
          && var t := Acted(stored, remote, k, Clear);
            !t.items[i].dirty && Persisted(t, i)
  {
    var due := Acted(s, remote, k, Pass);
    ActInv(s, remote, k, Pass);
    ActInv(due, remote, k, Snap);
    hide Inv, Improves;
    StoreThenClear(Acted(due, remote, k, Snap), remote, k, now);
    hide Persisted;
  }

  /** No step of the run stores a stale snapshot or clears the flag too late. */
  ghost predicate Careful(s: State, remote: Remote, es: seq<Event>)
    requires Runs(s, remote, es)
    decreases |es|
  {
    es == [] || (!Staling(s, remote, es[0]) && Careful(Next(s, remote, es[0]), remote, es[1..]))
  }

  lemma {:induction false} CarefulRunInv(s: State, remote: Remote, es: seq<Event>)
    requires Inv(s, remote) && CleanIsPersisted(s) && Runs(s, remote, es) && Careful(s, remote, es)
    ensures CleanIsPersisted(Final(s, remote, es))
    decreases |es|
  {
    if es != [] {
      StepCleanIsPersisted(s, remote, es[0]);
      StepInv(s, remote, es[0]);
      hide Inv, Next, Enabled, CleanIsPersisted, Staling, Improves;
      CarefulRunInv(Next(s, remote, es[0]), remote, es[1..]);
    }
  }

  /** Over every careful run from the start, what is clean is persisted. */
  lemma CarefulRunPersists(remote: Remote, fileSize: nat, es: seq<Event>)
    requires IsRemote(remote) && fileSize < I63 && Runs(Start(fileSize), remote, es)
    requires Careful(Start(fileSize), remote, es)
    ensures CleanIsPersisted(Final(Start(fileSize), remote, es))
  {
    StartInv(remote, fileSize);
    CarefulRunInv(Start(fileSize), remote, es);
  }

  // ----- A stale row in a run from the start -----

  ghost predicate Reaches(s: State, remote: Remote, end: State) {
    exists es :: Runs(s, remote, es) && Final(s, remote, es) == end
  }

  lemma ReachesVia(s: State, remote: Remote, e: Event, end: State)
    requires Enabled(s, remote, e)
    requires Next(s, remote, e) == end || Reaches(Next(s, remote, e), remote, end)
    ensures Reaches(s, remote, end)
  {
    var t := Next(s, remote, e);
    assert Final(t, remote, []) == t;
    var es :| Runs(t, remote, es) && Final(t, remote, es) == end;
    hide Next, Enabled;
    assert ([e] + es)[1..] == es;
    assert Runs(s, remote, [e] + es) && Final(s, remote, [e] + es) == end;
  }

  lemma ReachesTrans(a: State, remote: Remote, b: State, c: State)
    requires Reaches(a, remote, b) && Reaches(b, remote, c)
    ensures Reaches(a, remote, c)
  {
    var es :| Runs(a, remote, es) && Final(a, remote, es) == b;
    RunThenReach(a, remote, es, c);
  }

  lemma {:induction false} RunThenReach(a: State, remote: Remote, es: seq<Event>, c: State)
    requires Runs(a, remote, es) && Reaches(Final(a, remote, es), remote, c)
    ensures Reaches(a, remote, c)
    decreases |es|
  {
    hide Next, Enabled;
    if es != [] {
      RunThenReach(Next(a, remote, es[0]), remote, es[1..], c);
      ReachesVia(a, remote, es[0], c);
    }
  }

  /** Thread `k` is new and writes the one byte at `off` up to the point where the range is recorded. */
  lemma WritesByte(s: State, remote: Remote, off: nat) returns (end: State)
    requires |s.items| == 1 && off < s.fileSize == |s.disk|
    ensures Reaches(s, remote, end)
    ensures end.threads == s.threads + [Recorded(0)] && end.row == s.row
    ensures end.items == [s.items[0].(ranges := Inserted(s.items[0].ranges, off, off + 1))]
    ensures end.fileSize == s.fileSize == |end.disk|
  {
    var k := |s.threads|;
    var s1 := Next(s, remote, BeginWrite(0, off, 1));
    var s2 := Next(s1, remote, Act(k, PutByte));
    end := Next(s2, remote, Act(k, Record));
    assert end.threads == s.threads + [Recorded(0)];
    hide Inserted, Reaches;
    ReachesVia(s2, remote, Act(k, Record), end);
    ReachesVia(s1, remote, Act(k, PutByte), end);
    ReachesVia(s, remote, BeginWrite(0, off, 1), end);
  }

  /** The first writer marks the item and goes on to clone its ranges. */
  lemma TakesSnapshot(s: State, remote: Remote) returns (end: State)
    requires |s.items| == 1 && s.threads == [Recorded(0)]
    ensures Reaches(s, remote, end)
    ensures end == s.(items := [s.items[0].(dirty := true)], threads := [Snapped(0, s.items[0].ranges)])
  {
    var s1 := Next(s, remote, Act(0, MarkDirty));
    var s2 := Next(s1, remote, Act(0, Pass));
    end := Next(s2, remote, Act(0, Snap));
    assert end == s.(items := [s.items[0].(dirty := true)], threads := [Snapped(0, s.items[0].ranges)]);
    hide Reaches;
    ReachesVia(s2, remote, Act(0, Snap), end);
    ReachesVia(s1, remote, Act(0, Pass), end);
    ReachesVia(s, remote, Act(0, MarkDirty), end);
  }

  /** The second writer marks the item too; the first stores its older snapshot and clears the flag;
      and the second, finding the flag clear, stores nothing. */
  lemma StoresOldSnapshot(s: State, remote: Remote, snap: seq<Interval>) returns (end: State)
    requires |s.items| == 1 && s.threads == [Snapped(0, snap), Recorded(0)]
    ensures Reaches(s, remote, end)
    ensures end.items == [s.items[0].(dirty := false)] && end.threads == [Gone, Gone]
    ensures end.fileSize == s.fileSize && end.row == Some(WriteRow(s.fileSize, 0, snap))
  {
    var s1 := Next(s, remote, Act(1, MarkDirty));
    var s2 := Next(s1, remote, Act(0, Store(0)));
    var s3 := Next(s2, remote, Act(0, Clear));
    end := Next(s3, remote, Act(1, Skip));
    assert end.threads == [Gone, Gone];
    hide WriteRow, Reaches;
    ReachesVia(s3, remote, Act(1, Skip), end);
    ReachesVia(s2, remote, Act(0, Clear), end);
    ReachesVia(s1, remote, Act(0, Store(0)), end);
    ReachesVia(s, remote, Act(1, MarkDirty), end);
  }

  /** A stale row behind a clean flag, with every thread gone, in a run from the start of a two-byte
      file: two writers, one byte each, and the second byte is lost to a restart. */
  lemma CleanFlagStaleRow(remote: Remote) returns (end: State)
    ensures Reaches(Start(2), remote, end)
    ensures end.threads == [Gone, Gone] && |end.items| == 1 && !end.items[0].dirty
    ensures Has(end.items[0].ranges, 1) && Restored(end.row, 2) == Ok([Interval(0, 1)])
    ensures !CleanIsPersisted(end)
  {
    hide Reaches, Inserted;
    var s0 := Start(2);
    var s1 := Next(s0, remote, Open);
    ReachesVia(s0, remote, Open, s1);
    hide Next, Enabled, WriteRow, Restored;
    var s2 := WritesByte(s1, remote, 0);
    var s3 := TakesSnapshot(s2, remote);
    var s4 := WritesByte(s3, remote, 1);
    TwoBytes();
    end := StoresOldSnapshot(s4, remote, [Interval(0, 1)]);
    StaleEnd(end);
    ReachesTrans(s0, remote, s1, s2);
    ReachesTrans(s0, remote, s2, s3);
    ReachesTrans(s0, remote, s3, s4);
    ReachesTrans(s0, remote, s4, end);
  }

  lemma TwoBytes()
    ensures Inserted([], 0, 1) == [Interval(0, 1)] && Inserted([Interval(0, 1)], 1, 2) == [Interval(0, 2)]
  {}

  lemma StaleEnd(s: State)
    requires s.threads == [Gone, Gone] && s.items == [Item([Interval(0, 2)], false)]
    requires s.fileSize == 2 && s.row == Some(WriteRow(2, 0, [Interval(0, 1)]))
    ensures Has(s.items[0].ranges, 1) && Restored(s.row, 2) == Ok([Interval(0, 1)]) && !CleanIsPersisted(s)
  {
    ReadWriteRow(2, 0, [Interval(0, 1)]);
    HasOne(Interval(0, 2));
    hide ReadRow, WriteRow;
    assert Settled(s, 0) && !Persisted(s, 0);
  }
}
