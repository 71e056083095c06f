/** One cache file and everything that touches it: concurrent writers, flushers and readers, the
    persisted range row, crashes and reopenings. One event is one atomic action of one thread. */
module CacheItem {
  import opened Wrappers
  import opened ByteRanges
  import opened RangeDb

  /** An open cache item: the bytes it claims to hold, and whether the row may be out of date. */
  datatype Item = Item(ranges: seq<Interval>, dirty: bool)

  /** A thread inside one call on an item.
      `Writing` has put `done` of its `n` bytes in the file; `Recorded` has updated the ranges but
      not the dirty flag; `Flushing` enters `flush_ranges`; `Due` has passed its checks; `Snapped`
      holds the cloned ranges; `Stored` has written the row but not cleared the flag. `Waiting` is
      a reader that has not seen its range covered, `Reading` one that has, and `Replied` its answer. */
  datatype Thread =
    | Writing(item: nat, off: nat, n: nat, done: nat)
    | Recorded(item: nat)
    | Flushing(item: nat, forced: bool)
    | Due(item: nat)
    | Snapped(item: nat, snap: seq<Interval>)
    | Stored(item: nat)
    | Waiting(item: nat, off: nat, size: nat)
    | Reading(item: nat, off: nat, size: nat, got: seq<Byte>)
    | Replied(off: nat, size: nat, data: seq<Byte>)
    | Gone

  /** `disk` is the sparse file, `row` the persisted row of this key. */
  datatype State = State(
    fileSize: nat,
    disk: seq<Byte>,
    row: Option<Row>,
    items: seq<Item>,
    threads: seq<Thread>)

  /** What a thread does next. */
  datatype Action =
    | PutByte          // the file write advances by one byte
    | WriteFails       // the file write fails
    | Record           // the written range joins the item's ranges
    | MarkDirty        // the dirty flag is set; a debounced flush follows
    | Skip             // the flush finds nothing to do, or too soon
    | Pass             // the flush is due
    | Snap             // the ranges are cloned
    | Store(now: int)  // the row is upserted
    | StoreFails
    | Clear            // the dirty flag is cleared
    | See              // the reader finds its range covered
    | GetByte          // the file read advances by one byte
    | Reply
    | GiveUp           // the read is cancelled or the download failed

  datatype Event =
    | Open                                // the file is opened, ranges restored from the row
    | BeginWrite(item: nat, off: nat, n: nat)
    | BeginFlush(item: nat)               // the last handle is released, or the item evicted
    | BeginRead(item: nat, off: nat, size: nat)
    | Act(k: nat, action: Action)
    | Crash                               // memory is lost, file and row survive
    | Resize(fileSize: nat)               // an open at another size truncates and purges, in one step
    | Expire                              // file and row are deleted together

  /** The remote file for each size; a key and a size determine one content. */
  type Remote = nat -> seq<Byte>

  ghost predicate IsRemote(remote: Remote) {
    forall n :: |remote(n)| == n
  }

  /** What a response body brings for file offset `b`. */
  function RemoteByte(remote: Remote, fileSize: nat, b: nat): Byte {
    if b < |remote(fileSize)| then remote(fileSize)[b] else 0
  }

  /** The exclusive end of a read, clamped to the end of the file. */
  function ReadEnd(fileSize: nat, off: nat, size: nat): nat { Min(off + size, fileSize) }

  /** What a read must return. */
  function Slice(data: seq<Byte>, off: nat, size: nat): seq<Byte> {
    if off >= |data| then [] else data[off..ReadEnd(|data|, off, size)]
  }

  /** What `open_or_create` restores: the row's ranges if its size matches, otherwise nothing. */
  function Restored(row: Option<Row>, fileSize: nat): Result<seq<Interval>, string> {
    if row.None? then Ok([])
    else match ReadRow(row.value)
      case Err(e) => Err(e)
      case Ok(None) => Ok([])
      case Ok(Some(r)) => Ok(if r.fileSize == fileSize then r.ranges else [])
  }

  /** What that means: ranges come back exactly from a readable row of this size, as they were written;
      a row of another size or format gives none, and a malformed one an error. */
  lemma RestoredMeaning(row: Row, fileSize: nat)
    ensures var r := Restored(Some(row), fileSize);
      && (r.Err? <==> row.schema == SCHEMA_VERSION && |row.blob| % 16 != 0)
      && (row.schema != SCHEMA_VERSION ==> r == Ok([]))
      && (r.Ok? && Max(row.fileSize, 0) != fileSize ==> r == Ok([]))
      && (r.Ok? && row.schema == SCHEMA_VERSION && Max(row.fileSize, 0) == fileSize ==>
            Normal(r.value) && SameBytes(r.value, Decoded(row.blob)))
  {
    if ReadRow(row).Ok? && ReadRow(row).value.Some? { ReadRowIsNormal(row); }
    hide InsertedAll, Decoded, Normal, Has;
  }

  lemma RestoredAfterWrite(n: nat, now: int, iv: seq<Interval>, fileSize: nat)
    requires Normal(iv) && FitsU64(iv) && n < I63
    ensures Restored(Some(WriteRow(n, now, iv)), fileSize) == Ok(if n == fileSize then iv else [])
  {
    ReadWriteRow(n, now, iv);
    hide ReadRow, WriteRow;
  }

  predicate CanAct(s: State, k: nat, action: Action)
    requires k < |s.threads|
  {
    var t := s.threads[k];
    match action
    case PutByte => t.Writing? && t.done < t.n && t.off + t.done < |s.disk|
    case WriteFails => t.Writing?
    case Record => t.Writing? && t.done == t.n && t.item < |s.items|
    case MarkDirty => t.Recorded? && t.item < |s.items|
    case Skip => t.Flushing? && t.item < |s.items| && (!t.forced || !s.items[t.item].dirty)
    case Pass => t.Flushing? && t.item < |s.items| && s.items[t.item].dirty
    case Snap => t.Due? && t.item < |s.items|
    case Store(_) => t.Snapped?
    case StoreFails => t.Snapped?
    case Clear => t.Stored? && t.item < |s.items|
    case See => t.Waiting? && t.item < |s.items|
                && HasRange(s.items[t.item].ranges, t.off, ReadEnd(s.fileSize, t.off, t.size))
    case GetByte => t.Reading? && t.off + |t.got| < Min(|s.disk|, ReadEnd(s.fileSize, t.off, t.size))
    case Reply => t.Reading? && t.off + |t.got| == ReadEnd(s.fileSize, t.off, t.size)
    case GiveUp => t.Waiting? || t.Reading?
  }

  predicate Enabled(s: State, remote: Remote, e: Event) {
    match e
    case Open => Restored(s.row, s.fileSize).Ok?
    case BeginWrite(i, off, n) => i < |s.items| && n > 0 && off + n <= s.fileSize
    case BeginFlush(i) => i < |s.items|
    case BeginRead(i, off, size) => i < |s.items|
    case Act(k, action) => k < |s.threads| && CanAct(s, k, action)
    case Crash => true
    case Resize(n) => s.items == [] && s.threads == [] && n < I63
    case Expire => s.items == [] && s.threads == []
  }

  function Put(s: State, k: nat, t: Thread): State
    requires k < |s.threads|
  {
    s.(threads := s.threads[k := t])
  }

  function PutItem(s: State, i: nat, item: Item): State
    requires i < |s.items|
  {
    s.(items := s.items[i := item])
  }

  function Acted(s: State, remote: Remote, k: nat, action: Action): State
    requires k < |s.threads| && CanAct(s, k, action)
  {
    var t := s.threads[k];
    match action
    case PutByte =>
      var b := t.off + t.done;
      Put(s, k, t.(done := t.done + 1)).(disk := s.disk[b := RemoteByte(remote, s.fileSize, b)])
    case WriteFails => Put(s, k, Gone)
    case Record =>
      var item := s.items[t.item];
      PutItem(Put(s, k, Recorded(t.item)), t.item, item.(ranges := Inserted(item.ranges, t.off, t.off + t.n)))
    case MarkDirty => PutItem(Put(s, k, Flushing(t.item, false)), t.item, s.items[t.item].(dirty := true))
    case Skip => Put(s, k, Gone)
    case Pass => Put(s, k, Due(t.item))
    case Snap => Put(s, k, Snapped(t.item, s.items[t.item].ranges))
    case Store(now) => Put(s, k, Stored(t.item)).(row := Some(WriteRow(s.fileSize, now, t.snap)))
    case StoreFails => Put(s, k, Gone)
    case Clear => PutItem(Put(s, k, Gone), t.item, s.items[t.item].(dirty := false))
    case See => Put(s, k, Reading(t.item, t.off, t.size, []))
    case GetByte => Put(s, k, t.(got := t.got + [s.disk[t.off + |t.got|]]))
    case Reply => Put(s, k, Replied(t.off, t.size, t.got))
    case GiveUp => Put(s, k, Gone)
  }

  /** Sparse growth reads as zero. */
  function SetLen(disk: seq<Byte>, n: nat): seq<Byte> {
    if n <= |disk| then disk[..n] else disk + seq(n - |disk|, _ => 0)
  }

  function Next(s: State, remote: Remote, e: Event): State
    requires Enabled(s, remote, e)
  {
    match e
    case Open => s.(items := s.items + [Item(Restored(s.row, s.fileSize).value, false)])
    case BeginWrite(i, off, n) => s.(threads := s.threads + [Writing(i, off, n, 0)])
    case BeginFlush(i) => s.(threads := s.threads + [Flushing(i, true)])
    case BeginRead(i, off, size) =>
      s.(threads := s.threads + [if off >= s.fileSize then Replied(off, size, []) else Waiting(i, off, size)])
    case Act(k, action) => Acted(s, remote, k, action)
    case Crash => s.(items := [], threads := [])
    case Resize(n) => if n == s.fileSize then s else s.(fileSize := n, disk := SetLen(s.disk, n), row := None)
    case Expire => s.(disk := SetLen([], s.fileSize), row := None)
  }

  /** A fresh key: an empty sparse file and no row. */
  function Start(fileSize: nat): State {
    State(fileSize, SetLen([], fileSize), None, [], [])
  }

  predicate Runs(s: State, remote: Remote, es: seq<Event>)
    decreases |es|
  {
    es == [] || (Enabled(s, remote, es[0]) && Runs(Next(s, remote, es[0]), remote, es[1..]))
  }

  function Final(s: State, remote: Remote, es: seq<Event>): State
    requires Runs(s, remote, es)
    decreases |es|
  {
    if es == [] then s else Final(Next(s, remote, es[0]), remote, es[1..])
  }

  // ----- The invariant -----

  /** Byte `b` of the file is the remote byte. */
  ghost predicate Right(s: State, remote: Remote, b: int) {
    0 <= b < |s.disk| && b < |remote(s.fileSize)| && s.disk[b] == remote(s.fileSize)[b]
  }

  /** A range set that claims only bytes the file holds correctly. */
  ghost predicate Truthful(s: State, remote: Remote, iv: seq<Interval>) {
    Normal(iv) && forall b | Has(iv, b) :: Right(s, remote, b)
  }

  ghost predicate ThreadOk(s: State, remote: Remote, t: Thread) {
    match t
    case Writing(i, off, n, done) =>
      i < |s.items| && done <= n && off + n <= s.fileSize
      && forall b | off <= b < off + done :: Right(s, remote, b)
    case Recorded(i) => i < |s.items|
    case Flushing(i, _) => i < |s.items|
    case Due(i) => i < |s.items|
    case Snapped(i, snap) => i < |s.items| && Truthful(s, remote, snap)
    case Stored(i) => i < |s.items|
    case Waiting(i, off, size) => i < |s.items| && off < s.fileSize
    case Reading(i, off, size, got) =>
      && i < |s.items| && off < s.fileSize
      && Covers(s.items[i].ranges, off, ReadEnd(s.fileSize, off, size))
      && off + |got| <= ReadEnd(s.fileSize, off, size) <= |remote(s.fileSize)|
      && got == remote(s.fileSize)[off..off + |got|]
    case Replied(off, size, data) => data == Slice(remote(s.fileSize), off, size)
    case _ => true
  }

  ghost predicate RowOk(s: State, remote: Remote) {
    s.row.Some? ==>
      var r := ReadRow(s.row.value);
      r.Ok? && r.value.Some? && r.value.value.fileSize == s.fileSize && Truthful(s, remote, r.value.value.ranges)
  }

  ghost predicate Inv(s: State, remote: Remote) {
    && IsRemote(remote)
    && s.fileSize < I63 && |s.disk| == s.fileSize
    && RowOk(s, remote)
    && (forall i | 0 <= i < |s.items| :: Truthful(s, remote, s.items[i].ranges))
    && (forall k | 0 <= k < |s.threads| :: ThreadOk(s, remote, s.threads[k]))
  }

  /** From `s` to `t` no correct byte is spoilt and no open item forgets a byte. */
  ghost predicate Improves(s: State, t: State, remote: Remote) {
    && t.fileSize == s.fileSize && |t.disk| == |s.disk|
    && (forall b | Right(s, remote, b) :: Right(t, remote, b))
    && |s.items| <= |t.items|
    && (forall i, b | 0 <= i < |s.items| && Has(s.items[i].ranges, b) :: Has(t.items[i].ranges, b))
  }

  lemma ThreadFrame(s: State, t: State, remote: Remote, th: Thread)
    requires IsRemote(remote) && Improves(s, t, remote) && ThreadOk(s, remote, th)
    ensures ThreadOk(t, remote, th)
  {}

  /** A step that improves the state and leaves sound rows, items and at most one new thread. */
  lemma KeepInv(s: State, t: State, remote: Remote, k: nat, th: Thread)
    requires Inv(s, remote) && Improves(s, t, remote)
    requires RowOk(t, remote)
    requires forall i | 0 <= i < |t.items| :: Truthful(t, remote, t.items[i].ranges)
    requires k <= |s.threads|
    requires t.threads == if k < |s.threads| then s.threads[k := th] else s.threads + [th]
    requires ThreadOk(t, remote, th)
    ensures Inv(t, remote)
  {
    forall j | 0 <= j < |t.threads| ensures ThreadOk(t, remote, t.threads[j]) {
      if j != k { ThreadFrame(s, t, remote, s.threads[j]); }
    }
  }

  lemma SameFile(s: State, t: State, remote: Remote)
    requires t.fileSize == s.fileSize && t.disk == s.disk
    ensures forall b :: Right(t, remote, b) <==> Right(s, remote, b)
    ensures forall iv :: Truthful(t, remote, iv) <==> Truthful(s, remote, iv)
    ensures t.row == s.row ==> (RowOk(t, remote) <==> RowOk(s, remote))
  {}

  /** A step of a thread that touches neither file nor row, and at most the flag of an item. */
  lemma ThreadOnly(s: State, t: State, remote: Remote, k: nat, th: Thread)
    requires Inv(s, remote)
    requires t.fileSize == s.fileSize && t.disk == s.disk && t.row == s.row
    requires |t.items| == |s.items| && forall i | 0 <= i < |s.items| :: t.items[i].ranges == s.items[i].ranges
    requires k <= |s.threads|
    requires t.threads == if k < |s.threads| then s.threads[k := th] else s.threads + [th]
    requires ThreadOk(t, remote, th)
    ensures Inv(t, remote) && Improves(s, t, remote)
  {
    SameFile(s, t, remote);
    KeepInv(s, t, remote, k, th);
  }

  lemma PutByteInv(s: State, remote: Remote, k: nat)
    requires Inv(s, remote) && k < |s.threads| && CanAct(s, k, PutByte)
    ensures var t := Acted(s, remote, k, PutByte); Inv(t, remote) && Improves(s, t, remote)
  {
    var t := Acted(s, remote, k, PutByte);
    assert ThreadOk(s, remote, s.threads[k]);
    assert forall b | Right(s, remote, b) :: Right(t, remote, b);
    KeepInv(s, t, remote, k, t.threads[k]);
  }

  lemma RecordInv(s: State, remote: Remote, k: nat)
    requires Inv(s, remote) && k < |s.threads| && CanAct(s, k, Record)
    ensures var t := Acted(s, remote, k, Record); Inv(t, remote) && Improves(s, t, remote)
  {
    var t, th := Acted(s, remote, k, Record), s.threads[k];
    assert ThreadOk(s, remote, th);
    InsertedIsUnion(s.items[th.item].ranges, th.off, th.off + th.n);
    SameFile(s, t, remote);
    forall i | 0 <= i < |t.items| ensures Truthful(t, remote, t.items[i].ranges) {
      assert Truthful(s, remote, s.items[i].ranges);
    }
    hide Inserted;
    KeepInv(s, t, remote, k, Recorded(th.item));
  }

  lemma TruthfulFits(s: State, remote: Remote, iv: seq<Interval>)
    requires Truthful(s, remote, iv) && |s.disk| < I63
    ensures FitsU64(iv)
  {
    forall i | 0 <= i < |iv| ensures iv[i].hi < U64 {
      assert Has(iv, iv[i].hi - 1);
    }
  }

  lemma StoreInv(s: State, remote: Remote, k: nat, now: int)
    requires Inv(s, remote) && k < |s.threads| && CanAct(s, k, Store(now))
    ensures var t := Acted(s, remote, k, Store(now)); Inv(t, remote) && Improves(s, t, remote)
  {
    var t, th := Acted(s, remote, k, Store(now)), s.threads[k];
    assert ThreadOk(s, remote, th);
    TruthfulFits(s, remote, th.snap);
    ReadWriteRow(s.fileSize, now, th.snap);
    SameFile(s, t, remote);
    hide WriteRow, ReadRow, Truthful, Right;
    KeepInv(s, t, remote, k, Stored(th.item));
  }

  lemma GetByteInv(s: State, remote: Remote, k: nat)
    requires Inv(s, remote) && k < |s.threads| && CanAct(s, k, GetByte)
    ensures var t := Acted(s, remote, k, GetByte); Inv(t, remote) && Improves(s, t, remote)
  {
    var t, th := Acted(s, remote, k, GetByte), s.threads[k];
    assert ThreadOk(s, remote, th);
    var b := th.off + |th.got|;
    assert Has(s.items[th.item].ranges, b);
    assert Truthful(s, remote, s.items[th.item].ranges);
    assert Right(s, remote, b);
    assert remote(s.fileSize)[th.off..b + 1] == remote(s.fileSize)[th.off..b] + [remote(s.fileSize)[b]];
    ThreadOnly(s, t, remote, k, t.threads[k]);
  }

  lemma SeeInv(s: State, remote: Remote, k: nat)
    requires Inv(s, remote) && k < |s.threads| && CanAct(s, k, See)
    ensures var t := Acted(s, remote, k, See); Inv(t, remote) && Improves(s, t, remote)
  {
    var t, th := Acted(s, remote, k, See), s.threads[k];
    assert ThreadOk(s, remote, th);
    assert Truthful(s, remote, s.items[th.item].ranges);
    HasRangeIsCoverage(s.items[th.item].ranges, th.off, ReadEnd(s.fileSize, th.off, th.size));
    hide HasRange;
    ThreadOnly(s, t, remote, k, t.threads[k]);
  }

  lemma SnapInv(s: State, remote: Remote, k: nat)
    requires Inv(s, remote) && k < |s.threads| && CanAct(s, k, Snap)
    ensures var t := Acted(s, remote, k, Snap); Inv(t, remote) && Improves(s, t, remote)
  {
    var t, th := Acted(s, remote, k, Snap), s.threads[k];
    assert Truthful(s, remote, s.items[th.item].ranges);
    SameFile(s, t, remote);
    ThreadOnly(s, t, remote, k, t.threads[k]);
  }

  lemma QuietInv(s: State, remote: Remote, k: nat, action: Action)
    requires Inv(s, remote) && k < |s.threads| && CanAct(s, k, action)
    requires action in {WriteFails, MarkDirty, Skip, Pass, StoreFails, Clear, Reply, GiveUp}
    ensures var t := Acted(s, remote, k, action); Inv(t, remote) && Improves(s, t, remote)
  {
    var t := Acted(s, remote, k, action);
    assert ThreadOk(s, remote, s.threads[k]);
    hide Covers;
    ThreadOnly(s, t, remote, k, t.threads[k]);
  }

  lemma ActInv(s: State, remote: Remote, k: nat, action: Action)
    requires Inv(s, remote) && k < |s.threads| && CanAct(s, k, action)
    ensures var t := Acted(s, remote, k, action); Inv(t, remote) && Improves(s, t, remote)
  {
    hide Inv, Improves, Acted, CanAct;
    match action
    case PutByte => PutByteInv(s, remote, k);
    case Record => RecordInv(s, remote, k);
    case Snap => SnapInv(s, remote, k);
    case Store(now) => StoreInv(s, remote, k, now);
    case See => SeeInv(s, remote, k);
    case GetByte => GetByteInv(s, remote, k);
    case _ => QuietInv(s, remote, k, action);
  }

  lemma OpenInv(s: State, remote: Remote)
    requires Inv(s, remote) && Enabled(s, remote, Open)
    ensures var t := Next(s, remote, Open); Inv(t, remote) && Improves(s, t, remote)
  {
    var t := Next(s, remote, Open);
    SameFile(s, t, remote);
    forall i | 0 <= i < |t.items| ensures Truthful(t, remote, t.items[i].ranges) {
      if i < |s.items| { assert Truthful(s, remote, s.items[i].ranges); }
    }
    forall j | 0 <= j < |t.threads| ensures ThreadOk(t, remote, t.threads[j]) {
      assert ThreadOk(s, remote, s.threads[j]);
    }
  }

  lemma BeginInv(s: State, remote: Remote, e: Event)
    requires Inv(s, remote) && Enabled(s, remote, e)
    requires e.BeginWrite? || e.BeginFlush? || e.BeginRead?
    ensures var t := Next(s, remote, e); Inv(t, remote) && Improves(s, t, remote)
  {
    var t := Next(s, remote, e);
    ThreadOnly(s, t, remote, |s.threads|, t.threads[|s.threads|]);
  }

  /** Every event keeps the invariant. Short of a crash or a fresh file, no open item forgets a byte. */
  lemma StepInv(s: State, remote: Remote, e: Event)
    requires Inv(s, remote) && Enabled(s, remote, e)
    ensures Inv(Next(s, remote, e), remote)
    ensures !(e.Crash? || e.Resize? || e.Expire?) ==> Improves(s, Next(s, remote, e), remote)
  {
    match e
    case Open => OpenInv(s, remote);
    case Act(k, action) => ActInv(s, remote, k, action);
    case Crash => SameFile(s, Next(s, remote, e), remote);
    case Resize(n) =>
    case Expire =>
    case _ => BeginInv(s, remote, e);
  }

  lemma StartInv(remote: Remote, fileSize: nat)
    requires IsRemote(remote) && fileSize < I63
    ensures Inv(Start(fileSize), remote)
  {}

  lemma {:induction false} RunInv(s: State, remote: Remote, es: seq<Event>)
    requires Inv(s, remote) && Runs(s, remote, es)
    ensures Inv(Final(s, remote, es), remote)
    decreases |es|
  {
    hide Inv, Next, Enabled, Improves;
    if es != [] {
      StepInv(s, remote, es[0]);
      RunInv(Next(s, remote, es[0]), remote, es[1..]);
    }
  }

  // ----- Main results -----

  /** In every reachable state of any interleaving of writers, flushers, readers, crashes and
      reopenings: every byte an open item claims is in the file and is the remote byte. */
  lemma ClaimedBytesAreRight(remote: Remote, fileSize: nat, es: seq<Event>, i: nat, b: nat)
    requires IsRemote(remote) && fileSize < I63 && Runs(Start(fileSize), remote, es)
    requires var s := Final(Start(fileSize), remote, es);
      i < |s.items| && Has(s.items[i].ranges, b)
    ensures var s := Final(Start(fileSize), remote, es);
      b < s.fileSize && |s.disk| == s.fileSize && s.disk[b] == remote(s.fileSize)[b]
  {
    StartInv(remote, fileSize);
    RunInv(Start(fileSize), remote, es);
    var s := Final(Start(fileSize), remote, es);
    assert Truthful(s, remote, s.items[i].ranges);
    assert Right(s, remote, b);
  }

  /** Every completed read returned exactly the remote bytes asked for, clamped to the file. */
  lemma ReadsAreExact(remote: Remote, fileSize: nat, es: seq<Event>, k: nat)
    requires IsRemote(remote) && fileSize < I63 && Runs(Start(fileSize), remote, es)
    requires var s := Final(Start(fileSize), remote, es);
      k < |s.threads| && s.threads[k].Replied?
    ensures var s := Final(Start(fileSize), remote, es);
      s.threads[k].data == Slice(remote(s.fileSize), s.threads[k].off, s.threads[k].size)
  {
    StartInv(remote, fileSize);
    RunInv(Start(fileSize), remote, es);
    var s := Final(Start(fileSize), remote, es);
    assert ThreadOk(s, remote, s.threads[k]);
  }

  /** A reader that has seen its range covered can always finish, whatever the others do. */
  lemma CoveredReadGoesOn(s: State, remote: Remote, k: nat)
    requires Inv(s, remote) && k < |s.threads| && s.threads[k].Reading?
    ensures Enabled(s, remote, Act(k, GetByte)) || Enabled(s, remote, Act(k, Reply))
  {
    assert ThreadOk(s, remote, s.threads[k]);
  }

  predicate Fails(a: Action) { a.WriteFails? || a.StoreFails? || a.GiveUp? }

  /** Nor is any other thread ever stuck: without an error it is over, waits for its range to be recorded,
      or can go on. A forced flush of a dirty item goes on to its snapshot, and only a clean one may stop. */
  lemma NeverStuck(s: State, remote: Remote, k: nat)
    requires Inv(s, remote) && k < |s.threads|
    ensures var t := s.threads[k];
      && (t.Replied? || t.Gone? || t.Waiting? || exists a :: CanAct(s, k, a) && !Fails(a))
      && (t.Waiting? ==>
            && t.item < |s.items|
            && (CanAct(s, k, See) <==>
                  Covers(s.items[t.item].ranges, t.off, ReadEnd(s.fileSize, t.off, t.size))))
      && (t.Flushing? && t.forced ==>
            && t.item < |s.items|
            && (CanAct(s, k, Pass) <==> s.items[t.item].dirty)
            && (CanAct(s, k, Skip) <==> !s.items[t.item].dirty))
  {
    var t := s.threads[k];
    assert ThreadOk(s, remote, t);
    match t
    case Writing(_, _, n, done) => assert CanAct(s, k, if done < n then PutByte else Record);
    case Recorded(_) => assert CanAct(s, k, MarkDirty);
    case Flushing(i, _) => assert CanAct(s, k, if s.items[i].dirty then Pass else Skip);
    case Due(_) => assert CanAct(s, k, Snap);
    case Snapped(_, _) => assert CanAct(s, k, Store(0));
    case Stored(_) => assert CanAct(s, k, Clear);
    case Reading(_, _, _, _) => CoveredReadGoesOn(s, remote, k); assert CanAct(s, k, GetByte) || CanAct(s, k, Reply);
    case Waiting(i, off, size) =>
      assert Truthful(s, remote, s.items[i].ranges);
      HasRangeIsCoverage(s.items[i].ranges, off, ReadEnd(s.fileSize, off, size));
    case _ =>
  }

  /** Restart soundness: cut the power after any run whatsoever. The file still opens, and every
      byte the reopened item claims is in the file and is the remote byte. */
  lemma RestartIsSound(remote: Remote, fileSize: nat, es: seq<Event>)
    requires IsRemote(remote) && fileSize < I63 && Runs(Start(fileSize), remote, es)
    ensures var s := Next(Final(Start(fileSize), remote, es), remote, Crash);
      && Enabled(s, remote, Open)
      && var t := Next(s, remote, Open);
        && |t.items| == 1
        && forall b | Has(t.items[0].ranges, b) :: 0 <= b < |t.disk| && t.disk[b] == RemoteByte(remote, t.fileSize, b)
  {
    StartInv(remote, fileSize);
    RunInv(Start(fileSize), remote, es);
    var s := Final(Start(fileSize), remote, es);
    StepInv(s, remote, Crash);
    var s' := Next(s, remote, Crash);
    OpenInv(s', remote);
    var t := Next(s', remote, Open);
    assert Truthful(t, remote, t.items[0].ranges);
    forall b | Has(t.items[0].ranges, b) ensures 0 <= b < |t.disk| && t.disk[b] == RemoteByte(remote, t.fileSize, b) {
      assert Right(t, remote, b);
    }
  }
}
