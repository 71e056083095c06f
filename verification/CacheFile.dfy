/** The cache item as one caller at a time sees it: a sparse file, the ranges it holds, handle
    counting, and the debounced flush of the ranges to the row. */
module CacheFile {
  import opened Wrappers
  import opened ByteRanges
  import opened RangeDb
  import C = CacheItem

  const FLUSH_DEBOUNCE := 2

  /** The file holds the remote byte wherever the intervals claim one. */
  ghost predicate Claims(file: seq<Byte>, iv: seq<Interval>, remote: seq<Byte>) {
    |remote| == |file| && forall b | Has(iv, b) :: 0 <= b < |file| && file[b] == remote[b]
  }

  lemma SplicedInside(s: seq<Byte>, data: seq<Byte>, offset: nat, b: int)
    requires offset + |data| <= |s| && offset <= b < offset + |data|
    ensures (s[..offset] + data + s[offset + |data|..])[b] == data[b - offset]
  {}

  lemma SplicedOutside(s: seq<Byte>, data: seq<Byte>, offset: nat, b: int)
    requires offset + |data| <= |s| && (0 <= b < offset || offset + |data| <= b < |s|)
    ensures (s[..offset] + data + s[offset + |data|..])[b] == s[b]
  {}

  /** Writing remote bytes and claiming their range keeps every claim true. */
  lemma TruthKept(before: seq<Byte>, after: seq<Byte>, iv: seq<Interval>, offset: nat, data: seq<Byte>,
                  remote: seq<Byte>)
    requires Claims(before, iv, remote) && Normal(iv)
    requires offset + |data| <= |before| == |after|
    requires forall j | 0 <= j < |data| :: data[j] == remote[offset + j]
    requires forall b | 0 <= b < |after| ::
      after[b] == if offset <= b < offset + |data| then data[b - offset] else before[b]
    ensures Claims(after, Inserted(iv, offset, offset + |data|), remote)
  {
    InsertedIsUnion(iv, offset, offset + |data|);
    hide Inserted, Normal, Has;
    forall b | Has(Inserted(iv, offset, offset + |data|), b) ensures 0 <= b < |after| && after[b] == remote[b] {
      if offset <= b < offset + |data| { assert data[b - offset] == remote[offset + (b - offset)]; }
    }
  }

  lemma SpliceKeepsTruth(before: seq<Byte>, iv: seq<Interval>, offset: nat, data: seq<Byte>, remote: seq<Byte>)
    requires Claims(before, iv, remote) && Normal(iv)
    requires offset + |data| <= |before| && data == remote[offset..offset + |data|]
    ensures Claims(before[..offset] + data + before[offset + |data|..], Inserted(iv, offset, offset + |data|), remote)
  {
    hide Inserted, Normal, Has;
    var after := before[..offset] + data + before[offset + |data|..];
    forall b | 0 <= b < |before|
      ensures after[b] == if offset <= b < offset + |data| then data[b - offset] else before[b]
    {
      if offset <= b < offset + |data| {
        SplicedInside(before, data, offset, b);
      } else {
        SplicedOutside(before, data, offset, b);
      }
    }
    TruthKept(before, after, iv, offset, data, remote);
  }

  class CacheFile {
    const fileSize: nat
    const key: string
    const db: RangeDb
    const file: array<Byte>
    const ranges: RangeSet
    var opens: nat
    var dirty: bool
    var lastPersist: nat

    ghost predicate Valid()
      reads this, ranges, file
    {
      ranges.Valid() && file.Length == fileSize
    }

    ghost predicate Truthful(remote: seq<Byte>)
      reads this, ranges, file
    {
      Valid() && Claims(file[..], ranges.intervals, remote)
    }

    /** What the row says about this file after a flush at time `now`. */
    ghost function Flushed(rows: map<string, Row>, now: nat): map<string, Row>
      reads this, ranges
    {
      rows[key := WriteRow(fileSize, now, ranges.intervals)]
    }

    /** The row is readable and describes a file of another size. */
    static ghost predicate OtherSize(row: Row, fileSize: nat) {
      var r := ReadRow(row);
      r.Ok? && r.value.Some? && r.value.value.fileSize != fileSize
    }

    /** The row of `key` is one that was written for a file of size `n` with the ranges `iv`. */
    static ghost predicate WrittenFor(rows: map<string, Row>, key: string, n: nat, iv: seq<Interval>) {
      && n < I63 && Normal(iv) && FitsU64(iv)
      && key in rows && rows[key] == WriteRow(n, rows[key].updatedAt, iv)
    }

    constructor (key: string, file: array<Byte>, db: RangeDb, ranges: RangeSet, now: nat)
      ensures this.key == key && this.file == file && this.db == db && this.ranges == ranges
      ensures fileSize == file.Length && opens == 0 && !dirty && lastPersist == now
    {
      this.key, this.file, this.db, this.ranges := key, file, db, ranges;
      fileSize := file.Length;
      opens, dirty, lastPersist := 0, false, now;
    }

    /** Open an existing file of the right length. Ranges come back exactly when the row was written for
        this size; without a row, or with one of another format or size, the item claims nothing, and a
        row of another size is deleted. A malformed row is an error, and no item comes of it. */
    static method OpenOrCreate(key: string, file: array<Byte>, db: RangeDb, now: nat)
      returns (r: Result<CacheFile, string>)
      modifies db
      ensures r.Err? <==> key in old(db.rows)
                          && old(db.rows)[key].schema == SCHEMA_VERSION && |old(db.rows)[key].blob| % 16 != 0
      ensures r.Ok? ==>
        && fresh(r.value) && fresh(r.value.ranges) && r.value.Valid()
        && r.value.key == key && r.value.file == file && r.value.db == db
        && r.value.opens == 0 && !r.value.dirty && r.value.lastPersist == now
      ensures r.Ok? && (key !in old(db.rows) || old(db.rows)[key].schema != SCHEMA_VERSION
                        || OtherSize(old(db.rows)[key], file.Length)) ==>
        r.value.ranges.intervals == []
      ensures r.Ok? && key in old(db.rows) && old(db.rows)[key].schema == SCHEMA_VERSION
              && !OtherSize(old(db.rows)[key], file.Length) ==>
        SameBytes(r.value.ranges.intervals, Decoded(old(db.rows)[key].blob))
      ensures forall n: nat, iv | WrittenFor(old(db.rows), key, n, iv) ::
        r.Ok? && r.value.ranges.intervals == (if n == file.Length then iv else [])
      ensures forall iv, remote | WrittenFor(old(db.rows), key, file.Length, iv) && Claims(file[..], iv, remote) ::
        r.Ok? && r.value.Truthful(remote)
      ensures var row := if key in old(db.rows) then Some(old(db.rows)[key]) else None;
        r.Ok? ==> C.Restored(row, file.Length) == Ok(r.value.ranges.intervals)
      ensures db.rows ==
        if key in old(db.rows) && OtherSize(old(db.rows)[key], file.Length) then old(db.rows) - {key}
        else old(db.rows)
    {
      ghost var before := db.rows;
      if key in before { C.RestoredMeaning(before[key], file.Length); }
      forall n: nat, iv | WrittenFor(before, key, n, iv)
        ensures C.Restored(Some(before[key]), file.Length) == Ok(if n == file.Length then iv else [])
      {
        C.RestoredAfterWrite(n, before[key].updatedAt, iv, file.Length);
      }
      hide C.Restored, Decoded, WriteRow, WrittenFor, Has;
      var ranges := new RangeSet();
      var row := db.Get(key);
      if row.Err? {
        return Err(row.error);
      }
      if row.value.Some? {
        if row.value.value.fileSize == file.Length {
          ReadRowIsNormal(db.rows[key]);
          ranges.FromIntervals(row.value.value.ranges);
          RebuildNormal(row.value.value.ranges);
        } else {
          var _ := db.DeleteKeys({key});
        }
      }
      var item := new CacheFile(key, file, db, ranges, now);
      return Ok(item);
    }

    method Open()
      modifies this`opens
      ensures opens == old(opens) + 1
    {
      opens := opens + 1;
    }

    /** Closing the last handle forces a flush; closing more handles than were opened does nothing. */
    method Release(now: nat)
      requires Valid()
      modifies this, db
      ensures opens == Max(old(opens) - 1, 0)
      ensures old(opens) == 1 && old(dirty) ==>
        !dirty && lastPersist == now && db.rows == old(Flushed(db.rows, now))
      ensures !(old(opens) == 1 && old(dirty)) ==>
        dirty == old(dirty) && lastPersist == old(lastPersist) && db.rows == old(db.rows)
    {
      var prev := opens;
      opens := Max(opens - 1, 0);
      if prev == 1 {
        FlushRanges(true, now);
      }
    }

    /** Write the ranges to the row, unless there is nothing new or, unforced, the last write is recent. */
    method FlushRanges(force: bool, now: nat)
      requires Valid()
      modifies this`dirty, this`lastPersist, db
      ensures var due := old(dirty) && (force || Max(now - old(lastPersist), 0) >= FLUSH_DEBOUNCE);
        if due then !dirty && lastPersist == now && db.rows == old(Flushed(db.rows, now))
        else dirty == old(dirty) && lastPersist == old(lastPersist) && db.rows == old(db.rows)
    {
      if !dirty { return; }
      if !force && Max(now - lastPersist, 0) < FLUSH_DEBOUNCE { return; }
      var snapshot := ranges.intervals;
      db.Upsert(key, fileSize, now, snapshot);
      lastPersist := now;
      dirty := false;
    }

    /** Put `data` in the file, then in the ranges, then perhaps in the row, in that order. */
    method WriteRange(offset: nat, data: seq<Byte>, now: nat, ghost remote: seq<Byte>)
      requires Valid() && offset + |data| <= fileSize
      modifies this`dirty, this`lastPersist, db, ranges, file
      ensures Valid()
      ensures file[..] == old(file[..offset]) + data + old(file[offset + |data|..])
      ensures ranges.intervals == Inserted(old(ranges.intervals), offset, offset + |data|)
      ensures
        if data == [] then dirty == old(dirty) && lastPersist == old(lastPersist) && db.rows == old(db.rows)
        else if Max(now - old(lastPersist), 0) < FLUSH_DEBOUNCE then
          dirty && lastPersist == old(lastPersist) && db.rows == old(db.rows)
        else !dirty && lastPersist == now && db.rows == Flushed(old(db.rows), now)
      ensures old(Truthful(remote)) && data == remote[offset..offset + |data|] ==> Truthful(remote)
    {
      if data == [] {
        return;
      }
      hide Inserted, Normal, Has, Claims, WriteRow;
      WriteAndRecord(offset, data, remote);
      dirty := true;
      FlushRanges(false, now);
    }

    method WriteAndRecord(offset: nat, data: seq<Byte>, ghost remote: seq<Byte>)
      requires Valid() && data != [] && offset + |data| <= fileSize
      modifies ranges, file
      ensures Valid()
      ensures file[..] == old(file[..offset]) + data + old(file[offset + |data|..])
      ensures ranges.intervals == Inserted(old(ranges.intervals), offset, offset + |data|)
      ensures old(Truthful(remote)) && data == remote[offset..offset + |data|] ==> Truthful(remote)
    {
      hide Inserted, Normal, Has;
      ghost var before, held := file[..], ranges.intervals;
      WriteAll(offset, data);
      ranges.Insert(offset, offset + |data|);
      assert file[..] == before[..offset] + data + before[offset + |data|..];
      if old(Truthful(remote)) && data == remote[offset..offset + |data|] {
        SpliceKeepsTruth(before, held, offset, data, remote);
      }
    }

    /** Seek and write every byte. */
    method WriteAll(offset: nat, data: seq<Byte>)
      requires offset + |data| <= file.Length
      modifies file
      ensures file[..] == old(file[..offset]) + data + old(file[offset + |data|..])
      ensures forall b | 0 <= b < file.Length ::
        file[b] == if offset <= b < offset + |data| then data[b - offset] else old(file[b])
    {
      for i := 0 to |data|
        invariant forall b | 0 <= b < file.Length ::
          file[b] == if offset <= b < offset + i then data[b - offset] else old(file[b])
      {
        file[offset + i] := data[i];
      }
    }

    /** Read straight from the file, clamped to its end. */
    method ReadFromFile(offset: nat, size: nat) returns (data: seq<Byte>)
      requires Valid()
      ensures data == C.Slice(file[..], offset, size)
    {
      var toRead := Min(size, Max(fileSize - offset, 0));
      data := if toRead == 0 then [] else file[offset..offset + toRead];
    }

    /** The part of `read_at` that needs no download. `None` means the range is not covered yet. */
    method ReadIfCovered(offset: nat, size: nat, ghost remote: seq<Byte>) returns (r: Option<seq<Byte>>)
      requires Truthful(remote)
      ensures r.Some? <==> offset >= fileSize || Covers(ranges.intervals, offset, C.ReadEnd(fileSize, offset, size))
      ensures r.Some? ==> r.value == C.Slice(remote, offset, size)
    {
      var end := Min(offset + size, fileSize);
      if offset >= fileSize {
        return Some([]);
      }
      HasRangeIsCoverage(ranges.intervals, offset, end);
      if !HasRange(ranges.intervals, offset, end) {
        return None;
      }
      var data := ReadFromFile(offset, end - offset);
      assert forall b | offset <= b < end :: file[..][b] == remote[b];
      assert file[offset..end] == remote[offset..end];
      return Some(data);
    }
  }
}
