/** Sorted, merged lists of half-open byte intervals: the record of which bytes
    of a remote file are on disk. */
module ByteRanges {
  import opened Wrappers

  /** File offsets have 64 bits. */
  const U64_MAX: nat := 0xFFFF_FFFF_FFFF_FFFF

  /** The half-open interval [lo, hi). */
  datatype Interval = Interval(lo: nat, hi: nat)

  function Min(a: int, b: int): int { if a <= b then a else b }

  function Max(a: int, b: int): int { if a <= b then b else a }

  /** Byte `b` lies in one of the intervals. */
  ghost predicate Has(iv: seq<Interval>, b: int) {
    exists i | 0 <= i < |iv| :: iv[i].lo <= b < iv[i].hi
  }

  /** Every byte of [lo, hi) lies in one of the intervals. */
  ghost predicate Covers(iv: seq<Interval>, lo: int, hi: int) {
    forall b | lo <= b < hi :: Has(iv, b)
  }

  /** The two lists describe the same set of bytes. */
  ghost predicate SameBytes(a: seq<Interval>, b: seq<Interval>) {
    forall x :: Has(a, x) <==> Has(b, x)
  }

  /** The structural invariant: no empty interval, sorted, disjoint, non-adjacent. */
  ghost predicate Normal(iv: seq<Interval>) {
    && (forall i | 0 <= i < |iv| :: iv[i].lo < iv[i].hi)
    && (forall i, j | 0 <= i < j < |iv| :: iv[i].hi < iv[j].lo)
  }

  lemma HasConcat(a: seq<Interval>, b: seq<Interval>)
    ensures forall x :: Has(a + b, x) <==> Has(a, x) || Has(b, x)
  {
    forall x ensures Has(a + b, x) <==> Has(a, x) || Has(b, x) {
      if Has(b, x) {
        var j :| 0 <= j < |b| && b[j].lo <= x < b[j].hi;
        assert (a + b)[|a| + j] == b[j];
      }
      if Has(a, x) {
        var j :| 0 <= j < |a| && a[j].lo <= x < a[j].hi;
        assert (a + b)[j] == a[j];
      }
    }
  }

  lemma HasOne(v: Interval)
    ensures forall x :: Has([v], x) <==> v.lo <= x < v.hi
  {
    forall x ensures Has([v], x) <==> v.lo <= x < v.hi {
      assert [v][0] == v;
    }
  }

  lemma HasCons(iv: seq<Interval>)
    requires iv != []
    ensures forall x :: Has(iv, x) <==> iv[0].lo <= x < iv[0].hi || Has(iv[1..], x)
  {
    assert iv == [iv[0]] + iv[1..];
    HasConcat([iv[0]], iv[1..]);
    HasOne(iv[0]);
  }

  // ----- Canonicity -----

  /** A normal list is determined by the set of bytes it covers. */
  lemma {:induction false} Canonical(a: seq<Interval>, b: seq<Interval>)
    requires Normal(a) && Normal(b) && SameBytes(a, b)
    ensures a == b
  {
    if a == [] || b == [] {
      assert a != [] ==> Has(a, a[0].lo);
      assert b != [] ==> Has(b, b[0].lo);
    } else {
      FirstInterval(a, b);
      FirstInterval(b, a);
      TailBytes(a);
      TailBytes(b);
      Canonical(a[1..], b[1..]);
      assert a == [a[0]] + a[1..] && b == [b[0]] + b[1..];
    }
  }

  lemma TailBytes(a: seq<Interval>)
    requires Normal(a) && a != []
    ensures Normal(a[1..])
    ensures forall x :: Has(a[1..], x) <==> Has(a, x) && a[0].hi <= x
  {
    HasCons(a);
    forall x | Has(a[1..], x) ensures a[0].hi <= x {
      var j :| 0 <= j < |a[1..]| && a[1..][j].lo <= x < a[1..][j].hi;
      assert a[0].hi < a[j + 1].lo;
    }
  }

  lemma FirstInterval(a: seq<Interval>, b: seq<Interval>)
    requires Normal(a) && Normal(b) && a != [] && b != [] && SameBytes(a, b)
    ensures b[0].lo <= a[0].lo
    ensures b[0].lo == a[0].lo ==> a[0].hi <= b[0].hi
  {
    assert Has(a, a[0].lo);
    var end := b[0].hi;
    assert a[0].lo <= end < a[0].hi ==> Has(a, end);
  }

  // ----- Insertion, in its simple recursive form -----

  /** Insert [s, e) into a sorted list, absorbing every interval it touches. */
  function Inserted(iv: seq<Interval>, s: nat, e: nat): seq<Interval> {
    if s >= e then iv
    else if iv == [] then [Interval(s, e)]
    else if iv[0].hi < s then [iv[0]] + Inserted(iv[1..], s, e)
    else if e < iv[0].lo then [Interval(s, e)] + iv
    else Inserted(iv[1..], Min(s, iv[0].lo), Max(e, iv[0].hi))
  }

  /** Insertion is set union, and it keeps the list normal. */
  lemma {:induction false} InsertedIsUnion(iv: seq<Interval>, s: nat, e: nat)
    requires Normal(iv)
    ensures Normal(Inserted(iv, s, e))
    ensures forall x :: Has(Inserted(iv, s, e), x) <==> Has(iv, x) || s <= x < e
  {
    if s >= e {
    } else if iv == [] {
      HasOne(Interval(s, e));
    } else if iv[0].hi < s {
      InsertedIsUnion(iv[1..], s, e);
      HasCons(iv);
      ConsNormal(iv[0], Inserted(iv[1..], s, e));
    } else if e < iv[0].lo {
      ConsNormal(Interval(s, e), iv);
    } else {
      InsertedIsUnion(iv[1..], Min(s, iv[0].lo), Max(e, iv[0].hi));
      HasCons(iv);
    }
  }

  lemma ConsNormal(v: Interval, rest: seq<Interval>)
    requires Normal(rest) && v.lo < v.hi
    requires forall x | Has(rest, x) :: v.hi < x
    ensures Normal([v] + rest)
    ensures forall x :: Has([v] + rest, x) <==> v.lo <= x < v.hi || Has(rest, x)
  {
    HasConcat([v], rest);
    HasOne(v);
    if rest != [] { assert Has(rest, rest[0].lo); }
  }

  // ----- Building from arbitrary intervals -----

  /** Insert a list of intervals one by one. */
  function InsertedAll(iv: seq<Interval>, more: seq<Interval>): seq<Interval>
    decreases |more|
  {
    if more == [] then iv
    else InsertedAll(Inserted(iv, more[0].lo, more[0].hi), more[1..])
  }

  lemma {:induction false} InsertedAllIsUnion(iv: seq<Interval>, more: seq<Interval>)
    requires Normal(iv)
    ensures Normal(InsertedAll(iv, more))
    ensures forall x :: Has(InsertedAll(iv, more), x) <==> Has(iv, x) || Has(more, x)
    decreases |more|
  {
    if more == [] {
    } else {
      InsertedIsUnion(iv, more[0].lo, more[0].hi);
      InsertedAllIsUnion(Inserted(iv, more[0].lo, more[0].hi), more[1..]);
      HasCons(more);
    }
  }

  /** What is built depends only on the bytes supplied, not on their order or grouping. */
  lemma BuildOrderIrrelevant(a: seq<Interval>, b: seq<Interval>)
    ensures InsertedAll([], a) == InsertedAll([], b) <==> SameBytes(a, b)
  {
    InsertedAllIsUnion([], a);
    InsertedAllIsUnion([], b);
    if SameBytes(a, b) {
      Canonical(InsertedAll([], a), InsertedAll([], b));
    }
    if InsertedAll([], a) == InsertedAll([], b) {
      forall x ensures Has(a, x) <==> Has(b, x) {
        assert Has(InsertedAll([], a), x) <==> Has(InsertedAll([], b), x);
      }
    }
  }

  /** Rebuilding a normal list from its own intervals gives it back. */
  lemma RebuildNormal(iv: seq<Interval>)
    requires Normal(iv)
    ensures InsertedAll([], iv) == iv
  {
    InsertedAllIsUnion([], iv);
    Canonical(InsertedAll([], iv), iv);
  }

  // ----- Queries -----

  /** Rust's `partition_point`: the length of the leading run that satisfies `pred`. */
  function PartitionPoint(iv: seq<Interval>, pred: Interval -> bool): (k: nat)
    ensures k <= |iv|
    ensures forall i | 0 <= i < k :: pred(iv[i])
    ensures k < |iv| ==> !pred(iv[k])
  {
    if iv == [] || !pred(iv[0]) then 0 else 1 + PartitionPoint(iv[1..], pred)
  }

  /** Whether [start, end) is covered: look only at the last interval that starts at or before `start`. */
  predicate HasRange(iv: seq<Interval>, start: nat, end: nat) {
    start >= end ||
    var idx := PartitionPoint(iv, (v: Interval) => v.lo <= start);
    idx != 0 && iv[idx - 1].hi >= end
  }

  /** The single-interval test decides coverage of the whole range. */
  lemma HasRangeIsCoverage(iv: seq<Interval>, start: nat, end: nat)
    requires Normal(iv)
    ensures HasRange(iv, start, end) <==> Covers(iv, start, end)
  {
    if start < end {
      var idx := PartitionPoint(iv, (v: Interval) => v.lo <= start);
      if !HasRange(iv, start, end) {
        var x := if idx == 0 then start else Max(start, iv[idx - 1].hi);
        assert !Has(iv, x) by {
          forall j | 0 <= j < |iv| ensures !(iv[j].lo <= x < iv[j].hi) {
            assert j < idx - 1 ==> iv[j].hi < iv[idx - 1].lo;
            assert idx < j ==> iv[idx].hi < iv[j].lo;
            assert 0 < idx <= j ==> iv[idx - 1].hi < iv[j].lo;
          }
        }
        assert start <= x < end;
      }
    }
  }

  function TotalBytes(iv: seq<Interval>): int {
    if iv == [] then 0 else iv[0].hi - iv[0].lo + TotalBytes(iv[1..])
  }

  /** The bytes of [lo, hi) as a set. */
  function Span(lo: nat, hi: nat): (bytes: set<nat>)
    ensures forall b :: b in bytes <==> lo <= b < hi
    ensures |bytes| == Max(0, hi - lo)
    decreases hi - lo
  {
    if lo >= hi then {} else {lo} + Span(lo + 1, hi)
  }

  /** The bytes of a list as a set. */
  ghost function Bytes(iv: seq<Interval>): (bytes: set<nat>) {
    if iv == [] then {} else Span(iv[0].lo, iv[0].hi) + Bytes(iv[1..])
  }

  lemma {:induction false} BytesAreHas(iv: seq<Interval>)
    ensures forall b: nat :: b in Bytes(iv) <==> Has(iv, b)
  {
    if iv != [] {
      BytesAreHas(iv[1..]);
      HasCons(iv);
    }
  }

  /** The reported total is the number of bytes covered, and no subtraction in it is negative. */
  lemma {:induction false} TotalBytesIsCardinality(iv: seq<Interval>)
    requires Normal(iv)
    ensures forall i | 0 <= i < |iv| :: iv[i].hi - iv[i].lo >= 0
    ensures TotalBytes(iv) == |Bytes(iv)|
  {
    if iv != [] {
      TotalBytesIsCardinality(iv[1..]);
      TailBytes(iv);
      BytesAreHas(iv[1..]);
      var first, rest := Span(iv[0].lo, iv[0].hi), Bytes(iv[1..]);
      assert first * rest == {};
      assert |first + rest| == |first| + |rest|;
    }
  }

  /** `gap` is the first maximal run of [start, end) that `iv` lacks. */
  ghost predicate FirstGap(iv: seq<Interval>, start: nat, end: nat, gap: Interval) {
    && start <= gap.lo < gap.hi <= end
    && Covers(iv, start, gap.lo)
    && (forall b | gap.lo <= b < gap.hi :: !Has(iv, b))
    && (gap.hi == end || Has(iv, gap.hi))
  }

  method FindMissing(iv: seq<Interval>, start: nat, end: nat) returns (gap: Option<Interval>)
    requires Normal(iv)
    ensures gap.None? <==> Covers(iv, start, end)
    ensures gap.Some? ==> FirstGap(iv, start, end, gap.value)
  {
    HasRangeIsCoverage(iv, start, end);
    if start >= end || HasRange(iv, start, end) {
      return None;
    }
    var cursor := start;
    for i := 0 to |iv|
      invariant start <= cursor < end
      invariant Covers(iv, start, cursor)
      invariant forall j | 0 <= j < i :: iv[j].hi <= cursor
    {
      if iv[i].lo > cursor {
        assert forall b | cursor <= b < iv[i].lo :: !Has(iv, b);
        assert Has(iv, iv[i].lo);
        assert !Has(iv, cursor);
        return Some(Interval(cursor, Min(iv[i].lo, end)));
      }
      if iv[i].hi > cursor {
        cursor := iv[i].hi;
      }
      if cursor >= end {
        return None;
      }
    }
    assert !Has(iv, cursor);
    return Some(Interval(cursor, end));
  }

  /** The slices are the complement of `iv` in [start, end), maximal and in order. */
  ghost predicate GapList(iv: seq<Interval>, start: nat, end: nat, slices: seq<Interval>) {
    && Normal(slices)
    && forall b :: Has(slices, b) <==> start <= b < end && !Has(iv, b)
  }

  /** One gap more. */
  lemma NextGap(iv: seq<Interval>, start: nat, pos: nat, end: nat, slices: seq<Interval>, gap: Interval)
    requires GapList(iv, start, pos, slices) && FirstGap(iv, pos, end, gap) && start <= pos
    requires forall i | 0 <= i < |slices| :: slices[i].hi <= pos
    requires slices != [] ==> Has(iv, pos)
    ensures GapList(iv, start, gap.hi, slices + [gap])
    ensures forall i | 0 <= i < |slices + [gap]| :: (slices + [gap])[i].hi <= gap.hi
  {
    HasConcat(slices, [gap]);
    HasOne(gap);
    assert slices != [] ==> pos < gap.lo;
    NormalConcat(slices, [gap]);
  }

  /** The downloader's walk: repeatedly ask for the first gap from where the last one ended. */
  method MissingSlices(iv: seq<Interval>, start: nat, targetEnd: nat) returns (slices: seq<Interval>)
    requires Normal(iv)
    ensures GapList(iv, start, targetEnd, slices)
  {
    slices := [];
    var pos := start;
    while pos < targetEnd
      invariant start <= pos && (pos == start || pos <= targetEnd)
      invariant GapList(iv, start, pos, slices)
      invariant forall i | 0 <= i < |slices| :: slices[i].hi <= pos
      invariant slices != [] && pos < targetEnd ==> Has(iv, pos)
      decreases targetEnd - pos
    {
      var gap := FindMissing(iv, pos, targetEnd);
      if gap.None? {
        return;
      }
      NextGap(iv, start, pos, targetEnd, slices, gap.value);
      slices := slices + [gap.value];
      pos := gap.value.hi;
    }
  }

  /** There is only one gap list, so it is the walk's whole specification. */
  lemma GapListUnique(iv: seq<Interval>, start: nat, end: nat, a: seq<Interval>, b: seq<Interval>)
    requires GapList(iv, start, end, a) && GapList(iv, start, end, b)
    ensures a == b
  {
    Canonical(a, b);
  }

  // ----- The mutable range set -----

  class RangeSet {
    var intervals: seq<Interval>

    ghost predicate Valid() reads this { Normal(intervals) }

    constructor ()
      ensures Valid() && intervals == []
    {
      intervals := [];
    }

    /** Find the first interval that may touch, scan to the last, splice one interval in. */
    method Insert(start: nat, end: nat)
      requires Valid()
      modifies this
      ensures Valid()
      ensures intervals == Inserted(old(intervals), start, end)
      ensures forall x :: Has(intervals, x) <==> Has(old(intervals), x) || start <= x < end
    {
      InsertedIsUnion(intervals, start, end);
      if start >= end { return; }
      var newStart, newEnd := start, end;
      var left := PartitionPoint(intervals, (v: Interval) => v.hi < start);
      var right := left;
      while right < |intervals| && intervals[right].lo <= newEnd
        invariant left <= right <= |intervals|
        invariant forall i | left <= i < right :: intervals[i].lo <= newEnd
      {
        right := right + 1;
      }
      if left < right {
        newStart := Min(newStart, intervals[left].lo);
        newEnd := Max(newEnd, intervals[right - 1].hi);
      }
      SpliceIsUnion(intervals, start, end, left, right, Interval(newStart, newEnd));
      intervals := intervals[..left] + [Interval(newStart, newEnd)] + intervals[right..];
      Canonical(intervals, Inserted(old(intervals), start, end));
    }

    /** Build from arbitrary intervals. */
    method FromIntervals(more: seq<Interval>)
      requires Valid() && intervals == []
      modifies this
      ensures Valid()
      ensures intervals == InsertedAll([], more)
      ensures SameBytes(intervals, more)
    {
      InsertedAllIsUnion([], more);
      for i := 0 to |more|
        invariant Valid()
        invariant InsertedAll(intervals, more[i..]) == InsertedAll([], more)
      {
        Insert(more[i].lo, more[i].hi);
        assert more[i..][1..] == more[i + 1..];
      }
    }
  }

  /** `block` is the run of `iv` between `left` and `right` that [start, end) touches. */
  ghost predicate TouchedBlock(iv: seq<Interval>, start: nat, end: nat, left: nat, right: nat) {
    && Normal(iv) && start < end && left <= right <= |iv|
    && (forall i | 0 <= i < left :: iv[i].hi < start)
    && (left < |iv| ==> iv[left].hi >= start)
    && (forall i | left <= i < right :: iv[i].lo <= end)
    && (right < |iv| ==> iv[right].lo > end)
  }

  ghost predicate MergedBounds(mid: seq<Interval>, start: nat, end: nat, v: Interval) {
    if mid == [] then v == Interval(start, end)
    else v.lo == Min(start, mid[0].lo) && v.hi == Max(end, mid[|mid| - 1].hi)
  }

  /** Replacing the touched block by one merged interval is a union. */
  lemma SpliceIsUnion(iv: seq<Interval>, start: nat, end: nat, left: nat, right: nat, v: Interval)
    requires TouchedBlock(iv, start, end, left, right)
    requires MergedBounds(iv[left..right], start, end, v)
    ensures Normal(iv[..left] + [v] + iv[right..])
    ensures forall x :: Has(iv[..left] + [v] + iv[right..], x) <==> Has(iv, x) || start <= x < end
  {
    SpliceBytes(iv, start, end, left, right, v);
    NormalConcat(iv[..left], [v]);
    NormalConcat(iv[..left] + [v], iv[right..]);
  }

  lemma TouchedMiddle(iv: seq<Interval>, start: nat, end: nat, left: nat, right: nat)
    requires TouchedBlock(iv, start, end, left, right)
    ensures var mid := iv[left..right];
      Normal(mid) && (mid != [] ==> mid[0].hi >= start && mid[|mid| - 1].lo <= end)
  {
    var mid := iv[left..right];
    forall i | 0 <= i < |mid| ensures mid[i] == iv[left + i] {}
    if mid != [] { assert iv[right - 1].lo <= end; }
  }

  lemma SpliceBytes(iv: seq<Interval>, start: nat, end: nat, left: nat, right: nat, v: Interval)
    requires TouchedBlock(iv, start, end, left, right)
    requires MergedBounds(iv[left..right], start, end, v)
    ensures forall x :: Has(iv[..left] + [v] + iv[right..], x) <==> Has(iv, x) || start <= x < end
  {
    var mid := iv[left..right];
    HasThree(iv[..left], mid, iv[right..]);
    HasThree(iv[..left], [v], iv[right..]);
    HasOne(v);
    assert iv == iv[..left] + mid + iv[right..];
    TouchedMiddle(iv, start, end, left, right);
    hide Normal, Has;
    forall x ensures Has(mid, x) || start <= x < end <==> v.lo <= x < v.hi {
      MergedBlock(mid, start, end, v, x);
    }
  }

  lemma MergedBlock(mid: seq<Interval>, start: nat, end: nat, v: Interval, x: int)
    requires Normal(mid) && start < end && MergedBounds(mid, start, end, v)
    requires mid != [] ==> mid[0].hi >= start && mid[|mid| - 1].lo <= end
    ensures Has(mid, x) || start <= x < end <==> v.lo <= x < v.hi
  {
    if Has(mid, x) {
      var j :| 0 <= j < |mid| && mid[j].lo <= x < mid[j].hi;
      assert j == 0 || mid[0].hi < mid[j].lo;
      assert j == |mid| - 1 || mid[j].hi < mid[|mid| - 1].lo;
    } else if mid != [] {
      assert !(mid[0].lo <= x < mid[0].hi) && !(mid[|mid| - 1].lo <= x < mid[|mid| - 1].hi);
    }
  }

  lemma HasThree(a: seq<Interval>, b: seq<Interval>, c: seq<Interval>)
    ensures forall x :: Has(a + b + c, x) <==> Has(a, x) || Has(b, x) || Has(c, x)
  {
    HasConcat(a, b);
    HasConcat(a + b, c);
  }

  lemma NormalConcat(a: seq<Interval>, b: seq<Interval>)
    requires Normal(a) && Normal(b)
    requires a != [] && b != [] ==> a[|a| - 1].hi < b[0].lo
    ensures Normal(a + b)
  {
    forall i, j | 0 <= i < j < |a + b| ensures (a + b)[i].hi < (a + b)[j].lo {
      if i < |a| <= j {
        assert i == |a| - 1 || a[i].hi < a[|a| - 1].lo;
        assert j == |a| || b[0].hi < b[j - |a|].lo;
      }
    }
  }
}
