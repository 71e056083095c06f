/** Persistent range metadata: the packed little-endian blob and the keyed table around it. */
module RangeDb {
  import opened Wrappers
  import opened ByteRanges

  type Byte = b: nat | b < 256

  const U64: nat := 0x1_0000_0000_0000_0000
  const I63: nat := 0x8000_0000_0000_0000
  const SCHEMA_VERSION := 2

  // ----- Little-endian integers -----

  /** 256 to the power `k`. */
  function Pow256(k: nat): nat { if k == 0 then 1 else 256 * Pow256(k - 1) }

  function ToLe(n: nat, width: nat): (s: seq<Byte>)
    ensures |s| == width
  {
    if width == 0 then [] else [n % 256] + ToLe(n / 256, width - 1)
  }

  function FromLe(s: seq<Byte>): nat {
    if s == [] then 0 else s[0] + 256 * FromLe(s[1..])
  }

  lemma {:induction false} FromToLe(n: nat, width: nat)
    requires n < Pow256(width)
    ensures FromLe(ToLe(n, width)) == n
  {
    if width != 0 {
      FromToLe(n / 256, width - 1);
      assert ToLe(n, width)[1..] == ToLe(n / 256, width - 1);
    }
  }

  lemma {:induction false} ToFromLe(s: seq<Byte>)
    ensures FromLe(s) < Pow256(|s|)
    ensures ToLe(FromLe(s), |s|) == s
  {
    if s != [] {
      ToFromLe(s[1..]);
      assert FromLe(s) % 256 == s[0] && FromLe(s) / 256 == FromLe(s[1..]);
    }
  }

  lemma Pow256Of8()
    ensures Pow256(8) == U64
  {
    assert Pow256(4) == 0x1_0000_0000;
  }

  // ----- The blob -----

  /** Every bound fits the 64-bit fields of the blob. */
  ghost predicate FitsU64(iv: seq<Interval>) {
    forall i | 0 <= i < |iv| :: iv[i].lo < U64 && iv[i].hi < U64
  }

  function Encoded(iv: seq<Interval>): (blob: seq<Byte>)
    ensures |blob| == 16 * |iv| && |blob| % 16 == 0
  {
    if iv == [] then [] else ToLe(iv[0].lo, 8) + ToLe(iv[0].hi, 8) + Encoded(iv[1..])
  }

  function Decoded(blob: seq<Byte>): (iv: seq<Interval>)
    requires |blob| % 16 == 0
    ensures 16 * |iv| == |blob|
  {
    if blob == [] then []
    else [Interval(FromLe(blob[..8]), FromLe(blob[8..16]))] + Decoded(blob[16..])
  }

  /** Decoding undoes encoding on every list of 64-bit intervals. */
  lemma {:induction false} DecodeEncode(iv: seq<Interval>)
    requires FitsU64(iv)
    ensures Decoded(Encoded(iv)) == iv
  {
    if iv != [] {
      var blob := Encoded(iv);
      Pow256Of8();
      FromToLe(iv[0].lo, 8);
      FromToLe(iv[0].hi, 8);
      assert blob[..8] == ToLe(iv[0].lo, 8);
      assert blob[8..16] == ToLe(iv[0].hi, 8);
      assert blob[16..] == Encoded(iv[1..]);
      DecodeEncode(iv[1..]);
    }
  }

  /** Encoding undoes decoding on every blob of whole records: no two blobs share a meaning. */
  lemma {:induction false} EncodeDecode(blob: seq<Byte>)
    requires |blob| % 16 == 0
    ensures FitsU64(Decoded(blob))
    ensures Encoded(Decoded(blob)) == blob
  {
    if blob != [] {
      EncodeDecode(blob[16..]);
      Pow256Of8();
      ToFromLe(blob[..8]);
      ToFromLe(blob[8..16]);
      var iv := Decoded(blob);
      assert iv[1..] == Decoded(blob[16..]);
      assert iv[0] == Interval(FromLe(blob[..8]), FromLe(blob[8..16]));
      hide ToLe, FromLe, Pow256, Decoded;
      assert Encoded(iv) == blob[..8] + blob[8..16] + blob[16..];
      FirstRecord(blob);
    }
  }

  lemma FirstRecord(blob: seq<Byte>)
    requires |blob| >= 16
    ensures blob == blob[..8] + blob[8..16] + blob[16..]
  {}

  lemma {:induction false} EncodedConcat(a: seq<Interval>, b: seq<Interval>)
    ensures Encoded(a + b) == Encoded(a) + Encoded(b)
  {
    hide ToLe;
    if a == [] {
      assert a + b == b;
    } else {
      EncodedConcat(a[1..], b);
      assert (a + b)[1..] == a[1..] + b;
      assert Encoded(a + b) == ToLe(a[0].lo, 8) + ToLe(a[0].hi, 8) + (Encoded(a[1..]) + Encoded(b));
    }
  }

  method EncodeRangesBlob(iv: seq<Interval>) returns (blob: seq<Byte>)
    ensures blob == Encoded(iv)
  {
    blob := [];
    for i := 0 to |iv|
      invariant blob == Encoded(iv[..i])
    {
      blob := blob + ToLe(iv[i].lo, 8);
      blob := blob + ToLe(iv[i].hi, 8);
      EncodedConcat(iv[..i], [iv[i]]);
      assert iv[..i + 1] == iv[..i] + [iv[i]];
      assert Encoded([iv[i]]) == ToLe(iv[i].lo, 8) + ToLe(iv[i].hi, 8);
    }
    assert iv[..|iv|] == iv;
  }

  /** Rejects exactly the blobs that are not whole 16-byte records. */
  method DecodeRangesBlob(blob: seq<Byte>) returns (r: Result<seq<Interval>, string>)
    ensures r.Ok? <==> |blob| % 16 == 0
    ensures r.Ok? ==> r.value == Decoded(blob)
  {
    if |blob| % 16 != 0 {
      return Err("ranges_blob has invalid length");
    }
    var out, i := [], 0;
    while i < |blob|
      invariant 0 <= i <= |blob| && i % 16 == 0
      invariant out + Decoded(blob[i..]) == Decoded(blob)
    {
      var chunk := blob[i..][..16];
      assert blob[i..][..8] == chunk[..8] && blob[i..][8..16] == chunk[8..];
      assert blob[i..][16..] == blob[i + 16..];
      out := out + [Interval(FromLe(chunk[..8]), FromLe(chunk[8..]))];
      i := i + 16;
    }
    return Ok(out);
  }

  // ----- The table -----

  /** A stored row; `fileSize` is the signed column, `schema` the row's format version. */
  datatype Row = Row(fileSize: int, updatedAt: int, blob: seq<Byte>, schema: int)

  datatype RangeRow = RangeRow(fileSize: nat, updatedAt: int, ranges: seq<Interval>)

  /** Rust's `as i64` on a u64. */
  function AsI64(n: nat): int { if n < I63 then n else n - U64 }

  /** What `get` makes of a stored row. */
  function ReadRow(row: Row): Result<Option<RangeRow>, string> {
    if row.schema != SCHEMA_VERSION then Ok(None)
    else if |row.blob| % 16 != 0 then Err("ranges_blob has invalid length")
    else Ok(Some(RangeRow(Max(row.fileSize, 0), row.updatedAt, InsertedAll([], Decoded(row.blob)))))
  }

  /** What `upsert` stores. */
  function WriteRow(fileSize: nat, updatedAt: int, ranges: seq<Interval>): Row {
    Row(AsI64(fileSize), updatedAt, Encoded(ranges), SCHEMA_VERSION)
  }

  /** Reading back a written row gives the identical range set, and the identical size
      exactly when the size fits the signed column; a larger one comes back as 0. */
  lemma ReadWriteRow(fileSize: nat, updatedAt: int, ranges: seq<Interval>)
    requires Normal(ranges) && FitsU64(ranges) && fileSize < U64
    ensures var back := ReadRow(WriteRow(fileSize, updatedAt, ranges));
      && back.Ok? && back.value.Some?
      && back.value.value.ranges == ranges && back.value.value.updatedAt == updatedAt
      && back.value.value.fileSize == if fileSize < I63 then fileSize else 0
  {
    DecodeEncode(ranges);
    RebuildNormal(ranges);
    hide Normal, FitsU64, Encoded, Decoded, InsertedAll;
  }

  /** Whatever a row holds, reading it never yields a malformed range set. */
  lemma ReadRowIsNormal(row: Row)
    requires ReadRow(row).Ok? && ReadRow(row).value.Some?
    ensures Normal(ReadRow(row).value.value.ranges)
    ensures SameBytes(ReadRow(row).value.value.ranges, Decoded(row.blob))
  {
    InsertedAllIsUnion([], Decoded(row.blob));
  }

  class RangeDb {
    var rows: map<string, Row>

    constructor ()
      ensures rows == map[]
    {
      rows := map[];
    }

    method Get(key: string) returns (r: Result<Option<RangeRow>, string>)
      ensures r == if key in rows then ReadRow(rows[key]) else Ok(None)
    {
      if key !in rows {
        return Ok(None);
      }
      var row := rows[key];
      if row.schema != SCHEMA_VERSION {
        return Ok(None);
      }
      var parsed := DecodeRangesBlob(row.blob);
      if parsed.Err? {
        return Err("ranges_blob has invalid length");
      }
      var ranges := new RangeSet();
      ranges.FromIntervals(parsed.value);
      return Ok(Some(RangeRow(Max(row.fileSize, 0), row.updatedAt, ranges.intervals)));
    }

    method Upsert(key: string, fileSize: nat, updatedAt: int, ranges: seq<Interval>)
      modifies this
      ensures rows == old(rows)[key := WriteRow(fileSize, updatedAt, ranges)]
    {
      var blob := EncodeRangesBlob(ranges);
      rows := rows[key := Row(AsI64(fileSize), updatedAt, blob, SCHEMA_VERSION)];
    }

    /** Deletes the rows of `keys` and reports how many there were. */
    method DeleteKeys(keys: set<string>) returns (deleted: nat)
      modifies this
      ensures rows == old(rows) - keys
      ensures deleted == |old(rows)| - |rows|
    {
      deleted := |rows.Keys * keys|;
      assert (rows - keys).Keys == rows.Keys - keys;
      assert |rows.Keys - keys| + |rows.Keys * keys| == |rows.Keys|;
      rows := rows - keys;
    }
  }
}
