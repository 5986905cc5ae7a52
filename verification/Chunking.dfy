/**
 * The arithmetic half of `PgCheckpointStore`: cutting a payload into chunks, removing repeated
 * chunks before the upsert, cutting row lists into parameter-safe statements, and verifying a
 * stored checkpoint while it is read back.
 *
 * SHA-256 is a function parameter `sha`. Nothing here claims that it is injective (a function into
 * 32 bytes cannot be); results say "equal, or these two particular strings collide".
 */
module Chunking {
  type Byte = b: int | 0 <= b < 256
  type Bytes = seq<Byte>
  type Sha = Bytes -> Bytes

  datatype Option<+T> = None | Some(value: T)

  /** Every digest is 32 bytes long. */
  ghost predicate Digest(sha: Sha) {
    forall b: Bytes :: |sha(b)| == 32
  }

  /** Two particular, different strings with the same digest. */
  predicate Collide(sha: Sha, a: Bytes, b: Bytes) {
    a != b && sha(a) == sha(b)
  }

  function Flatten<T>(parts: seq<seq<T>>): (whole: seq<T>)
  {
    if parts == [] then [] else parts[0] + Flatten(parts[1..])
  }

  lemma {:induction false} FlattenAppend<T>(parts: seq<seq<T>>, last: seq<T>)
    ensures Flatten(parts + [last]) == Flatten(parts) + last
  {
    if parts == [] {
      assert parts + [last] == [last];
    } else {
      FlattenAppend(parts[1..], last);
      assert (parts + [last])[1..] == parts[1..] + [last];
    }
  }

  /** Strings cut into equal-sized words can be cut in only one way. */
  lemma {:induction false} EqualWordsUnique<T>(a: seq<seq<T>>, b: seq<seq<T>>, width: nat)
    requires width > 0
    requires forall i :: 0 <= i < |a| ==> |a[i]| == width
    requires forall i :: 0 <= i < |b| ==> |b[i]| == width
    requires Flatten(a) == Flatten(b)
    ensures a == b
  {
    if a != [] && b != [] {
      assert a[0] == Flatten(a)[..width] == Flatten(b)[..width] == b[0];
      assert Flatten(a[1..]) == Flatten(a)[width..] == Flatten(b)[width..] == Flatten(b[1..]);
      EqualWordsUnique(a[1..], b[1..], width);
      assert a == [a[0]] + a[1..] && b == [b[0]] + b[1..];
    }
  }

  // ----- splitChunks -----------------------------------------------------------------------

  /** The reference cut: full chunks of `size` bytes, then the non-empty rest. */
  function Split(data: Bytes, size: nat): (chunks: seq<Bytes>)
    requires size > 0
    decreases |data|
  {
    if data == [] then []
    else if |data| <= size then [data]
    else [data[..size]] + Split(data[size..], size)
  }

  lemma {:induction false} SplitLossless(data: Bytes, size: nat)
    requires size > 0
    ensures Flatten(Split(data, size)) == data
    decreases |data|
  {
    if |data| > size {
      SplitLossless(data[size..], size);
      assert Split(data, size)[1..] == Split(data[size..], size);
    } else if data != [] {
      assert Split(data, size)[1..] == [];
    }
  }

  /** ceil(|data| / size) chunks, none of them empty, all but the last exactly `size` long. */
  lemma {:induction false} SplitShape(data: Bytes, size: nat)
    requires size > 0
    ensures var chunks := Split(data, size);
      && |chunks| == CeilDiv(|data|, size)
      && (forall i :: 0 <= i < |chunks| ==> 0 < |chunks[i]| <= size)
      && (forall i :: 0 <= i < |chunks| - 1 ==> |chunks[i]| == size)
    decreases |data|
  {
    CeilDivStep(|data|, size);
    if |data| > size {
      SplitShape(data[size..], size);
      assert Split(data, size)[1..] == Split(data[size..], size);
    }
  }

  function CeilDiv(n: nat, size: nat): (q: nat)
    requires size > 0
  {
    (n + size - 1) / size
  }

  lemma CeilDivStep(n: nat, size: nat)
    requires size > 0
    ensures n == 0 ==> CeilDiv(n, size) == 0
    ensures 0 < n <= size ==> CeilDiv(n, size) == 1
    ensures n > size ==> CeilDiv(n, size) == CeilDiv(n - size, size) + 1
  {
    if n == 0 {
      QuotientUnique(size - 1, size, 0);
    } else if n <= size {
      QuotientUnique(n + size - 1, size, 1);
    } else {
      var q := CeilDiv(n - size, size);
      assert (n - size + size - 1) == q * size + (n - 1) % size;
      assert (q + 1) * size == q * size + size;
      QuotientUnique(n + size - 1, size, q + 1);
    }
  }

  lemma QuotientUnique(n: nat, size: nat, q: nat)
    requires size > 0 && q * size <= n < q * size + size
    ensures n / size == q
  {
    var d := n / size;
    assert n == d * size + n % size;
    if d < q {
      Scale(d + 1, q, size);
    } else if d > q {
      Scale(q + 1, d, size);
    }
  }

  method SplitChunks(data: Bytes, size: nat) returns (chunks: seq<Bytes>)
    requires size > 0
    ensures chunks == Split(data, size)
    ensures Flatten(chunks) == data
  {
    chunks := [];
    var offset := 0;
    while offset < |data|
      invariant 0 <= offset
      invariant chunks + Split(data[if offset <= |data| then offset else |data|..], size) == Split(data, size)
    {
      var end := if offset + size <= |data| then offset + size else |data|;
      ghost var rest := data[offset..];
      assert Split(rest, size) == [data[offset..end]] + Split(data[end..], size) by {
        if |rest| > size {
          assert rest[..size] == data[offset..end] && rest[size..] == data[end..];
        } else {
          assert rest == data[offset..end] && data[end..] == [];
        }
      }
      chunks := chunks + [data[offset..end]];
      offset := offset + size;
    }
    SplitLossless(data, size);
  }

  // ----- saveImpl: de-duplication by hash ---------------------------------------------------

  datatype ChunkInsert = ChunkInsert(hash: Bytes, data: Bytes)

  function Hashes(sha: Sha, chunks: seq<Bytes>): (hashes: seq<Bytes>)
    ensures |hashes| == |chunks|
    ensures forall i :: 0 <= i < |chunks| ==> hashes[i] == sha(chunks[i])
  {
    seq(|chunks|, i requires 0 <= i < |chunks| => sha(chunks[i]))
  }

  predicate HasHash(rows: seq<ChunkInsert>, h: Bytes) { exists r :: 0 <= r < |rows| && rows[r].hash == h }

  lemma HasHashGrows(rows: seq<ChunkInsert>, row: ChunkInsert)
    ensures forall h :: HasHash(rows + [row], h) <==> HasHash(rows, h) || h == row.hash
  {
    forall h ensures HasHash(rows + [row], h) <==> HasHash(rows, h) || h == row.hash {
      if HasHash(rows, h) {
        var r :| 0 <= r < |rows| && rows[r].hash == h;
        assert (rows + [row])[r].hash == h;
      }
      if h == row.hash { assert (rows + [row])[|rows|].hash == h; }
    }
  }

  /** The loop that keeps one row per distinct hash. A multi-row upsert may not touch one conflict
      target twice, so the hashes must be pairwise different; nothing may be lost either. */
  method Dedupe(sha: Sha, chunks: seq<Bytes>) returns (rows: seq<ChunkInsert>)
    ensures forall r, r' :: 0 <= r < r' < |rows| ==> rows[r].hash != rows[r'].hash
    ensures forall i :: 0 <= i < |chunks| ==> HasHash(rows, sha(chunks[i]))
    ensures forall r :: 0 <= r < |rows| ==> rows[r].data in chunks && sha(rows[r].data) == rows[r].hash
    ensures |rows| <= |chunks|
  {
    var seen: set<Bytes> := {};
    rows := [];
    for i := 0 to |chunks|
      invariant |rows| <= i
      invariant forall h :: h in seen <==> HasHash(rows, h)
      invariant forall r, r' :: 0 <= r < r' < |rows| ==> rows[r].hash != rows[r'].hash
      invariant forall j :: 0 <= j < i ==> sha(chunks[j]) in seen
      invariant forall r :: 0 <= r < |rows| ==> rows[r].data in chunks && sha(rows[r].data) == rows[r].hash
    {
      var key := sha(chunks[i]);
      if key !in seen {
        seen := seen + {key};
        ghost var before := rows;
        rows := rows + [ChunkInsert(key, chunks[i])];
        HasHashGrows(before, rows[|before|]);
      }
    }
  }

  // ----- saveImpl: parameter-safe statements ------------------------------------------------

  const CHUNK_INSERT_MAX_ROWS: nat := 30_000
  const JUNCTION_INSERT_MAX_ROWS: nat := 20_000
  const MAX_BIND_PARAMETERS: nat := 65_534

  /** Cuts a row list into the multi-row statements actually issued. Each statement is non-empty
      (an empty VALUES list is not SQL) and binds fewer parameters than the driver refuses;
      together they carry every row once, in order. */
  method Batches<T>(rows: seq<T>, cap: nat, columns: nat) returns (statements: seq<seq<T>>)
    requires cap > 0 && cap * columns < MAX_BIND_PARAMETERS
    ensures Flatten(statements) == rows
    ensures forall b :: 0 <= b < |statements| ==>
      0 < |statements[b]| <= cap && |statements[b]| * columns < MAX_BIND_PARAMETERS
    ensures 0 < |rows| <= cap ==> |statements| == 1
  {
    statements := [];
    var i := 0;
    while i < |rows|
      invariant 0 <= i
      invariant Flatten(statements) == rows[..if i <= |rows| then i else |rows|]
      invariant forall b :: 0 <= b < |statements| ==> 0 < |statements[b]| <= cap
      invariant |statements| == 0 <==> i == 0
      invariant i == 0 || i >= cap
      invariant |statements| > 1 ==> |rows| > cap
    {
      var end := if i + cap <= |rows| then i + cap else |rows|;
      FlattenAppend(statements, rows[i..end]);
      statements := statements + [rows[i..end]];
      assert rows[..i] + rows[i..end] == rows[..end];
      i := i + cap;
    }
    forall b | 0 <= b < |statements| ensures |statements[b]| * columns < MAX_BIND_PARAMETERS {
      Scale(|statements[b]|, cap, columns);
    }
  }

  lemma Scale(x: nat, y: nat, k: nat)
    requires x <= y
    ensures x * k <= y * k
  {
    assert y * k == x * k + (y - x) * k;
  }

  // ----- loadImpl ---------------------------------------------------------------------------

  /** One row of the position-ordered LEFT JOIN: `data` is None when no chunk row was found. */
  datatype JoinRow = JoinRow(position: int, chunkHash: Bytes, data: Option<Bytes>)

  datatype LoadResult =
    | Loaded(data: Bytes, chunkCount: nat)
    | NotFound
    | PositionGap(expected: nat)
    | ChunkMissing(hash: Bytes)
    | ChunkIntegrity(hash: Bytes)
    | ManifestMismatch

  predicate GoodRow(sha: Sha, row: JoinRow, position: nat) {
    row.position == position && row.data.Some? && sha(row.data.value) == row.chunkHash
  }

  predicate GoodRows(sha: Sha, rows: seq<JoinRow>) {
    forall i :: 0 <= i < |rows| ==> GoodRow(sha, rows[i], i)
  }

  function Parts(rows: seq<JoinRow>): (parts: seq<Bytes>)
    requires forall i :: 0 <= i < |rows| ==> rows[i].data.Some?
    ensures |parts| == |rows|
    ensures forall i :: 0 <= i < |rows| ==> parts[i] == rows[i].data.value
  {
    seq(|rows|, i requires 0 <= i < |rows| => rows[i].data.value)
  }

  function RowHashes(rows: seq<JoinRow>): (hashes: seq<Bytes>)
    ensures |hashes| == |rows|
    ensures forall i :: 0 <= i < |rows| ==> hashes[i] == rows[i].chunkHash
  {
    seq(|rows|, i requires 0 <= i < |rows| => rows[i].chunkHash)
  }

  /** The refusal describes the first row that is not as it should be, or the hash list. */
  ghost predicate Explains(sha: Sha, rows: seq<JoinRow>, manifestHash: Bytes, result: LoadResult) {
    match result
    case PositionGap(i) => i < |rows| && GoodRows(sha, rows[..i]) && rows[i].position != i
    case ChunkMissing(h) =>
      exists i :: 0 <= i < |rows| && GoodRows(sha, rows[..i]) && rows[i] == JoinRow(i, h, None)
    case ChunkIntegrity(h) =>
      exists i :: 0 <= i < |rows| && GoodRows(sha, rows[..i]) && BadDigest(sha, rows[i], i, h)
    case ManifestMismatch => GoodRows(sha, rows) && sha(Flatten(RowHashes(rows))) != manifestHash
    case _ => false
  }

  predicate BadDigest(sha: Sha, row: JoinRow, position: nat, actual: Bytes) {
    row.position == position && row.data.Some? && sha(row.data.value) == actual && actual != row.chunkHash
  }

  /** The verification loop of `load`, for any rows whatever. It answers with data exactly when
      every row and the whole hash list check out, and otherwise names the first bad row. */
  method VerifyAndConcat(sha: Sha, rows: seq<JoinRow>, manifestHash: Bytes) returns (result: LoadResult)
    ensures result.Loaded? <==> GoodRows(sha, rows) && sha(Flatten(RowHashes(rows))) == manifestHash
    ensures result.Loaded? ==> result.data == Flatten(Parts(rows)) && result.chunkCount == |rows|
    ensures !result.Loaded? ==> Explains(sha, rows, manifestHash, result)
  {
    var parts: seq<Bytes> := [];
    var hashesInOrder: seq<Bytes> := [];
    for i := 0 to |rows|
      invariant GoodRows(sha, rows[..i])
      invariant |parts| == |hashesInOrder| == i
      invariant forall j :: 0 <= j < i ==> rows[j].data.Some? && parts[j] == rows[j].data.value
      invariant forall j :: 0 <= j < i ==> hashesInOrder[j] == rows[j].chunkHash
    {
      var row := rows[i];
      if row.position != i {
        return PositionGap(i);
      }
      if row.data.None? {
        return ChunkMissing(row.chunkHash);
      }
      var actual := sha(row.data.value);
      if actual != row.chunkHash {
        return ChunkIntegrity(actual);
      }
      parts := parts + [row.data.value];
      hashesInOrder := hashesInOrder + [row.chunkHash];
      assert forall j :: 0 <= j <= i ==> rows[..i + 1][j] == rows[j];
      assert forall j :: 0 <= j < i ==> rows[..i][j] == rows[j];
      assert GoodRow(sha, rows[i], i);
    }
    assert rows[..|rows|] == rows;
    assert hashesInOrder == RowHashes(rows);
    if sha(Flatten(hashesInOrder)) != manifestHash {
      return ManifestMismatch;
    }
    assert parts == Parts(rows);
    return Loaded(Flatten(parts), |rows|);
  }

  /** The rows written by `save` for these chunks. */
  predicate FaithfulRows(sha: Sha, rows: seq<JoinRow>, chunks: seq<Bytes>) {
    && |rows| == |chunks|
    && forall i :: 0 <= i < |rows| ==> rows[i].position == i && rows[i].chunkHash == sha(chunks[i])
  }

  /**
   * Tamper evidence. The manifest hash was computed by `save` from `chunks`; the rows read back
   * are arbitrary. If the verification accepts them, the payload is the saved one, or one of these
   * particular pairs of strings collides: the two hash lists, or the two chunks at one position.
   */
  lemma TamperEvident(sha: Sha, chunks: seq<Bytes>, rows: seq<JoinRow>)
    requires Digest(sha)
    requires GoodRows(sha, rows)
    requires sha(Flatten(RowHashes(rows))) == sha(Flatten(Hashes(sha, chunks)))
    ensures
      || Parts(rows) == chunks
      || Collide(sha, Flatten(RowHashes(rows)), Flatten(Hashes(sha, chunks)))
      || ChunksCollide(sha, Parts(rows), chunks)
  {
    var read, written := RowHashes(rows), Hashes(sha, chunks);
    if Flatten(read) == Flatten(written) {
      HashWidth(sha, rows);
      EqualWordsUnique(read, written, 32);
      SameHashes(sha, chunks, rows);
    }
  }

  /** Somewhere the chunk read back and the chunk saved differ but have one digest. */
  predicate ChunksCollide(sha: Sha, read: seq<Bytes>, saved: seq<Bytes>) {
    |read| == |saved| && exists i :: 0 <= i < |saved| && Collide(sha, read[i], saved[i])
  }

  lemma HashWidth(sha: Sha, rows: seq<JoinRow>)
    requires Digest(sha) && GoodRows(sha, rows)
    ensures forall i :: 0 <= i < |rows| ==> |RowHashes(rows)[i]| == 32
  {
    forall i | 0 <= i < |rows| ensures |RowHashes(rows)[i]| == 32 {
      assert GoodRow(sha, rows[i], i);
    }
  }

  /** Rows that carry the saved hashes hold the saved bytes, unless two chunks collide. */
  lemma SameHashes(sha: Sha, chunks: seq<Bytes>, rows: seq<JoinRow>)
    requires GoodRows(sha, rows)
    requires RowHashes(rows) == Hashes(sha, chunks)
    ensures |rows| == |chunks|
    ensures Parts(rows) == chunks || ChunksCollide(sha, Parts(rows), chunks)
  {
    assert |rows| == |chunks|;
    if Parts(rows) != chunks {
      var i :| 0 <= i < |chunks| && Parts(rows)[i] != chunks[i];
      assert GoodRow(sha, rows[i], i);
      assert RowHashes(rows)[i] == Hashes(sha, chunks)[i];
      assert Collide(sha, Parts(rows)[i], chunks[i]);
    }
  }

  /** The byte length `history` sums over the join is the length of the concatenated payload, also
      when a chunk is used at several positions or there is no chunk at all. */
  function SumLengths(parts: seq<Bytes>): (total: nat) {
    if parts == [] then 0 else |parts[0]| + SumLengths(parts[1..])
  }

  lemma {:induction false} SumIsPayloadLength(parts: seq<Bytes>)
    ensures SumLengths(parts) == |Flatten(parts)|
  {
    if parts != [] { SumIsPayloadLength(parts[1..]); }
  }
}
