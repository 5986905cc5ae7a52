/**
 * `save`, `saveAndAdvance`, `load` and `prune` in their own form: the loops of `saveImpl` writing
 * the tables statement by statement, each method proved against the commit functions of the
 * interleaved protocol. What a SELECT returns is a parameter constrained by the tables.
 */
module CheckpointStore {
  import opened Chunking
  import opened CheckpointProtocol
  import opened CheckpointSafety
  import opened CheckpointTheorems

  datatype Summary = Summary(sequence: nat, manifestHash: Bytes, byteLength: nat, chunkCount: nat)

  type ChunkTable = map<Bytes, ChunkRow>

  /** One row of INSERT .. ON CONFLICT (hash) DO UPDATE SET created_at = now(). */
  function UpsertedRow(chunks: ChunkTable, row: ChunkInsert, now: int): ChunkRow {
    if row.hash in chunks then chunks[row.hash].(createdAt := now) else ChunkRow(row.data, now)
  }

  /** The rows one after the other. */
  function UpsertAll(chunks: ChunkTable, rows: seq<ChunkInsert>, now: int): ChunkTable {
    if rows == [] then chunks
    else
      var before, last := UpsertAll(chunks, rows[..|rows| - 1], now), rows[|rows| - 1];
      before[last.hash := UpsertedRow(before, last, now)]
  }

  /** The rows all at once, each against the table before the transaction. */
  function Upserts(chunks: ChunkTable, rows: seq<ChunkInsert>, now: int): ChunkTable {
    if rows == [] then map[]
    else
      var last := rows[|rows| - 1];
      Upserts(chunks, rows[..|rows| - 1], now)[last.hash := UpsertedRow(chunks, last, now)]
  }

  predicate DistinctHashes(rows: seq<ChunkInsert>) {
    forall r, r' :: 0 <= r < r' < |rows| ==> rows[r].hash != rows[r'].hash
  }

  lemma {:induction false} UpsertsSound(sha: Sha, chunks: ChunkTable, rows: seq<ChunkInsert>, now: int, h: Bytes)
    requires forall r :: 0 <= r < |rows| ==> sha(rows[r].data) == rows[r].hash
    requires forall h :: h in chunks ==> sha(chunks[h].data) == h
    ensures h in Upserts(chunks, rows, now) <==> HasHash(rows, h)
    ensures h in Upserts(chunks, rows, now) ==>
      sha(Upserts(chunks, rows, now)[h].data) == h && Upserts(chunks, rows, now)[h].createdAt == now
    ensures h in Upserts(chunks, rows, now) && h in chunks ==> Upserts(chunks, rows, now)[h].data == chunks[h].data
    decreases |rows|
  {
    if rows != [] {
      var front, last := rows[..|rows| - 1], rows[|rows| - 1];
      assert forall r :: 0 <= r < |front| ==> front[r] == rows[r];
      UpsertsSound(sha, chunks, front, now, h);
      if HasHash(rows, h) && h != last.hash {
        var r :| 0 <= r < |rows| && rows[r].hash == h;
        assert front[r].hash == h;
      }
    }
  }

  lemma {:induction false} FlattenPrefix<T>(parts: seq<seq<T>>, n: nat)
    requires n < |parts|
    ensures Flatten(parts[..n + 1]) == Flatten(parts[..n]) + parts[n]
  {
    FlattenAppend(parts[..n], parts[n]);
    assert parts[..n + 1] == parts[..n] + [parts[n]];
  }

  lemma {:induction false} FlattenPrefixOf<T>(parts: seq<seq<T>>, n: nat)
    requires n <= |parts|
    ensures Flatten(parts[..n]) <= Flatten(parts)
    decreases |parts| - n
  {
    if n < |parts| {
      FlattenPrefixOf(parts, n + 1);
      FlattenPrefix(parts, n);
    } else {
      assert parts[..n] == parts;
    }
  }

  /** Statement b holds the rows from where the statements before it end. */
  lemma BatchIsSlice<T>(rows: seq<T>, statements: seq<seq<T>>, b: nat)
    requires Flatten(statements) == rows && b < |statements|
    ensures |Flatten(statements[..b + 1])| == |Flatten(statements[..b])| + |statements[b]| <= |rows|
    ensures statements[b] == rows[|Flatten(statements[..b])|..|Flatten(statements[..b + 1])|]
  {
    FlattenPrefix(statements, b);
    FlattenPrefixOf(statements, b + 1);
  }

  class PgCheckpointStore {
    var chunks: map<Bytes, ChunkRow>
    var manifests: map<nat, Manifest>
    var junction: map<Slot, Bytes>
    var nextSeq: map<Wallet, nat>
    var cursors: map<string, int>
    var log: seq<Saved>

    function Tables(): Db
      reads this
    {
      Db(chunks, manifests, junction, nextSeq, cursors, log)
    }

    constructor ()
      ensures Tables() == EMPTY
    {
      chunks, manifests, junction, nextSeq, cursors, log := map[], map[], map[], map[], map[], [];
    }

    /** The loop over parameter-safe INSERT .. ON CONFLICT DO UPDATE statements. */
    method UpsertChunks(rows: seq<ChunkInsert>, now: int)
      modifies this`chunks
      ensures chunks == UpsertAll(old(chunks), rows, now)
    {
      var statements := Batches(rows, CHUNK_INSERT_MAX_ROWS, 2);
      for b := 0 to |statements|
        invariant |Flatten(statements[..b])| <= |rows|
        invariant chunks == UpsertAll(old(chunks), rows[..|Flatten(statements[..b])|], now)
      {
        BatchIsSlice(rows, statements, b);
        UpsertStatement(old(chunks), rows, |Flatten(statements[..b])|, statements[b], now);
      }
      assert statements[..|statements|] == statements && rows[..|rows|] == rows;
    }

    /** One statement: the rows from `done` on. */
    method UpsertStatement(ghost start: ChunkTable, ghost rows: seq<ChunkInsert>, ghost done: nat, batch: seq<ChunkInsert>, now: int)
      requires done + |batch| <= |rows| && batch == rows[done..done + |batch|] && chunks == UpsertAll(start, rows[..done], now)
      modifies this`chunks
      ensures chunks == UpsertAll(start, rows[..done + |batch|], now)
    {
      for i := 0 to |batch|
        invariant chunks == UpsertAll(start, rows[..done + i], now)
      {
        ghost var before := rows[..done + i];
        assert rows[..done + i + 1] == before + [batch[i]] && (before + [batch[i]])[..|before|] == before;
        chunks := chunks[batch[i].hash := UpsertedRow(chunks, batch[i], now)];
      }
    }

    /** The loop over parameter-safe junction statements. */
    method InsertJunction(id: nat, hashes: seq<Bytes>)
      modifies this`junction
      ensures junction == Filled(old(junction), id, hashes, |hashes|)
    {
      var positions := seq(|hashes|, p requires 0 <= p < |hashes| => p);
      var statements := Batches(positions, JUNCTION_INSERT_MAX_ROWS, 3);
      for b := 0 to |statements|
        invariant |Flatten(statements[..b])| <= |positions|
        invariant junction == Filled(old(junction), id, hashes, |Flatten(statements[..b])|)
      {
        BatchIsSlice(positions, statements, b);
        JunctionStatement(old(junction), id, hashes, |Flatten(statements[..b])|, statements[b]);
      }
      assert statements[..|statements|] == statements;
    }

    method JunctionStatement(ghost start: map<Slot, Bytes>, id: nat, hashes: seq<Bytes>, ghost done: nat, batch: seq<int>)
      requires done + |batch| <= |hashes| && forall i :: 0 <= i < |batch| ==> batch[i] == done + i
      requires junction == Filled(start, id, hashes, done)
      modifies this`junction
      ensures junction == Filled(start, id, hashes, done + |batch|)
    {
      for i := 0 to |batch|
        invariant junction == Filled(start, id, hashes, done + i)
      {
        junction := junction[Slot(id, batch[i]) := hashes[batch[i]]];
      }
    }

    /** The statements of saveImpl, and the cursor write of saveAndAdvance when there is one. */
    method SaveStatements(sha: Sha, wallet: Wallet, parts: seq<Bytes>, rows: seq<ChunkInsert>, cursor: Option<Cursor>, now: int, id: nat)
      returns (seqNo: nat)
      modifies this
      ensures seqNo == ClaimedSeq(old(Tables()), wallet)
      ensures chunks == UpsertAll(old(chunks), rows, now)
      ensures manifests == old(manifests)[id := Manifest(wallet, seqNo, sha(Flatten(Hashes(sha, parts))))]
      ensures junction == Filled(old(junction), id, Hashes(sha, parts), |parts|)
      ensures nextSeq == old(nextSeq)[wallet := seqNo + 1]
      ensures cursors == if cursor.Some? then old(cursors)[cursor.value.key := cursor.value.value] else old(cursors)
      ensures log == old(log) + [Saved(wallet, seqNo, id, parts, cursor)]
    {
      UpsertChunks(rows, now);
      seqNo := if wallet in nextSeq then nextSeq[wallet] else 1;
      nextSeq := nextSeq[wallet := seqNo + 1];
      manifests := manifests[id := Manifest(wallet, seqNo, sha(Flatten(Hashes(sha, parts))))];
      InsertJunction(id, Hashes(sha, parts));
      if cursor.Some? { cursors := cursors[cursor.value.key := cursor.value.value]; }
      log := log + [Saved(wallet, seqNo, id, parts, cursor)];
    }

    /** saveImpl without its contract on soundness. `tx` is the protocol transaction it amounts to. */
    method SaveRows(sha: Sha, wallet: Wallet, data: Bytes, chunkSize: nat, cursor: Option<Cursor>, now: int, id: nat)
      returns (summary: Summary, ghost tx: Tx, ghost rows: seq<ChunkInsert>)
      requires chunkSize > 0
      modifies this
      ensures IsSave(sha, old(Tables()), tx, rows) && tx.wallet == wallet && tx.cursor == cursor && tx.manifest == Some(id) && tx.start == now
      ensures tx.chunks == Split(data, chunkSize) && Flatten(tx.chunks) == data
      ensures Tables() == AfterLoops(sha, old(Tables()), tx, rows)
      ensures summary.sequence == tx.seqNo && summary.byteLength == |data| && summary.chunkCount == CeilDiv(|data|, chunkSize)
      ensures id in manifests && summary.manifestHash == manifests[id].hash
    {
      var parts := SplitChunks(data, chunkSize);
      SplitShape(data, chunkSize);
      var inserts := Dedupe(sha, parts);
      var seqNo := SaveStatements(sha, wallet, parts, inserts, cursor, now, id);
      rows := inserts;
      tx := Save(now, wallet, parts, cursor, Upserts(old(chunks), rows, now), seqNo, Some(id), |parts|, cursor.Some?);
      summary := Summary(seqNo, sha(Flatten(Hashes(sha, parts))), |data|, |parts|);
    }

    /** saveImpl and saveAndAdvance: the new tables are those the protocol commits for this save, they
        stay sound, every chunk of the payload, new or used again, is stamped with now, no other
        chunk changes and no stored bytes do, and the summary is the wallet's next number, the stored manifest's hash and the
        payload's own size. */
    method SaveImpl(sha: Sha, wallet: Wallet, data: Bytes, chunkSize: nat, cursor: Option<Cursor>, now: int, id: nat)
      returns (summary: Summary, ghost tx: Tx)
      requires chunkSize > 0 && DbSound(sha, Tables()) && NewId(log, id)
      modifies this
      ensures tx.Save? && tx.manifest == Some(id) && tx.wallet == wallet && tx.cursor == cursor && Flatten(tx.chunks) == data
      ensures tx.start == now && Stamped(sha, old(chunks), chunks, tx.chunks, now)
      ensures exists rows :: IsSave(sha, old(Tables()), tx, rows)
      ensures Tables() == SaveCommitted(sha, old(Tables()), tx) && DbSound(sha, Tables())
      ensures summary.sequence == tx.seqNo == Count(old(log), wallet) + 1
      ensures summary.byteLength == |data| && summary.chunkCount == |tx.chunks| == CeilDiv(|data|, chunkSize)
      ensures id in manifests && summary.manifestHash == manifests[id].hash
    {
      ghost var start := Tables();
      ghost var rows;
      summary, tx, rows := SaveRows(sha, wallet, data, chunkSize, cursor, now, id);
      SplitShape(data, chunkSize);
      SaveIsSound(sha, start, tx, rows, Tables());
      SaveStamps(sha, start.chunks, tx, rows);
    }

    /** The statements of pruneImpl. */
    method PruneStatements(wallet: Wallet, threshold: nat, now: int) returns (doomed: set<nat>, reclaimed: set<Bytes>)
      modifies this`manifests, this`junction, this`chunks
      ensures doomed == Doomed(old(manifests), wallet, threshold) && manifests == old(manifests) - doomed
      ensures junction == Cascaded(old(junction), doomed)
      ensures reclaimed == Unused(old(chunks), junction, now) && chunks == old(chunks) - reclaimed
    {
      doomed := Doomed(manifests, wallet, threshold);
      manifests := manifests - doomed;
      junction := Cascaded(junction, doomed);
      reclaimed := Unused(chunks, junction, now);
      chunks := chunks - reclaimed;
    }

    /** prune by itself: exactly the manifests below the cut, their junction rows, and then exactly
        the chunks no junction row names that are more than 15 minutes old; these are the ones the
        reclaim step of the interleaved protocol selects. */
    method PruneImpl(sha: Sha, wallet: Wallet, retain: nat, threshold: nat, now: int)
      returns (pruned: set<nat>, reclaimed: set<Bytes>)
      requires DbSound(sha, Tables()) && retain >= 1 && NthNewest(Tables(), wallet, retain, threshold)
      modifies this`manifests, this`junction, this`chunks
      ensures DbSound(sha, Tables())
      ensures pruned == SeqsOf(old(Tables()), wallet) - AtLeast(SeqsOf(old(Tables()), wallet), threshold)
      ensures SeqsOf(Tables(), wallet) == AtLeast(SeqsOf(old(Tables()), wallet), threshold)
      ensures forall w :: w != wallet ==> SeqsOf(Tables(), w) == SeqsOf(old(Tables()), w)
      ensures forall h :: h in reclaimed <==>
        h in old(chunks) && old(chunks)[h].createdAt < now - 900 && forall slot :: slot in junction ==> junction[slot] != h
      ensures chunks == old(chunks) - reclaimed
      ensures Tables() == PruneCommitted(old(Tables()), Prune(now, wallet, retain, Checked, threshold, Doomed(old(manifests), wallet, threshold), reclaimed, reclaimed))
      ensures reclaimed == Reclaimable(old(Tables()), Prune(now, wallet, retain, Deleted, threshold, Doomed(old(manifests), wallet, threshold), {}, {}))
    {
      ghost var start := Tables();
      var doomed := Doomed(manifests, wallet, threshold);
      pruned := set m | m in doomed :: manifests[m].seqNo;
      PrunedSequences(start, wallet, threshold, doomed, pruned);
      doomed, reclaimed := PruneStatements(wallet, threshold, now);
      PruneIsSound(sha, start, wallet, retain, threshold, now, doomed, reclaimed, Tables());
      UnusedMeans(chunks := start.chunks, junction := junction, now := now);
      UnusedIsReclaimable(start, Prune(now, wallet, retain, Deleted, threshold, doomed, {}, {}), now);
    }

    /** loadImpl: `found` and `rows` are what its two queries return. In a sound database it fails
        only for a missing checkpoint, and gives back what was saved. */
    method LoadImpl(sha: Sha, wallet: Wallet, sequence: Option<nat>, found: Option<nat>, rows: seq<JoinRow>)
      returns (result: LoadResult)
      requires DbSound(sha, Tables()) && Selected(Tables(), wallet, sequence, found)
      requires found.Some? ==> JoinResult(Tables(), found.value, rows)
      ensures result.NotFound? <==> (if sequence.Some? then sequence.value !in SeqsOf(Tables(), wallet) else SeqsOf(Tables(), wallet) == {})
      ensures !result.NotFound? ==> exists i :: LoadsSave(sha, Tables(), wallet, sequence, i, result)
    {
      if found.None? {
        NoneSelected(Tables(), wallet, sequence);
        return NotFound;
      }
      result := VerifyAndConcat(sha, rows, manifests[found.value].hash);
      LoadSucceeds(sha, Tables(), wallet, sequence, found.value, rows, result);
    }
  }

  // ----- small facts the loops need ---------------------------------------------------------------

  lemma {:induction false} UpsertsOnly(chunks: ChunkTable, rows: seq<ChunkInsert>, now: int, h: Bytes)
    requires forall r :: 0 <= r < |rows| ==> rows[r].hash != h
    ensures h !in Upserts(chunks, rows, now)
    decreases |rows|
  {
    if rows != [] { UpsertsOnly(chunks, rows[..|rows| - 1], now, h); }
  }

  /** No hash occurs twice, so each row still meets the table from before the transaction. */
  lemma {:induction false} UpsertAllIsUpserts(chunks: ChunkTable, rows: seq<ChunkInsert>, now: int)
    requires DistinctHashes(rows)
    ensures UpsertAll(chunks, rows, now) == chunks + Upserts(chunks, rows, now)
    decreases |rows|
  {
    if rows != [] {
      var front := rows[..|rows| - 1];
      assert forall r :: 0 <= r < |front| ==> front[r] == rows[r];
      UpsertAllIsUpserts(chunks, front, now);
      UpsertsOnly(chunks, front, now, rows[|rows| - 1].hash);
    }
  }

  function Filled(junction: map<Slot, Bytes>, id: nat, hashes: seq<Bytes>, n: nat): map<Slot, Bytes>
    requires n <= |hashes|
  {
    if n == 0 then junction else Filled(junction, id, hashes, n - 1)[Slot(id, n - 1) := hashes[n - 1]]
  }

  lemma {:induction false} FilledAt(junction: map<Slot, Bytes>, id: nat, hashes: seq<Bytes>, n: nat, slot: Slot)
    requires n <= |hashes|
    ensures slot in Filled(junction, id, hashes, n) <==> slot in junction || (slot.manifest == id && slot.position < n)
    ensures slot in Filled(junction, id, hashes, n) ==>
      Filled(junction, id, hashes, n)[slot] == if slot.manifest == id && slot.position < n then hashes[slot.position] else junction[slot]
  {
    if n > 0 { FilledAt(junction, id, hashes, n - 1, slot); }
  }

  lemma FilledIsRows(sha: Sha, junction: map<Slot, Bytes>, id: nat, parts: seq<Bytes>)
    ensures Filled(junction, id, Hashes(sha, parts), |parts|) == junction + Rows(sha, id, parts)
  {
    var filled, rows := Filled(junction, id, Hashes(sha, parts), |parts|), Rows(sha, id, parts);
    forall slot ensures slot in filled <==> slot in junction + rows
      ensures slot in filled ==> filled[slot] == (junction + rows)[slot]
    {
      FilledAt(junction, id, Hashes(sha, parts), |parts|, slot);
      if slot.manifest == id && slot.position < |parts| { assert slot == Slot(id, slot.position) && slot in rows; }
    }
  }

  predicate NewId(log: seq<Saved>, id: nat) { forall i :: 0 <= i < |log| ==> log[i].manifest != id }

  function Doomed(manifests: map<nat, Manifest>, w: Wallet, threshold: nat): set<nat> {
    set m | m in manifests && manifests[m].wallet == w && manifests[m].seqNo < threshold
  }

  /** ON DELETE CASCADE. */
  function Cascaded(junction: map<Slot, Bytes>, doomed: set<nat>): map<Slot, Bytes> {
    map slot | slot in junction && slot.manifest !in doomed :: junction[slot]
  }

  /** Older than the grace window and named by no junction row. */
  function Unused(chunks: map<Bytes, ChunkRow>, junction: map<Slot, Bytes>, now: int): set<Bytes> {
    set h | h in chunks && chunks[h].createdAt < now - GRACE && h !in junction.Values
  }

  lemma {:induction false} SavedTxIsReady(sha: Sha, db: Db, tx: Tx, rows: seq<ChunkInsert>)
    requires DbSound(sha, db) && tx.Save? && tx.manifest.Some? && tx.seqNo == ClaimedSeq(db, tx.wallet) && tx.rows == |tx.chunks|
    requires forall i :: 0 <= i < |db.log| ==> db.log[i].manifest != tx.manifest.value
    requires tx.upserted == Upserts(db.chunks, rows, tx.start) && (tx.cursor.Some? <==> tx.cursorSet)
    requires forall r :: 0 <= r < |rows| ==> sha(rows[r].data) == rows[r].hash
    requires forall i :: 0 <= i < |tx.chunks| ==> HasHash(rows, sha(tx.chunks[i]))
    ensures ReadyToCommit(sha, db, tx) && tx.seqNo == Count(db.log, tx.wallet) + 1
  {
    forall h ensures h in tx.upserted <==> HasHash(rows, h)
      ensures h in tx.upserted ==> sha(tx.upserted[h].data) == h && tx.upserted[h].createdAt == tx.start
    {
      UpsertsSound(sha, db.chunks, rows, tx.start, h);
    }
  }

  /** The transaction that the loops of saveImpl carry out. */
  ghost predicate IsSave(sha: Sha, db: Db, tx: Tx, rows: seq<ChunkInsert>) {
    && tx.Save? && tx.manifest.Some? && tx.seqNo == ClaimedSeq(db, tx.wallet) && tx.rows == |tx.chunks|
    && tx.upserted == Upserts(db.chunks, rows, tx.start) && (tx.cursor.Some? <==> tx.cursorSet)
    && DistinctHashes(rows) && (forall r :: 0 <= r < |rows| ==> sha(rows[r].data) == rows[r].hash)
    && (forall i :: 0 <= i < |tx.chunks| ==> HasHash(rows, sha(tx.chunks[i])))
    && forall r :: 0 <= r < |rows| ==> rows[r].data in tx.chunks
  }

  /** Exactly the chunks of the payload carry the new time; every other chunk row is as it was. */
  ghost predicate Stamped(sha: Sha, before: ChunkTable, after: ChunkTable, parts: seq<Bytes>, now: int) {
    && (forall i :: 0 <= i < |parts| ==> sha(parts[i]) in after && after[sha(parts[i])].createdAt == now)
    && (forall h :: h in before || h in after ==> SameUnlessUsed(sha, before, after, parts, h))
    && (forall h :: h in before && h in after ==> after[h].data == before[h].data)
  }

  ghost predicate SameUnlessUsed(sha: Sha, before: ChunkTable, after: ChunkTable, parts: seq<Bytes>, h: Bytes) {
    (exists i :: 0 <= i < |parts| && sha(parts[i]) == h) || (h in before && h in after && after[h] == before[h])
  }

  lemma SaveStamps(sha: Sha, chunks: ChunkTable, tx: Tx, rows: seq<ChunkInsert>)
    requires tx.Save? && tx.upserted == Upserts(chunks, rows, tx.start) && forall h :: h in chunks ==> sha(chunks[h].data) == h
    requires forall r :: 0 <= r < |rows| ==> sha(rows[r].data) == rows[r].hash && rows[r].data in tx.chunks
    requires forall i :: 0 <= i < |tx.chunks| ==> HasHash(rows, sha(tx.chunks[i]))
    ensures Stamped(sha, chunks, chunks + tx.upserted, tx.chunks, tx.start)
  {
    forall h ensures h in tx.upserted <==> HasHash(rows, h)
      ensures h in tx.upserted ==> tx.upserted[h].createdAt == tx.start
      ensures h in tx.upserted && h in chunks ==> tx.upserted[h].data == chunks[h].data
    {
      UpsertsSound(sha, chunks, rows, tx.start, h);
    }
    var after := chunks + tx.upserted;
    forall h | h in chunks || h in after ensures SameUnlessUsed(sha, chunks, after, tx.chunks, h) {
      if h in tx.upserted {
        var r :| 0 <= r < |rows| && rows[r].hash == h;
        var i :| 0 <= i < |tx.chunks| && tx.chunks[i] == rows[r].data;
      }
    }
  }

  function AfterLoops(sha: Sha, db: Db, tx: Tx, rows: seq<ChunkInsert>): Db
    requires tx.Save? && tx.manifest.Some?
  {
    SaveCommitted(sha, db, tx).(chunks := UpsertAll(db.chunks, rows, tx.start),
                                junction := Filled(db.junction, tx.manifest.value, Hashes(sha, tx.chunks), |tx.chunks|))
  }

  lemma {:induction false} SaveIsSound(sha: Sha, db: Db, tx: Tx, rows: seq<ChunkInsert>, after: Db)
    requires DbSound(sha, db) && IsSave(sha, db, tx, rows) && NewId(db.log, tx.manifest.value) && after == AfterLoops(sha, db, tx, rows)
    ensures after == SaveCommitted(sha, db, tx) && DbSound(sha, after) && tx.seqNo == Count(db.log, tx.wallet) + 1
  {
    UpsertAllIsUpserts(db.chunks, rows, tx.start);
    FilledIsRows(sha, db.junction, tx.manifest.value, tx.chunks);
    SavedTxIsReady(sha, db, tx, rows);
    SavedDbSound(sha, db, tx);
  }

  lemma SavedDbSound(sha: Sha, db: Db, tx: Tx)
    requires ReadyToCommit(sha, db, tx)
    ensures DbSound(sha, SaveCommitted(sha, db, tx))
  {
    SavedChunksSound(sha, db, tx);
    SavedManifestsSound(sha, db, tx);
    SavedSequencesSound(sha, db, tx);
    SavedRetentionSound(sha, db, tx);
  }

  lemma PruneIsSound(sha: Sha, db: Db, w: Wallet, retain: nat, threshold: nat, now: int, doomed: set<nat>, reclaimed: set<Bytes>, after: Db)
    requires DbSound(sha, db) && NthNewest(db, w, retain, threshold)
    requires doomed == Doomed(db.manifests, w, threshold)
    requires after == PruneCommitted(db, Prune(now, w, retain, Checked, threshold, doomed, reclaimed, reclaimed))
    requires reclaimed == Unused(db.chunks, after.junction, now)
    ensures DbSound(sha, after) && SeqsOf(after, w) == AtLeast(SeqsOf(db, w), threshold)
    ensures forall v :: v != w ==> SeqsOf(after, v) == SeqsOf(db, v)
  {
    var tx := Prune(now, w, retain, Checked, threshold, doomed, reclaimed, reclaimed);
    ThresholdIsCommitted(sha, db, w, retain, threshold);
    PruneTxIsReady(sha, db, tx, after);
    PrunedDbSound(sha, db, tx);
    SeqsAfterPrune(db, tx, w);
    forall v | v != w ensures SeqsOf(after, v) == SeqsOf(db, v) { SeqsAfterPrune(db, tx, v); }
  }

  lemma UnusedMeans(chunks: ChunkTable, junction: map<Slot, Bytes>, now: int)
    ensures forall h :: h in Unused(chunks, junction, now) <==>
      h in chunks && chunks[h].createdAt < now - 900 && forall slot :: slot in junction ==> junction[slot] != h
  {
  }

  lemma UnusedIsReclaimable(db: Db, p: Tx, now: int)
    requires p.Prune? && p.start == now
    ensures Unused(db.chunks, Cascaded(db.junction, p.doomed), now) == Reclaimable(db, p)
  {
    var left := Cascaded(db.junction, p.doomed);
    forall h ensures h in left.Values <==> Referenced(db, p, h) {
      if Referenced(db, p, h) {
        var slot :| slot in db.junction && slot.manifest !in p.doomed && db.junction[slot] == h;
        assert slot in left && left[slot] == h;
      }
    }
  }

  lemma PruneTxIsReady(sha: Sha, db: Db, tx: Tx, after: Db)
    requires DbSound(sha, db) && tx.Prune? && tx.phase == Checked && tx.threshold <= Count(db.log, tx.wallet)
    requires tx.doomed == Doomed(db.manifests, tx.wallet, tx.threshold)
    requires after == PruneCommitted(db, tx) && forall h :: h in tx.reclaimed ==> h !in after.junction.Values
    ensures ReadyToPrune(sha, db, tx)
  {
    forall slot | slot in db.junction && slot.manifest !in tx.doomed ensures db.junction[slot] !in tx.reclaimed {
      assert slot in after.junction && after.junction[slot] == db.junction[slot];
    }
  }

  lemma PrunedSequences(db: Db, w: Wallet, threshold: nat, doomed: set<nat>, pruned: set<nat>)
    requires doomed == Doomed(db.manifests, w, threshold)
    requires pruned == set m | m in doomed :: db.manifests[m].seqNo
    ensures pruned == SeqsOf(db, w) - AtLeast(SeqsOf(db, w), threshold)
  {
    forall x | x in SeqsOf(db, w) && x < threshold ensures x in pruned {
      var m :| m in db.manifests && db.manifests[m].wallet == w && db.manifests[m].seqNo == x;
      assert m in doomed;
    }
  }

  // ----- loading ----------------------------------------------------------------------------------

  ghost predicate Matches(db: Db, w: Wallet, sequence: Option<nat>, id: nat) {
    id in db.manifests && db.manifests[id].wallet == w && (sequence.Some? ==> db.manifests[id].seqNo == sequence.value)
  }

  /** ORDER BY seq DESC LIMIT 1 among the matching manifests. */
  ghost predicate Selected(db: Db, w: Wallet, sequence: Option<nat>, found: Option<nat>) {
    match found
    case None => forall id :: !Matches(db, w, sequence, id)
    case Some(id) =>
      Matches(db, w, sequence, id) && forall other :: Matches(db, w, sequence, other) ==> db.manifests[other].seqNo <= db.manifests[id].seqNo
  }

  /** The answer is the payload of save i of the wallet, the one asked for or else the newest. */
  ghost predicate LoadsSave(sha: Sha, db: Db, w: Wallet, sequence: Option<nat>, i: nat, result: LoadResult) {
    && i < |db.log| && db.log[i].wallet == w
    && db.log[i].seqNo == (if sequence.Some? then sequence.value else Count(db.log, w))
    && result.Loaded? && result.chunkCount == |db.log[i].chunks|
    && (result.data == Flatten(db.log[i].chunks) || exists parts: seq<Bytes> :: CollidesWith(sha, parts, db.log[i].chunks, result.data))
  }

  predicate CollidesWith(sha: Sha, parts: seq<Bytes>, saved: seq<Bytes>, data: Bytes) {
    ChunksCollide(sha, parts, saved) && data == Flatten(parts)
  }

  lemma LoadSucceeds(sha: Sha, db: Db, w: Wallet, sequence: Option<nat>, id: nat, rows: seq<JoinRow>, result: LoadResult)
    requires DbSound(sha, db) && Selected(db, w, sequence, Some(id)) && JoinResult(db, id, rows)
    requires result.Loaded? <==> GoodRows(sha, rows) && sha(Flatten(RowHashes(rows))) == db.manifests[id].hash
    requires result.Loaded? ==> result.data == Flatten(Parts(rows)) && result.chunkCount == |rows|
    ensures exists i :: LoadsSave(sha, db, w, sequence, i, result)
    ensures if sequence.Some? then sequence.value in SeqsOf(db, w) else SeqsOf(db, w) != {}
  {
    var i := SelectedSave(sha, db, w, sequence, id);
    JoinOfStored(sha, db, i, rows);
    assert RowHashes(rows) == Hashes(sha, db.log[i].chunks);
    SameHashes(sha, db.log[i].chunks, rows);
    if Parts(rows) != db.log[i].chunks { assert CollidesWith(sha, Parts(rows), db.log[i].chunks, result.data); }
    assert LoadsSave(sha, db, w, sequence, i, result);
  }

  lemma NoneSelected(db: Db, w: Wallet, sequence: Option<nat>)
    requires forall id :: !Matches(db, w, sequence, id)
    ensures if sequence.Some? then sequence.value !in SeqsOf(db, w) else SeqsOf(db, w) == {}
  {
    forall x | x in SeqsOf(db, w) ensures sequence.Some? && sequence.value != x {
      var id :| id in db.manifests && db.manifests[id].wallet == w && db.manifests[id].seqNo == x;
      assert !Matches(db, w, sequence, id);
    }
  }

  lemma SelectedSave(sha: Sha, db: Db, w: Wallet, sequence: Option<nat>, id: nat) returns (i: nat)
    requires DbSound(sha, db) && Selected(db, w, sequence, Some(id))
    ensures i < |db.log| && db.log[i].manifest == id && Stored(sha, db, i) && db.log[i].wallet == w
    ensures db.log[i].seqNo == (if sequence.Some? then sequence.value else Count(db.log, w)) && db.log[i].seqNo in SeqsOf(db, w)
  {
    i :| 0 <= i < |db.log| && db.log[i].manifest == id;
    assert Stored(sha, db, i);
    var x := db.manifests[id].seqNo;
    assert x in SeqsOf(db, w);
    SeqInRange(db, i);
    if sequence.None? {
      StoredIsSuffix(sha, db, w, x);
      assert Count(db.log, w) in SeqsOf(db, w);
      var newest :| newest in db.manifests && db.manifests[newest].wallet == w && db.manifests[newest].seqNo == Count(db.log, w);
      assert Matches(db, w, sequence, newest);
    }
  }
}
