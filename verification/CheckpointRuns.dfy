/**
 * `save` and `prune` through the interleaved protocol, alone: from every quiet state each of them can
 * run from its first statement to its commit, and then the tables are what the method by itself makes
 * of them.
 */
module CheckpointRuns {
  import opened Chunking
  import opened CheckpointProtocol
  import opened CheckpointSafety
  import opened CheckpointStore

  function Last(run: seq<State>): State
    requires |run| > 0
  {
    run[|run| - 1]
  }

  ghost predicate Extends(sha: Sha, run: seq<State>, longer: seq<State>) { IsRun(sha, longer) && run <= longer }

  /** Nothing is open, and these are the tables. */
  ghost predicate QuietAt(sha: Sha, run: seq<State>, db: Db) {
    IsRun(sha, run) && Last(run).txs == map[] && |Last(run).wal| > 0 && Committed(Last(run)) == db
  }

  lemma ExtendRun(sha: Sha, run: seq<State>, step: Step, s': State)
    requires IsRun(sha, run) && NextBy(sha, Last(run), 0, step, s')
    ensures Extends(sha, run, run + [s'])
  {
    var longer := run + [s'];
    forall i | 0 <= i < |longer| - 1 ensures StepAt(sha, longer, i) {
      if i < |run| - 1 { assert StepAt(sha, run, i); }
    }
  }

  function WithTx(s: State, tx: Tx): State { s.(txs := map[0 := tx]) }

  lemma SameTxs(s: State, tx: Tx, tx': Tx)
    ensures WithTx(s, tx).txs[0 := tx'] == map[0 := tx']
  {
  }

  /** A statement of the only open transaction, as a step. */
  ghost predicate Moves(sha: Sha, s: State, tx: Tx, step: Step, tx': Tx) {
    && |s.wal| > 0 && !step.BeginSave? && !step.BeginPrune? && !step.Abort? && !step.Crash?
    && if tx.Save? then SaveStep(sha, WithTx(s, tx), 0, step, WithTx(s, tx')) else PruneStep(WithTx(s, tx), 0, step, WithTx(s, tx'))
  }

  lemma Works(sha: Sha, run: seq<State>, s: State, tx: Tx, step: Step, tx': Tx) returns (longer: seq<State>)
    requires IsRun(sha, run) && Last(run) == WithTx(s, tx) && Moves(sha, s, tx, step, tx')
    ensures Extends(sha, run, longer) && Last(longer) == WithTx(s, tx')
  {
    ExtendRun(sha, run, step, WithTx(s, tx'));
    longer := run + [WithTx(s, tx')];
  }

  /** A commit of the only open transaction leaves a quiet state. */
  lemma Ends(sha: Sha, run: seq<State>, s: State, tx: Tx, step: Step, db: Db) returns (longer: seq<State>)
    requires IsRun(sha, run) && Last(run) == WithTx(s, tx) && NextBy(sha, WithTx(s, tx), 0, step, State(s.wal + [db], map[]))
    ensures Extends(sha, run, longer) && QuietAt(sha, longer, db)
  {
    var end := State(s.wal + [db], map[]);
    ExtendRun(sha, run, step, end);
    longer := run + [end];
  }

  // ----- save -------------------------------------------------------------------------------------

  /** The save once the first n rows are upserted. */
  function Upserting(tx: Tx, upserted: map<Bytes, ChunkRow>): Tx
    requires tx.Save?
  {
    tx.(upserted := upserted, seqNo := 0, manifest := None, rows := 0, cursorSet := false)
  }

  lemma UpsertMoves(sha: Sha, s: State, db: Db, tx: Tx, rows: seq<ChunkInsert>, n: nat)
    requires |s.wal| > 0 && Committed(s) == db && IsSave(sha, db, tx, rows) && 0 < n <= |rows|
    ensures Moves(sha, s, Upserting(tx, Upserts(db.chunks, rows[..n - 1], tx.start)), UpsertChunk(rows[n - 1].data),
                  Upserting(tx, Upserts(db.chunks, rows[..n], tx.start)))
  {
    var before, after := Upserting(tx, Upserts(db.chunks, rows[..n - 1], tx.start)), Upserting(tx, Upserts(db.chunks, rows[..n], tx.start));
    UpsertsOnly(db.chunks, rows[..n - 1], tx.start, rows[n - 1].hash);
    assert rows[..n][..n - 1] == rows[..n - 1];
    SameTxs(s, before, after);
  }

  lemma {:induction false} UpsertsRun(sha: Sha, run: seq<State>, db: Db, tx: Tx, rows: seq<ChunkInsert>, n: nat) returns (longer: seq<State>)
    requires QuietAt(sha, run, db) && IsSave(sha, db, tx, rows) && n <= |rows|
    ensures Extends(sha, run, longer) && Last(longer) == WithTx(Last(run), Upserting(tx, Upserts(db.chunks, rows[..n], tx.start)))
    decreases n
  {
    var s := Last(run);
    if n == 0 {
      var begun := Upserting(tx, map[]);
      assert s.txs[0 := begun] == map[0 := begun];
      ExtendRun(sha, run, BeginSave(tx.start, tx.wallet, tx.chunks, tx.cursor), WithTx(s, begun));
      longer := run + [WithTx(s, begun)];
    } else {
      longer := UpsertsRun(sha, run, db, tx, rows, n - 1);
      var before, after := Upserting(tx, Upserts(db.chunks, rows[..n - 1], tx.start)), Upserting(tx, Upserts(db.chunks, rows[..n], tx.start));
      UpsertMoves(sha, s, db, tx, rows, n);
      longer := Works(sha, longer, s, before, UpsertChunk(rows[n - 1].data), after);
    }
  }

  /** The sequence number is in hand. */
  function Claimed(tx: Tx): Tx
    requires tx.Save?
  {
    tx.(manifest := None, rows := 0, cursorSet := false)
  }

  /** So is the manifest's id. */
  function Named(tx: Tx, rows: nat): Tx
    requires tx.Save?
  {
    tx.(rows := rows, cursorSet := false)
  }

  lemma QuietIsSound(sha: Sha, run: seq<State>, db: Db)
    requires QuietAt(sha, run, db)
    ensures DbSound(sha, db)
  {
    RunKeepsInv(sha, run, |run| - 1);
  }

  lemma SaveIsReady(sha: Sha, db: Db, tx: Tx, rows: seq<ChunkInsert>)
    requires DbSound(sha, db) && IsSave(sha, db, tx, rows) && NewId(db.log, tx.manifest.value)
    ensures tx.seqNo > 0 && forall c :: c in tx.chunks ==> sha(c) in tx.upserted
  {
    SavedTxIsReady(sha, db, tx, rows);
    assert tx.seqNo > 0;
    forall c | c in tx.chunks ensures sha(c) in tx.upserted {
      var i :| 0 <= i < |tx.chunks| && tx.chunks[i] == c;
      UpsertsSound(sha, db.chunks, rows, tx.start, sha(tx.chunks[i]));
    }
  }

  lemma ClaimMoves(sha: Sha, s: State, db: Db, tx: Tx)
    requires |s.wal| > 0 && Committed(s) == db && tx.Save? && tx.seqNo == ClaimedSeq(db, tx.wallet)
    requires forall c :: c in tx.chunks ==> sha(c) in tx.upserted
    ensures Moves(sha, s, Upserting(tx, tx.upserted), ClaimSequence, Claimed(tx))
  {
    SameTxs(s, Upserting(tx, tx.upserted), Claimed(tx));
  }

  lemma ManifestMoves(sha: Sha, s: State, db: Db, tx: Tx)
    requires |s.wal| > 0 && Committed(s) == db && tx.Save? && tx.seqNo > 0 && tx.manifest.Some? && NewId(db.log, tx.manifest.value)
    ensures Moves(sha, s, Claimed(tx), InsertManifest(tx.manifest.value), Named(tx, 0))
  {
    SameTxs(s, Claimed(tx), Named(tx, 0));
    assert ManifestIdFree(WithTx(s, Claimed(tx)), tx.manifest.value);
  }

  lemma ClaimsRun(sha: Sha, run: seq<State>, db: Db, tx: Tx, rows: seq<ChunkInsert>) returns (longer: seq<State>)
    requires QuietAt(sha, run, db) && IsSave(sha, db, tx, rows) && NewId(db.log, tx.manifest.value)
    ensures Extends(sha, run, longer) && Last(longer) == WithTx(Last(run), Named(tx, 0))
  {
    var s := Last(run);
    QuietIsSound(sha, run, db);
    SaveIsReady(sha, db, tx, rows);
    longer := UpsertsRun(sha, run, db, tx, rows, |rows|);
    assert rows[..|rows|] == rows;
    ClaimMoves(sha, s, db, tx);
    longer := Works(sha, longer, s, Upserting(tx, tx.upserted), ClaimSequence, Claimed(tx));
    ManifestMoves(sha, s, db, tx);
    longer := Works(sha, longer, s, Claimed(tx), InsertManifest(tx.manifest.value), Named(tx, 0));
  }

  lemma {:induction false} JunctionRun(sha: Sha, run: seq<State>, s: State, tx: Tx, n: nat) returns (longer: seq<State>)
    requires IsRun(sha, run) && tx.Save? && tx.manifest.Some? && |s.wal| > 0 && n <= |tx.chunks| && Last(run) == WithTx(s, Named(tx, 0))
    ensures Extends(sha, run, longer) && Last(longer) == WithTx(s, Named(tx, n))
    decreases n
  {
    longer := run;
    if n > 0 {
      longer := JunctionRun(sha, run, s, tx, n - 1);
      SameTxs(s, Named(tx, n - 1), Named(tx, n));
      longer := Works(sha, longer, s, Named(tx, n - 1), InsertJunctionRow, Named(tx, n));
    }
  }

  lemma CursorMoves(sha: Sha, s: State, tx: Tx)
    requires |s.wal| > 0 && tx.Save? && tx.manifest.Some? && tx.rows == |tx.chunks| && tx.cursor.Some? && tx.cursorSet
    ensures Moves(sha, s, Named(tx, |tx.chunks|), SetCursor, tx)
  {
    SameTxs(s, Named(tx, |tx.chunks|), tx);
  }

  lemma SaveEnds(sha: Sha, s: State, db: Db, tx: Tx)
    requires |s.wal| > 0 && Committed(s) == db && tx.Save? && tx.manifest.Some? && tx.rows == |tx.chunks| && (tx.cursor.Some? ==> tx.cursorSet)
    ensures NextBy(sha, WithTx(s, tx), 0, CommitSave, State(s.wal + [SaveCommitted(sha, db, tx)], map[]))
  {
    assert WithTx(s, tx).txs - {0} == map[];
  }

  /** From every quiet state every save can commit, whatever its payload and cursor: its transaction is
      the one `SaveImpl` amounts to, and so are the tables. */
  lemma SaveIsARun(sha: Sha, run: seq<State>, db: Db, tx: Tx, rows: seq<ChunkInsert>) returns (longer: seq<State>)
    requires QuietAt(sha, run, db) && IsSave(sha, db, tx, rows) && NewId(db.log, tx.manifest.value)
    ensures Extends(sha, run, longer) && QuietAt(sha, longer, SaveCommitted(sha, db, tx))
  {
    var s, n := Last(run), |tx.chunks|;
    longer := ClaimsRun(sha, run, db, tx, rows);
    longer := JunctionRun(sha, longer, s, tx, n);
    if tx.cursor.Some? {
      CursorMoves(sha, s, tx);
      longer := Works(sha, longer, s, Named(tx, n), SetCursor, tx);
    }
    SaveEnds(sha, s, db, tx);
    longer := Ends(sha, longer, s, tx, CommitSave, SaveCommitted(sha, db, tx));
  }

  // ----- prune ------------------------------------------------------------------------------------

  /** The DELETE reaches one manifest after the other. */
  lemma {:induction false} DeletesRun(sha: Sha, run: seq<State>, s: State, tx: Tx, ids: set<nat>) returns (longer: seq<State>)
    requires IsRun(sha, run) && |s.wal| > 0 && tx.Prune? && tx.phase == Deleting && Last(run) == WithTx(s, tx)
    requires forall id :: id in ids ==> Expired(Committed(s), tx, id)
    ensures Extends(sha, run, longer) && Last(longer) == WithTx(s, tx.(doomed := tx.doomed + ids))
    decreases |ids|
  {
    if ids == {} {
      longer := run;
      assert tx.doomed + ids == tx.doomed;
    } else {
      var id :| id in ids;
      var next := tx.(doomed := tx.doomed + {id});
      SameTxs(s, tx, next);
      longer := Works(sha, run, s, tx, DeleteManifest(id), next);
      longer := DeletesRun(sha, longer, s, next, ids - {id});
      assert next.doomed + (ids - {id}) == tx.doomed + ids;
    }
  }

  /** The reclaim reaches one chunk after the other. */
  lemma {:induction false} ReclaimsRun(sha: Sha, run: seq<State>, s: State, tx: Tx, hashes: set<Bytes>) returns (longer: seq<State>)
    requires IsRun(sha, run) && |s.wal| > 0 && tx.Prune? && tx.phase == Reclaiming && Last(run) == WithTx(s, tx)
    requires hashes <= tx.candidates && forall h :: h in hashes ==> Aged(Committed(s), tx, h)
    ensures Extends(sha, run, longer) && Last(longer) == WithTx(s, tx.(reclaimed := tx.reclaimed + hashes))
    decreases |hashes|
  {
    if hashes == {} {
      longer := run;
      assert tx.reclaimed + hashes == tx.reclaimed;
    } else {
      var h :| h in hashes;
      var next := tx.(reclaimed := tx.reclaimed + {h});
      SameTxs(s, tx, next);
      longer := Works(sha, run, s, tx, ReclaimChunk(h), next);
      longer := ReclaimsRun(sha, longer, s, next, hashes - {h});
      assert next.reclaimed + (hashes - {h}) == tx.reclaimed + hashes;
    }
  }

  function Pruning(now: int, w: Wallet, retain: nat, phase: PrunePhase, threshold: nat, doomed: set<nat>): Tx {
    Prune(now, w, retain, phase, threshold, doomed, {}, {})
  }

  lemma SelectMoves(sha: Sha, s: State, a: Tx, b: Tx)
    requires |s.wal| > 0 && a.Prune? && b.Prune? && a.phase == Fresh && NthNewest(Committed(s), a.wallet, a.retain, b.threshold)
    requires b == a.(phase := Deleting, threshold := b.threshold)
    ensures Moves(sha, s, a, SelectThreshold(b.threshold), b)
  {
    SameTxs(s, a, b);
  }

  lemma DoneMoves(sha: Sha, s: State, c: Tx, d: Tx)
    requires |s.wal| > 0 && c.Prune? && c.phase == Deleting && c.doomed == Doomed(Committed(s).manifests, c.wallet, c.threshold)
    requires d == c.(phase := Deleted)
    ensures Moves(sha, s, c, DeleteDone, d)
  {
    SameTxs(s, c, d);
  }

  lemma DeletedRun(sha: Sha, run: seq<State>, db: Db, w: Wallet, retain: nat, threshold: nat, now: int) returns (longer: seq<State>)
    requires QuietAt(sha, run, db) && retain >= 1 && NthNewest(db, w, retain, threshold)
    ensures Extends(sha, run, longer)
    ensures Last(longer) == WithTx(Last(run), Pruning(now, w, retain, Deleted, threshold, Doomed(db.manifests, w, threshold)))
  {
    var s, doomed := Last(run), Doomed(db.manifests, w, threshold);
    var a, b := Pruning(now, w, retain, Fresh, 0, {}), Pruning(now, w, retain, Deleting, threshold, {});
    var c, d := b.(doomed := doomed), Pruning(now, w, retain, Deleted, threshold, doomed);
    assert s.txs[0 := a] == map[0 := a];
    ExtendRun(sha, run, BeginPrune(now, w, retain), WithTx(s, a));
    longer := run + [WithTx(s, a)];
    SelectMoves(sha, s, a, b);
    longer := Works(sha, longer, s, a, SelectThreshold(threshold), b);
    longer := DeletesRun(sha, longer, s, b, doomed);
    assert {} + doomed == doomed;
    DoneMoves(sha, s, c, d);
    longer := Works(sha, longer, s, c, DeleteDone, d);
  }

  /** The transaction that `PruneImpl` amounts to. */
  ghost function PruneTx(db: Db, w: Wallet, retain: nat, threshold: nat, now: int): Tx {
    var deleted := Pruning(now, w, retain, Deleted, threshold, Doomed(db.manifests, w, threshold));
    deleted.(phase := Checked, candidates := Reclaimable(db, deleted), reclaimed := Reclaimable(db, deleted))
  }

  /** From every quiet state every prune can commit: exactly the manifests below the cut and everything
      the grace window lets go are gone. */
  lemma PruneIsARun(sha: Sha, run: seq<State>, db: Db, w: Wallet, retain: nat, threshold: nat, now: int) returns (longer: seq<State>)
    requires QuietAt(sha, run, db) && retain >= 1 && NthNewest(db, w, retain, threshold)
    ensures Extends(sha, run, longer) && QuietAt(sha, longer, PruneCommitted(db, PruneTx(db, w, retain, threshold, now)))
  {
    var s, done := Last(run), PruneTx(db, w, retain, threshold, now);
    longer := DeletedRun(sha, run, db, w, retain, threshold, now);
    longer := ReclaimedRun(sha, longer, s, Pruning(now, w, retain, Deleted, threshold, done.doomed), done);
    assert WithTx(s, done).txs - {0} == map[];
    longer := Ends(sha, longer, s, done, CommitPrune, PruneCommitted(db, done));
  }

  lemma ReclaimedRun(sha: Sha, run: seq<State>, s: State, deleted: Tx, done: Tx) returns (longer: seq<State>)
    requires IsRun(sha, run) && |s.wal| > 0 && Last(run) == WithTx(s, deleted) && deleted.Prune? && deleted.phase == Deleted && deleted.reclaimed == {}
    requires done == deleted.(phase := Checked, candidates := Reclaimable(Committed(s), deleted), reclaimed := Reclaimable(Committed(s), deleted))
    ensures Extends(sha, run, longer) && Last(longer) == WithTx(s, done)
  {
    var e := deleted.(phase := Reclaiming, candidates := done.candidates);
    SnapshotMoves(sha, s, deleted, e);
    longer := Works(sha, run, s, deleted, ReclaimSnapshot, e);
    longer := ReclaimsRun(sha, longer, s, e, done.candidates);
    assert {} + done.candidates == done.candidates;
    var f := e.(reclaimed := done.candidates);
    CheckMoves(sha, s, f, deleted, done);
    longer := Works(sha, longer, s, f, ForeignKeyCheck, done);
  }

  lemma SnapshotMoves(sha: Sha, s: State, deleted: Tx, e: Tx)
    requires |s.wal| > 0 && deleted.Prune? && deleted.phase == Deleted
    requires e == deleted.(phase := Reclaiming, candidates := Reclaimable(Committed(s), deleted))
    ensures Moves(sha, s, deleted, ReclaimSnapshot, e)
  {
    SameTxs(s, deleted, e);
  }

  lemma CheckMoves(sha: Sha, s: State, f: Tx, deleted: Tx, done: Tx)
    requires |s.wal| > 0 && f.Prune? && f.phase == Reclaiming && deleted.Prune? && done == f.(phase := Checked)
    requires f.doomed == deleted.doomed && f.reclaimed == Reclaimable(Committed(s), deleted)
    ensures Moves(sha, s, f, ForeignKeyCheck, done)
  {
    NothingReclaimedIsReferenced(Committed(s), f, deleted);
    SameTxs(s, f, done);
  }

  lemma NothingReclaimedIsReferenced(db: Db, tx: Tx, deleted: Tx)
    requires tx.Prune? && deleted.Prune? && tx.doomed == deleted.doomed && tx.reclaimed == Reclaimable(db, deleted)
    ensures ForeignKeyHolds(db, tx)
  {
    forall slot | slot in db.junction && slot.manifest !in tx.doomed ensures db.junction[slot] !in tx.reclaimed {
      assert Referenced(db, deleted, db.junction[slot]);
    }
  }
}
