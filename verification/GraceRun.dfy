/**
 * A run from the empty database that ends in the foreign-key violation the grace window is there to
 * prevent: a checkpoint is saved and superseded, a prune inside the window drops its manifest and
 * keeps its chunk, and once the chunk is old, a save that began too early re-uses it under a prune.
 */
module GraceRun {
  import opened Chunking
  import opened CheckpointProtocol
  import opened CheckpointSafety
  import opened CheckpointStore
  import opened CheckpointRuns
  import opened GraceWindow

  function RowsFor(sha: Sha, chunks: seq<Bytes>): seq<ChunkInsert> {
    seq(|chunks|, i requires 0 <= i < |chunks| => ChunkInsert(sha(chunks[i]), chunks[i]))
  }

  /** A save of at most one chunk, about to commit. */
  function Ready(sha: Sha, db: Db, start: int, w: Wallet, chunks: seq<Bytes>, id: nat): (tx: Tx)
    requires |chunks| <= 1
    ensures tx.Save? && tx.manifest == Some(id)
  {
    Save(start, w, chunks, None, Upserts(db.chunks, RowsFor(sha, chunks), start), ClaimedSeq(db, w), Some(id), |chunks|, false)
  }

  lemma SaveCommits(sha: Sha, run: seq<State>, db: Db, start: int, w: Wallet, chunks: seq<Bytes>, id: nat) returns (longer: seq<State>)
    requires QuietAt(sha, run, db) && |chunks| <= 1 && NewId(db.log, id)
    ensures QuietAt(sha, longer, SaveCommitted(sha, db, Ready(sha, db, start, w, chunks, id)))
  {
    var rows := RowsFor(sha, chunks);
    assert forall i :: 0 <= i < |chunks| ==> rows[i].hash == sha(chunks[i]);
    longer := SaveIsARun(sha, run, db, Ready(sha, db, start, w, chunks, id), rows);
  }

  /** The prune finds one expired manifest and, inside the window, nothing to reclaim. */
  ghost predicate DropsOnly(db: Db, start: int, w: Wallet, threshold: nat, id: nat) {
    && NthNewest(db, w, 1, threshold) && Doomed(db.manifests, w, threshold) == {id}
    && (forall h :: h in db.chunks ==> db.chunks[h].createdAt >= start - GRACE)
  }

  lemma PruneCommits(sha: Sha, run: seq<State>, db: Db, start: int, w: Wallet, threshold: nat, id: nat) returns (longer: seq<State>)
    requires QuietAt(sha, run, db) && DropsOnly(db, start, w, threshold, id)
    ensures QuietAt(sha, longer, PruneCommitted(db, Pruning(start, w, 1, Checked, threshold, {id})))
  {
    assert Reclaimable(db, Pruning(start, w, 1, Deleted, threshold, {id})) == {};
    longer := PruneIsARun(sha, run, db, w, 1, threshold, start);
  }

  // ----- the whole run ----------------------------------------------------------------------------

  function SavedOnce(sha: Sha, v: Wallet, c: Bytes, now: int): Db { SaveCommitted(sha, EMPTY, Ready(sha, EMPTY, now, v, [c], 1)) }

  function SavedTwice(sha: Sha, v: Wallet, c: Bytes, now: int): Db {
    SaveCommitted(sha, SavedOnce(sha, v, c, now), Ready(sha, SavedOnce(sha, v, c, now), now, v, [], 2))
  }

  function Orphaned(sha: Sha, v: Wallet, c: Bytes, now: int): Db {
    PruneCommitted(SavedTwice(sha, v, c, now), Pruning(now, v, 1, Checked, 2, {1}))
  }

  lemma SavedOnceIs(sha: Sha, v: Wallet, c: Bytes, now: int)
    ensures SavedOnce(sha, v, c, now) ==
      Db(map[sha(c) := ChunkRow(c, now)], map[1 := Manifest(v, 1, sha(Flatten(Hashes(sha, [c]))))], map[Slot(1, 0) := sha(c)],
         map[v := 2], map[], [Saved(v, 1, 1, [c], None)])
  {
    assert Rows(sha, 1, [c]) == map[Slot(1, 0) := sha(c)];
    assert RowsFor(sha, [c])[..0] == [] && Upserts(map[], [], now) == map[];
    assert Upserts(map[], RowsFor(sha, [c]), now) == map[sha(c) := ChunkRow(c, now)];
  }

  lemma SavedTwiceIs(sha: Sha, v: Wallet, c: Bytes, now: int)
    ensures var one := SavedOnce(sha, v, c, now);
      SavedTwice(sha, v, c, now) ==
        one.(manifests := one.manifests[2 := Manifest(v, 2, sha(Flatten(Hashes(sha, []))))], nextSeq := map[v := 3],
             log := one.log + [Saved(v, 2, 2, [], None)])
  {
    SavedOnceIs(sha, v, c, now);
    assert Rows(sha, 2, []) == map[];
  }

  /** Two checkpoints of the wallet, numbered 1 and 2, and no chunk older than the window. */
  ghost predicate TwoStored(db: Db, v: Wallet, now: int) {
    && db.manifests.Keys == {1, 2} && db.manifests[1].wallet == v && db.manifests[1].seqNo == 1
    && db.manifests[2].wallet == v && db.manifests[2].seqNo == 2
    && forall h :: h in db.chunks ==> db.chunks[h].createdAt >= now - GRACE
  }

  lemma BothNumbers(db: Db, v: Wallet, now: int)
    requires TwoStored(db, v, now)
    ensures SeqsOf(db, v) == {1, 2}
  {
    assert db.manifests[1].seqNo in SeqsOf(db, v) && db.manifests[2].seqNo in SeqsOf(db, v);
  }

  lemma SecondIsNewest(db: Db, v: Wallet, now: int)
    requires TwoStored(db, v, now)
    ensures DropsOnly(db, now, v, 2, 1)
  {
    BothNumbers(db, v, now);
    TwoIsNewest();
    assert Doomed(db.manifests, v, 2) == {1};
  }

  lemma TwoIsNewest()
    ensures |{1, 2}| == 2 && |AtLeast({1, 2}, 2)| == 1
  {
    assert AtLeast({1, 2}, 2) == {2};
  }

  /** A run to a quiet database with an unreferenced chunk and no trace of wallet w. */
  lemma OrphanIsReachable(sha: Sha, v: Wallet, c: Bytes, now: int) returns (path: seq<State>)
    ensures QuietAt(sha, path, Orphaned(sha, v, c, now))
  {
    path := [State([EMPTY], map[])];
    path := SaveCommits(sha, path, EMPTY, now, v, [c], 1);
    SavedOnceIs(sha, v, c, now);
    path := SaveCommits(sha, path, SavedOnce(sha, v, c, now), now, v, [], 2);
    SavedTwiceIs(sha, v, c, now);
    SecondIsNewest(SavedTwice(sha, v, c, now), v, now);
    path := PruneCommits(sha, path, SavedTwice(sha, v, c, now), now, v, 2, 1);
  }

  lemma OrphanIsStale(sha: Sha, v: Wallet, w: Wallet, c: Bytes, now: int, pruneStart: int)
    requires v != w && now < pruneStart - GRACE
    ensures var db := Orphaned(sha, v, c, now);
      && StaleChunk(db, sha(c), w, pruneStart) && db.chunks[sha(c)].data == c && w !in db.nextSeq
      && |db.log| == 2 && db.log[0].manifest == 1 && db.log[1].manifest == 2
  {
    SavedOnceIs(sha, v, c, now);
    SavedTwiceIs(sha, v, c, now);
    assert SeqsOf(Orphaned(sha, v, c, now), w) == {};
  }

  lemma JoinPaths(sha: Sha, a: seq<State>, b: seq<State>)
    requires IsRun(sha, a) && IsPath(sha, b, Last(a))
    ensures IsRun(sha, a + b[1..]) && Last(a + b[1..]) == Last(b)
  {
    var both := a + b[1..];
    forall i | 0 <= i < |both| - 1 ensures StepAt(sha, both, i) {
      if i < |a| - 1 {
        assert StepAt(sha, a, i) && both[i] == a[i] && both[i + 1] == a[i + 1];
      } else {
        var j := i - (|a| - 1);
        assert both[i] == b[j] && both[i + 1] == b[j + 1];
      }
    }
  }

  /**
   * The window cannot be shortened. For every chunk, every two wallets and every two start times more
   * than 15 minutes apart there is a run, from the empty database, in which a save with the earlier
   * start has committed a reference to a chunk that an open prune with the later start has reclaimed:
   * its foreign-key check is false.
   */
  lemma GraceIsNeeded(sha: Sha, v: Wallet, w: Wallet, c: Bytes, saveStart: int, pruneStart: int) returns (run: seq<State>)
    requires v != w && saveStart < pruneStart - GRACE
    ensures IsRun(sha, run)
    ensures var last := Last(run);
      && |last.wal| > 0 && 1 in last.txs && last.txs[1].Prune? && last.txs[1].start == pruneStart
      && last.txs[1].phase == Reclaiming && !ForeignKeyHolds(Committed(last), last.txs[1])
  {
    var a := OrphanIsReachable(sha, v, c, saveStart);
    OrphanIsStale(sha, v, w, c, saveStart, pruneStart);
    var b := StaleChunkIsReclaimed(sha, Last(a), sha(c), w, 3, saveStart, pruneStart);
    JoinPaths(sha, a, b);
    run := a + b[1..];
  }
}
