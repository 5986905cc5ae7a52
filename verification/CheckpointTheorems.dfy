/** What a caller of the checkpoint store may rely on, in every durable state of every run. */
module CheckpointTheorems {
  import opened Chunking
  import opened CheckpointProtocol
  import opened CheckpointSafety

  // ----- reading a checkpoint back --------------------------------------------------------------

  /** The rows of `junction LEFT JOIN chunks WHERE manifest_id = id ORDER BY position`. */
  ghost predicate JoinResult(db: Db, id: nat, rows: seq<JoinRow>) {
    && (forall r :: 0 <= r < |rows| ==> JoinedFrom(db, id, rows[r]))
    && (forall r, r' :: 0 <= r < r' < |rows| ==> rows[r].position < rows[r'].position)
    && (forall p: nat :: Slot(id, p) in db.junction ==> HasPosition(rows, p))
  }

  ghost predicate HasPosition(rows: seq<JoinRow>, p: nat) {
    exists r :: 0 <= r < |rows| && rows[r].position == p
  }

  ghost predicate JoinedFrom(db: Db, id: nat, row: JoinRow) {
    && row.position >= 0 && Slot(id, row.position) in db.junction
    && row.chunkHash == db.junction[Slot(id, row.position)]
    && row.data == if row.chunkHash in db.chunks then Some(db.chunks[row.chunkHash].data) else None
  }

  /** Strictly increasing naturals that cover exactly 0..n-1 are 0, 1, ..., n-1. */
  lemma {:induction false} DensePositions(rows: seq<JoinRow>, n: nat, i: nat)
    requires forall r :: 0 <= r < |rows| ==> 0 <= rows[r].position < n
    requires forall r, r' :: 0 <= r < r' < |rows| ==> rows[r].position < rows[r'].position
    requires forall p: nat :: p < n ==> HasPosition(rows, p)
    requires i < n
    ensures i < |rows| && rows[i].position == i
  {
    if i > 0 { DensePositions(rows, n, i - 1); }
    assert HasPosition(rows, i);
    var r :| 0 <= r < |rows| && rows[r].position == i;
    PositionAtLeast(rows, r);
  }

  lemma {:induction false} PositionAtLeast(rows: seq<JoinRow>, r: nat)
    requires forall r :: 0 <= r < |rows| ==> 0 <= rows[r].position
    requires forall r, r' :: 0 <= r < r' < |rows| ==> rows[r].position < rows[r'].position
    requires r < |rows|
    ensures r <= rows[r].position
  {
    if r > 0 { PositionAtLeast(rows, r - 1); }
  }

  lemma DenseRows(rows: seq<JoinRow>, n: nat)
    requires forall r :: 0 <= r < |rows| ==> 0 <= rows[r].position < n
    requires forall r, r' :: 0 <= r < r' < |rows| ==> rows[r].position < rows[r'].position
    requires forall p: nat :: p < n ==> HasPosition(rows, p)
    ensures |rows| == n && forall i :: 0 <= i < n ==> rows[i].position == i
  {
    forall i: nat | i < n ensures i < |rows| && rows[i].position == i { DensePositions(rows, n, i); }
    if n > 0 { DensePositions(rows, n, n - 1); }
    if |rows| > 0 { PositionAtLeast(rows, |rows| - 1); }
  }

  lemma JoinOfStored(sha: Sha, db: Db, i: nat, rows: seq<JoinRow>)
    requires ChunksSound(sha, db) && i < |db.log| && Stored(sha, db, i) && JoinResult(db, db.log[i].manifest, rows)
    ensures GoodRows(sha, rows) && FaithfulRows(sha, rows, db.log[i].chunks)
  {
    var e := db.log[i];
    forall r | 0 <= r < |rows| ensures 0 <= rows[r].position < |e.chunks| { assert JoinedFrom(db, e.manifest, rows[r]); }
    assert forall p: nat :: p < |e.chunks| ==> Slot(e.manifest, p) in db.junction;
    DenseRows(rows, |e.chunks|);
    forall r | 0 <= r < |rows| ensures GoodRow(sha, rows[r], r) && rows[r].chunkHash == sha(e.chunks[r]) {
      assert JoinedFrom(db, e.manifest, rows[r]);
    }
  }

  /**
   * GC safety. In every durable state of every run, whatever was saved, pruned, aborted or lost in
   * a crash before: a checkpoint that is still listed passes every check of `load`, which returns
   * exactly the bytes its save was given (unless two particular chunks collide under SHA-256), and
   * `history` reports the same byte length and chunk count as `save` did.
   */
  lemma ListedCheckpointsLoad(sha: Sha, run: seq<State>, s: nat, k: nat, i: nat, rows: seq<JoinRow>)
    requires IsRun(sha, run) && s < |run| && k < |run[s].wal|
    requires i < |run[s].wal[k].log| && run[s].wal[k].log[i].manifest in run[s].wal[k].manifests
    requires JoinResult(run[s].wal[k], run[s].wal[k].log[i].manifest, rows)
    ensures var db := run[s].wal[k]; var e := db.log[i];
      && GoodRows(sha, rows) && sha(Flatten(RowHashes(rows))) == db.manifests[e.manifest].hash
      && |rows| == |e.chunks|
      && (ChunksCollide(sha, Parts(rows), e.chunks)
          || (Flatten(Parts(rows)) == Flatten(e.chunks) && SumLengths(Parts(rows)) == |Flatten(e.chunks)|))
  {
    RunKeepsInv(sha, run, s);
    var db := run[s].wal[k];
    var e := db.log[i];
    assert DbSound(sha, db) && Stored(sha, db, i);
    JoinOfStored(sha, db, i, rows);
    assert RowHashes(rows) == Hashes(sha, e.chunks);
    SameHashes(sha, e.chunks, rows);
    SumIsPayloadLength(Parts(rows));
  }

  // ----- sequence numbers and retention ---------------------------------------------------------

  /** The k-th committed save of a wallet has sequence number k, and every number up to the count
      was given out: aborted saves leave no gap. */
  lemma {:induction false} SequenceExists(db: Db, m: nat, w: Wallet, x: nat) returns (i: nat)
    requires SequencesSound(db) && m <= |db.log| && 1 <= x <= Count(db.log[..m], w)
    ensures i < m && db.log[i].wallet == w && db.log[i].seqNo == x
  {
    var last := db.log[..m][m - 1];
    assert db.log[..m][..m - 1] == db.log[..m - 1];
    if last.wallet == w && x == Count(db.log[..m - 1], w) + 1 {
      i := m - 1;
    } else {
      i := SequenceExists(db, m - 1, w, x);
    }
  }

  ghost predicate Issued(log: seq<Saved>, w: Wallet, x: nat) {
    exists i :: 0 <= i < |log| && log[i].wallet == w && log[i].seqNo == x
  }

  lemma SequencesAreDense(sha: Sha, run: seq<State>, s: nat, k: nat, w: Wallet)
    requires IsRun(sha, run) && s < |run| && k < |run[s].wal|
    ensures var log := run[s].wal[k].log;
      && (forall x: nat :: Issued(log, w, x) <==> 1 <= x <= Count(log, w))
      && (forall i, j :: 0 <= i < j < |log| && log[i].wallet == log[j].wallet ==> log[i].seqNo < log[j].seqNo)
  {
    RunKeepsInv(sha, run, s);
    var db := run[s].wal[k];
    assert SequencesSound(db) by { assert DbSound(sha, db); }
    forall x: nat ensures Issued(db.log, w, x) <==> 1 <= x <= Count(db.log, w) { IssuedUpToCount(db, w, x); }
    forall i, j | 0 <= i < j < |db.log| && db.log[i].wallet == db.log[j].wallet ensures db.log[i].seqNo < db.log[j].seqNo {
      LaterIsLarger(db, i, j);
    }
  }

  lemma IssuedUpToCount(db: Db, w: Wallet, x: nat)
    requires SequencesSound(db)
    ensures Issued(db.log, w, x) <==> 1 <= x <= Count(db.log, w)
  {
    if Issued(db.log, w, x) {
      var i :| 0 <= i < |db.log| && db.log[i].wallet == w && db.log[i].seqNo == x;
      SeqInRange(db, i);
    }
    if 1 <= x <= Count(db.log, w) {
      assert db.log[..|db.log|] == db.log;
      var i := SequenceExists(db, |db.log|, w, x);
    }
  }

  lemma LaterIsLarger(db: Db, i: nat, j: nat)
    requires SequencesSound(db) && i < j < |db.log| && db.log[i].wallet == db.log[j].wallet
    ensures db.log[i].seqNo < db.log[j].seqNo
  {
    var w, before := db.log[i].wallet, db.log[..j];
    assert before[..i + 1] == db.log[..i] + [db.log[i]];
    CountAppend(db.log[..i], db.log[i], w);
    CountMonotone(before, i + 1, w);
  }

  /** The stored sequence numbers of a wallet are a run ending at the newest one. */
  lemma StoredIsSuffix(sha: Sha, db: Db, w: Wallet, x: nat)
    requires DbSound(sha, db) && x in SeqsOf(db, w)
    ensures forall y: nat :: x <= y ==> (y in SeqsOf(db, w) <==> y <= Count(db.log, w))
  {
    var i := LoggedAt(sha, db, w, x);
    SeqInRange(db, i);
    forall y: nat | x <= y ensures y in SeqsOf(db, w) <==> y <= Count(db.log, w) {
      if y in SeqsOf(db, w) {
        var j := LoggedAt(sha, db, w, y);
        SeqInRange(db, j);
      }
      if y <= Count(db.log, w) { NewerIsStored(sha, db, i, y); }
    }
  }

  lemma NewerIsStored(sha: Sha, db: Db, i: nat, y: nat)
    requires DbSound(sha, db) && i < |db.log| && db.log[i].manifest in db.manifests
    requires 1 <= db.log[i].seqNo <= y <= Count(db.log, db.log[i].wallet)
    ensures y in SeqsOf(db, db.log[i].wallet)
  {
    assert db.log[..|db.log|] == db.log;
    var j := SequenceExists(db, |db.log|, db.log[i].wallet, y);
    assert NoNewer(db.log[i], db.log[j]);
    assert Stored(sha, db, j);
  }

  lemma LoggedAt(sha: Sha, db: Db, w: Wallet, x: nat) returns (i: nat)
    requires ManifestsSound(sha, db) && x in SeqsOf(db, w)
    ensures i < |db.log| && db.log[i].wallet == w && db.log[i].seqNo == x && db.log[i].manifest in db.manifests
  {
    var id :| id in db.manifests && db.manifests[id].wallet == w && db.manifests[id].seqNo == x;
    i :| 0 <= i < |db.log| && db.log[i].manifest == id;
    assert Stored(sha, db, i);
  }

  lemma {:induction false} IntervalSize(lo: nat, hi: nat, s: set<nat>)
    requires lo <= hi + 1 && forall x: nat :: x in s <==> lo <= x <= hi
    ensures |s| == hi + 1 - lo
    decreases hi + 1 - lo
  {
    if lo == hi + 1 {
      assert s == {};
    } else {
      IntervalSize(lo + 1, hi, s - {lo});
      assert |s| == |s - {lo}| + 1;
    }
  }

  /** The OFFSET/LIMIT subquery picks the cut that leaves exactly the newest `retain`. */
  lemma ThresholdKeepsNewest(sha: Sha, db: Db, w: Wallet, retain: nat, threshold: nat)
    requires DbSound(sha, db) && retain >= 1 && NthNewest(db, w, retain, threshold)
    ensures |SeqsOf(db, w)| < retain ==> AtLeast(SeqsOf(db, w), threshold) == SeqsOf(db, w)
    ensures |SeqsOf(db, w)| >= retain ==>
      && threshold == Count(db.log, w) + 1 - retain
      && forall x: nat :: x in AtLeast(SeqsOf(db, w), threshold) <==> threshold <= x <= Count(db.log, w)
  {
    if |SeqsOf(db, w)| >= retain {
      StoredIsSuffix(sha, db, w, threshold);
      IntervalSize(threshold, Count(db.log, w), AtLeast(SeqsOf(db, w), threshold));
    }
  }

  /** When the prune commits, it removes exactly the wallet's checkpoints below that cut, of the
      ones stored at that moment, and touches no other wallet. */
  lemma PruneRemovesExactlyOld(sha: Sha, run: seq<State>, s: nat, t: Tid)
    requires IsRun(sha, run) && s < |run| && t in run[s].txs && run[s].txs[t].Prune? && run[s].txs[t].phase == Checked
    ensures |run[s].wal| > 0
    ensures var db, p := Committed(run[s]), run[s].txs[t];
      && SeqsOf(PruneCommitted(db, p), p.wallet) == AtLeast(SeqsOf(db, p.wallet), p.threshold)
      && forall w :: w != p.wallet ==> SeqsOf(PruneCommitted(db, p), w) == SeqsOf(db, w)
  {
    RunKeepsInv(sha, run, s);
    var db, p := Committed(run[s]), run[s].txs[t];
    assert TxSound(sha, db, p);
    forall w
      ensures w == p.wallet ==> SeqsOf(PruneCommitted(db, p), w) == AtLeast(SeqsOf(db, w), p.threshold)
      ensures w != p.wallet ==> SeqsOf(PruneCommitted(db, p), w) == SeqsOf(db, w)
    {
      SeqsAfterPrune(db, p, w);
    }
  }

  lemma SeqsAfterPrune(db: Db, p: Tx, w: Wallet)
    requires p.Prune? && PruneSound(db, p) && p.phase == Checked
    ensures w == p.wallet ==> SeqsOf(PruneCommitted(db, p), w) == AtLeast(SeqsOf(db, w), p.threshold)
    ensures w != p.wallet ==> SeqsOf(PruneCommitted(db, p), w) == SeqsOf(db, w)
  {
    var after, cut := SeqsOf(PruneCommitted(db, p), w), if w == p.wallet then p.threshold else 0;
    assert forall id :: id in db.manifests && id in p.doomed ==> Expired(db, p, id);
    forall x | x in after ensures x in SeqsOf(db, w) && x >= cut {
      var id :| id in db.manifests && id !in p.doomed && db.manifests[id].wallet == w && db.manifests[id].seqNo == x;
      assert w == p.wallet ==> !Expired(db, p, id);
    }
    forall x | x in SeqsOf(db, w) && x >= cut ensures x in after {
      var id :| id in db.manifests && db.manifests[id].wallet == w && db.manifests[id].seqNo == x;
      assert id !in p.doomed;
      assert id in PruneCommitted(db, p).manifests;
    }
  }

  // ----- the cursor is never ahead of its data --------------------------------------------------

  /** All checkpoints of `w` are written by `saveAndAdvance` with this cursor, and nothing else
      writes it. */
  ghost predicate Disciplined(s: State, w: Wallet, key: string) {
    forall t :: t in s.txs && s.txs[t].Save? ==>
      (s.txs[t].wallet == w <==> s.txs[t].cursor.Some? && s.txs[t].cursor.value.key == key)
  }

  ghost predicate CursorMatches(db: Db, w: Wallet, key: string) {
    && (key in db.cursors <==> Count(db.log, w) > 0)
    && forall i :: 0 <= i < |db.log| && db.log[i].wallet == w && db.log[i].seqNo == Count(db.log, w) ==>
         key in db.cursors && db.log[i].cursor == Some(Cursor(key, db.cursors[key]))
  }

  lemma CommitKeepsCursor(sha: Sha, db: Db, tx: Tx, w: Wallet, key: string)
    requires tx.Save? && tx.manifest.Some? && SequencesSound(db) && tx.seqNo == Count(db.log, tx.wallet) + 1 && CursorMatches(db, w, key)
    requires tx.wallet == w <==> tx.cursor.Some? && tx.cursor.value.key == key
    ensures CursorMatches(SaveCommitted(sha, db, tx), w, key)
  {
    var db' := SaveCommitted(sha, db, tx);
    CountAppend(db.log, db'.log[|db.log|], w);
    forall i | 0 <= i < |db'.log| && db'.log[i].wallet == w && db'.log[i].seqNo == Count(db'.log, w)
      ensures key in db'.cursors && db'.log[i].cursor == Some(Cursor(key, db'.cursors[key]))
    {
      if i < |db.log| { SeqInRange(db, i); }
    }
  }

  ghost predicate CursorsMatch(s: State, w: Wallet, key: string) {
    forall k :: 0 <= k < |s.wal| ==> CursorMatches(s.wal[k], w, key)
  }

  lemma StepKeepsCursor(sha: Sha, s: State, t: Tid, step: Step, s': State, w: Wallet, key: string)
    requires Inv(sha, s) && NextBy(sha, s, t, step, s') && Disciplined(s, w, key) && CursorsMatch(s, w, key)
    ensures CursorsMatch(s', w, key)
  {
    if step.Crash? {
      assert forall k :: 0 <= k < |s'.wal| ==> s'.wal[k] == s.wal[k];
    } else if step.CommitSave? {
      CommitSaveKeepsCursor(sha, s, t, s', w, key);
    } else if step.CommitPrune? {
      var db := PruneCommitted(Committed(s), s.txs[t]);
      assert CursorMatches(Committed(s), w, key);
      AppendKeepsCursors(s, db, s', w, key);
    } else {
      assert s'.wal == s.wal;
    }
  }

  lemma CommitSaveKeepsCursor(sha: Sha, s: State, t: Tid, s': State, w: Wallet, key: string)
    requires Inv(sha, s) && t in s.txs && s.txs[t].Save? && SaveStep(sha, s, t, CommitSave, s')
    requires Disciplined(s, w, key) && CursorsMatch(s, w, key)
    ensures CursorsMatch(s', w, key)
  {
    var db, tx := Committed(s), s.txs[t];
    assert TxSound(sha, db, tx) && DbSound(sha, db) && CursorMatches(db, w, key);
    CommitKeepsCursor(sha, db, tx, w, key);
    AppendKeepsCursors(s, SaveCommitted(sha, db, tx), s', w, key);
  }

  lemma AppendKeepsCursors(s: State, db: Db, s': State, w: Wallet, key: string)
    requires CursorsMatch(s, w, key) && s'.wal == s.wal + [db] && CursorMatches(db, w, key)
    ensures CursorsMatch(s', w, key)
  {
  }

  lemma InitialCursor(w: Wallet, key: string)
    ensures CursorsMatch(State([EMPTY], map[]), w, key)
  {
    assert CursorMatches(EMPTY, w, key);
  }

  lemma NextKeepsCursor(sha: Sha, s: State, s': State, w: Wallet, key: string)
    requires Inv(sha, s) && Next(sha, s, s') && Disciplined(s, w, key) && CursorsMatch(s, w, key)
    ensures CursorsMatch(s', w, key)
  {
    var t, step :| NextBy(sha, s, t, step, s');
    StepKeepsCursor(sha, s, t, step, s', w, key);
  }

  lemma RunStepKeepsCursor(sha: Sha, run: seq<State>, i: nat, w: Wallet, key: string)
    requires IsRun(sha, run) && i < |run| - 1 && Disciplined(run[i], w, key) && CursorsMatch(run[i], w, key)
    ensures CursorsMatch(run[i + 1], w, key)
  {
    RunKeepsInv(sha, run, i);
    assert StepAt(sha, run, i);
    NextKeepsCursor(sha, run[i], run[i + 1], w, key);
  }

  lemma {:induction false} RunKeepsCursor(sha: Sha, run: seq<State>, i: nat, w: Wallet, key: string)
    requires IsRun(sha, run) && i < |run| && forall j :: 0 <= j < |run| ==> Disciplined(run[j], w, key)
    ensures CursorsMatch(run[i], w, key)
  {
    if i > 0 {
      RunKeepsCursor(sha, run, i - 1, w, key);
      RunStepKeepsCursor(sha, run, i - 1, w, key);
    } else {
      InitialCursor(w, key);
    }
  }

  /**
   * Cursor never ahead of data. In every durable prefix of every run in which the wallet's
   * checkpoints are written by `saveAndAdvance`: if the cursor is stored at all, there is a newest
   * durable checkpoint, it was committed together with exactly that cursor value, and it is still
   * stored, so `ListedCheckpointsLoad` applies to it however much was pruned.
   */
  lemma CursorNeverAhead(sha: Sha, run: seq<State>, s: nat, k: nat, w: Wallet, key: string) returns (newest: nat)
    requires IsRun(sha, run) && s < |run| && k < |run[s].wal| && key in run[s].wal[k].cursors
    requires forall j :: 0 <= j < |run| ==> Disciplined(run[j], w, key)
    ensures var db := run[s].wal[k];
      && newest < |db.log| && db.log[newest].wallet == w
      && (forall i :: 0 <= i < |db.log| && db.log[i].wallet == w ==> db.log[i].seqNo <= db.log[newest].seqNo)
      && db.log[newest].cursor == Some(Cursor(key, db.cursors[key]))
      && db.log[newest].manifest in db.manifests
  {
    RunKeepsInv(sha, run, s);
    RunKeepsCursor(sha, run, s, w, key);
    var db := run[s].wal[k];
    assert DbSound(sha, db) && CursorMatches(db, w, key);
    assert db.log[..|db.log|] == db.log;
    newest := SequenceExists(db, |db.log|, w, Count(db.log, w));
    forall i | 0 <= i < |db.log| && db.log[i].wallet == w ensures db.log[i].seqNo <= db.log[newest].seqNo { SeqInRange(db, i); }
  }
}
