/**
 * The 15-minute grace window of `prune`. Integrity never depends on it (the foreign key refuses a
 * bad reclaim); it decides whether the foreign key ever has to refuse one.
 */
module GraceWindow {
  import opened Chunking
  import opened CheckpointProtocol
  import opened CheckpointSafety

  /** Every open save began at most 15 minutes before every open prune did. */
  ghost predicate WithinGrace(s: State) {
    forall t, p :: t in s.txs && p in s.txs && s.txs[t].Save? && s.txs[p].Prune? ==>
      s.txs[t].start >= s.txs[p].start - GRACE
  }

  /** A candidate that has meanwhile become referenced was refreshed; what is reclaimed is old. */
  ghost predicate PruneSafe(db: Db, p: Tx)
    requires p.Prune?
  {
    && (forall slot :: slot in db.junction && slot.manifest !in p.doomed && db.junction[slot] in p.candidates ==>
         !Aged(db, p, db.junction[slot]))
    && (forall h :: h in p.reclaimed ==> h in p.candidates && Aged(db, p, h))
    && (p.phase in {Fresh, Deleting, Deleted} ==> p.candidates == {})
  }

  ghost predicate GraceInv(s: State) {
    |s.wal| > 0 && forall t :: t in s.txs && s.txs[t].Prune? ==> PruneSafe(Committed(s), s.txs[t])
  }

  lemma SafePrunePassesForeignKey(db: Db, p: Tx)
    requires p.Prune? && PruneSafe(db, p)
    ensures ForeignKeyHolds(db, p)
  {
  }

  lemma PruneWorkSafe(s: State, t: Tid, step: Step, s': State)
    requires |s.wal| > 0 && t in s.txs && s.txs[t].Prune? && PruneStep(s, t, step, s') && !step.CommitPrune?
    requires PruneSafe(Committed(s), s.txs[t])
    ensures s'.txs[t].Prune? && PruneSafe(Committed(s), s'.txs[t])
  {
  }

  /** A save that commits while p is open leaves fresh every chunk it wrote. */
  lemma SaveCommitSafe(sha: Sha, db: Db, tx: Tx, p: Tx)
    requires tx.Save? && tx.manifest.Some? && SaveSound(sha, db, tx)
    requires p.Prune? && PruneSafe(db, p) && Apart(tx, p) && tx.start >= p.start - GRACE
    ensures PruneSafe(SaveCommitted(sha, db, tx), p)
  {
    var db' := SaveCommitted(sha, db, tx);
    assert forall h :: h in tx.upserted ==> !Aged(db', p, h);
    assert forall h :: h !in tx.upserted ==> (Aged(db', p, h) <==> Aged(db, p, h));
  }

  lemma PruneCommitSafe(db: Db, q: Tx, p: Tx)
    requires q.Prune? && p.Prune? && PruneSafe(db, p) && Apart(q, p)
    ensures PruneSafe(PruneCommitted(db, q), p)
  {
  }

  lemma SaveCommitKeepsGrace(sha: Sha, s: State, t: Tid, s': State)
    requires Inv(sha, s) && GraceInv(s) && WithinGrace(s)
    requires t in s.txs && s.txs[t].Save? && s.txs[t].manifest.Some?
    requires Ends(s, s', t, SaveCommitted(sha, Committed(s), s.txs[t]))
    ensures GraceInv(s')
  {
    var tx := s.txs[t];
    assert TxSound(sha, Committed(s), tx);
    forall u | u in s'.txs && s'.txs[u].Prune? ensures PruneSafe(Committed(s'), s'.txs[u]) {
      assert Apart(tx, s.txs[u]);
      SaveCommitSafe(sha, Committed(s), tx, s.txs[u]);
    }
  }

  lemma PruneCommitKeepsGrace(s: State, t: Tid, s': State)
    requires |s.wal| > 0 && LocksSound(s.txs) && GraceInv(s)
    requires t in s.txs && s.txs[t].Prune? && Ends(s, s', t, PruneCommitted(Committed(s), s.txs[t]))
    ensures GraceInv(s')
  {
    forall u | u in s'.txs && s'.txs[u].Prune? ensures PruneSafe(Committed(s'), s'.txs[u]) {
      assert Apart(s.txs[t], s.txs[u]);
      PruneCommitSafe(Committed(s), s.txs[t], s.txs[u]);
    }
  }

  lemma WorkKeepsGrace(s: State, t: Tid, tx: Tx, s': State)
    requires GraceInv(s) && Works(s, s', t, tx) && (tx.Prune? ==> PruneSafe(Committed(s), tx))
    ensures GraceInv(s')
  {
  }

  lemma OutsideStepKeepsGrace(sha: Sha, s: State, t: Tid, step: Step, s': State)
    requires GraceInv(s) && NextBy(sha, s, t, step, s')
    requires step.BeginSave? || step.BeginPrune? || step.Abort? || step.Crash?
    ensures GraceInv(s')
  {
    if step.BeginSave? || step.BeginPrune? {
      WorkKeepsGrace(s, t, s'.txs[t], s');
    } else {
      assert forall u :: u in s'.txs ==> u in s.txs && s'.txs[u] == s.txs[u];
      assert step.Abort? ==> Committed(s') == Committed(s);
    }
  }

  lemma SaveStepKeepsGrace(sha: Sha, s: State, t: Tid, step: Step, s': State)
    requires Inv(sha, s) && GraceInv(s) && WithinGrace(s)
    requires t in s.txs && s.txs[t].Save? && SaveStep(sha, s, t, step, s')
    ensures GraceInv(s')
  {
    if step.CommitSave? {
      SaveCommitKeepsGrace(sha, s, t, s');
    } else {
      WorkKeepsGrace(s, t, s'.txs[t], s');
    }
  }

  lemma PruneStepKeepsGrace(s: State, t: Tid, step: Step, s': State)
    requires |s.wal| > 0 && LocksSound(s.txs) && GraceInv(s)
    requires t in s.txs && s.txs[t].Prune? && PruneStep(s, t, step, s')
    ensures GraceInv(s')
  {
    if step.CommitPrune? {
      PruneCommitKeepsGrace(s, t, s');
    } else {
      PruneWorkSafe(s, t, step, s');
      WorkKeepsGrace(s, t, s'.txs[t], s');
    }
  }

  lemma StepKeepsGrace(sha: Sha, s: State, t: Tid, step: Step, s': State)
    requires Inv(sha, s) && GraceInv(s) && WithinGrace(s) && NextBy(sha, s, t, step, s')
    ensures GraceInv(s')
  {
    if step.BeginSave? || step.BeginPrune? || step.Abort? || step.Crash? {
      OutsideStepKeepsGrace(sha, s, t, step, s');
    } else if s.txs[t].Save? {
      SaveStepKeepsGrace(sha, s, t, step, s');
    } else {
      PruneStepKeepsGrace(s, t, step, s');
    }
  }

  /**
   * The grace window suffices. In every run in which overlapping saves began within the window,
   * the foreign-key check of every reclaim statement succeeds whenever it is reached.
   */
  lemma {:induction false} GraceSuffices(sha: Sha, run: seq<State>, i: nat)
    requires IsRun(sha, run) && i < |run| && forall j :: 0 <= j < |run| ==> WithinGrace(run[j])
    ensures GraceInv(run[i])
    ensures forall t :: t in run[i].txs && run[i].txs[t].Prune? ==> ForeignKeyHolds(Committed(run[i]), run[i].txs[t])
  {
    if i > 0 {
      GraceSuffices(sha, run, i - 1);
      RunKeepsInv(sha, run, i - 1);
      assert StepAt(sha, run, i - 1);
      var t, step :| NextBy(sha, run[i - 1], t, step, run[i]);
      StepKeepsGrace(sha, run[i - 1], t, step, run[i]);
    }
    forall t | t in run[i].txs && run[i].txs[t].Prune? ensures ForeignKeyHolds(Committed(run[i]), run[i].txs[t]) {
      SafePrunePassesForeignKey(Committed(run[i]), run[i].txs[t]);
    }
  }

  // ----- and it is needed -----------------------------------------------------------------------

  ghost predicate IsPath(sha: Sha, path: seq<State>, from: State) {
    && |path| > 0 && path[0] == from
    && forall i :: 0 <= i < |path| - 1 ==> Next(sha, path[i], path[i + 1])
  }

  lemma ExtendPath(sha: Sha, path: seq<State>, from: State, t: Tid, step: Step, s': State)
    requires IsPath(sha, path, from) && NextBy(sha, path[|path| - 1], t, step, s')
    ensures IsPath(sha, path + [s'], from)
  {
    var longer := path + [s'];
    forall i | 0 <= i < |longer| - 1 ensures Next(sha, longer[i], longer[i + 1]) {
      if i < |path| - 1 { assert longer[i] == path[i] && longer[i + 1] == path[i + 1]; }
    }
  }

  ghost predicate StaleChunk(db: Db, h: Bytes, w: Wallet, pruneStart: int) {
    && h in db.chunks && db.chunks[h].createdAt < pruneStart - GRACE
    && (forall slot :: slot in db.junction ==> db.junction[slot] != h)
    && SeqsOf(db, w) == {}
  }

  function SnapshotTaken(w: Wallet, start: int, candidates: set<Bytes>): Tx {
    Prune(start, w, 1, Reclaiming, 0, {}, candidates, {})
  }

  function PruneAt(last: State, w: Wallet, start: int, phase: PrunePhase): State {
    last.(txs := last.txs[1 := Prune(start, w, 1, phase, 0, {}, {}, {})])
  }

  lemma PruneToDeleted(sha: Sha, s: State, path: seq<State>, last: State, h: Bytes, w: Wallet, start: int) returns (path': seq<State>)
    requires IsPath(sha, path, s) && path[|path| - 1] == last
    requires |last.wal| > 0 && 1 !in last.txs && StaleChunk(Committed(last), h, w, start)
    ensures IsPath(sha, path', s) && path'[|path'| - 1] == PruneAt(last, w, start, Deleted)
  {
    var s1, s2, s3 := PruneAt(last, w, start, Fresh), PruneAt(last, w, start, Deleting), PruneAt(last, w, start, Deleted);
    ExtendPath(sha, path, s, 1, BeginPrune(start, w, 1), s1);
    assert s2.txs == s1.txs[1 := s2.txs[1]];
    ExtendPath(sha, path + [s1], s, 1, SelectThreshold(0), s2);
    assert s3.txs == s2.txs[1 := s3.txs[1]];
    ExtendPath(sha, path + [s1] + [s2], s, 1, DeleteDone, s3);
    path' := path + [s1] + [s2] + [s3];
  }

  /** A prune of a wallet without checkpoints reaches its reclaim snapshot with h a candidate. */
  lemma PruneToSnapshot(sha: Sha, s: State, path: seq<State>, last: State, h: Bytes, w: Wallet, start: int)
      returns (path': seq<State>, c: set<Bytes>)
    requires IsPath(sha, path, s) && path[|path| - 1] == last
    requires |last.wal| > 0 && 1 !in last.txs && StaleChunk(Committed(last), h, w, start)
    ensures IsPath(sha, path', s) && h in c
    ensures path'[|path'| - 1] == last.(txs := last.txs[1 := SnapshotTaken(w, start, c)])
  {
    var db, s3 := Committed(last), PruneAt(last, w, start, Deleted);
    path' := PruneToDeleted(sha, s, path, last, h, w, start);
    var tx3 := s3.txs[1];
    c := Reclaimable(db, tx3);
    var s4 := last.(txs := last.txs[1 := SnapshotTaken(w, start, c)]);
    assert s4.txs == s3.txs[1 := s4.txs[1]];
    ExtendPath(sha, path', s, 1, ReclaimSnapshot, s4);
    path' := path' + [s4];
  }

  lemma ExtendSave(sha: Sha, path: seq<State>, s: State, last: State, step: Step, s': State)
    requires IsPath(sha, path, s) && path[|path| - 1] == last
    requires |last.wal| > 0 && 0 in last.txs && last.txs[0].Save? && SaveStep(sha, last, 0, step, s')
    ensures IsPath(sha, path + [s'], s)
  {
    assert NextBy(sha, last, 0, step, s');
    ExtendPath(sha, path, s, 0, step, s');
  }

  /** The save of a one-chunk payload: upsert and sequence claim. */
  lemma SaveToClaim(sha: Sha, s: State, path: seq<State>, last: State, c: Bytes, w: Wallet, start: int)
      returns (path': seq<State>)
    requires IsPath(sha, path, s) && path[|path| - 1] == last
    requires |last.wal| > 0 && last.txs.Keys == {0, 1} && last.txs[1].Prune? && sha(c) !in ChunkLocks(last.txs[1])
    requires last.txs[0] == Save(start, w, [c], None, map[], 0, None, 0, false)
    requires w !in Committed(last).nextSeq
    ensures IsPath(sha, path', s)
    ensures path'[|path'| - 1] == last.(txs := last.txs[0 := Claimed(sha, Committed(last), c, w, start)])
  {
    var s2 := last.(txs := last.txs[0 := Claimed(sha, Committed(last), c, w, start)]);
    var s1 := last.(txs := last.txs[0 := s2.txs[0].(seqNo := 0)]);
    ExtendSave(sha, path, s, last, UpsertChunk(c), s1);
    assert s2.txs == s1.txs[0 := s2.txs[0]];
    ExtendSave(sha, path + [s1], s, s1, ClaimSequence, s2);
    path' := path + [s1] + [s2];
  }

  function Claimed(sha: Sha, db: Db, c: Bytes, w: Wallet, start: int): Tx {
    Save(start, w, [c], None, map[sha(c) := Upsert(db, c, sha(c), start)], 1, None, 0, false)
  }

  /** ... then manifest, junction row and commit. */
  lemma SaveToCommit(sha: Sha, s: State, path: seq<State>, last: State, id: nat)
      returns (path': seq<State>)
    requires IsPath(sha, path, s) && path[|path| - 1] == last
    requires |last.wal| > 0 && 0 in last.txs && last.txs[0].Save? && ManifestIdFree(last, id)
    requires var tx := last.txs[0]; tx.seqNo > 0 && tx.manifest.None? && tx.rows == 0 && |tx.chunks| == 1 && tx.cursor.None?
    ensures IsPath(sha, path', s)
    ensures var tx := last.txs[0].(manifest := Some(id), rows := 1);
      path'[|path'| - 1] == State(last.wal + [SaveCommitted(sha, Committed(last), tx)], last.txs - {0})
  {
    var tx := last.txs[0].(manifest := Some(id));
    var s3 := last.(txs := last.txs[0 := tx]);
    ExtendSave(sha, path, s, last, InsertManifest(id), s3);
    var s4 := last.(txs := last.txs[0 := tx.(rows := 1)]);
    assert s4.txs == s3.txs[0 := s4.txs[0]];
    ExtendSave(sha, path + [s3], s, s3, InsertJunctionRow, s4);
    var s5 := State(last.wal + [SaveCommitted(sha, Committed(last), tx.(rows := 1))], last.txs - {0});
    assert s5.txs == s4.txs - {0};
    ExtendSave(sha, path + [s3] + [s4], s, s4, CommitSave, s5);
    path' := path + [s3] + [s4] + [s5];
  }

  /** From any quiescent state that holds an aged unreferenced chunk, a save that began more than 15
      minutes before a prune can re-use the chunk so that the prune's foreign-key check is false when
      it is reached. `GraceRun` reaches such a state from the empty database. */
  lemma StaleChunkIsReclaimed(sha: Sha, s: State, h: Bytes, w: Wallet, id: nat, saveStart: int, pruneStart: int)
      returns (path: seq<State>)
    requires |s.wal| > 0 && s.txs == map[] && StaleChunk(Committed(s), h, w, pruneStart) && ManifestIdFree(s, id)
    requires sha(Committed(s).chunks[h].data) == h  // as in every reachable state
    requires saveStart < pruneStart - GRACE && w !in Committed(s).nextSeq
    ensures IsPath(sha, path, s)
    ensures var last := path[|path| - 1];
      && |last.wal| > 0 && 1 in last.txs && last.txs[1].Prune? && last.txs[1].phase == Reclaiming
      && last.txs[1].start == pruneStart && !ForeignKeyHolds(Committed(last), last.txs[1])
  {
    var c := Committed(s).chunks[h].data;
    var s1 := s.(txs := s.txs[0 := Save(saveStart, w, [c], None, map[], 0, None, 0, false)]);
    ExtendPath(sha, [s], s, 0, BeginSave(saveStart, w, [c], None), s1);
    var p1, cand := PruneToSnapshot(sha, s, [s] + [s1], s1, h, w, pruneStart);
    var p2 := SaveToClaim(sha, s, p1, p1[|p1| - 1], c, w, saveStart);
    path := OvertakeReclaim(sha, s, p2, p2[|p2| - 1], c, w, saveStart, id);
  }

  /** The save commits its reference, then the prune reclaims the chunk it refers to. */
  lemma OvertakeReclaim(sha: Sha, s: State, path: seq<State>, last: State, c: Bytes, w: Wallet, start: int, id: nat)
      returns (path': seq<State>)
    requires IsPath(sha, path, s) && path[|path| - 1] == last
    requires |last.wal| > 0 && last.txs.Keys == {0, 1} && last.txs[0] == Claimed(sha, Committed(last), c, w, start)
    requires ManifestIdFree(last, id)
    requires last.txs[1].Prune? && last.txs[1].phase == Reclaiming && last.txs[1].doomed == {}
    requires sha(c) in last.txs[1].candidates && start < last.txs[1].start - GRACE
    ensures IsPath(sha, path', s)
    ensures var end := path'[|path'| - 1];
      && |end.wal| > 0 && 1 in end.txs && end.txs[1].Prune? && end.txs[1].phase == Reclaiming
      && end.txs[1].start == last.txs[1].start && !ForeignKeyHolds(Committed(end), end.txs[1])
  {
    var p3 := SaveToCommit(sha, s, path, last, id);
    var end := p3[|p3| - 1];
    assert Slot(id, 0) in Rows(sha, id, [c]);
    path' := ReclaimTooMuch(sha, s, p3, end, sha(c), id);
  }

  lemma ReclaimTooMuch(sha: Sha, s: State, path: seq<State>, last: State, h: Bytes, id: nat) returns (path': seq<State>)
    requires IsPath(sha, path, s) && path[|path| - 1] == last
    requires |last.wal| > 0 && last.txs.Keys == {1} && last.txs[1].Prune? && last.txs[1].phase == Reclaiming
    requires h in last.txs[1].candidates && Aged(Committed(last), last.txs[1], h) && id !in last.txs[1].doomed
    requires Slot(id, 0) in Committed(last).junction && Committed(last).junction[Slot(id, 0)] == h
    ensures IsPath(sha, path', s)
    ensures path'[|path'| - 1].wal == last.wal && 1 in path'[|path'| - 1].txs
    ensures var p := path'[|path'| - 1].txs[1];
      p.Prune? && p.phase == Reclaiming && p.start == last.txs[1].start && !ForeignKeyHolds(Committed(last), p)
  {
    var s' := last.(txs := last.txs[1 := last.txs[1].(reclaimed := last.txs[1].reclaimed + {h})]);
    ExtendPath(sha, path, s, 1, ReclaimChunk(h), s');
    path' := path + [s'];
  }
}
