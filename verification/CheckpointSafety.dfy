/** Every step of the checkpoint protocol keeps `Inv`, and what follows for every run. */
module CheckpointSafety {
  import opened Chunking
  import opened CheckpointProtocol

  // ----- bookkeeping steps ----------------------------------------------------------------------

  lemma WorkKeepsInv(sha: Sha, s: State, t: Tid, tx: Tx, s': State)
    requires Inv(sha, s) && Works(s, s', t, tx)
    requires TxSound(sha, Committed(s), tx)
    requires ApartFromOthers(s.txs, t, tx)
    ensures Inv(sha, s')
  {
  }

  ghost predicate ApartFromOthers(txs: map<Tid, Tx>, t: Tid, tx: Tx) {
    forall u :: u in txs && u != t ==> Apart(tx, txs[u]) && Apart(txs[u], tx)
  }

  lemma SaveWork(sha: Sha, s: State, t: Tid, step: Step, s': State)
    requires Inv(sha, s) && t in s.txs && s.txs[t].Save? && SaveStep(sha, s, t, step, s') && !step.CommitSave?
    ensures Inv(sha, s')
  {
    assert TxSound(sha, Committed(s), s.txs[t]);
    assert ApartFromOthers(s.txs, t, s.txs[t]);
    if step.ClaimSequence? { assert SequencesSound(Committed(s)) by { assert DbSound(sha, Committed(s)); } }
    WorkKeepsInv(sha, s, t, s'.txs[t], s');
  }

  lemma PruneWork(sha: Sha, s: State, t: Tid, step: Step, s': State)
    requires Inv(sha, s) && t in s.txs && s.txs[t].Prune? && PruneStep(s, t, step, s') && !step.CommitPrune?
    ensures Inv(sha, s')
  {
    var db, tx, tx' := Committed(s), s.txs[t], s'.txs[t];
    assert TxSound(sha, db, tx);
    assert ApartFromOthers(s.txs, t, tx);
    if step.SelectThreshold? {
      assert DbSound(sha, db);
      ThresholdIsCommitted(sha, db, tx.wallet, tx.retain, step.threshold);
    }
    PruneWorkApart(s, t, step, s');
    PruneWorkSound(db, s, t, step, s');
    WorkKeepsInv(sha, s, t, tx', s');
  }

  lemma PruneWorkApart(s: State, t: Tid, step: Step, s': State)
    requires |s.wal| > 0 && t in s.txs && s.txs[t].Prune? && PruneStep(s, t, step, s') && !step.CommitPrune?
    requires ApartFromOthers(s.txs, t, s.txs[t])
    ensures ApartFromOthers(s.txs, t, s'.txs[t])
  {
  }

  lemma PruneWorkSound(db: Db, s: State, t: Tid, step: Step, s': State)
    requires |s.wal| > 0 && db == Committed(s)
    requires t in s.txs && s.txs[t].Prune? && PruneStep(s, t, step, s') && !step.CommitPrune?
    requires PruneSound(db, s.txs[t])
    requires step.SelectThreshold? ==> step.threshold <= Count(db.log, s.txs[t].wallet)
    ensures s'.txs[t].Prune? && PruneSound(db, s'.txs[t])
  {
  }

  // ----- counting -------------------------------------------------------------------------------

  lemma CountAppend(log: seq<Saved>, e: Saved, w: Wallet)
    ensures Count(log + [e], w) == Count(log, w) + if e.wallet == w then 1 else 0
  {
    assert (log + [e])[..|log|] == log;
  }

  lemma {:induction false} CountMonotone(log: seq<Saved>, i: nat, w: Wallet)
    requires i <= |log|
    ensures Count(log[..i], w) <= Count(log, w)
    decreases |log|
  {
    if i == |log| {
      assert log[..i] == log;
    } else {
      var shorter := log[..|log| - 1];
      assert shorter[..i] == log[..i];
      CountMonotone(shorter, i, w);
    }
  }

  /** A wallet's sequence numbers lie in 1..n. */
  lemma SeqInRange(db: Db, i: nat)
    requires SequencesSound(db) && i < |db.log|
    ensures 1 <= db.log[i].seqNo <= Count(db.log, db.log[i].wallet)
  {
    var e := db.log[i];
    CountAppend(db.log[..i], e, e.wallet);
    assert db.log[..i] + [e] == db.log[..i + 1];
    CountMonotone(db.log, i + 1, e.wallet);
  }

  lemma ThresholdIsCommitted(sha: Sha, db: Db, w: Wallet, retain: nat, threshold: nat)
    requires DbSound(sha, db) && NthNewest(db, w, retain, threshold)
    ensures threshold <= Count(db.log, w)
  {
    if |SeqsOf(db, w)| >= retain {
      var id :| id in db.manifests && db.manifests[id].wallet == w && db.manifests[id].seqNo == threshold;
      var i :| 0 <= i < |db.log| && db.log[i].manifest == id;
      assert Stored(sha, db, i);
      SeqInRange(db, i);
    }
  }

  // ----- a save commits -------------------------------------------------------------------------

  ghost predicate ReadyToCommit(sha: Sha, db: Db, tx: Tx) {
    && tx.Save? && tx.manifest.Some? && DbSound(sha, db) && SaveSound(sha, db, tx)
  }

  lemma SavedChunksSound(sha: Sha, db: Db, tx: Tx)
    requires ReadyToCommit(sha, db, tx)
    ensures ChunksSound(sha, SaveCommitted(sha, db, tx))
  {
  }

  lemma SavedManifestsSound(sha: Sha, db: Db, tx: Tx)
    requires ReadyToCommit(sha, db, tx)
    ensures ManifestsSound(sha, SaveCommitted(sha, db, tx))
  {
    var db' := SaveCommitted(sha, db, tx);
    forall i | 0 <= i < |db'.log| && db'.log[i].manifest in db'.manifests ensures Stored(sha, db', i) {
      if i < |db.log| { OldSaveStored(sha, db, tx, i); } else { NewSaveStored(sha, db, tx); }
    }
    SavedManifestsLogged(sha, db, tx);
  }

  lemma SavedManifestsLogged(sha: Sha, db: Db, tx: Tx)
    requires tx.Save? && tx.manifest.Some? && ManifestsSound(sha, db)
    requires forall i :: 0 <= i < |db.log| ==> db.log[i].manifest != tx.manifest.value
    ensures var db' := SaveCommitted(sha, db, tx);
      && (forall id :: id in db'.manifests ==> exists i :: 0 <= i < |db'.log| && db'.log[i].manifest == id)
      && (forall i, j :: 0 <= i < j < |db'.log| ==> db'.log[i].manifest != db'.log[j].manifest)
  {
    var db' := SaveCommitted(sha, db, tx);
    assert forall i :: 0 <= i < |db.log| ==> db'.log[i] == db.log[i];
    forall id | id in db'.manifests ensures exists i :: 0 <= i < |db'.log| && db'.log[i].manifest == id {
      if id == tx.manifest.value {
        assert db'.log[|db.log|].manifest == id;
      } else {
        var i :| 0 <= i < |db.log| && db.log[i].manifest == id;
        assert db'.log[i].manifest == id;
      }
    }
  }

  lemma OldSaveStored(sha: Sha, db: Db, tx: Tx, i: nat)
    requires ReadyToCommit(sha, db, tx) && i < |db.log|
    requires db.log[i].manifest in SaveCommitted(sha, db, tx).manifests
    ensures Stored(sha, SaveCommitted(sha, db, tx), i)
  {
    assert Stored(sha, db, i);
    assert SaveCommitted(sha, db, tx).log[i] == db.log[i];
  }

  lemma NewSaveStored(sha: Sha, db: Db, tx: Tx)
    requires ReadyToCommit(sha, db, tx)
    ensures Stored(sha, SaveCommitted(sha, db, tx), |db.log|)
  {
    NewManifestIsNew(sha, db, tx);
    assert forall p: nat :: Slot(tx.manifest.value, p) !in db.junction;
  }

  lemma SavedSequencesSound(sha: Sha, db: Db, tx: Tx)
    requires tx.Save? && tx.manifest.Some? && SequencesSound(db) && tx.seqNo == Count(db.log, tx.wallet) + 1
    ensures SequencesSound(SaveCommitted(sha, db, tx))
  {
    var db' := SaveCommitted(sha, db, tx);
    var e := db'.log[|db.log|];
    forall w ensures Count(db'.log, w) == Count(db.log, w) + if tx.wallet == w then 1 else 0 {
      CountAppend(db.log, e, w);
    }
    assert db'.log[..|db.log|] == db.log;
    forall i | 0 <= i < |db'.log| ensures db'.log[i].seqNo == Count(db'.log[..i], db'.log[i].wallet) + 1 {
      if i < |db.log| { EarlierNumbersStay(db, db', i); }
    }
  }

  lemma EarlierNumbersStay(db: Db, db': Db, i: nat)
    requires SequencesSound(db) && i < |db.log| && db.log <= db'.log
    ensures db'.log[i].seqNo == Count(db'.log[..i], db'.log[i].wallet) + 1
  {
    assert db'.log[..i] == db.log[..i] && db'.log[i] == db.log[i];
  }

  lemma SavedRetentionSound(sha: Sha, db: Db, tx: Tx)
    requires tx.Save? && tx.manifest.Some? && SequencesSound(db) && RetentionSound(db) && tx.seqNo == Count(db.log, tx.wallet) + 1
    requires forall i :: 0 <= i < |db.log| ==> db.log[i].manifest != tx.manifest.value
    ensures RetentionSound(SaveCommitted(sha, db, tx))
  {
    var db' := SaveCommitted(sha, db, tx);
    var n := |db.log|;
    CountAppend(db.log, db'.log[n], tx.wallet);
    forall i | 0 <= i < n ensures 1 <= db.log[i].seqNo <= Count(db.log, db.log[i].wallet)
    {
      SeqInRange(db, i);
    }
    forall i | 0 <= i < |db'.log| && db'.log[i].seqNo == Count(db'.log, db'.log[i].wallet)
      ensures db'.log[i].manifest in db'.manifests
    {
      if i < n { CountAppend(db.log, db'.log[n], db.log[i].wallet); }
    }
  }

  lemma SaveCommitKeepsOthers(sha: Sha, db: Db, tx: Tx, other: Tx)
    requires ReadyToCommit(sha, db, tx) && TxSound(sha, db, other) && Apart(tx, other)
    ensures TxSound(sha, SaveCommitted(sha, db, tx), other)
  {
    var db' := SaveCommitted(sha, db, tx);
    CountAppend(db.log, db'.log[|db.log|], other.wallet);
    if other.Prune? {
      SaveCommitKeepsPrune(sha, db, tx, other);
    }
  }

  lemma SaveCommitKeepsPrune(sha: Sha, db: Db, tx: Tx, p: Tx)
    requires ReadyToCommit(sha, db, tx) && p.Prune? && PruneSound(db, p) && Apart(tx, p)
    ensures PruneSound(SaveCommitted(sha, db, tx), p)
  {
    var db' := SaveCommitted(sha, db, tx);
    CountAppend(db.log, db'.log[|db.log|], p.wallet);
    NewManifestIsNew(sha, db, tx);
    ExpiredUnchanged(sha, db, tx, p);
    if p.phase == Checked { ReferencesUnchanged(sha, db, tx, p); }
  }

  lemma ExpiredUnchanged(sha: Sha, db: Db, tx: Tx, p: Tx)
    requires tx.Save? && tx.manifest.Some? && p.Prune? && tx.manifest.value !in db.manifests
    requires tx.seqNo == Count(db.log, tx.wallet) + 1 && p.threshold <= Count(db.log, p.wallet)
    ensures forall id :: Expired(SaveCommitted(sha, db, tx), p, id) <==> Expired(db, p, id)
  {
  }

  lemma ReferencesUnchanged(sha: Sha, db: Db, tx: Tx, p: Tx)
    requires tx.Save? && tx.manifest.Some? && p.Prune? && SaveSound(sha, db, tx) && ForeignKeyHolds(db, p) && tx.upserted.Keys !! p.reclaimed
    ensures ForeignKeyHolds(SaveCommitted(sha, db, tx), p)
  {
    var db' := SaveCommitted(sha, db, tx);
    forall slot | slot in db'.junction && slot.manifest !in p.doomed ensures db'.junction[slot] !in p.reclaimed {
      if slot in Rows(sha, tx.manifest.value, tx.chunks) {
        assert db'.junction[slot] == sha(tx.chunks[slot.position]) && tx.chunks[slot.position] in tx.chunks;
        assert sha(tx.chunks[slot.position]) in tx.upserted;
      }
    }
  }

  lemma NewManifestIsNew(sha: Sha, db: Db, tx: Tx)
    requires ReadyToCommit(sha, db, tx)
    ensures tx.manifest.value !in db.manifests
  {
  }

  // ----- a prune commits ------------------------------------------------------------------------

  ghost predicate ReadyToPrune(sha: Sha, db: Db, tx: Tx) {
    tx.Prune? && tx.phase == Checked && DbSound(sha, db) && PruneSound(db, tx)
  }

  lemma PrunedDbSound(sha: Sha, db: Db, tx: Tx)
    requires ReadyToPrune(sha, db, tx)
    ensures DbSound(sha, PruneCommitted(db, tx))
  {
    PrunedManifestsSound(sha, db, tx);
    PrunedRetentionSound(sha, db, tx);
    PrunedSequencesSound(db, tx);
    PrunedChunksSound(sha, db, tx);
  }

  lemma PrunedSequencesSound(db: Db, tx: Tx)
    requires tx.Prune? && SequencesSound(db)
    ensures SequencesSound(PruneCommitted(db, tx))
  {
    assert PruneCommitted(db, tx).log == db.log && PruneCommitted(db, tx).nextSeq == db.nextSeq;
  }

  lemma PrunedChunksSound(sha: Sha, db: Db, tx: Tx)
    requires tx.Prune? && ChunksSound(sha, db) && ForeignKeyHolds(db, tx)
    ensures ChunksSound(sha, PruneCommitted(db, tx))
  {
  }

  lemma PrunedManifestsSound(sha: Sha, db: Db, tx: Tx)
    requires tx.Prune? && ManifestsSound(sha, db)
    ensures ManifestsSound(sha, PruneCommitted(db, tx))
  {
    var db' := PruneCommitted(db, tx);
    forall i | 0 <= i < |db'.log| && db'.log[i].manifest in db'.manifests ensures Stored(sha, db', i) {
      assert Stored(sha, db, i);
    }
  }

  lemma PrunedRetentionSound(sha: Sha, db: Db, tx: Tx)
    requires ReadyToPrune(sha, db, tx)
    ensures RetentionSound(PruneCommitted(db, tx))
  {
    var db' := PruneCommitted(db, tx);
    forall i | 0 <= i < |db.log| && db.log[i].manifest in db.manifests
      ensures db.log[i].manifest in tx.doomed <==> db.log[i].wallet == tx.wallet && db.log[i].seqNo < tx.threshold
    {
      assert Stored(sha, db, i);
      assert Expired(db, tx, db.log[i].manifest) <==> db.log[i].wallet == tx.wallet && db.log[i].seqNo < tx.threshold;
    }
  }

  lemma PruneCommitKeepsOthers(sha: Sha, db: Db, tx: Tx, other: Tx)
    requires ReadyToPrune(sha, db, tx) && TxSound(sha, db, other) && Apart(tx, other)
    ensures TxSound(sha, PruneCommitted(db, tx), other)
  {
  }

  // ----- every step -----------------------------------------------------------------------------

  lemma EndKeepsInv(sha: Sha, s: State, t: Tid, db: Db, s': State)
    requires Inv(sha, s) && Ends(s, s', t, db) && DbSound(sha, db)
    requires forall u :: u in s.txs && u != t ==> TxSound(sha, db, s.txs[u])
    ensures Inv(sha, s')
  {
    assert Committed(s') == db;
    assert forall k :: 0 <= k < |s.wal| ==> s'.wal[k] == s.wal[k];
  }

  lemma SaveCommitKeepsInv(sha: Sha, s: State, t: Tid, s': State)
    requires Inv(sha, s) && t in s.txs && s.txs[t].Save? && SaveStep(sha, s, t, CommitSave, s')
    ensures Inv(sha, s')
  {
    var db, tx := Committed(s), s.txs[t];
    assert DbSound(sha, db) && TxSound(sha, db, tx);
    SavedChunksSound(sha, db, tx);
    SavedManifestsSound(sha, db, tx);
    SavedSequencesSound(sha, db, tx);
    SavedRetentionSound(sha, db, tx);
    forall u | u in s.txs && u != t ensures TxSound(sha, SaveCommitted(sha, db, tx), s.txs[u]) {
      assert TxSound(sha, db, s.txs[u]) && Apart(tx, s.txs[u]);
      SaveCommitKeepsOthers(sha, db, tx, s.txs[u]);
    }
    EndKeepsInv(sha, s, t, SaveCommitted(sha, db, tx), s');
  }

  lemma PruneCommitKeepsInv(sha: Sha, s: State, t: Tid, s': State)
    requires Inv(sha, s) && t in s.txs && s.txs[t].Prune? && PruneStep(s, t, CommitPrune, s')
    ensures Inv(sha, s')
  {
    var db, tx := Committed(s), s.txs[t];
    assert DbSound(sha, db) && TxSound(sha, db, tx);
    PrunedDbSound(sha, db, tx);
    forall u | u in s.txs && u != t ensures TxSound(sha, PruneCommitted(db, tx), s.txs[u]) {
      assert TxSound(sha, db, s.txs[u]) && Apart(tx, s.txs[u]);
      PruneCommitKeepsOthers(sha, db, tx, s.txs[u]);
    }
    EndKeepsInv(sha, s, t, PruneCommitted(db, tx), s');
  }

  /** Begin, statement, commit, abort and crash all keep the invariant. */
  lemma StepKeepsInv(sha: Sha, s: State, t: Tid, step: Step, s': State)
    requires Inv(sha, s) && NextBy(sha, s, t, step, s')
    ensures Inv(sha, s')
  {
    if step.BeginSave? || step.BeginPrune? || step.Abort? || step.Crash? {
      OutsideStepKeepsInv(sha, s, t, step, s');
    } else if s.txs[t].Save? {
      if step.CommitSave? { SaveCommitKeepsInv(sha, s, t, s'); } else { SaveWork(sha, s, t, step, s'); }
    } else {
      if step.CommitPrune? { PruneCommitKeepsInv(sha, s, t, s'); } else { PruneWork(sha, s, t, step, s'); }
    }
  }

  lemma OutsideStepKeepsInv(sha: Sha, s: State, t: Tid, step: Step, s': State)
    requires Inv(sha, s) && NextBy(sha, s, t, step, s')
    requires step.BeginSave? || step.BeginPrune? || step.Abort? || step.Crash?
    ensures Inv(sha, s')
  {
    match step
    case BeginSave(_, _, _, _) => BeginKeepsInv(sha, s, t, s'.txs[t], s');
    case BeginPrune(_, _, _) => BeginKeepsInv(sha, s, t, s'.txs[t], s');
    case Abort => AbortKeepsInv(sha, s, t, s');
    case Crash(keep) => CrashKeepsInv(sha, s, keep, s');
  }

  lemma AbortKeepsInv(sha: Sha, s: State, t: Tid, s': State)
    requires Inv(sha, s) && s' == s.(txs := s.txs - {t})
    ensures Inv(sha, s')
  {
  }

  lemma CrashKeepsInv(sha: Sha, s: State, keep: nat, s': State)
    requires Inv(sha, s) && 0 < keep <= |s.wal| && s' == State(s.wal[..keep], map[])
    ensures Inv(sha, s')
  {
    assert forall k :: 0 <= k < |s'.wal| ==> s'.wal[k] == s.wal[k];
    assert WalSound(sha, s'.wal);
  }

  lemma BeginKeepsInv(sha: Sha, s: State, t: Tid, tx: Tx, s': State)
    requires Inv(sha, s) && Begins(s, s', t, tx)
    requires
      || (exists start, w, payload, cursor :: tx == Save(start, w, payload, cursor, map[], 0, None, 0, false))
      || (exists start, w, retain :: tx == Prune(start, w, retain, Fresh, 0, {}, {}, {}))
    ensures Inv(sha, s')
  {
    assert TxSound(sha, Committed(s), tx);
    assert ApartFromOthers(s.txs, t, tx);
    WorkKeepsInv(sha, s, t, tx, s');
  }

  lemma InitialInv(sha: Sha)
    ensures Inv(sha, State([EMPTY], map[]))
  {
    assert Count([], "") == 0;
    assert DbSound(sha, EMPTY);
  }

  lemma NextKeepsInv(sha: Sha, s: State, s': State)
    requires Inv(sha, s) && Next(sha, s, s')
    ensures Inv(sha, s')
  {
    var t, step :| NextBy(sha, s, t, step, s');
    StepKeepsInv(sha, s, t, step, s');
  }

  lemma StepAtKeepsInv(sha: Sha, run: seq<State>, i: nat)
    requires i < |run| - 1 && StepAt(sha, run, i) && Inv(sha, run[i])
    ensures Inv(sha, run[i + 1])
  {
    NextKeepsInv(sha, run[i], run[i + 1]);
  }

  lemma {:induction false} RunKeepsInv(sha: Sha, run: seq<State>, i: nat)
    requires IsRun(sha, run) && i < |run|
    ensures Inv(sha, run[i])
  {
    if i > 0 {
      RunKeepsInv(sha, run, i - 1);
      StepAtKeepsInv(sha, run, i - 1);
    } else {
      assert run[0] == State([EMPTY], map[]);
      InitialInv(sha);
    }
  }
}
