/**
 * Retention over whole runs: between the statement in which a prune selects its cut and its commit
 * other saves and prunes may commit, and still exactly the right checkpoints go.
 */
module CheckpointRetention {
  import opened Chunking
  import opened CheckpointProtocol
  import opened CheckpointSafety
  import opened CheckpointTheorems

  /** Later saves only append to the log, and a checkpoint that is gone stays gone. */
  ghost predicate Follows(db: Db, db': Db) {
    && db.log <= db'.log
    && forall i :: 0 <= i < |db.log| && db'.log[i].manifest in db'.manifests ==> db.log[i].manifest in db.manifests
  }

  lemma FollowsTransitive(a: Db, b: Db, c: Db)
    requires Follows(a, b) && Follows(b, c)
    ensures Follows(a, c)
  {
    forall i | 0 <= i < |a.log| && c.log[i].manifest in c.manifests ensures a.log[i].manifest in a.manifests {
      assert b.log[i] == a.log[i] && c.log[i] == b.log[i];
    }
  }

  lemma StepFollows(sha: Sha, s: State, t: Tid, step: Step, s': State)
    requires Inv(sha, s) && NextBy(sha, s, t, step, s') && !step.Crash?
    ensures |s'.wal| > 0 && Follows(Committed(s), Committed(s'))
  {
    if step.CommitSave? { CommitSaveFollows(sha, s, t, s'); } else { OtherStepFollows(sha, s, t, step, s'); }
  }

  lemma OtherStepFollows(sha: Sha, s: State, t: Tid, step: Step, s': State)
    requires NextBy(sha, s, t, step, s') && !step.CommitSave? && !step.Crash?
    ensures |s'.wal| > 0 && Follows(Committed(s), Committed(s'))
  {
    if step.CommitPrune? { PruneFollows(Committed(s), s.txs[t]); } else { OtherStepCommitsNothing(sha, s, t, step, s'); }
  }

  lemma OtherStepCommitsNothing(sha: Sha, s: State, t: Tid, step: Step, s': State)
    requires NextBy(sha, s, t, step, s') && !step.CommitSave? && !step.CommitPrune? && !step.Crash?
    ensures s'.wal == s.wal
  {
  }

  lemma CommitSaveFollows(sha: Sha, s: State, t: Tid, s': State)
    requires Inv(sha, s) && NextBy(sha, s, t, CommitSave, s')
    ensures |s'.wal| > 0 && Follows(Committed(s), Committed(s'))
  {
    assert TxSound(sha, Committed(s), s.txs[t]);
    SaveFollows(sha, Committed(s), s.txs[t]);
  }

  lemma SaveFollows(sha: Sha, db: Db, tx: Tx)
    requires tx.Save? && tx.manifest.Some? && SaveSound(sha, db, tx)
    ensures Follows(db, SaveCommitted(sha, db, tx))
  {
    assert forall i :: 0 <= i < |db.log| ==> SaveCommitted(sha, db, tx).log[i] == db.log[i];
  }

  lemma PruneFollows(db: Db, tx: Tx)
    requires tx.Prune?
    ensures Follows(db, PruneCommitted(db, tx))
  {
  }

  /** An open prune past its selection keeps its wallet, its retain count and its cut. */
  ghost predicate SamePrune(s: State, t: Tid, w: Wallet, retain: nat, threshold: nat) {
    && t in s.txs && s.txs[t].Prune? && s.txs[t].phase != Fresh
    && s.txs[t].wallet == w && s.txs[t].retain == retain && s.txs[t].threshold == threshold
  }

  lemma StepKeepsPrune(sha: Sha, s: State, u: Tid, step: Step, s': State, t: Tid, w: Wallet, retain: nat, threshold: nat)
    requires SamePrune(s, t, w, retain, threshold) && NextBy(sha, s, u, step, s') && t in s'.txs
    ensures SamePrune(s', t, w, retain, threshold)
  {
  }

  /** One step while the prune is open: no crash, so the tables follow and the prune is the same. */
  lemma OpenStep(sha: Sha, s: State, s': State, t: Tid, w: Wallet, retain: nat, threshold: nat)
    requires Inv(sha, s) && Next(sha, s, s') && SamePrune(s, t, w, retain, threshold) && t in s'.txs
    ensures SamePrune(s', t, w, retain, threshold) && |s'.wal| > 0 && Follows(Committed(s), Committed(s'))
  {
    var u, step :| NextBy(sha, s, u, step, s');
    StepKeepsPrune(sha, s, u, step, s', t, w, retain, threshold);
    StepFollows(sha, s, u, step, s');
  }

  lemma OpenRunStep(sha: Sha, run: seq<State>, j: nat, t: Tid, w: Wallet, retain: nat, threshold: nat)
    requires IsRun(sha, run) && j < |run| - 1 && SamePrune(run[j], t, w, retain, threshold) && t in run[j + 1].txs
    ensures SamePrune(run[j + 1], t, w, retain, threshold)
    ensures |run[j].wal| > 0 && |run[j + 1].wal| > 0 && Follows(Committed(run[j]), Committed(run[j + 1]))
  {
    RunKeepsInv(sha, run, j);
    assert StepAt(sha, run, j);
    OpenStep(sha, run[j], run[j + 1], t, w, retain, threshold);
  }

  lemma RunCommits(sha: Sha, run: seq<State>, j: nat)
    requires IsRun(sha, run) && j < |run|
    ensures |run[j].wal| > 0
  {
    RunKeepsInv(sha, run, j);
  }

  lemma {:induction false} OpenStretch(sha: Sha, run: seq<State>, a: nat, b: nat, t: Tid, w: Wallet, retain: nat, threshold: nat)
    requires IsRun(sha, run) && a <= b < |run| && SamePrune(run[a], t, w, retain, threshold)
    requires forall j :: a <= j <= b ==> t in run[j].txs
    ensures SamePrune(run[b], t, w, retain, threshold)
    ensures |run[a].wal| > 0 && |run[b].wal| > 0 && Follows(Committed(run[a]), Committed(run[b]))
    decreases b
  {
    RunCommits(sha, run, a);
    if a < b {
      OpenStretch(sha, run, a, b - 1, t, w, retain, threshold);
      OpenRunStep(sha, run, b - 1, t, w, retain, threshold);
      FollowsTransitive(Committed(run[a]), Committed(run[b - 1]), Committed(run[b]));
    }
  }

  /** A number that is stored now and was issued then was stored then. */
  lemma StoredThen(sha: Sha, db: Db, db': Db, w: Wallet, y: nat)
    requires DbSound(sha, db) && DbSound(sha, db') && Follows(db, db') && y in SeqsOf(db', w) && y <= Count(db.log, w)
    ensures y in SeqsOf(db, w)
  {
    var i := LoggedAt(sha, db', w, y);
    SeqInRange(db', i);
    var j := IssuedAt(db, w, y);
    assert db.log[j] == db'.log[j];
    SameIndex(db', i, j);
    LoggedIsListed(sha, db, j);
  }

  lemma IssuedAt(db: Db, w: Wallet, y: nat) returns (j: nat)
    requires SequencesSound(db) && 1 <= y <= Count(db.log, w)
    ensures j < |db.log| && db.log[j].wallet == w && db.log[j].seqNo == y
  {
    assert db.log[..|db.log|] == db.log;
    j := SequenceExists(db, |db.log|, w, y);
  }

  lemma LoggedIsListed(sha: Sha, db: Db, j: nat)
    requires ManifestsSound(sha, db) && j < |db.log| && db.log[j].manifest in db.manifests
    ensures db.log[j].seqNo in SeqsOf(db, db.log[j].wallet)
  {
    assert Stored(sha, db, j);
  }

  lemma SameIndex(db: Db, i: nat, j: nat)
    requires SequencesSound(db) && i < |db.log| && j < |db.log| && db.log[i].wallet == db.log[j].wallet && db.log[i].seqNo == db.log[j].seqNo
    ensures i == j
  {
    if i < j { LaterIsLarger(db, i, j); }
    if j < i { LaterIsLarger(db, j, i); }
  }

  /** Below the cut, of what is stored at the commit, are exactly the numbers that were already
      `retain` or more behind the newest at the selection. */
  lemma CutMeansOld(sha: Sha, db: Db, db': Db, w: Wallet, retain: nat, threshold: nat, y: nat)
    requires DbSound(sha, db) && DbSound(sha, db') && Follows(db, db') && retain >= 1 && NthNewest(db, w, retain, threshold)
    requires y in SeqsOf(db', w)
    ensures y >= threshold <==> y + retain > Count(db.log, w)
  {
    ThresholdKeepsNewest(sha, db, w, retain, threshold);
    if |SeqsOf(db, w)| < retain && y + retain <= Count(db.log, w) {
      StoredThen(sha, db, db', w, y);
      StoredIsSuffix(sha, db, w, y);
      AllNewerCount(SeqsOf(db, w), y, Count(db.log, w));
    }
  }

  lemma AllNewerCount(seqs: set<nat>, y: nat, n: nat)
    requires y <= n && y in seqs && forall x: nat :: y <= x ==> (x in seqs <==> x <= n)
    ensures |seqs| >= n + 1 - y
  {
    var newer := AtLeast(seqs, y);
    IntervalSize(y, n, newer);
    SubsetSize(newer, seqs);
  }

  lemma SubsetSize(a: set<nat>, b: set<nat>)
    requires a <= b
    ensures |a| <= |b|
  {
    assert b == a + (b - a);
  }

  /**
   * A committed prune removes exactly the wallet's checkpoints that were `retain` or more numbers
   * behind the newest one when its cut was selected, whatever committed in between, and nothing of
   * any other wallet.
   */
  lemma CommittedPruneKeepsNewest(sha: Sha, run: seq<State>, a: nat, b: nat, t: Tid, threshold: nat, y: nat)
    requires IsRun(sha, run) && a < b < |run| - 1
    requires |run[a].wal| > 0 && t in run[a].txs && run[a].txs[t].Prune? && PruneStep(run[a], t, SelectThreshold(threshold), run[a + 1])
    requires forall j :: a < j <= b ==> t in run[j].txs
    requires |run[b].wal| > 0 && run[b].txs[t].Prune? && PruneStep(run[b], t, CommitPrune, run[b + 1])
    ensures |run[b + 1].wal| > 0
    ensures var w, retain := run[a].txs[t].wallet, run[a].txs[t].retain;
      y in SeqsOf(Committed(run[b + 1]), w) <==>
        y in SeqsOf(Committed(run[b]), w) && y + retain > Count(Committed(run[a]).log, w)
    ensures forall v :: v != run[a].txs[t].wallet ==> SeqsOf(Committed(run[b + 1]), v) == SeqsOf(Committed(run[b]), v)
  {
    var p := run[a].txs[t];
    RetainIsPositive(sha, run, a);
    var db, db' := Committed(run[a]), Committed(run[b]);
    assert Committed(run[a + 1]) == db && SamePrune(run[a + 1], t, p.wallet, p.retain, threshold);
    OpenStretch(sha, run, a + 1, b, t, p.wallet, p.retain, threshold);
    PruneRemovesExactlyOld(sha, run, b, t);
    assert Committed(run[b + 1]) == PruneCommitted(db', run[b].txs[t]);
    if y in SeqsOf(db', p.wallet) {
      CommittedIsSound(sha, run, a);
      CommittedIsSound(sha, run, b);
      CutMeansOld(sha, db, db', p.wallet, p.retain, threshold, y);
    }
  }

  lemma CommittedIsSound(sha: Sha, run: seq<State>, j: nat)
    requires IsRun(sha, run) && j < |run|
    ensures |run[j].wal| > 0 && DbSound(sha, Committed(run[j]))
  {
    RunKeepsInv(sha, run, j);
  }

  ghost predicate RetainsPositive(s: State) { forall t :: t in s.txs && s.txs[t].Prune? ==> s.txs[t].retain >= 1 }

  lemma StepKeepsRetains(sha: Sha, s: State, s': State)
    requires RetainsPositive(s) && Next(sha, s, s')
    ensures RetainsPositive(s')
  {
    var t, step :| NextBy(sha, s, t, step, s');
  }

  lemma {:induction false} RetainIsPositive(sha: Sha, run: seq<State>, i: nat)
    requires IsRun(sha, run) && i < |run|
    ensures RetainsPositive(run[i])
  {
    if i > 0 {
      RetainIsPositive(sha, run, i - 1);
      assert StepAt(sha, run, i - 1);
      StepKeepsRetains(sha, run[i - 1], run[i]);
    }
  }
}
