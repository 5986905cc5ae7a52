/**
 * The D-parameter observations: stored only where the value looks new to the instance.
 *
 * With one live instance that runs one `syncOnce` at a time the compression is lossless. Neither
 * half of that can be dropped (`ChainSyncRuns`), and re-ingesting a stored height is a no-op only
 * under a condition.
 */
module ChainSyncObservations {
  import opened Chunking
  import opened ChainSync
  import opened ChainSyncSafety

  predicate ObsIn(c: Chain, rows: Rows, h: nat) { ObsKey(h, HashAt(c, h), 0) in rows }

  /** The height of the latest stored observation at or below h. */
  function LatestObs(c: Chain, rows: Rows, h: nat): Option<nat> {
    if ObsIn(c, rows, h) then Some(h) else if h == 0 then None else LatestObs(c, rows, h - 1)
  }

  // ----- one live call at a time ----------------------------------------------------------------

  ghost predicate OneCall(s: State) { forall c, d :: c in s.calls && d in s.calls ==> c == d }

  ghost predicate OneInstance(s: State) { forall i, j :: i in s.last && j in s.last ==> i == j }

  /** One live instance, running one `syncOnce` at a time. */
  ghost predicate Solo(s: State) { OneCall(s) && OneInstance(s) }

  predicate Repeats(c: Chain, h: nat) { h > 0 && DParamAt(c, h) == DParamAt(c, h - 1) }

  /** A stored block has its own observation, or the D-parameter of the block before it. */
  ghost predicate ObservedOrRepeated(c: Chain, rows: Rows) {
    forall h: nat :: BlockKey(h, HashAt(c, h)) in rows ==> ObsIn(c, rows, h) || Repeats(c, h)
  }

  /** What an instance remembers before it ingests h: nothing, the value at h - 1, or the value at h
      when that is stored already (an earlier attempt failed to move the watermark). */
  predicate Remembers(c: Chain, rows: Rows, last: Option<Bytes>, h: nat) {
    || last.None? || (h > 0 && last.value == DParamAt(c, h - 1))
    || (last.value == DParamAt(c, h) && ObsIn(c, rows, h))
  }

  ghost predicate SoloCall(c: Chain, rows: Rows, start: nat, last: Option<Bytes>, pc: Pc) {
    match pc
    case Loop(n, _) => n == start
    case Writing(h, _, obs, _) => h == start && obs == (last != Some(DParamAt(c, h)))
    case Committed(h, _, obs) => h == start && obs == (last != Some(DParamAt(c, h))) && (obs ==> ObsIn(c, rows, h))
    case Marking(h, _) => h == start && last == Some(DParamAt(c, h))
  }

  ghost predicate InstancesOk(c: Chain, rows: Rows, mark: Option<nat>, last: map<nat, Option<Bytes>>) {
    forall i :: i in last ==> Remembers(c, rows, last[i], StartHeight(mark))
  }

  ghost predicate SoloCalls(chain: Chain, s: State) {
    forall c :: c in s.calls && s.calls[c].instance in s.last ==>
      SoloCall(chain, s.rows, StartHeight(s.mark), s.last[s.calls[c].instance], s.calls[c].pc)
  }

  ghost predicate SoloInv(chain: Chain, s: State) {
    && ObservedOrRepeated(chain, s.rows) && InstancesOk(chain, s.rows, s.mark, s.last) && SoloCalls(chain, s)
    && forall c :: c in s.calls ==> s.calls[c].instance in s.last
  }

  lemma ObservationIsInBundle(c: Chain, h: nat)
    ensures |Bundle(c, h, true)| > 0 && Bundle(c, h, true)[|Bundle(c, h, true)| - 1].key == ObsKey(h, HashAt(c, h), 0)
  {
  }

  lemma SoloCommit(chain: Chain, s: State, s': State, c: nat)
    requires Inv(chain, s) && SoloInv(chain, s) && NextBy(chain, s, Commit(c), s') && Solo(s)
    ensures SoloInv(chain, s')
  {
    var call := s.calls[c];
    var h := call.pc.height;
    assert CallOk(chain, s.rows, call);
    assert SoloCall(chain, s.rows, StartHeight(s.mark), s.last[call.instance], call.pc);
    if call.pc.obs {
      ObservationIsInBundle(chain, h);
      var puts := Bundle(chain, h, true);
      assert puts[..|puts|][|puts| - 1] == puts[|puts| - 1];
      assert ObsIn(chain, s'.rows, h);
    }
    assert Remembers(chain, s.rows, s.last[call.instance], h);
    forall g: nat | BlockKey(g, HashAt(chain, g)) in s'.rows ensures ObsIn(chain, s'.rows, g) || Repeats(chain, g) {
      if BlockKey(g, HashAt(chain, g)) in s.rows { assert ObsIn(chain, s.rows, g) || Repeats(chain, g); }
    }
    forall i | i in s'.last ensures Remembers(chain, s'.rows, s'.last[i], StartHeight(s'.mark)) {
      assert Remembers(chain, s.rows, s.last[i], StartHeight(s.mark));
    }
  }

  lemma SoloAckOrMark(chain: Chain, s: State, s': State, step: Step)
    requires SoloInv(chain, s) && NextBy(chain, s, step, s') && Solo(s) && (step.Ack? || step.Mark?)
    ensures SoloInv(chain, s')
  {
    var call := s.calls[step.c];
    assert SoloCall(chain, s.rows, StartHeight(s.mark), s.last[call.instance], call.pc);
    assert forall i :: i in s'.last ==> i == call.instance;
  }

  lemma SoloOther(chain: Chain, s: State, s': State, step: Step)
    requires SoloInv(chain, s) && NextBy(chain, s, step, s') && !step.Commit? && !step.Ack? && !step.Mark?
    ensures SoloInv(chain, s')
  {
    assert s'.rows == s.rows && s'.mark == s.mark;
    forall c | c in s'.calls && s'.calls[c].instance in s'.last
      ensures SoloCall(chain, s'.rows, StartHeight(s'.mark), s'.last[s'.calls[c].instance], s'.calls[c].pc)
    {
      if c in s.calls && s.calls[c].instance in s.last {
        assert SoloCall(chain, s.rows, StartHeight(s.mark), s.last[s.calls[c].instance], s.calls[c].pc);
      }
    }
  }

  lemma SoloNext(chain: Chain, s: State, s': State)
    requires Inv(chain, s) && SoloInv(chain, s) && Next(chain, s, s') && Solo(s)
    ensures SoloInv(chain, s')
  {
    var step :| NextBy(chain, s, step, s');
    if step.Commit? { SoloCommit(chain, s, s', step.c); }
    else if step.Ack? || step.Mark? { SoloAckOrMark(chain, s, s', step); }
    else { SoloOther(chain, s, s', step); }
  }

  ghost predicate SoloRun(run: seq<State>) { forall i :: 0 <= i < |run| ==> Solo(run[i]) }

  lemma {:induction false} SoloRunKeepsInv(chain: Chain, run: seq<State>, i: nat)
    requires DistinctHashes(chain) && IsRun(chain, run) && SoloRun(run) && i < |run|
    ensures SoloInv(chain, run[i])
  {
    if i > 0 {
      SoloRunKeepsInv(chain, run, i - 1);
      RunKeepsInv(chain, run, i - 1);
      assert StepAt(chain, run, i - 1);
      SoloNext(chain, run[i - 1], run[i]);
    }
  }

  lemma {:induction false} LatestHasTheValue(c: Chain, rows: Rows, h: nat)
    requires ObservedOrRepeated(c, rows) && Below(c, rows, h + 1)
    ensures LatestObs(c, rows, h).Some? && LatestObs(c, rows, h).value <= h
    ensures ObsIn(c, rows, LatestObs(c, rows, h).value) && DParamAt(c, LatestObs(c, rows, h).value) == DParamAt(c, h)
  {
    assert Archived(c, rows, h) && Core(c, h)[2].key in rows;
    if !ObsIn(c, rows, h) { LatestHasTheValue(c, rows, h - 1); }
  }

  /** With one live instance and one call at a time, whatever fails and restarts, the D-parameter of
      every synced height is what the latest stored observation at or below it says. */
  lemma CompressionIsLossless(chain: Chain, run: seq<State>, i: nat, h: nat)
    requires DistinctHashes(chain) && IsRun(chain, run) && SoloRun(run) && i < |run|
    requires run[i].mark.Some? && h <= run[i].mark.value
    ensures var rows := run[i].rows;
      && LatestObs(chain, rows, h).Some? && LatestObs(chain, rows, h).value <= h
      && var key := ObsKey(LatestObs(chain, rows, h).value, HashAt(chain, LatestObs(chain, rows, h).value), 0);
         && key in rows && rows[key] == ObsVal("system_parameters_d", chain.sha(chain.indexer(h).dParameter))
         && BlobHolds(chain, rows, chain.indexer(h).dParameter)
  {
    var rows := run[i].rows;
    RunKeepsInv(chain, run, i);
    SoloRunKeepsInv(chain, run, i);
    LatestHasTheValue(chain, rows, h);
    var g := LatestObs(chain, rows, h).value;
    var key := ObsKey(g, HashAt(chain, g), 0);
    assert Right(chain, key, rows[key]) && BlobsIn(rows, rows[key]);
    var blob := BlobKey(chain.sha(DParamAt(chain, h)));
    assert rows[key].rawBlob in References(rows[key]) && Right(chain, blob, rows[blob]);
  }

  // ----- ingesting a stored height again --------------------------------------------------------

  predicate LooksNew(c: Chain, last: Option<Bytes>, h: nat) { last != Some(DParamAt(c, h)) }

  /** One bundle by itself, as an instance remembering `last` writes it. */
  function Ingest(c: Chain, rows: Rows, last: Option<Bytes>, h: nat): Rows {
    InsertAll(rows, Bundle(c, h, LooksNew(c, last, h)))
  }

  lemma {:induction false} InsertAllKeeps(rows: Rows, puts: seq<Put>)
    requires Has(rows, puts)
    ensures InsertAll(rows, puts) == rows
    decreases |puts|
  {
    if puts != [] {
      var front := puts[..|puts| - 1];
      assert forall i :: 0 <= i < |front| ==> front[i] == puts[i];
      InsertAllKeeps(rows, front);
    }
  }

  lemma {:induction false} InsertAllGrows(rows: Rows, puts: seq<Put>)
    ensures Extends(rows, InsertAll(rows, puts))
    decreases |puts|
  {
    if puts != [] { InsertAllGrows(rows, puts[..|puts| - 1]); }
  }

  predicate NoPutOf(puts: seq<Put>, k: RowKey) {
    forall i :: 0 <= i < |puts| ==> puts[i].key != k && puts[i].also != Some(k)
  }

  lemma {:induction false} InsertAllFrame(rows: Rows, puts: seq<Put>, k: RowKey)
    requires NoPutOf(puts, k)
    ensures k in InsertAll(rows, puts) <==> k in rows
    decreases |puts|
  {
    if puts != [] { InsertAllFrame(rows, puts[..|puts| - 1], k); }
  }

  lemma {:induction false} TxPutsNoObs(c: Chain, h: nat, n: nat, k: RowKey)
    requires n <= |TxsAt(c, h)| && k.ObsKey?
    ensures NoPutOf(TxPuts(c, h, n), k)
  {
    if n > 0 { TxPutsNoObs(c, h, n - 1, k); }
  }

  /** A bundle adds the observation of its own height, if it looks new, and no other. */
  lemma IngestObserves(c: Chain, rows: Rows, last: Option<Bytes>, h: nat, g: nat)
    ensures ObsIn(c, Ingest(c, rows, last, h), g) <==> ObsIn(c, rows, g) || (g == h && LooksNew(c, last, h))
  {
    var puts, k := Bundle(c, h, LooksNew(c, last, h)), ObsKey(g, HashAt(c, g), 0);
    TxPutsNoObs(c, h, |TxsAt(c, h)|, k);
    if g == h && LooksNew(c, last, h) {
      ObservationIsInBundle(c, h);
    } else {
      InsertAllFrame(rows, puts, k);
    }
  }

  /** Ingesting a stored height again changes nothing exactly when the instance remembers the
      height's D-parameter or an observation is stored there already. */
  lemma ReingestIsNoOpIff(c: Chain, rows: Rows, last: Option<Bytes>, h: nat)
    requires RowsOk(c, rows) && Archived(c, rows, h)
    ensures Ingest(c, rows, last, h) == rows <==> last == Some(DParamAt(c, h)) || ObsIn(c, rows, h)
  {
    IngestObserves(c, rows, last, h, h);
    var puts := Bundle(c, h, LooksNew(c, last, h));
    if !LooksNew(c, last, h) {
      InsertAllKeeps(rows, puts);
    } else if ObsIn(c, rows, h) {
      var key := ObsKey(h, HashAt(c, h), 0);
      assert Right(c, key, rows[key]) && BlobsIn(rows, rows[key]) && rows[key].rawBlob in References(rows[key]);
      assert ObsPuts(c, h)[0].key in rows;
      InsertAllKeeps(rows, puts);
    }
  }

  /** Even then, the block, its transactions and every row that was there stay as they are. */
  lemma ReingestKeepsStored(c: Chain, rows: Rows, last: Option<Bytes>, h: nat, k: RowKey)
    requires Archived(c, rows, h)
    ensures Extends(rows, Ingest(c, rows, last, h))
    ensures k in Ingest(c, rows, last, h) && k !in rows ==> k in {ObsKey(h, HashAt(c, h), 0), BlobKey(c.sha(DParamAt(c, h)))}
  {
    var puts := Bundle(c, h, LooksNew(c, last, h));
    InsertAllGrows(rows, puts);
    InsertAllKeeps(rows, Core(c, h));
    if LooksNew(c, last, h) {
      var core, obs := Core(c, h), ObsPuts(c, h);
      var front := core + [obs[0]];
      assert puts[..|puts| - 1] == front && puts[|puts| - 1] == obs[1];
      assert front[..|front| - 1] == core && front[|front| - 1] == obs[0];
      assert InsertAll(rows, puts) == Insert(Insert(rows, obs[0]), obs[1]);
    }
  }
}
