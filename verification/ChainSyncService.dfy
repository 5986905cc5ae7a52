/**
 * The sync service in its own form: the store's insert loops and the service's block loop, run by
 * one live instance. `faults` says at which await, if any, the ingestion of a height fails.
 */
module ChainSyncService {
  import opened Chunking
  import opened ChainSync
  import opened ChainSyncSafety
  import opened ChainSyncObservations

  datatype Fault = NoFault | NotIndexed | WriteFails | AckLost | MarkFails

  lemma {:induction false} InsertAllAppends(rows: Rows, a: seq<Put>, b: seq<Put>)
    ensures InsertAll(InsertAll(rows, a), b) == InsertAll(rows, a + b)
    decreases |b|
  {
    if b == [] {
      assert a + b == a;
    } else {
      InsertAllAppends(rows, a, b[..|b| - 1]);
      assert (a + b)[..|a + b| - 1] == a + b[..|b| - 1] && (a + b)[|a + b| - 1] == b[|b| - 1];
    }
  }

  lemma InsertTwo(rows: Rows, puts: seq<Put>, a: Put, b: Put)
    ensures InsertAll(rows, puts + [a, b]) == Insert(Insert(InsertAll(rows, puts), a), b)
  {
    assert (puts + [a])[..|puts|] == puts && (puts + [a, b])[..|puts| + 1] == puts + [a];
  }

  class Store {
    var rows: Rows
    var mark: Option<nat>

    constructor ()
      ensures rows == map[] && mark == None
    {
      rows, mark := map[], None;
    }

    method InsertBlockRow(chain: Chain, h: nat)
      modifies this
      ensures rows == InsertAll(old(rows), BlockPuts(chain, h)) && mark == old(mark)
      ensures var key := BlockKey(h, NoPrefix(chain.node(h).hash));
        && key in rows && (if key in old(rows) then rows[key] == old(rows)[key] else IsBlockRow(chain, h, rows[key]))
        && BlobKey(chain.sha(chain.node(h).header)) in rows && BlobKey(chain.sha(chain.node(h).body)) in rows
    {
      rows := Insert(rows, BlobPut(chain, chain.node(h).header));
      rows := Insert(rows, BlobPut(chain, chain.node(h).body));
      rows := Insert(rows, Put(BlockKey(h, HashAt(chain, h)), BlockValAt(chain, h), None));
      var puts := BlockPuts(chain, h);
      assert puts[..2][..1][..0] == [] && puts[..2][..1] == puts[..1];
      assert InsertAll(old(rows), puts[..1]) == Insert(old(rows), puts[0]);
      assert InsertAll(old(rows), puts[..2]) == Insert(Insert(old(rows), puts[0]), puts[1]);
    }

    method InsertTransactionRows(chain: Chain, h: nat)
      modifies this
      ensures rows == InsertAll(old(rows), TxPuts(chain, h, |TxsAt(chain, h)|)) && mark == old(mark)
    {
      for p := 0 to |TxsAt(chain, h)|
        invariant rows == InsertAll(old(rows), TxPuts(chain, h, p)) && mark == old(mark)
      {
        var blob, row := BlobPut(chain, RawAt(chain, h, p)), TxRow(chain, h, p);
        InsertTwo(old(rows), TxPuts(chain, h, p), blob, row);
        rows := Insert(rows, blob);
        rows := Insert(rows, row);
      }
    }

    method InsertBridgeObservationRows(chain: Chain, h: nat)
      modifies this
      ensures rows == InsertAll(old(rows), ObsPuts(chain, h)) && mark == old(mark)
    {
      rows := Insert(rows, BlobPut(chain, DParamAt(chain, h)));
      rows := Insert(rows, Put(ObsKey(h, HashAt(chain, h), 0), ObsValAt(chain, h), None));
      var puts := ObsPuts(chain, h);
      assert InsertAll(old(rows), puts[..1]) == Insert(old(rows), puts[0]);
    }

    /** One transaction: all of the bundle, or (when it fails) nothing. */
    method PutBlockBundle(chain: Chain, h: nat, obs: bool, fails: bool) returns (ok: bool)
      modifies this
      ensures ok == !fails && mark == old(mark)
      ensures rows == if ok then InsertAll(old(rows), Bundle(chain, h, obs)) else old(rows)
    {
      var begun := rows;
      InsertBlockRow(chain, h);
      InsertTransactionRows(chain, h);
      InsertAllAppends(old(rows), BlockPuts(chain, h), TxPuts(chain, h, |TxsAt(chain, h)|));
      if obs {
        InsertBridgeObservationRows(chain, h);
        InsertAllAppends(old(rows), Core(chain, h), ObsPuts(chain, h));
      }
      if fails { rows := begun; return false; }
      return true;
    }

    method SetWatermark(h: nat)
      modifies this
      ensures rows == old(rows) && mark == Raise(old(mark), h)
      ensures NotLower(old(mark), mark) && mark.Some? && mark.value >= h
    {
      if mark.None? || h > mark.value { mark := Some(h); }
    }
  }

  /** What holds between calls of a lone instance. */
  ghost predicate Healthy(chain: Chain, rows: Rows, mark: Option<nat>, last: Option<Bytes>) {
    && StoreOk(chain, rows, mark) && ObservedOrRepeated(chain, rows)
    && Remembers(chain, rows, last, StartHeight(mark))
  }

  // ----- one block --------------------------------------------------------------------------------

  lemma {:induction false} InsertAllOk(c: Chain, rows: Rows, h: nat, puts: seq<Put>, n: nat)
    requires DistinctHashes(c) && RowsOk(c, rows) && AllFit(c, h, puts) && BlobsFirst(puts) && n <= |puts|
    ensures RowsOk(c, InsertAll(rows, puts[..n])) && Has(InsertAll(rows, puts[..n]), puts[..n])
    decreases n
  {
    if n > 0 {
      InsertAllOk(c, rows, h, puts, n - 1);
      var before := InsertAll(rows, puts[..n - 1]);
      assert puts[..n][..n - 1] == puts[..n - 1];
      BlobsAreIn(before, puts, n - 1);
      InsertLands(c, before, puts[n - 1]);
      HasOneMore(before, InsertAll(rows, puts[..n]), puts, n - 1);
    }
  }

  lemma {:induction false} InsertAllAddsOnly(c: Chain, rows: Rows, h: nat, puts: seq<Put>, k: RowKey)
    requires AllFit(c, h, puts) && k in InsertAll(rows, puts) && k !in rows && !k.BlobKey?
    ensures k.height == h
    decreases |puts|
  {
    if puts != [] {
      var front := puts[..|puts| - 1];
      if k in InsertAll(rows, front) {
        InsertAllAddsOnly(c, rows, h, front, k);
      } else {
        assert OfHeight(puts[|puts| - 1], h);
      }
    }
  }

  lemma IngestStores(c: Chain, rows: Rows, mark: Option<nat>, last: Option<Bytes>)
    requires DistinctHashes(c) && StoreOk(c, rows, mark)
    ensures var h := StartHeight(mark);
      StoreOk(c, Ingest(c, rows, last, h), mark) && Below(c, Ingest(c, rows, last, h), h + 1)
  {
    var h := StartHeight(mark);
    var puts, after := Bundle(c, h, LooksNew(c, last, h)), Ingest(c, rows, last, h);
    IngestLands(c, rows, last, h);
    BelowExtends(c, rows, after, h);
    forall k | k in after && !k.BlobKey? ensures Archived(c, after, k.height) {
      if k in rows {
        StaysArchived(c, rows, after, k.height);
      } else {
        InsertAllAddsOnly(c, rows, h, puts, k);
      }
    }
  }

  lemma IngestLands(c: Chain, rows: Rows, last: Option<Bytes>, h: nat)
    requires DistinctHashes(c) && RowsOk(c, rows)
    ensures var after := Ingest(c, rows, last, h); RowsOk(c, after) && Archived(c, after, h) && Extends(rows, after)
    ensures AllFit(c, h, Bundle(c, h, LooksNew(c, last, h)))
  {
    var puts := Bundle(c, h, LooksNew(c, last, h));
    BundleFits(c, h, LooksNew(c, last, h));
    BundleBlobsFirst(c, h, LooksNew(c, last, h));
    InsertAllOk(c, rows, h, puts, |puts|);
    assert puts[..|puts|] == puts;
    InsertAllGrows(rows, puts);
    CoreIsIn(c, InsertAll(rows, puts), h, LooksNew(c, last, h));
  }

  lemma CoreIsIn(c: Chain, rows: Rows, h: nat, obs: bool)
    requires Has(rows, Bundle(c, h, obs))
    ensures Archived(c, rows, h)
  {
    var core, puts := Core(c, h), Bundle(c, h, obs);
    forall i | 0 <= i < |core| ensures core[i].key in rows { assert puts[i] == core[i]; }
  }

  lemma StaysArchived(c: Chain, rows: Rows, rows': Rows, h: nat)
    requires Archived(c, rows, h) && Extends(rows, rows')
    ensures Archived(c, rows', h)
  {
  }

  lemma BelowExtends(c: Chain, rows: Rows, rows': Rows, n: nat)
    requires Below(c, rows, n) && Extends(rows, rows')
    ensures Below(c, rows', n)
  {
    forall h: nat | h < n ensures Archived(c, rows', h) { assert Archived(c, rows, h); }
  }

  lemma IngestObservesRightly(c: Chain, rows: Rows, last: Option<Bytes>, h: nat)
    requires ObservedOrRepeated(c, rows) && Remembers(c, rows, last, h)
    ensures ObservedOrRepeated(c, Ingest(c, rows, last, h)) && Remembers(c, Ingest(c, rows, last, h), last, h)
    ensures LooksNew(c, last, h) ==> ObsIn(c, Ingest(c, rows, last, h), h)
  {
    var after, puts := Ingest(c, rows, last, h), Bundle(c, h, LooksNew(c, last, h));
    BundleFits(c, h, LooksNew(c, last, h));
    IngestObserves(c, rows, last, h, h);
    forall g: nat | BlockKey(g, HashAt(c, g)) in after ensures ObsIn(c, after, g) || Repeats(c, g) {
      IngestObserves(c, rows, last, h, g);
      if BlockKey(g, HashAt(c, g)) !in rows {
        InsertAllAddsOnly(c, rows, h, puts, BlockKey(g, HashAt(c, g)));
      }
    }
  }

  /** From the start up to the finalized tip, but at most `maxBlocks` heights. */
  predicate InBatch(start: nat, tip: nat, maxBlocks: int, h: nat) { start <= h <= tip && h < start + maxBlocks }

  predicate Between(start: nat, h: nat, end: int) { start <= h <= end }

  datatype SyncResult = Synced(ingested: nat, from: Option<nat>, upTo: Option<int>) | Failed

  /** Node and indexer agree on the block's hash, and the bytes of every transaction that does not start
      with the system tag lie somewhere inside one of the node's extrinsics. */
  ghost predicate CrossChecked(c: Chain, h: nat) {
    && NoPrefix(c.indexer(h).hash) == NoPrefix(c.node(h).hash)
    && forall p :: 0 <= p < |c.indexer(h).txs| ==>
         StartsWithTag(c.unhex(NoPrefix(c.indexer(h).txs[p].raw))) || InSomeExtrinsic(c, h, NoPrefix(c.indexer(h).txs[p].raw))
  }

  ghost predicate InSomeExtrinsic(c: Chain, h: nat, raw: string) {
    exists e :: 0 <= e < |c.node(h).extrinsics| && LiesInside(NoPrefix(c.node(h).extrinsics[e]), raw)
  }

  ghost predicate LiesInside(text: string, part: string) { exists before, after :: IsCut(text, before, part, after) }

  predicate IsCut(text: string, before: string, part: string, after: string) { text == before + part + after }

  lemma ContainsMeans(text: string, part: string)
    ensures Contains(text, part) <==> LiesInside(text, part)
  {
    if Contains(text, part) {
      var i :| 0 <= i <= |text| && OccursAt(text, part, i);
      assert IsCut(text, text[..i], part, text[i + |part|..]);
    }
    if LiesInside(text, part) {
      var before, after :| IsCut(text, before, part, after);
      assert OccursAt(text, part, |before|);
    }
  }

  lemma BuildsMeans(c: Chain, h: nat)
    ensures Builds(c, h) <==> CrossChecked(c, h)
  {
    forall p | 0 <= p < |c.indexer(h).txs|
      ensures IsSystem(RawAt(c, h, p)) <==> StartsWithTag(c.unhex(NoPrefix(c.indexer(h).txs[p].raw)))
    {
      SystemMeans(RawAt(c, h, p));
    }
    forall e, p | 0 <= e < |c.node(h).extrinsics| && 0 <= p < |c.indexer(h).txs|
      ensures Contains(NoPrefix(c.node(h).extrinsics[e]), NoPrefix(TxsAt(c, h)[p].raw)) <==> LiesInside(NoPrefix(c.node(h).extrinsics[e]), NoPrefix(c.indexer(h).txs[p].raw))
    {
      ContainsMeans(NoPrefix(c.node(h).extrinsics[e]), NoPrefix(c.indexer(h).txs[p].raw));
    }
  }

  class Service {
    var last: Option<Bytes>

    constructor ()
      ensures last == None
    {
      last := None;
    }

    /** Fetch, build, write the bundle; only then remember the D-parameter. */
    method IngestOneBlock(store: Store, chain: Chain, h: nat, fault: Fault) returns (ok: bool)
      requires DistinctHashes(chain) && Healthy(chain, store.rows, store.mark, last) && h == StartHeight(store.mark)
      modifies this, store
      ensures Healthy(chain, store.rows, store.mark, last) && store.mark == old(store.mark)
      ensures ok ==> Below(chain, store.rows, h + 1)
      ensures last == if ok then Some(chain.indexer(h).dParameter) else old(last)
      ensures ok <==> CrossChecked(chain, h) && fault != NotIndexed && fault != WriteFails && fault != AckLost
      ensures store.rows == if CrossChecked(chain, h) && fault != NotIndexed && fault != WriteFails then Ingest(chain, old(store.rows), old(last), h) else old(store.rows)
    {
      BuildsMeans(chain, h);
      if fault == NotIndexed || !Builds(chain, h) { return false; }
      var obs := last != Some(DParamAt(chain, h));
      ok := store.PutBlockBundle(chain, h, obs, fault == WriteFails);
      if ok {
        IngestStores(chain, old(store.rows), store.mark, last);
        IngestObservesRightly(chain, old(store.rows), last, h);
      }
      if !ok || fault == AckLost { return false; }
      if obs { last := Some(DParamAt(chain, h)); }
      return true;
    }

    /** The body of the loop: ingest, then raise the watermark. */
    method SyncHeight(store: Store, chain: Chain, h: nat, fault: Fault) returns (ok: bool)
      requires DistinctHashes(chain) && Healthy(chain, store.rows, store.mark, last) && h == StartHeight(store.mark)
      modifies this, store
      ensures Healthy(chain, store.rows, store.mark, last)
      ensures ok <==> CrossChecked(chain, h) && fault == NoFault
      ensures store.mark == if ok then Some(h) else old(store.mark)
    {
      ok := IngestOneBlock(store, chain, h, fault);
      if !ok || fault == MarkFails { return false; }
      store.SetWatermark(h);
    }

    /** The loop over the heights of one batch. */
    method SyncBatch(store: Store, chain: Chain, end: int, faults: nat -> Fault) returns (ok: bool, ingested: nat)
      requires DistinctHashes(chain) && Healthy(chain, store.rows, store.mark, last)
      modifies this, store
      ensures Healthy(chain, store.rows, store.mark, last) && NotLower(old(store.mark), store.mark)
      ensures StartHeight(store.mark) == StartHeight(old(store.mark)) + ingested
      ensures ingested > 0 ==> StartHeight(store.mark) <= end + 1
      ensures ok && StartHeight(old(store.mark)) <= end ==> StartHeight(store.mark) == end + 1
      ensures ok <==> forall h: nat :: Between(StartHeight(old(store.mark)), h, end) ==> CrossChecked(chain, h) && faults(h) == NoFault
    {
      ingested := 0;
      ghost var start := StartHeight(store.mark);
      var height := StartHeight(store.mark);
      while height <= end
        invariant height == start + ingested && height == StartHeight(store.mark) && (height <= end + 1 || ingested == 0)
        invariant Healthy(chain, store.rows, store.mark, last) && NotLower(old(store.mark), store.mark)
        invariant forall h: nat :: Between(start, h, end) && h < height ==> CrossChecked(chain, h) && faults(h) == NoFault
        decreases end - height
      {
        assert Between(start, height, end);
        ok := SyncHeight(store, chain, height, faults(height));
        if !ok { return false, ingested; }
        ingested, height := ingested + 1, height + 1;
      }
      ok := true;
    }

    /** Every exit leaves the store healthy and the watermark no lower; a successful call has moved
        it to the end of the batch and counts the blocks in between, and a call succeeds exactly when
        every block of its batch cross-checks and nothing fails. */
    method SyncOnce(store: Store, chain: Chain, tip: nat, maxBlocks: int, faults: nat -> Fault) returns (result: SyncResult)
      requires DistinctHashes(chain) && Healthy(chain, store.rows, store.mark, last)
      modifies this, store
      ensures Healthy(chain, store.rows, store.mark, last) && NotLower(old(store.mark), store.mark)
      ensures StartHeight(store.mark) <= StartHeight(old(store.mark)) + (if maxBlocks > 0 then maxBlocks else 0)
      ensures StartHeight(store.mark) > StartHeight(old(store.mark)) ==> StartHeight(store.mark) <= tip + 1
      ensures result.Synced? ==> StartHeight(store.mark) == StartHeight(old(store.mark)) + result.ingested
      ensures result.Synced? && maxBlocks > 0 && StartHeight(old(store.mark)) <= tip ==>
        result.upTo == Some(StartHeight(store.mark) - 1) && result.from == Some(StartHeight(old(store.mark)))
        && (StartHeight(store.mark) == tip + 1 || result.ingested == maxBlocks)
      ensures result.Synced? && StartHeight(old(store.mark)) > tip ==> result == Synced(0, None, None)
      ensures result.Synced? <==> forall h: nat :: InBatch(StartHeight(old(store.mark)), tip, maxBlocks, h) ==>
        CrossChecked(chain, h) && faults(h) == NoFault
    {
      var start := StartHeight(store.mark);
      if start > tip { return Synced(0, None, None); }
      var end := if tip < start + maxBlocks - 1 then tip else start + maxBlocks - 1;
      assert forall h: nat :: Between(start, h, end) <==> InBatch(start, tip, maxBlocks, h);
      var ok, ingested := SyncBatch(store, chain, end, faults);
      if !ok { return Failed; }
      return Synced(ingested, Some(start), Some(end));
    }
  }
}
