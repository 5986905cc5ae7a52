/**
 * Crash-safe sync: whatever overlaps, fails or restarts, a watermark of h means that blocks 0..h
 * are archived in full, no partial block is ever visible, no stored row is ever rewritten and the
 * watermark never falls.
 */
module ChainSyncSafety {
  import opened Chunking
  import opened ChainSync

  // ----- what a row must hold -------------------------------------------------------------------

  predicate Right(c: Chain, k: RowKey, v: RowVal) {
    match k
    case BlobKey(x) => v.BlobVal? && c.sha(v.data) == x
    case BlockKey(h, hash) => hash == HashAt(c, h) && v == BlockValAt(c, h)
    case TxKey(h, hash, txHash) =>
      && hash == HashAt(c, h) && v.TxVal? && v.position < |TxsAt(c, h)|
      && txHash == TxHashAt(c, h, v.position) && v == TxValAt(c, h, v.position)
    case SlotKey(h, hash, p) => hash == HashAt(c, h) && p < |TxsAt(c, h)| && v == TxValAt(c, h, p)
    case ObsKey(h, hash, i) => hash == HashAt(c, h) && i == 0 && v == ObsValAt(c, h)
  }

  /** A taken slot has its transaction row, and every foreign key its blob. */
  predicate Closed(rows: Rows, k: RowKey)
    requires k in rows
  {
    && (k.SlotKey? ==> rows[k].TxVal? && TxKey(k.height, k.hash, rows[k].txHash) in rows)
    && BlobsIn(rows, rows[k])
  }

  predicate BlobsIn(rows: Rows, v: RowVal) { forall x :: x in References(v) ==> BlobKey(x) in rows }

  /** Each insert finds its blobs among the inserts before it. */
  predicate BlobsFirst(puts: seq<Put>) {
    forall i :: 0 <= i < |puts| ==> forall x :: x in References(puts[i].val) ==> InsertsBlob(puts, i, x)
  }

  predicate InsertsBlob(puts: seq<Put>, n: nat, x: Bytes) {
    exists j :: 0 <= j < n && j < |puts| && puts[j].key == BlobKey(x)
  }

  lemma BlobsFirstAppends(a: seq<Put>, b: seq<Put>)
    requires BlobsFirst(a) && BlobsFirst(b)
    ensures BlobsFirst(a + b)
  {
    var both := a + b;
    forall i, x | 0 <= i < |both| && x in References(both[i].val) ensures InsertsBlob(both, i, x) {
      if i < |a| {
        assert InsertsBlob(a, i, x);
        var j :| 0 <= j < i && a[j].key == BlobKey(x);
        assert both[j].key == BlobKey(x);
      } else {
        assert InsertsBlob(b, i - |a|, x);
        var j :| 0 <= j < i - |a| && b[j].key == BlobKey(x);
        assert both[|a| + j].key == BlobKey(x);
      }
    }
  }

  lemma {:induction false} TxPutsBlobsFirst(c: Chain, h: nat, n: nat)
    requires n <= |TxsAt(c, h)|
    ensures BlobsFirst(TxPuts(c, h, n))
  {
    if n > 0 {
      TxPutsBlobsFirst(c, h, n - 1);
      var last := [BlobPut(c, RawAt(c, h, n - 1)), TxRow(c, h, n - 1)];
      assert last[0].key == BlobKey(c.sha(RawAt(c, h, n - 1)));
      BlobsFirstAppends(TxPuts(c, h, n - 1), last);
    }
  }

  lemma BundleBlobsFirst(c: Chain, h: nat, obs: bool)
    ensures BlobsFirst(Bundle(c, h, obs))
  {
    var block, observed := BlockPuts(c, h), ObsPuts(c, h);
    assert block[0].key == BlobKey(c.sha(c.node(h).header)) && block[1].key == BlobKey(c.sha(c.node(h).body));
    assert observed[0].key == BlobKey(c.sha(DParamAt(c, h)));
    TxPutsBlobsFirst(c, h, |TxsAt(c, h)|);
    BlobsFirstAppends(block, TxPuts(c, h, |TxsAt(c, h)|));
    BlobsFirstAppends(Core(c, h), observed);
  }

  ghost predicate RowsOk(c: Chain, rows: Rows) {
    forall k :: k in rows ==> Right(c, k, rows[k]) && Closed(rows, k)
  }

  predicate Has(rows: Rows, puts: seq<Put>) {
    forall i :: 0 <= i < |puts| ==> puts[i].key in rows
  }

  predicate Archived(c: Chain, rows: Rows, h: nat) { Has(rows, Core(c, h)) }

  ghost predicate Below(c: Chain, rows: Rows, n: nat) {
    forall h: nat :: h < n ==> Archived(c, rows, h)
  }

  /** No row of a height is visible before all of them are. */
  ghost predicate NoPartial(c: Chain, rows: Rows) {
    forall k :: k in rows && !k.BlobKey? ==> Archived(c, rows, k.height)
  }

  predicate Fits(c: Chain, p: Put) {
    && Right(c, p.key, p.val) && !p.key.SlotKey?
    && (p.also.Some? ==> p.also.value.SlotKey? && Right(c, p.also.value, p.val) && p.key == TxKey(p.also.value.height, p.also.value.hash, p.val.txHash))
    && (p.also.None? ==> !p.key.TxKey?)
  }

  predicate AllFit(c: Chain, h: nat, puts: seq<Put>) {
    forall i :: 0 <= i < |puts| ==> Fits(c, puts[i]) && OfHeight(puts[i], h)
  }

  predicate OfHeight(p: Put, h: nat) {
    && (!p.key.BlobKey? ==> p.key.height == h)
    && (p.also.Some? ==> p.also.value.SlotKey? && p.also.value.height == h)
  }

  lemma {:induction false} TxPutsFit(c: Chain, h: nat, n: nat)
    requires n <= |TxsAt(c, h)|
    ensures AllFit(c, h, TxPuts(c, h, n))
  {
    if n > 0 {
      TxPutsFit(c, h, n - 1);
      assert Fits(c, BlobPut(c, RawAt(c, h, n - 1))) && Fits(c, TxRow(c, h, n - 1));
    }
  }

  lemma BundleFits(c: Chain, h: nat, obs: bool)
    ensures AllFit(c, h, Bundle(c, h, obs))
  {
    TxPutsFit(c, h, |TxsAt(c, h)|);
  }

  /** An insert leaves the row there, whichever unique key it met. */
  lemma InsertLands(c: Chain, rows: Rows, p: Put)
    requires DistinctHashes(c) && RowsOk(c, rows) && Fits(c, p) && BlobsIn(rows, p.val)
    ensures RowsOk(c, Insert(rows, p)) && p.key in Insert(rows, p)
  {
    if !Conflicts(rows, p) {
      var after := Insert(rows, p);
      forall k | k in after ensures Right(c, k, after[k]) && Closed(after, k) {
        if k in rows {
          assert Right(c, k, rows[k]) && Closed(rows, k) && after[k] == rows[k];
        }
      }
    } else if p.also.Some? && p.also.value in rows {
      assert Closed(rows, p.also.value) && Right(c, p.also.value, rows[p.also.value]);
    }
  }

  // ----- the invariant --------------------------------------------------------------------------

  ghost predicate CallOk(c: Chain, rows: Rows, call: Call) {
    match call.pc
    case Loop(n, _) => call.overlay == map[] && Below(c, rows, n)
    case Writing(h, _, obs, done) => Below(c, rows, h) && WriteOk(c, rows, call.overlay, h, Bundle(c, h, obs), done)
    case Committed(h, _, _) => call.overlay == map[] && Below(c, rows, h + 1)
    case Marking(h, _) => call.overlay == map[] && Below(c, rows, h + 1)
  }

  ghost predicate WriteOk(c: Chain, rows: Rows, overlay: Rows, h: nat, puts: seq<Put>, done: nat) {
    && overlay.Keys !! rows.Keys && RowsOk(c, rows + overlay)
    && done <= |puts| && Has(rows + overlay, puts[..done])
    && forall k :: k in overlay && !k.BlobKey? ==> k.height == h
  }

  ghost predicate StoreOk(c: Chain, rows: Rows, mark: Option<nat>) {
    RowsOk(c, rows) && NoPartial(c, rows) && Below(c, rows, StartHeight(mark))
  }

  ghost predicate Apart(a: Call, b: Call) { a.overlay.Keys !! b.overlay.Keys }

  ghost predicate CallsApart(calls: map<nat, Call>) {
    forall c, d :: c in calls && d in calls && c != d ==> Apart(calls[c], calls[d])
  }

  ghost predicate CallsOk(chain: Chain, rows: Rows, calls: map<nat, Call>) {
    forall c :: c in calls ==> CallOk(chain, rows, calls[c])
  }

  ghost predicate Inv(chain: Chain, s: State) {
    StoreOk(chain, s.rows, s.mark) && CallsApart(s.calls) && CallsOk(chain, s.rows, s.calls)
  }

  // ----- growth ---------------------------------------------------------------------------------

  lemma BelowGrows(c: Chain, rows: Rows, extra: Rows, n: nat)
    requires Below(c, rows, n)
    ensures Below(c, rows + extra, n)
  {
    forall h: nat | h < n ensures Archived(c, rows + extra, h) {
      assert Archived(c, rows, h);
    }
  }

  lemma BlobsAreIn(rows: Rows, puts: seq<Put>, done: nat)
    requires BlobsFirst(puts) && done < |puts| && Has(rows, puts[..done])
    ensures BlobsIn(rows, puts[done].val)
  {
    forall x | x in References(puts[done].val) ensures BlobKey(x) in rows {
      assert InsertsBlob(puts, done, x);
      var j :| 0 <= j < done && puts[j].key == BlobKey(x);
      assert puts[..done][j] == puts[j];
    }
  }

  lemma HasOneMore(rows: Rows, rows': Rows, puts: seq<Put>, done: nat)
    requires done < |puts| && Has(rows, puts[..done]) && rows.Keys <= rows'.Keys && puts[done].key in rows'
    ensures Has(rows', puts[..done + 1])
  {
    var before, front := puts[..done], puts[..done + 1];
    forall i | 0 <= i < |front| ensures front[i].key in rows' {
      if i < done { assert front[i] == before[i]; }
    }
  }

  lemma OverlayGrows(rows: Rows, overlay: Rows, p: Put, h: nat)
    requires overlay.Keys !! rows.Keys && OfHeight(p, h) && !Conflicts(rows + overlay, p)
    requires forall k :: k in overlay && !k.BlobKey? ==> k.height == h
    ensures var overlay' := overlay + Entries(p);
      && overlay'.Keys !! rows.Keys && rows + overlay' == Insert(rows + overlay, p)
      && forall k :: k in overlay' && !k.BlobKey? ==> k.height == h
  {
    var overlay' := overlay + Entries(p);
    assert overlay'.Keys == overlay.Keys + Entries(p).Keys;
    assert rows + overlay' == rows + overlay + Entries(p);
  }

  lemma WriteAdvances(chain: Chain, rows: Rows, overlay: Rows, h: nat, puts: seq<Put>, done: nat)
    requires DistinctHashes(chain) && AllFit(chain, h, puts) && BlobsFirst(puts)
    requires WriteOk(chain, rows, overlay, h, puts, done) && done < |puts|
    ensures WriteOk(chain, rows, if Conflicts(rows + overlay, puts[done]) then overlay else overlay + Entries(puts[done]), h, puts, done + 1)
  {
    var p := puts[done];
    BlobsAreIn(rows + overlay, puts, done);
    InsertLands(chain, rows + overlay, p);
    if !Conflicts(rows + overlay, p) {
      OverlayGrows(rows, overlay, p, h);
    }
    HasOneMore(rows + overlay, Insert(rows + overlay, p), puts, done);
  }

  lemma InsertKeepsWrite(chain: Chain, rows: Rows, call: Call)
    requires DistinctHashes(chain) && call.pc.Writing? && CallOk(chain, rows, call)
    requires call.pc.done < |Bundle(chain, call.pc.height, call.pc.obs)|
    ensures CallOk(chain, rows, AfterInsert(rows, call, Bundle(chain, call.pc.height, call.pc.obs)[call.pc.done]))
  {
    BundleFits(chain, call.pc.height, call.pc.obs);
    BundleBlobsFirst(chain, call.pc.height, call.pc.obs);
    WriteAdvances(chain, rows, call.overlay, call.pc.height, Bundle(chain, call.pc.height, call.pc.obs), call.pc.done);
  }

  lemma CommitStores(chain: Chain, rows: Rows, mark: Option<nat>, call: Call)
    requires StoreOk(chain, rows, mark) && call.pc.Writing? && CallOk(chain, rows, call)
    requires call.pc.done == |Bundle(chain, call.pc.height, call.pc.obs)|
    ensures StoreOk(chain, rows + call.overlay, mark) && Below(chain, rows + call.overlay, call.pc.height + 1)
  {
    var h, puts := call.pc.height, Bundle(chain, call.pc.height, call.pc.obs);
    var after := rows + call.overlay;
    BelowGrows(chain, rows, call.overlay, h);
    BelowGrows(chain, rows, call.overlay, StartHeight(mark));
    forall i | 0 <= i < |Core(chain, h)| ensures Core(chain, h)[i].key in after {
      assert puts[..|puts|][i] == Core(chain, h)[i];
    }
    assert Archived(chain, after, h);
    forall k | k in after && !k.BlobKey? ensures Archived(chain, after, k.height) {
      if k in rows { assert Archived(chain, rows, k.height); }
    }
  }

  /** Another call's commit leaves a transaction in flight as good as it was. */
  lemma CommitKeepsCall(chain: Chain, rows: Rows, overlay: Rows, other: Call)
    requires CallOk(chain, rows, other) && RowsOk(chain, rows + overlay) && other.overlay.Keys !! overlay.Keys && overlay.Keys !! rows.Keys
    ensures CallOk(chain, rows + overlay, other)
  {
    match other.pc
    case Loop(n, _) => BelowGrows(chain, rows, overlay, n);
    case Writing(h, _, obs, done) =>
      BelowGrows(chain, rows, overlay, h);
      CommitKeepsWrite(chain, rows, overlay, other.overlay, h, Bundle(chain, h, obs), done);
    case Committed(h, _, _) => BelowGrows(chain, rows, overlay, h + 1);
    case Marking(h, _) => BelowGrows(chain, rows, overlay, h + 1);
  }

  lemma CommitKeepsWrite(chain: Chain, rows: Rows, a: Rows, b: Rows, h: nat, puts: seq<Put>, done: nat)
    requires RowsOk(chain, rows + a) && a.Keys !! b.Keys && a.Keys !! rows.Keys && WriteOk(chain, rows, b, h, puts, done)
    ensures WriteOk(chain, rows + a, b, h, puts, done)
  {
    var all := rows + a + b;
    forall k | k in all ensures Right(chain, k, all[k]) && Closed(all, k) {
      if k in a {
        assert Right(chain, k, (rows + a)[k]) && Closed(rows + a, k);
      } else {
        assert Right(chain, k, (rows + b)[k]) && Closed(rows + b, k);
      }
    }
    forall i | 0 <= i < done ensures puts[..done][i].key in all {
      assert puts[..done][i].key in rows + b;
    }
  }

  // ----- every step -----------------------------------------------------------------------------

  /** A step of one call that changes no committed row. */
  lemma WorkKeepsInv(chain: Chain, s: State, s': State, c: nat, next: Call)
    requires Inv(chain, s) && s'.rows == s.rows && s'.calls == s.calls[c := next]
    requires StoreOk(chain, s'.rows, s'.mark) && CallOk(chain, s.rows, next)
    requires forall d :: d in s.calls && d != c ==> Apart(next, s.calls[d])
    ensures Inv(chain, s')
  {
    forall a, b | a in s'.calls && b in s'.calls && a != b ensures Apart(s'.calls[a], s'.calls[b]) {
      assert a != c && b != c ==> Apart(s.calls[a], s.calls[b]);
    }
    forall d | d in s'.calls ensures CallOk(chain, s'.rows, s'.calls[d]) {
      assert d != c ==> CallOk(chain, s.rows, s.calls[d]);
    }
  }

  lemma EndKeepsInv(chain: Chain, s: State, s': State)
    requires Inv(chain, s) && s'.rows == s.rows && s'.mark == s.mark
    requires forall d :: d in s'.calls ==> d in s.calls && s'.calls[d] == s.calls[d]
    ensures Inv(chain, s')
  {
    forall a, b | a in s'.calls && b in s'.calls && a != b ensures Apart(s'.calls[a], s'.calls[b]) {
      assert Apart(s.calls[a], s.calls[b]);
    }
    forall d | d in s'.calls ensures CallOk(chain, s'.rows, s'.calls[d]) {
      assert CallOk(chain, s.rows, s.calls[d]);
    }
  }

  lemma InsertKeepsInv(chain: Chain, s: State, s': State, c: nat)
    requires DistinctHashes(chain) && Inv(chain, s) && NextBy(chain, s, InsertRow(c), s')
    ensures Inv(chain, s')
  {
    var call := s.calls[c];
    assert CallOk(chain, s.rows, call);
    var p := Bundle(chain, call.pc.height, call.pc.obs)[call.pc.done];
    InsertKeepsWrite(chain, s.rows, call);
    InsertKeepsApart(s, c, p);
    WorkKeepsInv(chain, s, s', c, AfterInsert(s.rows, call, p));
  }

  lemma InsertKeepsApart(s: State, c: nat, p: Put)
    requires c in s.calls && s.calls[c].pc.Writing? && CallsApart(s.calls) && MayInsert(s, c, p)
    ensures forall d :: d in s.calls && d != c ==> Apart(AfterInsert(s.rows, s.calls[c], p), s.calls[d])
  {
    var call, next := s.calls[c], AfterInsert(s.rows, s.calls[c], p);
    forall d | d in s.calls && d != c ensures Apart(next, s.calls[d]) {
      assert Apart(call, s.calls[d]);
      assert p.key !in s.calls[d].overlay && (p.also.Some? ==> p.also.value !in s.calls[d].overlay);
      assert next.overlay.Keys <= call.overlay.Keys + Entries(p).Keys;
    }
  }

  lemma CommitKeepsInv(chain: Chain, s: State, s': State, c: nat)
    requires Inv(chain, s) && NextBy(chain, s, Commit(c), s')
    ensures Inv(chain, s')
  {
    var call := s.calls[c];
    assert CallOk(chain, s.rows, call);
    CommitStores(chain, s.rows, s.mark, call);
    forall d | d in s'.calls ensures CallOk(chain, s'.rows, s'.calls[d]) {
      if d != c {
        assert Apart(call, s.calls[d]) && CallOk(chain, s.rows, s.calls[d]);
        CommitKeepsCall(chain, s.rows, call.overlay, s.calls[d]);
      }
    }
    forall a, b | a in s'.calls && b in s'.calls && a != b ensures Apart(s'.calls[a], s'.calls[b]) {
      assert a != c && b != c ==> Apart(s.calls[a], s.calls[b]);
    }
  }

  /** Starting, fetching, acknowledging and marking: the call moves on with nothing in flight. */
  lemma MoveKeepsInv(chain: Chain, s: State, s': State, step: Step)
    requires Inv(chain, s) && NextBy(chain, s, step, s') && (step.Start? || step.Fetch? || step.Ack? || step.Mark?)
    ensures Inv(chain, s')
  {
    if s' != s {
      var next := s'.calls[step.c];
      if step.c in s.calls { assert CallOk(chain, s.rows, s.calls[step.c]); }
      if step.Mark? { assert Below(chain, s.rows, StartHeight(s'.mark)); }
      assert next.overlay == map[];
      if step.Fetch? { FetchOk(chain, s, next); }
      WorkKeepsInv(chain, s, s', step.c, next);
    }
  }

  lemma FetchOk(chain: Chain, s: State, next: Call)
    requires Inv(chain, s) && next.pc.Writing? && next.pc.done == 0 && next.overlay == map[] && Below(chain, s.rows, next.pc.height)
    ensures CallOk(chain, s.rows, next)
  {
    assert s.rows + next.overlay == s.rows;
  }

  lemma StepKeepsInv(chain: Chain, s: State, step: Step, s': State)
    requires DistinctHashes(chain) && Inv(chain, s) && NextBy(chain, s, step, s')
    ensures Inv(chain, s')
  {
    match step
    case InsertRow(c) => InsertKeepsInv(chain, s, s', c);
    case Commit(c) => CommitKeepsInv(chain, s, s', c);
    case Boot(_) => EndKeepsInv(chain, s, s');
    case Kill(_) => EndKeepsInv(chain, s, s');
    case Return(_) => EndKeepsInv(chain, s, s');
    case Fail(_) => EndKeepsInv(chain, s, s');
    case _ => MoveKeepsInv(chain, s, s', step);
  }

  lemma NextKeepsInv(chain: Chain, s: State, s': State)
    requires DistinctHashes(chain) && Inv(chain, s) && Next(chain, s, s')
    ensures Inv(chain, s')
  {
    var step :| NextBy(chain, s, step, s');
    StepKeepsInv(chain, s, step, s');
  }

  lemma {:induction false} RunKeepsInv(chain: Chain, run: seq<State>, i: nat)
    requires DistinctHashes(chain) && IsRun(chain, run) && i < |run|
    ensures Inv(chain, run[i])
  {
    if i > 0 {
      RunKeepsInv(chain, run, i - 1);
      assert StepAt(chain, run, i - 1);
      NextKeepsInv(chain, run[i - 1], run[i]);
    }
  }

  // ----- the theorems ---------------------------------------------------------------------------

  predicate BlobHolds(c: Chain, rows: Rows, data: Bytes) {
    && BlobKey(c.sha(data)) in rows && rows[BlobKey(c.sha(data))].BlobVal?
    && var stored := rows[BlobKey(c.sha(data))].data;
       stored == data || Collide(c.sha, stored, data)
  }

  /** Column by column: a canonical, finalized block with the node's parent hash, state root and
      extrinsics root, naming the blobs of the node's header and body. */
  predicate IsBlockRow(c: Chain, h: nat, v: RowVal) {
    && v.BlockVal? && v.parent == NoPrefix(c.node(h).parent)
    && v.stateRoot == NoPrefix(c.node(h).stateRoot) && v.extrinsicsRoot == NoPrefix(c.node(h).extrinsicsRoot)
    && v.headerBlob == c.sha(c.node(h).header) && v.bodyBlob == c.sha(c.node(h).body)
    && v.canonical && v.status == "canonical" && v.finalized
  }

  /** Column by column: the indexer's p-th transaction of the block, at position p, a system transaction
      iff its bytes start with the tag, naming the blob of its raw bytes. */
  predicate IsTxRow(c: Chain, h: nat, p: nat, v: RowVal)
    requires p < |c.indexer(h).txs|
  {
    var tx := c.indexer(h).txs[p];
    && v.TxVal? && v.txHash == NoPrefix(tx.hash) && v.position == p && v.version == tx.version
    && v.kind == (if StartsWithTag(c.unhex(NoPrefix(tx.raw))) then "system" else "regular")
    && v.rawBlob == c.sha(c.unhex(NoPrefix(tx.raw)))
  }

  const TAG_TEXT := "midnight:system-transaction"

  predicate StartsWithTag(raw: Bytes) {
    |raw| >= |TAG_TEXT| && forall i :: 0 <= i < |TAG_TEXT| ==> raw[i] == TAG_TEXT[i] as int
  }

  lemma SystemMeans(raw: Bytes)
    ensures IsSystem(raw) <==> StartsWithTag(raw)
  {
    var tag := SYSTEM_TX_TAG;
    assert |tag| == |TAG_TEXT|;
    forall i | 0 <= i < |TAG_TEXT| ensures tag[i] == TAG_TEXT[i] as int {
      AsciiTag(i);
    }
    if StartsWithTag(raw) { assert raw[..|tag|] == tag; }
  }

  lemma AsciiTag(i: nat)
    requires i < |TAG_TEXT|
    ensures TAG_TEXT[i] as int < 256
  {
  }

  /** hexNoPrefix drops one leading "0x" and nothing else. */
  lemma NoPrefixMeans(hex: string)
    ensures NoPrefix("0x" + hex) == hex && (!("0x" <= hex) ==> NoPrefix(hex) == hex)
  {
  }

  /** The block row, exactly its transaction rows, and every blob they name (or two strings that
      collide) are stored with the chain's own data. */
  ghost predicate FullyArchived(c: Chain, rows: Rows, h: nat) {
    && BlockKey(h, NoPrefix(c.node(h).hash)) in rows && IsBlockRow(c, h, rows[BlockKey(h, NoPrefix(c.node(h).hash))])
    && BlobHolds(c, rows, c.node(h).header) && BlobHolds(c, rows, c.node(h).body)
    && (forall p :: 0 <= p < |c.indexer(h).txs| ==> TxArchived(c, rows, h, p))
    && (forall hash, txHash :: TxKey(h, hash, txHash) in rows ==>
          hash == NoPrefix(c.node(h).hash) && exists p :: 0 <= p < |c.indexer(h).txs| && NoPrefix(c.indexer(h).txs[p].hash) == txHash)
  }

  predicate TxArchived(c: Chain, rows: Rows, h: nat, p: nat)
    requires p < |c.indexer(h).txs|
  {
    && var key := TxKey(h, NoPrefix(c.node(h).hash), NoPrefix(c.indexer(h).txs[p].hash));
       key in rows && IsTxRow(c, h, p, rows[key]) && BlobHolds(c, rows, c.unhex(NoPrefix(c.indexer(h).txs[p].raw)))
  }

  lemma {:induction false} TxPutsHave(c: Chain, h: nat, n: nat, p: nat) returns (i: nat)
    requires p < n <= |TxsAt(c, h)|
    ensures i + 1 < |TxPuts(c, h, n)|
    ensures TxPuts(c, h, n)[i] == BlobPut(c, RawAt(c, h, p)) && TxPuts(c, h, n)[i + 1] == TxRow(c, h, p)
  {
    if p == n - 1 {
      i := |TxPuts(c, h, n - 1)|;
    } else {
      i := TxPutsHave(c, h, n - 1, p);
    }
  }

  lemma TxIsArchived(c: Chain, rows: Rows, h: nat, p: nat)
    requires DistinctHashes(c) && RowsOk(c, rows) && Archived(c, rows, h) && p < |TxsAt(c, h)|
    ensures TxArchived(c, rows, h, p)
  {
    var i := TxPutsHave(c, h, |TxsAt(c, h)|, p);
    assert Core(c, h)[3 + i] == BlobPut(c, RawAt(c, h, p)) && Core(c, h)[3 + i + 1] == TxRow(c, h, p);
    assert Right(c, BlobKey(c.sha(RawAt(c, h, p))), rows[BlobKey(c.sha(RawAt(c, h, p)))]);
    var k := TxRow(c, h, p).key;
    assert Right(c, k, rows[k]);
    assert TxHashAt(c, h, rows[k].position) == TxHashAt(c, h, p);
    SystemMeans(RawAt(c, h, p));
  }

  lemma ArchivedIsFull(c: Chain, rows: Rows, h: nat)
    requires DistinctHashes(c) && RowsOk(c, rows) && Archived(c, rows, h)
    ensures FullyArchived(c, rows, h)
  {
    var core := Core(c, h);
    assert core[0].key in rows && core[1].key in rows && core[2].key in rows;
    assert Right(c, core[0].key, rows[core[0].key]) && Right(c, core[1].key, rows[core[1].key]) && Right(c, core[2].key, rows[core[2].key]);
    forall p | 0 <= p < |c.indexer(h).txs| ensures TxArchived(c, rows, h, p) { TxIsArchived(c, rows, h, p); }
    forall hash, txHash | TxKey(h, hash, txHash) in rows
      ensures hash == NoPrefix(c.node(h).hash) && exists p :: 0 <= p < |c.indexer(h).txs| && NoPrefix(c.indexer(h).txs[p].hash) == txHash
    {
      var k := TxKey(h, hash, txHash);
      assert Right(c, k, rows[k]) && NoPrefix(c.indexer(h).txs[rows[k].position].hash) == txHash;
    }
  }

  /** In every reachable state a watermark of h means that every block 0..h is archived in full. */
  lemma WatermarkMeansArchived(chain: Chain, run: seq<State>, i: nat, h: nat)
    requires DistinctHashes(chain) && IsRun(chain, run) && i < |run|
    requires run[i].mark.Some? && h <= run[i].mark.value
    ensures FullyArchived(chain, run[i].rows, h)
  {
    RunKeepsInv(chain, run, i);
    assert Archived(chain, run[i].rows, h);
    ArchivedIsFull(chain, run[i].rows, h);
  }

  /** If any row of a height can be seen, so can all of them. */
  lemma NoBlockIsPartial(chain: Chain, run: seq<State>, i: nat, k: RowKey)
    requires DistinctHashes(chain) && IsRun(chain, run) && i < |run| && k in run[i].rows && !k.BlobKey?
    ensures FullyArchived(chain, run[i].rows, k.height)
  {
    RunKeepsInv(chain, run, i);
    ArchivedIsFull(chain, run[i].rows, k.height);
  }

  ghost predicate Extends(rows: Rows, rows': Rows) {
    forall k :: k in rows ==> k in rows' && rows'[k] == rows[k]
  }

  ghost predicate NotLower(mark: Option<nat>, mark': Option<nat>) {
    mark.Some? ==> mark'.Some? && mark'.value >= mark.value
  }

  lemma StepOnlyAdds(chain: Chain, s: State, s': State)
    requires Inv(chain, s) && Next(chain, s, s')
    ensures Extends(s.rows, s'.rows) && NotLower(s.mark, s'.mark)
  {
    var step :| NextBy(chain, s, step, s');
    if step.Commit? {
      assert CallOk(chain, s.rows, s.calls[step.c]);
    }
  }

  /** Over a whole run no stored row is rewritten or removed, and the watermark never falls. */
  lemma {:induction false} ArchiveOnlyGrows(chain: Chain, run: seq<State>, i: nat, j: nat)
    requires DistinctHashes(chain) && IsRun(chain, run) && i <= j < |run|
    ensures Extends(run[i].rows, run[j].rows) && NotLower(run[i].mark, run[j].mark)
    decreases j
  {
    if i < j {
      ArchiveOnlyGrows(chain, run, i, j - 1);
      RunKeepsInv(chain, run, j - 1);
      assert StepAt(chain, run, j - 1);
      StepOnlyAdds(chain, run[j - 1], run[j]);
    }
  }
}
