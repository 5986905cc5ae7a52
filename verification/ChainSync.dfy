/**
 * The finalized-chain sync: `syncOnce` calls of any number of service instances, overlapping in any
 * way, each ingesting heights one after the other, with failures between any two awaits.
 *
 * One network is modelled. The node and the indexer are functions of height. All rows of the
 * archive live in one map from row keys to row values; every insert is "do nothing on conflict"
 * and waits for another transaction that has the same key in flight.
 */
module ChainSync {
  import opened Chunking

  datatype NodeBlock = NodeBlock(hash: string, parent: string, stateRoot: string, extrinsicsRoot: string,
                                 header: Bytes, body: Bytes, extrinsics: seq<string>)
  datatype IndexerTx = IndexerTx(hash: string, raw: string, version: nat)
  datatype IndexerBlock = IndexerBlock(hash: string, txs: seq<IndexerTx>, dParameter: Bytes)

  /** `dParameter` is the JSON text of the D-parameter, as bytes; `unhex` is Buffer.from(_, "hex"). */
  datatype Chain = Chain(node: nat -> NodeBlock, indexer: nat -> IndexerBlock, unhex: string -> Bytes, sha: Sha)

  // ----- rows -----------------------------------------------------------------------------------

  datatype RowKey =
    | BlobKey(sha: Bytes)
    | BlockKey(height: nat, hash: string)
    | TxKey(height: nat, hash: string, txHash: string)
    | SlotKey(height: nat, hash: string, position: nat)   // UNIQUE (net, block_height, block_hash, position)
    | ObsKey(height: nat, hash: string, index: nat)

  datatype RowVal =
    | BlobVal(data: Bytes)
    | BlockVal(parent: string, stateRoot: string, extrinsicsRoot: string, headerBlob: Bytes, bodyBlob: Bytes,
               canonical: bool, status: string, finalized: bool)
    | TxVal(txHash: string, position: nat, kind: string, version: nat, rawBlob: Bytes)
    | ObsVal(kind: string, rawBlob: Bytes)

  type Rows = map<RowKey, RowVal>

  /** The blobs a row's foreign keys name. */
  function References(v: RowVal): set<Bytes> {
    match v
    case BlobVal(_) => {}
    case BlockVal(_, _, _, header, body, _, _, _) => {header, body}
    case TxVal(_, _, _, _, raw) => {raw}
    case ObsVal(_, raw) => {raw}
  }

  function NoPrefix(hex: string): string { if |hex| >= 2 && hex[..2] == "0x" then hex[2..] else hex }

  function TagBytes(text: string): Bytes { seq(|text|, i requires 0 <= i < |text| => text[i] as int % 256) }

  const SYSTEM_TX_TAG := TagBytes("midnight:system-transaction")

  predicate IsSystem(raw: Bytes) { SYSTEM_TX_TAG <= raw }

  predicate OccursAt(text: string, part: string, i: nat) { i + |part| <= |text| && text[i..i + |part|] == part }

  predicate Contains(text: string, part: string) { exists i :: 0 <= i <= |text| && OccursAt(text, part, i) }

  function HashAt(c: Chain, h: nat): string { NoPrefix(c.node(h).hash) }
  function TxsAt(c: Chain, h: nat): seq<IndexerTx> { c.indexer(h).txs }
  function TxHashAt(c: Chain, h: nat, p: nat): string requires p < |TxsAt(c, h)| { NoPrefix(TxsAt(c, h)[p].hash) }
  function RawAt(c: Chain, h: nat, p: nat): Bytes requires p < |TxsAt(c, h)| { c.unhex(NoPrefix(TxsAt(c, h)[p].raw)) }
  function DParamAt(c: Chain, h: nat): Bytes { c.indexer(h).dParameter }

  function BlockValAt(c: Chain, h: nat): RowVal {
    var b := c.node(h);
    BlockVal(NoPrefix(b.parent), NoPrefix(b.stateRoot), NoPrefix(b.extrinsicsRoot), c.sha(b.header), c.sha(b.body), true, "canonical", true)
  }

  function TxValAt(c: Chain, h: nat, p: nat): RowVal
    requires p < |TxsAt(c, h)|
  {
    TxVal(TxHashAt(c, h, p), p, if IsSystem(RawAt(c, h, p)) then "system" else "regular", TxsAt(c, h)[p].version, c.sha(RawAt(c, h, p)))
  }

  function ObsValAt(c: Chain, h: nat): RowVal { ObsVal("system_parameters_d", c.sha(DParamAt(c, h))) }

  /** buildTransactionRecords does not throw: the block hashes agree, and the bytes of every regular
      transaction occur in one of the node's extrinsics. */
  predicate Builds(c: Chain, h: nat) {
    && NoPrefix(c.indexer(h).hash) == HashAt(c, h)
    && forall p :: 0 <= p < |TxsAt(c, h)| ==>
         IsSystem(RawAt(c, h, p))
         || exists e :: 0 <= e < |c.node(h).extrinsics| && Contains(NoPrefix(c.node(h).extrinsics[e]), NoPrefix(TxsAt(c, h)[p].raw))
  }

  // ----- inserts --------------------------------------------------------------------------------

  /** INSERT .. ON CONFLICT DO NOTHING of one row, with its second unique key if it has one. */
  datatype Put = Put(key: RowKey, val: RowVal, also: Option<RowKey>)

  function Entries(p: Put): Rows {
    match p.also
    case None => map[p.key := p.val]
    case Some(k) => map[p.key := p.val][k := p.val]
  }

  predicate Conflicts(rows: Rows, p: Put) { p.key in rows || (p.also.Some? && p.also.value in rows) }

  function Insert(rows: Rows, p: Put): Rows { if Conflicts(rows, p) then rows else rows + Entries(p) }

  function InsertAll(rows: Rows, puts: seq<Put>): Rows {
    if puts == [] then rows else Insert(InsertAll(rows, puts[..|puts| - 1]), puts[|puts| - 1])
  }

  function BlobPut(c: Chain, data: Bytes): Put { Put(BlobKey(c.sha(data)), BlobVal(data), None) }

  function BlockPuts(c: Chain, h: nat): seq<Put> {
    [BlobPut(c, c.node(h).header), BlobPut(c, c.node(h).body), Put(BlockKey(h, HashAt(c, h)), BlockValAt(c, h), None)]
  }

  function TxRow(c: Chain, h: nat, p: nat): Put
    requires p < |TxsAt(c, h)|
  {
    Put(TxKey(h, HashAt(c, h), TxHashAt(c, h, p)), TxValAt(c, h, p), Some(SlotKey(h, HashAt(c, h), p)))
  }

  function TxPuts(c: Chain, h: nat, n: nat): seq<Put>
    requires n <= |TxsAt(c, h)|
  {
    if n == 0 then [] else TxPuts(c, h, n - 1) + [BlobPut(c, RawAt(c, h, n - 1)), TxRow(c, h, n - 1)]
  }

  function ObsPuts(c: Chain, h: nat): seq<Put> {
    [BlobPut(c, DParamAt(c, h)), Put(ObsKey(h, HashAt(c, h), 0), ObsValAt(c, h), None)]
  }

  function Core(c: Chain, h: nat): seq<Put> { BlockPuts(c, h) + TxPuts(c, h, |TxsAt(c, h)|) }

  /** What putBlockBundle inserts, in order; the observation only if the D-parameter looks new. */
  function Bundle(c: Chain, h: nat, obs: bool): seq<Put> { if obs then Core(c, h) + ObsPuts(c, h) else Core(c, h) }

  // ----- the running system ---------------------------------------------------------------------

  datatype Pc =
    | Loop(next: nat, end: int)
    | Writing(height: nat, end: int, obs: bool, done: nat)  // putBlockBundle's transaction, `done` inserts made
    | Committed(height: nat, end: int, obs: bool)           // durable, not yet acknowledged
    | Marking(height: nat, end: int)                        // ingestOneBlock has returned

  datatype Call = Call(instance: nat, pc: Pc, overlay: Rows)

  /** `last` holds lastDParameterJson of each live instance. */
  datatype State = State(rows: Rows, mark: Option<nat>, last: map<nat, Option<Bytes>>, calls: map<nat, Call>)

  datatype Step =
    | Boot(i: nat)
    | Kill(i: nat)
    | Start(c: nat, i: nat, tip: int, maxBlocks: int)
    | Fetch(c: nat)
    | InsertRow(c: nat)
    | Commit(c: nat)
    | Ack(c: nat)
    | Mark(c: nat)
    | Return(c: nat)
    | Fail(c: nat)

  function StartHeight(mark: Option<nat>): nat { if mark.None? then 0 else mark.value + 1 }

  /** setWatermark's guard: a height is stored only over nothing or over a smaller one. */
  function Raise(mark: Option<nat>, h: nat): Option<nat> {
    if mark.None? || h > mark.value then Some(h) else mark
  }

  function Seen(rows: Rows, call: Call): Rows { rows + call.overlay }

  ghost predicate KeyFree(s: State, c: nat, k: RowKey) {
    forall d :: d in s.calls && d != c ==> k !in s.calls[d].overlay
  }

  ghost predicate MayInsert(s: State, c: nat, p: Put) {
    KeyFree(s, c, p.key) && (p.also.Some? ==> KeyFree(s, c, p.also.value))
  }

  function AfterInsert(rows: Rows, call: Call, p: Put): Call
    requires call.pc.Writing?
  {
    call.(pc := call.pc.(done := call.pc.done + 1),
          overlay := if Conflicts(Seen(rows, call), p) then call.overlay else call.overlay + Entries(p))
  }

  ghost predicate At(s: State, c: nat) { c in s.calls && s.calls[c].instance in s.last }

  ghost predicate InsertEffect(s: State, c: nat, puts: seq<Put>, s': State)
    requires c in s.calls && s.calls[c].pc.Writing?
  {
    && s.calls[c].pc.done < |puts| && MayInsert(s, c, puts[s.calls[c].pc.done])
    && s' == s.(calls := s.calls[c := AfterInsert(s.rows, s.calls[c], puts[s.calls[c].pc.done])])
  }

  ghost predicate NextBy(chain: Chain, s: State, step: Step, s': State) {
    match step
    case Boot(i) => i !in s.last && s' == s.(last := s.last[i := None])
    case Kill(i) =>
      && i in s.last
      && s' == s.(last := s.last - {i}, calls := map c | c in s.calls && s.calls[c].instance != i :: s.calls[c])
    case Start(c, i, tip, maxBlocks) =>
      && c !in s.calls && i in s.last
      && var from := StartHeight(s.mark);
         if from > tip then s' == s
         else s' == s.(calls := s.calls[c := Call(i, Loop(from, if tip < from + maxBlocks - 1 then tip else from + maxBlocks - 1), map[])])
    case Fetch(c) =>
      && At(s, c) && s.calls[c].pc.Loop? && s.calls[c].pc.next <= s.calls[c].pc.end && Builds(chain, s.calls[c].pc.next)
      && s' == s.(calls := s.calls[c := s.calls[c].(pc :=
           Writing(s.calls[c].pc.next, s.calls[c].pc.end, s.last[s.calls[c].instance] != Some(DParamAt(chain, s.calls[c].pc.next)), 0))])
    case InsertRow(c) =>
      At(s, c) && s.calls[c].pc.Writing? && InsertEffect(s, c, Bundle(chain, s.calls[c].pc.height, s.calls[c].pc.obs), s')
    case Commit(c) =>
      && At(s, c) && s.calls[c].pc.Writing? && s.calls[c].pc.done == |Bundle(chain, s.calls[c].pc.height, s.calls[c].pc.obs)|
      && s' == s.(rows := Seen(s.rows, s.calls[c]),
                  calls := s.calls[c := Call(s.calls[c].instance, Committed(s.calls[c].pc.height, s.calls[c].pc.end, s.calls[c].pc.obs), map[])])
    case Ack(c) =>
      && At(s, c) && s.calls[c].pc.Committed?
      && s' == s.(last := if s.calls[c].pc.obs then s.last[s.calls[c].instance := Some(DParamAt(chain, s.calls[c].pc.height))] else s.last,
                  calls := s.calls[c := s.calls[c].(pc := Marking(s.calls[c].pc.height, s.calls[c].pc.end))])
    case Mark(c) =>
      && At(s, c) && s.calls[c].pc.Marking?
      && s' == s.(mark := Raise(s.mark, s.calls[c].pc.height),
                  calls := s.calls[c := s.calls[c].(pc := Loop(s.calls[c].pc.height + 1, s.calls[c].pc.end))])
    case Return(c) =>
      c in s.calls && s.calls[c].pc.Loop? && s.calls[c].pc.next > s.calls[c].pc.end && s' == s.(calls := s.calls - {c})
    case Fail(c) => c in s.calls && s' == s.(calls := s.calls - {c})
  }

  ghost predicate Next(chain: Chain, s: State, s': State) { exists step :: NextBy(chain, s, step, s') }

  const EMPTY := State(map[], None, map[], map[])

  ghost predicate IsRun(chain: Chain, run: seq<State>) {
    && |run| > 0 && run[0] == EMPTY
    && forall i :: 0 <= i < |run| - 1 ==> StepAt(chain, run, i)
  }

  ghost predicate StepAt(chain: Chain, run: seq<State>, i: nat)
    requires i < |run| - 1
  {
    Next(chain, run[i], run[i + 1])
  }

  /** Transaction hashes are distinct within a block. */
  ghost predicate DistinctHashes(c: Chain) {
    forall h: nat, p: nat, q: nat :: p < |TxsAt(c, h)| && q < |TxsAt(c, h)| && TxHashAt(c, h, p) == TxHashAt(c, h, q) ==> p == q
  }
}
