/**
 * Concurrent `save`, `saveAndAdvance` and `prune` over one database, as a state machine.
 *
 * The committed database is the last element of `wal`, the list of committed states; a crash may
 * fall back to any earlier one. Each open transaction carries its own uncommitted writes, and what
 * it has written is what it has locked until it ends. A statement that would wait for a lock is a
 * step that is not enabled yet. Statements run at READ COMMITTED: what they read is read when the
 * step happens, and the reclaim's candidate list is the statement snapshot whose rows are looked
 * at again once each row lock is granted.
 */
module CheckpointProtocol {
  import opened Chunking

  type Wallet = string  // one (walletId, networkId) pair
  type Tid = nat

  const GRACE: int := 900  // seconds: interval '15 minutes'

  // ----- committed tables ---------------------------------------------------------------------

  datatype ChunkRow = ChunkRow(data: Bytes, createdAt: int)
  datatype Manifest = Manifest(wallet: Wallet, seqNo: nat, hash: Bytes)
  datatype Slot = Slot(manifest: nat, position: nat)
  datatype Cursor = Cursor(key: string, value: int)

  /** One committed save. `log` is history: no step looks at it to decide anything. */
  datatype Saved = Saved(wallet: Wallet, seqNo: nat, manifest: nat, chunks: seq<Bytes>, cursor: Option<Cursor>)

  datatype Db = Db(
    chunks: map<Bytes, ChunkRow>,      // ckpt_chunks
    manifests: map<nat, Manifest>,     // ckpt_manifests, all of them complete
    junction: map<Slot, Bytes>,        // ckpt_manifest_chunks
    nextSeq: map<Wallet, nat>,         // ckpt_sequence_counters
    cursors: map<string, int>,         // watermarks
    log: seq<Saved>)

  const EMPTY: Db := Db(map[], map[], map[], map[], map[], [])

  // ----- open transactions --------------------------------------------------------------------

  datatype PrunePhase = Fresh | Deleting | Deleted | Reclaiming | Checked

  datatype Tx =
    | Save(start: int, wallet: Wallet, chunks: seq<Bytes>, cursor: Option<Cursor>,
           upserted: map<Bytes, ChunkRow>, seqNo: nat, manifest: Option<nat>, rows: nat, cursorSet: bool)
    | Prune(start: int, wallet: Wallet, retain: nat, phase: PrunePhase, threshold: nat,
            doomed: set<nat>, candidates: set<Bytes>, reclaimed: set<Bytes>)

  datatype State = State(wal: seq<Db>, txs: map<Tid, Tx>)

  function Committed(s: State): Db
    requires |s.wal| > 0
  {
    s.wal[|s.wal| - 1]
  }

  /** Rows of ckpt_chunks that the transaction has written and therefore locked. */
  function ChunkLocks(tx: Tx): set<Bytes> {
    match tx
    case Save(_, _, _, _, upserted, _, _, _, _) => upserted.Keys
    case Prune(_, _, _, _, _, _, _, reclaimed) => reclaimed
  }

  ghost predicate ChunkFree(s: State, t: Tid, h: Bytes) {
    forall u :: u in s.txs && u != t ==> h !in ChunkLocks(s.txs[u])
  }

  /** Nobody else holds the sequence-counter row of this wallet. */
  ghost predicate CounterFree(s: State, t: Tid, w: Wallet) {
    forall u :: u in s.txs && u != t && s.txs[u].Save? && s.txs[u].wallet == w ==> s.txs[u].seqNo == 0
  }

  ghost predicate CursorFree(s: State, t: Tid, key: string) {
    forall u :: u in s.txs && u != t && s.txs[u].Save? && s.txs[u].cursorSet ==>
      s.txs[u].cursor.Some? ==> s.txs[u].cursor.value.key != key
  }

  /** bigserial: an id no committed save and no open transaction has had. */
  ghost predicate ManifestIdFree(s: State, id: nat)
    requires |s.wal| > 0
  {
    && (forall i :: 0 <= i < |Committed(s).log| ==> Committed(s).log[i].manifest != id)
    && (forall u :: u in s.txs && s.txs[u].Save? ==> s.txs[u].manifest != Some(id))
  }

  ghost predicate DoomFree(s: State, t: Tid, id: nat) {
    forall u :: u in s.txs && u != t && s.txs[u].Prune? ==> id !in s.txs[u].doomed
  }

  // ----- statement effects --------------------------------------------------------------------

  /** INSERT ... ON CONFLICT (hash) DO UPDATE SET created_at = now(). */
  function Upsert(db: Db, c: Bytes, h: Bytes, now: int): ChunkRow {
    if h in db.chunks then db.chunks[h].(createdAt := now) else ChunkRow(c, now)
  }

  /** INSERT (next_seq 2) or next_seq + 1, RETURNING next_seq - 1. */
  function ClaimedSeq(db: Db, w: Wallet): nat {
    if w in db.nextSeq then db.nextSeq[w] else 1
  }

  function SeqsOf(db: Db, w: Wallet): set<nat> {
    set id | id in db.manifests && db.manifests[id].wallet == w :: db.manifests[id].seqNo
  }

  /** SELECT seq ... ORDER BY seq DESC OFFSET retain - 1 LIMIT 1; 0 stands for NULL, below which
      no sequence number lies. */
  ghost predicate NthNewest(db: Db, w: Wallet, retain: nat, threshold: nat) {
    if |SeqsOf(db, w)| < retain then threshold == 0
    else threshold in SeqsOf(db, w) && |AtLeast(SeqsOf(db, w), threshold)| == retain
  }

  function AtLeast(seqs: set<nat>, threshold: nat): set<nat> {
    set x | x in seqs && x >= threshold
  }

  ghost predicate Expired(db: Db, p: Tx, id: nat)
    requires p.Prune?
  {
    id in db.manifests && db.manifests[id].wallet == p.wallet && db.manifests[id].seqNo < p.threshold
  }

  ghost predicate Aged(db: Db, p: Tx, h: Bytes) {
    h in db.chunks && db.chunks[h].createdAt < p.start - GRACE
  }

  /** A junction row this transaction sees that references h (its own cascade is already gone). */
  ghost predicate Referenced(db: Db, p: Tx, h: Bytes)
    requires p.Prune?
  {
    exists slot :: slot in db.junction && slot.manifest !in p.doomed && db.junction[slot] == h
  }

  /** What the reclaim's snapshot selects. */
  ghost function Reclaimable(db: Db, p: Tx): set<Bytes>
    requires p.Prune?
  {
    set h | h in db.chunks && Aged(db, p, h) && !Referenced(db, p, h)
  }

  /** The foreign-key check at the end of the reclaim statement. */
  ghost predicate ForeignKeyHolds(db: Db, p: Tx)
    requires p.Prune?
  {
    forall slot :: slot in db.junction && slot.manifest !in p.doomed ==> db.junction[slot] !in p.reclaimed
  }

  function Rows(sha: Sha, id: nat, chunks: seq<Bytes>): map<Slot, Bytes> {
    map p | 0 <= p < |chunks| :: Slot(id, p) := sha(chunks[p])
  }

  function SaveCommitted(sha: Sha, db: Db, tx: Tx): Db
    requires tx.Save? && tx.manifest.Some?
  {
    Db(db.chunks + tx.upserted,
       db.manifests[tx.manifest.value := Manifest(tx.wallet, tx.seqNo, sha(Flatten(Hashes(sha, tx.chunks))))],
       db.junction + Rows(sha, tx.manifest.value, tx.chunks),
       db.nextSeq[tx.wallet := tx.seqNo + 1],
       if tx.cursor.Some? then db.cursors[tx.cursor.value.key := tx.cursor.value.value] else db.cursors,
       db.log + [Saved(tx.wallet, tx.seqNo, tx.manifest.value, tx.chunks, tx.cursor)])
  }

  function PruneCommitted(db: Db, tx: Tx): Db
    requires tx.Prune?
  {
    db.(manifests := db.manifests - tx.doomed,
        junction := map slot | slot in db.junction && slot.manifest !in tx.doomed :: db.junction[slot],
        chunks := db.chunks - tx.reclaimed)
  }

  // ----- steps --------------------------------------------------------------------------------

  datatype Step =
    | BeginSave(start: int, wallet: Wallet, payload: seq<Bytes>, cursor: Option<Cursor>)
    | BeginPrune(start: int, wallet: Wallet, retain: nat)
    | UpsertChunk(chunk: Bytes)
    | ClaimSequence
    | InsertManifest(id: nat)
    | InsertJunctionRow
    | SetCursor
    | CommitSave
    | SelectThreshold(threshold: nat)
    | DeleteManifest(id: nat)
    | DeleteDone
    | ReclaimSnapshot
    | ReclaimChunk(hash: Bytes)
    | ForeignKeyCheck
    | CommitPrune
    | Abort
    | Crash(keep: nat)

  ghost predicate Begins(s: State, s': State, t: Tid, tx: Tx) {
    t !in s.txs && s' == s.(txs := s.txs[t := tx])
  }

  /** The transaction's own bookkeeping changes; nothing committed does. */
  ghost predicate Works(s: State, s': State, t: Tid, tx: Tx) {
    s' == s.(txs := s.txs[t := tx])
  }

  ghost predicate Ends(s: State, s': State, t: Tid, db: Db) {
    s' == State(s.wal + [db], s.txs - {t})
  }

  ghost predicate SaveStep(sha: Sha, s: State, t: Tid, step: Step, s': State)
    requires |s.wal| > 0 && t in s.txs && s.txs[t].Save?
  {
    var db, tx := Committed(s), s.txs[t];
    match step
    case UpsertChunk(c) =>
      && tx.seqNo == 0 && c in tx.chunks && sha(c) !in tx.upserted && ChunkFree(s, t, sha(c))
      && Works(s, s', t, tx.(upserted := tx.upserted[sha(c) := Upsert(db, c, sha(c), tx.start)]))
    case ClaimSequence =>
      && tx.seqNo == 0 && (forall c :: c in tx.chunks ==> sha(c) in tx.upserted) && CounterFree(s, t, tx.wallet)
      && Works(s, s', t, tx.(seqNo := ClaimedSeq(db, tx.wallet)))
    case InsertManifest(id) =>
      && tx.seqNo > 0 && tx.manifest.None? && ManifestIdFree(s, id)
      && Works(s, s', t, tx.(manifest := Some(id)))
    case InsertJunctionRow =>
      && tx.manifest.Some? && tx.rows < |tx.chunks|
      && Works(s, s', t, tx.(rows := tx.rows + 1))
    case SetCursor =>
      && tx.manifest.Some? && tx.rows == |tx.chunks| && tx.cursor.Some? && !tx.cursorSet
      && CursorFree(s, t, tx.cursor.value.key)
      && Works(s, s', t, tx.(cursorSet := true))
    case CommitSave =>
      && tx.manifest.Some? && tx.rows == |tx.chunks| && (tx.cursor.Some? ==> tx.cursorSet)
      && Ends(s, s', t, SaveCommitted(sha, db, tx))
    case _ => false
  }

  ghost predicate PruneStep(s: State, t: Tid, step: Step, s': State)
    requires |s.wal| > 0 && t in s.txs && s.txs[t].Prune?
  {
    var db, tx := Committed(s), s.txs[t];
    match step
    case SelectThreshold(x) =>
      && tx.phase == Fresh && NthNewest(db, tx.wallet, tx.retain, x)
      && Works(s, s', t, tx.(phase := Deleting, threshold := x))
    case DeleteManifest(id) =>
      && tx.phase == Deleting && Expired(db, tx, id) && DoomFree(s, t, id)
      && Works(s, s', t, tx.(doomed := tx.doomed + {id}))
    case DeleteDone =>
      && tx.phase == Deleting && (forall id :: Expired(db, tx, id) ==> id in tx.doomed)
      && Works(s, s', t, tx.(phase := Deleted))
    case ReclaimSnapshot =>
      && tx.phase == Deleted
      && Works(s, s', t, tx.(phase := Reclaiming,
           candidates := Reclaimable(db, tx)))
    case ReclaimChunk(h) =>
      && tx.phase == Reclaiming && h in tx.candidates && Aged(db, tx, h) && ChunkFree(s, t, h)
      && Works(s, s', t, tx.(reclaimed := tx.reclaimed + {h}))
    case ForeignKeyCheck =>
      && tx.phase == Reclaiming && ForeignKeyHolds(db, tx)
      && Works(s, s', t, tx.(phase := Checked))
    case CommitPrune =>
      && tx.phase == Checked
      && Ends(s, s', t, PruneCommitted(db, tx))
    case _ => false
  }

  ghost predicate NextBy(sha: Sha, s: State, t: Tid, step: Step, s': State) {
    && |s.wal| > 0
    && match step
       case BeginSave(start, w, payload, cursor) =>
         Begins(s, s', t, Save(start, w, payload, cursor, map[], 0, None, 0, false))
       case BeginPrune(start, w, retain) =>
         retain >= 1 && Begins(s, s', t, Prune(start, w, retain, Fresh, 0, {}, {}, {}))
       case Abort => t in s.txs && s' == s.(txs := s.txs - {t})
       case Crash(keep) => 0 < keep <= |s.wal| && s' == State(s.wal[..keep], map[])
       case _ => t in s.txs && (if s.txs[t].Save? then SaveStep(sha, s, t, step, s') else PruneStep(s, t, step, s'))
  }

  ghost predicate Next(sha: Sha, s: State, s': State) {
    exists t, step :: NextBy(sha, s, t, step, s')
  }

  ghost predicate IsRun(sha: Sha, run: seq<State>) {
    && |run| > 0
    && run[0] == State([EMPTY], map[])
    && forall i :: 0 <= i < |run| - 1 ==> StepAt(sha, run, i)
  }

  ghost predicate StepAt(sha: Sha, run: seq<State>, i: nat)
    requires i < |run| - 1
  {
    Next(sha, run[i], run[i + 1])
  }

  // ----- what every committed state satisfies ---------------------------------------------------

  function Count(log: seq<Saved>, w: Wallet): nat {
    if log == [] then 0 else Count(log[..|log| - 1], w) + if log[|log| - 1].wallet == w then 1 else 0
  }

  /** Committed save i is still stored, with dense positions 0..n-1 and the hashes of its chunks. */
  ghost predicate Stored(sha: Sha, db: Db, i: nat)
    requires i < |db.log|
  {
    var e := db.log[i];
    && e.manifest in db.manifests
    && db.manifests[e.manifest] == Manifest(e.wallet, e.seqNo, sha(Flatten(Hashes(sha, e.chunks))))
    && (forall p: nat :: Slot(e.manifest, p) in db.junction <==> p < |e.chunks|)
    && (forall p :: 0 <= p < |e.chunks| ==> db.junction[Slot(e.manifest, p)] == sha(e.chunks[p]))
  }

  ghost predicate ChunksSound(sha: Sha, db: Db) {
    && (forall h :: h in db.chunks ==> sha(db.chunks[h].data) == h)
    && (forall slot :: slot in db.junction ==> slot.manifest in db.manifests && db.junction[slot] in db.chunks)
  }

  ghost predicate ManifestsSound(sha: Sha, db: Db) {
    && (forall id :: id in db.manifests ==> exists i :: 0 <= i < |db.log| && db.log[i].manifest == id)
    && (forall i :: 0 <= i < |db.log| && db.log[i].manifest in db.manifests ==> Stored(sha, db, i))
    && (forall i, j :: 0 <= i < j < |db.log| ==> db.log[i].manifest != db.log[j].manifest)
  }

  /** Committed saves of a wallet are numbered 1, 2, 3, ... in commit order. */
  ghost predicate SequencesSound(db: Db) {
    && (forall i :: 0 <= i < |db.log| ==> db.log[i].seqNo == Count(db.log[..i], db.log[i].wallet) + 1)
    && (forall w :: w in db.nextSeq <==> Count(db.log, w) > 0)
    && (forall w :: w in db.nextSeq ==> db.nextSeq[w] == Count(db.log, w) + 1)
  }

  predicate NoNewer(a: Saved, b: Saved) {
    a.wallet == b.wallet && a.seqNo <= b.seqNo
  }

  /** Only the oldest checkpoints of a wallet are ever missing, never the newest. */
  ghost predicate RetentionSound(db: Db) {
    && (forall i, j :: 0 <= i < |db.log| && 0 <= j < |db.log| && NoNewer(db.log[i], db.log[j]) ==>
         db.log[i].manifest in db.manifests ==> db.log[j].manifest in db.manifests)
    && (forall i :: 0 <= i < |db.log| && db.log[i].seqNo == Count(db.log, db.log[i].wallet) ==>
         db.log[i].manifest in db.manifests)
  }

  ghost predicate DbSound(sha: Sha, db: Db) {
    ChunksSound(sha, db) && ManifestsSound(sha, db) && SequencesSound(db) && RetentionSound(db)
  }

  ghost predicate SaveSound(sha: Sha, db: Db, tx: Tx)
    requires tx.Save?
  {
    && (forall h :: h in tx.upserted ==> sha(tx.upserted[h].data) == h && tx.upserted[h].createdAt == tx.start)
    && (tx.seqNo > 0 ==>
         && tx.seqNo == Count(db.log, tx.wallet) + 1
         && forall c :: c in tx.chunks ==> sha(c) in tx.upserted)
    && (tx.manifest.Some? ==>
         && tx.seqNo > 0
         && forall i :: 0 <= i < |db.log| ==> db.log[i].manifest != tx.manifest.value)
    && (tx.cursorSet ==> tx.manifest.Some?)
  }

  ghost predicate PruneSound(db: Db, tx: Tx)
    requires tx.Prune?
  {
    && tx.threshold <= Count(db.log, tx.wallet)
    && (tx.phase == Fresh ==> tx.doomed == {})
    && (forall id :: id in tx.doomed ==> Expired(db, tx, id))
    && (tx.phase !in {Fresh, Deleting} ==> forall id :: Expired(db, tx, id) ==> id in tx.doomed)
    && (tx.phase == Checked ==> ForeignKeyHolds(db, tx))
  }

  ghost predicate TxSound(sha: Sha, db: Db, tx: Tx) {
    if tx.Save? then SaveSound(sha, db, tx) else PruneSound(db, tx)
  }

  ghost predicate Apart(a: Tx, b: Tx) {
    && ChunkLocks(a) !! ChunkLocks(b)
    && (a.Save? && b.Save? && a.seqNo > 0 && b.seqNo > 0 ==> a.wallet != b.wallet)
    && (a.Save? && b.Save? && a.manifest.Some? ==> a.manifest != b.manifest)
    && (a.Prune? && b.Prune? ==> a.doomed !! b.doomed)
  }

  ghost predicate WalSound(sha: Sha, wal: seq<Db>) {
    |wal| > 0 && forall k :: 0 <= k < |wal| ==> DbSound(sha, wal[k])
  }

  ghost predicate TxsSound(sha: Sha, db: Db, txs: map<Tid, Tx>) {
    forall t :: t in txs ==> TxSound(sha, db, txs[t])
  }

  ghost predicate LocksSound(txs: map<Tid, Tx>) {
    forall t, u :: t in txs && u in txs && t != u ==> Apart(txs[t], txs[u])
  }

  ghost predicate Inv(sha: Sha, s: State) {
    WalSound(sha, s.wal) && TxsSound(sha, Committed(s), s.txs) && LocksSound(s.txs)
  }
}
