/**
 * The write path of `PgTransactionHistoryStorage`: advisory lock, locking read, merge, upsert and
 * the clearing of superseded pending rows, interleaved over any number of transactions, each of
 * which may write any number of entries before it commits.
 *
 * `log` is a history variable: the writes and clears of the committed transactions, in commit
 * order. Nothing the protocol does depends on it, except that it tells which rows were changed
 * while a DELETE was waiting.
 */
module TxHistory {
  import opened Chunking
  import opened HistoryCodec

  datatype Key = Key(wallet: string, hash: string)
  datatype Row = Row(entry: StoredEntry, identifiers: seq<string>, lifecycle: Lifecycle)

  /** The injected merge function (None: it threw), the date formatter and `hashtext(wallet:hash)`. */
  datatype Env = Env(iso: Iso, parse: Parse, merge: (Entry, Entry) -> Option<Entry>, lockKey: Key -> int)

  function RowOf(env: Env, e: Entry): Row { Row(EncodeEntry(env.iso, e), e.identifiers, e.lifecycle) }

  function ReadRow(env: Env, k: Key, row: Row): Option<Entry> {
    DecodeRow(env.iso, env.parse, k.hash, row.identifiers, row.entry)
  }

  /** The merge result `writeRows` accepts: same hash, and valid. */
  function Accept(env: Env, existing: Entry, entry: Entry): Option<Entry> {
    match env.merge(existing, entry)
    case None => None
    case Some(m) => if m.hash != entry.hash || !ValidEntry(m) then None else Some(m)
  }

  /** What a write persists over what it found: a first write verbatim, a later one merged. */
  function Result(env: Env, existing: Option<Entry>, entry: Entry): Option<Entry> {
    match existing
    case None => Some(entry)
    case Some(e) => Accept(env, e, entry)
  }

  function Elements(ids: seq<string>): set<string> { set i | 0 <= i < |ids| :: ids[i] }

  predicate Settles(lifecycle: Lifecycle, ids: seq<string>) { !lifecycle.Pending? && |ids| > 0 }

  /** The WHERE clause of the clearing DELETE. */
  predicate Superseded(k: Key, lifecycle: Lifecycle, ids: seq<string>, cause: Key, causeIds: seq<string>) {
    && k.wallet == cause.wallet && k.hash != cause.hash
    && lifecycle.Pending? && |ids| > 0 && Elements(ids) <= Elements(causeIds)
  }

  // ----- the events of a run, and what they mean --------------------------------------------------

  datatype Event = Wrote(key: Key, entry: Entry) | Cleared(key: Key, cause: Key)

  type Table = map<Key, Entry>

  function Lookup(m: Table, k: Key): Option<Entry> { if k in m then Some(m[k]) else None }

  predicate LegalEvent(env: Env, m: Table, e: Event) {
    match e
    case Wrote(k, entry) => entry.hash == k.hash && ValidEntry(entry) && Result(env, Lookup(m, k), entry).Some?
    case Cleared(k, cause) =>
      && k in m && cause in m && Settles(m[cause].lifecycle, m[cause].identifiers)
      && Superseded(k, m[k].lifecycle, m[k].identifiers, cause, m[cause].identifiers)
  }

  function Apply(env: Env, m: Table, e: Event): Table {
    match e
    case Wrote(k, entry) =>
      var result := Result(env, Lookup(m, k), entry);
      if result.Some? then m[k := result.value] else m
    case Cleared(k, _) => m - {k}
  }

  function Replay(env: Env, m: Table, events: seq<Event>): Table {
    if events == [] then m else Apply(env, Replay(env, m, events[..|events| - 1]), events[|events| - 1])
  }

  ghost predicate Legal(env: Env, m: Table, events: seq<Event>) {
    forall i :: 0 <= i < |events| ==> LegalEvent(env, Replay(env, m, events[..i]), events[i])
  }

  function Touched(events: seq<Event>): set<Key> { set i | 0 <= i < |events| :: events[i].key }

  // ----- transactions ---------------------------------------------------------------------------

  /** Where a transaction stands inside `writeRows`. `since` is the length of the log when the
      DELETE took its snapshot; `todo` the rows of the snapshot it has not reached yet. */
  datatype Pc =
    | Idle
    | Locked(key: Key, entry: Entry)
    | Got(key: Key, entry: Entry, existing: Option<Entry>)
    | Sweep(key: Key, result: Entry)
    | Clearing(key: Key, result: Entry, since: nat, todo: set<Key>)

  datatype Tx = Tx(pc: Pc, advisory: set<int>, held: set<Key>, overlay: map<Key, Option<Row>>, events: seq<Event>)
  datatype State = State(rows: map<Key, Row>, log: seq<Event>, txs: map<nat, Tx>)

  /** The row a transaction sees: its own write, or else the committed one. */
  function View(rows: map<Key, Row>, tx: Tx, k: Key): Option<Row> {
    if k in tx.overlay then tx.overlay[k] else if k in rows then Some(rows[k]) else None
  }

  function Patch(rows: map<Key, Row>, overlay: map<Key, Option<Row>>): map<Key, Row> {
    map k | k in rows.Keys + overlay.Keys && (k in overlay ==> overlay[k].Some?) ::
      if k in overlay then overlay[k].value else rows[k]
  }

  predicate RowSuperseded(view: Option<Row>, k: Key, cause: Key, result: Entry) {
    view.Some? && Superseded(k, view.value.lifecycle, view.value.identifiers, cause, result.identifiers)
  }

  ghost predicate AdvisoryFree(s: State, t: nat, id: int) {
    forall u :: u in s.txs && u != t ==> id !in s.txs[u].advisory
  }

  ghost predicate RowFree(s: State, t: nat, k: Key) {
    forall u :: u in s.txs && u != t ==> k !in s.txs[u].held
  }

  datatype Step =
    | Begin(t: nat)
    | Lock(t: nat, key: Key, entry: Entry)
    | Read(t: nat)
    | Upsert(t: nat)
    | ClearBegin(t: nat)
    | ClearRow(t: nat, k: Key, skip: bool)
    | ClearEnd(t: nat)
    | Commit(t: nat)
    | Abort(t: nat)
    | Crash

  function AfterRead(env: Env, rows: map<Key, Row>, tx: Tx): Tx
    requires tx.pc.Locked?
  {
    var Locked(key, entry) := tx.pc;
    match View(rows, tx, key)
    case None => tx.(pc := Got(key, entry, None))
    case Some(row) =>
      var found := ReadRow(env, key, row);
      tx.(held := tx.held + {key}, pc := if found.Some? then Got(key, entry, found) else Idle)
  }

  /** A merge that throws, changes the hash or gives an invalid entry ends the write with no trace
      but its locks. */
  function AfterUpsert(env: Env, tx: Tx): Tx
    requires tx.pc.Got?
  {
    var Got(key, entry, existing) := tx.pc;
    match Result(env, existing, entry)
    case None => tx.(pc := Idle)
    case Some(result) =>
      tx.(held := tx.held + {key}, overlay := tx.overlay[key := Some(RowOf(env, result))],
          events := tx.events + [Wrote(key, entry)],
          pc := if Settles(result.lifecycle, result.identifiers) then Sweep(key, result) else Idle)
  }

  ghost function AfterClearBegin(s: State, tx: Tx): Tx
    requires tx.pc.Sweep?
  {
    tx.(pc := Clearing(tx.pc.key, tx.pc.result, |s.log|,
                       set k | k in s.rows.Keys + tx.overlay.Keys && RowSuperseded(View(s.rows, tx, k), k, tx.pc.key, tx.pc.result)))
  }

  /** The condition is evaluated again on the row version found once the row lock is free. */
  function AfterClearRow(rows: map<Key, Row>, tx: Tx, k: Key, skip: bool): Tx
    requires tx.pc.Clearing?
  {
    var next := tx.(pc := tx.pc.(todo := tx.pc.todo - {k}));
    if !skip && RowSuperseded(View(rows, tx, k), k, tx.pc.key, tx.pc.result) then
      next.(held := tx.held + {k}, overlay := tx.overlay[k := None], events := tx.events + [Cleared(k, tx.pc.key)])
    else next
  }

  ghost predicate NextBy(env: Env, s: State, step: Step, s': State) {
    match step
    case Begin(t) => t !in s.txs && s' == s.(txs := s.txs[t := Tx(Idle, {}, {}, map[], [])])
    case Lock(t, key, entry) =>
      && t in s.txs && s.txs[t].pc.Idle? && entry.hash == key.hash && ValidEntry(entry)
      && AdvisoryFree(s, t, env.lockKey(key))
      && s' == s.(txs := s.txs[t := s.txs[t].(pc := Locked(key, entry), advisory := s.txs[t].advisory + {env.lockKey(key)})])
    case Read(t) =>
      && t in s.txs && s.txs[t].pc.Locked? && RowFree(s, t, s.txs[t].pc.key)
      && s' == s.(txs := s.txs[t := AfterRead(env, s.rows, s.txs[t])])
    case Upsert(t) =>
      && t in s.txs && s.txs[t].pc.Got? && RowFree(s, t, s.txs[t].pc.key)
      && s' == s.(txs := s.txs[t := AfterUpsert(env, s.txs[t])])
    case ClearBegin(t) =>
      && t in s.txs && s.txs[t].pc.Sweep?
      && s' == s.(txs := s.txs[t := AfterClearBegin(s, s.txs[t])])
    case ClearRow(t, k, skip) =>
      && t in s.txs && s.txs[t].pc.Clearing? && k in s.txs[t].pc.todo && RowFree(s, t, k)
      // only a row changed by a commit since the snapshot may be passed over unexamined
      && (skip ==> s.txs[t].pc.since <= |s.log| && k in Touched(s.log[s.txs[t].pc.since..]))
      && s' == s.(txs := s.txs[t := AfterClearRow(s.rows, s.txs[t], k, skip)])
    case ClearEnd(t) =>
      && t in s.txs && s.txs[t].pc.Clearing? && s.txs[t].pc.todo == {}
      && s' == s.(txs := s.txs[t := s.txs[t].(pc := Idle)])
    case Commit(t) =>
      && t in s.txs && s.txs[t].pc.Idle?
      && s' == State(Patch(s.rows, s.txs[t].overlay), s.log + s.txs[t].events, s.txs - {t})
    case Abort(t) => t in s.txs && s' == s.(txs := s.txs - {t})
    case Crash => s' == s.(txs := map[])
  }

  ghost predicate Next(env: Env, s: State, s': State) { exists step :: NextBy(env, s, step, s') }

  ghost predicate IsRun(env: Env, run: seq<State>) {
    && |run| > 0 && run[0] == State(map[], [], map[])
    && forall i :: 0 <= i < |run| - 1 ==> Next(env, run[i], run[i + 1])
  }
}
