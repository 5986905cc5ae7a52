/**
 * Concurrent writers of `PgTemporalKV`: transactions that put any number of keys, hold the row
 * lock of every key they wrote, and commit, abort or are cut off by a crash. The committed rows
 * refine an append-only log per key.
 */
module TemporalKvProtocol {
  import opened Chunking
  import opened TemporalKv

  /** Uncommitted row versions, one per key this transaction has written and locked. */
  type Pending = map<Key, Rows>

  /** `puts` and `ledger` are history: the value and time of every put an open transaction has had
      accepted, and the append-only store that receives them, in order, when it commits. No step
      reads them. */
  datatype State = State(db: map<Key, Rows>, txs: map<nat, Pending>, nextXact: nat,
                         puts: map<nat, map<Key, Write>>, ledger: map<Key, seq<Write>>)

  function Logged(ledger: map<Key, seq<Write>>, k: Key): seq<Write> { if k in ledger then ledger[k] else [] }

  function Appended(ledger: map<Key, seq<Write>>, puts: map<Key, Write>): map<Key, seq<Write>> {
    map k | k in ledger.Keys + puts.Keys :: Logged(ledger, k) + if k in puts then [puts[k]] else []
  }

  function RowsOf(db: map<Key, Rows>, k: Key): Rows { if k in db then db[k] else ABSENT }

  /** What a statement of transaction t sees: its own version, else the latest committed one. */
  function View(s: State, t: nat, k: Key): Rows
    requires t in s.txs
  {
    if k in s.txs[t] then s.txs[t][k] else RowsOf(s.db, k)
  }

  ghost predicate KeyFree(s: State, t: nat, k: Key) {
    forall u :: u in s.txs && u != t ==> k !in s.txs[u]
  }

  datatype Step = Begin | PutKey(k: Key, value: Json, mode: Mode, now: int) | Commit | Abort | Crash

  function Ended(s: State, t: nat): State { s.(txs := s.txs - {t}, puts := s.puts - {t}) }

  function Accepted(s: State, t: nat, k: Key, rows: Rows, w: Write): State
    requires t in s.txs
  {
    s.(txs := s.txs[t := s.txs[t][k := rows]],
       puts := s.puts[t := (if t in s.puts then s.puts[t] else map[])[k := w]])
  }

  ghost predicate PutEffect(s: State, t: nat, k: Key, w: Write, rows: Rows, result: PutResult, s': State)
    requires t in s.txs
  {
    match result
    case Written(_) => KeyFree(s, t, k) && s' == Accepted(s, t, k, rows, w)
    case Conflict(_) => s' == s
    case Failed(_) => s' == Ended(s, t)  // the error aborts the transaction
  }

  ghost predicate NextBy(s: State, t: nat, step: Step, s': State) {
    match step
    case Begin => t == s.nextXact && s' == s.(txs := s.txs[t := map[]], nextXact := t + 1, puts := s.puts[t := map[]])
    case PutKey(k, value, mode, now) =>
      && t in s.txs
      && var (rows, result) := Put(View(s, t, k), value, mode, now, t); PutEffect(s, t, k, Write(value, now), rows, result, s')
    case Commit =>
      t in s.txs && s' == Ended(s, t).(db := s.db + s.txs[t], ledger := Appended(s.ledger, if t in s.puts then s.puts[t] else map[]))
    case Abort => t in s.txs && s' == Ended(s, t)
    case Crash => s' == s.(txs := map[], puts := map[])
  }

  ghost predicate Next(s: State, s': State) {
    exists t, step :: NextBy(s, t, step, s')
  }

  ghost predicate IsRun(run: seq<State>) {
    && |run| > 0 && run[0] == State(map[], map[], 1, map[], map[])
    && forall i :: 0 <= i < |run| - 1 ==> Next(run[i], run[i + 1])
  }

  // ----- invariant ------------------------------------------------------------------------------

  ghost predicate CommittedSound(s: State) {
    forall k :: k in s.db ==>
      && Sound(s.db[k]) && s.db[k].current.Some?
      && s.db[k].current.value.xact < s.nextXact && s.db[k].current.value.xact !in s.txs
  }

  /** One uncommitted write of transaction t, of this value at this time, on top of the committed rows. */
  ghost predicate OneMore(committed: Rows, rows: Rows, t: nat, w: Write) {
    Sound(rows) && rows.current.Some? && rows.current.value.xact == t && Writes(rows) == Writes(committed) + [w]
  }

  ghost predicate TxSound(db: map<Key, Rows>, t: nat, rows: Pending, puts: map<Key, Write>) {
    rows.Keys == puts.Keys && forall k :: k in rows ==> OneMore(RowsOf(db, k), rows[k], t, puts[k])
  }

  ghost predicate PendingSound(s: State) {
    s.puts.Keys == s.txs.Keys && forall t :: t in s.txs ==> t < s.nextXact && TxSound(s.db, t, s.txs[t], s.puts[t])
  }

  ghost predicate LocksSound(s: State) {
    forall t, u :: t in s.txs && u in s.txs && t != u ==> s.txs[t].Keys !! s.txs[u].Keys
  }

  /** The tables hold exactly what the append-only store does. */
  ghost predicate LedgerSound(s: State) {
    forall k :: Writes(RowsOf(s.db, k)) == Logged(s.ledger, k)
  }

  ghost predicate Inv(s: State) {
    CommittedSound(s) && PendingSound(s) && LocksSound(s) && LedgerSound(s)
  }

  /** A transaction only ever has one write on top of the committed rows: a second is refused. */
  lemma PutIsOneMore(s: State, t: nat, k: Key, value: Json, mode: Mode, now: int)
    requires Inv(s) && t in s.txs
    ensures var (rows, result) := Put(View(s, t, k), value, mode, now, t);
      result.Written? ==> k !in s.txs[t] && OneMore(RowsOf(s.db, k), rows, t, Write(value, now))
  {
    var rows := View(s, t, k);
    assert TxSound(s.db, t, s.txs[t], s.puts[t]);
    if k in s.txs[t] { assert OneMore(RowsOf(s.db, k), rows, t, s.puts[t][k]); }
    PutAppends(rows, value, mode, now, t);
  }

  lemma WriteKeepsInv(s: State, t: nat, k: Key, rows: Rows, w: Write, s': State)
    requires Inv(s) && t in s.txs && KeyFree(s, t, k) && OneMore(RowsOf(s.db, k), rows, t, w)
    requires s' == Accepted(s, t, k, rows, w)
    ensures Inv(s')
  {
    assert CommittedSound(s') && LocksSound(s') && LedgerSound(s');
    forall u | u in s'.txs ensures u < s'.nextXact && TxSound(s'.db, u, s'.txs[u], s'.puts[u]) {
      assert TxSound(s.db, u, s.txs[u], s.puts[u]);
      if u == t { TxGrows(s.db, t, s.txs[t], s.puts[t], k, rows, w); }
    }
  }

  lemma TxGrows(db: map<Key, Rows>, t: nat, rows: Pending, puts: map<Key, Write>, k: Key, row: Rows, w: Write)
    requires TxSound(db, t, rows, puts) && OneMore(RowsOf(db, k), row, t, w)
    ensures TxSound(db, t, rows[k := row], puts[k := w])
  {
    var rows', puts' := rows[k := row], puts[k := w];
    forall j | j in rows' ensures OneMore(RowsOf(db, j), rows'[j], t, puts'[j]) {
      assert j != k ==> rows'[j] == rows[j] && puts'[j] == puts[j];
    }
  }

  lemma RowsStay(db: map<Key, Rows>, committing: Pending, other: Pending)
    requires committing.Keys !! other.Keys
    ensures forall k :: k in other ==> RowsOf(db + committing, k) == RowsOf(db, k)
  {
  }

  /** A transaction stays sound while the committed rows of its keys do not change. */
  lemma TxStays(db: map<Key, Rows>, db': map<Key, Rows>, t: nat, rows: Pending, puts: map<Key, Write>)
    requires TxSound(db, t, rows, puts) && forall k :: k in rows ==> RowsOf(db', k) == RowsOf(db, k)
    ensures TxSound(db', t, rows, puts)
  {
  }

  lemma EndKeepsInv(s: State, t: nat, s': State)
    requires Inv(s) && s' == Ended(s, t)
    ensures Inv(s')
  {
    assert LedgerSound(s');
  }

  lemma PutStepKeepsInv(s: State, t: nat, step: Step, s': State)
    requires Inv(s) && step.PutKey? && NextBy(s, t, step, s')
    ensures Inv(s') && s'.db == s.db
  {
    var (rows, result) := Put(View(s, t, step.k), step.value, step.mode, step.now, t);
    PutIsOneMore(s, t, step.k, step.value, step.mode, step.now);
    match result
    case Written(_) => WriteKeepsInv(s, t, step.k, rows, Write(step.value, step.now), s');
    case Conflict(_) =>
    case Failed(_) => EndKeepsInv(s, t, s');
  }

  lemma CommitKeepsRows(s: State, t: nat, s': State)
    requires Inv(s) && NextBy(s, t, Commit, s')
    ensures CommittedSound(s')
  {
    assert TxSound(s.db, t, s.txs[t], s.puts[t]);
    forall k | k in s'.db ensures Sound(s'.db[k]) && s'.db[k].current.Some?
      && s'.db[k].current.value.xact < s'.nextXact && s'.db[k].current.value.xact !in s'.txs
    {
      if k in s.txs[t] { assert OneMore(RowsOf(s.db, k), s.txs[t][k], t, s.puts[t][k]); }
    }
  }

  lemma CommitKeepsPending(s: State, t: nat, s': State)
    requires PendingSound(s) && LocksSound(s) && NextBy(s, t, Commit, s')
    ensures PendingSound(s')
  {
    forall u | u in s'.txs ensures u < s'.nextXact && TxSound(s'.db, u, s'.txs[u], s'.puts[u]) {
      assert TxSound(s.db, u, s.txs[u], s.puts[u]);
      RowsStay(s.db, s.txs[t], s.txs[u]);
      TxStays(s.db, s'.db, u, s.txs[u], s.puts[u]);
    }
  }

  lemma CommitKeepsInv(s: State, t: nat, s': State)
    requires Inv(s) && NextBy(s, t, Commit, s')
    ensures Inv(s')
  {
    CommitKeepsRows(s, t, s');
    CommitKeepsPending(s, t, s');
    assert TxSound(s.db, t, s.txs[t], s.puts[t]);
    forall k ensures Writes(RowsOf(s'.db, k)) == Logged(s'.ledger, k) {
      assert Writes(RowsOf(s.db, k)) == Logged(s.ledger, k);
      CommitAppends(s.db, t, s.txs[t], s.puts[t], k);
      AppendedAt(s.ledger, s.puts[t], k);
    }
    assert LocksSound(s');
  }

  lemma CommitAppends(db: map<Key, Rows>, t: nat, rows: Pending, puts: map<Key, Write>, k: Key)
    requires TxSound(db, t, rows, puts)
    ensures Writes(RowsOf(db + rows, k)) == Writes(RowsOf(db, k)) + if k in puts then [puts[k]] else []
  {
    if k in rows { assert OneMore(RowsOf(db, k), rows[k], t, puts[k]); }
  }

  lemma AppendedAt(ledger: map<Key, seq<Write>>, puts: map<Key, Write>, k: Key)
    ensures Logged(Appended(ledger, puts), k) == Logged(ledger, k) + if k in puts then [puts[k]] else []
  {
  }

  lemma StepKeepsInv(s: State, t: nat, step: Step, s': State)
    requires Inv(s) && NextBy(s, t, step, s')
    ensures Inv(s')
  {
    match step
    case PutKey(_, _, _, _) => PutStepKeepsInv(s, t, step, s');
    case Commit => CommitKeepsInv(s, t, s');
    case Abort => EndKeepsInv(s, t, s');
    case Begin => BeginKeepsInv(s, t, s');
    case Crash => assert LedgerSound(s');
  }

  lemma BeginKeepsInv(s: State, t: nat, s': State)
    requires Inv(s) && NextBy(s, t, Begin, s')
    ensures Inv(s')
  {
    assert LedgerSound(s');
    forall u | u in s'.txs ensures u < s'.nextXact && TxSound(s'.db, u, s'.txs[u], s'.puts[u]) {
      if u != t { assert TxSound(s.db, u, s.txs[u], s.puts[u]); }
    }
  }

  lemma {:induction false} RunKeepsInv(run: seq<State>, i: nat)
    requires IsRun(run) && i < |run|
    ensures Inv(run[i])
  {
    if i > 0 {
      RunKeepsInv(run, i - 1);
      assert Next(run[i - 1], run[i - 1 + 1]);
      var t, step :| NextBy(run[i - 1], t, step, run[i]);
      StepKeepsInv(run[i - 1], t, step, run[i]);
    }
  }

  // ----- refinement -----------------------------------------------------------------------------

  /** The abstract state: per key, the writes committed so far. */
  function LogOf(s: State, k: Key): seq<Write> { Writes(RowsOf(s.db, k)) }

  /** Each of these keys gets exactly this write at the end of its log; no other log changes. */
  ghost predicate Appends(s: State, s': State, puts: map<Key, Write>) {
    forall k :: LogOf(s', k) == if k in puts then LogOf(s, k) + [puts[k]] else LogOf(s, k)
  }

  /** Every step refines the append-only log: a commit appends, to exactly the keys the transaction
      wrote, the value and time of its accepted put; every other step, failed or conflicting puts
      included, changes nothing. */
  lemma StepRefinesLog(s: State, t: nat, step: Step, s': State)
    requires Inv(s) && NextBy(s, t, step, s')
    ensures step.Commit? ==> t in s.puts && s.puts[t].Keys == s.txs[t].Keys
    ensures Appends(s, s', if step.Commit? then s.puts[t] else map[])
  {
    if step.Commit? { CommitRefinesLog(s, t, s'); } else { OnlyCommitChangesRows(s, t, step, s'); }
  }

  lemma OnlyCommitChangesRows(s: State, t: nat, step: Step, s': State)
    requires NextBy(s, t, step, s') && !step.Commit?
    ensures s'.db == s.db
  {
  }

  lemma CommitRefinesLog(s: State, t: nat, s': State)
    requires PendingSound(s) && NextBy(s, t, Commit, s')
    ensures t in s.puts && s.puts[t].Keys == s.txs[t].Keys && Appends(s, s', s.puts[t])
  {
    assert TxSound(s.db, t, s.txs[t], s.puts[t]);
    forall k ensures LogOf(s', k) == if k in s.puts[t] then LogOf(s, k) + [s.puts[t][k]] else LogOf(s, k) {
      CommitAppends(s.db, t, s.txs[t], s.puts[t], k);
    }
  }

  /** A put that is accepted is remembered with its own value and time until its transaction ends. */
  lemma AcceptedPutIsPending(s: State, t: nat, k: Key, value: Json, mode: Mode, now: int, s': State)
    requires Inv(s) && NextBy(s, t, PutKey(k, value, mode, now), s') && Put(View(s, t, k), value, mode, now, t).1.Written?
    ensures t in s'.puts && k !in s.puts[t] && s'.puts[t] == s.puts[t][k := Write(value, now)]
  {
    PutIsOneMore(s, t, k, value, mode, now);
    assert TxSound(s.db, t, s.txs[t], s.puts[t]);
  }

  /** The put that the answer of a conflict asks for. */
  function Retry(actual: Option<nat>): Mode { if actual.None? then Create else Expect(actual.value) }

  /** A conflict leaves the transaction open and everything as it was; and the version it reports is the
      right one: in every run, the put that expects it is written as soon as the clock has moved on, unless
      this transaction has written the key itself. */
  lemma ConflictCanBeRetried(run: seq<State>, i: nat, t: nat, k: Key, value: Json, mode: Mode, now: int, s': State, value': Json, now': int)
    requires IsRun(run) && i < |run| && NextBy(run[i], t, PutKey(k, value, mode, now), s') && Put(View(run[i], t, k), value, mode, now, t).1.Conflict?
    ensures s' == run[i] && t in s'.txs
    ensures var actual := Put(View(run[i], t, k), value, mode, now, t).1.actual;
      Put(View(s', t, k), value', Retry(actual), now', t).1.Written? <==> Fresh(View(s', t, k), now', t)
  {
    RunKeepsInv(run, i);
    assert TxSound(run[i].db, t, run[i].txs[t], run[i].puts[t]);
    var rows := View(run[i], t, k);
    if k in run[i].txs[t] { assert OneMore(RowsOf(run[i].db, k), rows, t, run[i].puts[t][k]); }
    PutAppends(rows, value, mode, now, t);
    PutAppends(rows, value', Retry(Put(rows, value, mode, now, t).1.actual), now', t);
  }

  /** So in every run the rows of a key are its append-only log of committed puts, in commit order. */
  lemma TablesAreTheLedger(run: seq<State>, i: nat, k: Key)
    requires IsRun(run) && i < |run|
    ensures LogOf(run[i], k) == Logged(run[i].ledger, k)
  {
    RunKeepsInv(run, i);
    assert LedgerSound(run[i]);
  }

  /** Per key, in every reachable state: versions 1..n, strictly increasing write times, and
      history intervals that tile [t1, infinity) together with the open one. */
  lemma ReachableRowsTile(run: seq<State>, i: nat, k: Key)
    requires IsRun(run) && i < |run|
    ensures Sound(RowsOf(run[i].db, k))
    ensures forall a, b :: 0 <= a < b < |LogOf(run[i], k)| ==> LogOf(run[i], k)[a].at < LogOf(run[i], k)[b].at
  {
    RunKeepsInv(run, i);
    var rows := RowsOf(run[i].db, k);
    assert Sound(rows);
    forall a, b | 0 <= a < b < |Writes(rows)| ensures Writes(rows)[a].at < Writes(rows)[b].at { WritesIncrease(rows, a, b); }
  }

  lemma {:induction false} LogOnlyGrows(run: seq<State>, i: nat, j: nat, k: Key)
    requires IsRun(run) && i <= j < |run|
    ensures LogOf(run[i], k) <= LogOf(run[j], k)
    decreases j
  {
    if i < j {
      LogOnlyGrows(run, i, j - 1, k);
      RunKeepsInv(run, j - 1);
      assert Next(run[j - 1], run[j - 1 + 1]);
      var t, step :| NextBy(run[j - 1], t, step, run[j]);
      StepRefinesLog(run[j - 1], t, step, run[j]);
      assert LogOf(run[j - 1], k) <= LogOf(run[j], k);
    }
  }

  lemma {:induction false} LongerLogSameAnswer(log: seq<Write>, longer: seq<Write>, t: int)
    requires log != [] && log <= longer && t <= log[|log| - 1].at
    requires forall a, b :: 0 <= a < b < |longer| ==> longer[a].at < longer[b].at
    ensures LastNotAfter(longer, t) == LastNotAfter(log, t)
    decreases |longer|
  {
    if |longer| == |log| {
      assert longer == log;
    } else {
      LongerLogSameAnswer(log, longer[..|longer| - 1], t);
      if t == log[|log| - 1].at { assert longer[|log| - 1].at < longer[|longer| - 1].at; }
    }
  }

  /**
   * Stable past. Up to and including the write time of the current version, what `getAt` answers
   * for an instant is the same in every later reachable state, whatever is written meanwhile and
   * whatever the clock does.
   */
  lemma PastIsStable(run: seq<State>, i: nat, j: nat, k: Key, t: int, answer: Option<Entry>)
    requires IsRun(run) && i <= j < |run|
    requires k in run[i].db && run[i].db[k].current.Some? && t <= run[i].db[k].current.value.updatedAt
    ensures GetAt(RowsOf(run[i].db, k), At(t), answer) <==> GetAt(RowsOf(run[j].db, k), At(t), answer)
  {
    ReachableRowsTile(run, i, k);
    ReachableRowsTile(run, j, k);
    LogOnlyGrows(run, i, j, k);
    LongerLogSameAnswer(LogOf(run[i], k), LogOf(run[j], k), t);
    GetAtIsLogAt(RowsOf(run[i].db, k), At(t), answer);
    GetAtIsLogAt(RowsOf(run[j].db, k), At(t), answer);
  }

  /** What is answered for the instant from one is not answered from the other. */
  ghost predicate NoAnswerKept(rows: Rows, rows': Rows, t: int) {
    forall answer :: GetAt(rows, At(t), answer) ==> !GetAt(rows', At(t), answer)
  }

  /** For any later instant, a put stamped in between changes the answer. */
  lemma PutChangesTheAnswer(rows: Rows, t: int, value: Json, xact: nat) returns (now: int)
    requires Sound(rows) && (rows.current.Some? ==> t > rows.current.value.updatedAt && rows.current.value.xact != xact)
    ensures var (rows', result) := Put(rows, value, Always, now, xact);
      result.Written? && NoAnswerKept(rows, rows', t)
  {
    now := if rows.current.Some? then rows.current.value.updatedAt + 1 else t;
    PutAppends(rows, value, Always, now, xact);
    var (rows', result) := Put(rows, value, Always, now, xact);
    forall answer ensures GetAt(rows, At(t), answer) ==> !GetAt(rows', At(t), answer) {
      GetAtIsLogAt(rows, At(t), answer);
      GetAtIsLogAt(rows', At(t), answer);
      LastNotAfterSplits(Writes(rows), t);
    }
  }

  lemma ExtendRun(run: seq<State>, t: nat, step: Step, s': State)
    requires IsRun(run) && NextBy(run[|run| - 1], t, step, s')
    ensures IsRun(run + [s'])
  {
    var longer := run + [s'];
    forall i | 0 <= i < |longer| - 1 ensures Next(longer[i], longer[i + 1]) {
      if i < |run| - 1 { assert Next(run[i], run[i + 1]); }
    }
  }

  /** A transaction of its own puts the key and commits, after whatever was open has been cut off. */
  lemma PutAlone(run: seq<State>, k: Key, value: Json, now: int) returns (longer: seq<State>)
    requires IsRun(run)
    requires var s := run[|run| - 1]; Put(RowsOf(s.db, k), value, Always, now, s.nextXact).1.Written?
    ensures IsRun(longer) && run <= longer
    ensures var s := run[|run| - 1];
      RowsOf(longer[|longer| - 1].db, k) == Put(RowsOf(s.db, k), value, Always, now, s.nextXact).0
  {
    var s := run[|run| - 1];
    var t, rows := s.nextXact, Put(RowsOf(s.db, k), value, Always, now, s.nextXact).0;
    var s1 := s.(txs := map[], puts := map[]);
    ExtendRun(run, 0, Crash, s1);
    var s2 := s1.(txs := s1.txs[t := map[]], nextXact := t + 1, puts := s1.puts[t := map[]]);
    ExtendRun(run + [s1], t, Begin, s2);
    var s3 := Accepted(s2, t, k, rows, Write(value, now));
    assert View(s2, t, k) == RowsOf(s.db, k);
    ExtendRun(run + [s1] + [s2], t, PutKey(k, value, Always, now), s3);
    var s4 := Ended(s3, t).(db := s3.db + s3.txs[t], ledger := Appended(s3.ledger, s3.puts[t]));
    ExtendRun(run + [s1] + [s2] + [s3], t, Commit, s4);
    longer := run + [s1] + [s2] + [s3] + [s4];
  }

  /** The bound is exact: every run has, for every key and every instant after the current write time
      (any instant, if the key was never written), a continuation in which the answer is another. */
  lemma LaterInstantsAreNotStable(run: seq<State>, k: Key, t: int, value: Json) returns (longer: seq<State>)
    requires IsRun(run)
    requires var rows := RowsOf(run[|run| - 1].db, k); rows.current.Some? ==> t > rows.current.value.updatedAt
    ensures IsRun(longer) && run <= longer
    ensures NoAnswerKept(RowsOf(run[|run| - 1].db, k), RowsOf(longer[|longer| - 1].db, k), t)
  {
    var s := run[|run| - 1];
    RunKeepsInv(run, |run| - 1);
    assert Sound(RowsOf(s.db, k)) && (RowsOf(s.db, k).current.Some? ==> k in s.db);
    var now := PutChangesTheAnswer(RowsOf(s.db, k), t, value, s.nextXact);
    longer := PutAlone(run, k, value, now);
  }

  // ----- the store object, one statement at a time -----------------------------------------------

  /** kv_current and kv_history as mutable tables, and `putImpl` against them. */
  class KvTable {
    var rows: map<Key, Rows>

    constructor ()
      ensures rows == map[]
    {
      rows := map[];
    }

    ghost predicate Valid()
      reads this
    {
      forall k :: k in rows ==> Sound(rows[k])
    }

    /** The three cases of `putImpl`, each its own statement, with the re-read on zero rows. */
    method PutImpl(k: Key, value: Json, mode: Mode, now: int, xact: nat) returns (result: PutResult)
      requires Valid()
      modifies this
      ensures Valid()
      ensures result == Put(RowsOf(old(rows), k), value, mode, now, xact).1
      ensures RowsOf(rows, k) == Put(RowsOf(old(rows), k), value, mode, now, xact).0
      ensures forall k' :: k' != k ==> RowsOf(rows, k') == RowsOf(old(rows), k')
      ensures !result.Written? ==> rows == old(rows)
    {
      ghost var before := RowsOf(rows, k);
      PutAppends(before, value, mode, now, xact);
      match mode
      case Always =>
        if k in rows && rows[k].current.Some? {
          result := UpdateRow(k, value, now, xact);
        } else {
          result := InsertRow(k, value, now, xact);
        }
      case Create =>
        if !(k in rows && rows[k].current.Some?) {
          result := InsertRow(k, value, now, xact);
        } else {
          result := Conflict(Some(rows[k].current.value.version));
        }
      case Expect(v) =>
        if k in rows && rows[k].current.Some? && rows[k].current.value.version == v {
          result := UpdateRow(k, value, now, xact);
        } else if k in rows && rows[k].current.Some? {
          result := Conflict(Some(rows[k].current.value.version));
        } else {
          result := Conflict(None);
        }
    }

    method InsertRow(k: Key, value: Json, now: int, xact: nat) returns (result: PutResult)
      requires RowsOf(rows, k).current.None?
      modifies this
      ensures rows == old(rows)[k := Insert(RowsOf(old(rows), k), value, now, xact).0]
      ensures result == Insert(RowsOf(old(rows), k), value, now, xact).1
    {
      var past := if k in rows then rows[k].history else [];
      rows := rows[k := Rows(Some(Current(value, 1, now, xact)), past)];
      result := Written(Entry(value, 1, now));
    }

    /** UPDATE fires the trigger row by row; a constraint failure undoes the statement. */
    method UpdateRow(k: Key, value: Json, now: int, xact: nat) returns (result: PutResult)
      requires k in rows && rows[k].current.Some? && Sound(rows[k])
      modifies this
      ensures result == Update(old(rows)[k], value, now, xact).1
      ensures rows == if result.Written? then old(rows)[k := Update(old(rows)[k], value, now, xact).0] else old(rows)
    {
      var was, past := rows[k].current.value, rows[k].history;
      NeverOverlaps(rows[k], now);
      if was.xact == xact {
        return Failed(WriteTwice);
      }
      if was.updatedAt >= now {
        return Failed(ClockRegression);
      }
      rows := rows[k := Rows(Some(Current(value, was.version + 1, now, xact)),
                             past + [Past(was.value, was.version, was.updatedAt, now)])];
      result := Written(Entry(value, was.version + 1, now));
    }
  }
}
