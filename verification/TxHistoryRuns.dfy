/**
 * A write through the interleaved protocol, alone: from every quiet state every acceptable write can
 * run from its lock to its commit, and then the table is what `writeRows` by itself makes of it.
 */
module TxHistoryRuns {
  import opened Chunking
  import opened HistoryCodec
  import opened TxHistory
  import opened TxHistorySafety
  import opened HistoryTable

  function Last(run: seq<State>): State
    requires |run| > 0
  {
    run[|run| - 1]
  }

  ghost predicate Extends(env: Env, run: seq<State>, longer: seq<State>) { IsRun(env, longer) && run <= longer }

  lemma ExtendRun(env: Env, run: seq<State>, step: Step, s': State)
    requires IsRun(env, run) && NextBy(env, Last(run), step, s')
    ensures Extends(env, run, run + [s'])
  {
    var longer := run + [s'];
    forall i | 0 <= i < |longer| - 1 ensures Next(env, longer[i], longer[i + 1]) {
      if i < |run| - 1 { assert Next(env, run[i], run[i + 1]); }
    }
  }

  function WithTx(s: State, tx: Tx): State { s.(txs := map[0 := tx]) }

  lemma Works(env: Env, run: seq<State>, s: State, tx: Tx, step: Step, tx': Tx) returns (longer: seq<State>)
    requires IsRun(env, run) && Last(run) == WithTx(s, tx) && NextBy(env, WithTx(s, tx), step, WithTx(s, tx'))
    ensures Extends(env, run, longer) && Last(longer) == WithTx(s, tx')
  {
    ExtendRun(env, run, step, WithTx(s, tx'));
    longer := run + [WithTx(s, tx')];
  }

  lemma SameTxs(s: State, tx: Tx, tx': Tx)
    ensures WithTx(s, tx).txs[0 := tx'] == map[0 := tx']
  {
  }

  /** The entries the committed rows stand for. */
  function Entries(env: Env, s: State): Table { Replay(env, map[], s.log) }

  function Found(env: Env, s: State, key: Key, entry: Entry): Tx {
    Tx(Got(key, entry, Lookup(Entries(env, s), key)), {env.lockKey(key)}, if key in s.rows then {key} else {}, map[], [])
  }

  /** Lock and read: what is found is the entry stored. */
  lemma ReadsEntry(env: Env, run: seq<State>, key: Key, entry: Entry) returns (longer: seq<State>)
    requires DatesParse(env.iso, env.parse) && IsRun(env, run) && Last(run).txs == map[] && entry.hash == key.hash && ValidEntry(entry)
    ensures Extends(env, run, longer) && Last(longer) == WithTx(Last(run), Found(env, Last(run), key, entry))
  {
    var s := Last(run);
    var a := Tx(Idle, {}, {}, map[], []);
    var b := a.(pc := Locked(key, entry), advisory := {env.lockKey(key)});
    assert s.txs[0 := a] == map[0 := a];
    ExtendRun(env, run, Begin(0), WithTx(s, a));
    longer := run + [WithTx(s, a)];
    SameTxs(s, a, b);
    assert a.advisory + {env.lockKey(key)} == b.advisory;
    longer := Works(env, longer, s, a, Lock(0, key, entry), b);
    FoundIsRead(env, run, b, key, entry);
    SameTxs(s, b, Found(env, s, key, entry));
    longer := Works(env, longer, s, b, Read(0), Found(env, s, key, entry));
  }

  lemma FoundIsRead(env: Env, run: seq<State>, tx: Tx, key: Key, entry: Entry)
    requires DatesParse(env.iso, env.parse) && IsRun(env, run)
    requires tx == Tx(Locked(key, entry), {env.lockKey(key)}, {}, map[], [])
    ensures AfterRead(env, Last(run).rows, tx) == Found(env, Last(run), key, entry)
  {
    var s := Last(run);
    RunKeepsInv(env, run, |run| - 1);
    var m := Entries(env, s);
    assert RowAt(s.rows, key) == StoredAt(env, m, key);
    if key in m { EntryRoundTrip(env.iso, env.parse, m[key]); }
    assert tx.held + {key} == {key};
  }

  function Deletions(keys: set<Key>): map<Key, Option<Row>> { map k | k in keys :: None }

  /** The DELETE reaches one row of its list after the other. */
  lemma {:induction false} ClearsAll(env: Env, run: seq<State>, s: State, tx: Tx) returns (longer: seq<State>, done: Tx)
    requires IsRun(env, run) && Last(run) == WithTx(s, tx) && tx.pc.Clearing?
    requires forall k :: k in tx.pc.todo ==> RowSuperseded(View(s.rows, tx, k), k, tx.pc.key, tx.pc.result)
    ensures Extends(env, run, longer) && Last(longer) == WithTx(s, done)
    ensures done.pc == tx.pc.(todo := {}) && done.overlay == tx.overlay + Deletions(tx.pc.todo)
    decreases |tx.pc.todo|
  {
    if tx.pc.todo == {} {
      longer, done := run, tx;
      assert Deletions({}) == map[];
    } else {
      var k :| k in tx.pc.todo;
      var next;
      longer, next := ClearsOne(env, run, s, tx, k);
      longer, done := ClearsAll(env, longer, s, next);
      OneMoreDeletion(tx.overlay, tx.pc.todo, k);
    }
  }

  lemma OneMoreDeletion(overlay: map<Key, Option<Row>>, keys: set<Key>, k: Key)
    requires k in keys
    ensures overlay[k := None] + Deletions(keys - {k}) == overlay + Deletions(keys)
  {
  }

  lemma ClearsOne(env: Env, run: seq<State>, s: State, tx: Tx, k: Key) returns (longer: seq<State>, next: Tx)
    requires IsRun(env, run) && Last(run) == WithTx(s, tx) && tx.pc.Clearing? && k in tx.pc.todo
    requires forall j :: j in tx.pc.todo ==> RowSuperseded(View(s.rows, tx, j), j, tx.pc.key, tx.pc.result)
    ensures Extends(env, run, longer) && Last(longer) == WithTx(s, next)
    ensures next.pc == tx.pc.(todo := tx.pc.todo - {k}) && next.overlay == tx.overlay[k := None]
    ensures forall j :: j in next.pc.todo ==> RowSuperseded(View(s.rows, next, j), j, next.pc.key, next.pc.result)
  {
    next := AfterClearRow(s.rows, tx, k, false);
    SameTxs(s, tx, next);
    longer := Works(env, run, s, tx, ClearRow(0, k, false), next);
    forall j | j in next.pc.todo ensures RowSuperseded(View(s.rows, next, j), j, next.pc.key, next.pc.result) {
      assert View(s.rows, next, j) == View(s.rows, tx, j);
    }
  }

  /** The transaction after its upsert of r. */
  ghost predicate Wrote1(env: Env, tx: Tx, key: Key, r: Entry) {
    && tx.overlay == map[key := Some(RowOf(env, r))]
    && tx.pc == if Settles(r.lifecycle, r.identifiers) then Sweep(key, r) else Idle
  }

  /** The superseded rows of the snapshot, none of them the written one. */
  function Listed(rows: map<Key, Row>, key: Key, r: Entry): set<Key> {
    set k | k in rows && k != key && Superseded(k, rows[k].lifecycle, rows[k].identifiers, key, r.identifiers)
  }

  lemma Clears(env: Env, run: seq<State>, s: State, tx: Tx, key: Key, r: Entry) returns (longer: seq<State>, done: Tx)
    requires IsRun(env, run) && Last(run) == WithTx(s, tx) && Wrote1(env, tx, key, r)
    ensures Extends(env, run, longer) && Last(longer) == WithTx(s, done) && done.pc.Idle?
    ensures done.overlay == tx.overlay + Deletions(if Settles(r.lifecycle, r.identifiers) then Listed(s.rows, key, r) else {})
  {
    if !Settles(r.lifecycle, r.identifiers) {
      longer, done := run, tx;
      assert Deletions({}) == map[];
    } else {
      var clearing := AfterClearBegin(WithTx(s, tx), tx);
      ListIsSuperseded(env, s, tx, key, r);
      SameTxs(s, tx, clearing);
      longer := Works(env, run, s, tx, ClearBegin(0), clearing);
      var swept;
      longer, swept := ClearsAll(env, longer, s, clearing);
      done := swept.(pc := Idle);
      SameTxs(s, swept, done);
      longer := Works(env, longer, s, swept, ClearEnd(0), done);
    }
  }

  lemma ListIsSuperseded(env: Env, s: State, tx: Tx, key: Key, r: Entry)
    requires Wrote1(env, tx, key, r) && tx.pc == Sweep(key, r)
    ensures AfterClearBegin(WithTx(s, tx), tx).pc.todo == Listed(s.rows, key, r)
    ensures forall k :: k in Listed(s.rows, key, r) ==> RowSuperseded(View(s.rows, AfterClearBegin(WithTx(s, tx), tx), k), k, key, r)
  {
    forall k | k in s.rows && k != key ensures View(s.rows, tx, k) == Some(s.rows[k]) {}
    assert View(s.rows, tx, key) == Some(RowOf(env, r)) && !Superseded(key, r.lifecycle, r.identifiers, key, r.identifiers);
  }

  /** From every quiet state every write the merge accepts can commit; the row of its hash then holds the
      result, exactly the rows that must go are gone, and no other row has changed. */
  lemma WriteIsARun(env: Env, run: seq<State>, key: Key, entry: Entry, r: Entry) returns (longer: seq<State>)
    requires DatesParse(env.iso, env.parse) && IsRun(env, run) && Last(run).txs == map[] && entry.hash == key.hash && ValidEntry(entry)
    requires Makes(env, Entries(env, Last(run)), key, entry, r)
    ensures Extends(env, run, longer) && Last(longer).txs == map[]
    ensures RowsAre(env, Entries(env, Last(run)), Last(run).rows, Last(longer).rows, key, r)
  {
    var s := Last(run);
    longer := ReadsEntry(env, run, key, entry);
    var found := Found(env, s, key, entry);
    var wrote := AfterUpsert(env, found);
    assert Result(env, Lookup(Entries(env, s), key), entry) == Some(r);
    SameTxs(s, found, wrote);
    longer := Works(env, longer, s, found, Upsert(0), wrote);
    var done;
    longer, done := Clears(env, longer, s, wrote, key, r);
    var end := State(Patch(s.rows, done.overlay), s.log + done.events, map[]);
    assert WithTx(s, done).txs - {0} == map[];
    ExtendRun(env, longer, Commit(0), end);
    longer := longer + [end];
    PatchedRows(env, run, done.overlay, key, r);
  }

  lemma PatchedRows(env: Env, run: seq<State>, overlay: map<Key, Option<Row>>, key: Key, r: Entry)
    requires DatesParse(env.iso, env.parse) && IsRun(env, run)
    requires var gone := if Settles(r.lifecycle, r.identifiers) then Listed(Last(run).rows, key, r) else {};
      overlay == map[key := Some(RowOf(env, r))] + Deletions(gone)
    ensures RowsAre(env, Entries(env, Last(run)), Last(run).rows, Patch(Last(run).rows, overlay), key, r)
  {
    var s := Last(run);
    var m := Entries(env, s);
    RunKeepsInv(env, run, |run| - 1);
    var after := Patch(s.rows, overlay);
    forall k | k != key ensures RowAt(after, k) == if k in m && MustGo(k, m[k], key, r) then None else RowAt(s.rows, k) {
      assert RowAt(s.rows, k) == StoredAt(env, m, k);
      if k in m { SupersededMeans(k, m[k], key, r); }
    }
  }
}
