/**
 * No committed history write is ever lost: the table is, at every moment of every run, the replay
 * of the committed writes and clears, whatever the transactions in flight are doing.
 */
module TxHistorySafety {
  import opened Chunking
  import opened HistoryCodec
  import opened TxHistory

  // ----- replay -----------------------------------------------------------------------------------

  ghost predicate Sound(m: Table) { forall k :: k in m ==> m[k].hash == k.hash && ValidEntry(m[k]) }

  ghost predicate Agree(m: Table, m': Table, keys: set<Key>) { forall k :: k in keys ==> Lookup(m, k) == Lookup(m', k) }

  lemma {:induction false} ReplayAppends(env: Env, m: Table, a: seq<Event>, b: seq<Event>)
    ensures Replay(env, m, a + b) == Replay(env, Replay(env, m, a), b)
    decreases |b|
  {
    if b == [] {
      assert a + b == a;
    } else {
      ReplayAppends(env, m, a, b[..|b| - 1]);
      assert (a + b)[..|a + b| - 1] == a + b[..|b| - 1];
    }
  }

  lemma LegalAppends(env: Env, m: Table, a: seq<Event>, b: seq<Event>)
    requires Legal(env, m, a) && Legal(env, Replay(env, m, a), b)
    ensures Legal(env, m, a + b)
  {
    forall i | 0 <= i < |a + b| ensures LegalEvent(env, Replay(env, m, (a + b)[..i]), (a + b)[i]) {
      if i < |a| {
        assert (a + b)[..i] == a[..i];
      } else {
        assert (a + b)[..i] == a + b[..i - |a|];
        ReplayAppends(env, m, a, b[..i - |a|]);
      }
    }
  }

  lemma LegalExtends(env: Env, m: Table, events: seq<Event>, e: Event)
    requires Legal(env, m, events) && LegalEvent(env, Replay(env, m, events), e)
    ensures Legal(env, m, events + [e]) && Replay(env, m, events + [e]) == Apply(env, Replay(env, m, events), e)
    ensures Touched(events + [e]) == Touched(events) + {e.key}
  {
    var both := events + [e];
    assert both[..|events|] == events;
    forall i | 0 <= i < |both| ensures LegalEvent(env, Replay(env, m, both[..i]), both[i]) {
      if i < |events| { assert both[..i] == events[..i]; }
    }
    forall k | k in Touched(events) + {e.key} ensures k in Touched(both) {
      if k in Touched(events) {
        var i :| 0 <= i < |events| && events[i].key == k;
        assert both[i].key == k;
      } else {
        assert both[|events|].key == k;
      }
    }
  }

  lemma TouchedAppends(a: seq<Event>, b: seq<Event>)
    ensures Touched(a + b) == Touched(a) + Touched(b)
  {
    forall k | k in Touched(a) + Touched(b) ensures k in Touched(a + b) {
      if k in Touched(a) {
        var i :| 0 <= i < |a| && a[i].key == k;
        assert (a + b)[i].key == k;
      } else {
        var i :| 0 <= i < |b| && b[i].key == k;
        assert (a + b)[|a| + i].key == k;
      }
    }
  }

  lemma {:induction false} ReplayIsSound(env: Env, m: Table, events: seq<Event>)
    requires Sound(m) && Legal(env, m, events)
    ensures Sound(Replay(env, m, events))
    decreases |events|
  {
    if events != [] {
      var front := events[..|events| - 1];
      LegalFront(env, m, events);
      ReplayIsSound(env, m, front);
      assert LegalEvent(env, Replay(env, m, front), events[|events| - 1]);
    }
  }

  lemma LegalFront(env: Env, m: Table, events: seq<Event>)
    requires Legal(env, m, events) && events != []
    ensures Legal(env, m, events[..|events| - 1])
  {
    var front := events[..|events| - 1];
    forall i | 0 <= i < |front| ensures LegalEvent(env, Replay(env, m, front[..i]), front[i]) {
      assert front[..i] == events[..i];
    }
  }

  lemma {:induction false} ReplayFrame(env: Env, m: Table, events: seq<Event>, k: Key)
    requires k !in Touched(events)
    ensures Lookup(Replay(env, m, events), k) == Lookup(m, k)
    decreases |events|
  {
    if events != [] {
      var front, e := events[..|events| - 1], events[|events| - 1];
      assert events == front + [e];
      TouchedAppends(front, [e]);
      assert e.key in Touched(events);
      ReplayFrame(env, m, front, k);
    }
  }

  /** What events do to the rows they touch depends only on those rows, and on the rows that
      cause their clears. */
  lemma {:induction false} ReplayIsLocal(env: Env, m: Table, m': Table, events: seq<Event>, keys: set<Key>)
    requires Agree(m, m', keys) && Touched(events) <= keys && Causes(events) <= keys
    ensures Agree(Replay(env, m, events), Replay(env, m', events), keys)
    decreases |events|
  {
    if events != [] {
      var front, e := events[..|events| - 1], events[|events| - 1];
      assert Touched(front) <= Touched(events) && Causes(front) <= Causes(events);
      ReplayIsLocal(env, m, m', front, keys);
      assert e.key in Touched(events);
    }
  }

  function Causes(events: seq<Event>): set<Key> {
    set i | 0 <= i < |events| && events[i].Cleared? :: events[i].cause
  }

  lemma LegalIsLocal(env: Env, m: Table, m': Table, events: seq<Event>, keys: set<Key>)
    requires Agree(m, m', keys) && Touched(events) <= keys && Causes(events) <= keys && Legal(env, m, events)
    ensures Legal(env, m', events)
  {
    forall i | 0 <= i < |events| ensures LegalEvent(env, Replay(env, m', events[..i]), events[i]) {
      assert Touched(events[..i]) <= Touched(events) && Causes(events[..i]) <= Causes(events);
      ReplayIsLocal(env, m, m', events[..i], keys);
      var a, b := Replay(env, m, events[..i]), Replay(env, m', events[..i]);
      assert events[i].key in Touched(events);
      assert events[i].Cleared? ==> events[i].cause in Causes(events);
      assert LegalEvent(env, a, events[i]);
      assert Lookup(a, events[i].key) == Lookup(b, events[i].key);
      if events[i].Cleared? { assert Lookup(a, events[i].cause) == Lookup(b, events[i].cause); }
    }
  }

  // ----- the invariant ----------------------------------------------------------------------------

  function StoredAt(env: Env, m: Table, k: Key): Option<Row> { if k in m then Some(RowOf(env, m[k])) else None }

  function RowAt(rows: map<Key, Row>, k: Key): Option<Row> { if k in rows then Some(rows[k]) else None }

  ghost predicate Represents(env: Env, rows: map<Key, Row>, m: Table) {
    forall k :: RowAt(rows, k) == StoredAt(env, m, k)
  }

  ghost predicate Refines(env: Env, m: Table, tx: Tx) {
    && Legal(env, m, tx.events)
    && tx.overlay.Keys == Touched(tx.events) && tx.overlay.Keys <= tx.held && Causes(tx.events) <= tx.overlay.Keys
    && Overlays(env, tx.overlay, Replay(env, m, tx.events)) && WritesLocked(env, tx.overlay, tx.advisory)
  }

  ghost predicate Overlays(env: Env, overlay: map<Key, Option<Row>>, m: Table) {
    forall k :: k in overlay ==> overlay[k] == StoredAt(env, m, k)
  }

  ghost predicate WritesLocked(env: Env, overlay: map<Key, Option<Row>>, advisory: set<int>) {
    forall k :: k in overlay && overlay[k].Some? ==> env.lockKey(k) in advisory
  }

  ghost predicate PcOk(env: Env, rows: map<Key, Row>, log: seq<Event>, m: Table, tx: Tx) {
    match tx.pc
    case Idle => true
    case Locked(key, entry) => env.lockKey(key) in tx.advisory && entry.hash == key.hash && ValidEntry(entry)
    case Got(key, entry, existing) =>
      && env.lockKey(key) in tx.advisory && entry.hash == key.hash && ValidEntry(entry)
      && existing == Lookup(Replay(env, m, tx.events), key) && (existing.Some? ==> key in tx.held)
    case Sweep(key, result) => Settled(env, m, tx, key, result)
    case Clearing(key, result, since, todo) =>
      Settled(env, m, tx, key, result) && since <= |log| && SweptSoFar(rows, log, tx, key, result, since, todo)
  }

  ghost predicate Settled(env: Env, m: Table, tx: Tx, key: Key, result: Entry) {
    && key in tx.overlay && Lookup(Replay(env, m, tx.events), key) == Some(result)
    && Settles(result.lifecycle, result.identifiers)
  }

  /** Every row the DELETE has still to remove is on its list, except rows changed by a commit since
      its snapshot. */
  ghost predicate SweptSoFar(rows: map<Key, Row>, log: seq<Event>, tx: Tx, key: Key, result: Entry, since: nat, todo: set<Key>)
    requires since <= |log|
  {
    forall k :: RowSuperseded(View(rows, tx, k), k, key, result) && k !in Touched(log[since..]) ==> k in todo
  }

  ghost predicate TxOk(env: Env, rows: map<Key, Row>, log: seq<Event>, tx: Tx) {
    Refines(env, Replay(env, map[], log), tx) && PcOk(env, rows, log, Replay(env, map[], log), tx)
  }

  ghost predicate Apart(a: Tx, b: Tx) { a.advisory !! b.advisory && a.held !! b.held }

  ghost predicate Exclusive(txs: map<nat, Tx>) {
    forall t, u :: t in txs && u in txs && t != u ==> Apart(txs[t], txs[u])
  }

  ghost predicate CommittedOk(env: Env, rows: map<Key, Row>, log: seq<Event>) {
    && Legal(env, map[], log) && Sound(Replay(env, map[], log))
    && Represents(env, rows, Replay(env, map[], log))
  }

  ghost predicate Inv(env: Env, s: State) {
    && CommittedOk(env, s.rows, s.log) && Exclusive(s.txs)
    && forall t :: t in s.txs ==> TxOk(env, s.rows, s.log, s.txs[t])
  }

  // ----- steps inside one transaction ---------------------------------------------------------------

  lemma ViewIsReplay(env: Env, rows: map<Key, Row>, m: Table, tx: Tx, k: Key)
    requires Represents(env, rows, m) && Refines(env, m, tx)
    ensures View(rows, tx, k) == StoredAt(env, Replay(env, m, tx.events), k)
  {
    assert RowAt(rows, k) == StoredAt(env, m, k);
    if k !in tx.overlay {
      ReplayFrame(env, m, tx.events, k);
      assert Lookup(m, k) == Lookup(Replay(env, m, tx.events), k);
    }
  }

  lemma ReadKeepsOk(env: Env, rows: map<Key, Row>, log: seq<Event>, tx: Tx)
    requires DatesParse(env.iso, env.parse) && CommittedOk(env, rows, log) && TxOk(env, rows, log, tx) && tx.pc.Locked?
    ensures TxOk(env, rows, log, AfterRead(env, rows, tx))
    ensures AfterRead(env, rows, tx).pc.Got?
  {
    var m := Replay(env, map[], log);
    var key := tx.pc.key;
    ViewIsReplay(env, rows, m, tx, key);
    ReplayIsSound(env, m, tx.events);
    var cur := Replay(env, m, tx.events);
    if key in cur {
      EntryRoundTrip(env.iso, env.parse, cur[key]);
    }
  }

  /** One more event, with the overlay to match. */
  lemma RefinesGrows(env: Env, m: Table, tx: Tx, e: Event, row: Option<Row>, pc: Pc)
    requires Refines(env, m, tx) && LegalEvent(env, Replay(env, m, tx.events), e)
    requires row == StoredAt(env, Apply(env, Replay(env, m, tx.events), e), e.key)
    requires row.Some? ==> env.lockKey(e.key) in tx.advisory
    requires e.Cleared? ==> e.cause in tx.overlay
    ensures Refines(env, m, tx.(pc := pc, held := tx.held + {e.key}, overlay := tx.overlay[e.key := row], events := tx.events + [e]))
    ensures Replay(env, m, tx.events + [e]) == Apply(env, Replay(env, m, tx.events), e)
  {
    LegalExtends(env, m, tx.events, e);
    CausesGrow(tx.events, e);
    OverlayGrows(env, tx.overlay, Replay(env, m, tx.events), e);
    LockedGrows(env, tx.overlay, tx.advisory, e.key, row);
  }

  lemma LockedGrows(env: Env, overlay: map<Key, Option<Row>>, advisory: set<int>, k: Key, row: Option<Row>)
    requires WritesLocked(env, overlay, advisory) && (row.Some? ==> env.lockKey(k) in advisory)
    ensures WritesLocked(env, overlay[k := row], advisory)
  {
  }

  lemma OverlayGrows(env: Env, overlay: map<Key, Option<Row>>, m: Table, e: Event)
    requires Overlays(env, overlay, m)
    ensures Overlays(env, overlay[e.key := StoredAt(env, Apply(env, m, e), e.key)], Apply(env, m, e))
  {
    forall k | k in overlay && k != e.key ensures overlay[k] == StoredAt(env, Apply(env, m, e), k) {
      assert Lookup(m, k) == Lookup(Apply(env, m, e), k);
    }
  }

  lemma CausesGrow(events: seq<Event>, e: Event)
    ensures Causes(events + [e]) <= Causes(events) + (if e.Cleared? then {e.cause} else {})
  {
  }

  lemma UpsertKeepsOk(env: Env, rows: map<Key, Row>, log: seq<Event>, tx: Tx)
    requires TxOk(env, rows, log, tx) && tx.pc.Got?
    ensures TxOk(env, rows, log, AfterUpsert(env, tx))
  {
    var m := Replay(env, map[], log);
    var Got(key, entry, existing) := tx.pc;
    if Result(env, existing, entry).Some? {
      var e := Wrote(key, entry);
      var result := Result(env, existing, entry).value;
      RefinesGrows(env, m, tx, e, Some(RowOf(env, result)), AfterUpsert(env, tx).pc);
    }
  }

  lemma ClearBeginKeepsOk(env: Env, s: State, tx: Tx)
    requires TxOk(env, s.rows, s.log, tx) && tx.pc.Sweep?
    ensures TxOk(env, s.rows, s.log, AfterClearBegin(s, tx))
  {
    var next := AfterClearBegin(s, tx);
    forall k | RowSuperseded(View(s.rows, next, k), k, next.pc.key, next.pc.result)
      ensures k in next.pc.todo
    {
      assert View(s.rows, next, k) == View(s.rows, tx, k);
    }
  }

  lemma ClearRowKeepsOk(env: Env, rows: map<Key, Row>, log: seq<Event>, tx: Tx, k: Key, skip: bool)
    requires CommittedOk(env, rows, log) && TxOk(env, rows, log, tx) && tx.pc.Clearing?
    requires skip ==> k in Touched(log[tx.pc.since..])
    ensures TxOk(env, rows, log, AfterClearRow(rows, tx, k, skip))
  {
    var m := Replay(env, map[], log);
    var next := AfterClearRow(rows, tx, k, skip);
    var Clearing(key, result, since, todo) := tx.pc;
    if !skip && RowSuperseded(View(rows, tx, k), k, key, result) {
      ViewIsReplay(env, rows, m, tx, k);
      var e := Cleared(k, key);
      RefinesGrows(env, m, tx, e, None, next.pc);
      assert Settled(env, m, next, key, result);
    }
    SweepAdvances(rows, log, tx, k, skip);
  }

  lemma SweepAdvances(rows: map<Key, Row>, log: seq<Event>, tx: Tx, k: Key, skip: bool)
    requires tx.pc.Clearing? && tx.pc.since <= |log| && (skip ==> k in Touched(log[tx.pc.since..]))
    requires SweptSoFar(rows, log, tx, tx.pc.key, tx.pc.result, tx.pc.since, tx.pc.todo)
    ensures var next := AfterClearRow(rows, tx, k, skip);
      SweptSoFar(rows, log, next, next.pc.key, next.pc.result, next.pc.since, next.pc.todo)
  {
    var next := AfterClearRow(rows, tx, k, skip);
    var Clearing(key, result, since, todo) := tx.pc;
    forall j | RowSuperseded(View(rows, next, j), j, key, result) && j !in Touched(log[since..])
      ensures j in next.pc.todo
    {
      assert j != k ==> View(rows, next, j) == View(rows, tx, j);
    }
  }

  // ----- commit -----------------------------------------------------------------------------------

  lemma CommitKeepsCommitted(env: Env, rows: map<Key, Row>, log: seq<Event>, tx: Tx)
    requires CommittedOk(env, rows, log) && TxOk(env, rows, log, tx)
    ensures CommittedOk(env, Patch(rows, tx.overlay), log + tx.events)
  {
    var m := Replay(env, map[], log);
    ReplayAppends(env, map[], log, tx.events);
    LegalAppends(env, map[], log, tx.events);
    ReplayIsSound(env, m, tx.events);
    forall k ensures RowAt(Patch(rows, tx.overlay), k) == StoredAt(env, Replay(env, m, tx.events), k) {
      ViewIsReplay(env, rows, m, tx, k);
      PatchIsView(rows, tx, k);
    }
  }

  lemma PatchIsView(rows: map<Key, Row>, tx: Tx, k: Key)
    ensures RowAt(Patch(rows, tx.overlay), k) == View(rows, tx, k)
  {
  }

  /** A commit changes no row that another transaction has locked. */
  lemma CommitLeavesOthers(env: Env, rows: map<Key, Row>, log: seq<Event>, tx: Tx, other: Tx)
    requires CommittedOk(env, rows, log) && TxOk(env, rows, log, tx) && TxOk(env, rows, log, other) && Apart(tx, other)
    ensures Refines(env, Replay(env, map[], log + tx.events), other)
    ensures Agree(Replay(env, Replay(env, map[], log), other.events), Replay(env, Replay(env, map[], log + tx.events), other.events), other.held)
  {
    var m := Replay(env, map[], log);
    ReplayAppends(env, map[], log, tx.events);
    var m' := Replay(env, m, tx.events);
    forall k | k in other.held ensures Lookup(m, k) == Lookup(m', k) {
      ReplayFrame(env, m, tx.events, k);
    }
    LegalIsLocal(env, m, m', other.events, other.held);
    ReplayIsLocal(env, m, m', other.events, other.held);
    var a, b := Replay(env, m, other.events), Replay(env, m', other.events);
    forall k | k in other.overlay ensures other.overlay[k] == StoredAt(env, b, k) {
      assert Lookup(a, k) == Lookup(b, k);
    }
  }

  /** A write that found no row is not overtaken by another first write to the same hash: that is
      what the advisory lock is for. */
  lemma AbsentStaysAbsent(env: Env, rows: map<Key, Row>, log: seq<Event>, tx: Tx, other: Tx, key: Key)
    requires CommittedOk(env, rows, log) && TxOk(env, rows, log, tx) && TxOk(env, rows, log, other) && Apart(tx, other)
    requires env.lockKey(key) in other.advisory && key !in Replay(env, Replay(env, map[], log), other.events)
    ensures key !in Replay(env, Replay(env, map[], log + tx.events), other.events)
  {
    var m := Replay(env, map[], log);
    ReplayAppends(env, map[], log, tx.events);
    var m' := Replay(env, m, tx.events);
    if key in other.overlay {
      CommitLeavesOthers(env, rows, log, tx, other);
      assert Lookup(Replay(env, m, other.events), key) == Lookup(Replay(env, m', other.events), key);
    } else {
      ReplayFrame(env, m, other.events, key);
      ReplayFrame(env, m', other.events, key);
      if key in tx.overlay {
        assert tx.overlay[key] == StoredAt(env, m', key);
      } else {
        ReplayFrame(env, m, tx.events, key);
      }
      assert Lookup(m', key) == None;
    }
  }

  lemma CommitKeepsSweep(rows: map<Key, Row>, log: seq<Event>, tx: Tx, other: Tx)
    requires tx.overlay.Keys == Touched(tx.events)
    requires other.pc.Clearing? && other.pc.since <= |log|
    requires SweptSoFar(rows, log, other, other.pc.key, other.pc.result, other.pc.since, other.pc.todo)
    ensures SweptSoFar(Patch(rows, tx.overlay), log + tx.events, other, other.pc.key, other.pc.result, other.pc.since, other.pc.todo)
  {
    var Clearing(key, result, since, todo) := other.pc;
    var rows' := Patch(rows, tx.overlay);
    assert (log + tx.events)[since..] == log[since..] + tx.events;
    TouchedAppends(log[since..], tx.events);
    forall k | RowSuperseded(View(rows', other, k), k, key, result) && k !in Touched((log + tx.events)[since..])
      ensures k in todo
    {
      assert View(rows', other, k) == View(rows, other, k);
    }
  }

  lemma CommitKeepsOthers(env: Env, rows: map<Key, Row>, log: seq<Event>, tx: Tx, other: Tx)
    requires CommittedOk(env, rows, log) && TxOk(env, rows, log, tx) && TxOk(env, rows, log, other) && Apart(tx, other)
    ensures TxOk(env, Patch(rows, tx.overlay), log + tx.events, other)
  {
    CommitLeavesOthers(env, rows, log, tx, other);
    var m, m' := Replay(env, map[], log), Replay(env, map[], log + tx.events);
    match other.pc
    case Idle =>
    case Locked(key, entry) =>
    case Got(key, entry, existing) =>
      if existing.Some? {
        assert Lookup(Replay(env, m, other.events), key) == Lookup(Replay(env, m', other.events), key);
      } else {
        AbsentStaysAbsent(env, rows, log, tx, other, key);
      }
    case Sweep(key, result) =>
      assert Lookup(Replay(env, m, other.events), key) == Lookup(Replay(env, m', other.events), key);
    case Clearing(key, result, since, todo) =>
      assert Lookup(Replay(env, m, other.events), key) == Lookup(Replay(env, m', other.events), key);
      CommitKeepsSweep(rows, log, tx, other);
  }

  // ----- every step -------------------------------------------------------------------------------

  /** A step of one transaction that commits nothing. */
  lemma WorkKeepsInv(env: Env, s: State, s': State, t: nat, next: Tx)
    requires Inv(env, s) && t in s.txs && s' == s.(txs := s.txs[t := next])
    requires TxOk(env, s.rows, s.log, next)
    requires forall u :: u in s.txs && u != t ==> Apart(next, s.txs[u])
    ensures Inv(env, s')
  {
    forall a, b | a in s'.txs && b in s'.txs && a != b ensures Apart(s'.txs[a], s'.txs[b]) {
      assert a != t && b != t ==> Apart(s.txs[a], s.txs[b]);
    }
    forall u | u in s'.txs ensures TxOk(env, s'.rows, s'.log, s'.txs[u]) {
      assert u != t ==> TxOk(env, s.rows, s.log, s.txs[u]);
    }
  }

  /** Taking a lock nobody else holds keeps the transactions apart. */
  lemma ApartGrows(s: State, t: nat, next: Tx, ids: set<int>, keys: set<Key>)
    requires t in s.txs && Exclusive(s.txs)
    requires next.advisory <= s.txs[t].advisory + ids && next.held <= s.txs[t].held + keys
    requires forall id :: id in ids ==> AdvisoryFree(s, t, id)
    requires forall k :: k in keys ==> RowFree(s, t, k)
    ensures forall u :: u in s.txs && u != t ==> Apart(next, s.txs[u])
  {
    forall u | u in s.txs && u != t ensures Apart(next, s.txs[u]) {
      assert Apart(s.txs[t], s.txs[u]);
      assert forall id :: id in ids ==> id !in s.txs[u].advisory;
      assert forall k :: k in keys ==> k !in s.txs[u].held;
    }
  }

  lemma CommitKeepsInv(env: Env, s: State, s': State, t: nat)
    requires Inv(env, s) && NextBy(env, s, Commit(t), s')
    ensures Inv(env, s')
  {
    CommitKeepsCommitted(env, s.rows, s.log, s.txs[t]);
    forall u | u in s'.txs ensures TxOk(env, s'.rows, s'.log, s'.txs[u]) {
      assert Apart(s.txs[t], s.txs[u]);
      CommitKeepsOthers(env, s.rows, s.log, s.txs[t], s.txs[u]);
    }
    forall a, b | a in s'.txs && b in s'.txs && a != b ensures Apart(s'.txs[a], s'.txs[b]) {
      assert Apart(s.txs[a], s.txs[b]);
    }
  }

  lemma WriteStepKeepsInv(env: Env, s: State, step: Step, s': State)
    requires DatesParse(env.iso, env.parse) && Inv(env, s) && NextBy(env, s, step, s') && (step.Read? || step.Upsert?)
    ensures Inv(env, s')
  {
    var t := step.t;
    assert TxOk(env, s.rows, s.log, s.txs[t]);
    if step.Read? { ReadKeepsOk(env, s.rows, s.log, s.txs[t]); } else { UpsertKeepsOk(env, s.rows, s.log, s.txs[t]); }
    ApartGrows(s, t, s'.txs[t], {}, {s.txs[t].pc.key});
    WorkKeepsInv(env, s, s', t, s'.txs[t]);
  }

  lemma ClearStepKeepsInv(env: Env, s: State, step: Step, s': State)
    requires Inv(env, s) && NextBy(env, s, step, s') && (step.ClearBegin? || step.ClearRow? || step.ClearEnd?)
    ensures Inv(env, s')
  {
    var t := step.t;
    assert TxOk(env, s.rows, s.log, s.txs[t]);
    if step.ClearBegin? { ClearBeginKeepsOk(env, s, s.txs[t]); }
    if step.ClearRow? { ClearRowKeepsOk(env, s.rows, s.log, s.txs[t], step.k, step.skip); }
    ApartGrows(s, t, s'.txs[t], {}, if step.ClearRow? then {step.k} else {});
    WorkKeepsInv(env, s, s', t, s'.txs[t]);
  }

  lemma StepKeepsInv(env: Env, s: State, step: Step, s': State)
    requires DatesParse(env.iso, env.parse) && Inv(env, s) && NextBy(env, s, step, s')
    ensures Inv(env, s')
  {
    match step
    case Begin(t) => BeginKeepsInv(env, s, s', t);
    case Lock(t, key, entry) => LockKeepsInv(env, s, s', t, key, entry);
    case Read(_) => WriteStepKeepsInv(env, s, step, s');
    case Upsert(_) => WriteStepKeepsInv(env, s, step, s');
    case Commit(t) => CommitKeepsInv(env, s, s', t);
    case Abort(_) => EndKeepsInv(env, s, s');
    case Crash => EndKeepsInv(env, s, s');
    case _ => ClearStepKeepsInv(env, s, step, s');
  }

  lemma EndKeepsInv(env: Env, s: State, s': State)
    requires Inv(env, s) && s'.rows == s.rows && s'.log == s.log
    requires forall u :: u in s'.txs ==> u in s.txs && s'.txs[u] == s.txs[u]
    ensures Inv(env, s')
  {
    forall a, b | a in s'.txs && b in s'.txs && a != b ensures Apart(s'.txs[a], s'.txs[b]) {
      assert Apart(s.txs[a], s.txs[b]);
    }
    forall u | u in s'.txs ensures TxOk(env, s'.rows, s'.log, s'.txs[u]) {
      assert TxOk(env, s.rows, s.log, s.txs[u]);
    }
  }

  lemma BeginKeepsInv(env: Env, s: State, s': State, t: nat)
    requires Inv(env, s) && NextBy(env, s, Begin(t), s')
    ensures Inv(env, s')
  {
    forall a, b | a in s'.txs && b in s'.txs && a != b ensures Apart(s'.txs[a], s'.txs[b]) {
      assert a != t && b != t ==> Apart(s.txs[a], s.txs[b]);
    }
    forall u | u in s'.txs ensures TxOk(env, s'.rows, s'.log, s'.txs[u]) {
      assert u != t ==> TxOk(env, s.rows, s.log, s.txs[u]);
    }
  }

  lemma LockKeepsInv(env: Env, s: State, s': State, t: nat, key: Key, entry: Entry)
    requires Inv(env, s) && NextBy(env, s, Lock(t, key, entry), s')
    ensures Inv(env, s')
  {
    ApartGrows(s, t, s'.txs[t], {env.lockKey(key)}, {});
    assert TxOk(env, s.rows, s.log, s.txs[t]);
    WorkKeepsInv(env, s, s', t, s'.txs[t]);
  }

  lemma NextKeepsInv(env: Env, s: State, s': State)
    requires DatesParse(env.iso, env.parse) && Inv(env, s) && Next(env, s, s')
    ensures Inv(env, s')
  {
    var step :| NextBy(env, s, step, s');
    StepKeepsInv(env, s, step, s');
  }

  lemma {:induction false} RunKeepsInv(env: Env, run: seq<State>, i: nat)
    requires DatesParse(env.iso, env.parse) && IsRun(env, run) && i < |run|
    ensures Inv(env, run[i])
  {
    if i > 0 {
      RunKeepsInv(env, run, i - 1);
      assert Next(env, run[i - 1], run[i - 1 + 1]);
      NextKeepsInv(env, run[i - 1], run[i]);
    }
  }

  // ----- the theorems -------------------------------------------------------------------------------

  /** The writes to a hash since its row was last absent, oldest first. */
  function WritesSinceAbsent(log: seq<Event>, k: Key): seq<Entry> {
    if log == [] then []
    else
      var before, e := WritesSinceAbsent(log[..|log| - 1], k), log[|log| - 1];
      if e.key != k then before else if e.Cleared? then [] else before + [e.entry]
  }

  /** First write verbatim, each later one merged into what is there. */
  function FoldMerge(env: Env, writes: seq<Entry>): Option<Entry> {
    if writes == [] then None
    else
      var last := writes[|writes| - 1];
      match FoldMerge(env, writes[..|writes| - 1])
      case None => Some(last)
      case Some(sofar) => env.merge(sofar, last)
  }

  lemma {:induction false} ReplayIsFold(env: Env, log: seq<Event>, k: Key)
    requires Legal(env, map[], log)
    ensures Lookup(Replay(env, map[], log), k) == FoldMerge(env, WritesSinceAbsent(log, k))
    ensures WritesSinceAbsent(log, k) != [] ==> FoldMerge(env, WritesSinceAbsent(log, k)).Some?
    decreases |log|
  {
    if log != [] {
      var front, e := log[..|log| - 1], log[|log| - 1];
      LegalFront(env, map[], log);
      ReplayIsFold(env, front, k);
      assert LegalEvent(env, Replay(env, map[], front), e);
      var writes := WritesSinceAbsent(front, k);
      if e.key == k && e.Wrote? {
        assert (writes + [e.entry])[..|writes|] == writes;
      }
    }
  }

  /** In every reachable state the row of a hash holds, and reads back as, the left fold of the
      merge function over the committed writes since the row was last absent; there is no row
      exactly when there are no such writes. */
  lemma StoredEntryIsFoldOfWrites(env: Env, run: seq<State>, i: nat, k: Key)
    requires DatesParse(env.iso, env.parse) && IsRun(env, run) && i < |run|
    ensures k in run[i].rows <==> WritesSinceAbsent(run[i].log, k) != []
    ensures k in run[i].rows ==>
      && FoldMerge(env, WritesSinceAbsent(run[i].log, k)).Some?
      && ReadRow(env, k, run[i].rows[k]) == FoldMerge(env, WritesSinceAbsent(run[i].log, k))
      && run[i].rows[k] == RowOf(env, FoldMerge(env, WritesSinceAbsent(run[i].log, k)).value)
  {
    RunKeepsInv(env, run, i);
    ReplayIsFold(env, run[i].log, k);
    var m := Replay(env, map[], run[i].log);
    assert RowAt(run[i].rows, k) == StoredAt(env, m, k);
    if k in m { EntryRoundTrip(env.iso, env.parse, m[k]); }
  }

  /** Event i of the log cleared k, and at that moment k was pending with a non-empty identifier set
      contained in that of a finalized or rejected entry of the same wallet under another hash. */
  ghost predicate RightlyCleared(env: Env, log: seq<Event>, i: nat, k: Key) {
    && i < |log| && log[i].Cleared? && log[i].key == k
    && var gone, settled := FoldMerge(env, WritesSinceAbsent(log[..i], k)), FoldMerge(env, WritesSinceAbsent(log[..i], log[i].cause));
       && gone.Some? && settled.Some?
       && gone.value.lifecycle.Pending? && |gone.value.identifiers| > 0
       && !settled.value.lifecycle.Pending?
       && log[i].cause.wallet == k.wallet && log[i].cause.hash != k.hash
       && forall id :: id in gone.value.identifiers ==> id in settled.value.identifiers
  }

  ghost predicate RightlyClearedSince(env: Env, log: seq<Event>, from: nat, i: nat, k: Key) {
    from <= i && RightlyCleared(env, log, i, k)
  }

  ghost predicate ClearedBetween(env: Env, before: seq<Event>, after: seq<Event>, k: Key) {
    before <= after && exists i :: RightlyClearedSince(env, after, |before|, i, k)
  }

  lemma LegalPrefix(env: Env, log: seq<Event>, i: nat)
    requires Legal(env, map[], log) && i <= |log|
    ensures Legal(env, map[], log[..i])
  {
    forall j | 0 <= j < i ensures LegalEvent(env, Replay(env, map[], log[..i][..j]), log[..i][j]) {
      assert log[..i][..j] == log[..j];
    }
  }

  lemma ClearsAreRight(env: Env, log: seq<Event>, i: nat)
    requires Legal(env, map[], log) && i < |log| && log[i].Cleared?
    ensures RightlyCleared(env, log, i, log[i].key)
  {
    var k, cause := log[i].key, log[i].cause;
    var m := Replay(env, map[], log[..i]);
    assert LegalEvent(env, m, log[i]);
    LegalPrefix(env, log, i);
    ReplayIsFold(env, log[..i], k);
    ReplayIsFold(env, log[..i], cause);
    assert Lookup(m, k) == Some(m[k]) && Lookup(m, cause) == Some(m[cause]);
    forall id | id in m[k].identifiers ensures id in m[cause].identifiers {
      assert id in Elements(m[k].identifiers);
      assert id in Elements(m[cause].identifiers);
    }
  }

  /** If a key has writes before some events and none after, one of the events cleared it. */
  lemma {:induction false} AbsenceNeedsClear(log: seq<Event>, from: nat, k: Key) returns (i: nat)
    requires from <= |log| && WritesSinceAbsent(log[..from], k) != [] && WritesSinceAbsent(log, k) == []
    ensures from <= i < |log| && log[i].Cleared? && log[i].key == k
    decreases |log|
  {
    assert log[..|log|] == log;
    var front, e := log[..|log| - 1], log[|log| - 1];
    if e.key == k && e.Cleared? {
      i := |log| - 1;
    } else {
      assert front[..from] == log[..from];
      i := AbsenceNeedsClear(front, from, k);
    }
  }

  lemma LogGrows(env: Env, s: State, s': State)
    requires Next(env, s, s')
    ensures s.log <= s'.log
  {
    var step :| NextBy(env, s, step, s');
  }

  /** A row disappears only by the clearing rule; and every clear ever committed obeyed it. */
  lemma RowsDisappearOnlyWhenSuperseded(env: Env, run: seq<State>, n: nat, k: Key)
    requires DatesParse(env.iso, env.parse) && IsRun(env, run) && n + 1 < |run|
    requires k in run[n].rows && k !in run[n + 1].rows
    ensures ClearedBetween(env, run[n].log, run[n + 1].log, k)
  {
    assert Next(env, run[n], run[n + 1]);
    LogGrows(env, run[n], run[n + 1]);
    StoredEntryIsFoldOfWrites(env, run, n, k);
    StoredEntryIsFoldOfWrites(env, run, n + 1, k);
    RunKeepsInv(env, run, n + 1);
    var log := run[n + 1].log;
    assert log[..|run[n].log|] == run[n].log;
    var i := AbsenceNeedsClear(log, |run[n].log|, k);
    ClearsAreRight(env, log, i);
    assert RightlyClearedSince(env, log, |run[n].log|, i, k);
  }

  /** The row is a pending one of the same wallet under another hash, with identifiers, each of which the
      settled entry has too. */
  predicate StillPending(row: Row, k: Key, key: Key, result: Entry) {
    && k.wallet == key.wallet && k.hash != key.hash && row.lifecycle == Pending && row.identifiers != []
    && forall id :: id in row.identifiers ==> id in result.identifiers
  }

  /** When the clearing DELETE is over, every row it should still have removed was changed by another
      commit after the DELETE's snapshot. */
  lemma ClearingIsComplete(env: Env, run: seq<State>, n: nat, t: nat, k: Key)
    requires DatesParse(env.iso, env.parse) && IsRun(env, run) && n < |run|
    requires t in run[n].txs && run[n].txs[t].pc.Clearing? && run[n].txs[t].pc.todo == {}
    requires var view := View(run[n].rows, run[n].txs[t], k);
      view.Some? && StillPending(view.value, k, run[n].txs[t].pc.key, run[n].txs[t].pc.result)
    ensures run[n].txs[t].pc.since <= |run[n].log| && k in Touched(run[n].log[run[n].txs[t].pc.since..])
  {
    RunKeepsInv(env, run, n);
    assert TxOk(env, run[n].rows, run[n].log, run[n].txs[t]);
    SweptMeans(run[n].rows, run[n].log, run[n].txs[t], k);
  }

  lemma SweptMeans(rows: map<Key, Row>, log: seq<Event>, tx: Tx, k: Key)
    requires tx.pc.Clearing? && tx.pc.since <= |log| && SweptSoFar(rows, log, tx, tx.pc.key, tx.pc.result, tx.pc.since, tx.pc.todo)
    requires View(rows, tx, k).Some? && StillPending(View(rows, tx, k).value, k, tx.pc.key, tx.pc.result)
    ensures k in tx.pc.todo || k in Touched(log[tx.pc.since..])
  {
    ElementsMean(View(rows, tx, k).value.identifiers, tx.pc.result.identifiers);
    assert RowSuperseded(View(rows, tx, k), k, tx.pc.key, tx.pc.result);
  }

  lemma ElementsMean(a: seq<string>, b: seq<string>)
    ensures Elements(a) <= Elements(b) <==> forall id :: id in a ==> id in b
  {
    assert forall id :: id in Elements(a) <==> id in a;
    assert forall id :: id in Elements(b) <==> id in b;
  }

  // ----- no settled write commits without its clear -----------------------------------------------

  /** The transaction has upserted r and its clearing DELETE is still to be finished. */
  ghost predicate Owes(s: State, t: nat, key: Key, r: Entry) {
    && t in s.txs && (s.txs[t].pc.Sweep? || s.txs[t].pc.Clearing?)
    && s.txs[t].pc.key == key && s.txs[t].pc.result == r
  }

  ghost predicate Pays(s: State, s': State, t: nat) {
    && t in s.txs && s.txs[t].pc.Clearing? && s.txs[t].pc.todo == {}
    && t in s'.txs && s'.txs[t].pc.Idle?
  }

  lemma OwingStep(env: Env, s: State, s': State, t: nat, key: Key, r: Entry)
    requires Owes(s, t, key, r) && Next(env, s, s') && t in s'.txs
    ensures Owes(s', t, key, r) || Pays(s, s', t)
  {
    var step :| NextBy(env, s, step, s');
  }

  lemma {:induction false} FindClear(env: Env, run: seq<State>, j: nat, b: nat, t: nat, key: Key, r: Entry) returns (c: nat)
    requires IsRun(env, run) && j <= b < |run| && Owes(run[j], t, key, r) && forall i :: j <= i <= b ==> t in run[i].txs
    requires run[b].txs[t].pc.Idle?
    ensures j <= c < b && Owes(run[c], t, key, r) && Pays(run[c], run[c + 1], t)
    decreases b - j
  {
    assert Next(env, run[j], run[j + 1]);
    OwingStep(env, run[j], run[j + 1], t, key, r);
    if Pays(run[j], run[j + 1], t) { c := j; } else { c := FindClear(env, run, j + 1, b, t, key, r); }
  }

  /** Between an upsert whose result is finalized or rejected and has identifiers, and the commit of its
      transaction, the clearing DELETE of exactly that result has run to its end. */
  lemma SettledWriteClearsBeforeCommit(env: Env, run: seq<State>, a: nat, b: nat, t: nat, r: Entry) returns (c: nat)
    requires IsRun(env, run) && a < b < |run| - 1 && NextBy(env, run[a], Upsert(t), run[a + 1]) && NextBy(env, run[b], Commit(t), run[b + 1])
    requires forall i :: a < i <= b ==> t in run[i].txs
    requires var pc := run[a].txs[t].pc;
      if pc.existing.None? then r == pc.entry else env.merge(pc.existing.value, pc.entry) == Some(r) && r.hash == pc.entry.hash && ValidEntry(r)
    requires (r.lifecycle == Finalized || r.lifecycle == Rejected) && r.identifiers != []
    ensures a < c < b && t in run[c].txs && run[c].txs[t].pc.Clearing? && run[c].txs[t].pc.todo == {}
    ensures run[c].txs[t].pc.key == run[a].txs[t].pc.key && run[c].txs[t].pc.result == r
  {
    var key := run[a].txs[t].pc.key;
    assert Owes(run[a + 1], t, key, r);
    c := FindClear(env, run, a + 1, b, t, key, r);
  }
}
