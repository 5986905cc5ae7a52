/**
 * The blob-role protocol of the chain archive: the trigger on referencing tables takes FOR SHARE
 * on the role row it depends on, the trigger on `chain_blob_roles` takes FOR UPDATE and looks for
 * live references before a role row may be removed or repointed.
 *
 * A reference is one blob column of one row (its header, body, raw or key hash together with the
 * role that column requires). Isolation levels matter: at READ COMMITTED the guard's EXISTS reads
 * the latest committed rows, at REPEATABLE READ it reads the transaction's snapshot.
 */
module BlobRoles {
  import opened Chunking

  datatype RoleRow = RoleRow(blob: Bytes, role: string)
  type Refs = map<nat, RoleRow>

  datatype Isolation = ReadCommitted | RepeatableRead

  /** `refs` holds this transaction's inserted, repointed (Some) and removed (None) references. */
  datatype Tx = Tx(isolation: Isolation, snapshot: Refs,
                   share: set<RoleRow>, exclusive: set<RoleRow>,
                   added: set<RoleRow>, removed: set<RoleRow>,
                   refs: map<nat, Option<RoleRow>>)

  datatype State = State(roles: set<RoleRow>, refs: Refs, txs: map<nat, Tx>)

  function RolesSeen(s: State, tx: Tx): set<RoleRow> { (s.roles - tx.removed) + tx.added }

  function Overlay(refs: Refs, own: map<nat, Option<RoleRow>>): Refs {
    map id | id in refs.Keys + own.Keys && (id in own ==> own[id].Some?) :: if id in own then own[id].value else refs[id]
  }

  /** The rows the guard's EXISTS subquery can see. */
  function RefsSeen(s: State, tx: Tx): Refs {
    Overlay(if tx.isolation == ReadCommitted then s.refs else tx.snapshot, tx.refs)
  }

  /** FOR SHARE waits for a writer; FOR UPDATE waits for everybody. */
  ghost predicate MayShare(s: State, t: nat, r: RoleRow) {
    forall u :: u in s.txs && u != t ==> r !in s.txs[u].exclusive
  }

  ghost predicate MayExclude(s: State, t: nat, r: RoleRow) {
    forall u :: u in s.txs && u != t ==> r !in s.txs[u].exclusive && r !in s.txs[u].share
  }

  /** The unique index on (blob_hash, role) makes an insert wait for a pending insert or removal. */
  ghost predicate MayInsert(s: State, t: nat, r: RoleRow) {
    forall u :: u in s.txs && u != t ==> r !in s.txs[u].added && r !in s.txs[u].exclusive
  }

  ghost predicate RefFree(s: State, t: nat, id: nat) {
    forall u :: u in s.txs && u != t ==> id !in s.txs[u].refs
  }

  datatype Step =
    | Begin(isolation: Isolation)
    | AddRole(r: RoleRow)             // INSERT ... ON CONFLICT DO NOTHING
    | PutRef(id: nat, r: RoleRow)     // INSERT or UPDATE OF the blob column
    | DropRef(id: nat)
    | RemoveRole(r: RoleRow)          // DELETE
    | RepointRole(r: RoleRow, into: RoleRow)  // UPDATE OF blob_hash, role
    | Commit | Abort | Crash

  function AfterAdd(s: State, tx: Tx, r: RoleRow): Tx {
    if r in RolesSeen(s, tx) then tx else tx.(added := tx.added + {r})
  }

  function AfterRemove(tx: Tx, r: RoleRow): Tx {
    tx.(exclusive := tx.exclusive + {r}, removed := tx.removed + {r}, added := tx.added - {r})
  }

  /** chain_archive_assert_role_removable. */
  ghost predicate Removable(s: State, t: nat, r: RoleRow)
    requires t in s.txs
  {
    && r in RolesSeen(s, s.txs[t]) && MayExclude(s, t, r)
    && forall id :: id in RefsSeen(s, s.txs[t]) ==> RefsSeen(s, s.txs[t])[id] != r
  }

  ghost predicate NextBy(s: State, t: nat, step: Step, s': State) {
    match step
    case Begin(iso) => t !in s.txs && s' == s.(txs := s.txs[t := Tx(iso, s.refs, {}, {}, {}, {}, map[])])
    case Crash => s' == s.(txs := map[])
    case Abort => t in s.txs && s' == s.(txs := s.txs - {t})
    case Commit =>
      t in s.txs && s' == State(RolesSeen(s, s.txs[t]), Overlay(s.refs, s.txs[t].refs), s.txs - {t})
    case AddRole(r) => t in s.txs && MayInsert(s, t, r) && s' == s.(txs := s.txs[t := AfterAdd(s, s.txs[t], r)])
    case PutRef(id, r) =>
      && t in s.txs && r in RolesSeen(s, s.txs[t]) && MayShare(s, t, r) && RefFree(s, t, id)
      && s' == s.(txs := s.txs[t := s.txs[t].(share := s.txs[t].share + {r}, refs := s.txs[t].refs[id := Some(r)])])
    case DropRef(id) =>
      && t in s.txs && RefFree(s, t, id)
      && s' == s.(txs := s.txs[t := s.txs[t].(refs := s.txs[t].refs[id := None])])
    case RemoveRole(r) => t in s.txs && Removable(s, t, r) && s' == s.(txs := s.txs[t := AfterRemove(s.txs[t], r)])
    case RepointRole(r, into) =>
      && t in s.txs && r != into && Removable(s, t, r) && into !in RolesSeen(s, s.txs[t]) && MayInsert(s, t, into)
      && s' == s.(txs := s.txs[t := AfterRemove(s.txs[t], r).(added := s.txs[t].added - {r} + {into})])
  }

  ghost predicate Next(s: State, s': State) {
    exists t, step :: NextBy(s, t, step, s')
  }

  ghost predicate IsRun(run: seq<State>) {
    && |run| > 0 && run[0] == State({}, map[], map[])
    && forall i :: 0 <= i < |run| - 1 ==> Next(run[i], run[i + 1])
  }

  /** Every committed reference names a blob that has the role its column requires. */
  ghost predicate Classified(s: State) {
    forall id :: id in s.refs ==> s.refs[id] in s.roles
  }

  /** Transactions that remove or repoint role rows run at READ COMMITTED, as `sql.begin` does. */
  ghost predicate RemoversReadCommitted(s: State) {
    forall t :: t in s.txs && s.txs[t].isolation == RepeatableRead ==> s.txs[t].exclusive == {}
  }

  ghost predicate TxSound(s: State, tx: Tx) {
    && (forall id :: id in tx.refs && tx.refs[id].Some? ==> tx.refs[id].value in tx.share && tx.refs[id].value in RolesSeen(s, tx))
    && tx.removed <= tx.exclusive
    && (forall id :: id in s.refs && s.refs[id] in tx.removed && s.refs[id] !in tx.added ==> id in tx.refs)
  }

  ghost predicate Inv(s: State) {
    && Classified(s)
    && (forall t :: t in s.txs ==> TxSound(s, s.txs[t]))
    && (forall t, u :: t in s.txs && u in s.txs && t != u ==> s.txs[t].share !! s.txs[u].exclusive)
  }

  lemma WorkKeepsInv(s: State, t: nat, tx: Tx, s': State)
    requires Inv(s) && s' == s.(txs := s.txs[t := tx]) && TxSound(s, tx)
    requires forall u :: u in s.txs && u != t ==> tx.share !! s.txs[u].exclusive && s.txs[u].share !! tx.exclusive
    ensures Inv(s')
  {
  }

  lemma RemoveSound(s: State, t: nat, r: RoleRow, more: set<RoleRow>)
    requires Inv(s) && t in s.txs && s.txs[t].isolation == ReadCommitted && Removable(s, t, r) && r !in more
    ensures var tx := AfterRemove(s.txs[t], r); TxSound(s, tx.(added := tx.added + more))
  {
    var tx := s.txs[t];
    var tx' := AfterRemove(tx, r).(added := tx.added - {r} + more);
    assert TxSound(s, tx);
    var seen := RefsSeen(s, tx);
    forall id | id in tx.refs && tx.refs[id].Some? ensures tx.refs[id].value in RolesSeen(s, tx') {
      assert id in seen && seen[id] == tx.refs[id].value;
    }
    assert forall id :: id in s.refs && id !in tx.refs ==> id in seen && seen[id] == s.refs[id];
  }

  lemma RoleStepKeepsInv(s: State, t: nat, step: Step, s': State)
    requires Inv(s) && NextBy(s, t, step, s') && RemoversReadCommitted(s')
    requires step.RemoveRole? || step.RepointRole?
    ensures Inv(s')
  {
    assert s'.txs[t].exclusive != {};
    RemoveSound(s, t, step.r, if step.RepointRole? then {step.into} else {});
    WorkKeepsInv(s, t, s'.txs[t], s');
  }

  lemma CommitKeepsInv(s: State, t: nat, s': State)
    requires Inv(s) && NextBy(s, t, Commit, s')
    ensures Inv(s')
  {
    var tx := s.txs[t];
    assert TxSound(s, tx);
    forall u | u in s'.txs ensures TxSound(s', s'.txs[u]) {
      assert TxSound(s, s.txs[u]);
      assert s.txs[u].share !! tx.exclusive && tx.share !! s.txs[u].exclusive;
    }
  }

  lemma StepKeepsInv(s: State, t: nat, step: Step, s': State)
    requires Inv(s) && NextBy(s, t, step, s') && RemoversReadCommitted(s')
    ensures Inv(s')
  {
    match step
    case RemoveRole(_) => RoleStepKeepsInv(s, t, step, s');
    case RepointRole(_, _) => RoleStepKeepsInv(s, t, step, s');
    case Commit => CommitKeepsInv(s, t, s');
    case Abort =>
    case Crash =>
    case Begin(_) => WorkKeepsInv(s, t, s'.txs[t], s');
    case _ =>
      assert TxSound(s, s.txs[t]);
      WorkKeepsInv(s, t, s'.txs[t], s');
  }

  /**
   * Blob-role safety. In every run whose role-removing transactions are READ COMMITTED, whatever
   * is interleaved, aborted or crashed, no committed row references a blob lacking its role.
   */
  lemma {:induction false} ReferencesStayClassified(run: seq<State>, i: nat)
    requires IsRun(run) && i < |run| && forall j :: 0 <= j < |run| ==> RemoversReadCommitted(run[j])
    ensures Inv(run[i]) && Classified(run[i])
  {
    if i > 0 {
      ReferencesStayClassified(run, i - 1);
      assert Next(run[i - 1], run[i - 1 + 1]);
      var t, step :| NextBy(run[i - 1], t, step, run[i]);
      StepKeepsInv(run[i - 1], t, step, run[i]);
    }
  }

  /** A statement that was let through has its effect when its transaction commits right after it. */
  lemma StatementsTakeEffect(s: State, t: nat, step: Step, s': State, s'': State)
    requires NextBy(s, t, step, s') && NextBy(s', t, Commit, s'')
    ensures step.AddRole? ==> step.r in s''.roles
    ensures step.PutRef? ==> step.id in s''.refs && s''.refs[step.id] == step.r
    ensures step.DropRef? ==> step.id !in s''.refs
    ensures step.RemoveRole? ==> step.r !in s''.roles
    ensures step.RepointRole? ==> step.r !in s''.roles && step.into in s''.roles
  {
  }

  // ----- one statement by itself ------------------------------------------------------------------

  predicate Unreferenced(s: State, r: RoleRow) { forall id :: id in s.refs ==> s.refs[id] != r }

  /** What each statement asks for when nothing else is going on: a role to reference, and no live
      reference to a role that goes. */
  predicate Allowed(s: State, step: Step) {
    match step
    case AddRole(_) => true
    case PutRef(_, r) => r in s.roles
    case DropRef(_) => true
    case RemoveRole(r) => r in s.roles && Unreferenced(s, r)
    case RepointRole(r, into) => r in s.roles && Unreferenced(s, r) && into !in s.roles
    case _ => false
  }

  function After(s: State, step: Step): State {
    match step
    case AddRole(r) => s.(roles := s.roles + {r})
    case PutRef(id, r) => s.(refs := s.refs[id := r])
    case DropRef(id) => s.(refs := s.refs - {id})
    case RemoveRole(r) => s.(roles := s.roles - {r})
    case RepointRole(r, into) => s.(roles := s.roles - {r} + {into})
    case _ => s
  }

  lemma LoneSteps(s: State, step: Step, begun: State, done: State)
    requires s.txs == map[] && begun == s.(txs := map[1 := Begun(s, ReadCommitted)]) && NextBy(begun, 1, step, done)
    requires !step.Begin? && !step.Commit? && !step.Abort? && !step.Crash?
    ensures Allowed(s, step) && 1 in done.txs && NextBy(done, 1, Commit, After(s, step))
  {
    var tx := Begun(s, ReadCommitted);
    assert RolesSeen(begun, tx) == s.roles && RefsSeen(begun, tx) == s.refs;
    assert done.txs - {1} == map[];
    assert RolesSeen(done, done.txs[1]) == After(s, step).roles;
    assert Overlay(done.refs, done.txs[1].refs) == After(s, step).refs;
  }

  lemma LoneStepIsEnabled(s: State, step: Step, begun: State) returns (done: State)
    requires s.txs == map[] && begun == s.(txs := map[1 := Begun(s, ReadCommitted)]) && Allowed(s, step)
    ensures NextBy(begun, 1, step, done)
  {
    var tx := Begun(s, ReadCommitted);
    assert RolesSeen(begun, tx) == s.roles && RefsSeen(begun, tx) == s.refs;
    match step
    case AddRole(r) => done := begun.(txs := begun.txs[1 := AfterAdd(begun, tx, r)]);
    case PutRef(id, r) => done := begun.(txs := begun.txs[1 := tx.(share := tx.share + {r}, refs := tx.refs[id := Some(r)])]);
    case DropRef(id) => done := begun.(txs := begun.txs[1 := tx.(refs := tx.refs[id := None])]);
    case RemoveRole(r) => done := begun.(txs := begun.txs[1 := AfterRemove(tx, r)]);
    case RepointRole(r, into) => done := begun.(txs := begun.txs[1 := AfterRemove(tx, r).(added := tx.added - {r} + {into})]);
  }

  /** From every quiet state a transaction of one statement goes through exactly when the statement is
      allowed, and it has that statement's effect and no other. */
  lemma LoneStatement(run: seq<State>, step: Step) returns (longer: seq<State>)
    requires IsRun(run) && Last(run).txs == map[] && !step.Begin? && !step.Commit? && !step.Abort? && !step.Crash?
    ensures var begun := Last(run).(txs := map[1 := Begun(Last(run), ReadCommitted)]);
      NextBy(Last(run), 1, Begin(ReadCommitted), begun) && (Allowed(Last(run), step) <==> exists done :: NextBy(begun, 1, step, done))
    ensures Allowed(Last(run), step) ==> IsRun(longer) && run <= longer && Last(longer) == After(Last(run), step)
  {
    var s := Last(run);
    var begun := s.(txs := map[1 := Begun(s, ReadCommitted)]);
    assert s.txs[1 := Begun(s, ReadCommitted)] == begun.txs;
    longer := run;
    if Allowed(s, step) {
      var done := LoneStepIsEnabled(s, step, begun);
      LoneSteps(s, step, begun, done);
      longer := ExtendedBy(run, 1, Begin(ReadCommitted), begun);
      longer := ExtendedBy(longer, 1, step, done);
      longer := ExtendedBy(longer, 1, Commit, After(s, step));
    } else if exists done :: NextBy(begun, 1, step, done) {
      var done :| NextBy(begun, 1, step, done);
      LoneSteps(s, step, begun, done);
    }
  }

  lemma ExtendedBy(run: seq<State>, t: nat, step: Step, s': State) returns (longer: seq<State>)
    requires IsRun(run) && NextBy(Last(run), t, step, s')
    ensures longer == run + [s'] && IsRun(longer) && Last(longer) == s'
  {
    longer := run + [s'];
    forall i | 0 <= i < |longer| - 1 ensures Next(longer[i], longer[i + 1]) {
      if i < |run| - 1 { assert Next(run[i], run[i + 1]); }
    }
  }

  // ----- at REPEATABLE READ ---------------------------------------------------------------------

  function Last(run: seq<State>): State
    requires |run| > 0
  {
    run[|run| - 1]
  }

  function Begun(s: State, isolation: Isolation): Tx { Tx(isolation, s.refs, {}, {}, {}, {}, map[]) }

  /** Only the transaction that began at REPEATABLE READ removes anything. */
  ghost predicate OnlyLateRemoves(s: State) {
    forall t :: t in s.txs && s.txs[t].exclusive != {} ==> s.txs[t].isolation == RepeatableRead
  }

  /** The run goes on, and whoever removes a role row from here on is REPEATABLE READ. */
  ghost predicate Continues(run: seq<State>, longer: seq<State>) {
    IsRun(longer) && run <= longer && forall j :: |run| <= j < |longer| ==> OnlyLateRemoves(longer[j])
  }

  lemma Extend(run: seq<State>, t: nat, step: Step, s': State)
    requires IsRun(run) && NextBy(Last(run), t, step, s') && OnlyLateRemoves(s')
    ensures Continues(run, run + [s'])
  {
    var _ := ExtendedBy(run, t, step, s');
  }

  /** Transaction 1 begins at REPEATABLE READ, transaction 2 as usual. */
  lemma BothBegin(run: seq<State>) returns (longer: seq<State>)
    requires IsRun(run) && Last(run).txs == map[]
    ensures Continues(run, longer)
    ensures var s := Last(run); Last(longer) == s.(txs := map[1 := Begun(s, RepeatableRead), 2 := Begun(s, ReadCommitted)])
  {
    var s := Last(run);
    var late, writer := Begun(s, RepeatableRead), Begun(s, ReadCommitted);
    var s1, s2 := s.(txs := map[1 := late]), s.(txs := map[1 := late, 2 := writer]);
    Extend(run, 1, Begin(RepeatableRead), s1);
    Extend(run + [s1], 2, Begin(ReadCommitted), s2);
    longer := run + [s1] + [s2];
  }

  /** Transaction 2 references r and commits. */
  lemma ReferenceAppears(run: seq<State>, s: State, r: RoleRow, id: nat) returns (longer: seq<State>)
    requires IsRun(run) && Last(run) == s.(txs := map[1 := Begun(s, RepeatableRead), 2 := Begun(s, ReadCommitted)])
    requires r in s.roles && id !in s.refs
    ensures Continues(run, longer)
    ensures Last(longer) == State(s.roles, s.refs[id := r], map[1 := Begun(s, RepeatableRead)])
  {
    var late, writer := Begun(s, RepeatableRead), Begun(s, ReadCommitted);
    var wrote := writer.(share := {r}, refs := map[id := Some(r)]);
    var s3 := s.(txs := map[1 := late, 2 := wrote]);
    assert writer.share + {r} == {r};
    Extend(run, 2, PutRef(id, r), s3);
    var s4 := State(s.roles, s.refs[id := r], map[1 := late]);
    assert RolesSeen(s3, wrote) == s.roles && Overlay(s.refs, wrote.refs) == s.refs[id := r] && s3.txs - {2} == map[1 := late];
    Extend(run + [s3], 2, Commit, s4);
    longer := run + [s3] + [s4];
  }

  /** The guard of transaction 1 looks into its snapshot and lets the role row go. */
  lemma RoleIsRemoved(run: seq<State>, s: State, r: RoleRow, id: nat) returns (longer: seq<State>)
    requires IsRun(run) && Last(run) == State(s.roles, s.refs[id := r], map[1 := Begun(s, RepeatableRead)])
    requires r in s.roles && forall i :: i in s.refs ==> s.refs[i] != r
    ensures Continues(run, longer) && Last(longer) == State(s.roles - {r}, s.refs[id := r], map[])
  {
    var late, s4 := Begun(s, RepeatableRead), Last(run);
    var removed := AfterRemove(late, r);
    assert RefsSeen(s4, late) == s.refs && RolesSeen(s4, late) == s.roles;
    var s5 := s4.(txs := map[1 := removed]);
    Extend(run, 1, RemoveRole(r), s5);
    var s6 := State(s.roles - {r}, s.refs[id := r], map[]);
    assert RolesSeen(s5, removed) == s.roles - {r} && Overlay(s5.refs, removed.refs) == s5.refs && s5.txs - {1} == map[];
    Extend(run + [s5], 1, Commit, s6);
    longer := run + [s5] + [s6];
  }

  /** The same triggers do not protect when the removing transaction is REPEATABLE READ: its guard
      looks into an old snapshot, and a share lock ended by commit leaves no mark on the row. From every
      reachable state without open transactions, every unreferenced role row and every unused row id
      there is a continuation that leaves a committed reference without its role. */
  lemma RepeatableReadRemovalBreaksIt(run: seq<State>, r: RoleRow, id: nat) returns (longer: seq<State>)
    requires IsRun(run) && Last(run).txs == map[] && r in Last(run).roles && id !in Last(run).refs
    requires forall i :: i in Last(run).refs ==> Last(run).refs[i] != r
    ensures Continues(run, longer) && Last(longer).txs == map[] && !Classified(Last(longer))
    ensures id in Last(longer).refs && Last(longer).refs[id] == r && r !in Last(longer).roles
  {
    var s := Last(run);
    longer := BothBegin(run);
    longer := ReferenceAppears(longer, s, r, id);
    longer := RoleIsRemoved(longer, s, r, id);
    assert id in Last(longer).refs;
  }
}
