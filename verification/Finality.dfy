/**
 * Canonical and finalized blocks. Transactions insert block rows (doing nothing on a primary-key
 * conflict) and update them; the database enforces the two CHECKs, the partial unique index on
 * (net, height) and the finalized-monotonic trigger statement by statement. `setCanonical` is two
 * such updates in one transaction, but the safety results hold for transactions made of any
 * inserts and updates at all.
 */
module Finality {
  import opened Chunking

  datatype Id = Id(net: string, height: nat, hash: string)
  datatype Status = Seen | Canonical | Orphaned | Pruned
  datatype Block = Block(canonical: bool, status: Status, finalized: bool)

  type Blocks = map<Id, Block>

  predicate SameSlot(a: Id, b: Id) { a.net == b.net && a.height == b.height }

  /** The table's two CHECK constraints. */
  predicate Checks(b: Block) { ((b.status == Canonical) == b.canonical) && (b.finalized ==> b.canonical) }

  /** The trigger, which fires on updates of `finalized`; other updates leave that column alone. */
  predicate Monotonic(before: Block, after: Block) { before.finalized ==> after.finalized }

  predicate CanonicalIn(rows: Blocks, id: Id) { id in rows && rows[id].canonical }

  /** blocks_one_canonical_per_height. */
  ghost predicate OneCanonical(rows: Blocks) {
    forall a, b :: CanonicalIn(rows, a) && CanonicalIn(rows, b) && SameSlot(a, b) ==> a == b
  }

  ghost predicate AllChecked(rows: Blocks) { forall id :: id in rows ==> Checks(rows[id]) }

  // ----- transactions ---------------------------------------------------------------------------

  /** A transaction is the rows it has written and holds locked. */
  datatype State = State(rows: Blocks, txs: map<nat, Blocks>)

  datatype Step =
    | Begin(t: nat)
    | InsertRow(t: nat, id: Id, block: Block)
    | UpdateRow(t: nat, id: Id, block: Block)
    | Commit(t: nat)
    | Abort(t: nat)
    | Crash

  ghost predicate RowFree(s: State, t: nat, id: Id) {
    forall u :: u in s.txs && u != t ==> id !in s.txs[u]
  }

  /** The unique-index check passes without waiting: no other canonical row at the slot in this
      transaction's view, and no other transaction has one in flight. */
  ghost predicate SlotFree(s: State, t: nat, id: Id)
    requires t in s.txs
  {
    && (forall other :: CanonicalIn(s.rows + s.txs[t], other) && SameSlot(other, id) ==> other == id)
    && (forall u, other :: u in s.txs && u != t && CanonicalIn(s.txs[u], other) ==> !SameSlot(other, id))
  }

  ghost predicate Writes(s: State, t: nat, id: Id, block: Block, s': State) {
    && t in s.txs && RowFree(s, t, id) && Checks(block) && (block.canonical ==> SlotFree(s, t, id))
    && s' == s.(txs := s.txs[t := s.txs[t][id := block]])
  }

  ghost predicate NextBy(s: State, step: Step, s': State) {
    match step
    case Begin(t) => t !in s.txs && s' == s.(txs := s.txs[t := map[]])
    case InsertRow(t, id, block) =>
      && t in s.txs && RowFree(s, t, id) && Checks(block)
      && if id in s.rows + s.txs[t] then s' == s else Writes(s, t, id, block, s')
    case UpdateRow(t, id, block) =>
      t in s.txs && id in s.rows + s.txs[t] && Monotonic((s.rows + s.txs[t])[id], block) && Writes(s, t, id, block, s')
    case Commit(t) => t in s.txs && s' == State(s.rows + s.txs[t], s.txs - {t})
    case Abort(t) => t in s.txs && s' == s.(txs := s.txs - {t})
    case Crash => s' == s.(txs := map[])
  }

  ghost predicate Next(s: State, s': State) { exists step :: NextBy(s, step, s') }

  ghost predicate IsRun(run: seq<State>) {
    && |run| > 0 && run[0] == State(map[], map[])
    && forall i :: 0 <= i < |run| - 1 ==> Next(run[i], run[i + 1])
  }

  // ----- the invariant --------------------------------------------------------------------------

  ghost predicate KeepsFinalized(rows: Blocks, rows': Blocks) {
    forall id :: id in rows && rows[id].finalized ==> id in rows' && rows'[id].finalized
  }

  ghost predicate TxOk(rows: Blocks, tx: Blocks) {
    OneCanonical(rows + tx) && AllChecked(tx) && KeepsFinalized(rows, rows + tx)
  }

  /** Two transactions lock different rows and claim different slots. */
  ghost predicate Apart(a: Blocks, b: Blocks) {
    a.Keys !! b.Keys && forall x, y :: CanonicalIn(a, x) && CanonicalIn(b, y) ==> !SameSlot(x, y)
  }

  ghost predicate AllApart(txs: map<nat, Blocks>) {
    forall t, u :: t in txs && u in txs && t != u ==> Apart(txs[t], txs[u])
  }

  ghost predicate Inv(s: State) {
    && OneCanonical(s.rows) && AllChecked(s.rows) && AllApart(s.txs)
    && forall t :: t in s.txs ==> TxOk(s.rows, s.txs[t])
  }

  lemma WriteKeepsTx(s: State, t: nat, id: Id, block: Block)
    requires Inv(s) && t in s.txs && Checks(block) && (block.canonical ==> SlotFree(s, t, id))
    requires id in s.rows + s.txs[t] ==> Monotonic((s.rows + s.txs[t])[id], block)
    ensures TxOk(s.rows, s.txs[t][id := block])
  {
    var before, after := s.rows + s.txs[t], s.rows + s.txs[t][id := block];
    assert TxOk(s.rows, s.txs[t]);
    assert after == before[id := block];
    forall a, b | CanonicalIn(after, a) && CanonicalIn(after, b) && SameSlot(a, b) ensures a == b {
      if a != id { assert CanonicalIn(before, a); }
      if b != id { assert CanonicalIn(before, b); }
    }
    forall x | x in s.rows && s.rows[x].finalized ensures x in after && after[x].finalized {
      assert x in before && before[x].finalized;
    }
  }

  lemma WriteKeepsApart(s: State, t: nat, id: Id, block: Block, u: nat)
    requires Inv(s) && t in s.txs && u in s.txs && u != t && RowFree(s, t, id) && (block.canonical ==> SlotFree(s, t, id))
    ensures Apart(s.txs[t][id := block], s.txs[u]) && Apart(s.txs[u], s.txs[t][id := block])
  {
    assert Apart(s.txs[t], s.txs[u]);
    var next := s.txs[t][id := block];
    forall x, y | CanonicalIn(next, x) && CanonicalIn(s.txs[u], y) ensures !SameSlot(x, y) {
      if x == id {
        assert block.canonical && !SameSlot(y, id);
      } else {
        assert CanonicalIn(s.txs[t], x);
      }
    }
    forall x, y | CanonicalIn(s.txs[u], x) && CanonicalIn(next, y) ensures !SameSlot(x, y) {
      assert !SameSlot(y, x);
    }
  }

  lemma WriteKeepsInv(s: State, t: nat, id: Id, block: Block, s': State)
    requires Inv(s) && Writes(s, t, id, block, s')
    requires id in s.rows + s.txs[t] ==> Monotonic((s.rows + s.txs[t])[id], block)
    ensures Inv(s')
  {
    WriteKeepsTx(s, t, id, block);
    forall u | u in s'.txs ensures TxOk(s'.rows, s'.txs[u]) {
      assert u != t ==> TxOk(s.rows, s.txs[u]);
    }
    forall a, b | a in s'.txs && b in s'.txs && a != b ensures Apart(s'.txs[a], s'.txs[b]) {
      if a == t { WriteKeepsApart(s, t, id, block, b); }
      else if b == t { WriteKeepsApart(s, t, id, block, a); }
      else { assert Apart(s.txs[a], s.txs[b]); }
    }
  }

  /** A commit spoils no other transaction's view: it claims another slot, or none. */
  lemma CommitKeepsTx(rows: Blocks, tx: Blocks, other: Blocks)
    requires OneCanonical(rows) && TxOk(rows, tx) && TxOk(rows, other) && Apart(tx, other)
    ensures TxOk(rows + tx, other)
  {
    var rows' := rows + tx;
    var after := rows' + other;
    forall a, b | CanonicalIn(after, a) && CanonicalIn(after, b) && SameSlot(a, b) ensures a == b {
      assert CanonicalIn(other, a) || CanonicalIn(rows', a);
      assert CanonicalIn(other, b) || CanonicalIn(rows', b);
      if CanonicalIn(other, a) && !CanonicalIn(tx, b) {
        assert CanonicalIn(rows + other, a) && CanonicalIn(rows + other, b);
      } else if CanonicalIn(other, b) && !CanonicalIn(tx, a) {
        assert CanonicalIn(rows + other, a) && CanonicalIn(rows + other, b);
      }
    }
    forall x | x in rows' && rows'[x].finalized ensures x in after && after[x].finalized {
      if x in other { assert x in rows && x !in tx && x in rows + other; }
    }
  }

  lemma CommitKeepsInv(s: State, s': State, t: nat)
    requires Inv(s) && NextBy(s, Commit(t), s')
    ensures Inv(s')
  {
    assert TxOk(s.rows, s.txs[t]);
    forall u | u in s'.txs ensures TxOk(s'.rows, s'.txs[u]) {
      assert TxOk(s.rows, s.txs[u]) && Apart(s.txs[t], s.txs[u]);
      CommitKeepsTx(s.rows, s.txs[t], s.txs[u]);
    }
    forall a, b | a in s'.txs && b in s'.txs && a != b ensures Apart(s'.txs[a], s'.txs[b]) {
      assert Apart(s.txs[a], s.txs[b]);
    }
  }

  lemma BeginOrEndKeepsInv(s: State, s': State)
    requires Inv(s) && s'.rows == s.rows
    requires forall u :: u in s'.txs ==> s'.txs[u] == map[] || (u in s.txs && s'.txs[u] == s.txs[u])
    ensures Inv(s')
  {
    forall u | u in s'.txs ensures TxOk(s'.rows, s'.txs[u]) {
      assert s.rows + map[] == s.rows;
      assert u in s.txs ==> TxOk(s.rows, s.txs[u]);
    }
    forall a, b | a in s'.txs && b in s'.txs && a != b ensures Apart(s'.txs[a], s'.txs[b]) {
      if a in s.txs && b in s.txs { assert Apart(s.txs[a], s.txs[b]); }
    }
  }

  lemma StepKeepsInv(s: State, step: Step, s': State)
    requires Inv(s) && NextBy(s, step, s')
    ensures Inv(s')
  {
    match step
    case InsertRow(t, id, block) => if s' != s { WriteKeepsInv(s, t, id, block, s'); }
    case UpdateRow(t, id, block) => WriteKeepsInv(s, t, id, block, s');
    case Commit(t) => CommitKeepsInv(s, s', t);
    case _ => BeginOrEndKeepsInv(s, s');
  }

  lemma StepKeepsFinalized(s: State, step: Step, s': State)
    requires Inv(s) && NextBy(s, step, s')
    ensures KeepsFinalized(s.rows, s'.rows)
  {
    if step.Commit? { assert TxOk(s.rows, s.txs[step.t]); }
  }

  lemma NextKeepsInv(s: State, s': State)
    requires Inv(s) && Next(s, s')
    ensures Inv(s') && KeepsFinalized(s.rows, s'.rows)
  {
    var step :| NextBy(s, step, s');
    StepKeepsInv(s, step, s');
    StepKeepsFinalized(s, step, s');
  }

  lemma {:induction false} RunKeepsInv(run: seq<State>, i: nat)
    requires IsRun(run) && i < |run|
    ensures Inv(run[i])
  {
    if i > 0 {
      RunKeepsInv(run, i - 1);
      assert Next(run[i - 1], run[i - 1 + 1]);
      NextKeepsInv(run[i - 1], run[i]);
    }
  }

  lemma {:induction false} FinalizedIsKept(run: seq<State>, i: nat, j: nat)
    requires IsRun(run) && i <= j < |run|
    ensures KeepsFinalized(run[i].rows, run[j].rows)
    decreases j
  {
    if i < j {
      FinalizedIsKept(run, i, j - 1);
      RunKeepsInv(run, j - 1);
      assert Next(run[j - 1], run[j - 1 + 1]);
      NextKeepsInv(run[j - 1], run[j]);
    }
  }

  // ----- the theorems ---------------------------------------------------------------------------

  /** At most one canonical block per network and height, in every reachable state. */
  lemma AtMostOneCanonical(run: seq<State>, i: nat, a: Id, b: Id)
    requires IsRun(run) && i < |run| && SameSlot(a, b) && a != b && CanonicalIn(run[i].rows, a)
    ensures !CanonicalIn(run[i].rows, b)
  {
    RunKeepsInv(run, i);
  }

  /** A finalized block stays canonical and finalized for ever, and no other block at its height is
      canonical or finalized, now or later. */
  lemma FinalityIsPermanent(run: seq<State>, i: nat, j: nat, id: Id, other: Id)
    requires IsRun(run) && i <= j < |run| && id in run[i].rows && run[i].rows[id].finalized
    requires SameSlot(id, other) && other != id
    ensures id in run[j].rows && run[j].rows[id] == Block(true, Canonical, true)
    ensures other in run[j].rows ==> !run[j].rows[other].canonical && !run[j].rows[other].finalized
  {
    FinalizedIsKept(run, i, j);
    RunKeepsInv(run, j);
    assert Checks(run[j].rows[id]);
    assert CanonicalIn(run[j].rows, id);
    if other in run[j].rows { assert Checks(run[j].rows[other]); }
  }

  // ----- putBlock and setCanonical are such transactions -----------------------------------------

  function Last(run: seq<State>): State
    requires |run| > 0
  {
    run[|run| - 1]
  }

  ghost predicate Extends(run: seq<State>, longer: seq<State>) { IsRun(longer) && run <= longer }

  lemma ExtendRun(run: seq<State>, step: Step, s': State)
    requires IsRun(run) && NextBy(Last(run), step, s')
    ensures Extends(run, run + [s'])
  {
    var longer := run + [s'];
    forall i | 0 <= i < |longer| - 1 ensures Next(longer[i], longer[i + 1]) {
      if i < |run| - 1 { assert Next(run[i], run[i + 1]); }
    }
  }

  function WithTx(s: State, tx: Blocks): State { s.(txs := map[0 := tx]) }

  /** Transaction 0 commits what it has written. */
  lemma Commits(run: seq<State>, s: State, tx: Blocks) returns (longer: seq<State>)
    requires IsRun(run) && Last(run) == WithTx(s, tx)
    ensures Extends(run, longer) && Last(longer) == State(s.rows + tx, map[])
  {
    var end := State(s.rows + tx, map[]);
    assert WithTx(s, tx).txs - {0} == map[];
    ExtendRun(run, Commit(0), end);
    longer := run + [end];
  }

  /** From every quiet state, every block that the CHECKs and the index allow can be inserted. */
  lemma PutBlockIsARun(run: seq<State>, id: Id, block: Block) returns (longer: seq<State>)
    requires IsRun(run) && Last(run).txs == map[] && id !in Last(run).rows && Checks(block)
    requires block.canonical ==> forall x :: CanonicalIn(Last(run).rows, x) ==> !SameSlot(x, id)
    ensures Extends(run, longer) && Last(longer) == State(Last(run).rows[id := block], map[])
  {
    var s := Last(run);
    assert s.rows + map[] == s.rows;
    ExtendRun(run, Begin(0), WithTx(s, map[]));
    longer := run + [WithTx(s, map[])];
    ExtendRun(longer, InsertRow(0, id, block), WithTx(s, map[id := block]));
    longer := Commits(longer + [WithTx(s, map[id := block])], s, map[id := block]);
    assert s.rows + map[id := block] == s.rows[id := block];
  }

  /** setCanonical's two updates: the old holder of the slot, if there is another, and the target. */
  function Demoted(rows: Blocks, other: Option<Id>): Blocks {
    if other.Some? then map[other.value := Block(false, Orphaned, false)] else map[]
  }

  /** From every quiet state, every allowed flip can be made, and ends as setCanonical does. */
  lemma SetCanonicalIsARun(run: seq<State>, id: Id, next: Block, other: Option<Id>) returns (longer: seq<State>)
    requires IsRun(run) && Last(run).txs == map[] && id in Last(run).rows && Monotonic(Last(run).rows[id], next)
    requires next.canonical && Checks(next)
    requires match other
      case Some(x) => x != id && SameSlot(x, id) && CanonicalIn(Last(run).rows, x) && !Last(run).rows[x].finalized
      case None => forall x :: CanonicalIn(Last(run).rows, x) && SameSlot(x, id) ==> x == id
    ensures Extends(run, longer) && Last(longer) == State((Last(run).rows + Demoted(Last(run).rows, other))[id := next], map[])
  {
    var s := Last(run);
    RunKeepsInv(run, |run| - 1);
    assert s.rows + map[] == s.rows;
    ExtendRun(run, Begin(0), WithTx(s, map[]));
    longer := run + [WithTx(s, map[])];
    var demoted := Demoted(s.rows, other);
    if other.Some? {
      ExtendRun(longer, UpdateRow(0, other.value, Block(false, Orphaned, false)), WithTx(s, demoted));
      longer := longer + [WithTx(s, demoted)];
    }
    NobodyElseCanonical(s.rows, demoted, id, other);
    assert WithTx(s, demoted).txs[0 := demoted[id := next]] == map[0 := demoted[id := next]];
    ExtendRun(longer, UpdateRow(0, id, next), WithTx(s, demoted[id := next]));
    longer := Commits(longer + [WithTx(s, demoted[id := next])], s, demoted[id := next]);
    assert s.rows + demoted[id := next] == (s.rows + demoted)[id := next];
  }

  lemma NobodyElseCanonical(rows: Blocks, demoted: Blocks, id: Id, other: Option<Id>)
    requires OneCanonical(rows) && demoted == Demoted(rows, other)
    requires match other
      case Some(x) => SameSlot(x, id) && CanonicalIn(rows, x)
      case None => forall x :: CanonicalIn(rows, x) && SameSlot(x, id) ==> x == id
    ensures forall x :: CanonicalIn(rows + demoted, x) && SameSlot(x, id) ==> x == id
  {
    forall x | CanonicalIn(rows + demoted, x) && SameSlot(x, id) ensures x == id {
      assert CanonicalIn(rows, x);
    }
  }

  // ----- setCanonical and putBlock by themselves ------------------------------------------------

  datatype Outcome = Done | BlockMissing | ConstraintViolated

  class BlocksTable {
    var rows: Blocks

    ghost predicate Valid()
      reads this
    {
      OneCanonical(rows) && AllChecked(rows)
    }

    constructor ()
      ensures Valid() && rows == map[]
    {
      rows := map[];
    }

    /** insertBlockRow: the CHECKs come first, then nothing happens on a primary-key conflict, then the
        unique index is an error. */
    method PutBlock(id: Id, block: Block) returns (outcome: Outcome)
      requires Valid()
      modifies this
      ensures Valid() && outcome != BlockMissing
      ensures outcome == Done <==>
        && (block.canonical <==> block.status == Canonical) && (block.finalized ==> block.canonical)
        && (id in old(rows) || (block.canonical ==> forall x :: CanonicalIn(old(rows), x) ==> !SameSlot(x, id)))
      ensures rows == if outcome == Done && id !in old(rows) then old(rows)[id := block] else old(rows)
    {
      if !Checks(block) { return ConstraintViolated; }
      if id in rows { return Done; }
      if block.canonical && exists x :: x in rows && CanonicalIn(rows, x) && SameSlot(x, id) {
        return ConstraintViolated;
      }
      ghost var before := rows;
      rows := rows[id := block];
      assert Valid() by {
        forall a, b | CanonicalIn(rows, a) && CanonicalIn(rows, b) && SameSlot(a, b) ensures a == b {
          assert a != id ==> CanonicalIn(before, a);
          assert b != id ==> CanonicalIn(before, b);
        }
      }
      return Done;
    }

    /** Unmark whoever holds the slot, then mark the target; any violation rolls both back. It
        succeeds exactly when the target exists, no other block there is finalized, and the call does
        not try to un-finalize the target; the last two are constraint violations, and a missing target
        alone is reported as such. */
    method SetCanonical(id: Id, finalized: Option<bool>) returns (outcome: Outcome)
      requires Valid()
      modifies this
      ensures Valid()
      ensures outcome == Done <==>
        && id in old(rows) && !(old(rows)[id].finalized && finalized == Some(false))
        && forall x :: x in old(rows) && SameSlot(x, id) && x != id ==> !old(rows)[x].finalized
      ensures outcome == ConstraintViolated <==>
        || (exists x :: x in old(rows) && SameSlot(x, id) && x != id && old(rows)[x].finalized)
        || (id in old(rows) && old(rows)[id].finalized && finalized == Some(false))
      ensures outcome == Done ==>
        && rows.Keys == old(rows).Keys
        && rows[id] == Block(true, Canonical, if finalized.Some? then finalized.value else old(rows)[id].finalized)
      ensures outcome == Done ==> forall x :: x in rows && x != id ==>
        rows[x] == if SameSlot(x, id) && old(rows)[x].canonical then Block(false, Orphaned, false) else old(rows)[x]
      ensures outcome != Done ==> rows == old(rows)
    {
      var begun := rows;
      rows := map x | x in rows ::
        if SameSlot(x, id) && rows[x].canonical && x != id then rows[x].(canonical := false, status := Orphaned) else rows[x];
      if exists x :: x in rows && !Checks(rows[x]) {
        rows := begun;
        return ConstraintViolated;
      }
      forall x | x in begun && SameSlot(x, id) && x != id ensures !begun[x].finalized {
        assert Checks(begun[x]) && Checks(rows[x]);
      }
      if id !in rows {
        rows := begun;
        return BlockMissing;
      }
      var next := Block(true, Canonical, if finalized.Some? then finalized.value else rows[id].finalized);
      if !Monotonic(rows[id], next) {
        rows := begun;
        return ConstraintViolated;
      }
      rows := rows[id := next];
      assert OneCanonical(rows) by {
        forall a, b | CanonicalIn(rows, a) && CanonicalIn(rows, b) && SameSlot(a, b) ensures a == b {
          assert a != id ==> CanonicalIn(begun, a);
          assert b != id ==> CanonicalIn(begun, b);
        }
      }
      return Done;
    }
  }
}
