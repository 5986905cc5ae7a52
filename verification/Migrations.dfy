/**
 * The migration runner: any number of concurrent callers with one lineage and one schema, each on
 * its own reserved connection, with failures and connection deaths anywhere.
 *
 * `bodies` is a history variable: the names whose `up` has committed, in commit order. `table` is
 * the `_migrations` table, absent until the bootstrap migration creates it. Where the client has put
 * a `statement_timeout` on its sessions (`bounded`), the server may cancel the cleanup statements
 * too: the ROLLBACK of a failed transaction, the reset of the search path and the unlock.
 */
module Migrations {
  import opened Chunking

  type Lineage = seq<string>

  /** Where a runner stands. */
  datatype Pc =
    | Reserved                 // connection in hand, nothing done
    | Acquired                 // the session lock is granted, its transaction still open
    | Locked                   // the acquiring transaction has committed
    | Widened                  // search_path set
    | Loop(i: nat)             // about to look migration i up
    | InBody(i: nat)           // inside BEGIN: up and insert for migration i
    | Resetting                // inner finally
    | Unlocking                // outer finally
    | Released                 // connection back in the pool

  /** One runner and its session. `lockHeld` is the program's flag; `lock` counts how often the session
      really holds the advisory lock, `path` says that its search path is widened and `aborted` that it
      sits in a transaction whose ROLLBACK was cancelled. `late` and `spoiled` are history, of the
      session: an acquire statement reported an error although the lock had been granted (a timeout
      that fires as the lock is granted; a session lock outlives the rollback of the transaction that
      took it), and a cleanup statement with something to undo did not take effect. */
  datatype Runner = Runner(pc: Pc, lockHeld: bool, lock: nat, path: bool, aborted: bool, late: bool, spoiled: bool)

  const FRESH := Runner(Reserved, false, 0, false, false, false, false)

  /** `bounded` never changes. */
  datatype State = State(table: Option<set<string>>, bodies: seq<string>, runners: map<nat, Runner>, bounded: bool)

  datatype Step =
    | Reserve(r: nat)
    | Reuse(r: nat, from: nat)
    | Acquire(r: nat)
    | LateError(r: nat, rolledBack: bool)
    | CommitAcquire(r: nat)
    | SetPath(r: nat)
    | Probe(r: nat)
    | LookUp(r: nat)
    | CommitBody(r: nat)
    | Finish(r: nat)
    | Reset(r: nat, effective: bool)
    | Unlock(r: nat, effective: bool)
    | Fail(r: nat, rolledBack: bool)
    | Die(r: nat)

  ghost predicate LockFree(s: State, r: nat) {
    forall q :: q in s.runners && q != r ==> s.runners[q].lock == 0
  }

  /** Names below n. */
  function Names(lineage: Lineage, n: nat): set<string>
    requires n <= |lineage|
  {
    set i | 0 <= i < n :: lineage[i]
  }

  predicate Working(pc: Pc) { !pc.Resetting? && !pc.Unlocking? && !pc.Released? }

  /** Inside withReservedTransaction, whose catch rolls back. */
  predicate InTransaction(pc: Pc) { pc.Reserved? || pc.Acquired? || pc.InBody? }

  /** Where the error goes: the inner finally once search_path is set, the outer one before. */
  function OnError(x: Runner, rolledBack: bool): Runner {
    x.(pc := if x.pc.Reserved? || x.pc.Acquired? || x.pc.Locked? then Unlocking else Resetting,
       aborted := x.aborted || !rolledBack, spoiled := x.spoiled || !rolledBack)
  }

  /** reset search_path; without effect in an aborted transaction or when cancelled. */
  function AfterReset(x: Runner, effective: bool): Runner {
    x.(pc := Unlocking, path := x.path && !effective, spoiled := x.spoiled || (x.path && !effective))
  }

  /** pg_advisory_unlock, issued only when the flag is set. */
  function AfterUnlock(x: Runner, effective: bool): Runner {
    x.(pc := Released, lock := if x.lockHeld && effective && x.lock > 0 then x.lock - 1 else x.lock,
       spoiled := x.spoiled || (x.lockHeld && !effective))
  }

  /** A cleanup statement works unless the transaction is aborted, and fails only if it is or under a timeout. */
  predicate CleanupAnswer(bounded: bool, x: Runner, effective: bool) {
    (x.aborted ==> !effective) && (!effective ==> x.aborted || bounded)
  }

  function At(s: State, r: nat): Runner
    requires r in s.runners
  {
    s.runners[r]
  }

  function With(s: State, r: nat, x: Runner): State { s.(runners := s.runners[r := x]) }

  ghost predicate NextBy(lineage: Lineage, s: State, step: Step, s': State) {
    match step
    case Reserve(r) => r !in s.runners && s' == With(s, r, FRESH)
    case Reuse(r, from) =>
      && r !in s.runners && from in s.runners && At(s, from).pc.Released?
      && s' == s.(runners := (s.runners - {from})[r := At(s, from).(pc := Reserved, lockHeld := false)])
    case Acquire(r) =>
      && r in s.runners && At(s, r).pc.Reserved? && !At(s, r).aborted && LockFree(s, r)
      && s' == With(s, r, At(s, r).(pc := Acquired, lockHeld := true, lock := At(s, r).lock + 1))
    case LateError(r, rolledBack) =>
      && r in s.runners && At(s, r).pc.Reserved? && !At(s, r).aborted && LockFree(s, r) && (!rolledBack ==> s.bounded)
      && s' == With(s, r, OnError(At(s, r), rolledBack).(lock := At(s, r).lock + 1, late := true))
    case CommitAcquire(r) => r in s.runners && At(s, r).pc.Acquired? && s' == With(s, r, At(s, r).(pc := Locked))
    case SetPath(r) => r in s.runners && At(s, r).pc.Locked? && s' == With(s, r, At(s, r).(pc := Widened, path := true))
    case Probe(r) =>
      && r in s.runners && At(s, r).pc.Widened? && |lineage| > 0
      && s' == With(s, r, At(s, r).(pc := if s.table.None? then InBody(0) else Loop(1)))
    case LookUp(r) =>
      && r in s.runners && At(s, r).pc.Loop? && At(s, r).pc.i < |lineage| && s.table.Some?
      && s' == With(s, r, At(s, r).(pc := if lineage[At(s, r).pc.i] in s.table.value then Loop(At(s, r).pc.i + 1) else InBody(At(s, r).pc.i)))
    case CommitBody(r) =>
      && r in s.runners && At(s, r).pc.InBody? && At(s, r).pc.i < |lineage|
      && var name := lineage[At(s, r).pc.i];
         s' == With(s, r, At(s, r).(pc := Loop(At(s, r).pc.i + 1)))
                 .(table := Some((if s.table.Some? then s.table.value else {}) + {name}), bodies := s.bodies + [name])
    case Finish(r) => r in s.runners && At(s, r).pc.Loop? && At(s, r).pc.i >= |lineage| && s' == With(s, r, At(s, r).(pc := Resetting))
    case Reset(r, effective) =>
      && r in s.runners && At(s, r).pc.Resetting? && CleanupAnswer(s.bounded, At(s, r), effective)
      && s' == With(s, r, AfterReset(At(s, r), effective))
    case Unlock(r, effective) =>
      && r in s.runners && At(s, r).pc.Unlocking? && (At(s, r).lockHeld ==> CleanupAnswer(s.bounded, At(s, r), effective))
      && s' == With(s, r, AfterUnlock(At(s, r), effective))
    case Fail(r, rolledBack) =>
      && r in s.runners && Working(At(s, r).pc) && (!rolledBack ==> s.bounded && InTransaction(At(s, r).pc))
      && s' == With(s, r, OnError(At(s, r), rolledBack))
    case Die(r) => r in s.runners && s' == s.(runners := s.runners - {r})
  }

  ghost predicate Next(lineage: Lineage, s: State, s': State) { exists step :: NextBy(lineage, s, step, s') }

  ghost predicate Initial(s: State) { s == State(None, [], map[], s.bounded) }

  ghost predicate IsRun(lineage: Lineage, run: seq<State>) {
    |run| > 0 && Initial(run[0]) && forall i :: 0 <= i < |run| - 1 ==> StepAt(lineage, run, i)
  }

  ghost predicate StepAt(lineage: Lineage, run: seq<State>, i: nat)
    requires i < |run| - 1
  {
    Next(lineage, run[i], run[i + 1])
  }

  /** Migration names are distinct (the primary key of _migrations). */
  ghost predicate Distinct(lineage: Lineage) {
    forall i, j :: 0 <= i < |lineage| && 0 <= j < |lineage| && lineage[i] == lineage[j] ==> i == j
  }

  // ----- the invariant --------------------------------------------------------------------------

  /** The bodies that committed are a prefix of the lineage and the table records exactly them. */
  ghost predicate Recorded(lineage: Lineage, table: Option<set<string>>, bodies: seq<string>) {
    && bodies <= lineage
    && (table.None? <==> bodies == []) && (table.Some? ==> table.value == Names(lineage, |bodies|))
  }

  /** How often the program itself has reason to hold the lock. */
  function Owed(x: Runner): nat { if x.lockHeld && !x.pc.Released? then 1 else 0 }

  predicate Clean(x: Runner) {
    && (x.path ==> x.pc.Widened? || x.pc.Loop? || x.pc.InBody? || x.pc.Resetting?) && !x.aborted
    && (!x.late ==> x.lock == Owed(x))
  }

  /** What a runner may rely on, n bodies having committed. */
  ghost predicate RunnerOk(x: Runner, n: nat, bounded: bool) {
    && x.lock >= Owed(x) + (if x.late then 1 else 0)
    && (Working(x.pc) && !x.pc.Reserved? ==> x.lockHeld && !x.aborted) && (x.pc.Reserved? ==> !x.lockHeld)
    && (!x.spoiled ==> Clean(x)) && (!bounded ==> !x.spoiled)
    && (x.pc.Loop? ==> 1 <= x.pc.i <= n)
    && (x.pc.InBody? ==> x.pc.i == n)
  }

  ghost predicate Exclusive(runners: map<nat, Runner>) {
    forall q, r :: q in runners && r in runners && runners[q].lock > 0 && runners[r].lock > 0 ==> q == r
  }

  ghost predicate RunnersOk(runners: map<nat, Runner>, n: nat, bounded: bool) {
    forall r :: r in runners ==> RunnerOk(runners[r], n, bounded)
  }

  ghost predicate Inv(lineage: Lineage, s: State) {
    Recorded(lineage, s.table, s.bodies) && Exclusive(s.runners) && RunnersOk(s.runners, |s.bodies|, s.bounded)
  }

  lemma NameIsRecordedIff(lineage: Lineage, n: nat, i: nat)
    requires Distinct(lineage) && n <= |lineage| && i < |lineage|
    ensures lineage[i] in Names(lineage, n) <==> i < n
  {
  }

  lemma MoveKeepsInv(lineage: Lineage, s: State, r: nat, next: Runner)
    requires Inv(lineage, s) && RunnerOk(next, |s.bodies|, s.bounded) && (next.lock > 0 ==> LockFree(s, r))
    ensures Inv(lineage, With(s, r, next))
  {
    var s' := With(s, r, next);
    assert forall q :: q in s'.runners && q != r ==> q in s.runners && s'.runners[q] == s.runners[q];
  }

  lemma HolderIsAlone(s: State, r: nat)
    requires Exclusive(s.runners) && r in s.runners && s.runners[r].lock > 0
    ensures LockFree(s, r)
  {
  }

  lemma CommitBodyKeepsInv(lineage: Lineage, s: State, s': State, r: nat)
    requires Inv(lineage, s) && NextBy(lineage, s, CommitBody(r), s')
    ensures Inv(lineage, s')
  {
    var n := |s.bodies|;
    assert RunnerOk(s.runners[r], n, s.bounded);
    assert s'.bodies == lineage[..n + 1];
    assert Names(lineage, n + 1) == Names(lineage, n) + {lineage[n]};
    HolderIsAlone(s, r);
    forall q | q in s'.runners ensures RunnerOk(s'.runners[q], n + 1, s.bounded) {
      assert RunnerOk(s.runners[q], n, s.bounded);
      if q != r { assert s.runners[q].lock == 0; }
    }
  }

  lemma LookUpKeepsInv(lineage: Lineage, s: State, s': State, r: nat)
    requires Distinct(lineage) && Inv(lineage, s) && NextBy(lineage, s, LookUp(r), s')
    ensures Inv(lineage, s')
  {
    assert RunnerOk(s.runners[r], |s.bodies|, s.bounded);
    NameIsRecordedIff(lineage, |s.bodies|, s.runners[r].pc.i);
    HolderIsAlone(s, r);
    MoveKeepsInv(lineage, s, r, s'.runners[r]);
  }

  lemma DieKeepsInv(lineage: Lineage, s: State, s': State, r: nat)
    requires Inv(lineage, s) && NextBy(lineage, s, Die(r), s')
    ensures Inv(lineage, s')
  {
    assert forall q :: q in s'.runners ==> q in s.runners && s'.runners[q] == s.runners[q];
  }

  /** A pooled session that is reserved again keeps what was left on it. */
  lemma ReuseKeepsInv(lineage: Lineage, s: State, s': State, r: nat, from: nat)
    requires Inv(lineage, s) && NextBy(lineage, s, Reuse(r, from), s')
    ensures Inv(lineage, s')
  {
    assert RunnerOk(s.runners[from], |s.bodies|, s.bounded);
    forall q | q in s'.runners ensures RunnerOk(s'.runners[q], |s'.bodies|, s'.bounded) {
      if q != r { assert RunnerOk(s.runners[q], |s.bodies|, s.bounded); }
    }
    forall p, q | p in s'.runners && q in s'.runners && s'.runners[p].lock > 0 && s'.runners[q].lock > 0 ensures p == q {
      var p0, q0 := if p == r then from else p, if q == r then from else q;
      assert s.runners[p0].lock > 0 && s.runners[q0].lock > 0;
    }
  }

  /** Every other step moves one runner along, and nobody gains the lock who was not alone with it. */
  lemma OwnStepOk(lineage: Lineage, s: State, step: Step, s': State)
    requires NextBy(lineage, s, step, s') && step.r in s.runners && RunnerOk(s.runners[step.r], |s.bodies|, s.bounded)
    requires !step.CommitBody? && !step.LookUp? && !step.Die? && !step.Reserve? && !step.Reuse?
    requires Recorded(lineage, s.table, s.bodies)
    ensures step.r in s'.runners && s' == With(s, step.r, s'.runners[step.r])
    ensures RunnerOk(s'.runners[step.r], |s.bodies|, s.bounded)
    ensures s'.runners[step.r].lock > s.runners[step.r].lock ==> LockFree(s, step.r)
  {
  }

  lemma StepKeepsInv(lineage: Lineage, s: State, step: Step, s': State)
    requires Distinct(lineage) && Inv(lineage, s) && NextBy(lineage, s, step, s')
    ensures Inv(lineage, s')
  {
    match step
    case CommitBody(r) => CommitBodyKeepsInv(lineage, s, s', r);
    case LookUp(r) => LookUpKeepsInv(lineage, s, s', r);
    case Die(r) => DieKeepsInv(lineage, s, s', r);
    case Reuse(r, from) => ReuseKeepsInv(lineage, s, s', r, from);
    case Reserve(r) => MoveKeepsInv(lineage, s, r, FRESH);
    case _ =>
      assert RunnerOk(s.runners[step.r], |s.bodies|, s.bounded);
      OwnStepOk(lineage, s, step, s');
      if s.runners[step.r].lock > 0 { HolderIsAlone(s, step.r); }
      MoveKeepsInv(lineage, s, step.r, s'.runners[step.r]);
  }

  lemma NextKeepsInv(lineage: Lineage, s: State, s': State)
    requires Distinct(lineage) && Inv(lineage, s) && Next(lineage, s, s')
    ensures Inv(lineage, s') && s.bodies <= s'.bodies && s'.bounded == s.bounded
  {
    var step :| NextBy(lineage, s, step, s');
    StepKeepsInv(lineage, s, step, s');
  }

  lemma {:induction false} RunKeepsInv(lineage: Lineage, run: seq<State>, i: nat)
    requires Distinct(lineage) && IsRun(lineage, run) && i < |run|
    ensures Inv(lineage, run[i]) && run[i].bounded == run[0].bounded
  {
    if i > 0 {
      RunKeepsInv(lineage, run, i - 1);
      assert StepAt(lineage, run, i - 1);
      NextKeepsInv(lineage, run[i - 1], run[i]);
    }
  }

  // ----- the theorems ---------------------------------------------------------------------------

  /** At every moment of every run the committed bodies are a prefix of the lineage, each committed
      exactly once, and `_migrations` holds exactly their names. */
  lemma AppliedOnceInOrder(lineage: Lineage, run: seq<State>, i: nat)
    requires Distinct(lineage) && IsRun(lineage, run) && i < |run|
    ensures run[i].bodies <= lineage
    ensures forall a, b :: 0 <= a < b < |run[i].bodies| ==> run[i].bodies[a] != run[i].bodies[b]
    ensures run[i].table == if run[i].bodies == [] then None else Some(Names(lineage, |run[i].bodies|))
  {
    RunKeepsInv(lineage, run, i);
  }

  /** A released session is given back as it was found unless a cleanup statement was cancelled on it
      or a grant was late; and two runners never work at the same time. */
  lemma ConnectionsGoBackClean(lineage: Lineage, run: seq<State>, i: nat, r: nat)
    requires Distinct(lineage) && IsRun(lineage, run) && i < |run| && r in run[i].runners
    ensures var x := run[i].runners[r];
      x.pc.Released? && !x.spoiled ==> !x.path && !x.aborted && (x.lock > 0 <==> x.late)
    ensures forall q :: q in run[i].runners && q != r && (run[i].runners[q].pc.Loop? || run[i].runners[q].pc.InBody?) ==>
      !run[i].runners[r].pc.Loop? && !run[i].runners[r].pc.InBody?
  {
    RunKeepsInv(lineage, run, i);
    assert RunnerOk(run[i].runners[r], |run[i].bodies|, run[i].bounded);
    forall q | q in run[i].runners && q != r && (run[i].runners[q].pc.Loop? || run[i].runners[q].pc.InBody?)
      ensures run[i].runners[r].lock == 0
    {
      assert RunnerOk(run[i].runners[q], |run[i].bodies|, run[i].bounded);
    }
  }

  /** In every run of a client without a `statement_timeout` no session is pooled with a widened path
      or an open transaction, and one is pooled with the lock exactly when a grant was late. */
  lemma UnboundedGoesBackClean(lineage: Lineage, run: seq<State>, i: nat, r: nat)
    requires Distinct(lineage) && IsRun(lineage, run) && i < |run| && r in run[i].runners && !run[0].bounded
    ensures run[i].runners[r].pc.Released? ==>
      !run[i].runners[r].path && !run[i].runners[r].aborted && (run[i].runners[r].lock > 0 <==> run[i].runners[r].late)
  {
    RunKeepsInv(lineage, run, i);
    assert RunnerOk(run[i].runners[r], |run[i].bodies|, run[i].bounded);
  }

  /** A runner that reaches the end of its loop leaves the whole lineage applied. */
  lemma FinishedMeansComplete(lineage: Lineage, run: seq<State>, i: nat, r: nat)
    requires Distinct(lineage) && IsRun(lineage, run) && i < |run|
    requires r in run[i].runners && run[i].runners[r].pc.Loop? && run[i].runners[r].pc.i >= |lineage|
    ensures run[i].bodies == lineage
  {
    RunKeepsInv(lineage, run, i);
    assert RunnerOk(run[i].runners[r], |run[i].bodies|, run[i].bounded);
  }

  // ----- a lone runner gets through ---------------------------------------------------------------

  function Last(run: seq<State>): State
    requires |run| > 0
  {
    run[|run| - 1]
  }

  ghost predicate Extends(lineage: Lineage, run: seq<State>, longer: seq<State>) { IsRun(lineage, longer) && run <= longer }

  lemma ExtendRun(lineage: Lineage, run: seq<State>, step: Step, s': State)
    requires IsRun(lineage, run) && NextBy(lineage, Last(run), step, s')
    ensures Extends(lineage, run, run + [s'])
  {
    var longer := run + [s'];
    forall i | 0 <= i < |longer| - 1 ensures StepAt(lineage, longer, i) {
      if i < |run| - 1 { assert StepAt(lineage, run, i); }
    }
  }

  /** Runner r is at this point of the last state. */
  ghost predicate Stands(lineage: Lineage, run: seq<State>, r: nat, pc: Pc) {
    IsRun(lineage, run) && r in Last(run).runners && Last(run).runners[r].pc == pc
  }

  /** The body of migration i commits. */
  lemma BodyCommits(lineage: Lineage, run: seq<State>, r: nat, i: nat) returns (longer: seq<State>)
    requires Stands(lineage, run, r, InBody(i)) && i < |lineage|
    ensures Extends(lineage, run, longer) && Stands(lineage, longer, r, Loop(i + 1))
  {
    var s := Last(run);
    var s' := With(s, r, At(s, r).(pc := Loop(i + 1)))
                .(table := Some((if s.table.Some? then s.table.value else {}) + {lineage[i]}), bodies := s.bodies + [lineage[i]]);
    ExtendRun(lineage, run, CommitBody(r), s');
    longer := run + [s'];
  }

  lemma {:induction false} LoopGetsThrough(lineage: Lineage, run: seq<State>, r: nat, i: nat) returns (longer: seq<State>)
    requires Distinct(lineage) && Stands(lineage, run, r, Loop(i)) && i <= |lineage|
    ensures Extends(lineage, run, longer) && Stands(lineage, longer, r, Loop(|lineage|))
    decreases |lineage| - i
  {
    if i == |lineage| {
      longer := run;
    } else {
      longer := LooksUp(lineage, run, r, i);
      if Last(longer).runners[r].pc.InBody? { longer := BodyCommits(lineage, longer, r, i); }
      longer := LoopGetsThrough(lineage, longer, r, i + 1);
    }
  }

  lemma LooksUp(lineage: Lineage, run: seq<State>, r: nat, i: nat) returns (longer: seq<State>)
    requires Distinct(lineage) && Stands(lineage, run, r, Loop(i)) && i < |lineage|
    ensures Extends(lineage, run, longer) && (Stands(lineage, longer, r, Loop(i + 1)) || Stands(lineage, longer, r, InBody(i)))
  {
    var s := Last(run);
    RunKeepsInv(lineage, run, |run| - 1);
    assert RunnerOk(s.runners[r], |s.bodies|, s.bounded);
    var s' := With(s, r, At(s, r).(pc := if lineage[i] in s.table.value then Loop(i + 1) else InBody(i)));
    ExtendRun(lineage, run, LookUp(r), s');
    longer := run + [s'];
  }

  /** Every runner about to acquire the free lock can apply whatever is missing and reach the end of its
      loop, and then the whole lineage is applied. */
  lemma RunnerCanComplete(lineage: Lineage, run: seq<State>, r: nat) returns (longer: seq<State>)
    requires Distinct(lineage) && |lineage| > 0 && MayAcquire(lineage, run, r)
    ensures Extends(lineage, run, longer) && Stands(lineage, longer, r, Loop(|lineage|)) && Last(longer).bodies == lineage
  {
    longer := WorksUp(lineage, run, r);
    var s := Last(longer);
    var s' := With(s, r, At(s, r).(pc := if s.table.None? then InBody(0) else Loop(1)));
    ExtendRun(lineage, longer, Probe(r), s');
    longer := longer + [s'];
    if s.table.None? { longer := BodyCommits(lineage, longer, r, 0); }
    longer := LoopGetsThrough(lineage, longer, r, 1);
    FinishedMeansComplete(lineage, longer, |longer| - 1, r);
  }

  // ----- what can be left behind ------------------------------------------------------------------

  /** Runner r of state s moves to x, as the next state of the run. */
  lemma Moves(lineage: Lineage, run: seq<State>, s: State, r: nat, was: Runner, step: Step, x: Runner) returns (longer: seq<State>)
    requires IsRun(lineage, run) && Last(run) == With(s, r, was) && NextBy(lineage, With(s, r, was), step, With(s, r, x))
    ensures Extends(lineage, run, longer) && Last(longer) == With(s, r, x)
  {
    ExtendRun(lineage, run, step, With(s, r, x));
    longer := run + [With(s, r, x)];
  }

  lemma WithTwice(s: State, r: nat, a: Runner, b: Runner)
    ensures With(With(s, r, a), r, b) == With(s, r, b)
  {
  }

  /** Runner r has just reserved its connection, and the lock is free. */
  ghost predicate MayAcquire(lineage: Lineage, run: seq<State>, r: nat) {
    && IsRun(lineage, run) && r in Last(run).runners && Last(run).runners[r].pc.Reserved? && !Last(run).runners[r].lockHeld
    && !Last(run).runners[r].aborted && LockFree(Last(run), r)
  }

  /** The session is pooled with the lock, and no other session can be granted it. */
  ghost predicate Leaked(s: State, r: nat) {
    r in s.runners && s.runners[r].pc.Released? && s.runners[r].lock > 0 && forall q :: q != r ==> !LockFree(s, q)
  }

  /** Whatever the timeouts are: every runner about to acquire the free lock has a continuation in
      which the acquire reports an error as the lock is granted. The flag is still false, so the
      cleanup does not unlock. */
  lemma LateErrorLeaksTheLock(lineage: Lineage, run: seq<State>, r: nat) returns (longer: seq<State>)
    requires MayAcquire(lineage, run, r)
    ensures Extends(lineage, run, longer) && Leaked(Last(longer), r)
  {
    var s := Last(run);
    var x := s.runners[r];
    assert With(s, r, x) == s;
    var y := OnError(x, true).(lock := x.lock + 1, late := true);
    longer := Moves(lineage, run, s, r, x, LateError(r, true), y);
    WithTwice(s, r, y, AfterUnlock(y, true));
    longer := Moves(lineage, longer, s, r, y, Unlock(r, true), AfterUnlock(y, true));
  }

  /** Session r holds the lock more often than its runner will unlock it, so no other can be granted it. */
  ghost predicate Overheld(s: State, r: nat) {
    r in s.runners && s.runners[r].lock > Owed(s.runners[r]) && forall q :: q != r ==> !LockFree(s, q)
  }

  ghost predicate LockIsLost(s: State) { exists r :: Overheld(s, r) }

  /** No session ends in this step. */
  ghost predicate SessionsStay(run: seq<State>, k: nat)
    requires k < |run| - 1
  {
    |run[k + 1].runners| >= |run[k].runners|
  }

  lemma DeathShrinks(lineage: Lineage, s: State, s': State, r: nat)
    requires NextBy(lineage, s, Die(r), s')
    ensures |s'.runners| < |s.runners|
  {
    assert s.runners.Keys == s'.runners.Keys + {r};
  }

  /** Neither reusing the session nor any call of any runner gives the lock back. */
  lemma StepKeepsLockLost(lineage: Lineage, s: State, step: Step, s': State, r: nat)
    requires Distinct(lineage) && Inv(lineage, s) && NextBy(lineage, s, step, s') && Overheld(s, r) && step != Die(r)
    ensures LockIsLost(s')
  {
    var r' := if step.Reuse? && step.from == r then step.r else r;
    assert RunnerOk(s.runners[r], |s.bodies|, s.bounded);
    assert r' in s'.runners && s'.runners[r'].lock > Owed(s'.runners[r']);
    assert Overheld(s', r');
  }

  /** A lock that was left behind stays lost in every run for as long as no session ends: reserving the
      session again, acquiring and unlocking give back only what they took. */
  lemma {:induction false} LostUntilASessionEnds(lineage: Lineage, run: seq<State>, i: nat, j: nat, r: nat)
    requires Distinct(lineage) && IsRun(lineage, run) && i <= j < |run| && Leaked(run[i], r)
    requires forall k :: i <= k < j ==> SessionsStay(run, k)
    ensures LockIsLost(run[j])
  {
    if i == j {
      assert Overheld(run[i], r);
    } else {
      LostUntilASessionEnds(lineage, run, i, j - 1, r);
      RunKeepsInv(lineage, run, j - 1);
      assert StepAt(lineage, run, j - 1) && SessionsStay(run, j - 1);
      var step :| NextBy(lineage, run[j - 1], step, run[j]);
      var holder :| Overheld(run[j - 1], holder);
      if step.Die? { DeathShrinks(lineage, run[j - 1], run[j], step.r); }
      StepKeepsLockLost(lineage, run[j - 1], step, run[j], holder);
    }
  }

  /** The runner with the lock and the search path widened. */
  function Ready(x: Runner): Runner { x.(pc := Widened, lockHeld := true, lock := x.lock + 1, path := true) }

  /** And then an error. */
  function Failing(x: Runner): Runner { Ready(x).(pc := Resetting) }

  lemma WorksUp(lineage: Lineage, run: seq<State>, r: nat) returns (longer: seq<State>)
    requires MayAcquire(lineage, run, r)
    ensures Extends(lineage, run, longer) && Last(longer) == With(Last(run), r, Ready(Last(run).runners[r]))
  {
    var s := Last(run);
    var x := s.runners[r];
    assert With(s, r, x) == s;
    var a := x.(pc := Acquired, lockHeld := true, lock := x.lock + 1);
    var b := a.(pc := Locked);
    longer := Moves(lineage, run, s, r, x, Acquire(r), a);
    WithTwice(s, r, a, b);
    longer := Moves(lineage, longer, s, r, a, CommitAcquire(r), b);
    WithTwice(s, r, b, Ready(x));
    longer := Moves(lineage, longer, s, r, b, SetPath(r), Ready(x));
  }

  lemma WorksAndFails(lineage: Lineage, run: seq<State>, r: nat) returns (longer: seq<State>)
    requires MayAcquire(lineage, run, r)
    ensures Extends(lineage, run, longer) && Last(longer) == With(Last(run), r, Failing(Last(run).runners[r]))
  {
    var s := Last(run);
    var x := s.runners[r];
    longer := WorksUp(lineage, run, r);
    WithTwice(s, r, Ready(x), Failing(x));
    longer := Moves(lineage, longer, s, r, Ready(x), Fail(r, true), Failing(x));
  }

  /** Under a client `statement_timeout`, every runner about to acquire the free lock has a continuation
      that pools its session with the search path still widened ... */
  lemma CleanupCanKeepThePath(lineage: Lineage, run: seq<State>, r: nat) returns (longer: seq<State>)
    requires MayAcquire(lineage, run, r) && Last(run).bounded
    ensures Extends(lineage, run, longer)
    ensures r in Last(longer).runners && Last(longer).runners[r].pc.Released? && Last(longer).runners[r].path
  {
    var s := Last(run);
    var x := Failing(s.runners[r]);
    longer := WorksAndFails(lineage, run, r);
    var y := AfterReset(x, false);
    WithTwice(s, r, x, y);
    longer := Moves(lineage, longer, s, r, x, Reset(r, false), y);
    WithTwice(s, r, y, AfterUnlock(y, true));
    longer := Moves(lineage, longer, s, r, y, Unlock(r, true), AfterUnlock(y, true));
  }

  /** ... one that pools it with the lock, although the flag is set ... */
  lemma CleanupCanKeepTheLock(lineage: Lineage, run: seq<State>, r: nat) returns (longer: seq<State>)
    requires MayAcquire(lineage, run, r) && Last(run).bounded
    ensures Extends(lineage, run, longer) && Leaked(Last(longer), r) && !Last(longer).runners[r].path
  {
    var s := Last(run);
    var x := Failing(s.runners[r]);
    longer := WorksAndFails(lineage, run, r);
    var y := AfterReset(x, true);
    WithTwice(s, r, x, y);
    longer := Moves(lineage, longer, s, r, x, Reset(r, true), y);
    WithTwice(s, r, y, AfterUnlock(y, false));
    longer := Moves(lineage, longer, s, r, y, Unlock(r, false), AfterUnlock(y, false));
  }

  /** ... and one that pools it inside an aborted transaction, where nothing can be undone at all. */
  lemma CleanupCanKeepTheTransaction(lineage: Lineage, run: seq<State>, r: nat) returns (longer: seq<State>)
    requires MayAcquire(lineage, run, r) && Last(run).bounded
    ensures Extends(lineage, run, longer) && Leaked(Last(longer), r) && Last(longer).runners[r].aborted
  {
    var s := Last(run);
    var x := s.runners[r];
    assert With(s, r, x) == s;
    var a := x.(pc := Acquired, lockHeld := true, lock := x.lock + 1);
    longer := Moves(lineage, run, s, r, x, Acquire(r), a);
    var y := OnError(a, false);
    WithTwice(s, r, a, y);
    longer := Moves(lineage, longer, s, r, a, Fail(r, false), y);
    WithTwice(s, r, y, AfterUnlock(y, false));
    longer := Moves(lineage, longer, s, r, y, Unlock(r, false), AfterUnlock(y, false));
  }

  // ----- runMigrationsImpl in its own form ------------------------------------------------------

  datatype Outcome = Applied | Failed

  /** Whether the cleanup statements take effect: ROLLBACK, reset search_path, pg_advisory_unlock. */
  datatype Cleanup = Cleanup(rolledBack: bool, reset: bool, unlocked: bool)

  /** One session on the database; `faults(i)` says that the transaction of migration i fails. */
  class Session {
    const bounded: bool  // the client's own statement_timeout
    var table: Option<set<string>>
    var bodies: seq<string>
    var lock: bool
    var path: bool
    var aborted: bool

    constructor (bound: bool)
      ensures table == None && bodies == [] && !lock && !path && !aborted && bounded == bound
    {
      bounded, table, bodies, lock, path, aborted := bound, None, [], false, false, false;
    }

    /** withReservedTransaction around one body: everything or nothing. */
    method RunBody(name: string, fails: bool) returns (ok: bool)
      modifies this`table, this`bodies
      ensures ok == !fails
      ensures ok ==> bodies == old(bodies) + [name] && table == Some((if old(table).Some? then old(table).value else {}) + {name})
      ensures !ok ==> bodies == old(bodies) && table == old(table)
    {
      var begun, done := table, bodies;
      table := Some((if table.Some? then table.value else {}) + {name});
      bodies := bodies + [name];
      if fails {
        table, bodies := begun, done;
        return false;
      }
      return true;
    }

    /** Bootstrap if the table is missing, then every migration not yet recorded, in order. */
    method RunBodies(lineage: Lineage, faults: nat -> bool) returns (ok: bool)
      requires |lineage| > 0 && Distinct(lineage) && Recorded(lineage, table, bodies)
      modifies this`table, this`bodies
      ensures Recorded(lineage, table, bodies) && old(bodies) <= bodies
      ensures ok ==> bodies == lineage
      ensures ok <==> forall i :: |old(bodies)| <= i < |lineage| ==> !faults(i)
    {
      if table.None? {
        ok := RunBody(lineage[0], faults(0));
        if !ok { return; }
        assert Names(lineage, 1) == {lineage[0]};
      }
      for i := 1 to |lineage|
        invariant Recorded(lineage, table, bodies) && old(bodies) <= bodies && i <= |bodies|
        invariant |bodies| == i || bodies == old(bodies)
        invariant forall k :: |old(bodies)| <= k < |bodies| ==> !faults(k)
      {
        NameIsRecordedIff(lineage, |bodies|, i);
        if lineage[i] in table.value { continue; }
        ghost var before := bodies;
        ok := RunBody(lineage[i], faults(i));
        if !ok { return; }
        assert bodies == lineage[..i + 1];
        assert Names(lineage, i + 1) == Names(lineage, i) + {lineage[i]};
      }
      return true;
    }

    /** A success has applied the whole lineage, a failure a longer or equal prefix of it. What is left
        on the session is exactly what a cancelled cleanup statement should have undone, and the lock
        of an acquire that failed after its grant; without a client timeout nothing but that. */
    method RunMigrationsImpl(lineage: Lineage, acquireFails: bool, grantedLate: bool, commitFails: bool, pathFails: bool,
                             faults: nat -> bool, cleanup: Cleanup)
      returns (outcome: Outcome)
      requires |lineage| > 0 && Distinct(lineage) && Recorded(lineage, table, bodies) && !lock && !path && !aborted
      requires (grantedLate ==> acquireFails) && (cleanup != Cleanup(true, true, true) ==> bounded)
      modifies this
      ensures Recorded(lineage, table, bodies) && old(bodies) <= bodies
      ensures outcome == Applied ==> bodies == lineage
      ensures outcome == Applied <==>
        !acquireFails && !commitFails && !pathFails && cleanup.reset && cleanup.unlocked
        && forall i :: |old(bodies)| <= i < |lineage| ==> !faults(i)
      ensures aborted <==>
        && !cleanup.rolledBack
        && (acquireFails || commitFails || (!pathFails && exists i :: |old(bodies)| <= i < |lineage| && faults(i)))
      ensures path <==> !acquireFails && !commitFails && !pathFails && (aborted || !cleanup.reset)
      ensures lock <==> grantedLate || (!acquireFails && (aborted || !cleanup.unlocked))
      ensures !bounded ==> lock == grantedLate && !path && !aborted
    {
      var lockHeld := false;
      outcome := Failed;
      lock := !acquireFails || grantedLate;
      if acquireFails {
        aborted := !cleanup.rolledBack;
      } else {
        lockHeld := true;
        if commitFails {
          aborted := !cleanup.rolledBack;
        } else if !pathFails {
          path := true;
          var ok := RunBodies(lineage, faults);
          if !ok { aborted := !cleanup.rolledBack; }
          var reset := !aborted && cleanup.reset;
          if reset { path := false; }
          if ok && reset { outcome := Applied; }
        }
      }
      if lockHeld {
        var unlocked := !aborted && cleanup.unlocked;
        if unlocked { lock := false; } else { outcome := Failed; }
      }
    }
  }
}
