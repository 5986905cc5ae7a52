/**
 * When the pool is clean. The cleanup statements run under the session's `statement_timeout`, so
 * where there is one a call may leave its lock on a pooled session, and a call with `timeoutMs` its
 * timeout. Without any, neither can happen; with one, it can happen from any reachable state.
 */
module LeaseTimeouts {
  import opened Leases
  import opened LeaseSafety

  ghost predicate NoTimeouts(s: State) { forall i :: i in s.calls ==> !s.calls[i].hadTimeout }

  // ----- no call carries timeoutMs ----------------------------------------------------------------

  /** No lease timeout is set anywhere; and if the client has none either, no cleanup was cancelled. */
  ghost predicate TimeoutFree(s: State) {
    && (forall c :: c in s.conns ==> !s.conns[c].timeoutSet && (!s.bounded ==> !s.conns[c].spoiled))
    && (forall t :: t in s.held ==> !s.held[t].hadTimeout)
  }

  lemma LockStepKeepsTimeoutFree(s: State, i: nat, step: Step, s': State)
    requires i in s.calls && CallSound(s.conns, i, s.calls[i]) && TimeoutFree(s) && !s.calls[i].hadTimeout && LockStep(s, i, step, s')
    ensures TimeoutFree(s')
  {
  }

  lemma EndStepKeepsTimeoutFree(s: State, i: nat, step: Step, s': State)
    requires i in s.calls && TimeoutFree(s) && !s.calls[i].hadTimeout && EndStep(s, i, step, s')
    ensures TimeoutFree(s')
  {
    assert forall t :: t in s'.held ==> !s'.held[t].hadTimeout;
  }

  lemma CallStepKeepsTimeoutFree(s: State, i: nat, step: Step, s': State)
    requires i in s.calls && CallSound(s.conns, i, s.calls[i]) && TimeoutFree(s) && !s.calls[i].hadTimeout
    requires ReserveStep(s, i, step, s') || LockStep(s, i, step, s') || EndStep(s, i, step, s')
    ensures TimeoutFree(s') && s'.bounded == s.bounded
  {
    if LockStep(s, i, step, s') {
      LockStepKeepsTimeoutFree(s, i, step, s');
    } else if EndStep(s, i, step, s') {
      EndStepKeepsTimeoutFree(s, i, step, s');
    }
  }

  lemma StepKeepsTimeoutFree(s: State, i: nat, step: Step, s': State)
    requires CallsSound(s) && TimeoutFree(s) && NoTimeouts(s) && NextBy(s, i, step, s')
    ensures TimeoutFree(s') && s'.bounded == s.bounded
  {
    match step
    case Start(_, _, _, _) =>
    case BeginRelease(_) =>
    case Die(_) =>
    case _ => CallStepKeepsTimeoutFree(s, i, step, s');
  }

  lemma NextKeepsTimeoutFree(s: State, s': State)
    requires CallsSound(s) && TimeoutFree(s) && NoTimeouts(s) && Next(s, s')
    ensures TimeoutFree(s') && s'.bounded == s.bounded
  {
    var i, step :| NextBy(s, i, step, s');
    StepKeepsTimeoutFree(s, i, step, s');
  }

  lemma {:induction false} RunStaysTimeoutFree(run: seq<State>, n: nat)
    requires IsRun(run) && n < |run| && forall m :: 0 <= m < |run| ==> NoTimeouts(run[m])
    ensures TimeoutFree(run[n]) && run[n].bounded == run[0].bounded
  {
    if n > 0 {
      RunStaysTimeoutFree(run, n - 1);
      RunKeepsInv(run, n - 1);
      assert StepAt(run, n - 1);
      NextKeepsTimeoutFree(run[n - 1], run[n]);
    }
  }

  /** A lease timeout stays on a pooled session only if some call carries `timeoutMs`. */
  lemma PoisonNeedsTimeoutMs(run: seq<State>, n: nat, c: nat)
    requires IsRun(run) && n < |run| && c in run[n].conns && forall m :: 0 <= m < |run| ==> NoTimeouts(run[m])
    ensures !run[n].conns[c].timeoutSet
  {
    RunStaysTimeoutFree(run, n);
  }

  /** In every run of a client without a `statement_timeout` in which no call carries `timeoutMs`, a
      pooled connection has no lease lock and the default timeout, and a recorded lease on a live
      session holds its lock once and nothing else. */
  lemma PoolIsCleanWithoutTimeouts(run: seq<State>, n: nat, c: nat)
    requires IsRun(run) && n < |run| && c in run[n].conns
    requires !run[0].bounded && forall m :: 0 <= m < |run| ==> NoTimeouts(run[m])
    ensures run[n].conns[c].owner == Pool ==> Clean(run[n].conns[c])
    ensures run[n].conns[c].owner.ByToken? && run[n].conns[c].alive ==>
      run[n].conns[c].owner.token in run[n].held && run[n].conns[c].locks == multiset{run[n].held[run[n].conns[c].owner.token].key}
  {
    RunKeepsInv(run, n);
    RunStaysTimeoutFree(run, n);
    assert Placed(run[n], c, run[n].conns[c]);
    var owner := run[n].conns[c].owner;
    if owner.ByToken? { assert HeldSound(run[n].conns, owner.token, run[n].held[owner.token]); }
  }

  // ----- any timeout ------------------------------------------------------------------------------

  /** A call is exposed if the client's timeout or its own is in force during its cleanup. */
  predicate Exposed(s: State, call: Call) { s.bounded || call.hadTimeout }

  /** What the server does to the lock statement and to the two cleanup statements. */
  datatype Fate = Fate(granted: bool, unlocked: bool, reset: bool)

  /** The connection as such a call finds it when it issues its lock statement. */
  function Prepared(conn: Conn, i: nat, timed: bool): Conn {
    var mine := Reopened(conn, i);
    mine.(timeoutSet := mine.timeoutSet || timed)
  }

  function AfterLock(conn: Conn, i: nat, call: Call, fate: Fate): Conn {
    var mine := Prepared(conn, i, call.hadTimeout);
    if fate.granted then WithLock(mine, call.key) else mine
  }

  function AfterUnlock(conn: Conn, i: nat, call: Call, fate: Fate): Conn {
    Unlocked(AfterLock(conn, i, call, fate), call.key, fate.unlocked)
  }

  function AfterReset(conn: Conn, i: nat, call: Call, fate: Fate): Conn {
    ResetTimeout(AfterUnlock(conn, i, call, fate), call.hadTimeout, fate.reset)
  }

  function With(s: State, i: nat, call: Call, c: nat, conn: Conn): State {
    s.(conns := s.conns[c := conn], calls := s.calls[i := call])
  }

  function Last(run: seq<State>): State
    requires |run| > 0
  {
    run[|run| - 1]
  }

  /** No other session holds the key. */
  predicate NobodyElse(s: State, c: nat, key: AKey) {
    forall d :: d in s.conns && d != c ==> key !in s.conns[d].locks
  }

  lemma WithMoves(s: State, i: nat, call: Call, c: nat, conn: Conn, pc: Pc, conn': Conn, pc': Pc)
    ensures With(s, i, At(call, pc'), c, conn') == Move(Change(With(s, i, At(call, pc), c, conn), c, conn'), i, pc')
  {
  }

  ghost predicate Extends(run: seq<State>, longer: seq<State>) { IsRun(longer) && run <= longer }

  lemma ExtendRun(run: seq<State>, i: nat, step: Step, s': State)
    requires IsRun(run) && NextBy(Last(run), i, step, s')
    ensures Extends(run, run + [s'])
  {
    var longer := run + [s'];
    forall m | 0 <= m < |longer| - 1 ensures StepAt(longer, m) {
      if m < |run| - 1 { assert StepAt(run, m); }
    }
  }

  /** Call i, not started yet, and a pooled connection c for it. */
  ghost predicate CanStart(run: seq<State>, i: nat, c: nat, call: Call) {
    && IsRun(run) && i !in Last(run).calls && c in Last(run).conns && Last(run).conns[c].owner == Pool
    && call.pc == Reserving && call.kind != Release
  }

  function LockPc(call: Call, c: nat): Pc { if !call.hadTimeout && call.kind == TryAcquire then TryLocking(c) else Locking(c) }

  /** The call starts, reserves c and sets its timeout if it has one. */
  lemma CallSetsUp(run: seq<State>, i: nat, c: nat, call: Call) returns (longer: seq<State>)
    requires CanStart(run, i, c, call)
    ensures Extends(run, longer)
    ensures Last(longer) == With(Last(run), i, At(call, LockPc(call, c)), c, Prepared(Last(run).conns[c], i, call.hadTimeout))
  {
    var s := Last(run);
    var s1 := s.(calls := s.calls[i := call]);
    ExtendRun(run, i, Start(call.kind, call.key, call.hadTimeout, call.hasSignal), s1);
    var s2 := With(s, i, At(call, AfterReserve(call, c)), c, Reopened(s.conns[c], i));
    assert s2.calls == s1.calls[i := At(call, AfterReserve(call, c))];
    assert ReserveStep(s1, i, ReserveGrant(c), s2);
    ExtendRun(run + [s1], i, ReserveGrant(c), s2);
    longer := run + [s1] + [s2];
    if call.hadTimeout {
      var mine := Prepared(s.conns[c], i, true);
      var s3 := With(s, i, At(call, Locking(c)), c, mine);
      WithMoves(s, i, call, c, Reopened(s.conns[c], i), Setting(c), mine, Locking(c));
      assert LockStep(s2, i, SetTimeout(true, true), s3);
      ExtendRun(longer, i, SetTimeout(true, true), s3);
      longer := longer + [s3];
    }
  }

  /** The lock statement reports an error, granted or not. */
  lemma LockFails(s: State, i: nat, c: nat, granted: bool, s': State) returns (step: Step)
    requires i in s.calls && (s.calls[i].pc == Locking(c) || s.calls[i].pc == TryLocking(c)) && c in s.conns && s.conns[c].alive
    requires granted ==> NobodyElse(s, c, s.calls[i].key)
    requires s' == Move(Change(s, c, if granted then WithLock(s.conns[c], s.calls[i].key) else s.conns[c]), i, Unlocking(c, false))
    ensures NextBy(s, i, step, s')
  {
    step := if s.calls[i].pc.Locking? then Lock(false, granted) else TryLock(false, granted);
    assert LockStep(s, i, step, s');
  }

  /** The lock statement fails, and the cleanup has the given fate. */
  lemma CallGivesUp(run: seq<State>, s: State, i: nat, c: nat, call: Call, fate: Fate) returns (longer: seq<State>)
    requires IsRun(run) && c in s.conns && s.conns[c].owner == Pool
    requires Last(run) == With(s, i, At(call, LockPc(call, c)), c, Prepared(s.conns[c], i, call.hadTimeout))
    requires (fate.granted ==> NobodyElse(s, c, call.key)) && (!fate.unlocked ==> Exposed(s, call))
    ensures Extends(run, longer)
    ensures Last(longer) == With(s, i, At(call, Resetting(c)), c, AfterUnlock(s.conns[c], i, call, fate))
  {
    var conn := s.conns[c];
    var locked, unlocked := AfterLock(conn, i, call, fate), AfterUnlock(conn, i, call, fate);
    var s4, s5 := With(s, i, At(call, Unlocking(c, false)), c, locked), With(s, i, At(call, Resetting(c)), c, unlocked);
    WithMoves(s, i, call, c, Prepared(conn, i, call.hadTimeout), LockPc(call, c), locked, Unlocking(c, false));
    var step := LockFails(Last(run), i, c, fate.granted, s4);
    ExtendRun(run, i, step, s4);
    WithMoves(s, i, call, c, locked, Unlocking(c, false), unlocked, Resetting(c));
    assert EndStep(s4, i, Unlock(fate.unlocked), s5);
    ExtendRun(run + [s4], i, Unlock(fate.unlocked), s5);
    longer := run + [s4] + [s5];
  }

  /** Reset and give back, from the state in which the unlock is over. */
  lemma CallReturns(run: seq<State>, s: State, i: nat, c: nat, call: Call, conn: Conn, reset: bool) returns (longer: seq<State>)
    requires IsRun(run) && c in s.conns && Last(run) == With(s, i, At(call, Resetting(c)), c, conn)
    requires !reset ==> MayFail(s.bounded, conn)
    ensures Extends(run, longer)
    ensures Last(longer) == With(s, i, At(call, Finished), c, ResetTimeout(conn, call.hadTimeout, reset).(owner := Pool))
  {
    var done := ResetTimeout(conn, call.hadTimeout, reset);
    var s6, s7 := With(s, i, At(call, Returning(c)), c, done), With(s, i, At(call, Finished), c, done.(owner := Pool));
    WithMoves(s, i, call, c, conn, Resetting(c), done, Returning(c));
    assert EndStep(Last(run), i, Reset(reset), s6);
    ExtendRun(run, i, Reset(reset), s6);
    WithMoves(s, i, call, c, done, Returning(c), done.(owner := Pool), Finished);
    assert EndStep(s6, i, GiveBack, s7);
    ExtendRun(run + [s6], i, GiveBack, s7);
    longer := run + [s6] + [s7];
  }

  lemma CallEnds(run: seq<State>, i: nat, c: nat, call: Call, fate: Fate) returns (longer: seq<State>)
    requires CanStart(run, i, c, call) && Exposed(Last(run), call) && (fate.granted ==> NobodyElse(Last(run), c, call.key))
    ensures Extends(run, longer)
    ensures Last(longer) == With(Last(run), i, At(call, Finished), c, AfterReset(Last(run).conns[c], i, call, fate).(owner := Pool))
  {
    var s := Last(run);
    longer := CallSetsUp(run, i, c, call);
    longer := CallGivesUp(longer, s, i, c, call, fate);
    longer := CallReturns(longer, s, i, c, call, AfterUnlock(s.conns[c], i, call, fate), fate.reset);
  }

  /** Every reachable state with a pooled connection, and every acquire or try-acquire with a
      `timeoutMs`, has a continuation in which the call ends and the connection is back in the pool,
      alive, with that timeout still set: the reset was cancelled by the timeout it was to remove. */
  lemma TimeoutCanPoisonThePool(run: seq<State>, i: nat, c: nat, call: Call) returns (longer: seq<State>)
    requires CanStart(run, i, c, call) && call.hadTimeout
    ensures Extends(run, longer)
    ensures var s := Last(longer);
      && i in s.calls && s.calls[i].pc.Finished? && s.held == Last(run).held
      && c in s.conns && s.conns[c].owner == Pool && s.conns[c].alive && s.conns[c].timeoutSet
  {
    longer := CallEnds(run, i, c, call, Fate(false, true, false));
  }

  /** Connection c is pooled with the key's lock: no other session can be granted it while c lives. */
  ghost predicate Leaked(s: State, c: nat, key: AKey) {
    && c in s.conns && s.conns[c].owner == Pool && s.conns[c].alive && key in s.conns[c].locks
    && forall d :: d != c ==> !Grantable(s, d, key)
  }

  /** If the client has a `statement_timeout` or the call a `timeoutMs`, and no other session holds the
      key, every acquire and try-acquire has a continuation that ends and leaks the lock. */
  lemma AcquireCanLeakTheLock(run: seq<State>, i: nat, c: nat, call: Call) returns (longer: seq<State>)
    requires CanStart(run, i, c, call) && Exposed(Last(run), call) && NobodyElse(Last(run), c, call.key)
    ensures Extends(run, longer)
    ensures var s := Last(longer); i in s.calls && s.calls[i].pc.Finished? && s.held == Last(run).held && Leaked(s, c, call.key)
  {
    longer := CallEnds(run, i, c, call, Fate(true, false, true));
    var s := Last(longer);
    assert call.key in s.conns[c].locks;
  }

  /** And so has every release of a recorded lease on a live session. */
  lemma ReleaseCanLeakTheLock(run: seq<State>, i: nat, t: Token) returns (longer: seq<State>)
    requires IsRun(run) && i !in Last(run).calls && t in Last(run).held && Last(run).held[t].conn in Last(run).conns
    requires Last(run).conns[Last(run).held[t].conn].alive && (Last(run).bounded || Last(run).held[t].hadTimeout)
    ensures Extends(run, longer)
    ensures var s := Last(longer);
      && i in s.calls && s.calls[i].pc.Finished? && s.held == Last(run).held - {t}
      && Leaked(s, Last(run).held[t].conn, Last(run).held[t].key)
  {
    var s := Last(run);
    var h := s.held[t];
    RunKeepsInv(run, |run| - 1);
    assert HeldSound(s.conns, t, h);
    var call := Call(Release, h.key, h.hadTimeout, false, Reserving);
    var mine := s.conns[h.conn].(owner := ByCall(i));
    var base := s.(held := s.held - {t});
    var s1 := With(base, i, At(call, Unlocking(h.conn, false)), h.conn, mine);
    ExtendRun(run, i, BeginRelease(t), s1);
    var kept := Unlocked(mine, h.key, false);
    var s2 := With(base, i, At(call, Resetting(h.conn)), h.conn, kept);
    WithMoves(base, i, call, h.conn, mine, Unlocking(h.conn, false), kept, Resetting(h.conn));
    assert EndStep(s1, i, Unlock(false), s2);
    ExtendRun(run + [s1], i, Unlock(false), s2);
    longer := CallReturns(run + [s1] + [s2], base, i, h.conn, call, kept, true);
    assert h.key in Last(longer).conns[h.conn].locks;
  }
}
