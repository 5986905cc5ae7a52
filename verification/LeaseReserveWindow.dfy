/**
 * A finer look at `reserveBounded`. Between the moment `reserve()` is fulfilled and the moment its
 * first reaction runs, an abort can still set `gaveUp`: the reaction then releases the connection,
 * while `Promise.race` has already been won by the reservation, so the call goes on with a
 * connection that is back in the pool. Only a call that passes a signal has this window (a timer
 * cannot fire between two reactions of one settlement).
 */
module LeaseReserveWindow {
  import opened Leases
  import opened LeaseSafety
  import opened LeaseTimeouts

  /** The reservation is released by its own reaction, yet the call receives it. */
  ghost predicate WindowStep(s: State, i: nat, c: nat, s': State) {
    && i in s.calls && s.calls[i].pc.Reserving? && s.calls[i].hasSignal
    && c in s.conns && s.conns[c].alive && s.conns[c].owner == Pool
    && s' == Move(s, i, AfterReserve(s.calls[i], c))
  }

  ghost predicate FineNext(s: State, s': State) {
    Next(s, s') || exists i, c :: WindowStep(s, i, c, s')
  }

  ghost predicate IsFineRun(run: seq<State>) {
    |run| > 0 && Initial(run[0]) && forall i :: 0 <= i < |run| - 1 ==> FineStepAt(run, i)
  }

  ghost predicate FineStepAt(run: seq<State>, i: nat)
    requires i < |run| - 1
  {
    FineNext(run[i], run[i + 1])
  }

  ghost predicate NoSignals(s: State) {
    forall i :: i in s.calls ==> !s.calls[i].hasSignal
  }

  /** Without signals the fine-grained runs are the ordinary ones, so every guarantee holds. */
  lemma SafeWithoutSignals(run: seq<State>)
    requires IsFineRun(run) && forall n :: 0 <= n < |run| ==> NoSignals(run[n])
    ensures IsRun(run)
    ensures forall n :: 0 <= n < |run| ==> Inv(run[n])
  {
    forall i | 0 <= i < |run| - 1 ensures StepAt(run, i) {
      assert FineStepAt(run, i) && NoSignals(run[i]);
    }
    forall n | 0 <= n < |run| ensures Inv(run[n]) { RunKeepsInv(run, n); }
  }

  // ----- any signalled call can break it ----------------------------------------------------------

  ghost predicate ExtendsFine(run: seq<State>, longer: seq<State>) { IsFineRun(longer) && run <= longer }

  lemma ExtendFine(run: seq<State>, s': State)
    requires IsFineRun(run) && FineNext(Last(run), s')
    ensures ExtendsFine(run, run + [s'])
  {
    var longer := run + [s'];
    forall m | 0 <= m < |longer| - 1 ensures FineStepAt(longer, m) {
      if m < |run| - 1 { assert FineStepAt(run, m); }
    }
  }

  lemma ExtendFineBy(run: seq<State>, i: nat, step: Step, s': State)
    requires IsFineRun(run) && NextBy(Last(run), i, step, s')
    ensures ExtendsFine(run, run + [s'])
  {
    assert Next(Last(run), s');
    ExtendFine(run, s');
  }

  /** Call i waits for a connection with a signal; c is free; call j, token t and the key are unused. */
  ghost predicate WindowOpens(s: State, i: nat, c: nat, j: nat, t: Token) {
    && i in s.calls && s.calls[i].pc.Reserving? && s.calls[i].hasSignal && s.calls[i].kind != Release
    && c in s.conns && s.conns[c].alive && s.conns[c].owner == Pool && s.calls[i].key !in s.conns[c].locks
    && NobodyElse(s, c, s.calls[i].key) && j !in s.calls && t !in s.issued && t !in s.held
  }

  /** Through the window, and then the first statement of the aborted call fails. */
  lemma AbortedCallUnlocks(run: seq<State>, i: nat, c: nat) returns (longer: seq<State>)
    requires IsFineRun(run) && i in Last(run).calls && Last(run).calls[i].pc.Reserving? && Last(run).calls[i].hasSignal
    requires c in Last(run).conns && Last(run).conns[c].alive && Last(run).conns[c].owner == Pool
    ensures ExtendsFine(run, longer) && Last(longer) == Move(Last(run), i, Unlocking(c, false))
  {
    var s := Last(run);
    var s1, s2 := Move(s, i, AfterReserve(s.calls[i], c)), Move(s, i, Unlocking(c, false));
    assert WindowStep(s, i, c, s1);
    ExtendFine(run, s1);
    assert s.conns[c := s.conns[c]] == s.conns && s2 == Move(Change(s1, c, s1.conns[c]), i, Unlocking(c, false));
    var step := if s1.calls[i].pc.Setting? then SetTimeout(false, false)
                else if s1.calls[i].pc.TryLocking? then TryLock(false, false) else Lock(false, false);
    assert LockStep(s1, i, step, s2);
    ExtendFineBy(run + [s1], i, step, s2);
    longer := run + [s1] + [s2];
  }

  function Rival(key: AKey): Call { Call(Acquire, key, false, false, Reserving) }

  function LeasedBy(s: State, c: nat, j: nat, key: AKey, t: Token): State
    requires c in s.conns
  {
    State(s.conns[c := s.conns[c].(owner := ByToken(t), locks := s.conns[c].locks + multiset{key})],
          s.calls[j := At(Rival(key), Finished)], s.held[t := Held(c, key, false)], s.issued + {t}, s.bounded)
  }

  /** Another call takes the pooled connection and records its lease. */
  lemma RivalLeases(run: seq<State>, c: nat, j: nat, key: AKey, t: Token) returns (longer: seq<State>)
    requires IsFineRun(run) && c in Last(run).conns && Last(run).conns[c].alive && Last(run).conns[c].owner == Pool
    requires NobodyElse(Last(run), c, key) && j !in Last(run).calls && t !in Last(run).issued
    ensures ExtendsFine(run, longer) && Last(longer) == LeasedBy(Last(run), c, j, key, t)
  {
    var s, call := Last(run), Rival(key);
    var mine := s.conns[c].(owner := ByCall(j));
    var s1 := s.(calls := s.calls[j := call]);
    ExtendFineBy(run, j, Start(Acquire, key, false, false), s1);
    var s2 := With(s, j, At(call, Locking(c)), c, mine);
    assert s2 == Move(Change(s1, c, mine), j, Locking(c));
    assert ReserveStep(s1, j, ReserveGrant(c), s2);
    ExtendFineBy(run + [s1], j, ReserveGrant(c), s2);
    var s3 := With(s, j, At(call, Granted(c)), c, WithLock(mine, key));
    WithMoves(s, j, call, c, mine, Locking(c), WithLock(mine, key), Granted(c));
    assert LockStep(s2, j, Lock(true, true), s3);
    ExtendFineBy(run + [s1] + [s2], j, Lock(true, true), s3);
    longer := run + [s1] + [s2] + [s3];
    longer := RivalRecords(longer, s, c, j, key, t);
  }

  lemma RivalRecords(run: seq<State>, s: State, c: nat, j: nat, key: AKey, t: Token) returns (longer: seq<State>)
    requires IsFineRun(run) && c in s.conns && t !in s.issued
    requires Last(run) == With(s, j, At(Rival(key), Granted(c)), c, WithLock(s.conns[c].(owner := ByCall(j)), key))
    ensures ExtendsFine(run, longer) && Last(longer) == LeasedBy(s, c, j, key, t)
  {
    var s3, s4 := Last(run), LeasedBy(s, c, j, key, t);
    assert s4.conns == s3.conns[c := s3.conns[c].(owner := ByToken(t))] && s4.calls == s3.calls[j := At(Rival(key), Finished)];
    assert EndStep(s3, j, Recheck(false, t), s4);
    ExtendFineBy(run, j, Recheck(false, t), s4);
    longer := run + [s4];
  }

  /** With the window, whatever the key, the kind of call and the state: the recorded lease of another
      call on a live connection loses its lock to the cleanup of the aborted call, and every other
      live session can then be granted the same key. */
  lemma WindowBreaksExclusion(run: seq<State>, i: nat, c: nat, j: nat, t: Token) returns (longer: seq<State>)
    requires IsFineRun(run) && WindowOpens(Last(run), i, c, j, t)
    ensures ExtendsFine(run, longer)
    ensures var s := Last(longer); var key := Last(run).calls[i].key;
      && t in s.held && s.held[t] == Held(c, key, false) && c in s.conns && s.conns[c].alive && key !in s.conns[c].locks
      && forall d :: d in s.conns && s.conns[d].alive ==> Grantable(s, d, key)
  {
    var s0 := Last(run);
    var key := s0.calls[i].key;
    longer := AbortedCallUnlocks(run, i, c);
    var s1 := Last(longer);
    longer := RivalLeases(longer, c, j, key, t);
    var s2 := Last(longer);
    var s3 := Move(Change(s2, c, WithoutLock(s2.conns[c], key)), i, Resetting(c));
    assert EndStep(s2, i, Unlock(true), s3);
    ExtendFineBy(longer, i, Unlock(true), s3);
    longer := longer + [s3];
    UnlockedEverywhere(s0, s3, c, key);
  }

  lemma UnlockedEverywhere(s: State, s': State, c: nat, key: AKey)
    requires NobodyElse(s, c, key) && c in s.conns && c in s'.conns && key !in s'.conns[c].locks
    requires s'.conns.Keys == s.conns.Keys && forall d :: d in s.conns && d != c ==> s'.conns[d] == s.conns[d]
    ensures forall d :: d in s'.conns && s'.conns[d].alive ==> Grantable(s', d, key)
  {
  }
}
