/** Mutual exclusion of leases, the state of the connection pool, and one unlock per token, for every run. */
module LeaseSafety {
  import opened Leases

  // ----- a step touches one connection, one call and one token ----------------------------------

  /** Everything except connection c, call i and token t stays as it was, and c was theirs. */
  ghost predicate Touches(s: State, s': State, c: nat, i: nat, t: Token) {
    && c in s.conns && c in s'.conns && s'.conns == s.conns[c := s'.conns[c]]
    && i in s'.calls && s'.calls == s.calls[i := s'.calls[i]]
    && (forall u :: u != t ==> (u in s'.held <==> u in s.held) && (u in s.held ==> s'.held[u] == s.held[u]))
    && s.issued <= s'.issued
    && (i in s.calls && HasConn(s.calls[i].pc) ==> s.calls[i].pc.conn == c)
    && (t in s.held ==> s.held[t].conn == c)
    && (s.conns[c].owner in {Pool, ByCall(i)} || (s.conns[c].owner == ByToken(t)))
  }

  lemma CallsFrame(s: State, s': State, c: nat, i: nat, t: Token)
    requires CallsSound(s) && Touches(s, s', c, i, t) && CallSound(s'.conns, i, s'.calls[i])
    ensures CallsSound(s')
  {
    forall j | j in s'.calls ensures CallSound(s'.conns, j, s'.calls[j]) {
      if j != i { assert CallSound(s.conns, j, s.calls[j]); }
    }
  }

  lemma LeasesFrame(s: State, s': State, c: nat, i: nat, t: Token)
    requires LeasesSound(s) && Touches(s, s', c, i, t)
    requires t in s'.held ==> t in s'.issued && HeldSound(s'.conns, t, s'.held[t])
    ensures LeasesSound(s')
  {
    forall u | u in s'.held ensures u in s'.issued && HeldSound(s'.conns, u, s'.held[u]) {
      if u != t { assert HeldSound(s.conns, u, s.held[u]); }
    }
  }

  lemma PlacedFrame(s: State, s': State, c: nat, i: nat, t: Token)
    requires AllPlaced(s) && Touches(s, s', c, i, t) && Placed(s', c, s'.conns[c])
    ensures AllPlaced(s')
  {
    forall d | d in s'.conns ensures Placed(s', d, s'.conns[d]) {
      if d != c { assert Placed(s, d, s.conns[d]); }
    }
  }

  lemma LocksFrame(s: State, c: nat, conn: Conn)
    requires Exclusive(s.conns) && c in s.conns && (!conn.alive ==> Clean(conn))
    requires forall k :: k in conn.locks ==> k in s.conns[c].locks || Grantable(s, c, k)
    ensures Exclusive(s.conns[c := conn])
  {
  }

  lemma TouchKeepsInv(s: State, s': State, c: nat, i: nat, t: Token)
    requires Inv(s) && Touches(s, s', c, i, t)
    requires CallSound(s'.conns, i, s'.calls[i])
    requires t in s'.held ==> t in s'.issued && HeldSound(s'.conns, t, s'.held[t])
    requires Placed(s', c, s'.conns[c])
    requires !s'.conns[c].alive ==> Clean(s'.conns[c])
    requires forall k :: k in s'.conns[c].locks ==> k in s.conns[c].locks || Grantable(s, c, k)
    ensures Inv(s')
  {
    CallsFrame(s, s', c, i, t);
    LeasesFrame(s, s', c, i, t);
    PlacedFrame(s, s', c, i, t);
    LocksFrame(s, c, s'.conns[c]);
  }

  lemma FreshToken(s: State) returns (t: Token)
    ensures t !in s.held
  {
    t := LargerThan(s.held.Keys);
  }

  lemma {:induction false} LargerThan(tokens: set<Token>) returns (t: Token)
    ensures forall u :: u in tokens ==> u < t
    decreases |tokens|
  {
    if tokens == {} {
      t := 0;
    } else {
      var u :| u in tokens;
      var v := LargerThan(tokens - {u});
      t := if u < v then v else u + 1;
      assert forall w :: w in tokens ==> w == u || w in tokens - {u};
    }
  }

  // ----- every step -----------------------------------------------------------------------------

  lemma OwnStepKeepsInv(s: State, i: nat, s': State)
    requires Inv(s) && i in s.calls && HasConn(s.calls[i].pc) && i in s'.calls
    requires HasConn(s'.calls[i].pc) && s'.calls[i].pc.conn == s.calls[i].pc.conn
    requires var c := s.calls[i].pc.conn;
      && c in s.conns && c in s'.conns
      && s' == Move(Change(s, c, s'.conns[c]), i, s'.calls[i].pc)
      && s'.conns[c].owner == ByCall(i) && PcSound(s'.calls[i], s'.conns[c])
      && (!s'.conns[c].alive ==> Clean(s'.conns[c]))
      && forall k :: k in s'.conns[c].locks ==> k in s.conns[c].locks || Grantable(s, c, k)
    ensures Inv(s')
  {
    assert CallSound(s.conns, i, s.calls[i]);
    var t := FreshToken(s);
    TouchKeepsInv(s, s', s.calls[i].pc.conn, i, t);
  }

  lemma LockStepKeepsInv(s: State, i: nat, step: Step, s': State)
    requires Inv(s) && i in s.calls && LockStep(s, i, step, s')
    ensures Inv(s')
  {
    assert CallSound(s.conns, i, s.calls[i]);
    if step.AbortLock? { assert s.conns[s.calls[i].pc.conn := s.conns[s.calls[i].pc.conn]] == s.conns; }
    OwnStepKeepsInv(s, i, s');
  }

  lemma CleanupKeepsInv(s: State, i: nat, step: Step, s': State)
    requires Inv(s) && i in s.calls && EndStep(s, i, step, s') && !step.GiveBack? && (step.Recheck? ==> step.aborted)
    ensures Inv(s')
  {
    assert CallSound(s.conns, i, s.calls[i]);
    CleanupOwnStep(s, i, step, s');
    OwnStepKeepsInv(s, i, s');
  }

  lemma CleanupOwnStep(s: State, i: nat, step: Step, s': State)
    requires i in s.calls && EndStep(s, i, step, s') && !step.GiveBack? && (step.Recheck? ==> step.aborted)
    requires CallSound(s.conns, i, s.calls[i]) && Exclusive(s.conns)
    ensures i in s'.calls && HasConn(s.calls[i].pc) && HasConn(s'.calls[i].pc) && s'.calls[i].pc.conn == s.calls[i].pc.conn
    ensures var c := s.calls[i].pc.conn;
      && c in s.conns && c in s'.conns && s' == Move(Change(s, c, s'.conns[c]), i, s'.calls[i].pc)
      && s'.conns[c].owner == ByCall(i) && PcSound(s'.calls[i], s'.conns[c])
      && (!s'.conns[c].alive ==> Clean(s'.conns[c])) && s'.conns[c].locks <= s.conns[c].locks
  {
    var c := s.calls[i].pc.conn;
    match step
    case Recheck(_, _) => assert s.conns[c := s.conns[c]] == s.conns;
    case Unlock(effective) => UnlockSound(s.calls[i], s.conns[c], effective);
    case Reset(effective) => ResetSound(s.calls[i], s.conns[c], effective);
  }

  /** A cancelled unlock with something to undo spoils the session; any other leaves it exact. */
  lemma UnlockSound(call: Call, conn: Conn, effective: bool)
    requires call.pc.Unlocking? && !call.pc.pending && PcSound(call, conn) && (!conn.alive ==> Clean(conn))
    ensures var conn' := Unlocked(conn, call.key, effective);
      && PcSound(call.(pc := Resetting(call.pc.conn)), conn') && conn'.locks <= conn.locks
      && conn'.owner == conn.owner && conn'.alive == conn.alive && (!conn'.alive ==> Clean(conn'))
  {
  }

  lemma ResetSound(call: Call, conn: Conn, effective: bool)
    requires call.pc.Resetting? && PcSound(call, conn) && (!conn.alive ==> Clean(conn))
    ensures var conn' := ResetTimeout(conn, call.hadTimeout, effective);
      && PcSound(call.(pc := Returning(call.pc.conn)), conn') && conn'.locks == conn.locks
      && conn'.owner == conn.owner && conn'.alive == conn.alive && (!conn'.alive ==> Clean(conn'))
  {
  }

  lemma RecordKeepsInv(s: State, i: nat, token: Token, s': State)
    requires Inv(s) && i in s.calls && EndStep(s, i, Recheck(false, token), s')
    ensures Inv(s')
  {
    assert CallSound(s.conns, i, s.calls[i]);
    TouchKeepsInv(s, s', s.calls[i].pc.conn, i, token);
  }

  lemma GiveBackKeepsInv(s: State, i: nat, s': State)
    requires Inv(s) && i in s.calls && EndStep(s, i, GiveBack, s')
    ensures Inv(s')
  {
    assert CallSound(s.conns, i, s.calls[i]);
    var t := FreshToken(s);
    TouchKeepsInv(s, s', s.calls[i].pc.conn, i, t);
  }

  lemma ReserveKeepsInv(s: State, i: nat, step: Step, s': State)
    requires Inv(s) && i in s.calls && ReserveStep(s, i, step, s')
    ensures Inv(s')
  {
    if step.ReserveGrant? && s.calls[i].pc.Reserving? {
      assert Placed(s, step.conn, s.conns[step.conn]);
      var t := FreshToken(s);
      TouchKeepsInv(s, s', step.conn, i, t);
    } else {
      NoConnKeepsInv(s, i, s');
    }
  }

  /** A call that owns no connection, before and after, disturbs nothing. */
  lemma NoConnKeepsInv(s: State, i: nat, s': State)
    requires Inv(s) && (i in s.calls ==> !HasConn(s.calls[i].pc))
    requires i in s'.calls && !HasConn(s'.calls[i].pc) && s' == s.(calls := s.calls[i := s'.calls[i]])
    ensures Inv(s')
  {
    forall d | d in s'.conns ensures Placed(s', d, s'.conns[d]) { assert Placed(s, d, s.conns[d]); }
  }

  lemma BeginReleaseKeepsInv(s: State, i: nat, token: Token, s': State)
    requires Inv(s) && NextBy(s, i, BeginRelease(token), s')
    ensures Inv(s')
  {
    if token in s.held {
      assert HeldSound(s.conns, token, s.held[token]);
      TouchKeepsInv(s, s', s.held[token].conn, i, token);
    } else {
      NoConnKeepsInv(s, i, s');
    }
  }

  lemma DeadStaysSound(call: Call, conn: Conn)
    requires PcSound(call, conn)
    ensures PcSound(call, Dead(conn))
  {
  }

  lemma DieKeepsInv(s: State, c: nat)
    requires Inv(s) && c in s.conns
    ensures Inv(Change(s, c, Dead(s.conns[c])))
  {
    var s' := Change(s, c, Dead(s.conns[c]));
    assert AllPlaced(s') by {
      forall d | d in s'.conns ensures Placed(s', d, s'.conns[d]) { assert Placed(s, d, s.conns[d]); }
    }
    DieKeepsCalls(s, c);
    DieKeepsLeases(s, c);
    LocksFrame(s, c, s'.conns[c]);
  }

  lemma DieKeepsCalls(s: State, c: nat)
    requires CallsSound(s) && c in s.conns
    ensures CallsSound(Change(s, c, Dead(s.conns[c])))
  {
    var s' := Change(s, c, Dead(s.conns[c]));
    forall j | j in s'.calls ensures CallSound(s'.conns, j, s'.calls[j]) {
      assert CallSound(s.conns, j, s.calls[j]);
      if HasConn(s.calls[j].pc) { DeadStaysSound(s.calls[j], s.conns[s.calls[j].pc.conn]); }
    }
  }

  lemma DieKeepsLeases(s: State, c: nat)
    requires LeasesSound(s) && c in s.conns
    ensures LeasesSound(Change(s, c, Dead(s.conns[c])))
  {
    var s' := Change(s, c, Dead(s.conns[c]));
    forall t | t in s'.held ensures HeldSound(s'.conns, t, s'.held[t]) { assert HeldSound(s.conns, t, s.held[t]); }
  }

  lemma CallStepKeepsInv(s: State, i: nat, step: Step, s': State)
    requires Inv(s) && i in s.calls && EndStep(s, i, step, s')
    ensures Inv(s')
  {
    if step.GiveBack? {
      GiveBackKeepsInv(s, i, s');
    } else if step.Recheck? && !step.aborted {
      RecordKeepsInv(s, i, step.token, s');
    } else {
      CleanupKeepsInv(s, i, step, s');
    }
  }

  lemma StepKeepsInv(s: State, i: nat, step: Step, s': State)
    requires Inv(s) && NextBy(s, i, step, s')
    ensures Inv(s')
  {
    if step.Start? {
      NoConnKeepsInv(s, i, s');
    } else if step.BeginRelease? {
      BeginReleaseKeepsInv(s, i, step.token, s');
    } else if step.Die? {
      DieKeepsInv(s, step.conn);
    } else if LockStep(s, i, step, s') {
      LockStepKeepsInv(s, i, step, s');
    } else if EndStep(s, i, step, s') {
      CallStepKeepsInv(s, i, step, s');
    } else {
      ReserveKeepsInv(s, i, step, s');
    }
  }

  lemma {:induction false} RunKeepsInv(run: seq<State>, n: nat)
    requires IsRun(run) && n < |run|
    ensures Inv(run[n])
  {
    if n > 0 {
      RunKeepsInv(run, n - 1);
      assert StepAt(run, n - 1);
      var i, step :| NextBy(run[n - 1], i, step, run[n]);
      StepKeepsInv(run[n - 1], i, step, run[n]);
    }
  }

  // ----- what callers get -----------------------------------------------------------------------

  /** A recorded lease on a live connection holds its advisory lock, and no other session, leased or
      pooled or in between, holds it at all, whatever cleanup was cancelled anywhere; it holds it
      exactly once, and nothing else, unless a cleanup was cancelled on that very session before. */
  lemma LeaseIsExclusive(run: seq<State>, n: nat, t: Token)
    requires IsRun(run) && n < |run| && t in run[n].held
    ensures run[n].held[t].conn in run[n].conns
    ensures var s := run[n]; var h := s.held[t];
      s.conns[h.conn].alive ==>
        && h.key in s.conns[h.conn].locks && (!s.conns[h.conn].spoiled ==> s.conns[h.conn].locks == multiset{h.key})
        && (forall d :: d in s.conns && d != h.conn ==> h.key !in s.conns[d].locks)
        && (forall u :: u in s.held && u != t && s.held[u].key == h.key ==> s.held[u].conn in s.conns && !s.conns[s.held[u].conn].alive)
  {
    RunKeepsInv(run, n);
    var s := run[n];
    assert HeldSound(s.conns, t, s.held[t]);
    if s.conns[s.held[t].conn].alive {
      assert s.held[t].key in s.conns[s.held[t].conn].locks;
      forall u | u in s.held && u != t && s.held[u].key == s.held[t].key
        ensures s.held[u].conn in s.conns && !s.conns[s.held[u].conn].alive
      {
        assert HeldSound(s.conns, u, s.held[u]);
      }
    }
  }

  /** On every exit the connection is recorded under one token or back in the pool; nothing is lost
      in between. A pooled connection has no lease lock and the default statement timeout unless a
      cleanup statement was cancelled there since the session was opened. */
  lemma PoolIsAccountedFor(run: seq<State>, n: nat, c: nat)
    requires IsRun(run) && n < |run| && c in run[n].conns
    ensures run[n].conns[c].owner == Pool && !run[n].conns[c].spoiled ==> Clean(run[n].conns[c])
    ensures (forall i :: i in run[n].calls ==> run[n].calls[i].pc.Finished?) ==>
      || run[n].conns[c].owner == Pool
      || exists t :: t in run[n].held && run[n].held[t].conn == c
  {
    RunKeepsInv(run, n);
    assert Placed(run[n], c, run[n].conns[c]);
  }

  /** The token was issued once and is not recorded any more. */
  ghost predicate Spent(s: State, t: Token) { t in s.issued && t !in s.held }

  lemma TokensAreNotReissued(s: State, i: nat, step: Step, s': State, t: Token)
    requires NextBy(s, i, step, s') && Spent(s, t)
    ensures Spent(s', t)
  {
  }

  lemma NextKeepsIssued(s: State, s': State, t: Token)
    requires Next(s, s') && Spent(s, t)
    ensures Spent(s', t)
  {
    var i, step :| NextBy(s, i, step, s');
    TokensAreNotReissued(s, i, step, s', t);
  }

  lemma {:induction false} IssuedForever(run: seq<State>, m: nat, n: nat, t: Token)
    requires IsRun(run) && m <= n < |run| && Spent(run[m], t)
    ensures Spent(run[n], t)
    decreases n
  {
    if m < n {
      IssuedForever(run, m, n - 1, t);
      assert StepAt(run, n - 1);
      NextKeepsIssued(run[n - 1], run[n], t);
    }
  }

  /** Releasing a token a second time, however late, touches no connection and no lock. */
  lemma SecondReleaseDoesNothing(run: seq<State>, m: nat, n: nat, i: nat, t: Token)
    requires IsRun(run) && m < n < |run| && t in run[m].held
    requires NextBy(run[m], i, BeginRelease(t), run[m + 1])
    ensures forall j, s' :: NextBy(run[n], j, BeginRelease(t), s') ==> s'.conns == run[n].conns && s'.held == run[n].held
  {
    RunKeepsInv(run, m);
    IssuedForever(run, m + 1, n, t);
  }

  /** The defensive unlock of a failed acquire never takes a lock away from a recorded lease. */
  lemma DefensiveUnlockIsHarmless(run: seq<State>, n: nat, i: nat, effective: bool, s': State, t: Token)
    requires IsRun(run) && n < |run| && NextBy(run[n], i, Unlock(effective), s') && t in run[n].held
    ensures run[n].held[t].conn in run[n].conns && run[n].held[t].conn in s'.conns
    ensures s'.conns[run[n].held[t].conn] == run[n].conns[run[n].held[t].conn]
  {
    RunKeepsInv(run, n);
    UnlockTouchesOwn(run[n], i, effective, s', t);
  }

  lemma UnlockTouchesOwn(s: State, i: nat, effective: bool, s': State, t: Token)
    requires CallsSound(s) && LeasesSound(s) && NextBy(s, i, Unlock(effective), s') && t in s.held
    ensures s.held[t].conn in s.conns && s.held[t].conn in s'.conns
    ensures s'.conns[s.held[t].conn] == s.conns[s.held[t].conn]
  {
    assert HeldSound(s.conns, t, s.held[t]) && CallSound(s.conns, i, s.calls[i]);
  }
}
