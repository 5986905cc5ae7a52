/**
 * `acquireLease` and `releaseLease` in their own form, run by themselves: the same statements and
 * `catch`/`finally` order as the interleaved protocol. What the server answers is a parameter.
 */
module LeaseLayer {
  import opened Leases

  /** The server's answers to one acquire. A statement may take effect and still report an error. */
  datatype Answers = Answers(setOk: bool, setEffective: bool, lockOk: bool, granted: bool, abortedAfter: bool)

  predicate Possible(a: Answers) { (a.setOk ==> a.setEffective) && (a.lockOk ==> a.granted) }

  /** Whether the two cleanup statements take effect. */
  datatype Cleanup = Cleanup(unlocked: bool, reset: bool)

  /** Pooled connections are clean, and a recorded lease holds its lock once, except on a session
      where a cleanup was cancelled; there the lease still holds its lock. */
  ghost predicate Sound(conns: map<nat, Conn>, held: map<Token, Held>) {
    && (forall c :: c in conns && conns[c].owner == Pool && !conns[c].spoiled ==> Clean(conns[c]))
    && (forall t :: t in held ==> held[t].conn in conns && Leased(conns[held[t].conn], t, held[t]))
  }

  predicate Leased(conn: Conn, t: Token, h: Held) {
    && conn.owner == ByToken(t) && (conn.alive ==> h.key in conn.locks)
    && (!conn.spoiled ==> Holds(conn, h.key) && TimeoutOwed(conn, h.hadTimeout))
  }

  /** The catch block: unlock defensively, reset the timeout, give the connection back. */
  function CleanedUp(conn: Conn, key: AKey, hadTimeout: bool, cleanup: Cleanup): Conn {
    ResetTimeout(Unlocked(conn, key, cleanup.unlocked), hadTimeout, cleanup.reset).(owner := Pool)
  }

  lemma RecordKeepsSound(conns: map<nat, Conn>, held: map<Token, Held>, c: nat, conn: Conn, t: Token, h: Held)
    requires Sound(conns, held) && c in conns && conns[c].owner == Pool && t !in held && h.conn == c && Leased(conn, t, h)
    ensures Sound(conns[c := conn], held[t := h])
  {
  }

  lemma ReturnKeepsSound(conns: map<nat, Conn>, held: map<Token, Held>, t: Token, conn: Conn)
    requires Sound(conns, held) && t in held && conn.owner == Pool && (!conn.spoiled ==> Clean(conn))
    ensures Sound(conns[held[t].conn := conn], held - {t})
  {
    forall u | u in held && u != t ensures held[u].conn != held[t].conn {
      assert Leased(conns[held[u].conn], u, held[u]) && Leased(conns[held[t].conn], t, held[t]);
    }
  }

  lemma PooledKeepsSound(conns: map<nat, Conn>, held: map<Token, Held>, c: nat, conn: Conn)
    requires Sound(conns, held) && c in conns && conns[c].owner == Pool && conn.owner == Pool && (!conn.spoiled ==> Clean(conn))
    ensures Sound(conns[c := conn], held)
  {
  }

  /** On a session that was clean, exactly what the cancelled cleanup should have undone stays. */
  lemma CleanupLeaves(conn: Conn, key: AKey, hadTimeout: bool, granted: bool, timed: bool, cleanup: Cleanup)
    requires conn == Conn(true, if granted then multiset{key} else multiset{}, timed, conn.owner, false) && (timed ==> hadTimeout)
    ensures CleanedUp(conn, key, hadTimeout, cleanup) ==
      Conn(true, if granted && !cleanup.unlocked then multiset{key} else multiset{}, timed && !cleanup.reset, Pool,
           (granted && !cleanup.unlocked) || (timed && !cleanup.reset))
  {
  }

  class PgLeases {
    const bounded: bool  // the client's own statement_timeout
    var conns: map<nat, Conn>
    var held: map<Token, Held>

    constructor (pool: map<nat, Conn>, bound: bool)
      requires forall c :: c in pool ==> pool[c] == Conn(true, multiset{}, false, Pool, false)
      ensures Sound(conns, held) && conns == pool && held == map[] && bounded == bound
    {
      bounded, conns, held := bound, pool, map[];
    }

    /** Either the lease is recorded under the token and its connection holds the lock, or the
        connection is back in the pool. A clean connection comes back exactly as it was unless the
        unlock of a granted lock or the reset of a timeout that was set is cancelled, which takes a
        timeout: without the client's and without `timeoutMs` nothing is ever left behind. */
    method AcquireLease(c: nat, key: AKey, hadTimeout: bool, answers: Answers, cleanup: Cleanup, token: Token) returns (ok: bool)
      requires Sound(conns, held) && Possible(answers) && token !in held
      requires c in conns && conns[c].owner == Pool && conns[c].alive
      requires !cleanup.unlocked || !cleanup.reset ==> bounded || conns[c].timeoutSet || (hadTimeout && answers.setEffective)
      modifies this
      ensures Sound(conns, held) && c in conns && conns == old(conns)[c := conns[c]] && conns[c].alive
      ensures ok <==> (hadTimeout ==> answers.setOk) && answers.lockOk && !answers.abortedAfter
      ensures ok ==> held == old(held)[token := Held(c, key, hadTimeout)] && conns[c].owner == ByToken(token) && key in conns[c].locks
      ensures ok && hadTimeout ==> conns[c].timeoutSet
      ensures ok ==> conns[c].locks == old(conns)[c].locks + multiset{key}
      ensures !ok && !answers.granted && cleanup.unlocked ==> conns[c].locks == old(conns)[c].locks - multiset{key}
      ensures forall k :: k != key ==> conns[c].locks[k] == old(conns)[c].locks[k]
      ensures ok && !old(conns)[c].spoiled ==> conns[c] == Conn(true, multiset{key}, hadTimeout, ByToken(token), false)
      ensures !ok ==> held == old(held) && conns[c].owner == Pool
      ensures !ok && !old(conns)[c].spoiled ==>
        (key in conns[c].locks <==> (hadTimeout ==> answers.setOk) && answers.granted && !cleanup.unlocked)
        && (conns[c].timeoutSet <==> hadTimeout && answers.setEffective && !cleanup.reset)
        && (conns[c].locks == multiset{} || conns[c].locks == multiset{key})
      ensures !ok && !hadTimeout && !bounded && !old(conns)[c].spoiled ==> conns == old(conns)
    {
      var reserved := conns[c];
      ok := true;
      if hadTimeout {
        reserved := reserved.(timeoutSet := reserved.timeoutSet || answers.setEffective);
        ok := answers.setOk;
      }
      ghost var locking := ok;
      if ok {
        if answers.granted { reserved := WithLock(reserved, key); }
        ok := answers.lockOk && !answers.abortedAfter;
      }
      if !ok {
        if !reserved.spoiled {
          CleanupLeaves(reserved, key, hadTimeout, locking && answers.granted, hadTimeout && answers.setEffective, cleanup);
        }
        reserved := CleanedUp(reserved, key, hadTimeout, cleanup);
        PooledKeepsSound(conns, held, c, reserved);
        assert !hadTimeout && !bounded && !conns[c].spoiled ==> reserved == conns[c] && conns[c := reserved] == conns;
        conns := conns[c := reserved];
        return;
      }
      reserved := reserved.(owner := ByToken(token));
      RecordKeepsSound(conns, held, c, reserved, token, Held(c, key, hadTimeout));
      conns := conns[c := reserved];
      held := held[token := Held(c, key, hadTimeout)];
    }

    /** The token is forgotten first, so releasing it again, or a token never issued, changes
        nothing. The connection goes back to the pool, clean exactly when both cleanup statements
        took effect; a failed unlock is reported after that. */
    method ReleaseLease(token: Token, cleanup: Cleanup) returns (found: bool, fault: bool)
      requires Sound(conns, held)
      requires token in held && (!cleanup.unlocked || !cleanup.reset) ==> held[token].conn in conns && MayFail(bounded, conns[held[token].conn])
      modifies this
      ensures Sound(conns, held) && found == (token in old(held)) && token !in held
      ensures !found ==> conns == old(conns) && held == old(held) && !fault
      ensures found ==> held == old(held) - {token} && old(held)[token].conn in old(conns)
      ensures found ==> var c := old(held)[token].conn;
        && c in conns && conns == old(conns)[c := conns[c]] && conns[c].owner == Pool && conns[c].alive == old(conns)[c].alive
        && fault == (!conns[c].alive || !cleanup.unlocked)
        && conns[c].locks == (if cleanup.unlocked then old(conns)[c].locks - multiset{old(held)[token].key} else old(conns)[c].locks)
        && (!old(conns)[c].spoiled ==> (Clean(conns[c]) <==> cleanup.unlocked && (old(conns)[c].timeoutSet ==> cleanup.reset)))
    {
      if token !in held { return false, false; }
      var h := held[token];
      assert Leased(conns[h.conn], token, h);
      fault := !conns[h.conn].alive || !cleanup.unlocked;
      var reserved := CleanedUp(conns[h.conn], h.key, h.hadTimeout, cleanup);
      if !conns[h.conn].spoiled { ReleaseLeaves(conns[h.conn], h, cleanup); }
      ReturnKeepsSound(conns, held, token, reserved);
      held := held - {token};
      conns := conns[h.conn := reserved];
      found := true;
    }
  }

  lemma ReleaseLeaves(conn: Conn, h: Held, cleanup: Cleanup)
    requires Holds(conn, h.key) && TimeoutOwed(conn, h.hadTimeout) && !conn.spoiled
    requires !cleanup.unlocked || !cleanup.reset ==> conn.alive
    ensures var reserved := CleanedUp(conn, h.key, h.hadTimeout, cleanup);
      && (Clean(reserved) <==> cleanup.unlocked && (conn.timeoutSet ==> cleanup.reset))
      && (!reserved.spoiled ==> Clean(reserved))
  {
  }
}
