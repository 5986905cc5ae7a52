/**
 * `PgTransactionLeaseLayer`: session advisory locks on reserved connections, taken and given back
 * by any number of concurrent calls, with timeouts, aborts at every await, lock grants that race a
 * cancel, and connections that die at any moment.
 *
 * A call is at one await point at a time (`Pc`); one settled promise with its reactions is one
 * step. A cancel reaches only the query it was sent for. The cleanup statements (unlock, reset) run
 * under whatever `statement_timeout` the session has: the client's own, which `createClient` puts on
 * every session, or one a lease call has set. Under either the server may cancel them without effect;
 * the error is swallowed and the connection goes back to the pool all the same.
 */
module Leases {
  type AKey = int   // hashtext(key) under advisory class 2
  type Token = nat

  /** Who holds the handle of a physical connection. */
  datatype Owner = Pool | ByCall(call: nat) | ByToken(token: Token)

  /** `spoiled` is history: since the session was opened a cleanup statement that had something to
      undo was cancelled. No step looks at it. */
  datatype Conn = Conn(alive: bool, locks: multiset<AKey>, timeoutSet: bool, owner: Owner, spoiled: bool)

  datatype Kind = Acquire | TryAcquire | Release

  datatype Pc =
    | Reserving                       // reserveBounded
    | GaveUp                          // timed out or aborted while reserve() is still pending
    | Setting(conn: nat)              // set statement_timeout
    | Locking(conn: nat)              // select pg_advisory_lock
    | TryLocking(conn: nat)           // select pg_try_advisory_lock
    | Granted(conn: nat)              // about to re-check the signal and record the lease
    | Unlocking(conn: nat, pending: bool)  // pg_advisory_unlock; pending: the lock query is still ahead of it
    | Resetting(conn: nat)            // reset statement_timeout
    | Returning(conn: nat)            // reserved.release()
    | Finished

  datatype Call = Call(kind: Kind, key: AKey, hadTimeout: bool, hasSignal: bool, pc: Pc)
  datatype Held = Held(conn: nat, key: AKey, hadTimeout: bool)

  /** `bounded`: the client was created with a `statement_timeout` of its own. It never changes. */
  datatype State = State(conns: map<nat, Conn>, calls: map<nat, Call>, held: map<Token, Held>, issued: set<Token>, bounded: bool)

  predicate Grantable(s: State, c: nat, k: AKey) {
    && c in s.conns && s.conns[c].alive
    && forall d :: d in s.conns && d != c ==> k !in s.conns[d].locks
  }

  datatype Step =
    | Start(kind: Kind, key: AKey, hadTimeout: bool, hasSignal: bool)
    | ReserveGrant(conn: nat) | ReserveFail | Bail
    | SetTimeout(ok: bool, effective: bool)
    | Lock(ok: bool, granted: bool) | AbortLock | LateLock(granted: bool)
    | TryLock(ok: bool, granted: bool)
    | Recheck(aborted: bool, token: Token)
    | Unlock(effective: bool) | Reset(effective: bool) | GiveBack
    | BeginRelease(token: Token)
    | Die(conn: nat)

  function At(call: Call, pc: Pc): Call { call.(pc := pc) }

  function Move(s: State, i: nat, pc: Pc): State
    requires i in s.calls
  {
    s.(calls := s.calls[i := At(s.calls[i], pc)])
  }

  function Change(s: State, c: nat, conn: Conn): State { s.(conns := s.conns[c := conn]) }

  /** Where a fresh reservation leads: the branch structure after `reserveBounded`. */
  function AfterReserve(call: Call, c: nat): Pc {
    if call.hadTimeout then Setting(c) else if call.kind == TryAcquire then TryLocking(c) else Locking(c)
  }

  /** A dead pooled connection is reopened as a new session when it is reserved. */
  function Reopened(conn: Conn, i: nat): Conn {
    if conn.alive then conn.(owner := ByCall(i)) else Conn(true, multiset{}, false, ByCall(i), false)
  }

  function Dead(conn: Conn): Conn { conn.(alive := false, locks := multiset{}, timeoutSet := false, spoiled := false) }

  function WithLock(conn: Conn, k: AKey): Conn { conn.(locks := conn.locks + multiset{k}) }
  function WithoutLock(conn: Conn, k: AKey): Conn { conn.(locks := conn.locks - multiset{k}) }

  /** pg_advisory_unlock, or its cancellation. */
  function Unlocked(conn: Conn, k: AKey, effective: bool): Conn {
    if effective then WithoutLock(conn, k) else conn.(spoiled := conn.spoiled || k in conn.locks)
  }

  /** reset statement_timeout, issued only by a call that had set one, or its cancellation. */
  function ResetTimeout(conn: Conn, hadTimeout: bool, effective: bool): Conn {
    if !hadTimeout then conn
    else if effective then conn.(timeoutSet := false)
    else conn.(spoiled := conn.spoiled || conn.timeoutSet)
  }

  /** A statement of a live session is cancelled only by a timeout that is in force there. */
  predicate MayFail(bounded: bool, conn: Conn) { conn.alive && (bounded || conn.timeoutSet) }

  ghost predicate ReserveStep(s: State, i: nat, step: Step, s': State)
    requires i in s.calls
  {
    var call := s.calls[i];
    match step
    case ReserveGrant(c) =>
      && c in s.conns && s.conns[c].owner == Pool
      && (match call.pc
          case Reserving => s' == Move(Change(s, c, Reopened(s.conns[c], i)), i, AfterReserve(call, c))
          case GaveUp => s' == Move(s, i, Finished)  // orphaned reservation: released at once
          case _ => false)
    case ReserveFail => (call.pc.Reserving? || call.pc.GaveUp?) && s' == Move(s, i, Finished)
    case Bail => call.pc.Reserving? && (call.hadTimeout || call.hasSignal) && s' == Move(s, i, GaveUp)
    case _ => false
  }

  ghost predicate LockStep(s: State, i: nat, step: Step, s': State)
    requires i in s.calls
  {
    var call := s.calls[i];
    match step
    case SetTimeout(ok, effective) =>
      && call.pc.Setting? && call.pc.conn in s.conns
      && var conn := s.conns[call.pc.conn];
         && (ok ==> conn.alive && effective) && (effective ==> conn.alive)
         && s' == Move(Change(s, call.pc.conn, conn.(timeoutSet := conn.timeoutSet || effective)), i,
                       if ok then Locking(call.pc.conn) else Unlocking(call.pc.conn, false))
    case Lock(ok, granted) =>
      && call.pc.Locking? && call.pc.conn in s.conns
      && (ok ==> granted) && (granted ==> Grantable(s, call.pc.conn, call.key))
      && var conn := s.conns[call.pc.conn];
         s' == Move(Change(s, call.pc.conn, if granted then WithLock(conn, call.key) else conn), i,
                    if ok then Granted(call.pc.conn) else Unlocking(call.pc.conn, false))
    case AbortLock =>
      call.pc.Locking? && call.hasSignal && s' == Move(s, i, Unlocking(call.pc.conn, true))
    case LateLock(granted) =>
      && call.pc.Unlocking? && call.pc.pending && call.pc.conn in s.conns
      && (granted ==> Grantable(s, call.pc.conn, call.key))
      && var conn := s.conns[call.pc.conn];
         s' == Move(Change(s, call.pc.conn, if granted then WithLock(conn, call.key) else conn), i, Unlocking(call.pc.conn, false))
    case TryLock(ok, granted) =>
      && call.pc.TryLocking? && call.pc.conn in s.conns && (ok ==> s.conns[call.pc.conn].alive)
      && (granted ==> Grantable(s, call.pc.conn, call.key))
      && var conn := s.conns[call.pc.conn];
         s' == Move(Change(s, call.pc.conn, if granted then WithLock(conn, call.key) else conn), i,
                    if !ok then Unlocking(call.pc.conn, false)
                    else if granted then Granted(call.pc.conn)
                    else Returning(call.pc.conn))
    case _ => false
  }

  ghost predicate EndStep(s: State, i: nat, step: Step, s': State)
    requires i in s.calls
  {
    var call := s.calls[i];
    match step
    case Recheck(aborted, token) =>
      && call.pc.Granted? && call.pc.conn in s.conns
      && (if aborted then call.hasSignal && s' == Move(s, i, Unlocking(call.pc.conn, false))
          else
            && token !in s.issued
            && s' == Move(Change(s, call.pc.conn, s.conns[call.pc.conn].(owner := ByToken(token))), i, Finished)
                 .(held := s.held[token := Held(call.pc.conn, call.key, call.hadTimeout)], issued := s.issued + {token}))
    case Unlock(effective) =>
      && call.pc.Unlocking? && !call.pc.pending && call.pc.conn in s.conns
      && (!effective ==> MayFail(s.bounded, s.conns[call.pc.conn]))
      && s' == Move(Change(s, call.pc.conn, Unlocked(s.conns[call.pc.conn], call.key, effective)), i, Resetting(call.pc.conn))
    case Reset(effective) =>
      && call.pc.Resetting? && call.pc.conn in s.conns
      && (!effective ==> MayFail(s.bounded, s.conns[call.pc.conn]))
      && s' == Move(Change(s, call.pc.conn, ResetTimeout(s.conns[call.pc.conn], call.hadTimeout, effective)), i, Returning(call.pc.conn))
    case GiveBack =>
      && call.pc.Returning? && call.pc.conn in s.conns
      && s' == Move(Change(s, call.pc.conn, s.conns[call.pc.conn].(owner := Pool)), i, Finished)
    case _ => false
  }

  ghost predicate NextBy(s: State, i: nat, step: Step, s': State) {
    match step
    case Start(kind, key, hadTimeout, hasSignal) =>
      && i !in s.calls && kind != Release
      && s' == s.(calls := s.calls[i := Call(kind, key, hadTimeout, hasSignal, Reserving)])
    case BeginRelease(token) =>
      && i !in s.calls
      && (if token !in s.held then s' == s.(calls := s.calls[i := Call(Release, 0, false, false, Finished)])
          else
            var h := s.held[token];
            && h.conn in s.conns
            && s' == Change(s, h.conn, s.conns[h.conn].(owner := ByCall(i)))
                 .(held := s.held - {token}, calls := s.calls[i := Call(Release, h.key, h.hadTimeout, false, Unlocking(h.conn, false))]))
    case Die(c) =>
      c in s.conns && s' == Change(s, c, Dead(s.conns[c]))
    case _ =>
      && i in s.calls
      && (ReserveStep(s, i, step, s') || LockStep(s, i, step, s') || EndStep(s, i, step, s'))
  }

  ghost predicate Next(s: State, s': State) {
    exists i, step :: NextBy(s, i, step, s')
  }

  ghost predicate Initial(s: State) {
    && s.calls == map[] && s.held == map[] && s.issued == {}
    && forall c :: c in s.conns ==> Clean(s.conns[c]) && s.conns[c].owner == Pool && !s.conns[c].spoiled
  }

  ghost predicate IsRun(run: seq<State>) {
    |run| > 0 && Initial(run[0]) && forall i :: 0 <= i < |run| - 1 ==> StepAt(run, i)
  }

  ghost predicate StepAt(run: seq<State>, i: nat)
    requires i < |run| - 1
  {
    Next(run[i], run[i + 1])
  }

  // ----- invariant ------------------------------------------------------------------------------

  predicate Clean(conn: Conn) { conn.locks == multiset{} && !conn.timeoutSet }

  predicate Holds(conn: Conn, k: AKey) { conn.locks == if conn.alive then multiset{k} else multiset{} }

  predicate TimeoutOwed(conn: Conn, hadTimeout: bool) { conn.timeoutSet ==> hadTimeout }

  predicate HasConn(pc: Pc) { !pc.Reserving? && !pc.GaveUp? && !pc.Finished? }

  /** What a call's await point says about the connection it owns, if no cleanup was cancelled
      there before. */
  ghost predicate PcExact(call: Call, conn: Conn) {
    match call.pc
    case Setting(_) => Clean(conn)
    case Locking(_) => conn.locks == multiset{} && TimeoutOwed(conn, call.hadTimeout)
    case TryLocking(_) => Clean(conn)
    case Granted(_) => Holds(conn, call.key) && TimeoutOwed(conn, call.hadTimeout)
    case Unlocking(_, pending) =>
      && (conn.locks == multiset{} || (conn.locks == multiset{call.key} && !pending))
      && TimeoutOwed(conn, call.hadTimeout)
    case Resetting(_) => conn.locks == multiset{} && TimeoutOwed(conn, call.hadTimeout)
    case Returning(_) => Clean(conn)
    case _ => true
  }

  /** In any case a call about to record its lease has the lock, and its timeout is in force. */
  ghost predicate PcSound(call: Call, conn: Conn) {
    && (!conn.spoiled ==> PcExact(call, conn))
    && (call.pc.Granted? && conn.alive ==> call.key in conn.locks) && (call.pc.Setting? ==> call.hadTimeout)
    && (call.pc.TryLocking? ==> !call.hadTimeout)
    && ((call.pc.Locking? || call.pc.Granted?) && conn.alive && call.hadTimeout ==> conn.timeoutSet)
  }

  ghost predicate CallSound(conns: map<nat, Conn>, i: nat, call: Call) {
    HasConn(call.pc) ==>
      call.pc.conn in conns && conns[call.pc.conn].owner == ByCall(i) && PcSound(call, conns[call.pc.conn])
  }

  ghost predicate HeldSound(conns: map<nat, Conn>, token: Token, h: Held) {
    && h.conn in conns && conns[h.conn].owner == ByToken(token)
    && (conns[h.conn].alive ==> h.key in conns[h.conn].locks && (h.hadTimeout ==> conns[h.conn].timeoutSet))
    && (!conns[h.conn].spoiled ==> Holds(conns[h.conn], h.key) && TimeoutOwed(conns[h.conn], h.hadTimeout))
  }

  /** Every connection is in exactly one place: pooled (and clean, unless spoiled), with one call, or
      under one token. */
  ghost predicate Placed(s: State, c: nat, conn: Conn) {
    match conn.owner
    case Pool => !conn.spoiled ==> Clean(conn)
    case ByCall(i) => i in s.calls && HasConn(s.calls[i].pc) && s.calls[i].pc.conn == c
    case ByToken(t) => t in s.held && s.held[t].conn == c
  }

  ghost predicate CallsSound(s: State) {
    forall i :: i in s.calls ==> CallSound(s.conns, i, s.calls[i])
  }

  ghost predicate LeasesSound(s: State) {
    forall t :: t in s.held ==> t in s.issued && HeldSound(s.conns, t, s.held[t])
  }

  ghost predicate AllPlaced(s: State) {
    forall c :: c in s.conns ==> Placed(s, c, s.conns[c])
  }

  /** A dead session holds nothing, and no advisory key is held by two sessions. */
  ghost predicate Exclusive(conns: map<nat, Conn>) {
    && (forall c :: c in conns && !conns[c].alive ==> Clean(conns[c]))
    && (forall c, d, k :: c in conns && d in conns && c != d && k in conns[c].locks ==> k !in conns[d].locks)
  }

  ghost predicate Inv(s: State) {
    CallsSound(s) && LeasesSound(s) && AllPlaced(s) && Exclusive(s.conns)
  }
}
