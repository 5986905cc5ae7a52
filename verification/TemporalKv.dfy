/**
 * `PgTemporalKV`: one current row per key, a history table filled by the BEFORE UPDATE trigger,
 * three compare-and-swap modes, and two ways to address the past.
 *
 * The rows of one key are modelled with the DDL's own checks. The clock is any integer at every
 * write (milliseconds; it may stand still or run backwards), and is an input of the write.
 */
module TemporalKv {
  import opened Chunking

  type Key = string
  type Json = string

  datatype Current = Current(value: Json, version: nat, updatedAt: int, xact: nat)
  datatype Past = Past(value: Json, version: nat, validFrom: int, validTo: int)

  /** kv_current and kv_history restricted to one (ns, scope, key). */
  datatype Rows = Rows(current: Option<Current>, history: seq<Past>)

  datatype Mode = Always | Create | Expect(version: nat)
  datatype Fault = WriteTwice | ClockRegression | Overlap
  datatype Entry = Entry(value: Json, version: nat, writtenAt: int)
  datatype PutResult = Written(entry: Entry) | Conflict(actual: Option<nat>) | Failed(fault: Fault)

  const ABSENT: Rows := Rows(None, [])

  predicate Overlaps(a: Past, from: int, to: int) {
    a.validFrom < to && from < a.validTo
  }

  // ----- statements ---------------------------------------------------------------------------

  /** UPDATE with its trigger: one write per transaction, close the old interval, stamp the new. */
  function Update(rows: Rows, value: Json, now: int, xact: nat): (Rows, PutResult)
    requires rows.current.Some?
  {
    var was := rows.current.value;
    if was.xact == xact then (rows, Failed(WriteTwice))
    else if was.updatedAt >= now then (rows, Failed(ClockRegression))
    else if exists i :: 0 <= i < |rows.history| && Overlaps(rows.history[i], was.updatedAt, now) then (rows, Failed(Overlap))
    else (Rows(Some(Current(value, was.version + 1, now, xact)),
               rows.history + [Past(was.value, was.version, was.updatedAt, now)]),
          Written(Entry(value, was.version + 1, now)))
  }

  function Insert(rows: Rows, value: Json, now: int, xact: nat): (Rows, PutResult) {
    (rows.(current := Some(Current(value, 1, now, xact))), Written(Entry(value, 1, now)))
  }

  function Put(rows: Rows, value: Json, mode: Mode, now: int, xact: nat): (Rows, PutResult) {
    match mode
    case Always => if rows.current.None? then Insert(rows, value, now, xact) else Update(rows, value, now, xact)
    case Create =>
      if rows.current.None? then Insert(rows, value, now, xact)
      else (rows, Conflict(Some(rows.current.value.version)))
    case Expect(v) =>
      if rows.current.Some? && rows.current.value.version == v then Update(rows, value, now, xact)
      else (rows, Conflict(if rows.current.None? then None else Some(rows.current.value.version)))
  }

  // ----- the simple store it must agree with: an append-only log --------------------------------

  datatype Write = Write(value: Json, at: int)

  function Writes(rows: Rows): (log: seq<Write>)
    ensures |log| == |rows.history| + if rows.current.Some? then 1 else 0
    ensures forall i :: 0 <= i < |rows.history| ==> log[i] == Write(rows.history[i].value, rows.history[i].validFrom)
    ensures rows.current.Some? ==> log[|rows.history|] == Write(rows.current.value.value, rows.current.value.updatedAt)
  {
    seq(|rows.history|, i requires 0 <= i < |rows.history| => Write(rows.history[i].value, rows.history[i].validFrom))
    + if rows.current.Some? then [Write(rows.current.value.value, rows.current.value.updatedAt)] else []
  }

  /** Versions are 1..n and the intervals tile [t1, infinity) without gap or overlap. */
  ghost predicate Sound(rows: Rows) {
    && (rows.current.None? ==> rows.history == [])
    && (rows.current.Some? ==> rows.current.value.version == |rows.history| + 1)
    && (forall i :: 0 <= i < |rows.history| ==> Tiles(rows, i))
  }

  /** History row i holds version i + 1 and ends where the next version starts. */
  predicate Tiles(rows: Rows, i: nat)
    requires i < |rows.history| && rows.current.Some?
  {
    && rows.history[i].version == i + 1 && rows.history[i].validFrom < rows.history[i].validTo
    && rows.history[i].validTo == Start(rows, i + 1)
  }

  /** When version i + 1 was written. */
  function Start(rows: Rows, i: nat): int
    requires i < |rows.history| || rows.current.Some?
  {
    if i < |rows.history| then rows.history[i].validFrom else rows.current.value.updatedAt
  }

  lemma {:induction false} StartsIncrease(rows: Rows, i: nat, j: nat)
    requires Sound(rows) && rows.current.Some? && i <= j <= |rows.history|
    ensures if i < j then Start(rows, i) < Start(rows, j) else Start(rows, i) == Start(rows, j)
    decreases j
  {
    if i < j {
      StartsIncrease(rows, i, j - 1);
      assert Tiles(rows, j - 1);
    }
  }

  lemma WritesIncrease(rows: Rows, i: nat, j: nat)
    requires Sound(rows) && i < j < |Writes(rows)|
    ensures Writes(rows)[i].at < Writes(rows)[j].at
  {
    StartsIncrease(rows, i, j);
  }

  predicate Admits(rows: Rows, mode: Mode) {
    match mode
    case Always => true
    case Create => rows.current.None?
    case Expect(v) => rows.current.Some? && rows.current.value.version == v
  }

  /** For an existing key: the clock has moved on, and this transaction has not written it yet. */
  predicate Fresh(rows: Rows, now: int, xact: nat) {
    rows.current.Some? ==> rows.current.value.updatedAt < now && rows.current.value.xact != xact
  }

  predicate WroteBefore(rows: Rows, xact: nat) { rows.current.Some? && rows.current.value.xact == xact }

  /**
   * One put is one append, or nothing at all. It is written exactly when the mode admits the
   * current version and, for an existing key, the clock has moved and this transaction has not
   * written the key before; every other outcome leaves the rows as they were. A conflict reports the
   * version the key really has, or none if it was never written; a refusal says which of the two
   * reasons it has, and the exclusion constraint is never one.
   */
  lemma PutAppends(rows: Rows, value: Json, mode: Mode, now: int, xact: nat)
    requires Sound(rows)
    ensures var (rows', result) := Put(rows, value, mode, now, xact);
      && Sound(rows')
      && (result.Written? <==> Admits(rows, mode) && Fresh(rows, now, xact))
      && (result.Written? ==>
           && Writes(rows') == Writes(rows) + [Write(value, now)]
           && result.entry == Entry(value, |Writes(rows')|, now)
           && rows'.current.value.xact == xact)
      && (result.Conflict? <==> !Admits(rows, mode))
      && (result.Conflict? ==> result.actual == if rows.current.None? then None else Some(|Writes(rows)|))
      && (result == Failed(WriteTwice) <==> Admits(rows, mode) && WroteBefore(rows, xact))
      && (result == Failed(ClockRegression) <==>
           Admits(rows, mode) && !WroteBefore(rows, xact) && rows.current.Some? && now <= rows.current.value.updatedAt)
      && (!result.Written? ==> rows' == rows)
      && result != Failed(Overlap)
  {
    if Admits(rows, mode) && rows.current.Some? {
      UpdateAppends(rows, value, now, xact);
    } else if Admits(rows, mode) {
      assert Insert(rows, value, now, xact).0.history == [];
    }
  }

  lemma UpdateAppends(rows: Rows, value: Json, now: int, xact: nat)
    requires Sound(rows) && rows.current.Some?
    ensures var (rows', result) := Update(rows, value, now, xact);
      && Sound(rows') && result != Failed(Overlap) && !result.Conflict?
      && (result.Written? <==> Fresh(rows, now, xact))
      && (result == Failed(WriteTwice) <==> WroteBefore(rows, xact))
      && (result == Failed(ClockRegression) <==> !WroteBefore(rows, xact) && now <= rows.current.value.updatedAt)
      && (result.Written? ==>
           && Writes(rows') == Writes(rows) + [Write(value, now)]
           && result.entry == Entry(value, |Writes(rows')|, now) && rows'.current.value.xact == xact)
      && (!result.Written? ==> rows' == rows)
  {
    NeverOverlaps(rows, now);
    var was := rows.current.value;
    if Fresh(rows, now, xact) {
      ClosedSound(rows, Current(value, was.version + 1, now, xact));
    }
  }

  lemma NeverOverlaps(rows: Rows, now: int)
    requires Sound(rows) && rows.current.Some?
    ensures forall i :: 0 <= i < |rows.history| ==> !Overlaps(rows.history[i], rows.current.value.updatedAt, now)
  {
    forall i | 0 <= i < |rows.history| ensures rows.history[i].validTo <= rows.current.value.updatedAt {
      assert Tiles(rows, i);
      StartsIncrease(rows, i + 1, |rows.history|);
    }
  }

  /** Closing the current interval and opening the next keeps the tiling and appends one write. */
  lemma ClosedSound(rows: Rows, next: Current)
    requires Sound(rows) && rows.current.Some?
    requires next.version == rows.current.value.version + 1 && rows.current.value.updatedAt < next.updatedAt
    ensures var was := rows.current.value;
      var rows' := Rows(Some(next), rows.history + [Past(was.value, was.version, was.updatedAt, next.updatedAt)]);
      Sound(rows') && Writes(rows') == Writes(rows) + [Write(next.value, next.updatedAt)]
  {
    var was := rows.current.value;
    var rows' := Rows(Some(next), rows.history + [Past(was.value, was.version, was.updatedAt, next.updatedAt)]);
    forall i | 0 <= i < |rows'.history| ensures Tiles(rows', i) {
      if i < |rows.history| { assert Tiles(rows, i) && Start(rows', i + 1) == Start(rows, i + 1); }
    }
    assert Writes(rows') == Writes(rows) + [Write(next.value, next.updatedAt)];
  }

  // ----- addressing the past ----------------------------------------------------------------------

  function ToEntry(p: Past): Entry { Entry(p.value, p.version, p.validFrom) }
  function CurrentEntry(c: Current): Entry { Entry(c.value, c.version, c.updatedAt) }

  datatype AsOf = Version(version: nat) | At(instant: int)

  /** The WHERE clause of the history arm and of the current arm of the UNION. */
  predicate HistoryMatches(p: Past, asOf: AsOf) {
    match asOf
    case Version(v) => p.version == v
    case At(t) => p.validFrom <= t < p.validTo
  }

  predicate CurrentMatches(c: Current, asOf: AsOf) {
    match asOf
    case Version(v) => c.version == v
    case At(t) => c.updatedAt <= t
  }

  /** UNION ALL, ORDER BY priority, LIMIT 1: some matching history row, else the current row. */
  ghost predicate GetAt(rows: Rows, asOf: AsOf, answer: Option<Entry>) {
    if exists i :: 0 <= i < |rows.history| && HistoryMatches(rows.history[i], asOf) then
      exists i :: 0 <= i < |rows.history| && HistoryMatches(rows.history[i], asOf) && answer == Some(ToEntry(rows.history[i]))
    else if rows.current.Some? && CurrentMatches(rows.current.value, asOf) then answer == Some(CurrentEntry(rows.current.value))
    else answer == None
  }

  /** What the log says: the last write not after the instant, or the v-th write. */
  function LogAt(log: seq<Write>, asOf: AsOf): Option<Entry> {
    match asOf
    case Version(v) => if 1 <= v <= |log| then Some(Entry(log[v - 1].value, v, log[v - 1].at)) else None
    case At(t) => LastNotAfter(log, t)
  }

  function LastNotAfter(log: seq<Write>, t: int): Option<Entry> {
    if log == [] then None
    else if log[|log| - 1].at <= t then Some(Entry(log[|log| - 1].value, |log|, log[|log| - 1].at))
    else LastNotAfter(log[..|log| - 1], t)
  }

  lemma {:induction false} LastNotAfterIs(log: seq<Write>, t: int, k: nat)
    requires k <= |log|
    requires forall i :: k <= i < |log| ==> log[i].at > t
    requires k > 0 ==> log[k - 1].at <= t
    ensures LastNotAfter(log, t) == if k == 0 then None else Some(Entry(log[k - 1].value, k, log[k - 1].at))
    decreases |log|
  {
    if k < |log| { LastNotAfterIs(log[..|log| - 1], t, k); }
  }

  lemma MatchIsLogEntry(rows: Rows, i: nat, asOf: AsOf)
    requires Sound(rows) && i < |rows.history| && HistoryMatches(rows.history[i], asOf)
    ensures LogAt(Writes(rows), asOf) == Some(ToEntry(rows.history[i]))
    ensures rows.current.Some? && !CurrentMatches(rows.current.value, asOf)
  {
    var log := Writes(rows);
    assert Tiles(rows, i);
    if asOf.At? {
      StartsIncrease(rows, i + 1, |rows.history|);
      forall j | i + 1 <= j < |log| ensures log[j].at > asOf.instant { if j > i + 1 { WritesIncrease(rows, i + 1, j); } }
      LastNotAfterIs(log, asOf.instant, i + 1);
    }
  }

  lemma NoHistoryMatch(rows: Rows, asOf: AsOf)
    requires Sound(rows) && forall i :: 0 <= i < |rows.history| ==> !HistoryMatches(rows.history[i], asOf)
    ensures LogAt(Writes(rows), asOf) ==
      if rows.current.Some? && CurrentMatches(rows.current.value, asOf) then Some(CurrentEntry(rows.current.value)) else None
  {
    var log := Writes(rows);
    if asOf.At? {
      if rows.current.Some? && !CurrentMatches(rows.current.value, asOf) {
        forall j | 0 <= j < |log| ensures log[j].at > asOf.instant { NoWriteBefore(rows, asOf.instant, j); }
        LastNotAfterIs(log, asOf.instant, 0);
      }
    } else if rows.current.Some? && 1 <= asOf.version <= |rows.history| {
      assert Tiles(rows, asOf.version - 1) && HistoryMatches(rows.history[asOf.version - 1], asOf);
    }
  }

  lemma {:induction false} NoWriteBefore(rows: Rows, t: int, j: nat)
    requires Sound(rows) && rows.current.Some? && rows.current.value.updatedAt > t && j <= |rows.history|
    requires forall i :: 0 <= i < |rows.history| ==> !HistoryMatches(rows.history[i], At(t))
    ensures Start(rows, j) > t
    decreases |rows.history| - j
  {
    if j < |rows.history| {
      NoWriteBefore(rows, t, j + 1);
      assert Tiles(rows, j);
      assert !HistoryMatches(rows.history[j], At(t));
    }
  }

  /** Both arms together match at most one row, and that row is what the log holds. */
  lemma GetAtIsLogAt(rows: Rows, asOf: AsOf, answer: Option<Entry>)
    requires Sound(rows)
    ensures GetAt(rows, asOf, answer) <==> answer == LogAt(Writes(rows), asOf)
    ensures forall i, j :: 0 <= i < j < |rows.history| ==>
      !HistoryMatches(rows.history[i], asOf) || !HistoryMatches(rows.history[j], asOf)
    ensures forall i :: 0 <= i < |rows.history| && HistoryMatches(rows.history[i], asOf) ==>
      rows.current.Some? && !CurrentMatches(rows.current.value, asOf)
  {
    forall i | 0 <= i < |rows.history| && HistoryMatches(rows.history[i], asOf)
      ensures LogAt(Writes(rows), asOf) == Some(ToEntry(rows.history[i]))
      ensures rows.current.Some? && !CurrentMatches(rows.current.value, asOf)
    {
      MatchIsLogEntry(rows, i, asOf);
    }
    forall i, j | 0 <= i < j < |rows.history|
      ensures !HistoryMatches(rows.history[i], asOf) || !HistoryMatches(rows.history[j], asOf)
    {
      assert Tiles(rows, i) && Tiles(rows, j);
    }
    if forall i :: 0 <= i < |rows.history| ==> !HistoryMatches(rows.history[i], asOf) {
      NoHistoryMatch(rows, asOf);
    }
  }

  /** Dual addressing: the entry found by time is the entry found by its own version, it is a write
      not after the instant, and every later write is after it. */
  lemma DualAddressing(rows: Rows, t: int, e: Entry)
    requires Sound(rows) && GetAt(rows, At(t), Some(e))
    ensures GetAt(rows, Version(e.version), Some(e))
    ensures e.writtenAt <= t && 1 <= e.version <= |Writes(rows)|
    ensures forall v :: e.version <= v < |Writes(rows)| ==> Writes(rows)[v].at > t
  {
    GetAtIsLogAt(rows, At(t), Some(e));
    LastNotAfterSplits(Writes(rows), t);
    GetAtIsLogAt(rows, Version(e.version), Some(e));
    forall v | e.version <= v < |Writes(rows)| ensures Writes(rows)[v].at > t {
      if e.version < v { WritesIncrease(rows, e.version, v); }
    }
  }

  lemma {:induction false} LastNotAfterSplits(log: seq<Write>, t: int)
    ensures match LastNotAfter(log, t)
      case None => true
      case Some(e) =>
        && 1 <= e.version <= |log| && e == Entry(log[e.version - 1].value, e.version, log[e.version - 1].at)
        && e.writtenAt <= t && (e.version < |log| ==> log[e.version].at > t)
  {
    if log != [] { LastNotAfterSplits(log[..|log| - 1], t); }
  }
}
