/**
 * `writeRows` statement by statement, run by itself on the table: the same merge, upsert and
 * clear as in the interleaved protocol, proved against the replay of the events it logs.
 */
module HistoryTable {
  import opened Chunking
  import opened HistoryCodec
  import opened TxHistory
  import opened TxHistorySafety

  /** The rows the clearing DELETE removes. */
  function Victims(m: Table, cause: Key): set<Key>
    requires cause in m
  {
    set k | k in m && Superseded(k, m[k].lifecycle, m[k].identifiers, cause, m[cause].identifiers)
  }

  /** One write, as a function on the entries it stands for. */
  function Written(env: Env, m: Table, key: Key, entry: Entry): Option<Table> {
    match Result(env, Lookup(m, key), entry)
    case None => None
    case Some(result) =>
      var merged := m[key := result];
      Some(if Settles(result.lifecycle, result.identifiers) then merged - Victims(merged, key) else merged)
  }

  /** What the merge makes of an entry, if the write is accepted at all: first write verbatim, later ones
      as the merge function says. */
  predicate Makes(env: Env, m: Table, key: Key, entry: Entry, r: Entry) {
    if key in m then env.merge(m[key], entry) == Some(r) && r.hash == entry.hash && ValidEntry(r) else r == entry
  }

  /** Another row goes exactly if the written entry r is finalized or rejected with identifiers, and the
      row is a pending one of the same wallet with identifiers, all of them among r's. */
  predicate MustGo(k: Key, gone: Entry, key: Key, r: Entry) {
    && (r.lifecycle == Finalized || r.lifecycle == Rejected) && r.identifiers != []
    && k.wallet == key.wallet && k.hash != key.hash && gone.lifecycle == Pending && gone.identifiers != []
    && forall id :: id in gone.identifiers ==> id in r.identifiers
  }

  lemma WrittenMeans(env: Env, m: Table, key: Key, entry: Entry)
    requires entry.hash == key.hash
    ensures Written(env, m, key, entry).Some? <==> key !in m || exists r :: Makes(env, m, key, entry, r)
    ensures forall r :: Makes(env, m, key, entry, r) ==> WrittenAs(m, Written(env, m, key, entry), key, r)
  {
    if key in m && Written(env, m, key, entry).Some? {
      assert Makes(env, m, key, entry, env.merge(m[key], entry).value);
    }
    forall r | Makes(env, m, key, entry, r) ensures WrittenAs(m, Written(env, m, key, entry), key, r) {
      assert Result(env, Lookup(m, key), entry) == Some(r);
      forall k | k != key
        ensures Lookup(Written(env, m, key, entry).value, k) == if k in m && MustGo(k, m[k], key, r) then None else Lookup(m, k)
      {
        if k in m { SupersededMeans(k, m[k], key, r); }
      }
    }
  }

  predicate SupersededBy(k: Key, gone: Entry, key: Key, r: Entry) {
    Superseded(k, gone.lifecycle, gone.identifiers, key, r.identifiers)
  }

  lemma SupersededMeans(k: Key, gone: Entry, key: Key, r: Entry)
    ensures Settles(r.lifecycle, r.identifiers) && SupersededBy(k, gone, key, r) <==> MustGo(k, gone, key, r)
  {
    ElementsMean(gone.identifiers, r.identifiers);
  }

  /** The key holds r, and of the others exactly those that must go are gone. */
  ghost predicate WrittenAs(m: Table, after: Option<Table>, key: Key, r: Entry) {
    && after.Some? && key in after.value && after.value[key] == r
    && forall k :: k != key ==> Lookup(after.value, k) == if k in m && MustGo(k, m[k], key, r) then None else Lookup(m, k)
  }

  class PgTable {
    var rows: map<Key, Row>

    constructor ()
      ensures rows == map[]
    {
      rows := map[];
    }

    /** A failed merge leaves the table as it was. Otherwise the row of the hash holds the result, with its
        own identifiers and lifecycle in their columns, exactly the rows that must go are gone, and no
        other row changes. */
    method WriteRows(env: Env, wallet: string, entry: Entry, ghost m: Table) returns (ok: bool)
      requires DatesParse(env.iso, env.parse) && Sound(m) && Represents(env, rows, m) && ValidEntry(entry)
      modifies this
      ensures ok == Written(env, m, Key(wallet, entry.hash), entry).Some?
      ensures ok <==> Key(wallet, entry.hash) !in m || exists r :: Makes(env, m, Key(wallet, entry.hash), entry, r)
      ensures !ok ==> rows == old(rows)
      ensures forall r :: Makes(env, m, Key(wallet, entry.hash), entry, r) ==> RowsAre(env, m, old(rows), rows, Key(wallet, entry.hash), r)
      ensures ok ==> Represents(env, rows, Written(env, m, Key(wallet, entry.hash), entry).value)
    {
      var key := Key(wallet, entry.hash);
      WrittenMeans(env, m, key, entry);
      assert RowAt(rows, key) == StoredAt(env, m, key);
      var result := entry;
      if key in rows {
        EntryRoundTrip(env.iso, env.parse, m[key]);
        var existing := ReadRow(env, key, rows[key]);
        var merged := Accept(env, existing.value, entry);
        if merged.None? { return false; }
        result := merged.value;
      }
      rows := rows[key := RowOf(env, result)];
      assert Represents(env, rows, m[key := result]) by {
        forall k ensures RowAt(rows, k) == StoredAt(env, m[key := result], k) {
          assert RowAt(old(rows), k) == StoredAt(env, m, k);
        }
      }
      if Settles(result.lifecycle, result.identifiers) {
        ghost var before := rows;
        rows := map k | k in rows && !Superseded(k, rows[k].lifecycle, rows[k].identifiers, key, result.identifiers) :: rows[k];
        DeletedRows(env, before, m[key := result], key, result, rows);
      }
      RowsFollow(env, m, old(rows), rows, key, entry);
      return true;
    }
  }

  /** The same on the rows themselves, columns included. */
  ghost predicate RowsAre(env: Env, m: Table, before: map<Key, Row>, after: map<Key, Row>, key: Key, r: Entry) {
    && key in after && after[key] == Row(EncodeEntry(env.iso, r), r.identifiers, r.lifecycle)
    && forall k :: k != key ==> RowAt(after, k) == if k in m && MustGo(k, m[k], key, r) then None else RowAt(before, k)
  }

  lemma RowsFollow(env: Env, m: Table, before: map<Key, Row>, after: map<Key, Row>, key: Key, entry: Entry)
    requires entry.hash == key.hash && Represents(env, before, m)
    requires Written(env, m, key, entry).Some? && Represents(env, after, Written(env, m, key, entry).value)
    ensures forall r :: Makes(env, m, key, entry, r) ==> RowsAre(env, m, before, after, key, r)
  {
    WrittenMeans(env, m, key, entry);
    var w := Written(env, m, key, entry).value;
    forall r | Makes(env, m, key, entry, r) ensures RowsAre(env, m, before, after, key, r) {
      assert WrittenAs(m, Some(w), key, r);
      assert RowAt(after, key) == StoredAt(env, w, key);
      forall k | k != key ensures RowAt(after, k) == if k in m && MustGo(k, m[k], key, r) then None else RowAt(before, k) {
        assert RowAt(after, k) == StoredAt(env, w, k) && RowAt(before, k) == StoredAt(env, m, k);
        assert Lookup(w, k) == if k in m && MustGo(k, m[k], key, r) then None else Lookup(m, k);
      }
    }
  }

  lemma DeletedRows(env: Env, before: map<Key, Row>, m: Table, key: Key, result: Entry, after: map<Key, Row>)
    requires Represents(env, before, m) && key in m && m[key] == result
    requires after == map k | k in before && !Superseded(k, before[k].lifecycle, before[k].identifiers, key, result.identifiers) :: before[k]
    ensures Represents(env, after, m - Victims(m, key))
  {
    forall k ensures RowAt(after, k) == StoredAt(env, m - Victims(m, key), k) {
      assert RowAt(before, k) == StoredAt(env, m, k);
    }
  }

  // ----- one write is a legal stretch of the log ----------------------------------------------------

  predicate ClearsOnly(events: seq<Event>, cause: Key) {
    forall i :: 0 <= i < |events| ==> events[i].Cleared? && events[i].cause == cause
  }

  /** Any order of clearing the victims is legal and removes exactly them. */
  lemma {:induction false} ClearsReplay(env: Env, m: Table, cause: Key, victims: set<Key>) returns (events: seq<Event>)
    requires cause in m && Settles(m[cause].lifecycle, m[cause].identifiers) && victims <= Victims(m, cause)
    ensures ClearsOnly(events, cause) && Legal(env, m, events) && Replay(env, m, events) == m - victims
    decreases |victims|
  {
    if victims == {} {
      events := [];
      assert m - victims == m;
    } else {
      var k :| k in victims;
      var front := ClearsReplay(env, m, cause, victims - {k});
      LegalExtends(env, m, front, Cleared(k, cause));
      events := front + [Cleared(k, cause)];
      assert m - (victims - {k}) - {k} == m - victims;
    }
  }

  /** A write alone logs its event, then the clears it causes, and that log replays to its result. */
  lemma WrittenIsReplay(env: Env, m: Table, key: Key, entry: Entry) returns (clears: seq<Event>)
    requires entry.hash == key.hash && ValidEntry(entry) && Written(env, m, key, entry).Some?
    ensures ClearsOnly(clears, key) && Legal(env, m, [Wrote(key, entry)] + clears)
    ensures Replay(env, m, [Wrote(key, entry)] + clears) == Written(env, m, key, entry).value
  {
    var write := [Wrote(key, entry)];
    LegalExtends(env, m, [], Wrote(key, entry));
    assert [] + write == write;
    var merged := Replay(env, m, write);
    if Settles(merged[key].lifecycle, merged[key].identifiers) {
      clears := ClearsReplay(env, merged, key, Victims(merged, key));
      LegalAppends(env, m, write, clears);
      ReplayAppends(env, m, write, clears);
    } else {
      clears := [];
      assert write + clears == write;
    }
  }
}
