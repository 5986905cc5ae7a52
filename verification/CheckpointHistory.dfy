/** `history`: pages of a wallet's checkpoints, newest first, each continuing before the last one seen. */
module CheckpointHistory {
  import opened Chunking
  import opened CheckpointProtocol
  import opened CheckpointSafety
  import opened CheckpointTheorems

  predicate Below(x: nat, before: Option<nat>) { before.None? || x < before.value }

  predicate Descending(page: seq<nat>) { forall i, j :: 0 <= i < j < |page| ==> page[i] > page[j] }

  /** WHERE seq < before ORDER BY seq DESC LIMIT limit: descending, within bounds, and anything left
      out is older than everything returned, and left out only because the page is full. */
  ghost predicate IsPage(seqs: set<nat>, before: Option<nat>, limit: nat, page: seq<nat>) {
    && |page| <= limit && Descending(page)
    && (forall i :: 0 <= i < |page| ==> page[i] in seqs && Below(page[i], before))
    && (forall x :: x in seqs && Below(x, before) && x !in page ==> |page| == limit && forall i :: 0 <= i < |page| ==> x < page[i])
  }

  /** Each page starts before the last entry of the one before it; only the last page may be short,
      and it is. */
  ghost predicate IsPaging(seqs: set<nat>, before: Option<nat>, limit: nat, pages: seq<seq<nat>>)
    requires limit > 0
    decreases |pages|
  {
    && |pages| > 0 && IsPage(seqs, before, limit, pages[0])
    && if |pages| == 1 then |pages[0]| < limit
       else |pages[0]| == limit && IsPaging(seqs, Some(pages[0][limit - 1]), limit, pages[1..])
  }

  /** Together the pages list every checkpoint below the start exactly once, newest first. */
  lemma {:induction false} PagesPartition(seqs: set<nat>, before: Option<nat>, limit: nat, pages: seq<seq<nat>>)
    requires limit > 0 && IsPaging(seqs, before, limit, pages)
    ensures Descending(Flatten(pages))
    ensures forall x :: x in Flatten(pages) <==> x in seqs && Below(x, before)
    decreases |pages|
  {
    var first, rest := pages[0], Flatten(pages[1..]);
    if |pages| == 1 {
      assert pages[1..] == [] && Flatten(pages) == first;
      OnePage(seqs, before, limit, first);
    } else {
      PagesPartition(seqs, Some(first[limit - 1]), limit, pages[1..]);
      JoinPages(seqs, before, limit, first, rest);
    }
  }

  lemma OnePage(seqs: set<nat>, before: Option<nat>, limit: nat, page: seq<nat>)
    requires IsPage(seqs, before, limit, page) && |page| < limit
    ensures forall x :: x in page <==> x in seqs && Below(x, before)
  {
  }

  lemma JoinPages(seqs: set<nat>, before: Option<nat>, limit: nat, first: seq<nat>, rest: seq<nat>)
    requires limit > 0 && |first| == limit && IsPage(seqs, before, limit, first) && Descending(rest)
    requires forall x :: x in rest <==> x in seqs && Below(x, Some(first[limit - 1]))
    ensures Descending(first + rest)
    ensures forall x :: x in first + rest <==> x in seqs && Below(x, before)
  {
    var all := first + rest;
    forall i, j | 0 <= i < j < |all| ensures all[i] > all[j] {
      if i < limit <= j {
        assert all[j] in rest;
        assert first[i] >= first[limit - 1];
      }
    }
    forall x | x in seqs && Below(x, before) ensures x in all {
      if x !in first { assert x < first[limit - 1]; }
    }
    forall x | x in all ensures x in seqs && Below(x, before) {
      if x in rest { assert x < first[limit - 1] && Below(first[limit - 1], before); }
    }
  }

  /** A descending list that is closed upwards to n counts down from n. */
  lemma {:induction false} CountsDown(list: seq<nat>, n: nat, i: nat)
    requires Descending(list) && i < |list| && forall x :: x in list ==> x <= n
    requires forall x, y: nat :: x in list && x <= y <= n ==> y in list
    ensures i <= n && list[i] == n - i
  {
    if i == 0 {
      assert list[0] in list && n in list;
      var j :| 0 <= j < |list| && list[j] == n;
    } else {
      CountsDown(list, n, i - 1);
      assert list[i] in list && list[i] < list[i - 1];
      var y: nat := n - i;
      assert y in list;
      var j :| 0 <= j < |list| && list[j] == y;
    }
  }

  /** In every durable state of every run, paging through a wallet's history lists its newest
      sequence number and then each one below it, down to the oldest that is stored. */
  lemma HistoryCountsDown(sha: Sha, run: seq<State>, s: nat, k: nat, w: Wallet, limit: nat, pages: seq<seq<nat>>, i: nat)
    requires IsRun(sha, run) && s < |run| && k < |run[s].wal|
    requires limit > 0 && IsPaging(SeqsOf(run[s].wal[k], w), None, limit, pages) && i < |Flatten(pages)|
    ensures i <= Count(run[s].wal[k].log, w) && Flatten(pages)[i] == Count(run[s].wal[k].log, w) - i
    ensures forall x :: x in Flatten(pages) <==> x in SeqsOf(run[s].wal[k], w)
  {
    RunKeepsInv(sha, run, s);
    var db := run[s].wal[k];
    assert DbSound(sha, db);
    PagesPartition(SeqsOf(db, w), None, limit, pages);
    ListCountsDown(sha, db, w, Flatten(pages), i);
  }

  lemma ListCountsDown(sha: Sha, db: Db, w: Wallet, list: seq<nat>, i: nat)
    requires DbSound(sha, db) && Descending(list) && i < |list| && forall x :: x in list <==> x in SeqsOf(db, w)
    ensures i <= Count(db.log, w) && list[i] == Count(db.log, w) - i
  {
    forall x | x in list ensures x <= Count(db.log, w) { StoredIsSuffix(sha, db, w, x); }
    forall x, y: nat | x in list && x <= y <= Count(db.log, w) ensures y in list { StoredIsSuffix(sha, db, w, x); }
    CountsDown(list, Count(db.log, w), i);
  }
}
