/**
 * Runs that exist: how far a call gets while no other transaction is open, what a restart adds to a
 * height that was already archived, and how an observation is lost by two live instances that take
 * turns, or by one live instance whose `syncOnce` calls overlap.
 */
module ChainSyncRuns {
  import opened Chunking
  import opened ChainSync
  import opened ChainSyncSafety
  import opened ChainSyncObservations

  /** What every state of a run keeps to. */
  datatype Discipline = CallsTakeTurns | InstancesTakeTurns | BothTakeTurns

  ghost predicate Obeys(d: Discipline, s: State) {
    (d != InstancesTakeTurns ==> OneCall(s)) && (d != CallsTakeTurns ==> OneInstance(s))
  }

  ghost predicate RunTo(chain: Chain, d: Discipline, run: seq<State>, s: State) {
    IsRun(chain, run) && run[|run| - 1] == s && forall i :: 0 <= i < |run| ==> Obeys(d, run[i])
  }

  ghost predicate Reachable(chain: Chain, d: Discipline, s: State) { exists run :: RunTo(chain, d, run, s) }

  lemma StepReaches(chain: Chain, d: Discipline, s: State, step: Step, s': State)
    requires Reachable(chain, d, s) && NextBy(chain, s, step, s') && Obeys(d, s')
    ensures Reachable(chain, d, s')
  {
    var run :| RunTo(chain, d, run, s);
    var longer := run + [s'];
    forall i | 0 <= i < |longer| - 1 ensures StepAt(chain, longer, i) {
      if i < |run| - 1 {
        assert StepAt(chain, run, i);
      } else {
        assert longer[i] == s && longer[i + 1] == s';
      }
    }
    assert RunTo(chain, d, longer, s');
  }

  /** A step that neither starts nor ends a call or an instance. */
  lemma WorkReaches(chain: Chain, d: Discipline, s: State, step: Step, s': State)
    requires Reachable(chain, d, s) && NextBy(chain, s, step, s') && s'.calls.Keys == s.calls.Keys && s'.last.Keys == s.last.Keys
    ensures Reachable(chain, d, s')
  {
    var run :| RunTo(chain, d, run, s);
    assert Obeys(d, run[|run| - 1]);
    StepReaches(chain, d, s, step, s');
  }

  function OverlayAfter(rows: Rows, puts: seq<Put>): Rows {
    if puts == [] then map[]
    else
      var before, p := OverlayAfter(rows, puts[..|puts| - 1]), puts[|puts| - 1];
      if Conflicts(rows + before, p) then before else before + Entries(p)
  }

  lemma {:induction false} OverlayIsInsertAll(rows: Rows, puts: seq<Put>)
    ensures rows + OverlayAfter(rows, puts) == InsertAll(rows, puts)
    decreases |puts|
  {
    if puts != [] { OverlayIsInsertAll(rows, puts[..|puts| - 1]); }
  }

  /** Call c of instance i is at the loop head for height h; no other call has writes in flight. */
  ghost predicate AtHead(s: State, c: nat, i: nat, h: nat, end: int) {
    && c in s.calls && s.calls[c] == Call(i, Loop(h, end), map[]) && i in s.last && h <= end
    && forall other :: other in s.calls && other != c ==> s.calls[other].overlay == map[]
  }

  function WithCall(s: State, c: nat, call: Call): State { s.(calls := s.calls[c := call]) }

  function WritingState(chain: Chain, s: State, c: nat, i: nat, h: nat, end: int, n: nat): State
    requires i in s.last && n <= |Bundle(chain, h, LooksNew(chain, s.last[i], h))|
  {
    var obs := LooksNew(chain, s.last[i], h);
    WithCall(s, c, Call(i, Writing(h, end, obs, n), OverlayAfter(s.rows, Bundle(chain, h, obs)[..n])))
  }

  lemma {:induction false} InsertsReach(chain: Chain, d: Discipline, s: State, c: nat, i: nat, h: nat, end: int, n: nat)
    requires Reachable(chain, d, s) && AtHead(s, c, i, h, end) && Builds(chain, h)
    requires n <= |Bundle(chain, h, LooksNew(chain, s.last[i], h))|
    ensures Reachable(chain, d, WritingState(chain, s, c, i, h, end, n))
    decreases n
  {
    var here := WritingState(chain, s, c, i, h, end, n);
    if n == 0 {
      assert here.calls == s.calls[c := s.calls[c].(pc := Writing(h, end, LooksNew(chain, s.last[i], h), 0))];
      WorkReaches(chain, d, s, Fetch(c), here);
    } else {
      InsertsReach(chain, d, s, c, i, h, end, n - 1);
      InsertIsStep(chain, s, c, i, h, end, n - 1);
      WorkReaches(chain, d, WritingState(chain, s, c, i, h, end, n - 1), InsertRow(c), here);
    }
  }

  lemma InsertIsStep(chain: Chain, s: State, c: nat, i: nat, h: nat, end: int, n: nat)
    requires AtHead(s, c, i, h, end) && n < |Bundle(chain, h, LooksNew(chain, s.last[i], h))|
    ensures NextBy(chain, WritingState(chain, s, c, i, h, end, n), InsertRow(c), WritingState(chain, s, c, i, h, end, n + 1))
  {
    var puts := Bundle(chain, h, LooksNew(chain, s.last[i], h));
    var before, after := WritingState(chain, s, c, i, h, end, n), WritingState(chain, s, c, i, h, end, n + 1);
    assert after.calls == before.calls[c := after.calls[c]];
    LoneInsert(before, c, puts, after);
  }

  lemma LoneInsert(before: State, c: nat, puts: seq<Put>, after: State)
    requires c in before.calls && c in after.calls && after == WithCall(before, c, after.calls[c])
    requires forall other :: other in before.calls && other != c ==> before.calls[other].overlay == map[]
    requires var call := before.calls[c];
      && call.pc.Writing? && call.pc.done < |puts| && call.overlay == OverlayAfter(before.rows, puts[..call.pc.done])
      && after.calls[c] == call.(pc := call.pc.(done := call.pc.done + 1), overlay := OverlayAfter(before.rows, puts[..call.pc.done + 1]))
    ensures InsertEffect(before, c, puts, after)
  {
    OverlayStep(before.rows, before.calls[c], after.calls[c], puts);
  }

  lemma OverlayStep(rows: Rows, before: Call, after: Call, puts: seq<Put>)
    requires before.pc.Writing? && before.pc.done < |puts| && before.overlay == OverlayAfter(rows, puts[..before.pc.done])
    requires after == before.(pc := before.pc.(done := before.pc.done + 1), overlay := OverlayAfter(rows, puts[..before.pc.done + 1]))
    ensures AfterInsert(rows, before, puts[before.pc.done]) == after
  {
    assert puts[..before.pc.done + 1][..before.pc.done] == puts[..before.pc.done];
  }

  function CommittedState(chain: Chain, s: State, c: nat, i: nat, h: nat, end: int): State
    requires i in s.last
  {
    WithCall(s.(rows := Ingest(chain, s.rows, s.last[i], h)), c, Call(i, Committed(h, end, LooksNew(chain, s.last[i], h)), map[]))
  }

  lemma CommitReaches(chain: Chain, d: Discipline, s: State, c: nat, i: nat, h: nat, end: int)
    requires Reachable(chain, d, s) && AtHead(s, c, i, h, end) && Builds(chain, h)
    ensures Reachable(chain, d, CommittedState(chain, s, c, i, h, end))
  {
    var puts := Bundle(chain, h, LooksNew(chain, s.last[i], h));
    InsertsReach(chain, d, s, c, i, h, end, |puts|);
    var before := WritingState(chain, s, c, i, h, end, |puts|);
    assert puts[..|puts|] == puts;
    OverlayIsInsertAll(s.rows, puts);
    var after := CommittedState(chain, s, c, i, h, end);
    assert after.calls == before.calls[c := after.calls[c]];
    WorkReaches(chain, d, before, Commit(c), after);
  }

  /** The height is ingested and marked, and the call is back at the loop head. */
  function IngestedState(chain: Chain, s: State, c: nat, i: nat, h: nat, end: int): State
    requires i in s.last
  {
    State(Ingest(chain, s.rows, s.last[i], h), Raise(s.mark, h), s.last[i := Some(DParamAt(chain, h))],
          s.calls[c := Call(i, Loop(h + 1, end), map[])])
  }

  lemma IngestReaches(chain: Chain, d: Discipline, s: State, c: nat, i: nat, h: nat, end: int)
    requires Reachable(chain, d, s) && AtHead(s, c, i, h, end) && Builds(chain, h)
    ensures Reachable(chain, d, IngestedState(chain, s, c, i, h, end))
  {
    CommitReaches(chain, d, s, c, i, h, end);
    var a, e := CommittedState(chain, s, c, i, h, end), IngestedState(chain, s, c, i, h, end);
    var b := State(a.rows, a.mark, e.last, s.calls[c := Call(i, Marking(h, end), map[])]);
    assert a.calls[c].pc.obs || b.last == a.last;
    assert b.calls == a.calls[c := b.calls[c]];
    WorkReaches(chain, d, a, Ack(c), b);
    assert e.calls == b.calls[c := e.calls[c]];
    WorkReaches(chain, d, b, ChainSync.Mark(c), e);
  }

  // ----- one block at a time ----------------------------------------------------------------------

  /** A quiet state after instance i has synced one more block. */
  function SyncedOne(chain: Chain, s: State, i: nat): State
    requires i in s.last
  {
    var h := StartHeight(s.mark);
    State(Ingest(chain, s.rows, s.last[i], h), Some(h), s.last[i := Some(DParamAt(chain, h))], map[])
  }

  function Started(s: State, i: nat): State {
    s.(calls := map[0 := Call(i, Loop(StartHeight(s.mark), StartHeight(s.mark)), map[])])
  }

  ghost predicate Quiet(chain: Chain, d: Discipline, s: State) {
    Reachable(chain, d, s) && s.calls == map[] && (d != CallsTakeTurns ==> OneInstance(s))
  }

  lemma StartReaches(chain: Chain, d: Discipline, s: State, i: nat)
    requires Quiet(chain, d, s) && i in s.last
    ensures Reachable(chain, d, Started(s, i)) && AtHead(Started(s, i), 0, i, StartHeight(s.mark), StartHeight(s.mark))
  {
    StepReaches(chain, d, s, Start(0, i, StartHeight(s.mark), 1), Started(s, i));
  }

  lemma SyncOneReaches(chain: Chain, d: Discipline, s: State, i: nat)
    requires Quiet(chain, d, s) && i in s.last && Builds(chain, StartHeight(s.mark))
    ensures Quiet(chain, d, SyncedOne(chain, s, i))
  {
    var h := StartHeight(s.mark);
    StartReaches(chain, d, s, i);
    IngestReaches(chain, d, Started(s, i), 0, i, h, h);
    var before, after := IngestedState(chain, Started(s, i), 0, i, h, h), SyncedOne(chain, s, i);
    assert before.mark == Some(h) && after.calls == before.calls - {0};
    StepReaches(chain, d, before, Return(0), after);
  }

  lemma BootReaches(chain: Chain, d: Discipline, s: State, i: nat)
    requires Quiet(chain, d, s) && i !in s.last && (d != CallsTakeTurns ==> s.last == map[])
    ensures Quiet(chain, d, s.(last := s.last[i := None]))
  {
    StepReaches(chain, d, s, Boot(i), s.(last := s.last[i := None]));
  }

  lemma EmptyReaches(chain: Chain, d: Discipline)
    ensures Quiet(chain, d, EMPTY)
  {
    assert RunTo(chain, d, [EMPTY], EMPTY);
  }

  // ----- a restart may add an observation -------------------------------------------------------

  /** The process dies after block 1 is durable and before the watermark moves. */
  function AfterRestart(chain: Chain): State {
    var one := Ingest(chain, map[], None, 0);
    State(Ingest(chain, one, Some(DParamAt(chain, 0)), 1), Some(0), map[2 := None], map[])
  }

  lemma RestartIsReachable(chain: Chain)
    requires Builds(chain, 0) && Builds(chain, 1)
    ensures Quiet(chain, BothTakeTurns, AfterRestart(chain))
  {
    var d := BothTakeTurns;
    EmptyReaches(chain, d);
    BootReaches(chain, d, EMPTY, 1);
    var s := EMPTY.(last := map[1 := None]);
    assert EMPTY.last[1 := None] == map[1 := None];
    SyncOneReaches(chain, d, s, 1);
    var t := SyncedOne(chain, s, 1);
    StartReaches(chain, d, t, 1);
    CommitReaches(chain, d, Started(t, 1), 0, 1, 1, 1);
    var u := CommittedState(chain, Started(t, 1), 0, 1, 1, 1);
    var v := u.(last := map[], calls := map[]);
    assert v.last == u.last - {1};
    StepReaches(chain, d, u, Kill(1), v);
    BootReaches(chain, d, v, 2);
    assert v.last[2 := None] == map[2 := None];
    assert AfterRestart(chain) == v.(last := v.last[2 := None]);
  }

  /** So "ingesting a stored height again changes nothing" fails in every chain whose D-parameter is
      the same at 0 and 1, even with one instance and one call at a time: the fresh instance stores a
      second observation at 1. */
  lemma RestartAddsObservation(chain: Chain)
    requires DistinctHashes(chain) && Builds(chain, 0) && Builds(chain, 1) && DParamAt(chain, 0) == DParamAt(chain, 1)
    ensures Reachable(chain, BothTakeTurns, AfterRestart(chain)) && Archived(chain, AfterRestart(chain).rows, 1)
    ensures Ingest(chain, AfterRestart(chain).rows, None, 1) != AfterRestart(chain).rows
  {
    RestartIsReachable(chain);
    var rows := AfterRestart(chain).rows;
    var one := Ingest(chain, map[], None, 0);
    IngestObserves(chain, one, Some(DParamAt(chain, 0)), 1, 1);
    IngestObserves(chain, map[], None, 0, 1);
    IngestObserves(chain, rows, None, 1, 1);
    IngestArchives(chain, one, 1, Some(DParamAt(chain, 0)), AfterRestart(chain));
  }

  /** Whatever a reachable table holds of a height it holds in full, here the block row. */
  lemma IngestArchives(chain: Chain, rows: Rows, h: nat, last: Option<Bytes>, s: State)
    requires DistinctHashes(chain) && Reachable(chain, BothTakeTurns, s) && s.rows == Ingest(chain, rows, last, h)
    ensures Archived(chain, s.rows, h)
  {
    var run :| RunTo(chain, BothTakeTurns, run, s);
    RunKeepsInv(chain, run, |run| - 1);
    var puts := Bundle(chain, h, LooksNew(chain, last, h));
    BlockIsInBundle(chain, h, LooksNew(chain, last, h));
    InsertAllHas(rows, puts, 2);
  }

  lemma BlockIsInBundle(c: Chain, h: nat, obs: bool)
    ensures |Bundle(c, h, obs)| > 2 && Bundle(c, h, obs)[2] == Put(BlockKey(h, HashAt(c, h)), BlockValAt(c, h), None)
  {
  }

  lemma {:induction false} InsertAllHas(rows: Rows, puts: seq<Put>, i: nat)
    requires i < |puts| && puts[i].also.None?
    ensures puts[i].key in InsertAll(rows, puts)
    decreases |puts|
  {
    if i < |puts| - 1 { InsertAllHas(rows, puts[..|puts| - 1], i); }
  }

  // ----- two live instances lose an observation ---------------------------------------------------

  /** The D-parameter changes at 1 and changes back at 2. */
  ghost predicate ChangesAndBack(chain: Chain) {
    && Builds(chain, 0) && Builds(chain, 1) && Builds(chain, 2)
    && DParamAt(chain, 0) == DParamAt(chain, 2) != DParamAt(chain, 1)
  }

  /** Block 2 is synced, but the latest observation at or below it is block 1's, another value. */
  ghost predicate LostObservation(chain: Chain, s: State) {
    s.mark == Some(2) && LatestObs(chain, s.rows, 2) == Some(1) && DParamAt(chain, 1) != DParamAt(chain, 2)
  }

  function TwoBooted(): State { State(map[], None, map[1 := None, 2 := None], map[]) }

  /** Instance 1 syncs block 0, instance 2 block 1, instance 1 block 2. */
  function Alternated(chain: Chain): State {
    SyncedOne(chain, SyncedOne(chain, SyncedOne(chain, TwoBooted(), 1), 2), 1)
  }

  lemma TwoBootedIsReachable(chain: Chain)
    ensures Quiet(chain, CallsTakeTurns, TwoBooted())
  {
    EmptyReaches(chain, CallsTakeTurns);
    BootReaches(chain, CallsTakeTurns, EMPTY, 1);
    var s := EMPTY.(last := EMPTY.last[1 := None]);
    BootReaches(chain, CallsTakeTurns, s, 2);
    assert s.last[2 := None] == map[1 := None, 2 := None];
  }

  lemma AlternatedIsReachable(chain: Chain)
    requires ChangesAndBack(chain)
    ensures Reachable(chain, CallsTakeTurns, Alternated(chain))
  {
    TwoBootedIsReachable(chain);
    SyncOneReaches(chain, CallsTakeTurns, TwoBooted(), 1);
    SyncOneReaches(chain, CallsTakeTurns, SyncedOne(chain, TwoBooted(), 1), 2);
    SyncOneReaches(chain, CallsTakeTurns, SyncedOne(chain, SyncedOne(chain, TwoBooted(), 1), 2), 1);
  }

  /** One instance at a time is needed: in every chain whose D-parameter changes and changes back, two
      live instances lose an observation although no two calls ever overlap. */
  lemma TwoInstancesLoseObservations(chain: Chain)
    requires ChangesAndBack(chain)
    ensures Reachable(chain, CallsTakeTurns, Alternated(chain)) && LostObservation(chain, Alternated(chain))
  {
    AlternatedIsReachable(chain);
    var a := SyncedOne(chain, TwoBooted(), 1);
    var b := SyncedOne(chain, a, 2);
    IngestObserves(chain, TwoBooted().rows, None, 0, 2);
    IngestObserves(chain, a.rows, None, 1, 2);
    IngestObserves(chain, a.rows, None, 1, 1);
    IngestObserves(chain, b.rows, Some(DParamAt(chain, 0)), 2, 2);
    IngestObserves(chain, b.rows, Some(DParamAt(chain, 0)), 2, 1);
  }

  // ----- one instance with overlapping calls loses one too ------------------------------------------

  /** Two calls of instance 1 have read that nothing is synced yet: call 0 may take three blocks,
      call 1 one. */
  function BothStarted(): State {
    State(map[], None, map[1 := None], map[0 := Call(1, Loop(0, 2), map[]), 1 := Call(1, Loop(0, 0), map[])])
  }

  /** Call 0 ingests 0 and 1, then call 1 ingests 0 again, then call 0 ingests 2. */
  function TwoAhead(chain: Chain): State {
    IngestedState(chain, IngestedState(chain, BothStarted(), 0, 1, 0, 2), 0, 1, 1, 2)
  }

  function SetBack(chain: Chain): State { IngestedState(chain, TwoAhead(chain), 1, 1, 0, 0) }

  function Overlapped(chain: Chain): State { IngestedState(chain, SetBack(chain), 0, 1, 2, 2) }

  lemma BothStartedIsReachable(chain: Chain)
    ensures Reachable(chain, InstancesTakeTurns, BothStarted())
  {
    var d := InstancesTakeTurns;
    EmptyReaches(chain, d);
    BootReaches(chain, d, EMPTY, 1);
    var s := EMPTY.(last := EMPTY.last[1 := None]);
    var s1 := WithCall(s, 0, Call(1, Loop(0, 2), map[]));
    StepReaches(chain, d, s, Start(0, 1, 2, 3), s1);
    var s2 := WithCall(s1, 1, Call(1, Loop(0, 0), map[]));
    StepReaches(chain, d, s1, Start(1, 1, 2, 1), s2);
    assert s2 == BothStarted();
  }

  lemma OverlappedIsReachable(chain: Chain)
    requires ChangesAndBack(chain)
    ensures Reachable(chain, InstancesTakeTurns, Overlapped(chain))
  {
    var d := InstancesTakeTurns;
    BothStartedIsReachable(chain);
    IngestReaches(chain, d, BothStarted(), 0, 1, 0, 2);
    IngestReaches(chain, d, IngestedState(chain, BothStarted(), 0, 1, 0, 2), 0, 1, 1, 2);
    IngestReaches(chain, d, TwoAhead(chain), 1, 1, 0, 0);
    IngestReaches(chain, d, SetBack(chain), 0, 1, 2, 2);
  }

  /** One call at a time is needed too: in every such chain, overlapping calls of the one live instance
      lose an observation, because the call that re-ingests 0 sets the remembered value back. */
  lemma OverlappingCallsLoseObservations(chain: Chain)
    requires ChangesAndBack(chain)
    ensures Reachable(chain, InstancesTakeTurns, Overlapped(chain)) && LostObservation(chain, Overlapped(chain))
  {
    OverlappedIsReachable(chain);
    var first := IngestedState(chain, BothStarted(), 0, 1, 0, 2);
    IngestObserves(chain, map[], None, 0, 2);
    IngestObserves(chain, first.rows, Some(DParamAt(chain, 0)), 1, 2);
    IngestObserves(chain, first.rows, Some(DParamAt(chain, 0)), 1, 1);
    SetBackObserves(chain, 1);
    SetBackObserves(chain, 2);
    IngestObserves(chain, SetBack(chain).rows, Some(DParamAt(chain, 0)), 2, 2);
    IngestObserves(chain, SetBack(chain).rows, Some(DParamAt(chain, 0)), 2, 1);
  }

  lemma SetBackObserves(chain: Chain, g: nat)
    requires g > 0
    ensures ObsIn(chain, SetBack(chain).rows, g) <==> ObsIn(chain, TwoAhead(chain).rows, g)
    ensures SetBack(chain).last == map[1 := Some(DParamAt(chain, 0))] && SetBack(chain).mark == Some(1)
  {
    IngestObserves(chain, TwoAhead(chain).rows, Some(DParamAt(chain, 1)), 0, g);
  }
}
