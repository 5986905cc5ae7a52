/**
 * `rolloverDefaultPartition`: retire the overflow of the three DEFAULT partitions into one new
 * bounded bucket, as an ordered series of DDL statements in one transaction, any of which may fail.
 */
module Rollover {
  import opened Chunking
  import opened Partitions

  datatype Bucket = Bucket(lo: nat, hi: nat, suffix: string)
  datatype Outcome = Done | AlreadyApplied | Refused | Failed

  const STAGING := "default_staging"

  function Span(b: Bucket): Bound { Range(b.lo, b.hi) }

  // ----- DDL statements; None is an error -------------------------------------------------------

  function DetachDefault(t: Table): Option<Table> {
    if BoundOf(t, "default").Some? then Some(t["default" := t["default"].(bound := None)]) else None
  }

  function DropFk(t: Table): Table {
    if "default" in t then t["default" := t["default"].(fk := false)] else t
  }

  /** Some row that is still under the foreign key points into blocks_default. */
  predicate PointsInto(child: Table, target: set<Row>) {
    exists n :: n in child && child[n].fk && exists r :: r in child[n].rows && Resolves(r, target)
  }

  function DetachReferenced(c: Catalog): Option<Table> {
    if "default" in c.blocks && (PointsInto(c.transactions, c.blocks["default"].rows) || PointsInto(c.observations, c.blocks["default"].rows))
    then None else DetachDefault(c.blocks)
  }

  function Rename(t: Table, from: string, to: string): Option<Table> {
    if from !in t || to in t then None else Some((t - {from})[to := t[from]])
  }

  predicate FreeSpan(t: Table, b: Bucket) { forall n :: n in t && IsRange(t, n) ==> !Overlap(t[n].bound.value, Span(b)) }

  predicate Inside(rows: set<Row>, b: Bucket) { forall r :: r in rows ==> b.lo <= r.height < b.hi }

  /** ATTACH PARTITION checks the bounds, the rows, the DEFAULT partition and the foreign key. */
  function Attach(t: Table, b: Bucket, child: bool, blocks: set<Row>): Option<Table> {
    if b.suffix !in t || t[b.suffix].bound.Some? || !FreeSpan(t, b) || !Inside(t[b.suffix].rows, b)
       || (exists n :: n in t && t[n].bound == Some(Default) && exists r :: r in t[n].rows && b.lo <= r.height < b.hi)
       || (child && exists r :: r in t[b.suffix].rows && !Resolves(r, blocks))
    then None
    else Some(t[b.suffix := t[b.suffix].(bound := Some(Span(b)), fk := child)])
  }

  function CreateDefault(t: Table, child: bool): Option<Table> {
    if "default" in t || (exists n :: n in t && t[n].bound == Some(Default)) then None
    else Some(t["default" := Relation({}, Some(Default), child)])
  }

  // ----- what one table looks like on the way ---------------------------------------------------

  function Unlinked(t: Table): Table
    requires "default" in t
  {
    t["default" := Relation(t["default"].rows, None, false)]
  }

  function Moved(t: Table, name: string): Table
    requires "default" in t
  {
    (t - {"default"})[name := Relation(t["default"].rows, None, false)]
  }

  function Rebound(t: Table, b: Bucket, child: bool): Table
    requires "default" in t
  {
    (t - {"default"})[b.suffix := Relation(t["default"].rows, Some(Span(b)), child)]
  }

  function RolledOver(t: Table, b: Bucket, child: bool): Table
    requires "default" in t
  {
    Rebound(t, b, child)["default" := Relation({}, Some(Default), child)]
  }

  predicate NamesFree(t: Table, b: Bucket) { b.suffix !in t && STAGING !in t && b.suffix != STAGING }

  ghost predicate TableReady(t: Table, b: Bucket)
    requires "default" in t
  {
    NamesFree(t, b) && FreeSpan(t, b) && Inside(t["default"].rows, b)
  }

  ghost predicate Ready(c: Catalog, b: Bucket)
    requires WellFormed(c)
  {
    b.lo < b.hi && TableReady(c.blocks, b) && TableReady(c.transactions, b) && TableReady(c.observations, b)
  }

  predicate Applied(c: Catalog, b: Bucket) {
    && BoundOf(c.blocks, b.suffix) == Some(Span(b)) && BoundOf(c.transactions, b.suffix) == Some(Span(b))
    && BoundOf(c.observations, b.suffix) == Some(Span(b))
  }

  lemma UnlinkIsTwoSteps(t: Table, child: bool)
    requires TableOk(t, child)
    ensures DetachDefault(t).Some? && DropFk(DetachDefault(t).value) == Unlinked(t)
    ensures !child ==> DetachDefault(t).value == Unlinked(t)
  {
  }

  /** Once the children's overflow is unlinked nothing points into blocks_default: a child row in a
      bounded partition refers to a block of the same height, which the aligned bounded partition of
      blocks holds. */
  lemma NothingPointsIn(c: Catalog, child: Table)
    requires WellFormed(c) && (child == c.transactions || child == c.observations)
    ensures !PointsInto(Unlinked(child), c.blocks["default"].rows)
  {
    var t, target := Unlinked(child), c.blocks["default"].rows;
    forall n, r | n in t && t[n].fk && r in t[n].rows ensures !Resolves(r, target) {
      assert t[n] == child[n] && child[n].bound.Some? && Selects(child, n, r.height);
      assert BoundOf(c.blocks, n) == BoundOf(child, n);
      assert n != "default" && BoundOf(child, n) != Some(Default);
      assert CoversIn(c.blocks, n, r.height);
      forall b | b in target ensures !Refers(r, b) {
        assert Selects(c.blocks, "default", b.height);
      }
    }
  }

  lemma MovesAreRenames(t: Table, b: Bucket)
    requires "default" in t && STAGING != "default"
    ensures Rename(Unlinked(t), "default", STAGING) == if STAGING in t then None else Some(Moved(t, STAGING))
    ensures STAGING !in t && b.suffix != "default" ==>
      Rename(Moved(t, STAGING), STAGING, b.suffix) == if b.suffix in t || b.suffix == STAGING then None else Some(Moved(t, b.suffix))
  {
    assert Unlinked(t) - {"default"} == t - {"default"};
    if STAGING !in t { assert Moved(t, STAGING) - {STAGING} == t - {"default"}; }
  }

  lemma AttachRebinds(t: Table, b: Bucket, child: bool, blocks: set<Row>)
    requires TableOk(t, child) && NamesFree(t, b) && Inside(t["default"].rows, b)
    requires child ==> forall r :: r in t["default"].rows ==> Resolves(r, blocks)
    ensures Attach(Moved(t, b.suffix), b, child, blocks) == if FreeSpan(t, b) then Some(Rebound(t, b, child)) else None
  {
    var m := Moved(t, b.suffix);
    assert forall n :: n != "default" && n != b.suffix ==> (n in m <==> n in t);
    assert forall n :: n in m && n != b.suffix ==> n in t && m[n] == t[n];
    forall n | n in m ensures m[n].bound != Some(Default) {
      if n != b.suffix { assert BoundOf(t, n) != Some(Default); }
    }
    if !FreeSpan(t, b) {
      var n :| n in t && IsRange(t, n) && Overlap(t[n].bound.value, Span(b));
      assert n in m && IsRange(m, n);
    } else {
      forall n | n in m && IsRange(m, n) ensures !Overlap(m[n].bound.value, Span(b)) { assert IsRange(t, n); }
      assert m[b.suffix := m[b.suffix].(bound := Some(Span(b)), fk := child)] == Rebound(t, b, child);
    }
  }

  lemma RecreateIsPossible(t: Table, b: Bucket, child: bool)
    requires TableOk(t, child) && NamesFree(t, b)
    ensures CreateDefault(Rebound(t, b, child), child) == Some(RolledOver(t, b, child))
  {
    var m := Rebound(t, b, child);
    forall n | n in m ensures m[n].bound != Some(Default) {
      if n != b.suffix { assert BoundOf(t, n) != Some(Default); }
    }
  }

  // ----- conservation ---------------------------------------------------------------------------

  lemma ReboundKeepsContents(t: Table, b: Bucket, child: bool)
    requires TableOk(t, child) && NamesFree(t, b)
    ensures Contents(Rebound(t, b, child)) == Contents(t) == Contents(RolledOver(t, b, child))
  {
    var m, f := Rebound(t, b, child), RolledOver(t, b, child);
    forall r | r in Contents(t) ensures r in Contents(m) && r in Contents(f) {
      var n :| n in t && t[n].bound.Some? && r in t[n].rows;
      var k := if n == "default" then b.suffix else n;
      assert k in m && m[k].bound.Some? && r in m[k].rows && k in f && f[k] == m[k];
    }
    forall r | r in Contents(m) || r in Contents(f) ensures r in Contents(t) {
      var n :| (n in m && m[n].bound.Some? && r in m[n].rows) || (n in f && f[n].bound.Some? && r in f[n].rows);
      var k := if n == b.suffix then "default" else n;
      assert k in t && t[k].bound.Some? && r in t[k].rows;
    }
  }

  lemma RolledOverRoutes(t: Table, b: Bucket, child: bool)
    requires TableOk(t, child) && TableReady(t, b)
    ensures Routed(RolledOver(t, b, child))
  {
    var f := RolledOver(t, b, child);
    forall n, r | n in f && f[n].bound.Some? && r in f[n].rows ensures Selects(f, n, r.height) {
      if n != b.suffix { assert f[n] == t[n] && Selects(t, n, r.height) && IsRange(t, n) by { assert n != "default"; assert BoundOf(t, n) != Some(Default); } }
    }
  }

  lemma RolledOverIsOk(t: Table, b: Bucket, child: bool)
    requires TableOk(t, child) && TableReady(t, b) && b.lo < b.hi
    ensures TableOk(RolledOver(t, b, child), child)
  {
    RolledOverRoutes(t, b, child);
    var f := RolledOver(t, b, child);
    assert forall n :: n in f && n != b.suffix && n != "default" ==> n in t && f[n] == t[n];
    forall m, n | IsRange(f, m) && IsRange(f, n) && m != n ensures !Overlap(f[m].bound.value, f[n].bound.value) {
      if m != b.suffix && n != b.suffix { assert IsRange(t, m) && IsRange(t, n); }
      else if m != b.suffix { assert IsRange(t, m) && !Overlap(t[m].bound.value, Span(b)); }
      else { assert IsRange(t, n) && !Overlap(t[n].bound.value, Span(b)); }
    }
    forall n | IsRange(f, n) ensures f[n].bound.value.lo < f[n].bound.value.hi {
      if n != b.suffix { assert IsRange(t, n); }
    }
    forall n | n != "default" ensures BoundOf(f, n) != Some(Default) {
      if n != b.suffix { assert BoundOf(t, n) != Some(Default) && BoundOf(f, n) == BoundOf(t, n); }
    }
  }

  function RolledOverAll(c: Catalog, b: Bucket): Catalog
    requires "default" in c.blocks && "default" in c.transactions && "default" in c.observations
  {
    Catalog(RolledOver(c.blocks, b, false), RolledOver(c.transactions, b, true), RolledOver(c.observations, b, true))
  }

  lemma RolledOverAligns(a: Table, t: Table, b: Bucket, child: bool)
    requires "default" in a && "default" in t && Aligned(a, t)
    ensures Aligned(RolledOver(a, b, false), RolledOver(t, b, child))
  {
    forall n ensures BoundOf(RolledOver(a, b, false), n) == BoundOf(RolledOver(t, b, child), n) {
      assert BoundOf(a, n) == BoundOf(t, n);
    }
  }

  /** The whole move keeps every row of every table and every foreign key, leaves DEFAULT empty,
      and leaves the hierarchy well formed: bounds disjoint, every row where its height routes. */
  lemma RolloverConserves(c: Catalog, b: Bucket)
    requires WellFormed(c) && Ready(c, b)
    ensures WellFormed(RolledOverAll(c, b)) && Applied(RolledOverAll(c, b), b)
    ensures Contents(RolledOverAll(c, b).blocks) == Contents(c.blocks)
    ensures Contents(RolledOverAll(c, b).transactions) == Contents(c.transactions)
    ensures Contents(RolledOverAll(c, b).observations) == Contents(c.observations)
  {
    RolledOverIsOk(c.blocks, b, false);
    RolledOverIsOk(c.transactions, b, true);
    RolledOverIsOk(c.observations, b, true);
    ReboundKeepsContents(c.blocks, b, false);
    ReboundKeepsContents(c.transactions, b, true);
    ReboundKeepsContents(c.observations, b, true);
    RolledOverAligns(c.blocks, c.transactions, b, true);
    RolledOverAligns(c.blocks, c.observations, b, true);
  }

  /** The next bucket after the migration's own is free, so the first rollover can succeed. */
  lemma FirstRolloverIsReady()
    ensures WellFormed(MigratedCatalog()) && Ready(MigratedCatalog(), Bucket(5_000_000, 6_000_000, PartitionName(5)))
  {
    MigratedIsWellFormed();
    NextBucketIsFree(false);
    NextBucketIsFree(true);
  }

  lemma NextBucketIsFree(child: bool)
    ensures "default" in Migrated(child) && TableReady(Migrated(child), Bucket(5_000_000, 6_000_000, PartitionName(5)))
  {
    BoundedIsPrecreated(child, PRECREATED);
    var t, b := Migrated(child), Bucket(5_000_000, 6_000_000, PartitionName(5));
    assert PartitionName(5)[0] == 'p' && STAGING[0] == 'd' && "default"[0] == 'd';
    forall n | n in t ensures n != PartitionName(5) && n != STAGING && (IsRange(t, n) ==> !Overlap(t[n].bound.value, Span(b))) {
      if n != "default" {
        assert NamedBelow(n, PRECREATED);
        var i :| 0 <= i < PRECREATED && n == PartitionName(i);
        if n == PartitionName(5) { PartitionNamesDiffer(i, 5); }
        assert n[0] == 'p';
      } else {
        assert |STAGING| != |"default"|;
      }
    }
  }

  // ----- the procedure --------------------------------------------------------------------------

  ghost predicate NoFault(faults: nat -> bool, n: nat) { forall i: nat :: i < n ==> !faults(i) }

  lemma OverflowResolves(c: Catalog, child: Table, r: Row)
    requires WellFormed(c) && (child == c.transactions || child == c.observations) && r in child["default"].rows
    ensures Resolves(r, Contents(c.blocks))
  {
    assert BoundOf(child, "default") == Some(Default);
    assert r in Contents(child);
  }

  function Bounds(c: Catalog, suffix: string): seq<Option<Bound>> {
    [BoundOf(c.blocks, suffix), BoundOf(c.transactions, suffix), BoundOf(c.observations, suffix)]
  }

  /** The names are unused, every bounded partition lies below or above the bucket, and every overflow
      row lies in it. */
  ghost predicate FreeFor(t: Table, b: Bucket) {
    && b.suffix !in t && "default_staging" !in t && b.suffix != "default_staging"
    && (forall n :: n in t && t[n].bound.Some? && t[n].bound.value.Range? ==> t[n].bound.value.hi <= b.lo || b.hi <= t[n].bound.value.lo)
    && "default" in t && forall r :: r in t["default"].rows ==> b.lo <= r.height < b.hi
  }

  ghost predicate AllOverflowFits(c: Catalog, b: Bucket)
    requires WellFormed(c)
  {
    && (forall r :: r in c.blocks["default"].rows ==> b.lo <= r.height < b.hi)
    && (forall r :: r in c.transactions["default"].rows ==> b.lo <= r.height < b.hi)
    && (forall r :: r in c.observations["default"].rows ==> b.lo <= r.height < b.hi)
  }

  /** The overflow is now the bucket's partition, DEFAULT is empty, and nothing else has changed. */
  ghost predicate Holds(before: Table, after: Table, b: Bucket) {
    && "default" in before && b.suffix in after && "default" in after
    && after[b.suffix].rows == before["default"].rows && after[b.suffix].bound == Some(Range(b.lo, b.hi))
    && after["default"].rows == {} && after["default"].bound == Some(Default)
    && forall n :: n != b.suffix && n != "default" ==> (n in after <==> n in before) && (n in before ==> after[n] == before[n])
  }

  lemma RolledOverHolds(t: Table, b: Bucket, child: bool)
    requires TableOk(t, child) && NamesFree(t, b)
    ensures Holds(t, RolledOver(t, b, child), b)
  {
  }

  lemma ReadyMeans(c: Catalog, b: Bucket)
    requires WellFormed(c)
    ensures b.lo < b.hi ==> (Ready(c, b) <==> FreeFor(c.blocks, b) && FreeFor(c.transactions, b) && FreeFor(c.observations, b))
  {
    if b.lo < b.hi {
      TableReadyMeans(c.blocks, b, false);
      TableReadyMeans(c.transactions, b, true);
      TableReadyMeans(c.observations, b, true);
    }
  }

  lemma TableReadyMeans(t: Table, b: Bucket, child: bool)
    requires TableOk(t, child) && b.lo < b.hi
    ensures TableReady(t, b) <==> FreeFor(t, b)
  {
    forall n | n in t && IsRange(t, n)
      ensures !Overlap(t[n].bound.value, Span(b)) <==> t[n].bound.value.hi <= b.lo || b.hi <= t[n].bound.value.lo
    {
    }
    if FreeFor(t, b) {
      forall n | n in t && IsRange(t, n) ensures !Overlap(t[n].bound.value, Span(b)) {
        assert t[n].bound.Some? && t[n].bound.value.Range?;
      }
    }
  }

  class Archive {
    var cat: Catalog

    constructor (c: Catalog)
      ensures cat == c
    {
      cat := c;
    }

    /** Steps (a) to (c): take the three DEFAULT partitions off. */
    method DetachAll(faults: nat -> bool) returns (ok: bool)
      requires WellFormed(cat)
      modifies this
      ensures ok <==> NoFault(faults, 5)
      ensures ok ==> cat == Catalog(Unlinked(old(cat.blocks)), Unlinked(old(cat.transactions)), Unlinked(old(cat.observations)))
    {
      ghost var c := cat;
      UnlinkIsTwoSteps(c.blocks, false);
      UnlinkIsTwoSteps(c.transactions, true);
      UnlinkIsTwoSteps(c.observations, true);
      NothingPointsIn(c, c.transactions);
      NothingPointsIn(c, c.observations);
      var t := DetachDefault(cat.transactions);
      if t.None? || faults(0) { return false; }
      cat := cat.(transactions := t.value);
      var o := DetachDefault(cat.observations);
      if o.None? || faults(1) { return false; }
      cat := cat.(observations := o.value);
      if faults(2) { return false; }
      cat := cat.(transactions := DropFk(cat.transactions));
      if faults(3) { return false; }
      cat := cat.(observations := DropFk(cat.observations));
      var b := DetachReferenced(cat);
      if b.None? || faults(4) { return false; }
      cat := cat.(blocks := b.value);
      return true;
    }

    /** Step (d): out of the way of the name `_default`. */
    method RenameAside(faults: nat -> bool, ghost c: Catalog) returns (ok: bool)
      requires WellFormed(c) && cat == Catalog(Unlinked(c.blocks), Unlinked(c.transactions), Unlinked(c.observations))
      modifies this
      ensures ok <==> !faults(5) && !faults(6) && !faults(7) && STAGING !in c.blocks && STAGING !in c.transactions && STAGING !in c.observations
      ensures ok ==> cat == Catalog(Moved(c.blocks, STAGING), Moved(c.transactions, STAGING), Moved(c.observations, STAGING))
    {
      MovesAreRenames(c.blocks, Bucket(0, 1, ""));
      MovesAreRenames(c.transactions, Bucket(0, 1, ""));
      MovesAreRenames(c.observations, Bucket(0, 1, ""));
      var b := Rename(cat.blocks, "default", STAGING);
      if b.None? || faults(5) { return false; }
      cat := cat.(blocks := b.value);
      var t := Rename(cat.transactions, "default", STAGING);
      if t.None? || faults(6) { return false; }
      cat := cat.(transactions := t.value);
      var o := Rename(cat.observations, "default", STAGING);
      if o.None? || faults(7) { return false; }
      cat := cat.(observations := o.value);
      return true;
    }

    /** Step (e): rename to the bucket's name and attach with its bounds, parent before children. */
    method Reattach(b: Bucket, faults: nat -> bool, ghost c: Catalog) returns (ok: bool)
      requires WellFormed(c) && b.suffix != "default" && STAGING !in c.blocks && STAGING !in c.transactions && STAGING !in c.observations
      requires Inside(c.blocks["default"].rows, b) && Inside(c.transactions["default"].rows, b) && Inside(c.observations["default"].rows, b)
      requires cat == Catalog(Moved(c.blocks, STAGING), Moved(c.transactions, STAGING), Moved(c.observations, STAGING))
      modifies this
      ensures ok <==>
        && NamesFree(c.blocks, b) && FreeSpan(c.blocks, b) && NamesFree(c.transactions, b) && FreeSpan(c.transactions, b)
        && NamesFree(c.observations, b) && FreeSpan(c.observations, b)
        && !faults(8) && !faults(9) && !faults(10) && !faults(11) && !faults(12) && !faults(13)
      ensures ok ==> cat == Catalog(Rebound(c.blocks, b, false), Rebound(c.transactions, b, true), Rebound(c.observations, b, true))
    {
      MovesAreRenames(c.blocks, b);
      var blocks := Rename(cat.blocks, STAGING, b.suffix);
      if blocks.None? || faults(8) { return false; }
      AttachRebinds(c.blocks, b, false, {});
      blocks := Attach(blocks.value, b, false, {});
      if blocks.None? || faults(9) { return false; }
      cat := cat.(blocks := blocks.value);
      ReboundKeepsContents(c.blocks, b, false);

      MovesAreRenames(c.transactions, b);
      var txs := Rename(cat.transactions, STAGING, b.suffix);
      if txs.None? || faults(10) { return false; }
      forall r | r in c.transactions["default"].rows ensures Resolves(r, Contents(cat.blocks)) { OverflowResolves(c, c.transactions, r); }
      AttachRebinds(c.transactions, b, true, Contents(cat.blocks));
      txs := Attach(txs.value, b, true, Contents(cat.blocks));
      if txs.None? || faults(11) { return false; }
      cat := cat.(transactions := txs.value);

      MovesAreRenames(c.observations, b);
      var obs := Rename(cat.observations, STAGING, b.suffix);
      if obs.None? || faults(12) { return false; }
      forall r | r in c.observations["default"].rows ensures Resolves(r, Contents(cat.blocks)) { OverflowResolves(c, c.observations, r); }
      AttachRebinds(c.observations, b, true, Contents(cat.blocks));
      obs := Attach(obs.value, b, true, Contents(cat.blocks));
      if obs.None? || faults(13) { return false; }
      cat := cat.(observations := obs.value);
      return true;
    }

    /** Step (f): fresh empty DEFAULT partitions. */
    method RecreateDefaults(b: Bucket, faults: nat -> bool, ghost c: Catalog) returns (ok: bool)
      requires WellFormed(c) && NamesFree(c.blocks, b) && NamesFree(c.transactions, b) && NamesFree(c.observations, b)
      requires cat == Catalog(Rebound(c.blocks, b, false), Rebound(c.transactions, b, true), Rebound(c.observations, b, true))
      modifies this
      ensures ok <==> !faults(14) && !faults(15) && !faults(16)
      ensures ok ==> cat == RolledOverAll(c, b)
    {
      RecreateIsPossible(c.blocks, b, false);
      RecreateIsPossible(c.transactions, b, true);
      RecreateIsPossible(c.observations, b, true);
      var blocks := CreateDefault(cat.blocks, false);
      if blocks.None? || faults(14) { return false; }
      cat := cat.(blocks := blocks.value);
      var txs := CreateDefault(cat.transactions, true);
      if txs.None? || faults(15) { return false; }
      cat := cat.(transactions := txs.value);
      var obs := CreateDefault(cat.observations, true);
      if obs.None? || faults(16) { return false; }
      cat := cat.(observations := obs.value);
      return true;
    }

    /** The statements between BEGIN and COMMIT. */
    method RunStatements(b: Bucket, faults: nat -> bool) returns (ok: bool)
      requires WellFormed(cat) && b.suffix != "default"
      requires Inside(cat.blocks["default"].rows, b) && Inside(cat.transactions["default"].rows, b) && Inside(cat.observations["default"].rows, b)
      modifies this
      ensures ok <==> TableReady(old(cat.blocks), b) && TableReady(old(cat.transactions), b) && TableReady(old(cat.observations), b) && NoFault(faults, 18)
      ensures ok ==> cat == RolledOverAll(old(cat), b)
    {
      ghost var c := cat;
      ok := DetachAll(faults);
      if !ok { return; }
      ok := RenameAside(faults, c);
      if !ok { return; }
      ok := Reattach(b, faults, c);
      if !ok { return; }
      ok := RecreateDefaults(b, faults, c);
      ok := ok && !faults(17);
    }

    /** Repeating a rollover is a no-op; a partially applied or differently bounded suffix and an
        overflow outside the bucket are refused; a failure at any statement restores the catalog.
        It succeeds exactly when the names and the span are free, the overflow fits and nothing
        fails. */
    method RolloverDefaultPartition(b: Bucket, faults: nat -> bool) returns (outcome: Outcome)
      requires WellFormed(cat)
      modifies this
      ensures WellFormed(cat)
      ensures outcome == Done <==>
        && b.lo < b.hi && FreeFor(old(cat).blocks, b) && FreeFor(old(cat).transactions, b) && FreeFor(old(cat).observations, b)
        && forall i: nat :: i < 18 ==> !faults(i)
      ensures outcome == Done ==>
        Holds(old(cat).blocks, cat.blocks, b) && Holds(old(cat).transactions, cat.transactions, b) && Holds(old(cat).observations, cat.observations, b)
      ensures outcome == AlreadyApplied <==> b.lo < b.hi && Bounds(old(cat), b.suffix) == [Some(Range(b.lo, b.hi)), Some(Range(b.lo, b.hi)), Some(Range(b.lo, b.hi))]
      ensures outcome == Refused <==>
        || b.lo >= b.hi
        || (Bounds(old(cat), b.suffix) != [None, None, None] && outcome != AlreadyApplied)
        || (Bounds(old(cat), b.suffix) == [None, None, None] && !AllOverflowFits(old(cat), b))
      ensures outcome == Done ==> Bounds(cat, b.suffix) == [Some(Range(b.lo, b.hi)), Some(Range(b.lo, b.hi)), Some(Range(b.lo, b.hi))]
      ensures outcome != Done ==> cat == old(cat)
    {
      ReadyMeans(cat, b);
      if b.lo >= b.hi { return Refused; }
      var bounds := [BoundOf(cat.blocks, b.suffix), BoundOf(cat.transactions, b.suffix), BoundOf(cat.observations, b.suffix)];
      if bounds[0].Some? || bounds[1].Some? || bounds[2].Some? {
        if bounds[0].None? || bounds[1].None? || bounds[2].None? { return Refused; }
        if bounds[0].value != Span(b) || bounds[1].value != Span(b) || bounds[2].value != Span(b) { return Refused; }
        return AlreadyApplied;
      }
      assert b.suffix != "default";
      if !Inside(cat.blocks["default"].rows, b) || !Inside(cat.transactions["default"].rows, b) || !Inside(cat.observations["default"].rows, b) {
        return Refused;
      }
      var begun := cat;
      var ok := RunStatements(b, faults);
      if !ok {
        cat := begun;
        return Failed;
      }
      RolloverConserves(begun, b);
      RolledOverHolds(begun.blocks, b, false);
      RolledOverHolds(begun.transactions, b, true);
      RolledOverHolds(begun.observations, b, true);
      return Done;
    }
  }
}
