/**
 * The height partitions of the three archive tables: what a well-formed hierarchy is, which DDL
 * statements change it, and the hierarchy the migration creates.
 *
 * A table is a map from partition name suffix to relation; a relation that is attached carries its
 * bound, one that is not (detached, or anything else that occupies the name) carries none.
 */
module Partitions {
  import opened Chunking
  import opened HistoryCodec

  datatype Row = Row(net: string, height: nat, hash: string, payload: string)
  datatype Bound = Range(lo: nat, hi: nat) | Default
  datatype Relation = Relation(rows: set<Row>, bound: Option<Bound>, fk: bool)

  type Table = map<string, Relation>

  datatype Catalog = Catalog(blocks: Table, transactions: Table, observations: Table)

  predicate Covers(b: Bound, h: nat) { b.Range? && b.lo <= h < b.hi }

  function BoundOf(t: Table, name: string): Option<Bound> { if name in t then t[name].bound else None }

  predicate IsRange(t: Table, name: string) { BoundOf(t, name).Some? && BoundOf(t, name).value.Range? }

  predicate CoversIn(t: Table, name: string, h: nat) { IsRange(t, name) && Covers(t[name].bound.value, h) }

  predicate Overlap(a: Bound, b: Bound) { a.Range? && b.Range? && a.lo < b.hi && b.lo < a.hi }

  ghost predicate RangesDisjoint(t: Table) {
    && (forall n :: IsRange(t, n) ==> t[n].bound.value.lo < t[n].bound.value.hi)
    && (forall m, n :: IsRange(t, m) && IsRange(t, n) && m != n ==> !Overlap(t[m].bound.value, t[n].bound.value))
  }

  /** Every attached row is where the router would put it. */
  ghost predicate Routed(t: Table) {
    forall n, r :: n in t && t[n].bound.Some? && r in t[n].rows ==> Selects(t, n, r.height)
  }

  ghost predicate Selects(t: Table, name: string, h: nat)
    requires name in t && t[name].bound.Some?
  {
    match t[name].bound.value
    case Range(lo, hi) => lo <= h < hi
    case Default => forall n :: n in t ==> !CoversIn(t, n, h)
  }

  ghost predicate HasDefault(t: Table) {
    BoundOf(t, "default") == Some(Default) && forall n :: BoundOf(t, n) == Some(Default) ==> n == "default"
  }

  /** Attached partitions of a referencing table carry the foreign key; detached ones do not. */
  ghost predicate KeysLinked(t: Table, child: bool) {
    forall n :: n in t ==> t[n].fk == (child && t[n].bound.Some?)
  }

  ghost predicate TableOk(t: Table, child: bool) {
    RangesDisjoint(t) && HasDefault(t) && Routed(t) && KeysLinked(t, child)
  }

  /** The rows a query on the partitioned table sees. */
  function Contents(t: Table): set<Row> {
    set n, r | n in t && t[n].bound.Some? && r in t[n].rows :: r
  }

  predicate Refers(child: Row, block: Row) {
    child.net == block.net && child.height == block.height && child.hash == block.hash
  }

  predicate Resolves(child: Row, blocks: set<Row>) { exists b :: b in blocks && Refers(child, b) }

  ghost predicate Referential(child: Table, blocks: Table) {
    forall r :: r in Contents(child) ==> Resolves(r, Contents(blocks))
  }

  /** The three tables are cut at the same heights. */
  ghost predicate Aligned(a: Table, b: Table) { forall n :: BoundOf(a, n) == BoundOf(b, n) }

  ghost predicate WellFormed(c: Catalog) {
    && TableOk(c.blocks, false) && TableOk(c.transactions, true) && TableOk(c.observations, true)
    && Referential(c.transactions, c.blocks) && Referential(c.observations, c.blocks)
    && Aligned(c.blocks, c.transactions) && Aligned(c.blocks, c.observations)
  }

  /** In a well-formed table a height selects one partition and no other. */
  lemma RoutingIsUnique(t: Table, child: bool, m: string, n: string, h: nat)
    requires TableOk(t, child) && m in t && n in t && t[m].bound.Some? && t[n].bound.Some?
    requires Selects(t, m, h) && Selects(t, n, h)
    ensures m == n
  {
    if IsRange(t, m) {
      assert CoversIn(t, m, h);
    } else if IsRange(t, n) {
      assert CoversIn(t, n, h);
    } else {
      assert BoundOf(t, m) == Some(Default) && BoundOf(t, n) == Some(Default);
    }
  }

  // ----- the partitions the migration creates ---------------------------------------------------

  const PARTITION_SIZE: nat := 1_000_000
  const PRECREATED: nat := 5

  function PartitionName(i: nat): string { "p" + Digits(i) }

  lemma PartitionNamesDiffer(i: nat, j: nat)
    requires PartitionName(i) == PartitionName(j)
    ensures i == j
  {
    assert PartitionName(i)[1..] == Digits(i) && PartitionName(j)[1..] == Digits(j);
    DigitsRead(i);
    DigitsRead(j);
  }

  /** Partition i, empty. */
  function Bucketed(child: bool, i: nat): Relation {
    Relation({}, Some(Range(i * PARTITION_SIZE, (i + 1) * PARTITION_SIZE)), child)
  }

  ghost predicate NamedBelow(name: string, n: nat) { exists i :: 0 <= i < n && name == PartitionName(i) }

  /** The first n bounded partitions, empty. */
  ghost predicate Precreated(t: Table, child: bool, n: nat) {
    && (forall i :: 0 <= i < n ==> PartitionName(i) in t)
    && (forall name :: name in t ==> NamedBelow(name, n))
    && (forall i :: 0 <= i < n && PartitionName(i) in t ==>
          t[PartitionName(i)] == Bucketed(child, i))
  }

  function Bounded(child: bool, n: nat): Table {
    if n == 0 then map[]
    else Bounded(child, n - 1)[PartitionName(n - 1) := Bucketed(child, n - 1)]
  }

  /** p0 to p4 with their bounds, and DEFAULT. */
  function Migrated(child: bool): Table { Bounded(child, PRECREATED)["default" := Relation({}, Some(Default), child)] }

  /** createHeightPartitions: the partitions p0 to p4 and DEFAULT, a well-formed empty table whose bounded
      partitions cover exactly the heights below 5,000,000. */
  method CreateHeightPartitions(child: bool) returns (t: Table)
    ensures t == Migrated(child) && TableOk(t, child) && Contents(t) == {}
    ensures forall h: nat :: InSomeRange(t, h) <==> h < 5_000_000
    ensures t.Keys == {"p0", "p1", "p2", "p3", "p4", "default"} && t["default"].bound == Some(Default)
    ensures t["p0"].bound == Some(Range(0, 1_000_000)) && t["p1"].bound == Some(Range(1_000_000, 2_000_000))
    ensures t["p2"].bound == Some(Range(2_000_000, 3_000_000)) && t["p3"].bound == Some(Range(3_000_000, 4_000_000))
    ensures t["p4"].bound == Some(Range(4_000_000, 5_000_000))
  {
    t := map[];
    for i := 0 to PRECREATED
      invariant t == Bounded(child, i)
    {
      t := t[PartitionName(i) := Bucketed(child, i)];
    }
    BoundedIsPrecreated(child, PRECREATED);
    PrecreatedIsOk(t, child);
    FiveNames(t, child);
    t := t["default" := Relation({}, Some(Default), child)];
  }

  lemma FiveNames(t: Table, child: bool)
    requires Precreated(t, child, PRECREATED)
    ensures t.Keys == {"p0", "p1", "p2", "p3", "p4"}
    ensures t["p0"] == Bucketed(child, 0) && t["p1"] == Bucketed(child, 1) && t["p2"] == Bucketed(child, 2)
    ensures t["p3"] == Bucketed(child, 3) && t["p4"] == Bucketed(child, 4)
  {
    assert PartitionName(0) == "p0" && PartitionName(1) == "p1" && PartitionName(2) == "p2";
    assert PartitionName(3) == "p3" && PartitionName(4) == "p4";
    forall name | name in t ensures name in {"p0", "p1", "p2", "p3", "p4"} {
      assert NamedBelow(name, PRECREATED);
    }
  }

  lemma {:induction false} BoundedIsPrecreated(child: bool, n: nat)
    ensures Precreated(Bounded(child, n), child, n)
  {
    if n > 0 {
      BoundedIsPrecreated(child, n - 1);
      PrecreatedGrows(Bounded(child, n - 1), child, n - 1);
    }
  }

  lemma {:induction false} BoundedAligns(n: nat, name: string)
    ensures BoundOf(Bounded(false, n), name) == BoundOf(Bounded(true, n), name)
  {
    if n > 0 { BoundedAligns(n - 1, name); }
  }

  function MigratedCatalog(): Catalog { Catalog(Migrated(false), Migrated(true), Migrated(true)) }

  /** What the migration creates is where a rollover may start. */
  lemma MigratedIsWellFormed()
    ensures WellFormed(MigratedCatalog())
  {
    MigratedIsOk(false);
    MigratedIsOk(true);
    MigratedAligns();
  }

  lemma MigratedIsOk(child: bool)
    ensures TableOk(Migrated(child), child) && Contents(Migrated(child)) == {}
  {
    BoundedIsPrecreated(child, PRECREATED);
    PrecreatedIsOk(Bounded(child, PRECREATED), child);
  }

  lemma MigratedAligns()
    ensures Aligned(Migrated(false), Migrated(true))
  {
    forall n ensures BoundOf(Migrated(false), n) == BoundOf(Migrated(true), n) { BoundedAligns(PRECREATED, n); }
  }

  lemma PrecreatedGrows(t: Table, child: bool, n: nat)
    requires Precreated(t, child, n)
    ensures Precreated(t[PartitionName(n) := Bucketed(child, n)], child, n + 1)
  {
    var t' := t[PartitionName(n) := Bucketed(child, n)];
    forall i | 0 <= i < n ensures PartitionName(i) != PartitionName(n) {
      if PartitionName(i) == PartitionName(n) { PartitionNamesDiffer(i, n); }
    }
    forall name | name in t' ensures NamedBelow(name, n + 1) {
      if name in t { assert NamedBelow(name, n); }
    }
  }

  predicate InSomeRange(t: Table, h: nat) { exists n :: n in t && CoversIn(t, n, h) }

  lemma PrecreatedCovers(t: Table, child: bool, full: Table, h: nat)
    requires Precreated(t, child, PRECREATED) && full == t["default" := Relation({}, Some(Default), child)]
    ensures InSomeRange(full, h) <==> h < PRECREATED * PARTITION_SIZE
  {
    if h < PRECREATED * PARTITION_SIZE {
      var i := h / PARTITION_SIZE;
      assert PartitionName(i)[0] == 'p';
      assert CoversIn(full, PartitionName(i), h);
    }
    if InSomeRange(full, h) {
      var n :| n in full && CoversIn(full, n, h);
      assert NamedBelow(n, PRECREATED);
      var i :| 0 <= i < PRECREATED && n == PartitionName(i);
    }
  }

  lemma PrecreatedIsOk(t: Table, child: bool)
    requires Precreated(t, child, PRECREATED)
    ensures var full := t["default" := Relation({}, Some(Default), child)];
      && TableOk(full, child) && Contents(full) == {}
      && forall h: nat :: InSomeRange(full, h) <==> h < PRECREATED * PARTITION_SIZE
  {
    var full := t["default" := Relation({}, Some(Default), child)];
    forall n | n in t ensures n != "default" && t[n].bound.Some? && t[n].bound.value.Range? && t[n].rows == {} {
      assert NamedBelow(n, PRECREATED);
      var i :| 0 <= i < PRECREATED && n == PartitionName(i);
      assert n[0] == 'p';
    }
    forall m, n | IsRange(full, m) && IsRange(full, n) && m != n ensures !Overlap(full[m].bound.value, full[n].bound.value) {
      assert NamedBelow(m, PRECREATED) && NamedBelow(n, PRECREATED);
      var i :| 0 <= i < PRECREATED && m == PartitionName(i);
      var j :| 0 <= j < PRECREATED && n == PartitionName(j);
      assert i != j;
    }
    forall h: nat ensures InSomeRange(full, h) <==> h < PRECREATED * PARTITION_SIZE {
      PrecreatedCovers(t, child, full, h);
    }
  }
}
