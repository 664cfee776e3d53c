/**
 The tablet store: tables of tablets placed on a consistent hashing ring, and the
 request that checks or updates several tablets at once, all or none.
 */
module TabletStore {
  import opened Wrappers

  // ----- The ring -----

  const RING_SIZE := 0x1_0000_0000

  type Hash = h: int | 0 <= h < RING_SIZE

  const HASH_MAX: Hash := 0xFFFF_FFFF

  /** `blob` stands for the blob address, whose hash is taken to be injective, so
      that metadata name the contents they were stored with. */
  datatype TabletMetadata = TabletMetadata(tabletId: Hash, tabletVersion: nat, blob: Bytes)

  type Table = map<Hash, TabletMetadata>

  type Tables = map<string, Table>

  /** Every tablet is filed under its own id. */
  ghost predicate WellKeyed(table: Table) {
    forall id | id in table :: table[id].tabletId == id
  }

  ghost predicate IsLeast(ids: set<Hash>, m: Hash) {
    m in ids && forall y | y in ids :: m <= y
  }

  lemma {:induction false} LeastExists(ids: set<Hash>) returns (m: Hash)
    requires ids != {}
    ensures IsLeast(ids, m)
  {
    m :| m in ids;
    var rest := ids - {m};
    assert forall y | y in ids :: y == m || y in rest;
    if rest != {} {
      var other := LeastExists(rest);
      m := if m <= other then m else other;
    }
  }

  /** The first id at or above `h`, as the first item of an ordered map's range. */
  function Successor(ids: set<Hash>, h: int): (r: Option<Hash>)
    ensures r.None? ==> forall k | k in ids :: k < h
    ensures r.Some? ==> r.value in ids && r.value >= h
    ensures r.Some? ==> forall k | k in ids && k >= h :: r.value <= k
  {
    var above := set k | k in ids && k >= h;
    assert forall k | k in ids :: k < h || k in above;
    if above == {} then
      None
    else
      assert exists m :: IsLeast(above, m) by { var m := LeastExists(above); }
      var m :| m in above && forall y | y in above :: m <= y;
      Some(m)
  }

  /** The tablet responsible for a hash: the next one clockwise, wrapping at zero. */
  ghost function Owner(ids: set<Hash>, h: Hash): Option<Hash> {
    if Successor(ids, h).Some? then Successor(ids, h) else Successor(ids, 0)
  }

  /** Both ends are included; equal ends mean the whole ring. */
  ghost predicate InRange(from: Hash, to: Hash, h: Hash) {
    if from < to then from <= h <= to else h >= from || h <= to
  }

  /** How far clockwise from `from` an id lies. */
  function Clockwise(from: Hash, id: Hash): int {
    if id >= from then id - from else id + RING_SIZE - from
  }

  ghost predicate OwnsSome(ids: set<Hash>, from: Hash, to: Hash, id: Hash) {
    exists h: Hash :: InRange(from, to, h) && Owner(ids, h) == Some(id)
  }

  ghost function OwnersIn(ids: set<Hash>, from: Hash, to: Hash): set<Hash> {
    set id | id in ids && OwnsSome(ids, from, to, id)
  }

  /** `listed` are exactly the tablets with the given ids, nearest clockwise first. */
  ghost predicate ListsClockwise(table: Table, ids: set<Hash>, from: Hash, listed: seq<TabletMetadata>) {
    && (forall i | 0 <= i < |listed| :: listed[i].tabletId in ids && listed[i].tabletId in table
                                        && listed[i] == table[listed[i].tabletId])
    && (forall id | id in ids :: exists i :: 0 <= i < |listed| && listed[i].tabletId == id)
    && (forall i, j | 0 <= i < j < |listed| ::
          Clockwise(from, listed[i].tabletId) < Clockwise(from, listed[j].tabletId))
  }

  /** A listing is determined by the table and the range. */
  lemma {:induction false} ListingUnique(
    table: Table, ids: set<Hash>, from: Hash, a: seq<TabletMetadata>, b: seq<TabletMetadata>)
    requires ListsClockwise(table, ids, from, a) && ListsClockwise(table, ids, from, b)
    ensures a == b
  {
    assert a != [] ==> a[0].tabletId in ids;
    assert b != [] ==> b[0].tabletId in ids;
    if a != [] && b != [] {
      ListingHead(table, ids, from, a, b);
      ListingTail(table, ids, from, a);
      ListingTail(table, ids, from, b);
      ListingUnique(table, ids - {a[0].tabletId}, from, a[1..], b[1..]);
      assert a == [a[0]] + a[1..] && b == [b[0]] + b[1..];
    }
  }

  lemma ListingHead(table: Table, ids: set<Hash>, from: Hash, a: seq<TabletMetadata>, b: seq<TabletMetadata>)
    requires a != [] && ListsClockwise(table, ids, from, a)
    requires b != [] && ListsClockwise(table, ids, from, b)
    ensures a[0] == b[0]
  {
    var i :| 0 <= i < |b| && b[i].tabletId == a[0].tabletId;
    var j :| 0 <= j < |a| && a[j].tabletId == b[0].tabletId;
    assert Clockwise(from, b[0].tabletId) <= Clockwise(from, a[0].tabletId);
    assert Clockwise(from, a[0].tabletId) <= Clockwise(from, b[0].tabletId);
  }

  lemma ListingTail(table: Table, ids: set<Hash>, from: Hash, a: seq<TabletMetadata>)
    requires a != [] && ListsClockwise(table, ids, from, a)
    ensures ListsClockwise(table, ids - {a[0].tabletId}, from, a[1..])
  {
    forall id | id in ids - {a[0].tabletId}
      ensures exists i :: 0 <= i < |a[1..]| && a[1..][i].tabletId == id
    {
      var i :| 0 <= i < |a| && a[i].tabletId == id;
      assert a[1..][i - 1].tabletId == id;
    }
  }

  /**
   Lists the tablets responsible for a circular range of hashes. A range that wraps
   is split into two; a range whose last hash lies beyond the last tablet also needs
   the first tablet of the ring.
   */
  method FindTablets(table: Table, from: Hash, to: Hash) returns (listed: seq<TabletMetadata>)
    requires WellKeyed(table)
    ensures ListsClockwise(table, OwnersIn(table.Keys, from, to), from, listed)
  {
    var seen: set<Hash>;
    if from < to {
      seen, listed := ListInterval(table, from, from, to, {}, []);
      OwnersOfStraightRange(table.Keys, from, to);
    } else {
      seen, listed := ListInterval(table, from, from, HASH_MAX, {}, []);
      seen, listed := ListInterval(table, from, 0, to, seen, listed);
      OwnersOfWrappedRange(table.Keys, from, to);
    }
  }

  /** The tablets already listed: no one missing, none twice, in clockwise order. */
  ghost predicate Listed(table: Table, origin: Hash, seen: set<Hash>, listed: seq<TabletMetadata>) {
    seen <= table.Keys && ListsClockwise(table, seen, origin, listed)
  }

  lemma ListedPush(table: Table, origin: Hash, seen: set<Hash>, listed: seq<TabletMetadata>, id: Hash)
    requires WellKeyed(table) && Listed(table, origin, seen, listed)
    requires id in table && id !in seen
    requires forall k | k in seen :: Clockwise(origin, k) < Clockwise(origin, id)
    ensures Listed(table, origin, seen + {id}, listed + [table[id]])
  {
    var after := listed + [table[id]];
    forall k | k in seen + {id} ensures exists i :: 0 <= i < |after| && after[i].tabletId == k {
      if k == id {
        assert after[|listed|].tabletId == k;
      } else {
        var i :| 0 <= i < |listed| && listed[i].tabletId == k;
        assert after[i].tabletId == k;
      }
    }
  }

  /** Ids responsible for hashes between two ordered ends. */
  ghost function IntervalOwners(ids: set<Hash>, lo: Hash, hi: Hash): set<Hash>
    requires lo <= hi
  {
    set id | id in ids && exists h: Hash :: lo <= h <= hi && Owner(ids, h) == Some(id)
  }

  /**
   One interval of `FindTablets`: adds its owners to those seen before. The interval
   starts at the origin of the listing, or at zero once everything at or above the
   origin and the first tablet of the ring were listed.
   */
  method ListInterval(
    table: Table, origin: Hash, lo: Hash, hi: Hash, seen0: set<Hash>, listed0: seq<TabletMetadata>)
    returns (seen: set<Hash>, listed: seq<TabletMetadata>)
    requires WellKeyed(table) && lo <= hi && Listed(table, origin, seen0, listed0)
    requires (lo == origin && seen0 == {}) || (lo == 0 && seen0 == IntervalOwners(table.Keys, origin, HASH_MAX))
    ensures Listed(table, origin, seen, listed)
    ensures seen == seen0 + IntervalOwners(table.Keys, lo, hi)
  {
    seen, listed := seen0, listed0;
    var foundLast := false;
    var next: Option<Hash> := Successor(table.Keys, lo);
    assert Between(table.Keys, lo, Bound(next)) == {};
    while next.Some? && !foundLast
      invariant Listed(table, origin, seen, listed)
      invariant next.Some? ==> next.value in table && next.value >= lo
      invariant !foundLast ==> seen == seen0 + Between(table.Keys, lo, Bound(next))
      invariant !foundLast ==> forall k | k in Between(table.Keys, lo, Bound(next)) :: k < hi
      invariant foundLast ==> seen == seen0 + IntervalOwners(table.Keys, lo, hi)
      decreases !foundLast, RING_SIZE - Bound(next)
    {
      var id: Hash := next.value;
      if id !in seen {
        NextIsFurther(table.Keys, origin, lo, seen0, seen, id);
        ListedPush(table, origin, seen, listed, id);
        seen, listed := seen + {id}, listed + [table[id]];
      }
      BetweenStep(table.Keys, lo, id);
      if id >= hi {
        foundLast := true;
        OwnersUpTo(table.Keys, lo, hi, id);
      } else {
        next := Successor(table.Keys, id + 1);
      }
    }
    if !foundLast {
      var first := Successor(table.Keys, 0);
      if first.Some? && first.value !in seen {
        WrapIsFurther(table.Keys, origin, lo, seen0, seen, first.value);
        ListedPush(table, origin, seen, listed, first.value);
        seen, listed := seen + {first.value}, listed + [table[first.value]];
      }
      OwnersPastEnd(table.Keys, lo, hi);
    }
  }

  /** Ids from `lo` up to but not including `hi`. */
  ghost function Between(ids: set<Hash>, lo: int, hi: int): set<Hash> {
    set k | k in ids && lo <= k < hi
  }

  ghost function Bound(next: Option<Hash>): int {
    if next.Some? then next.value else RING_SIZE
  }

  lemma BetweenStep(ids: set<Hash>, lo: Hash, id: Hash)
    requires id in ids && lo <= id
    ensures Between(ids, lo, id + 1) == Between(ids, lo, id) + {id}
    ensures Between(ids, lo, Bound(Successor(ids, id + 1))) == Between(ids, lo, id) + {id}
    ensures Bound(Successor(ids, id + 1)) > id
  {
  }

  lemma NextIsFurther(ids: set<Hash>, origin: Hash, lo: Hash, seen0: set<Hash>, seen: set<Hash>, id: Hash)
    requires id in ids && id >= lo && id !in seen
    requires (lo == origin && seen0 == {}) || (lo == 0 && seen0 == IntervalOwners(ids, origin, HASH_MAX))
    requires seen == seen0 + Between(ids, lo, id)
    ensures forall k | k in seen :: Clockwise(origin, k) < Clockwise(origin, id)
  {
    if !(lo == origin && seen0 == {}) {
      OwnersAboveOrigin(ids, origin);
    }
  }

  /** After an interval that runs to the top of the ring, nothing at or above its start is left. */
  lemma OwnersAboveOrigin(ids: set<Hash>, origin: Hash)
    ensures forall k | k in ids && k >= origin :: k in IntervalOwners(ids, origin, HASH_MAX)
    ensures forall k | k in IntervalOwners(ids, origin, HASH_MAX) ::
              k >= origin || (forall j | j in ids :: k <= j)
  {
    forall k | k in ids && k >= origin ensures k in IntervalOwners(ids, origin, HASH_MAX) {
      assert Owner(ids, k) == Some(k);
    }
    forall k | k in IntervalOwners(ids, origin, HASH_MAX)
      ensures k >= origin || (forall j | j in ids :: k <= j)
    {
      var h: Hash :| origin <= h <= HASH_MAX && Owner(ids, h) == Some(k);
    }
  }

  lemma WrapIsFurther(ids: set<Hash>, origin: Hash, lo: Hash, seen0: set<Hash>, seen: set<Hash>, first: Hash)
    requires Successor(ids, 0) == Some(first) && first !in seen
    requires (lo == origin && seen0 == {}) || (lo == 0 && seen0 == IntervalOwners(ids, origin, HASH_MAX))
    requires seen == seen0 + Between(ids, lo, RING_SIZE)
    ensures forall k | k in seen :: Clockwise(origin, k) < Clockwise(origin, first)
  {
    assert first < lo by { assert first in Between(ids, lo, RING_SIZE) <==> lo <= first; }
  }

  /** When the interval ends at or below a tablet, its owners are the tablets up to that one. */
  lemma OwnersUpTo(ids: set<Hash>, lo: Hash, hi: Hash, last: Hash)
    requires lo <= hi <= last && last in ids
    requires forall k | k in Between(ids, lo, last) :: k < hi
    ensures IntervalOwners(ids, lo, hi) == Between(ids, lo, last + 1)
  {
    assert forall k | k in ids && hi <= k :: last <= k || k in Between(ids, lo, last);
    forall k | k in Between(ids, lo, last + 1) ensures k in IntervalOwners(ids, lo, hi) {
      var h: Hash := if k < last then k else hi;
      assert k < last ==> k in Between(ids, lo, last);
      assert Owner(ids, h) == Some(k);
    }
    forall k | k in IntervalOwners(ids, lo, hi) ensures lo <= k <= last {
      var h: Hash :| lo <= h <= hi && Owner(ids, h) == Some(k);
    }
  }

  /** Otherwise they are all the tablets from `lo` on, and the first of the ring. */
  lemma OwnersPastEnd(ids: set<Hash>, lo: Hash, hi: Hash)
    requires lo <= hi
    requires forall k | k in Between(ids, lo, RING_SIZE) :: k < hi
    ensures IntervalOwners(ids, lo, hi) ==
            Between(ids, lo, RING_SIZE) + (var first := Successor(ids, 0); if first.Some? then {first.value} else {})
  {
    assert forall k | k in ids && lo <= k :: k in Between(ids, lo, RING_SIZE);
    forall k | k in Between(ids, lo, RING_SIZE) ensures k in IntervalOwners(ids, lo, hi) {
      assert Owner(ids, k) == Some(k);
    }
    if ids != {} {
      assert Owner(ids, hi) == Successor(ids, 0);
    }
    forall k | k in IntervalOwners(ids, lo, hi)
      ensures k in Between(ids, lo, RING_SIZE) || Some(k) == Successor(ids, 0)
    {
      var h: Hash :| lo <= h <= hi && Owner(ids, h) == Some(k);
    }
  }

  lemma OwnersOfStraightRange(ids: set<Hash>, from: Hash, to: Hash)
    requires from < to
    ensures OwnersIn(ids, from, to) == IntervalOwners(ids, from, to)
  {
    forall id | id in ids ensures id in OwnersIn(ids, from, to) <==> id in IntervalOwners(ids, from, to) {
      if OwnsSome(ids, from, to, id) {
        var h: Hash :| InRange(from, to, h) && Owner(ids, h) == Some(id);
        assert from <= h <= to;
      }
      if h: Hash :| from <= h <= to && Owner(ids, h) == Some(id) {
        assert InRange(from, to, h);
      }
    }
  }

  lemma OwnersOfWrappedRange(ids: set<Hash>, from: Hash, to: Hash)
    requires from >= to
    ensures OwnersIn(ids, from, to) == IntervalOwners(ids, from, HASH_MAX) + IntervalOwners(ids, 0, to)
  {
    forall id | id in ids
      ensures id in OwnersIn(ids, from, to) <==>
              id in IntervalOwners(ids, from, HASH_MAX) + IntervalOwners(ids, 0, to)
    {
      if OwnsSome(ids, from, to, id) {
        var h: Hash :| InRange(from, to, h) && Owner(ids, h) == Some(id);
        assert from <= h <= HASH_MAX || 0 <= h <= to;
      }
      if h: Hash :| from <= h <= HASH_MAX && Owner(ids, h) == Some(id) {
        assert InRange(from, to, h);
      }
      if h: Hash :| 0 <= h <= to && Owner(ids, h) == Some(id) {
        assert InRange(from, to, h);
      }
    }
  }

  // ----- Requests -----

  datatype Op =
    | ListTablet(keyHashFrom: Hash, keyHashTo: Hash)
    | CheckTablet(tabletId: Hash, tabletVersion: nat)
    | UpdateTablet(metadata: Option<TabletMetadata>)

  datatype TabletOp = TabletOp(tableName: string, op: Option<Op>)

  datatype OpStatus = Succeeded | Failed | Invalid

  datatype OpResult =
    | ListResult(keyHashFrom: Hash, keyHashTo: Hash, tablets: seq<TabletMetadata>)
    | CheckResult(existing: Option<TabletMetadata>)
    | UpdateResult(existing: Option<TabletMetadata>)

  datatype TabletOpResult = TabletOpResult(tableName: string, status: OpStatus, opResult: Option<OpResult>)

  ghost predicate ValidTables(tables: Tables) {
    forall t | t in tables :: WellKeyed(tables[t])
  }

  ghost predicate HasTablet(tables: Tables, t: string, id: Hash) {
    t in tables && id in tables[t]
  }

  /** The condition an op puts on the state it is prepared against. */
  ghost predicate OpHolds(tables: Tables, op: TabletOp) {
    op.op.Some? && op.tableName in tables &&
    match op.op.value
    case ListTablet(_, _) => true
    case CheckTablet(id, version) =>
      id in tables[op.tableName] && tables[op.tableName][id].tabletVersion == version
    case UpdateTablet(m) =>
      m.Some? && m.value.tabletId in tables[op.tableName] &&
      m.value.tabletVersion == tables[op.tableName][m.value.tabletId].tabletVersion + 1
  }

  ghost predicate AllHold(tables: Tables, ops: seq<TabletOp>) {
    forall i | 0 <= i < |ops| :: OpHolds(tables, ops[i])
  }

  /** What preparing an op answers, for every state and op. */
  ghost predicate Prepared(tables: Tables, op: TabletOp, r: TabletOpResult) {
    && r.tableName == op.tableName
    && (r.status == Succeeded <==> OpHolds(tables, op))
    && if op.op.None? || op.tableName !in tables then
         r.status == Invalid && r.opResult.None?
       else
         var table := tables[op.tableName];
         r.status != Invalid && r.opResult.Some? &&
         match op.op.value
         case ListTablet(from, to) =>
           r.opResult.value.ListResult? &&
           r.opResult.value.keyHashFrom == from && r.opResult.value.keyHashTo == to &&
           ListsClockwise(table, OwnersIn(table.Keys, from, to), from, r.opResult.value.tablets)
         case CheckTablet(id, _) =>
           r.opResult.value ==
           CheckResult(if id in table && r.status == Failed then Some(table[id]) else None)
         case UpdateTablet(m) =>
           r.opResult.value ==
           UpdateResult(if m.Some? && m.value.tabletId in table then Some(table[m.value.tabletId]) else None)
  }

  /** Whether an op replaces the metadata of a tablet. */
  predicate Updates(op: TabletOp, t: string, id: Hash) {
    op.tableName == t && op.op.Some? && op.op.value.UpdateTablet? &&
    op.op.value.metadata.Some? && op.op.value.metadata.value.tabletId == id
  }

  predicate Committable(tables: Tables, op: TabletOp) {
    op.op.Some? && op.tableName in tables && (op.op.value.UpdateTablet? ==> op.op.value.metadata.Some?)
  }

  function CommitOp(tables: Tables, op: TabletOp): Tables
    requires Committable(tables, op)
  {
    match op.op.value
    case UpdateTablet(m) =>
      var id: Hash := m.value.tabletId;
      var table: Table := tables[op.tableName][id := m.value];
      tables[op.tableName := table]
    case _ => tables
  }

  function CommitOps(tables: Tables, ops: seq<TabletOp>): (r: Tables)
    requires forall i | 0 <= i < |ops| :: Committable(tables, ops[i])
    ensures r.Keys == tables.Keys
  {
    if ops == [] then tables
    else
      assert Committable(tables, ops[|ops| - 1]);
      CommitOp(CommitOps(tables, ops[..|ops| - 1]), ops[|ops| - 1])
  }

  /** The state after a request: every op committed, or nothing changed. */
  ghost function Applied(tables: Tables, ops: seq<TabletOp>): Tables {
    if AllHold(tables, ops) then CommitOps(tables, ops) else tables
  }

  /** The metadata left in a tablet by the last op that updates it. */
  ghost function LastUpdate(ops: seq<TabletOp>, t: string, id: Hash): Option<TabletMetadata> {
    if ops == [] then None
    else if Updates(ops[|ops| - 1], t, id) then ops[|ops| - 1].op.value.metadata
    else LastUpdate(ops[..|ops| - 1], t, id)
  }

  lemma {:induction false} LastUpdateIsAnUpdate(ops: seq<TabletOp>, t: string, id: Hash)
    ensures LastUpdate(ops, t, id).Some? ==>
              exists i :: 0 <= i < |ops| && Updates(ops[i], t, id) && ops[i].op.value.metadata == LastUpdate(ops, t, id)
    ensures LastUpdate(ops, t, id).None? ==> forall i | 0 <= i < |ops| :: !Updates(ops[i], t, id)
  {
    if ops != [] && !Updates(ops[|ops| - 1], t, id) {
      LastUpdateIsAnUpdate(ops[..|ops| - 1], t, id);
      assert forall i | 0 <= i < |ops| - 1 :: ops[..|ops| - 1][i] == ops[i];
    }
  }

  lemma {:induction false} CommitOpsMeaning(tables: Tables, ops: seq<TabletOp>, t: string, id: Hash)
    requires forall i | 0 <= i < |ops| :: Committable(tables, ops[i])
    requires t in tables
    ensures var u := LastUpdate(ops, t, id);
            var after := CommitOps(tables, ops)[t];
            if u.Some? then id in after && after[id] == u.value
            else (id in after <==> id in tables[t]) && (id in after ==> after[id] == tables[t][id])
  {
    if ops != [] {
      CommitOpsMeaning(tables, ops[..|ops| - 1], t, id);
    }
  }

  /**
   A request that fails changes nothing. One that succeeds adds no tablet, removes
   none, raises the version of every tablet it updates by exactly one, however many
   of its ops name it, and leaves every other tablet alone.
   */
  lemma RequestEffect(tables: Tables, ops: seq<TabletOp>, t: string, id: Hash)
    requires ValidTables(tables) && t in tables
    ensures Applied(tables, ops).Keys == tables.Keys && ValidTables(Applied(tables, ops))
    ensures !AllHold(tables, ops) ==> Applied(tables, ops) == tables
    ensures Applied(tables, ops)[t].Keys == tables[t].Keys
    ensures AllHold(tables, ops) && (exists i :: 0 <= i < |ops| && Updates(ops[i], t, id)) ==>
              && id in tables[t]
              && Applied(tables, ops)[t][id].tabletVersion == tables[t][id].tabletVersion + 1
              && LastUpdate(ops, t, id) == Some(Applied(tables, ops)[t][id])
    ensures id in tables[t] && !(AllHold(tables, ops) && exists i :: 0 <= i < |ops| && Updates(ops[i], t, id)) ==>
              Applied(tables, ops)[t][id] == tables[t][id]
  {
    if AllHold(tables, ops) {
      forall t', id' | t' in tables
        ensures id' in Applied(tables, ops)[t'] <==> id' in tables[t']
        ensures id' in tables[t'] ==> Applied(tables, ops)[t'][id'].tabletId == id'
        ensures var u := LastUpdate(ops, t', id');
                if u.Some? then id' in tables[t'] && Applied(tables, ops)[t'][id'] == u.value
                                && u.value.tabletVersion == tables[t'][id'].tabletVersion + 1
                else id' in tables[t'] ==> Applied(tables, ops)[t'][id'] == tables[t'][id']
      {
        CommitOpsMeaning(tables, ops, t', id');
        LastUpdateIsAnUpdate(ops, t', id');
      }
      LastUpdateIsAnUpdate(ops, t, id);
      assert forall t' | t' in tables :: Applied(tables, ops)[t'].Keys == tables[t'].Keys;
    }
  }

  // ----- Whole runs -----

  /** The state after the first requests of a run. */
  ghost function RunStore(tables: Tables, requests: seq<seq<TabletOp>>): Tables {
    if requests == [] then tables
    else Applied(RunStore(tables, requests[..|requests| - 1]), requests[|requests| - 1])
  }

  ghost function Version(tables: Tables, t: string, id: Hash): nat {
    if HasTablet(tables, t, id) then tables[t][id].tabletVersion else 0
  }

  /** A request commits a version of a tablet when it succeeds and an op of it writes that version. */
  ghost predicate Commits(tables: Tables, ops: seq<TabletOp>, t: string, id: Hash, version: nat) {
    AllHold(tables, ops) &&
    exists i :: 0 <= i < |ops| && Updates(ops[i], t, id) && ops[i].op.value.metadata.value.tabletVersion == version
  }

  /** In every run the tablets, and so the owner of every hash, stay the same, and versions only grow. */
  lemma {:induction false} RunKeepsTablets(tables: Tables, requests: seq<seq<TabletOp>>, t: string, id: Hash)
    requires ValidTables(tables) && t in tables
    ensures var after := RunStore(tables, requests);
            && ValidTables(after) && after.Keys == tables.Keys && after[t].Keys == tables[t].Keys
            && (forall h: Hash :: Owner(after[t].Keys, h) == Owner(tables[t].Keys, h))
            && Version(after, t, id) >= Version(tables, t, id)
  {
    if requests != [] {
      var before := RunStore(tables, requests[..|requests| - 1]);
      RunKeepsTablets(tables, requests[..|requests| - 1], t, id);
      RequestEffect(before, requests[|requests| - 1], t, id);
    }
  }

  lemma {:induction false} RunSplit(tables: Tables, requests: seq<seq<TabletOp>>, i: nat)
    requires i <= |requests|
    ensures RunStore(tables, requests) == RunStore(RunStore(tables, requests[..i]), requests[i..])
  {
    if i == |requests| {
      assert requests[..i] == requests;
    } else {
      var n := |requests| - 1;
      RunSplit(tables, requests[..n], i);
      assert requests[..n][..i] == requests[..i] && requests[..n][i..] == requests[i..][..n - i];
    }
  }

  /** At most one request of a run ever commits a given version of a tablet. */
  lemma AtMostOneCommit(
    tables: Tables, requests: seq<seq<TabletOp>>, i: nat, j: nat, t: string, id: Hash, version: nat)
    requires ValidTables(tables) && t in tables
    requires i < |requests| && j < |requests|
    requires Commits(RunStore(tables, requests[..i]), requests[i], t, id, version)
    requires Commits(RunStore(tables, requests[..j]), requests[j], t, id, version)
    ensures i == j
  {
    if i < j {
      LaterCommitIsHigher(tables, requests, i, j, t, id, version);
    } else if j < i {
      LaterCommitIsHigher(tables, requests, j, i, t, id, version);
    }
  }

  lemma LaterCommitIsHigher(
    tables: Tables, requests: seq<seq<TabletOp>>, i: nat, j: nat, t: string, id: Hash, version: nat)
    requires ValidTables(tables) && t in tables
    requires i < j < |requests|
    requires Commits(RunStore(tables, requests[..i]), requests[i], t, id, version)
    ensures !Commits(RunStore(tables, requests[..j]), requests[j], t, id, version)
  {
    var atI, atJ := RunStore(tables, requests[..i]), RunStore(tables, requests[..j]);
    RunKeepsTablets(tables, requests[..i], t, id);
    RequestEffect(atI, requests[i], t, id);
    var next := Applied(atI, requests[i]);
    assert requests[..j][..i + 1] == requests[..i + 1] && requests[..i + 1][..i] == requests[..i];
    RunSplit(tables, requests[..j], i + 1);
    RunKeepsTablets(next, requests[..j][i + 1..], t, id);
  }

  // ----- Snapshots -----

  /** The saved tablets of each table, in the order of their ids. */
  type StoreSnapshot = map<string, seq<TabletMetadata>>

  function Listing(table: Table): seq<TabletMetadata>
    decreases table.Keys
  {
    var first := Successor(table.Keys, 0);
    if first.None? then [] else
      var rest: Table := table - {first.value};
      [table[first.value]] + Listing(rest)
  }

  function LoadInto(table: Table, tablets: seq<TabletMetadata>): Table
    decreases |tablets|
  {
    if tablets == [] then table
    else
      var id: Hash := tablets[0].tabletId;
      LoadInto(table[id := tablets[0]], tablets[1..])
  }

  ghost predicate OrderedById(tablets: seq<TabletMetadata>) {
    forall i, j | 0 <= i < j < |tablets| :: tablets[i].tabletId < tablets[j].tabletId
  }

  lemma {:induction false} ListingMembers(table: Table, m: TabletMetadata)
    requires WellKeyed(table)
    ensures m in Listing(table) <==> m.tabletId in table && table[m.tabletId] == m
    decreases table.Keys
  {
    var first := Successor(table.Keys, 0);
    if first.Some? {
      var rest: Table := table - {first.value};
      ListingMembers(rest, m);
    }
  }

  lemma {:induction false} ListingIsOrdered(table: Table)
    requires WellKeyed(table)
    ensures OrderedById(Listing(table))
    decreases table.Keys
  {
    var first := Successor(table.Keys, 0);
    if first.Some? {
      var rest: Table := table - {first.value};
      ListingIsOrdered(rest);
      forall m | m in Listing(rest) ensures first.value < m.tabletId {
        ListingMembers(rest, m);
      }
    }
  }

  lemma {:induction false} ListingLoads(table: Table, into: Table)
    requires WellKeyed(table)
    ensures LoadInto(into, Listing(table)) == into + table
    decreases table.Keys
  {
    var first := Successor(table.Keys, 0);
    if first.None? {
      assert table.Keys == {};
    } else {
      var id: Hash := first.value;
      var rest: Table := table - {id};
      ListingLoads(rest, into[id := table[id]]);
      assert Listing(table)[1..] == Listing(rest);
      assert into[id := table[id]] + rest == into + table;
    }
  }

  ghost function Saved(tables: Tables): StoreSnapshot {
    map t | t in tables :: Listing(tables[t])
  }

  ghost function LoadedTables(snapshot: StoreSnapshot, names: set<string>): Tables {
    map t | t in snapshot && t in names :: LoadInto(map[], snapshot[t])
  }

  /** Fails on a table that is not configured; clears the others it names before filling them. */
  ghost function Loaded(tables: Tables, snapshot: StoreSnapshot): Option<Tables> {
    if snapshot.Keys <= tables.Keys
    then Some(tables + LoadedTables(snapshot, snapshot.Keys))
    else None
  }

  lemma LoadedTablesAreSaved(saved: Tables)
    requires ValidTables(saved)
    ensures LoadedTables(Saved(saved), saved.Keys) == saved
  {
    forall t | t in saved ensures LoadInto(map[], Listing(saved[t])) == saved[t] {
      ListingLoads(saved[t], map[]);
      assert map[] + saved[t] == saved[t];
    }
  }

  lemma MergeIsExact(tables: Tables, saved: Tables)
    ensures tables + saved == saved <==> tables.Keys <= saved.Keys
  {
    assert (tables + saved).Keys == tables.Keys + saved.Keys;
  }

  /** A saved store is restored exactly where the same tables are configured, whatever they held. */
  lemma SaveThenLoad(saved: Tables, tables: Tables)
    requires ValidTables(saved)
    ensures Loaded(tables, Saved(saved)) == Some(saved) <==> tables.Keys == saved.Keys
  {
    assert Saved(saved).Keys == saved.Keys;
    LoadedTablesAreSaved(saved);
    MergeIsExact(tables, saved);
  }

  lemma LoadOneMore(tables: Tables, snapshot: StoreSnapshot, names: set<string>, t: string)
    requires t in snapshot
    ensures (tables + LoadedTables(snapshot, names))[t := LoadInto(map[], snapshot[t])] ==
            tables + LoadedTables(snapshot, names + {t})
  {
  }

  method SaveTable(table: Table) returns (tablets: seq<TabletMetadata>)
    ensures tablets == Listing(table)
  {
    tablets := [];
    var rest := table;
    while rest.Keys != {}
      invariant tablets + Listing(rest) == Listing(table)
      decreases rest.Keys
    {
      var first := Successor(rest.Keys, 0);
      tablets := tablets + [rest[first.value]];
      rest := rest - {first.value};
    }
  }

  method LoadTable(tablets: seq<TabletMetadata>) returns (table: Table)
    ensures table == LoadInto(map[], tablets)
  {
    table := map[];
    for i := 0 to |tablets|
      invariant LoadInto(table, tablets[i..]) == LoadInto(map[], tablets)
    {
      var id: Hash := tablets[i].tabletId;
      assert tablets[i..][1..] == tablets[i + 1..];
      table := table[id := tablets[i]];
    }
    assert tablets[|tablets|..] == [];
  }

  // ----- The actor -----

  class TabletStoreActor {
    var tables: Tables

    /** Configured tables start with the configured tablets at version zero. */
    constructor (config: map<string, set<Hash>>)
      ensures ValidTables(tables) && tables.Keys == config.Keys
      ensures forall t | t in config :: tables[t].Keys == config[t]
      ensures forall t, id | t in config && id in config[t] :: tables[t][id] == TabletMetadata(id, 0, [])
    {
      tables := map t | t in config :: map id | id in config[t] :: TabletMetadata(id, 0, []);
    }

    method PrepareTabletOp(op: TabletOp) returns (r: TabletOpResult)
      requires ValidTables(tables)
      ensures Prepared(tables, op, r)
    {
      if op.tableName !in tables || op.op.None? {
        return TabletOpResult(op.tableName, Invalid, None);
      }
      var table := tables[op.tableName];
      match op.op.value {
        case ListTablet(from, to) =>
          var listed := FindTablets(table, from, to);
          r := TabletOpResult(op.tableName, Succeeded, Some(ListResult(from, to, listed)));
        case CheckTablet(id, version) =>
          if id in table && table[id].tabletVersion == version {
            r := TabletOpResult(op.tableName, Succeeded, Some(CheckResult(None)));
          } else {
            r := TabletOpResult(op.tableName, Failed, Some(CheckResult(if id in table then Some(table[id]) else None)));
          }
        case UpdateTablet(m) =>
          var existing := if m.Some? && m.value.tabletId in table then Some(table[m.value.tabletId]) else None;
          var ok := existing.Some? && m.value.tabletVersion == existing.value.tabletVersion + 1;
          r := TabletOpResult(op.tableName, if ok then Succeeded else Failed, Some(UpdateResult(existing)));
      }
    }

    /** Prepares every op against one state, then commits all of them or none. */
    method ApplyTabletsRequest(ops: seq<TabletOp>) returns (succeeded: bool, results: seq<TabletOpResult>)
      requires ValidTables(tables)
      modifies this
      ensures ValidTables(tables) && tables == Applied(old(tables), ops)
      ensures succeeded <==> AllHold(old(tables), ops)
      ensures |results| == |ops| && forall i | 0 <= i < |ops| :: Prepared(old(tables), ops[i], results[i])
    {
      succeeded, results := true, [];
      for i := 0 to |ops|
        invariant tables == old(tables) && |results| == i
        invariant forall j | 0 <= j < i :: Prepared(tables, ops[j], results[j])
        invariant succeeded <==> forall j | 0 <= j < i :: OpHolds(tables, ops[j])
      {
        var r := PrepareTabletOp(ops[i]);
        succeeded := succeeded && r.status == Succeeded;
        results := results + [r];
      }
      if succeeded {
        for i := 0 to |ops|
          invariant forall j | 0 <= j < |ops| :: Committable(old(tables), ops[j])
          invariant tables == CommitOps(old(tables), ops[..i])
        {
          assert ops[..i + 1][..i] == ops[..i];
          tables := CommitOp(tables, ops[i]);
        }
        assert ops[..|ops|] == ops;
      }
      if t: string :| t in tables {
        RequestEffect(old(tables), ops, t, 0);
      }
    }

    method SaveSnapshot() returns (snapshot: StoreSnapshot)
      ensures snapshot == Saved(tables)
    {
      snapshot := map[];
      var todo := tables.Keys;
      while todo != {}
        invariant todo <= tables.Keys
        invariant snapshot == map t | t in tables && t !in todo :: Listing(tables[t])
        decreases todo
      {
        var t :| t in todo;
        var tablets := SaveTable(tables[t]);
        snapshot := snapshot[t := tablets];
        todo := todo - {t};
      }
    }

    /** After a failure the tables that were loaded first stay loaded. */
    method LoadSnapshot(snapshot: StoreSnapshot) returns (ok: bool)
      modifies this
      ensures ok <==> Loaded(old(tables), snapshot).Some?
      ensures ok ==> tables == Loaded(old(tables), snapshot).value
      ensures tables.Keys == old(tables).Keys
    {
      var todo := snapshot.Keys;
      ghost var done: set<string> := {};
      assert tables == tables + LoadedTables(snapshot, {});
      while todo != {}
        invariant todo + done == snapshot.Keys && done <= old(tables).Keys && tables.Keys == old(tables).Keys
        invariant tables == old(tables) + LoadedTables(snapshot, done)
        decreases todo
      {
        var t :| t in todo;
        if t !in tables {
          return false;
        }
        var table := LoadTable(snapshot[t]);
        LoadOneMore(old(tables), snapshot, done, t);
        tables := tables[t := table];
        todo, done := todo - {t}, done + {t};
      }
      ok := true;
    }
  }
}
