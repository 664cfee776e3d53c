/**
 The in-memory Raft log store: a log whose head is compacted into a snapshot, refining a
 log that is only ever truncated, appended to, and replaced by a received snapshot.
 */
module Storage {
  import opened Wrappers

  /** Members of the cluster, as far as a snapshot request looks at them. */
  datatype ConfigState = ConfigState(voters: seq<nat>, learners: seq<nat>, votersOutgoing: seq<nat>)

  predicate ContainsNode(config: ConfigState, node: nat) {
    node in config.voters || node in config.learners || node in config.votersOutgoing
  }

  datatype Entry<D> = Entry(index: nat, term: nat, data: D)

  datatype StoredSnapshot<S> = StoredSnapshot(index: nat, term: nat, config: ConfigState, data: S)

  datatype StorageError = SnapshotOutOfDate | Compacted | Unavailable | TemporarilyUnavailable

  // ----- The log without compaction -----

  /** A log that starts from a received snapshot: the entry after `start` comes first. */
  datatype Log<D> = Log(start: nat, startTerm: nat, entries: seq<Entry<D>>)

  ghost function LastOf<D>(l: Log<D>): nat {
    l.start + |l.entries|
  }

  ghost predicate LogOk<D>(l: Log<D>) {
    Consecutive(l.entries, l.start + 1)
  }

  ghost predicate Consecutive<D>(entries: seq<Entry<D>>, first: nat) {
    forall i | 0 <= i < |entries| :: entries[i].index == first + i
  }

  ghost function TermAt<D>(l: Log<D>, index: nat): nat
    requires l.start <= index <= LastOf(l)
  {
    if index == l.start then l.startTerm else l.entries[index - l.start - 1].term
  }

  /** Drops everything from the first new index on, then appends. */
  ghost function Appended<D>(l: Log<D>, batch: seq<Entry<D>>): Log<D>
    requires batch != [] ==> l.start < batch[0].index <= LastOf(l) + 1
  {
    if batch == [] then l
    else l.(entries := l.entries[..batch[0].index - l.start - 1] + batch)
  }

  // ----- The store -----

  datatype Store<D, S> = Store(
    maxSnapshotDiff: nat,
    commit: nat,
    term: nat,
    entries: seq<Entry<D>>,
    snapshot: StoredSnapshot<S>,
    peerRequests: map<nat, nat>)

  function FirstIndex<D, S>(s: Store<D, S>): nat {
    if s.entries == [] then s.snapshot.index + 1 else s.entries[0].index
  }

  function LastIndex<D, S>(s: Store<D, S>): nat {
    if s.entries == [] then s.snapshot.index else s.entries[|s.entries| - 1].index
  }

  predicate Satisfies(index: nat, config: ConfigState, peer: nat, request: nat) {
    index >= request && ContainsNode(config, peer)
  }

  /** No request still pending is one a snapshot at this index with this config satisfies. */
  ghost predicate NoneSatisfied(index: nat, config: ConfigState, requests: map<nat, nat>) {
    forall p | p in requests :: !Satisfies(index, config, p, requests[p])
  }

  /**
   Entries are consecutive, the first index is the snapshot's or the one after, and no
   request still pending is satisfied by the snapshot there is.
   */
  ghost predicate StoreOk<D, S>(s: Store<D, S>) {
    && Consecutive(s.entries, FirstIndex(s))
    && s.snapshot.index <= FirstIndex(s) <= s.snapshot.index + 1
    && NoneSatisfied(s.snapshot.index, s.snapshot.config, s.peerRequests)
  }

  /** The entry at an index of the log, for entries that start from `first`. */
  ghost function EntryAt<D>(entries: seq<Entry<D>>, first: nat, index: nat): Entry<D>
    requires first <= index < first + |entries|
  {
    entries[index - first]
  }

  /** The entries are those of the log from an index on. */
  ghost predicate IsTail<D>(l: Log<D>, first: nat, entries: seq<Entry<D>>) {
    && l.start < first && first + |entries| == LastOf(l) + 1
    && forall index | first <= index <= LastOf(l) ::
         EntryAt(entries, first, index) == EntryAt(l.entries, l.start + 1, index)
  }

  /** The log from an index on, and the term of the snapshot's entry. */
  ghost predicate Holds<D>(l: Log<D>, first: nat, entries: seq<Entry<D>>, snapshotIndex: nat, snapshotTerm: nat) {
    && LogOk(l) && IsTail(l, first, entries) && l.start <= snapshotIndex <= LastOf(l)
    && snapshotTerm == TermAt(l, snapshotIndex)
  }

  /** The store holds the log from its first index on, and the term of the snapshot's entry. */
  ghost predicate Refines<D, S>(s: Store<D, S>, l: Log<D>) {
    Holds(l, FirstIndex(s), s.entries, s.snapshot.index, s.snapshot.term)
  }

  lemma LastRefines<D, S>(s: Store<D, S>, l: Log<D>)
    requires StoreOk(s) && Refines(s, l)
    ensures LastIndex(s) == LastOf(l)
  {
  }

  /** The requests a snapshot leaves pending. */
  function Unsatisfied(index: nat, config: ConfigState, requests: map<nat, nat>): map<nat, nat> {
    map p | p in requests && !Satisfies(index, config, p, requests[p]) :: requests[p]
  }

  lemma UnsatisfiedStay(index: nat, config: ConfigState, requests: map<nat, nat>)
    ensures NoneSatisfied(index, config, Unsatisfied(index, config, requests))
  {
  }

  lemma OneMoreRequest(index: nat, config: ConfigState, requests: map<nat, nat>, peer: nat, request: nat)
    requires NoneSatisfied(index, config, requests) && !Satisfies(index, config, peer, request)
    ensures NoneSatisfied(index, config, requests[peer := request])
  {
  }

  function WithSnapshot<D, S>(s: Store<D, S>, snapshot: StoredSnapshot<S>): Store<D, S> {
    s.(snapshot := snapshot, peerRequests := Unsatisfied(snapshot.index, snapshot.config, s.peerRequests))
  }

  function AfterAppend<D, S>(s: Store<D, S>, batch: seq<Entry<D>>): Store<D, S>
    requires batch != [] ==> FirstIndex(s) <= batch[0].index <= FirstIndex(s) + |s.entries|
  {
    if batch == [] then s else s.(entries := s.entries[..batch[0].index - FirstIndex(s)] + batch)
  }

  function AfterCompact<D, S>(s: Store<D, S>, index: nat): Store<D, S>
    requires index <= FirstIndex(s) + |s.entries|
  {
    if index <= FirstIndex(s) || s.entries == [] then s else s.(entries := s.entries[index - FirstIndex(s)..])
  }

  function AfterApply<D, S>(s: Store<D, S>, snapshot: StoredSnapshot<S>): Store<D, S> {
    WithSnapshot(s.(commit := snapshot.index,
                    term := if s.term >= snapshot.term then s.term else snapshot.term,
                    entries := []), snapshot)
  }

  /** What appending demands: consecutive entries, nothing compacted overwritten, no gap. */
  ghost predicate Appendable<D, S>(s: Store<D, S>, batch: seq<Entry<D>>) {
    batch != [] ==> FirstIndex(s) <= batch[0].index <= LastIndex(s) + 1 && Consecutive(batch, batch[0].index)
  }

  /** The entry the snapshot was taken at may still be in the log; replacing it must keep its term. */
  ghost predicate KeepsSnapshotTerm<D, S>(s: Store<D, S>, batch: seq<Entry<D>>) {
    batch != [] && batch[0].index == s.snapshot.index ==> batch[0].term == s.snapshot.term
  }

  lemma AppendKeepsOk<D, S>(s: Store<D, S>, batch: seq<Entry<D>>)
    requires StoreOk(s) && Appendable(s, batch) && batch != []
    ensures FirstIndex(s) <= batch[0].index <= FirstIndex(s) + |s.entries|
    ensures var after := AfterAppend(s, batch);
            StoreOk(after) && FirstIndex(after) == FirstIndex(s) && LastIndex(after) == batch[|batch| - 1].index
  {
    var after := AfterAppend(s, batch);
    var keep := batch[0].index - FirstIndex(s);
    assert FirstIndex(after) == FirstIndex(s) by {
      assert after.entries[0] == if keep == 0 then batch[0] else s.entries[0];
    }
  }

  lemma ConsecutiveAppend<D>(entries: seq<Entry<D>>, first: nat, keep: nat, batch: seq<Entry<D>>)
    requires Consecutive(entries, first) && keep <= |entries| && Consecutive(batch, first + keep)
    ensures Consecutive(entries[..keep] + batch, first)
  {
  }

  lemma AppendedIsOk<D>(l: Log<D>, batch: seq<Entry<D>>)
    requires LogOk(l) && batch != [] && l.start < batch[0].index <= LastOf(l) + 1 && Consecutive(batch, batch[0].index)
    ensures LogOk(Appended(l, batch)) && batch[0].index <= LastOf(Appended(l, batch))
  {
    ConsecutiveAppend(l.entries, l.start + 1, batch[0].index - l.start - 1, batch);
  }

  lemma AppendedTail<D>(l: Log<D>, first: nat, entries: seq<Entry<D>>, batch: seq<Entry<D>>)
    requires IsTail(l, first, entries) && batch != [] && first <= batch[0].index <= LastOf(l) + 1
    ensures IsTail(Appended(l, batch), first, entries[..batch[0].index - first] + batch)
  {
    var more, after := entries[..batch[0].index - first] + batch, Appended(l, batch);
    forall index | first <= index <= LastOf(after)
      ensures EntryAt(more, first, index) == EntryAt(after.entries, after.start + 1, index)
    {
      if index < batch[0].index {
        assert EntryAt(entries, first, index) == EntryAt(l.entries, l.start + 1, index);
      }
    }
  }

  lemma AppendKeepsTail<D, S>(s: Store<D, S>, l: Log<D>, batch: seq<Entry<D>>)
    requires StoreOk(s) && Refines(s, l) && Appendable(s, batch) && batch != []
    ensures FirstIndex(s) <= batch[0].index <= FirstIndex(s) + |s.entries| == LastOf(l) + 1
    ensures IsTail(Appended(l, batch), FirstIndex(s), AfterAppend(s, batch).entries)
    ensures LogOk(Appended(l, batch)) && batch[0].index <= LastOf(Appended(l, batch))
  {
    LastRefines(s, l);
    AppendedTail(l, FirstIndex(s), s.entries, batch);
    AppendedIsOk(l, batch);
  }

  lemma AppendedTerm<D>(l: Log<D>, batch: seq<Entry<D>>, index: nat)
    requires batch != [] && l.start < batch[0].index <= LastOf(l) + 1
    requires l.start <= index <= batch[0].index && index <= LastOf(l)
    ensures index <= LastOf(Appended(l, batch))
    ensures TermAt(Appended(l, batch), index) == if index == batch[0].index then batch[0].term else TermAt(l, index)
  {
  }

  /** Appending to the compacted log appends to the full one, exactly when the snapshot's term survives. */
  lemma AppendRefines<D, S>(s: Store<D, S>, l: Log<D>, batch: seq<Entry<D>>)
    requires StoreOk(s) && Refines(s, l) && Appendable(s, batch)
    ensures batch != [] ==> FirstIndex(s) <= batch[0].index <= FirstIndex(s) + |s.entries|
    ensures batch != [] ==> l.start < batch[0].index <= LastOf(l) + 1
    ensures StoreOk(AfterAppend(s, batch))
    ensures Refines(AfterAppend(s, batch), Appended(l, batch)) <==> KeepsSnapshotTerm(s, batch)
    ensures batch != [] ==> LastIndex(AfterAppend(s, batch)) == batch[|batch| - 1].index
  {
    if batch != [] {
      AppendKeepsOk(s, batch);
      AppendKeepsTail(s, l, batch);
      AppendedTerm(l, batch, s.snapshot.index);
    }
  }

  lemma TailOfTail<D>(l: Log<D>, first: nat, entries: seq<Entry<D>>, index: nat)
    requires IsTail(l, first, entries) && first <= index <= first + |entries|
    ensures IsTail(l, index, entries[index - first..])
  {
    var rest := entries[index - first..];
    forall i | index <= i <= LastOf(l)
      ensures EntryAt(rest, index, i) == EntryAt(l.entries, l.start + 1, i)
    {
      assert EntryAt(entries, first, i) == EntryAt(l.entries, l.start + 1, i);
    }
  }

  lemma CompactRefines<D, S>(s: Store<D, S>, l: Log<D>, index: nat)
    requires Consecutive(s.entries, FirstIndex(s)) && Refines(s, l)
    requires FirstIndex(s) <= index < FirstIndex(s) + |s.entries|
    ensures Refines(AfterCompact(s, index), l)
    ensures Consecutive(AfterCompact(s, index).entries, FirstIndex(AfterCompact(s, index)))
    ensures FirstIndex(AfterCompact(s, index)) == index && LastIndex(AfterCompact(s, index)) == LastIndex(s)
  {
    TailOfTail(l, FirstIndex(s), s.entries, index);
  }

  /** What creating a snapshot leaves behind. */
  function AfterCreate<D, S>(s: Store<D, S>, applied: nat, config: ConfigState, data: S): Store<D, S>
    requires FirstIndex(s) <= applied < FirstIndex(s) + |s.entries|
  {
    var term := if applied == s.snapshot.index then s.snapshot.term else s.entries[applied - FirstIndex(s)].term;
    AfterCompact(WithSnapshot(s, StoredSnapshot(applied, term, config, data)), applied)
  }

  /** Creating a snapshot keeps the log, the last index, and moves the first index to the snapshot's. */
  lemma CreateRefines<D, S>(s: Store<D, S>, l: Log<D>, applied: nat, config: ConfigState, data: S)
    requires StoreOk(s) && Refines(s, l) && FirstIndex(s) <= applied <= LastIndex(s)
    ensures applied < FirstIndex(s) + |s.entries|
    ensures var after := AfterCreate(s, applied, config, data);
            && StoreOk(after) && Refines(after, l) && LastIndex(after) == LastIndex(s)
            && after.snapshot.index == applied >= s.snapshot.index
  {
    LastRefines(s, l);
    var term := if applied == s.snapshot.index then s.snapshot.term else s.entries[applied - FirstIndex(s)].term;
    var named := WithSnapshot(s, StoredSnapshot(applied, term, config, data));
    UnsatisfiedStay(applied, config, s.peerRequests);
    assert FirstIndex(named) == FirstIndex(s) && named.entries == s.entries;
    assert EntryAt(s.entries, FirstIndex(s), applied) == EntryAt(l.entries, l.start + 1, applied);
    assert Refines(named, l);
    CompactRefines(named, l, applied);
  }

  /** A received snapshot replaces the log. */
  lemma ApplyRefines<D, S>(s: Store<D, S>, snapshot: StoredSnapshot<S>)
    ensures StoreOk(AfterApply(s, snapshot))
    ensures Refines(AfterApply(s, snapshot), Log(snapshot.index, snapshot.term, []))
  {
    UnsatisfiedStay(snapshot.index, snapshot.config, s.peerRequests);
  }

  // ----- When to take a snapshot -----

  ghost predicate ShouldSnapshot<D, S>(s: Store<D, S>, applied: nat, config: ConfigState) {
    s.snapshot.index + s.maxSnapshotDiff < applied ||
    exists p :: p in s.peerRequests && Satisfies(applied, config, p, s.peerRequests[p])
  }

  /** The driver never lags behind the snapshot, and at the snapshot it has the snapshot's config. */
  ghost predicate InStep<D, S>(s: Store<D, S>, applied: nat, config: ConfigState) {
    s.snapshot.index <= applied <= LastIndex(s) && (applied == s.snapshot.index ==> config == s.snapshot.config)
  }

  /** The entry of the snapshot is still in the log. */
  ghost predicate HoldsSnapshotEntry<D, S>(s: Store<D, S>) {
    s.entries != [] && s.entries[0].index == s.snapshot.index
  }

  lemma AgainNotWanted<D, S>(s: Store<D, S>, applied: nat, config: ConfigState, data: S)
    requires FirstIndex(s) <= applied < FirstIndex(s) + |s.entries|
    ensures !ShouldSnapshot(AfterCreate(s, applied, config, data), applied, config)
  {
    UnsatisfiedStay(applied, config, s.peerRequests);
    assert AfterCreate(s, applied, config, data).peerRequests == Unsatisfied(applied, config, s.peerRequests);
  }

  /**
   A snapshot that is wanted can be taken exactly past the snapshot there is, or right at it while
   its entry is still in the log. Once taken, none is wanted at the same point.
   */
  lemma WantedSnapshotSucceedsIff<D, S>(s: Store<D, S>, applied: nat, config: ConfigState, data: S)
    requires StoreOk(s) && applied <= LastIndex(s) && ShouldSnapshot(s, applied, config)
    ensures FirstIndex(s) <= applied <==>
            s.snapshot.index < applied || (s.snapshot.index == applied && HoldsSnapshotEntry(s))
    ensures FirstIndex(s) <= applied ==>
              && applied < FirstIndex(s) + |s.entries|
              && !ShouldSnapshot(AfterCreate(s, applied, config, data), applied, config)
  {
    if FirstIndex(s) <= applied {
      assert s.entries != [] && LastIndex(s) == FirstIndex(s) + |s.entries| - 1;
      AgainNotWanted(s, applied, config, data);
    }
  }

  /** In step, a wanted snapshot is past the one there is, so taking it is never out of date. */
  lemma WantedSnapshotSucceeds<D, S>(s: Store<D, S>, applied: nat, config: ConfigState, data: S)
    requires StoreOk(s) && InStep(s, applied, config) && ShouldSnapshot(s, applied, config)
    ensures s.snapshot.index < applied && FirstIndex(s) <= applied < FirstIndex(s) + |s.entries|
    ensures var after := AfterCreate(s, applied, config, data);
            !ShouldSnapshot(after, applied, config) && after.snapshot == StoredSnapshot(
              applied, s.entries[applied - FirstIndex(s)].term, config, data)
  {
    WantedSnapshotSucceedsIff(s, applied, config, data);
    if s.snapshot.index + s.maxSnapshotDiff >= applied {
      var p :| p in s.peerRequests && Satisfies(applied, config, p, s.peerRequests[p]);
    }
  }

  // ----- Runs -----

  function AfterRequest<D, S>(s: Store<D, S>, peer: nat, request: nat): Store<D, S> {
    if Satisfies(s.snapshot.index, s.snapshot.config, peer, request) then s
    else s.(peerRequests := s.peerRequests[peer := request])
  }

  lemma RequestRefines<D, S>(s: Store<D, S>, l: Log<D>, peer: nat, request: nat)
    requires StoreOk(s) && Refines(s, l)
    ensures StoreOk(AfterRequest(s, peer, request)) && Refines(AfterRequest(s, peer, request), l)
  {
    var after := AfterRequest(s, peer, request);
    assert FirstIndex(after) == FirstIndex(s) && after.entries == s.entries && after.snapshot == s.snapshot;
    if !Satisfies(s.snapshot.index, s.snapshot.config, peer, request) {
      OneMoreRequest(s.snapshot.index, s.snapshot.config, s.peerRequests, peer, request);
    }
  }

  datatype Action<D, S> =
    | Append(batch: seq<Entry<D>>)
    | Install(received: StoredSnapshot<S>)
    | Create(applied: nat, config: ConfigState, data: S)
    | Request(peer: nat, index: nat)

  /** What the store does not panic on, appending above the snapshot. */
  ghost predicate Enabled<D, S>(s: Store<D, S>, a: Action<D, S>) {
    match a
    case Append(batch) => Appendable(s, batch) && (batch != [] ==> s.snapshot.index < batch[0].index)
    case Create(applied, _, _) => applied <= LastIndex(s)
    case _ => true
  }

  /** The store and the log that is never compacted, side by side. */
  ghost predicate Step<D, S>(s: Store<D, S>, l: Log<D>, a: Action<D, S>, s': Store<D, S>, l': Log<D>) {
    Enabled(s, a) &&
    match a
    case Append(batch) =>
      && (batch != [] ==> FirstIndex(s) <= batch[0].index <= FirstIndex(s) + |s.entries|)
      && (batch != [] ==> l.start < batch[0].index <= LastOf(l) + 1)
      && s' == AfterAppend(s, batch) && l' == Appended(l, batch)
    case Install(received) =>
      if received.index < FirstIndex(s) then s' == s && l' == l
      else s' == AfterApply(s, received) && l' == Log(received.index, received.term, [])
    case Create(applied, config, data) =>
      && l' == l
      && if applied < FirstIndex(s) then s' == s
         else applied < FirstIndex(s) + |s.entries| && s' == AfterCreate(s, applied, config, data)
    case Request(peer, index) => s' == AfterRequest(s, peer, index) && l' == l
  }

  lemma StepRefines<D, S>(s: Store<D, S>, l: Log<D>, a: Action<D, S>, s': Store<D, S>, l': Log<D>)
    requires StoreOk(s) && Refines(s, l) && Step(s, l, a, s', l')
    ensures StoreOk(s') && Refines(s', l') && s'.snapshot.index >= s.snapshot.index
  {
    match a
    case Append(batch) => AppendRefines(s, l, batch);
    case Install(received) =>
      if received.index >= FirstIndex(s) {
        ApplyRefines(s, received);
      }
    case Create(applied, config, data) =>
      if applied >= FirstIndex(s) {
        CreateRefines(s, l, applied, config, data);
      }
    case Request(peer, index) => RequestRefines(s, l, peer, index);
  }

  ghost predicate IsRun<D, S>(stores: seq<Store<D, S>>, logs: seq<Log<D>>, actions: seq<Action<D, S>>) {
    && |stores| == |logs| == |actions| + 1
    && stores[0].entries == [] && stores[0].peerRequests == map[] && stores[0].snapshot.index == 0
    && logs[0] == Log(0, stores[0].snapshot.term, [])
    && forall n {:trigger actions[n]} | 0 <= n < |actions| ::
         Step(stores[n], logs[n], actions[n], stores[n + 1], logs[n + 1])
  }

  lemma NoRequests(index: nat, config: ConfigState, requests: map<nat, nat>)
    requires requests == map[]
    ensures NoneSatisfied(index, config, requests)
  {
  }

  lemma EmptyHolds<D>(term: nat, entries: seq<Entry<D>>)
    requires entries == []
    ensures Holds(Log(0, term, []), 1, entries, 0, term)
  {
  }

  lemma EmptyRefines<D, S>(s: Store<D, S>)
    requires s.entries == [] && s.peerRequests == map[] && s.snapshot.index == 0
    ensures StoreOk(s) && Refines(s, Log(0, s.snapshot.term, []))
  {
    NoRequests(s.snapshot.index, s.snapshot.config, s.peerRequests);
    EmptyHolds(s.snapshot.term, s.entries);
  }

  /**
   In every run the store holds, from its first index on, what the log that is never compacted
   holds; its entries are consecutive from the snapshot's index or the one after, and no pending
   request is satisfied by the snapshot.
   */
  lemma {:induction false} StoreFollowsLog<D, S>(
      stores: seq<Store<D, S>>, logs: seq<Log<D>>, actions: seq<Action<D, S>>, n: nat)
    requires IsRun(stores, logs, actions) && n < |stores|
    ensures StoreOk(stores[n]) && Refines(stores[n], logs[n])
  {
    if n == 0 {
      EmptyRefines(stores[0]);
    } else {
      StoreFollowsLog(stores, logs, actions, n - 1);
      assert Step(stores[n - 1], logs[n - 1], actions[n - 1], stores[n], logs[n]);
      StepRefines(stores[n - 1], logs[n - 1], actions[n - 1], stores[n], logs[n]);
    }
  }

  /** And the snapshot never goes back. */
  lemma {:induction false} SnapshotNeverGoesBack<D, S>(
      stores: seq<Store<D, S>>, logs: seq<Log<D>>, actions: seq<Action<D, S>>, m: nat, n: nat)
    requires IsRun(stores, logs, actions) && m <= n < |stores|
    ensures stores[m].snapshot.index <= stores[n].snapshot.index
    decreases n
  {
    if m < n {
      SnapshotNeverGoesBack(stores, logs, actions, m, n - 1);
      StoreFollowsLog(stores, logs, actions, n - 1);
      assert Step(stores[n - 1], logs[n - 1], actions[n - 1], stores[n], logs[n]);
      StepRefines(stores[n - 1], logs[n - 1], actions[n - 1], stores[n], logs[n]);
    }
  }

  /**
   Out of step it may fail: a node asks for a snapshot, one is installed whose config lacks the
   node, and at its index the node is a member after all. Such a store is reached in two steps.
   */
  lemma WantedSnapshotCanBeOutOfDate<D, S>(first: Store<D, S>, data: S)
    returns (stores: seq<Store<D, S>>, logs: seq<Log<D>>, actions: seq<Action<D, S>>, config: ConfigState)
    requires first.entries == [] && first.peerRequests == map[] && first.snapshot.index == 0
    ensures IsRun(stores, logs, actions) && stores[0] == first && |stores| == 3
    ensures ShouldSnapshot(stores[2], stores[2].snapshot.index, config)
    ensures FirstIndex(stores[2]) > stores[2].snapshot.index
  {
    config := ConfigState([7], [], []);
    var received := StoredSnapshot(5, 1, ConfigState([], [], []), data);
    var asked := AfterRequest(first, 7, 5);
    var installed := AfterApply(asked, received);
    var start := Log(0, first.snapshot.term, []);
    stores, logs := [first, asked, installed], [start, start, Log(5, 1, [])];
    actions := [Request(7, 5), Install(received)];
    assert Step(first, start, actions[0], asked, start);
    assert Step(asked, start, actions[1], installed, Log(5, 1, []));
    assert 7 in installed.peerRequests && Satisfies(5, config, 7, installed.peerRequests[7]);
  }

  lemma TailStretch<D>(l: Log<D>, first: nat, entries: seq<Entry<D>>, low: nat, high: nat)
    requires IsTail(l, first, entries) && first <= low <= high <= first + |entries|
    ensures entries[low - first..high - first] == l.entries[low - l.start - 1..high - l.start - 1]
  {
    var mine, theirs := entries[low - first..high - first], l.entries[low - l.start - 1..high - l.start - 1];
    forall i | 0 <= i < high - low ensures mine[i] == theirs[i] {
      assert EntryAt(entries, first, low + i) == EntryAt(l.entries, l.start + 1, low + i);
    }
  }

  class MemoryStorage<D, S> {
    const maxSnapshotDiff: nat
    var commit: nat
    var term: nat
    var entries: seq<Entry<D>>
    var snapshot: StoredSnapshot<S>
    var peerRequests: map<nat, nat>
    /** The log that was never compacted. */
    ghost var log: Log<D>

    ghost function Model(): Store<D, S>
      reads this
    {
      Store(maxSnapshotDiff, commit, term, entries, snapshot, peerRequests)
    }

    ghost predicate Valid()
      reads this
    {
      StoreOk(Model()) && Refines(Model(), log)
    }

    /** Index zero, with no members and empty data. */
    constructor (maxSnapshotDiff: nat, empty: S)
      ensures Valid() && log == Log(0, 0, [])
      ensures Model() == Store(maxSnapshotDiff, 0, 0, [], StoredSnapshot(0, 0, ConfigState([], [], []), empty), map[])
    {
      this.maxSnapshotDiff := maxSnapshotDiff;
      commit, term, entries, peerRequests := 0, 0, [], map[];
      snapshot := StoredSnapshot(0, 0, ConfigState([], [], []), empty);
      log := Log(0, 0, []);
    }

    method FirstEntryIndex() returns (index: nat)
      ensures index == FirstIndex(Model())
    {
      index := if entries == [] then snapshot.index + 1 else entries[0].index;
    }

    method LastEntryIndex() returns (index: nat)
      ensures index == LastIndex(Model())
    {
      index := if entries == [] then snapshot.index else entries[|entries| - 1].index;
    }

    method AppendEntries(batch: seq<Entry<D>>)
      requires Valid() && Appendable(Model(), batch)
      modifies this`entries, this`log
      ensures StoreOk(Model())
      ensures batch != [] ==> old(log).start < batch[0].index <= LastOf(old(log)) + 1
      ensures log == Appended(old(log), batch)
      ensures Refines(Model(), log) <==> KeepsSnapshotTerm(old(Model()), batch)
      ensures LastIndex(Model()) == if batch == [] then old(LastIndex(Model())) else batch[|batch| - 1].index
    {
      AppendRefines(Model(), log, batch);
      if batch == [] {
        return;
      }
      var first := FirstEntryIndex();
      entries := entries[..batch[0].index - first];
      entries := entries + batch;
      assert Model() == AfterAppend(old(Model()), batch);
      log := Appended(log, batch);
    }

    /** The snapshot replaces everything, unless it is older than the log. */
    method ApplySnapshot(received: StoredSnapshot<S>) returns (r: Result<(), StorageError>)
      requires Valid()
      modifies this
      ensures Valid()
      ensures r == if received.index < old(FirstIndex(Model())) then Err(SnapshotOutOfDate) else Ok(())
      ensures r.Err? ==> Model() == old(Model()) && log == old(log)
      ensures r.Ok? ==> Model() == AfterApply(old(Model()), received) && log == Log(received.index, received.term, [])
      ensures snapshot.index >= old(snapshot.index)
    {
      var first := FirstEntryIndex();
      if first > received.index {
        return Err(SnapshotOutOfDate);
      }
      ApplyRefines(Model(), received);
      commit := received.index;
      term := if term >= received.term then term else received.term;
      entries := [];
      SetSnapshot(received);
      log := Log(received.index, received.term, []);
      r := Ok(());
    }

    /** Installs a snapshot and forgets the requests it satisfies. */
    method SetSnapshot(s: StoredSnapshot<S>)
      modifies this`snapshot, this`peerRequests
      ensures Model() == WithSnapshot(old(Model()), s)
    {
      snapshot := s;
      var todo := peerRequests.Keys;
      var kept: map<nat, nat> := peerRequests;
      while todo != {}
        invariant todo <= old(peerRequests).Keys
        invariant kept == map p | p in old(peerRequests) &&
                                  (p in todo || !Satisfies(s.index, s.config, p, old(peerRequests)[p])) ::
                            old(peerRequests)[p]
        decreases todo
      {
        var p :| p in todo;
        if Satisfies(s.index, s.config, p, peerRequests[p]) {
          kept := kept - {p};
        }
        todo := todo - {p};
      }
      peerRequests := kept;
    }

    method CreateSnapshot(applied: nat, config: ConfigState, data: S) returns (r: Result<(), StorageError>)
      requires Valid() && applied <= LastIndex(Model())
      modifies this
      ensures Valid() && log == old(log) && LastIndex(Model()) == old(LastIndex(Model()))
      ensures r == if applied < old(FirstIndex(Model())) then Err(SnapshotOutOfDate) else Ok(())
      ensures r.Err? ==> Model() == old(Model())
      ensures r.Ok? ==> applied < old(FirstIndex(Model()) + |entries|) &&
                        Model() == AfterCreate(old(Model()), applied, config, data)
      ensures snapshot.index >= old(snapshot.index)
    {
      var first := FirstEntryIndex();
      if first > applied {
        return Err(SnapshotOutOfDate);
      }
      ghost var after := AfterCreate(Model(), applied, config, data);
      CreateRefines(Model(), log, applied, config, data);
      var t := EntryTerm(applied);
      assert t == Ok(after.snapshot.term);
      SetSnapshot(StoredSnapshot(applied, t.value, config, data));
      if applied > first {
        entries := entries[applied - first..];
      }
      r := Ok(());
    }

    method TrySatisfyRequest(peer: nat, request: nat) returns (r: Option<StoredSnapshot<S>>)
      requires Valid()
      modifies this`peerRequests
      ensures Valid() && Model() == AfterRequest(old(Model()), peer, request)
      ensures r == if Satisfies(snapshot.index, snapshot.config, peer, request) then Some(snapshot) else None
    {
      RequestRefines(Model(), log, peer, request);
      if Satisfies(snapshot.index, snapshot.config, peer, request) {
        return Some(snapshot);
      }
      peerRequests := peerRequests[peer := request];
      r := None;
    }

    method ShouldTakeSnapshot(applied: nat, config: ConfigState) returns (should: bool)
      ensures should <==> ShouldSnapshot(Model(), applied, config)
    {
      if snapshot.index + maxSnapshotDiff < applied {
        return true;
      }
      var todo := peerRequests.Keys;
      while todo != {}
        invariant todo <= peerRequests.Keys
        invariant forall p | p in peerRequests && p !in todo :: !Satisfies(applied, config, p, peerRequests[p])
        decreases todo
      {
        var p :| p in todo;
        if Satisfies(applied, config, p, peerRequests[p]) {
          return true;
        }
        todo := todo - {p};
      }
      should := false;
    }

    /** The term of every index from the snapshot's on, as the uncompacted log has it. */
    method EntryTerm(index: nat) returns (r: Result<nat, StorageError>)
      requires Valid()
      ensures index == snapshot.index || FirstIndex(Model()) <= index <= LastOf(log) ==>
                r == Ok(TermAt(log, index))
      ensures index != snapshot.index && index < FirstIndex(Model()) ==> r == Err(Compacted)
      ensures index != snapshot.index && index >= FirstIndex(Model()) && index > LastOf(log) ==> r == Err(Unavailable)
    {
      LastRefines(Model(), log);
      if index == snapshot.index {
        return Ok(snapshot.term);
      }
      var first := FirstEntryIndex();
      var last := LastEntryIndex();
      if index < first {
        return Err(Compacted);
      }
      if index > last {
        return Err(Unavailable);
      }
      assert EntryAt(entries, first, index) == EntryAt(log.entries, log.start + 1, index);
      r := Ok(entries[index - first].term);
    }

    /** A stretch of the uncompacted log. `keep` is how many entries the size limit admits, at least one. */
    method Entries(low: nat, high: nat, keep: nat) returns (r: Result<seq<Entry<D>>, StorageError>)
      requires Valid() && keep > 0
      requires entries != [] && low >= FirstIndex(Model()) ==> low <= high <= LastIndex(Model()) + 1
      ensures entries == [] ==> r == Err(Unavailable)
      ensures entries != [] && low < FirstIndex(Model()) ==> r == Err(Compacted)
      ensures entries != [] && low >= FirstIndex(Model()) ==>
                && log.start < low && high <= LastOf(log) + 1
                && var all := log.entries[low - log.start - 1..high - log.start - 1];
                   r == Ok(if |all| <= keep then all else all[..keep])
    {
      LastRefines(Model(), log);
      if entries == [] {
        return Err(Unavailable);
      }
      var first := FirstEntryIndex();
      if low < first {
        return Err(Compacted);
      }
      var found := entries[low - first..high - first];
      r := Ok(if |found| <= keep then found else found[..keep]);
      TailStretch(log, first, entries, low, high);
    }
  }
}
