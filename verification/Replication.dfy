/**
 How a driver brings its actor along the agreed log: applying committed entries, taking
 snapshots and restoring them, and what that makes of a cluster of replicas.
 */
module Replication {
  import opened Wrappers
  import opened Storage

  datatype ChangeKind = AddNode | RemoveNode | AddLearnerNode

  datatype ConfigChange = ConfigChange(kind: ChangeKind, node: nat)

  /** What a log entry carries; `None` stands for bytes that do not decode. */
  datatype EntryData<E> = Empty | Change(change: Option<ConfigChange>) | Proposal(event: Option<E>)

  type LogEntry<E> = Entry<EntryData<E>>

  /**
   A replicated actor with its failures, the states it may be started in, and the effect
   a membership change has in the Raft library.
   */
  datatype Machine<!S, !E, !D> = Machine(
    apply: (S, E) -> Option<S>,
    save: S -> Option<D>,
    load: (S, D) -> Option<S>,
    starts: S -> bool,
    reconfigure: (ConfigState, ConfigChange) -> Option<ConfigState>)

  datatype Progress<S> = Progress(applied: nat, config: ConfigState, actor: S)

  datatype DriverError = RaftError | ActorError

  // ----- The meaning of the log -----

  /** The first leader, and the actor state it started from: the snapshot at index one. */
  datatype Boot<S> = Boot(leader: nat, actor: S)

  datatype Meaning<S> = Meaning(config: ConfigState, actor: S)

  const NO_MEMBERS := ConfigState([], [], [])

  ghost function After<S, E, D>(m: Machine<S, E, D>, s: Meaning<S>, data: EntryData<E>): Option<Meaning<S>> {
    match data
    case Empty => Some(s)
    case Change(None) => None
    case Proposal(None) => None
    case Change(Some(c)) =>
      var config := m.reconfigure(s.config, c);
      if config.None? then None else Some(s.(config := config.value))
    case Proposal(Some(e)) =>
      var actor := m.apply(s.actor, e);
      if actor.None? then None else Some(s.(actor := actor.value))
  }

  /** Members and actor state after the first `n` entries, if none of them fails. */
  ghost function Fold<S, E, D>(m: Machine<S, E, D>, boot: Boot<S>, log: seq<LogEntry<E>>, n: nat): Option<Meaning<S>>
    requires 1 <= n <= |log|
  {
    if n == 1 then Some(Meaning(ConfigState([boot.leader], [], []), boot.actor))
    else
      var before := Fold(m, boot, log, n - 1);
      if before.None? then None else After(m, before.value, log[n - 1].data)
  }

  ghost predicate Indexed<E>(log: seq<LogEntry<E>>) {
    log != [] && forall i | 0 <= i < |log| :: log[i].index == i + 1
  }

  lemma {:induction false} FoldOfLonger<S, E, D>(
      m: Machine<S, E, D>, boot: Boot<S>, log: seq<LogEntry<E>>, longer: seq<LogEntry<E>>, n: nat)
    requires 1 <= n <= |log| && log <= longer
    ensures Fold(m, boot, longer, n) == Fold(m, boot, log, n)
  {
    if n > 1 {
      FoldOfLonger(m, boot, log, longer, n - 1);
    }
  }

  lemma {:induction false} FoldStaysFailed<S, E, D>(
      m: Machine<S, E, D>, boot: Boot<S>, log: seq<LogEntry<E>>, i: nat, j: nat)
    requires 1 <= i <= j <= |log| && Fold(m, boot, log, j).Some?
    ensures Fold(m, boot, log, i).Some?
    decreases j
  {
    if i < j {
      FoldStaysFailed(m, boot, log, i, j - 1);
    }
  }

  /** A replica is where the log says: not started yet, or at the meaning of a prefix. */
  ghost predicate Follows<S, E, D>(m: Machine<S, E, D>, boot: Boot<S>, log: seq<LogEntry<E>>, p: Progress<S>) {
    if p.applied == 0 then p.config == NO_MEMBERS && m.starts(p.actor)
    else p.applied <= |log| && Fold(m, boot, log, p.applied) == Some(Meaning(p.config, p.actor))
  }

  ghost predicate Faithful<S, E, D>(
      m: Machine<S, E, D>, boot: Boot<S>, log: seq<LogEntry<E>>, snapshot: StoredSnapshot<D>)
  {
    1 <= snapshot.index <= |log| &&
    var s := Fold(m, boot, log, snapshot.index);
    s.Some? && snapshot.config == s.value.config && m.save(s.value.actor) == Some(snapshot.data)
  }

  /** Loading a snapshot into any earlier state of the same log gives the state it was taken of. */
  ghost predicate CatchesUp<S(!new), E, D(!new)>(m: Machine<S, E, D>, boot: Boot<S>, log: seq<LogEntry<E>>) {
    && m.starts(boot.actor)
    && forall p: Progress<S>, s: StoredSnapshot<D> | Overtakes(m, boot, log, p, s) ::
         m.load(p.actor, s.data) == Some(Fold(m, boot, log, s.index).value.actor)
  }

  ghost predicate Overtakes<S, E, D>(
      m: Machine<S, E, D>, boot: Boot<S>, log: seq<LogEntry<E>>, p: Progress<S>, s: StoredSnapshot<D>)
  {
    Follows(m, boot, log, p) && Faithful(m, boot, log, s) && p.applied < s.index
  }

  // ----- Sorting a batch -----

  function InsertByIndex<D>(e: Entry<D>, s: seq<Entry<D>>): seq<Entry<D>> {
    if s == [] || e.index <= s[0].index then [e] + s else [s[0]] + InsertByIndex(e, s[1..])
  }

  /** Stable: an entry goes before those of the same index that came after it. */
  function SortByIndex<D>(s: seq<Entry<D>>): seq<Entry<D>> {
    if s == [] then [] else InsertByIndex(s[0], SortByIndex(s[1..]))
  }

  ghost predicate Ascending<D>(s: seq<Entry<D>>) {
    forall i, j | 0 <= i < j < |s| :: s[i].index <= s[j].index
  }

  ghost predicate StrictlyAscending<D>(s: seq<Entry<D>>) {
    forall i, j | 0 <= i < j < |s| :: s[i].index < s[j].index
  }

  lemma AscendingFrom<D>(x: Entry<D>, s: seq<Entry<D>>)
    requires Ascending(s) && forall y | y in s :: x.index <= y.index
    ensures Ascending([x] + s)
  {
  }

  lemma {:induction false} InsertPermutes<D>(e: Entry<D>, s: seq<Entry<D>>)
    ensures multiset(InsertByIndex(e, s)) == multiset{e} + multiset(s)
  {
    if s != [] && e.index > s[0].index {
      InsertPermutes(e, s[1..]);
      assert s == [s[0]] + s[1..];
    }
  }

  lemma {:induction false} InsertSorts<D>(e: Entry<D>, s: seq<Entry<D>>)
    requires Ascending(s)
    ensures Ascending(InsertByIndex(e, s))
  {
    if s == [] || e.index <= s[0].index {
      AscendingFrom(e, s);
    } else {
      InsertSorts(e, s[1..]);
      InsertPermutes(e, s[1..]);
      var rest := InsertByIndex(e, s[1..]);
      forall x | x in rest ensures s[0].index <= x.index {
        assert x in multiset(rest);
        assert x == e || x in s[1..];
      }
      AscendingFrom(s[0], rest);
    }
  }

  lemma {:induction false} SortSorts<D>(s: seq<Entry<D>>)
    ensures Ascending(SortByIndex(s)) && multiset(SortByIndex(s)) == multiset(s)
  {
    if s != [] {
      SortSorts(s[1..]);
      InsertSorts(s[0], SortByIndex(s[1..]));
      InsertPermutes(s[0], SortByIndex(s[1..]));
      assert s == [s[0]] + s[1..];
    }
  }

  lemma SortedHeads<D>(a: seq<Entry<D>>, b: seq<Entry<D>>)
    requires a != [] && b != [] && Ascending(a) && StrictlyAscending(b)
    requires a[0] in b && b[0] in a
    ensures a[0] == b[0]
  {
    var k :| 0 <= k < |b| && b[k] == a[0];
    var l :| 0 <= l < |a| && a[l] == b[0];
    assert a[0].index <= a[l].index;
    assert b[0].index <= b[k].index;
  }

  lemma SameRest<D>(x: D, a: seq<D>, b: seq<D>)
    requires multiset([x] + a) == multiset([x] + b)
    ensures multiset(a) == multiset(b)
  {
    assert multiset(a) == multiset([x] + a) - multiset{x};
    assert multiset(b) == multiset([x] + b) - multiset{x};
  }

  lemma SortedRest<D>(a: seq<Entry<D>>, b: seq<Entry<D>>)
    requires Ascending(a) && StrictlyAscending(b) && multiset(a) == multiset(b) && |a| == |b| > 0
    ensures a[0] == b[0] && multiset(a[1..]) == multiset(b[1..])
  {
    assert a[0] in multiset(b) && b[0] in multiset(a);
    SortedHeads(a, b);
    assert a == [a[0]] + a[1..] && b == [a[0]] + b[1..];
    SameRest(a[0], a[1..], b[1..]);
  }

  lemma {:induction false} SortedIsUnique<D>(a: seq<Entry<D>>, b: seq<Entry<D>>)
    requires Ascending(a) && StrictlyAscending(b) && multiset(a) == multiset(b)
    ensures a == b
  {
    assert |multiset(a)| == |a| && |multiset(b)| == |b|;
    if a != [] {
      SortedRest(a, b);
      SortedIsUnique(a[1..], b[1..]);
      assert a == [a[0]] + a[1..] && b == [b[0]] + b[1..];
    }
  }

  // ----- Applying committed entries -----

  function ApplyEntry<S, E, D>(m: Machine<S, E, D>, p: Progress<S>, e: LogEntry<E>): Result<Progress<S>, DriverError> {
    match e.data
    case Empty => Ok(p.(applied := e.index))
    case Change(None) => Err(RaftError)
    case Proposal(None) => Err(RaftError)
    case Change(Some(c)) =>
      var config := m.reconfigure(p.config, c);
      if config.None? then Err(RaftError) else Ok(p.(applied := e.index, config := config.value))
    case Proposal(Some(event)) =>
      var actor := m.apply(p.actor, event);
      if actor.None? then Err(ActorError) else Ok(p.(applied := e.index, actor := actor.value))
  }

  function ApplyAll<S, E, D>(m: Machine<S, E, D>, p: Progress<S>, entries: seq<LogEntry<E>>)
    : Result<Progress<S>, DriverError>
    decreases |entries|
  {
    if entries == [] then Ok(p)
    else
      var next := ApplyEntry(m, p, entries[0]);
      if next.Err? then Err(next.error) else ApplyAll(m, next.value, entries[1..])
  }

  /** The entries are the next ones of the log, in any order. */
  ghost predicate IsNextBatch<E>(log: seq<LogEntry<E>>, applied: nat, batch: seq<LogEntry<E>>) {
    batch != [] ==>
      1 <= applied <= applied + |batch| <= |log| && multiset(batch) == multiset(log[applied..applied + |batch|])
  }

  lemma {:induction false} ApplyStretch<S, E, D>(
      m: Machine<S, E, D>, boot: Boot<S>, log: seq<LogEntry<E>>, p: Progress<S>, end: nat)
    requires Indexed(log) && Follows(m, boot, log, p) && 1 <= p.applied <= end <= |log|
    ensures var r := ApplyAll(m, p, log[p.applied..end]);
            && (r.Ok? <==> Fold(m, boot, log, end).Some?)
            && (r.Ok? ==> r.value.applied == end && Follows(m, boot, log, r.value))
    decreases end - p.applied
  {
    var stretch := log[p.applied..end];
    if stretch != [] {
      var e := log[p.applied];
      assert stretch[0] == e && stretch[1..] == log[p.applied + 1..end];
      var next := ApplyEntry(m, p, e);
      if next.Ok? {
        assert Fold(m, boot, log, p.applied + 1) == Some(Meaning(next.value.config, next.value.actor));
        ApplyStretch(m, boot, log, next.value, end);
      } else {
        assert Fold(m, boot, log, p.applied + 1) == None;
        if Fold(m, boot, log, end).Some? {
          FoldStaysFailed(m, boot, log, p.applied + 1, end);
        }
      }
    }
  }

  lemma StretchAscends<E>(log: seq<LogEntry<E>>, i: nat, j: nat)
    requires Indexed(log) && i <= j <= |log|
    ensures StrictlyAscending(log[i..j])
  {
  }

  lemma BatchSorts<E>(log: seq<LogEntry<E>>, applied: nat, batch: seq<LogEntry<E>>)
    requires Indexed(log) && batch != [] && IsNextBatch(log, applied, batch)
    ensures SortByIndex(batch) == log[applied..applied + |batch|]
  {
    StretchAscends(log, applied, applied + |batch|);
    SortSorts(batch);
    SortedIsUnique(SortByIndex(batch), log[applied..applied + |batch|]);
  }

  /**
   However the batch is ordered, applying it brings a replica that follows the log to the
   end of the batch, and fails exactly when the log's own meaning does.
   */
  lemma BatchFollows<S, E, D>(
      m: Machine<S, E, D>, boot: Boot<S>, log: seq<LogEntry<E>>, p: Progress<S>, batch: seq<LogEntry<E>>)
    requires Indexed(log) && Follows(m, boot, log, p) && IsNextBatch(log, p.applied, batch)
    ensures var r := ApplyAll(m, p, SortByIndex(batch));
            && (r.Ok? <==> batch == [] || Fold(m, boot, log, p.applied + |batch|).Some?)
            && (r.Ok? ==> r.value.applied == p.applied + |batch| && Follows(m, boot, log, r.value))
  {
    if batch != [] {
      BatchSorts(log, p.applied, batch);
      ApplyStretch(m, boot, log, p, p.applied + |batch|);
    }
  }

  // ----- Snapshots -----

  /** Restoring; an empty snapshot, one of index zero, is not restored. */
  function Restored<S, E, D>(
      m: Machine<S, E, D>, p: Progress<S>, s: StoredSnapshot<D>)
    : Result<Progress<S>, DriverError>
  {
    if s.index == 0 then Ok(p)
    else
      var actor := m.load(p.actor, s.data);
      if actor.None? then Err(ActorError) else Ok(Progress(s.index, s.config, actor.value))
  }

  function Taken<S, E, D>(m: Machine<S, E, D>, p: Progress<S>, term: nat): StoredSnapshot<D>
    requires m.save(p.actor).Some?
  {
    StoredSnapshot(p.applied, term, p.config, m.save(p.actor).value)
  }

  lemma RestoreFollows<S(!new), E, D(!new)>(
      m: Machine<S, E, D>, boot: Boot<S>, log: seq<LogEntry<E>>, p: Progress<S>, s: StoredSnapshot<D>)
    requires CatchesUp(m, boot, log) && Overtakes(m, boot, log, p, s)
    ensures Restored(m, p, s).Ok? && Follows(m, boot, log, Restored(m, p, s).value)
  {
  }

  // ----- The cluster -----

  /** The agreed log, where each live replica is, and every snapshot that was ever taken. */
  datatype Cluster<S, E, D> = Cluster(
    log: seq<LogEntry<E>>, replicas: map<nat, Progress<S>>, taken: seq<StoredSnapshot<D>>)

  datatype Action<S, E> =
    | Commit(entry: LogEntry<E>)
    | Join(id: nat, actor: S)
    | Apply(id: nat, batch: seq<LogEntry<E>>)
    | TakeSnapshot(id: nat, term: nat)
    | Restore(id: nat, n: nat)

  /** The leader alone, at index one, with the snapshot its storage was given. */
  ghost predicate Init<S, E, D>(m: Machine<S, E, D>, boot: Boot<S>, c: Cluster<S, E, D>) {
    && |c.log| == 1 && c.log[0].index == 1
    && c.replicas == map[boot.leader := Progress(1, ConfigState([boot.leader], [], []), boot.actor)]
    && m.save(boot.actor).Some?
    && c.taken == [StoredSnapshot(1, 1, ConfigState([boot.leader], [], []), m.save(boot.actor).value)]
  }

  ghost predicate Enabled<S, E, D>(m: Machine<S, E, D>, c: Cluster<S, E, D>, a: Action<S, E>) {
    match a
    case Commit(entry) => entry.index == |c.log| + 1
    case Join(id, actor) => id !in c.replicas && m.starts(actor)
    case Apply(id, batch) => id in c.replicas && IsNextBatch(c.log, c.replicas[id].applied, batch)
    case TakeSnapshot(id, term) => id in c.replicas && c.replicas[id].applied > 0
    case Restore(id, n) => id in c.replicas && n < |c.taken| && c.replicas[id].applied < c.taken[n].index
  }

  /** A replica whose driver fails is gone. */
  ghost function Moved<S, E, D>(c: Cluster<S, E, D>, id: nat, r: Result<Progress<S>, DriverError>): Cluster<S, E, D> {
    c.(replicas := if r.Ok? then c.replicas[id := r.value] else c.replicas - {id})
  }

  ghost function Next<S, E, D>(m: Machine<S, E, D>, c: Cluster<S, E, D>, a: Action<S, E>): Cluster<S, E, D>
    requires Enabled(m, c, a)
  {
    match a
    case Commit(entry) => c.(log := c.log + [entry])
    case Join(id, actor) => c.(replicas := c.replicas[id := Progress(0, NO_MEMBERS, actor)])
    case Apply(id, batch) => Moved(c, id, ApplyAll(m, c.replicas[id], SortByIndex(batch)))
    case TakeSnapshot(id, term) =>
      if m.save(c.replicas[id].actor).None? then Moved(c, id, Err(ActorError))
      else c.(taken := c.taken + [Taken(m, c.replicas[id], term)])
    case Restore(id, n) => Moved(c, id, Restored(m, c.replicas[id], c.taken[n]))
  }

  ghost predicate ReplicasFollow<S, E, D>(m: Machine<S, E, D>, boot: Boot<S>, c: Cluster<S, E, D>) {
    forall id | id in c.replicas :: Follows(m, boot, c.log, c.replicas[id])
  }

  ghost predicate SnapshotsFaithful<S, E, D>(m: Machine<S, E, D>, boot: Boot<S>, c: Cluster<S, E, D>) {
    forall n | 0 <= n < |c.taken| :: Faithful(m, boot, c.log, c.taken[n])
  }

  ghost predicate Inv<S, E, D>(m: Machine<S, E, D>, boot: Boot<S>, c: Cluster<S, E, D>) {
    Indexed(c.log) && ReplicasFollow(m, boot, c) && SnapshotsFaithful(m, boot, c)
  }

  lemma InitKeeps<S, E, D>(m: Machine<S, E, D>, boot: Boot<S>, c: Cluster<S, E, D>)
    requires Init(m, boot, c)
    ensures Inv(m, boot, c)
  {
  }

  lemma GrownKeeps<S, E, D>(m: Machine<S, E, D>, boot: Boot<S>, c: Cluster<S, E, D>, longer: seq<LogEntry<E>>)
    requires Inv(m, boot, c) && Indexed(longer) && c.log <= longer
    ensures Inv(m, boot, c.(log := longer))
  {
    forall id | id in c.replicas ensures Follows(m, boot, longer, c.replicas[id]) {
      var p := c.replicas[id];
      if p.applied > 0 {
        FoldOfLonger(m, boot, c.log, longer, p.applied);
      }
    }
    forall n | 0 <= n < |c.taken| ensures Faithful(m, boot, longer, c.taken[n]) {
      FoldOfLonger(m, boot, c.log, longer, c.taken[n].index);
    }
  }

  /** Catching up on a log includes catching up on every prefix of it. */
  lemma CatchesUpOnPrefix<S(!new), E, D(!new)>(
      m: Machine<S, E, D>, boot: Boot<S>, log: seq<LogEntry<E>>, longer: seq<LogEntry<E>>)
    requires log != [] && log <= longer && CatchesUp(m, boot, longer)
    ensures CatchesUp(m, boot, log)
  {
    forall p: Progress<S>, s: StoredSnapshot<D> | Overtakes(m, boot, log, p, s)
      ensures m.load(p.actor, s.data) == Some(Fold(m, boot, log, s.index).value.actor)
    {
      FoldOfLonger(m, boot, log, longer, s.index);
      if p.applied > 0 {
        FoldOfLonger(m, boot, log, longer, p.applied);
      }
      assert Overtakes(m, boot, longer, p, s);
    }
  }

  lemma InvIsInductive<S(!new), E, D(!new)>(m: Machine<S, E, D>, boot: Boot<S>, c: Cluster<S, E, D>, a: Action<S, E>)
    requires Inv(m, boot, c) && Enabled(m, c, a) && CatchesUp(m, boot, c.log)
    ensures Inv(m, boot, Next(m, c, a))
    ensures c.log <= Next(m, c, a).log
  {
    match a
    case Commit(entry) => GrownKeeps(m, boot, c, c.log + [entry]);
    case Join(id, actor) =>
    case Apply(id, batch) => BatchFollows(m, boot, c.log, c.replicas[id], batch);
    case TakeSnapshot(id, term) =>
    case Restore(id, n) => RestoreFollows(m, boot, c.log, c.replicas[id], c.taken[n]);
  }

  /** As long as the log itself has a meaning, a replica is lost exactly when its actor cannot save a snapshot. */
  lemma NoReplicaIsLost<S(!new), E, D(!new)>(m: Machine<S, E, D>, boot: Boot<S>, c: Cluster<S, E, D>, a: Action<S, E>)
    requires Inv(m, boot, c) && Enabled(m, c, a) && CatchesUp(m, boot, c.log)
    requires Fold(m, boot, c.log, |c.log|).Some?
    ensures c.replicas.Keys <= Next(m, c, a).replicas.Keys <==>
            (a.TakeSnapshot? ==> m.save(c.replicas[a.id].actor).Some?)
  {
    if a.Apply? {
      var p := c.replicas[a.id];
      BatchFollows(m, boot, c.log, p, a.batch);
      if a.batch != [] {
        FoldStaysFailed(m, boot, c.log, p.applied + |a.batch|, |c.log|);
      }
    } else if a.Restore? {
      RestoreFollows(m, boot, c.log, c.replicas[a.id], c.taken[a.n]);
    } else if a.TakeSnapshot? && m.save(c.replicas[a.id].actor).None? {
      assert a.id in c.replicas.Keys && a.id !in Next(m, c, a).replicas.Keys;
    }
  }

  // ----- Runs -----

  ghost predicate IsRun<S, E, D>(
      m: Machine<S, E, D>, boot: Boot<S>, states: seq<Cluster<S, E, D>>, actions: seq<Action<S, E>>)
  {
    && |states| == |actions| + 1 && Init(m, boot, states[0])
    && forall i | 0 <= i < |actions| ::
         Enabled(m, states[i], actions[i]) && states[i + 1] == Next(m, states[i], actions[i])
  }

  lemma {:induction false} LogGrows<S, E, D>(
      m: Machine<S, E, D>, boot: Boot<S>, states: seq<Cluster<S, E, D>>, actions: seq<Action<S, E>>, i: nat, j: nat)
    requires IsRun(m, boot, states, actions) && i <= j < |states|
    ensures states[i].log <= states[j].log
    decreases j
  {
    if i < j {
      LogGrows(m, boot, states, actions, i, j - 1);
      assert states[j] == Next(m, states[j - 1], actions[j - 1]);
    }
  }

  lemma {:induction false} InvInRun<S(!new), E, D(!new)>(
      m: Machine<S, E, D>, boot: Boot<S>, states: seq<Cluster<S, E, D>>, actions: seq<Action<S, E>>, i: nat)
    requires IsRun(m, boot, states, actions) && i < |states|
    requires CatchesUp(m, boot, states[|states| - 1].log)
    ensures Inv(m, boot, states[i])
  {
    if i == 0 {
      InitKeeps(m, boot, states[0]);
    } else {
      InvInRun(m, boot, states, actions, i - 1);
      LogGrows(m, boot, states, actions, i - 1, |states| - 1);
      CatchesUpOnPrefix(m, boot, states[i - 1].log, states[|states| - 1].log);
      InvIsInductive(m, boot, states[i - 1], actions[i - 1]);
    }
  }

  /**
   In every run, at every moment, every replica that has started has exactly the members and
   the actor state that the final log gives its applied index, however it got there.
   */
  lemma ReplicasFollowTheLog<S(!new), E, D(!new)>(
      m: Machine<S, E, D>, boot: Boot<S>, states: seq<Cluster<S, E, D>>, actions: seq<Action<S, E>>, i: nat, id: nat)
    requires IsRun(m, boot, states, actions) && i < |states| && id in states[i].replicas
    requires CatchesUp(m, boot, states[|states| - 1].log)
    ensures Follows(m, boot, states[|states| - 1].log, states[i].replicas[id])
  {
    InvInRun(m, boot, states, actions, i);
    LogGrows(m, boot, states, actions, i, |states| - 1);
    var p := states[i].replicas[id];
    if p.applied > 0 {
      FoldOfLonger(m, boot, states[i].log, states[|states| - 1].log, p.applied);
    }
  }

  /** Two replicas that were ever at the same index had the same members and the same state there. */
  lemma SameIndexSameState<S(!new), E, D(!new)>(
      m: Machine<S, E, D>, boot: Boot<S>, states: seq<Cluster<S, E, D>>, actions: seq<Action<S, E>>,
      i: nat, a: nat, j: nat, b: nat)
    requires IsRun(m, boot, states, actions) && CatchesUp(m, boot, states[|states| - 1].log)
    requires i < |states| && a in states[i].replicas && j < |states| && b in states[j].replicas
    requires states[i].replicas[a].applied == states[j].replicas[b].applied > 0
    ensures states[i].replicas[a] == states[j].replicas[b]
  {
    ReplicasFollowTheLog(m, boot, states, actions, i, a);
    ReplicasFollowTheLog(m, boot, states, actions, j, b);
  }
}
