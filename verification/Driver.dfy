/**
 One replica's driver: it takes what the Raft library hands it, keeps the log store and the
 actor in step, and takes a snapshot when one is wanted.
 */
module Driver {
  import opened Wrappers
  import opened Storage
  import opened Replication

  /** What the Raft library hands over in one turn; `light` are the entries it commits last. */
  datatype Ready<E, D> = Ready(
    snapshot: StoredSnapshot<D>,
    committed: seq<LogEntry<E>>,
    entries: seq<LogEntry<E>>,
    light: seq<LogEntry<E>>)

  function Base<E, D>(applied: nat, ready: Ready<E, D>): nat {
    if ready.snapshot.index == 0 then applied else ready.snapshot.index
  }

  /** The applied index a turn leads to. */
  function End<E, D>(applied: nat, ready: Option<Ready<E, D>>): nat {
    if ready.None? then applied
    else Base(applied, ready.value) + |ready.value.committed| + |ready.value.light|
  }

  ghost function Received<E, D>(s: Store<EntryData<E>, D>, snapshot: StoredSnapshot<D>): Store<EntryData<E>, D> {
    if snapshot.index == 0 then s else AfterApply(s, snapshot)
  }

  /** The store can take it: the snapshot is not behind the log, and the entries fit what is there then. */
  ghost predicate Storable<E, D>(s: Store<EntryData<E>, D>, ready: Ready<E, D>) {
    && (ready.snapshot.index == 0 || FirstIndex(s) <= ready.snapshot.index)
    && var stored := Received(s, ready.snapshot);
       Appendable(stored, ready.entries) && KeepsSnapshotTerm(stored, ready.entries)
  }

  ghost function LastStored<E, D>(s: Store<EntryData<E>, D>, ready: Ready<E, D>): nat {
    if ready.entries == [] then LastIndex(Received(s, ready.snapshot))
    else ready.entries[|ready.entries| - 1].index
  }

  /** A snapshot is one that was taken of the same log and is news, and committed entries are the next ones. */
  ghost predicate ReadyOfLog<S, E, D>(
      m: Machine<S, E, D>, boot: Boot<S>, log: seq<LogEntry<E>>, applied: nat, ready: Ready<E, D>)
  {
    && (ready.snapshot.index == 0 ||
        (Faithful(m, boot, log, ready.snapshot) && applied < ready.snapshot.index))
    && IsNextBatch(log, Base(applied, ready), ready.committed)
    && IsNextBatch(log, Base(applied, ready) + |ready.committed|, ready.light)
  }

  /**
   What the driver relies on in the Raft library: what it hands over is of the log, what is
   appended fits the store and leaves the snapshot's entry alone, and nothing is applied that
   was not stored.
   */
  ghost predicate ReadyOk<S, E, D>(
      m: Machine<S, E, D>, boot: Boot<S>, log: seq<LogEntry<E>>,
      s: Store<EntryData<E>, D>, applied: nat, ready: Ready<E, D>)
  {
    ReadyOfLog(m, boot, log, applied, ready) && Storable(s, ready) && End(applied, Some(ready)) <= LastStored(s, ready)
  }

  ghost predicate OwnSnapshotFaithful<S, E, D>(
      m: Machine<S, E, D>, boot: Boot<S>, log: seq<LogEntry<E>>, snapshot: StoredSnapshot<D>)
  {
    snapshot.index == 0 || Faithful(m, boot, log, snapshot)
  }

  /** The actor can load this snapshot where it is now. */
  ghost predicate LoadsHere<S, E, D>(
      m: Machine<S, E, D>, boot: Boot<S>, log: seq<LogEntry<E>>, p: Progress<S>, snapshot: StoredSnapshot<D>)
  {
    Overtakes(m, boot, log, p, snapshot) ==>
      m.load(p.actor, snapshot.data) == Some(Fold(m, boot, log, snapshot.index).value.actor)
  }

  /** An actor that catches up can load every snapshot that is news, wherever it is. */
  lemma CatchingUpLoads<S(!new), E, D(!new)>(
      m: Machine<S, E, D>, boot: Boot<S>, log: seq<LogEntry<E>>, p: Progress<S>, snapshot: StoredSnapshot<D>)
    requires CatchesUp(m, boot, log)
    ensures LoadsHere(m, boot, log, p, snapshot)
  {
  }

  /** Not behind the snapshot, and with its members when at it. */
  ghost predicate Past<S, D>(snapshot: StoredSnapshot<D>, p: Progress<S>) {
    snapshot.index <= p.applied && (p.applied == snapshot.index ==> p.config == snapshot.config)
  }

  lemma RestoreGoesWell<S, E, D>(
      m: Machine<S, E, D>, boot: Boot<S>, log: seq<LogEntry<E>>, own: StoredSnapshot<D>, p: Progress<S>,
      s: StoredSnapshot<D>)
    requires Follows(m, boot, log, p) && LoadsHere(m, boot, log, p, s) && Past(own, p)
    requires s.index == 0 || (Faithful(m, boot, log, s) && p.applied < s.index)
    ensures var r := Restored(m, p, s);
            && r.Ok? && Follows(m, boot, log, r.value)
            && r.value.applied == (if s.index == 0 then p.applied else s.index)
            && Past(if s.index == 0 then own else s, r.value)
  {
  }

  lemma FailedForGood<S, E, D>(m: Machine<S, E, D>, boot: Boot<S>, log: seq<LogEntry<E>>, n: nat, end: nat)
    requires 1 <= n <= end <= |log| && Fold(m, boot, log, n).None?
    ensures Fold(m, boot, log, end).None?
  {
    if Fold(m, boot, log, end).Some? {
      FoldStaysFailed(m, boot, log, n, end);
    }
  }

  function ApplyBoth<S, E, D>(
      m: Machine<S, E, D>, p: Progress<S>, first: seq<LogEntry<E>>, second: seq<LogEntry<E>>)
    : Result<Progress<S>, DriverError>
  {
    var applied := ApplyAll(m, p, SortByIndex(first));
    if applied.Err? then applied else ApplyAll(m, applied.value, SortByIndex(second))
  }

  /** What a turn makes of a replica. */
  function Turn<S, E, D>(m: Machine<S, E, D>, p: Progress<S>, ready: Ready<E, D>): Result<Progress<S>, DriverError> {
    var restored := Restored(m, p, ready.snapshot);
    if restored.Err? then restored else ApplyBoth(m, restored.value, ready.committed, ready.light)
  }

  /** The result is at `end`, where the log says and past the snapshot, unless the log fails by then. */
  ghost predicate EndsAt<S, E, D>(
      m: Machine<S, E, D>, boot: Boot<S>, log: seq<LogEntry<E>>, own: StoredSnapshot<D>,
      r: Result<Progress<S>, DriverError>, end: nat)
  {
    && (end == 0 || end <= |log|)
    && (r.Ok? <==> end == 0 || Fold(m, boot, log, end).Some?)
    && (r.Ok? ==> r.value.applied == end && Follows(m, boot, log, r.value) && Past(own, r.value))
  }

  lemma ApplyEndsAt<S, E, D>(
      m: Machine<S, E, D>, boot: Boot<S>, log: seq<LogEntry<E>>, own: StoredSnapshot<D>, p: Progress<S>,
      batch: seq<LogEntry<E>>)
    requires Indexed(log) && Follows(m, boot, log, p) && IsNextBatch(log, p.applied, batch) && Past(own, p)
    ensures EndsAt(m, boot, log, own, ApplyAll(m, p, SortByIndex(batch)), p.applied + |batch|)
  {
    if batch != [] {
      BatchFollows(m, boot, log, p, batch);
    }
  }

  lemma ApplyBothEndsAt<S, E, D>(
      m: Machine<S, E, D>, boot: Boot<S>, log: seq<LogEntry<E>>, own: StoredSnapshot<D>, p: Progress<S>,
      first: seq<LogEntry<E>>, second: seq<LogEntry<E>>)
    requires Indexed(log) && Follows(m, boot, log, p) && Past(own, p)
    requires IsNextBatch(log, p.applied, first) && IsNextBatch(log, p.applied + |first|, second)
    ensures EndsAt(m, boot, log, own, ApplyBoth(m, p, first, second), p.applied + |first| + |second|)
  {
    var middle, end := p.applied + |first|, p.applied + |first| + |second|;
    ApplyEndsAt(m, boot, log, own, p, first);
    var applied := ApplyAll(m, p, SortByIndex(first));
    if applied.Ok? {
      assert applied.value.applied == middle && IsNextBatch(log, applied.value.applied, second);
      ApplyEndsAt(m, boot, log, own, applied.value, second);
    } else {
      assert middle <= end <= |log|;
      FailedForGood(m, boot, log, middle, end);
    }
  }

  /** The snapshot a store has after a turn, unless another is taken. */
  ghost function OwnAfter<E, D>(own: StoredSnapshot<D>, ready: Ready<E, D>): StoredSnapshot<D> {
    if ready.snapshot.index == 0 then own else ready.snapshot
  }

  lemma TurnFromRestored<S, E, D>(
      m: Machine<S, E, D>, boot: Boot<S>, log: seq<LogEntry<E>>,
      own: StoredSnapshot<D>, p: Progress<S>, restored: Progress<S>, ready: Ready<E, D>)
    requires Restored(m, p, ready.snapshot) == Ok(restored) && restored.applied == Base(p.applied, ready)
    requires Indexed(log) && Follows(m, boot, log, restored) && Past(own, restored)
    requires IsNextBatch(log, restored.applied, ready.committed)
    requires IsNextBatch(log, restored.applied + |ready.committed|, ready.light)
    ensures EndsAt(m, boot, log, own, Turn(m, p, ready), End(p.applied, Some(ready)))
  {
    ApplyBothEndsAt(m, boot, log, own, restored, ready.committed, ready.light);
  }

  /** A turn takes a replica along the log, past the snapshot its store then has. */
  lemma TurnFollows<S, E, D>(
      m: Machine<S, E, D>, boot: Boot<S>, log: seq<LogEntry<E>>,
      own: StoredSnapshot<D>, p: Progress<S>, ready: Ready<E, D>)
    requires Indexed(log) && Follows(m, boot, log, p) && Past(own, p)
    requires LoadsHere(m, boot, log, p, ready.snapshot) && ReadyOfLog(m, boot, log, p.applied, ready)
    ensures EndsAt(m, boot, log, OwnAfter(own, ready), Turn(m, p, ready), End(p.applied, Some(ready)))
  {
    RestoreGoesWell(m, boot, log, own, p, ready.snapshot);
    var restored := Restored(m, p, ready.snapshot).value;
    TurnFromRestored(m, boot, log, OwnAfter(own, ready), p, restored, ready);
  }

  /** In step with the store, where the log says, and with a snapshot of the log. */
  ghost predicate StandsAt<S, E, D>(
      m: Machine<S, E, D>, boot: Boot<S>, log: seq<LogEntry<E>>, s: Store<EntryData<E>, D>, p: Progress<S>)
  {
    && InStep(s, p.applied, p.config)
    && Indexed(log) && Follows(m, boot, log, p) && OwnSnapshotFaithful(m, boot, log, s.snapshot)
  }

  lemma TurnKeepsStep<S, E, D>(
      m: Machine<S, E, D>, boot: Boot<S>, log: seq<LogEntry<E>>,
      s: Store<EntryData<E>, D>, t: Store<EntryData<E>, D>, p: Progress<S>, ready: Ready<E, D>)
    requires StandsAt(m, boot, log, s, p)
    requires LoadsHere(m, boot, log, p, ready.snapshot) && ReadyOk(m, boot, log, s, p.applied, ready)
    ensures var r, end := Turn(m, p, ready), End(p.applied, Some(ready));
            && (r.Ok? <==> end == 0 || Fold(m, boot, log, end).Some?)
            && (r.Ok? && t.snapshot == OwnAfter(s.snapshot, ready) && LastIndex(t) == LastStored(s, ready) ==>
                  r.value.applied == end && StandsAt(m, boot, log, t, r.value))
  {
    TurnFollows(m, boot, log, s.snapshot, p, ready);
  }

  class ReplicaDriver<S, E, D> {
    const machine: Machine<S, E, D>
    const store: MemoryStorage<EntryData<E>, D>
    var applied: nat
    var config: ConfigState
    var actor: S

    ghost function Model(): Progress<S>
      reads this
    {
      Progress(applied, config, actor)
    }

    /** Where the log says, with a store that is in step and whose snapshot is of the same log. */
    ghost predicate Valid(boot: Boot<S>, log: seq<LogEntry<E>>)
      reads this, store
    {
      store.Valid() && StandsAt(machine, boot, log, store.Model(), Model())
    }

    /** The first leader gets a snapshot of its initial state at index one; others start with nothing. */
    constructor (machine: Machine<S, E, D>, id: nat, leader: bool, actor: S, empty: D, maxSnapshotDiff: nat,
                 ghost boot: Boot<S>, ghost log: seq<LogEntry<E>>)
      requires machine.starts(actor) && machine.save(actor).Some?
      requires Indexed(log) && (leader ==> boot == Boot(id, actor))
      ensures Valid(boot, log) && fresh(store)
      ensures applied == if leader then 1 else 0
      ensures this.machine == machine && this.actor == actor
    {
      this.machine := machine;
      this.actor := actor;
      this.applied, this.config := 0, NO_MEMBERS;
      this.store := new MemoryStorage(maxSnapshotDiff, empty);
      new;
      if leader {
        var members := ConfigState([id], [], []);
        var r := store.ApplySnapshot(StoredSnapshot(1, 1, members, machine.save(actor).value));
        applied, config := 1, members;
      }
    }

    method ApplyCommittedEntries(committed: seq<LogEntry<E>>) returns (r: Result<(), DriverError>)
      modifies this
      ensures var spec := ApplyAll(machine, old(Model()), SortByIndex(committed));
              if spec.Ok? then r == Ok(()) && Model() == spec.value else r == Err(spec.error)
    {
      var rest := SortByIndex(committed);
      ghost var spec := ApplyAll(machine, Model(), rest);
      while rest != []
        invariant ApplyAll(machine, Model(), rest) == spec
        decreases |rest|
      {
        var entry := rest[0];
        applied := entry.index;
        match entry.data {
          case Empty =>
          case Change(None) => return Err(RaftError);
          case Change(Some(change)) =>
            var changed := machine.reconfigure(config, change);
            if changed.None? {
              return Err(RaftError);
            }
            config := changed.value;
          case Proposal(None) => return Err(RaftError);
          case Proposal(Some(event)) =>
            var next := machine.apply(actor, event);
            if next.None? {
              return Err(ActorError);
            }
            actor := next.value;
        }
        rest := rest[1..];
      }
      r := Ok(());
    }

    method RestoreSnapshot(snapshot: StoredSnapshot<D>) returns (r: Result<(), DriverError>)
      requires store.Valid()
      modifies this, store
      ensures store.Valid()
      ensures snapshot.index != 0 && snapshot.index < old(FirstIndex(store.Model())) ==> r == Err(RaftError)
      ensures snapshot.index == 0 || snapshot.index >= old(FirstIndex(store.Model())) ==>
                && store.Model() == Received(old(store.Model()), snapshot)
                && var spec := Restored(machine, old(Model()), snapshot);
                   if spec.Ok? then r == Ok(()) && Model() == spec.value else r == Err(spec.error)
    {
      if snapshot.index == 0 {
        return Ok(());
      }
      ghost var before, stale := store.Model(), store.log;
      config := snapshot.config;
      assert store.Model() == before && store.log == stale;
      var stored := store.ApplySnapshot(snapshot);
      if stored.Err? {
        return Err(RaftError);
      }
      var loaded := machine.load(actor, snapshot.data);
      if loaded.None? {
        return Err(ActorError);
      }
      actor := loaded.value;
      applied := snapshot.index;
      r := Ok(());
    }

    /** In step, this fails exactly when a snapshot is wanted that the actor cannot save; else none is wanted then. */
    method MaybeCreateSnapshot() returns (r: Result<(), DriverError>)
      requires store.Valid() && InStep(store.Model(), applied, config)
      modifies store
      ensures r == if old(ShouldSnapshot(store.Model(), applied, config)) && machine.save(actor).None?
                   then Err(ActorError) else Ok(())
      ensures store.Valid() && store.log == old(store.log) && InStep(store.Model(), applied, config)
      ensures r.Ok? ==> !ShouldSnapshot(store.Model(), applied, config)
      ensures if r.Ok? && old(ShouldSnapshot(store.Model(), applied, config))
              then store.snapshot == Taken(machine, Model(), store.snapshot.term)
              else store.Model() == old(store.Model())
    {
      var should := store.ShouldTakeSnapshot(applied, config);
      if !should {
        return Ok(());
      }
      ghost var before := store.Model();
      var data := machine.save(actor);
      if data.None? {
        return Err(ActorError);
      }
      WantedSnapshotSucceeds(before, applied, config, data.value);
      var created := store.CreateSnapshot(applied, config, data.value);
      r := if created.Ok? then Ok(()) else Err(ActorError);
    }

    /** One turn without the final snapshot. */
    method AdvanceRaft(ready: Ready<E, D>) returns (r: Result<(), DriverError>)
      requires store.Valid() && Storable(store.Model(), ready)
      modifies this, store
      ensures var spec := Turn(machine, old(Model()), ready);
              if spec.Ok? then r == Ok(()) && Model() == spec.value else r == Err(spec.error)
      ensures r.Ok? ==>
                && store.Valid() && store.snapshot == OwnAfter(old(store.snapshot), ready)
                && LastIndex(store.Model()) == LastStored(old(store.Model()), ready)
    {
      r := RestoreSnapshot(ready.snapshot);
      if r.Err? {
        return;
      }
      r := ApplyCommittedEntries(ready.committed);
      if r.Err? {
        return;
      }
      store.AppendEntries(ready.entries);
      r := ApplyCommittedEntries(ready.light);
    }

    /**
     A whole turn: the replica ends where the log says, at the end of what it was handed, its
     store in step, with no snapshot wanted. It fails exactly when the log itself does, or with a
     snapshot wanted at the end that the actor there cannot save.
     */
    method ProcessStateMachine(ready: Option<Ready<E, D>>, ghost boot: Boot<S>, ghost log: seq<LogEntry<E>>)
      returns (r: Result<(), DriverError>)
      requires Valid(boot, log)
      requires ready.Some? ==> LoadsHere(machine, boot, log, Model(), ready.value.snapshot) &&
                               ReadyOk(machine, boot, log, store.Model(), applied, ready.value)
      modifies this, store
      ensures var end := End(old(applied), ready);
              if end > 0 && Fold(machine, boot, log, end).None? then r.Err?
              else
                && Valid(boot, log) && applied == end
                && (r.Ok? ==> !ShouldSnapshot(store.Model(), applied, config))
                && (r.Err? ==> ShouldSnapshot(store.Model(), applied, config) && machine.save(actor).None?)
    {
      if ready.Some? {
        ghost var before, start := store.Model(), Model();
        r := AdvanceRaft(ready.value);
        TurnKeepsStep(machine, boot, log, before, store.Model(), start, ready.value);
        if r.Err? {
          return;
        }
      }
      r := MaybeCreateSnapshot();
    }
  }
}
