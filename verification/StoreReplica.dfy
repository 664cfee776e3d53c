/** The tablet store as a replicated actor: it catches up whatever tablets it started with. */
module StoreReplica {
  import opened Wrappers
  import opened Storage
  import opened Replication
  import opened TabletStore

  // ----- Replicating the store -----

  ghost predicate Configured(names: set<string>, tables: Tables) {
    tables.Keys == names && ValidTables(tables)
  }

  /** Replicas start with the same tables, each with tablets of its own choosing. */
  ghost function StoreMachine(
      names: set<string>, reconfigure: (ConfigState, ConfigChange) -> Option<ConfigState>)
    : Machine<Tables, seq<TabletOp>, StoreSnapshot>
  {
    Machine((s, ops) => Some(Applied(s, ops)), s => Some(Saved(s)), (s, d) => Loaded(s, d), s => Configured(names, s),
            reconfigure)
  }

  lemma AppliedStaysConfigured(names: set<string>, tables: Tables, ops: seq<TabletOp>)
    requires Configured(names, tables)
    ensures Configured(names, Applied(tables, ops))
  {
    if AllHold(tables, ops) && tables.Keys != {} {
      var t :| t in tables;
      RequestEffect(tables, ops, t, 0);
    }
  }

  lemma {:induction false} FoldStaysConfigured(
      m: Machine<Tables, seq<TabletOp>, StoreSnapshot>, names: set<string>, boot: Boot<Tables>,
      log: seq<LogEntry<seq<TabletOp>>>, n: nat)
    requires m == StoreMachine(names, m.reconfigure) && Configured(names, boot.actor)
    requires 1 <= n <= |log| && Fold(m, boot, log, n).Some?
    ensures Configured(names, Fold(m, boot, log, n).value.actor)
  {
    if n > 1 {
      FoldStaysConfigured(m, names, boot, log, n - 1);
      var before := Fold(m, boot, log, n - 1).value.actor;
      if log[n - 1].data.Proposal? && log[n - 1].data.event.Some? {
        AppliedStaysConfigured(names, before, log[n - 1].data.event.value);
      }
    }
  }

  /** Whatever tablets a replica started with, a snapshot of the log brings it to the log's state. */
  lemma StoreCatchesUp(
      names: set<string>, reconfigure: (ConfigState, ConfigChange) -> Option<ConfigState>,
      boot: Boot<Tables>, log: seq<LogEntry<seq<TabletOp>>>)
    requires Configured(names, boot.actor) && log != []
    ensures CatchesUp(StoreMachine(names, reconfigure), boot, log)
  {
    var m := StoreMachine(names, reconfigure);
    forall p: Progress<Tables>, s: StoredSnapshot<StoreSnapshot> | Overtakes(m, boot, log, p, s)
      ensures m.load(p.actor, s.data) == Some(Fold(m, boot, log, s.index).value.actor)
    {
      FoldStaysConfigured(m, names, boot, log, s.index);
      if p.applied > 0 {
        FoldStaysConfigured(m, names, boot, log, p.applied);
      }
      SaveThenLoad(Fold(m, boot, log, s.index).value.actor, p.actor);
    }
  }
}
