/**
 Runs of coordinators and store in which a commit is not atomic: because the calls of a transaction
 disagree, and because a transaction is shown contents that were never committed.
 */
module BadRuns {
  import opened Wrappers
  import opened Paths
  import opened TabletStore
  import opened Coordinator
  import opened Serializability
  import opened SerializableRuns

  ghost predicate IsStep(s: System, a: Action, t: System) {
    Enabled(s, a) && t == Next(s, a)
  }

  lemma RunOf(s: System, actions: seq<Action>, t: System) returns (states: seq<System>)
    requires Init(s) && Leads(IsStep, s, actions, t)
    ensures IsRun(states, actions) && states[|actions|] == t
  {
    states := StatesOf(IsStep, s, actions, t);
    forall i {:trigger actions[i]} | 0 <= i < |actions|
      ensures Enabled(states[i], actions[i]) && states[i + 1] == Next(states[i], actions[i])
    {
      assert IsStep(states[i], actions[i], states[i + 1]);
    }
  }

  // ----- A process request that is handed one tablet -----

  datatype Read = Read(query: TableQuery, metadata: TabletMetadata, handler: Handler)

  ghost function KeyOf(r: Read): TabletKey {
    CreateTabletKey(r.metadata)
  }

  ghost function Loaded1(r: Read): TabletStates {
    map[KeyOf(r) := TabletState(r.query, Tablet(r.metadata, Some(r.metadata.blob), None, false))]
  }

  ghost function Written(r: Read): TabletStates {
    StoreWrites(Loaded1(r), r.handler(View(Loaded1(r))))
  }

  /** The process after `i` steps. */
  ghost function StageOf(r: Read, i: nat): ProcessState {
    if i == 0 then ProcessState(Pending([r.query]), r.handler, map[])
    else if i == 1 then ProcessState(Resolving, r.handler, map[])
    else if i == 2 then
      ProcessState(Loading([r.metadata]), r.handler,
                   map[KeyOf(r) := TabletState(r.query, Tablet(r.metadata, None, None, false))])
    else if i == 3 then ProcessState(Storing, r.handler, Written(r))
    else ProcessState(Completed, r.handler, Written(r))
  }

  ghost function AnswerAt(r: Read, i: nat): Answer {
    if i == 0 then NotReady
    else if i == 1 then Resolved([(r.query, r.metadata)])
    else if i == 2 then Loaded(LoadOf([r.metadata]))
    else Stored
  }

  lemma StageAdvances(r: Read, i: nat)
    requires i < 4
    ensures AnswerFits(StageOf(r, i), AnswerAt(r, i)) && Advance(StageOf(r, i), AnswerAt(r, i)) == StageOf(r, i + 1)
  {
    if i == 1 {
      var resolved := [(r.query, r.metadata)];
      assert resolved[..0] == [];
      assert Metadatas(resolved) == [r.metadata];
      assert InsertResolved(map[], resolved) == StageOf(r, 2).tablets;
    } else if i == 2 {
      var loaded := LoadOf([r.metadata]);
      assert loaded[..0] == [] && loaded == [(r.metadata, r.metadata.blob)];
      assert SetContents(StageOf(r, 2).tablets, loaded) == Loaded1(r);
    }
  }

  ghost function Stages(wants: seq<Read>, i: nat): seq<ProcessState> {
    seq(|wants|, j requires 0 <= j < |wants| => StageOf(wants[j], i))
  }

  // ----- A transaction of such requests -----

  ghost predicate NonePreparing(k: Coordinator) {
    forall id | id in k.transactions :: !k.transactions[id].Preparing?
  }

  /** The transaction is this far, and the only one that is being prepared. */
  ghost predicate IsAt(k: Coordinator, id: nat, processes: seq<ProcessState>) {
    && id in k.transactions && k.transactions[id] == Preparing(processes)
    && forall other | other in k.transactions && other != id :: !k.transactions[other].Preparing?
  }

  ghost predicate AllKnown(known: set<Known>, wants: seq<Read>) {
    forall j | 0 <= j < |wants| :: Known(wants[j].query.tableName, wants[j].metadata) in known
  }

  lemma StagesAdvance(wants: seq<Read>, i: nat, answers: seq<Answer>)
    requires i < 4 && answers == seq(|wants|, j requires 0 <= j < |wants| => AnswerAt(wants[j], i))
    ensures forall j | 0 <= j < |wants| :: AnswerFits(Stages(wants, i)[j], answers[j])
    ensures AdvanceAll(Stages(wants, i), answers) == Stages(wants, i + 1)
  {
    forall j | 0 <= j < |wants|
      ensures AnswerFits(Stages(wants, i)[j], answers[j])
      ensures Advance(Stages(wants, i)[j], answers[j]) == Stages(wants, i + 1)[j]
    {
      StageAdvances(wants[j], i);
    }
  }

  lemma WithTwice(s: System, c: nat, k: Coordinator, l: Coordinator)
    ensures WithCoordinator(WithCoordinator(s, c, k), c, l) == WithCoordinator(s, c, l)
  {
    assert s.coordinators[c := k][c := l] == s.coordinators[c := l];
  }

  lemma ProgressesOnce(s: System, c: nat, id: nat, wants: seq<Read>, i: nat)
    returns (actions: seq<Action>, k: Coordinator)
    requires i < 4 && c in s.coordinators && IsAt(s.coordinators[c], id, Stages(wants, i)) && AllKnown(s.known, wants)
    ensures Leads(IsStep, s, actions, WithCoordinator(s, c, k)) && IsAt(k, id, Stages(wants, i + 1))
  {
    var given := seq(|wants|, j requires 0 <= j < |wants| => AnswerAt(wants[j], i));
    var answers: Answers := map[id := given];
    StagesAdvance(wants, i, given);
    forall other, j | other in answers && 0 <= j < |answers[other]| ensures ResolvesFrom(s.known, answers[other][j]) {
      assert answers[other][j] == AnswerAt(wants[j], i);
      assert Known(wants[j].query.tableName, wants[j].metadata) in s.known;
    }
    k := Progressed(s.coordinators[c], answers);
    actions := OneStep(IsStep, s, MakeProgress(c, answers), WithCoordinator(s, c, k));
  }

  lemma {:induction false} Progresses(s: System, c: nat, id: nat, wants: seq<Read>, n: nat)
    returns (actions: seq<Action>, k: Coordinator)
    requires n <= 4 && c in s.coordinators && IsAt(s.coordinators[c], id, Stages(wants, 0)) && AllKnown(s.known, wants)
    ensures Leads(IsStep, s, actions, WithCoordinator(s, c, k)) && IsAt(k, id, Stages(wants, n))
  {
    if n == 0 {
      k := s.coordinators[c];
      actions := [];
      assert WithCoordinator(s, c, k).coordinators == s.coordinators;
    } else {
      var some, middle := Progresses(s, c, id, wants, n - 1);
      var last;
      last, k := ProgressesOnce(WithCoordinator(s, c, middle), c, id, wants, n - 1);
      WithTwice(s, c, middle, k);
      actions := Joined(IsStep, s, some, WithCoordinator(s, c, middle), last, WithCoordinator(s, c, k));
    }
  }

  lemma GathersOne(s: System, c: nat, id: nat, processes: seq<ProcessState>, r: Read)
    returns (actions: seq<Action>, k: Coordinator)
    requires c in s.coordinators && IsAt(s.coordinators[c], id, processes)
    ensures Leads(IsStep, s, actions, WithCoordinator(s, c, k)) && IsAt(k, id, processes + [StageOf(r, 0)])
  {
    k := WithProcess(s.coordinators[c], id, [r.query], r.handler);
    actions := OneStep(IsStep, s, ProcessTransaction(c, id, [r.query], r.handler), WithCoordinator(s, c, k));
  }

  lemma {:induction false} Gathers(s: System, c: nat, id: nat, wants: seq<Read>)
    returns (actions: seq<Action>, k: Coordinator)
    requires c in s.coordinators && IsAt(s.coordinators[c], id, [])
    ensures Leads(IsStep, s, actions, WithCoordinator(s, c, k)) && IsAt(k, id, Stages(wants, 0))
  {
    if wants == [] {
      k := s.coordinators[c];
      actions := [];
      assert WithCoordinator(s, c, k).coordinators == s.coordinators;
      assert Stages(wants, 0) == [];
    } else {
      var n := |wants| - 1;
      var some, middle := Gathers(s, c, id, wants[..n]);
      var last;
      last, k := GathersOne(WithCoordinator(s, c, middle), c, id, Stages(wants[..n], 0), wants[n]);
      assert Stages(wants, 0) == Stages(wants[..n], 0) + [StageOf(wants[n], 0)];
      WithTwice(s, c, middle, k);
      actions := Joined(IsStep, s, some, WithCoordinator(s, c, middle), last, WithCoordinator(s, c, k));
    }
  }

  ghost function CallFor(r: Read): Call {
    Call(map[KeyOf(r) := r.query], r.handler, map[KeyOf(r) := TabletView(r.query, r.metadata.blob)])
  }

  ghost function OpFor(r: Read): TabletOp {
    var writes := r.handler(map[KeyOf(r) := TabletView(r.query, r.metadata.blob)]);
    TabletOp(r.query.tableName, Some(
      if KeyOf(r) in writes
      then UpdateTablet(Some(TabletMetadata(r.metadata.tabletId, r.metadata.tabletVersion + 1, writes[KeyOf(r)])))
      else CheckTablet(r.metadata.tabletId, r.metadata.tabletVersion)))
  }

  ghost function CallsFor(wants: seq<Read>): seq<Call> {
    seq(|wants|, j requires 0 <= j < |wants| => CallFor(wants[j]))
  }

  ghost function OpsFor(wants: seq<Read>): seq<TabletOp> {
    seq(|wants|, j requires 0 <= j < |wants| => OpFor(wants[j]))
  }

  ghost function OrderOf(wants: seq<Read>): seq<(nat, TabletKey)> {
    seq(|wants|, j requires 0 <= j < |wants| => (j, KeyOf(wants[j])))
  }

  lemma WrittenIs(r: Read)
    ensures Written(r).Keys == {KeyOf(r)} && GetTabletOp(Written(r)[KeyOf(r)]) == OpFor(r)
    ensures CallOf(StageOf(r, 4)) == CallFor(r)
  {
    assert View(Loaded1(r)) == map[KeyOf(r) := TabletView(r.query, r.metadata.blob)];
    WritingKeepsView(Loaded1(r), r.handler(View(Loaded1(r))));
    assert (map k | k in Written(r) :: Written(r)[k].query) == map[KeyOf(r) := r.query];
  }

  lemma OrderCovers(wants: seq<Read>)
    ensures Covers(Stages(wants, 4), OrderOf(wants)) && OpsOf(Stages(wants, 4), OrderOf(wants)) == OpsFor(wants)
    ensures CallsOf(Stages(wants, 4)) == CallsFor(wants) && !IsActive(Stages(wants, 4))
  {
    var processes, order := Stages(wants, 4), OrderOf(wants);
    forall j | 0 <= j < |wants|
      ensures InProcess(processes, order[j]) && SlotOp(processes, order[j]) == OpFor(wants[j])
      ensures CallOf(processes[j]) == CallFor(wants[j]) && processes[j].tablets.Keys == {KeyOf(wants[j])}
    {
      WrittenIs(wants[j]);
    }
    forall slot: (nat, TabletKey) | InProcess(processes, slot) ensures slot in order {
      assert order[slot.0] == slot;
    }
  }

  /** The coordinator awaits the answer to this request. */
  ghost predicate AwaitsAnswer(k: Coordinator, q: Request) {
    Awaits(k, q.correlation) && k.transactions[k.correlations[q.correlation]] == Committing(q.ops)
  }

  lemma Creates(s: System, c: nat) returns (actions: seq<Action>, k: Coordinator, id: nat)
    requires c in s.coordinators && NonePreparing(s.coordinators[c])
    ensures Leads(IsStep, s, actions, WithCoordinator(s, c, k)) && IsAt(k, id, [])
  {
    k := Created(s.coordinators[c]);
    id := k.transactionCounter;
    actions := OneStep(IsStep, s, CreateTransaction(c), WithCoordinator(s, c, k));
  }

  lemma Sends(s: System, c: nat, id: nat, wants: seq<Read>) returns (actions: seq<Action>, k: Coordinator, q: Request)
    requires c in s.coordinators && IsAt(s.coordinators[c], id, Stages(wants, 4))
    ensures Leads(IsStep, s, actions, WithCoordinator(s, c, k).(requests := s.requests + [q]))
    ensures q.coordinator == c && q.ops == OpsFor(wants) && q.calls == CallsFor(wants)
    ensures NonePreparing(k) && AwaitsAnswer(k, q)
  {
    OrderCovers(wants);
    k := Committed(s.coordinators[c], id, OpsFor(wants));
    q := Request(c, id, k.correlationCounter, OpsFor(wants), CallsFor(wants));
    var t := WithCoordinator(s, c, k).(requests := s.requests + [q]);
    actions := OneStep(IsStep, s, CommitTransaction(c, id, OrderOf(wants)), t);
  }

  /** A coordinator runs a whole transaction and sends its request. */
  lemma Submits(s: System, c: nat, wants: seq<Read>) returns (actions: seq<Action>, k: Coordinator, q: Request)
    requires c in s.coordinators && NonePreparing(s.coordinators[c]) && AllKnown(s.known, wants)
    ensures Leads(IsStep, s, actions, WithCoordinator(s, c, k).(requests := s.requests + [q]))
    ensures q.coordinator == c && q.ops == OpsFor(wants) && q.calls == CallsFor(wants)
    ensures NonePreparing(k) && AwaitsAnswer(k, q)
  {
    var create, k0, id := Creates(s, c);
    var s0 := WithCoordinator(s, c, k0);
    var gather, k1 := Gathers(s0, c, id, wants);
    var s1 := WithCoordinator(s0, c, k1);
    var progress, k2 := Progresses(s1, c, id, wants, 4);
    var s2 := WithCoordinator(s1, c, k2);
    var commit;
    commit, k, q := Sends(s2, c, id, wants);
    WithTwice(s, c, k0, k1);
    WithTwice(s, c, k1, k2);
    WithTwice(s, c, k2, k);
    var t := WithCoordinator(s, c, k).(requests := s.requests + [q]);
    actions := Joined(IsStep, s, create, s0, gather, s1);
    actions := Joined(IsStep, s, actions, s1, progress, s2);
    actions := Joined(IsStep, s, actions, s2, commit, t);
  }

  // ----- The store -----

  /** The ops transactions make, on a table there is. */
  ghost predicate IsKept(tables: Tables, op: TabletOp) {
    op.op.Some? && op.tableName in tables &&
    (op.op.value.CheckTablet? || (op.op.value.UpdateTablet? && op.op.value.metadata.Some?))
  }

  lemma AnswerTo(tables: Tables, op: TabletOp) returns (r: TabletOpResult)
    requires IsKept(tables, op)
    ensures Prepared(tables, op, r)
  {
    var table := tables[op.tableName];
    var status := if OpHolds(tables, op) then Succeeded else OpStatus.Failed;
    match op.op.value
    case CheckTablet(id, _) =>
      r := TabletOpResult(op.tableName, status, Some(CheckResult(
             if id in table && status == OpStatus.Failed then Some(table[id]) else None)));
    case UpdateTablet(m) =>
      r := TabletOpResult(op.tableName, status, Some(UpdateResult(
             if m.value.tabletId in table then Some(table[m.value.tabletId]) else None)));
  }

  lemma {:induction false} AnswersTo(tables: Tables, ops: seq<TabletOp>) returns (results: seq<TabletOpResult>)
    requires forall i | 0 <= i < |ops| :: IsKept(tables, ops[i])
    ensures PreparedAll(tables, ops, results)
  {
    if ops == [] {
      results := [];
    } else {
      var n := |ops| - 1;
      var some := AnswersTo(tables, ops[..n]);
      var last := AnswerTo(tables, ops[n]);
      results := some + [last];
      assert forall i | 0 <= i < n :: Prepared(tables, ops[..n][i], some[i]);
    }
  }

  /** The world once the store answered the request, and committed it if it could. */
  ghost function AfterApply(s: System, q: nat, results: seq<TabletOpResult>): System
    requires q < |s.requests|
  {
    var ops := s.requests[q].ops;
    var answered := s.(responses := s.responses + [Response(q, results)]);
    if AllHold(s.tables, ops) then CommittedTo(answered, q, Applied(s.tables, ops)) else answered
  }

  lemma Applies(s: System, q: nat) returns (actions: seq<Action>, results: seq<TabletOpResult>)
    requires q < |s.requests| && forall i | 0 <= i < |s.requests[q].ops| :: IsKept(s.tables, s.requests[q].ops[i])
    ensures PreparedAll(s.tables, s.requests[q].ops, results) && Leads(IsStep, s, actions, AfterApply(s, q, results))
  {
    results := AnswersTo(s.tables, s.requests[q].ops);
    actions := OneStep(IsStep, s, ApplyRequest(q, results), Next(s, ApplyRequest(q, results)));
  }

  /** What a whole transaction leaves behind once it is committed: nothing else is known or changed. */
  ghost predicate HasCommitted(s: System, c: nat, wants: seq<Read>, t: System)
    requires c in s.coordinators
  {
    && |t.requests| == |s.requests| + 1 && t.requests[..|s.requests|] == s.requests
    && t.requests[|s.requests|].calls == CallsFor(wants)
    && t.known == s.known && |t.responses| == |s.responses| + 1
    && t.tables == Applied(s.tables, OpsFor(wants)) && t.history == s.history + [t.tables]
    && t.log == s.log + [|s.requests|]
    && t.coordinators.Keys == s.coordinators.Keys && NonePreparing(t.coordinators[c])
    && forall d | d in s.coordinators && d != c :: t.coordinators[d] == s.coordinators[d]
  }

  lemma Commits(s: System, c: nat, wants: seq<Read>) returns (actions: seq<Action>, t: System)
    requires c in s.coordinators && NonePreparing(s.coordinators[c]) && AllKnown(s.known, wants)
    requires AllHold(s.tables, OpsFor(wants))
    ensures Leads(IsStep, s, actions, t) && HasCommitted(s, c, wants, t)
  {
    var submit, k, q := Submits(s, c, wants);
    var middle := WithCoordinator(s, c, k).(requests := s.requests + [q]);
    assert forall i | 0 <= i < |q.ops| :: OpHolds(s.tables, q.ops[i]) && IsKept(s.tables, q.ops[i]) by {
      forall i | 0 <= i < |wants| ensures IsKept(s.tables, OpsFor(wants)[i]) {
        assert OpHolds(s.tables, OpsFor(wants)[i]) && OpsFor(wants)[i] == OpFor(wants[i]);
      }
    }
    var apply, results := Applies(middle, |s.requests|);
    t := AfterApply(middle, |s.requests|, results);
    actions := Joined(IsStep, s, submit, middle, apply, t);
  }

  ghost function With(tables: Tables, t: string, m: TabletMetadata): Tables
    requires t in tables
  {
    var id: Hash := m.tabletId;
    var table: Table := tables[t][id := m];
    tables[t := table]
  }

  lemma AppliedOne(tables: Tables, op: TabletOp)
    requires OpHolds(tables, op) && IsKept(tables, op)
    ensures AllHold(tables, [op])
    ensures Applied(tables, [op]) ==
            if op.op.value.CheckTablet? then tables else With(tables, op.tableName, op.op.value.metadata.value)
  {
    assert [op][..0] == [];
    assert CommitOps(tables, []) == tables;
  }

  // ----- An update that is lost -----

  ghost function Idle(): Coordinator {
    Coordinator(0, 0, map[], map[], [])
  }

  ghost function Start(tables: Tables): System {
    System(tables, map[1 := Idle(), 2 := Idle(), 3 := Idle()], {}, [], [], [tables], [])
  }

  lemma Lists(s: System, t: string, id: Hash) returns (actions: seq<Action>)
    requires HasTablet(s.tables, t, id)
    ensures Leads(IsStep, s, actions, s.(known := s.known + {Known(t, s.tables[t][id])}))
  {
    actions := OneStep(IsStep, s, ListTablets(t, id), Next(s, ListTablets(t, id)));
  }

  /** Sets the contents of this tablet. */
  ghost function Writer(key: TabletKey, contents: Bytes): Handler {
    view => map[key := contents]
  }

  /** Only looks. */
  ghost function Reader(): Handler {
    view => map[]
  }

  ghost function TwoWrites(query: TableQuery, m: TabletMetadata): seq<Read> {
    [Read(query, m, Writer(CreateTabletKey(m), [1])), Read(query, m, Writer(CreateTabletKey(m), [2]))]
  }

  lemma TwoWriters(query: TableQuery, m: TabletMetadata)
    ensures var wants := TwoWrites(query, m);
            && SeenMatches(CallsFor(wants)) && !Agree(CallsFor(wants))
            && forall tables: Tables | HasTablet(tables, query.tableName, m.tabletId) &&
                                       tables[query.tableName][m.tabletId].tabletVersion == m.tabletVersion ::
                 AllHold(tables, OpsFor(wants))
  {
    var key := CreateTabletKey(m);
    var calls := CallsFor(TwoWrites(query, m));
    var a: (nat, TabletKey), b: (nat, TabletKey) := (0, key), (1, key);
    assert InCall(calls, a) && InCall(calls, b) && SlotRef(calls, a) == SlotRef(calls, b);
    assert Intended(calls, a) == [1] && Intended(calls, b) == [2];
  }

  lemma TwoReadCurrent(query: TableQuery, m: TabletMetadata, history: seq<Tables>)
    requires Recorded(history, query.tableName, m)
    ensures var calls := CallsFor(TwoWrites(query, m));
            SeenMatches(calls) && ReadsCommitted(history, calls)
  {
    assert ReadMetadata(CreateTabletKey(m), m.blob) == m;
  }

  lemma CommitsBoth(s: System, query: TableQuery, m: TabletMetadata) returns (actions: seq<Action>, t: System)
    requires 1 in s.coordinators && NonePreparing(s.coordinators[1]) && s.log == [] && s.requests == []
    requires Holds(s.tables, query.tableName, m) && s.history == [s.tables]
    ensures Leads(IsStep, s, actions, t)
    ensures t.log == [0] && |t.requests| == 1 && t.requests[0].calls == CallsFor(TwoWrites(query, m))
    ensures |t.history| == 2 && t.history[0] == s.tables
  {
    TwoWriters(query, m);
    var list := Lists(s, query.tableName, m.tabletId);
    var listed := s.(known := s.known + {Known(query.tableName, m)});
    var commit;
    commit, t := Commits(listed, 1, TwoWrites(query, m));
    actions := Joined(IsStep, s, list, listed, commit, t);
  }

  /**
   A transaction makes two process requests that write one tablet. Both read what was committed,
   both are prepared and the transaction commits, but not as an atomic execution of the two: one
   write is lost.
   */
  lemma LostUpdate(query: TableQuery, m: TabletMetadata) returns (states: seq<System>, actions: seq<Action>, t: System)
    ensures IsRun(states, actions) && t == states[|actions|] && |t.log| == 1 && t.log[0] < |t.requests|
    ensures SeenMatches(t.requests[t.log[0]].calls) && !Agree(t.requests[t.log[0]].calls)
    ensures |t.history| == 2 && !AtomicAt(t, 0) && ReadsCommitted(t.history[..1], t.requests[t.log[0]].calls)
  {
    var s := Start(map[query.tableName := map[m.tabletId := m]]);
    actions, t := CommitsBoth(s, query, m);
    states := RunOf(s, actions, t);
    TwoWriters(query, m);
    InvInRun(states, actions, |actions|);
    AtomicAtIff(t, 0);
    assert Holds(t.history[..1][0], query.tableName, m);
    TwoReadCurrent(query, m, t.history[..1]);
  }

  // ----- A read of what was never committed -----

  /** The request fails, and its coordinator takes what it prepared for committed. */
  lemma Fails(s: System, c: nat, wants: seq<Read>, m: TabletMetadata)
    returns (actions: seq<Action>, t: System)
    requires c in s.coordinators && NonePreparing(s.coordinators[c]) && AllKnown(s.known, wants)
    requires !AllHold(s.tables, OpsFor(wants)) && ValidTables(s.tables)
    requires forall j | 0 <= j < |wants| :: HasTablet(s.tables, wants[j].query.tableName, wants[j].metadata.tabletId)
    requires |wants| > 0 && OpHolds(s.tables, OpFor(wants[0])) && OpFor(wants[0]).op == Some(UpdateTablet(Some(m)))
    ensures Leads(IsStep, s, actions, t) && Known(wants[0].query.tableName, m) in t.known && s.known <= t.known
    ensures t.tables == s.tables && t.history == s.history && t.log == s.log && |t.requests| == |s.requests| + 1
    ensures t.requests[..|s.requests|] == s.requests && t.coordinators.Keys == s.coordinators.Keys
    ensures forall d | d in s.coordinators && d != c :: t.coordinators[d] == s.coordinators[d]
  {
    var submit, k, q := Submits(s, c, wants);
    var sent := WithCoordinator(s, c, k).(requests := s.requests + [q]);
    forall i | 0 <= i < |q.ops| ensures IsKept(s.tables, q.ops[i]) {
      assert q.ops[i] == OpFor(wants[i]);
    }
    var apply, results := Applies(sent, |s.requests|);
    var answered := AfterApply(sent, |s.requests|, results);
    FailureRefreshes(s.tables, wants, results, m);
    var receive;
    receive, t := Hears(answered, |s.responses|, k, q, results);
    actions := Joined(IsStep, s, submit, sent, apply, answered);
    actions := Joined(IsStep, s, actions, answered, receive, t);
  }

  lemma FailureRefreshes(tables: Tables, wants: seq<Read>, results: seq<TabletOpResult>, m: TabletMetadata)
    requires ValidTables(tables) && PreparedAll(tables, OpsFor(wants), results)
    requires forall j | 0 <= j < |wants| :: HasTablet(tables, wants[j].query.tableName, wants[j].metadata.tabletId)
    requires |wants| > 0 && OpHolds(tables, OpFor(wants[0])) && OpFor(wants[0]).op == Some(UpdateTablet(Some(m)))
    ensures ResultsFit(OpsFor(wants), results)
    ensures Refresh(wants[0].query.tableName, m, false) in Refreshes(OpsFor(wants), results, |wants|)
  {
    var ops := OpsFor(wants);
    forall i | 0 <= i < |ops| ensures ResultFits(ops[i], results[i]) {
      assert Prepared(tables, ops[i], results[i]) && ops[i] == OpFor(wants[i]);
    }
    assert Prepared(tables, ops[0], results[0]) && ops[0] == OpFor(wants[0]);
    PairRefreshes(ops, results, |wants|, 0, Refresh(wants[0].query.tableName, m, false));
  }

  lemma Hears(s: System, r: nat, k: Coordinator, q: Request, results: seq<TabletOpResult>)
    returns (actions: seq<Action>, t: System)
    requires r < |s.responses| && s.responses[r].results == results && s.responses[r].request < |s.requests|
    requires s.requests[s.responses[r].request] == q && q.coordinator in s.coordinators
    requires s.coordinators[q.coordinator] == k && AwaitsAnswer(k, q) && |results| == |q.ops|
    requires ResultsFit(q.ops, results)
    ensures Leads(IsStep, s, actions, t)
    ensures q.coordinator in t.coordinators
    ensures t == s.(known := t.known, coordinators := s.coordinators[q.coordinator := t.coordinators[q.coordinator]])
    ensures s.known <= t.known
    ensures forall x | x in Refreshes(q.ops, results, |q.ops|) :: Known(x.tableName, x.metadata) in t.known
  {
    actions := OneStep(IsStep, s, ReceiveResponse(r), Next(s, ReceiveResponse(r)));
    t := Next(s, ReceiveResponse(r));
    var refreshes := Refreshes(q.ops, results, |q.ops|);
    assert Answered(k, q.correlation, results).1 == refreshes;
    forall x | x in refreshes ensures Known(x.tableName, x.metadata) in t.known {
      var i :| 0 <= i < |refreshes| && refreshes[i] == x;
      assert Known(refreshes[i].tableName, refreshes[i].metadata) in t.known;
    }
  }

  /** A transaction of one process request, on a tablet that is at the version it was told of. */
  lemma CommitsOne(s: System, c: nat, r: Read) returns (actions: seq<Action>, t: System)
    requires c in s.coordinators && NonePreparing(s.coordinators[c])
    requires Known(r.query.tableName, r.metadata) in s.known && OpHolds(s.tables, OpFor(r))
    ensures Leads(IsStep, s, actions, t) && HasCommitted(s, c, [r], t)
    ensures t.tables == if OpFor(r).op.value.CheckTablet? then s.tables
                        else With(s.tables, r.query.tableName, OpFor(r).op.value.metadata.value)
  {
    AppliedOne(s.tables, OpFor(r));
    assert OpsFor([r]) == [OpFor(r)];
    actions, t := Commits(s, c, [r]);
  }

  lemma WriterOp(query: TableQuery, m: TabletMetadata, contents: Bytes)
    ensures OpFor(Read(query, m, Writer(CreateTabletKey(m), contents))) ==
            TabletOp(query.tableName, Some(UpdateTablet(Some(
              TabletMetadata(m.tabletId, m.tabletVersion + 1, contents)))))
  {
  }

  lemma ReaderOp(query: TableQuery, m: TabletMetadata)
    ensures OpFor(Read(query, m, Reader())) ==
            TabletOp(query.tableName, Some(CheckTablet(m.tabletId, m.tabletVersion)))
  {
  }

  ghost predicate AllIdle(s: System) {
    s.coordinators.Keys == {1, 2, 3} && forall c | c in s.coordinators :: NonePreparing(s.coordinators[c])
  }

  lemma ListsBoth(s: System, query: TableQuery, m: TabletMetadata, n: TabletMetadata) returns (actions: seq<Action>)
    requires HasTablet(s.tables, query.tableName, m.tabletId) && s.tables[query.tableName][m.tabletId] == m
    requires HasTablet(s.tables, query.tableName, n.tabletId) && s.tables[query.tableName][n.tabletId] == n
    requires s.known == {}
    ensures Leads(IsStep, s, actions, s.(known := {Known(query.tableName, m), Known(query.tableName, n)}))
  {
    var first := Lists(s, query.tableName, m.tabletId);
    var middle := s.(known := s.known + {Known(query.tableName, m)});
    var second := Lists(middle, query.tableName, n.tabletId);
    var both := {Known(query.tableName, m), Known(query.tableName, n)};
    assert middle.known + {Known(query.tableName, n)} == both;
    actions := Joined(IsStep, s, first, middle, second, s.(known := both));
  }

  /** Both tablets are listed, and then one of them is changed. */
  lemma Changes(s: System, query: TableQuery, m: TabletMetadata, n: TabletMetadata)
    returns (actions: seq<Action>, t: System)
    requires m.tabletId != n.tabletId && AllIdle(s) && s.known == {} && s.requests == [] && s.log == []
    requires Holds(s.tables, query.tableName, m) && Holds(s.tables, query.tableName, n)
    ensures Leads(IsStep, s, actions, t) && AllIdle(t) && |t.requests| == 1 && t.log == [0]
    ensures {Known(query.tableName, m), Known(query.tableName, n)} <= t.known && t.history == s.history + [t.tables]
    ensures t.tables == With(s.tables, query.tableName, TabletMetadata(n.tabletId, n.tabletVersion + 1, []))
  {
    WriterOp(query, n, []);
    var list := ListsBoth(s, query, m, n);
    var listed := s.(known := {Known(query.tableName, m), Known(query.tableName, n)});
    var commit;
    commit, t := CommitsOne(listed, 2, Read(query, n, Writer(CreateTabletKey(n), [])));
    actions := Joined(IsStep, s, list, listed, commit, t);
  }

  lemma Prepares(query: TableQuery, m: TabletMetadata, n: TabletMetadata)
    returns (s: System, actions: seq<Action>, t: System)
    requires m.tabletId != n.tabletId
    ensures Init(s) && Leads(IsStep, s, actions, t) && AllIdle(t) && |t.requests| == 1 && t.log == [0]
    ensures {Known(query.tableName, m), Known(query.tableName, n)} <= t.known
    ensures t.history == s.history + [t.tables] && |s.history| == 1
    ensures ValidTables(t.tables) && query.tableName in t.tables
    ensures m.tabletId in t.tables[query.tableName] && t.tables[query.tableName][m.tabletId] == m
    ensures n.tabletId in t.tables[query.tableName] &&
            t.tables[query.tableName][n.tabletId].tabletVersion == n.tabletVersion + 1
  {
    var table: Table := map[m.tabletId := m, n.tabletId := n];
    s := Start(map[query.tableName := table]);
    actions, t := Changes(s, query, m, n);
  }

  /** A transaction that writes the one tablet and read the other one before it was changed. */
  lemma Misleads(s: System, query: TableQuery, m: TabletMetadata, n: TabletMetadata, contents: Bytes)
    returns (actions: seq<Action>, t: System)
    requires AllIdle(s) && ValidTables(s.tables) && query.tableName in s.tables && m.tabletId != n.tabletId
    requires {Known(query.tableName, m), Known(query.tableName, n)} <= s.known
    requires m.tabletId in s.tables[query.tableName] && s.tables[query.tableName][m.tabletId] == m
    requires n.tabletId in s.tables[query.tableName] &&
             s.tables[query.tableName][n.tabletId].tabletVersion == n.tabletVersion + 1
    ensures Leads(IsStep, s, actions, t) && s.known <= t.known
    ensures Known(query.tableName, TabletMetadata(m.tabletId, m.tabletVersion + 1, contents)) in t.known
    ensures t.tables == s.tables && t.history == s.history && t.log == s.log && |t.requests| == |s.requests| + 1
    ensures t.requests[..|s.requests|] == s.requests && t.coordinators.Keys == s.coordinators.Keys
    ensures forall d | d in s.coordinators && d != 1 :: t.coordinators[d] == s.coordinators[d]
  {
    var wants := [Read(query, m, Writer(CreateTabletKey(m), contents)), Read(query, n, Reader())];
    WriterOp(query, m, contents);
    ReaderOp(query, n);
    assert OpsFor(wants)[1] == OpFor(wants[1]);
    assert !OpHolds(s.tables, OpsFor(wants)[1]);
    actions, t := Fails(s, 1, wants, TabletMetadata(m.tabletId, m.tabletVersion + 1, contents));
  }

  /** Another transaction commits that version with other contents, and a third reads the first ones. */
  lemma ReadsDirty(s: System, query: TableQuery, m: TabletMetadata, contents: Bytes, other: Bytes)
    returns (actions: seq<Action>, t: System)
    requires 2 in s.coordinators && NonePreparing(s.coordinators[2])
    requires 3 in s.coordinators && NonePreparing(s.coordinators[3])
    requires query.tableName in s.tables
    requires m.tabletId in s.tables[query.tableName] && s.tables[query.tableName][m.tabletId] == m
    requires Known(query.tableName, m) in s.known && contents != other
    requires Known(query.tableName, TabletMetadata(m.tabletId, m.tabletVersion + 1, contents)) in s.known
    requires |s.history| == |s.log| + 1
    ensures Leads(IsStep, s, actions, t) && |t.log| == |s.log| + 2 && |t.history| == |t.log| + 1
    ensures t.log[|s.log| + 1] < |t.requests| && !AtomicAt(t, |s.log| + 1)
    ensures var calls := t.requests[t.log[|s.log| + 1]].calls; SeenMatches(calls) && Agree(calls)
  {
    var won := TabletMetadata(m.tabletId, m.tabletVersion + 1, other);
    var dirty := TabletMetadata(m.tabletId, m.tabletVersion + 1, contents);
    WriterOp(query, m, other);
    ReaderOp(query, dirty);
    var write, middle := CommitsOne(s, 2, Read(query, m, Writer(CreateTabletKey(m), other)));
    var reading := Read(query, dirty, Reader());
    var read;
    read, t := CommitsOne(middle, 3, reading);
    actions := Joined(IsStep, s, write, middle, read, t);
    assert t.requests[t.log[|s.log| + 1]].calls == CallsFor([reading]) && t.history[|s.log| + 1] == middle.tables;
    DirtyCall(query, dirty, middle.tables, t.tables, other);
  }

  lemma DirtyCall(query: TableQuery, m: TabletMetadata, before: Tables, after: Tables, other: Bytes)
    requires HasTablet(before, query.tableName, m.tabletId)
    requires before[query.tableName][m.tabletId].blob == other != m.blob
    ensures !ExecutedAtomically(CallsFor([Read(query, m, Reader())]), before, after)
    ensures var calls := CallsFor([Read(query, m, Reader())]); SeenMatches(calls) && Agree(calls)
  {
    var r := Read(query, m, Reader());
    var calls := CallsFor([r]);
    assert calls[0] == CallFor(r) && ViewAt(calls[0], before)[KeyOf(r)].contents == other;
  }

  /**
   A failed request hands the cache a version it only prepared; another request then commits
   that version with other contents; a transaction that was shown the first ones still commits,
   with calls that agree.
   */
  lemma DirtyRead(query: TableQuery, m: TabletMetadata, n: TabletMetadata, contents: Bytes, other: Bytes)
    returns (states: seq<System>, actions: seq<Action>, t: System)
    requires m.tabletId != n.tabletId && contents != other
    ensures IsRun(states, actions) && t == states[|actions|] && |t.log| == 3 && |t.history| == 4
    ensures t.log[2] < |t.requests| && !AtomicAt(t, 2)
    ensures var calls := t.requests[t.log[2]].calls; SeenMatches(calls) && Agree(calls)
  {
    var s, a1, s1 := Prepares(query, m, n);
    var a2, s2 := Misleads(s1, query, m, n, contents);
    var a3;
    a3, t := ReadsDirty(s2, query, m, contents, other);
    actions := Joined(IsStep, s, a1, s1, a2, s2);
    actions := Joined(IsStep, s, actions, s2, a3, t);
    states := RunOf(s, actions, t);
  }
}
