/**
 Runs in which every response a coordinator processes is clean: there transactions are only ever
 shown committed contents, so that whether a commit is atomic is up to its own calls.
 */
module CleanRuns {
  import opened Wrappers
  import opened TabletStore
  import opened Coordinator
  import opened Serializability
  import opened SerializableRuns

  /** What a coordinator can see of a response: it is clean, and the calls of its request agree. */
  ghost predicate CleanStep(s: System, a: Action)
    requires Enabled(s, a)
  {
    a.ReceiveResponse? ==>
      var q := s.requests[s.responses[a.response].request];
      SeenMatches(q.calls) && Agree(q.calls) && Clean(q.ops, s.responses[a.response].results)
  }

  // ----- Everything known was committed -----

  ghost predicate KnownCommitted(history: seq<Tables>, known: set<Known>) {
    forall k | k in known :: Recorded(history, k.tableName, k.metadata)
  }

  ghost predicate SlotsCommitted(history: seq<Tables>, tablets: TabletStates) {
    forall k | k in tablets :: Recorded(history, tablets[k].query.tableName, tablets[k].tablet.metadata)
  }

  ghost predicate ViewCommitted(history: seq<Tables>, view: map<TabletKey, TabletView>) {
    forall k | k in view :: Recorded(history, view[k].query.tableName, ReadMetadata(k, view[k].contents))
  }

  /** What a process was resolved to, and then shown, was committed. */
  ghost predicate ProcessReads(history: seq<Tables>, p: ProcessState) {
    match p.status
    case Pending(_) => true
    case Resolving => true
    case Failed => true
    case Loading(_) => SlotsCommitted(history, p.tablets)
    case _ => ViewCommitted(history, View(p.tablets))
  }

  ghost predicate CoordinatorReads(history: seq<Tables>, k: Coordinator) {
    forall id, p | IsPreparing(k, id) && 0 <= p < |k.transactions[id].processes| ::
      ProcessReads(history, k.transactions[id].processes[p])
  }

  ghost predicate RequestReads(history: seq<Tables>, q: Request) {
    SeenMatches(q.calls) && ReadsCommitted(history, q.calls)
  }

  ghost predicate ResponseRefreshes(history: seq<Tables>, q: Request, results: seq<TabletOpResult>) {
    |results| == |q.ops| && ResultsFit(q.ops, results) &&
    (SeenMatches(q.calls) && Agree(q.calls) && Clean(q.ops, results) ==> RefreshesRecorded(history, q.ops, results))
  }

  ghost predicate CoordinatorsRead(s: System) {
    forall c | c in s.coordinators :: CoordinatorReads(s.history, s.coordinators[c])
  }

  ghost predicate RequestsRead(s: System) {
    forall i | 0 <= i < |s.requests| :: RequestReads(s.history, s.requests[i])
  }

  ghost predicate ResponsesRefresh(s: System) {
    forall r | 0 <= r < |s.responses| ::
      s.responses[r].request < |s.requests| &&
      ResponseRefreshes(s.history, s.requests[s.responses[r].request], s.responses[r].results)
  }

  /** Every commit was of a request whose calls were shown what had been committed by then. */
  ghost predicate LogReads(requests: seq<Request>, history: seq<Tables>, log: seq<nat>) {
    forall n | 0 <= n < |log| ::
      n < |history| && log[n] < |requests| && RequestReads(history[..n + 1], requests[log[n]])
  }

  ghost predicate AllCommitted(s: System) {
    && KnownCommitted(s.history, s.known) && CoordinatorsRead(s) && RequestsRead(s) && ResponsesRefresh(s)
    && LogReads(s.requests, s.history, s.log)
  }

  // ----- A longer history -----

  lemma RecordedGrows(history: seq<Tables>, next: Tables, t: string, m: TabletMetadata)
    requires Recorded(history, t, m)
    ensures Recorded(history + [next], t, m)
  {
    var i :| 0 <= i < |history| && Holds(history[i], t, m);
    assert (history + [next])[i] == history[i];
  }

  lemma KnownGrow(history: seq<Tables>, next: Tables, known: set<Known>)
    requires KnownCommitted(history, known)
    ensures KnownCommitted(history + [next], known)
  {
    forall k | k in known ensures Recorded(history + [next], k.tableName, k.metadata) {
      RecordedGrows(history, next, k.tableName, k.metadata);
    }
  }

  lemma ProcessGrows(history: seq<Tables>, next: Tables, p: ProcessState)
    requires ProcessReads(history, p)
    ensures ProcessReads(history + [next], p)
  {
    if p.status.Loading? {
      forall k | k in p.tablets
        ensures Recorded(history + [next], p.tablets[k].query.tableName, p.tablets[k].tablet.metadata)
      {
        RecordedGrows(history, next, p.tablets[k].query.tableName, p.tablets[k].tablet.metadata);
      }
    } else if !p.status.Pending? && !p.status.Resolving? && !p.status.Failed? {
      var view := View(p.tablets);
      forall k | k in view
        ensures Recorded(history + [next], view[k].query.tableName, ReadMetadata(k, view[k].contents))
      {
        RecordedGrows(history, next, view[k].query.tableName, ReadMetadata(k, view[k].contents));
      }
    }
  }

  lemma CoordinatorGrows(history: seq<Tables>, next: Tables, k: Coordinator)
    requires CoordinatorReads(history, k)
    ensures CoordinatorReads(history + [next], k)
  {
    forall id, p | IsPreparing(k, id) && 0 <= p < |k.transactions[id].processes|
      ensures ProcessReads(history + [next], k.transactions[id].processes[p])
    {
      ProcessGrows(history, next, k.transactions[id].processes[p]);
    }
  }

  lemma RequestGrows(history: seq<Tables>, next: Tables, q: Request)
    requires RequestReads(history, q)
    ensures RequestReads(history + [next], q)
  {
    forall slot: (nat, TabletKey) | InCall(q.calls, slot)
      ensures Recorded(history + [next], SlotRef(q.calls, slot).tableName,
                       ReadMetadata(slot.1, q.calls[slot.0].seen[slot.1].contents))
    {
      RecordedGrows(history, next, SlotRef(q.calls, slot).tableName,
                    ReadMetadata(slot.1, q.calls[slot.0].seen[slot.1].contents));
    }
  }

  lemma ResponseGrows(history: seq<Tables>, next: Tables, q: Request, results: seq<TabletOpResult>)
    requires ResponseRefreshes(history, q, results)
    ensures ResponseRefreshes(history + [next], q, results)
  {
    if SeenMatches(q.calls) && Agree(q.calls) && Clean(q.ops, results) {
      forall x | x in Refreshes(q.ops, results, |q.ops|)
        ensures Recorded(history + [next], x.tableName, x.metadata)
      {
        RecordedGrows(history, next, x.tableName, x.metadata);
      }
    }
  }

  // ----- A process -----

  lemma ResolvedIsCommitted(history: seq<Tables>, known: set<Known>, p: ProcessState, a: Answer)
    requires p.status.Resolving? && p.tablets == map[] && a.Resolved? && ResolvesFrom(known, a)
    requires KnownCommitted(history, known)
    ensures ProcessReads(history, Advance(p, a))
  {
    var after := Advance(p, a);
    forall k | k in after.tablets
      ensures Recorded(history, after.tablets[k].query.tableName, after.tablets[k].tablet.metadata)
    {
      InsertResolvedMeaning(a.resolved, k);
      var i :| 0 <= i < |a.resolved| && a.resolved[i] == (after.tablets[k].query, after.tablets[k].tablet.metadata);
      assert Known(a.resolved[i].0.tableName, a.resolved[i].1) in known;
    }
  }

  /** Setting contents leaves queries and metadata alone. */
  lemma {:induction false} ContentsKeep(tablets: TabletStates, loaded: seq<(TabletMetadata, Bytes)>, k: TabletKey)
    requires (forall i | 0 <= i < |loaded| :: CreateTabletKey(loaded[i].0) in tablets) && k in tablets
    ensures var after := SetContents(tablets, loaded);
            after[k].query == tablets[k].query && after[k].tablet.metadata == tablets[k].tablet.metadata
  {
    if loaded != [] {
      ContentsKeep(tablets, loaded[..|loaded| - 1], k);
    }
  }

  lemma LoadedIsCommitted(history: seq<Tables>, first: Tables, p: ProcessState, a: Answer)
    requires p.status.Loading? && LoadingOk(first, p) && a.Loaded? && AnswerFits(p, a)
    requires SlotsCommitted(history, p.tablets)
    ensures ProcessReads(history, Advance(p, a))
  {
    ContentsAreLoaded(first, p);
    var tablets := SetContents(p.tablets, a.loaded);
    forall k | k in tablets
      ensures Recorded(history, tablets[k].query.tableName, ReadMetadata(k, ContentsOf(tablets[k].tablet)))
    {
      ContentsKeep(p.tablets, a.loaded, k);
      assert Recorded(history, p.tablets[k].query.tableName, p.tablets[k].tablet.metadata);
    }
    WritingKeepsView(tablets, p.handler(View(tablets)));
  }

  lemma AdvanceReads(history: seq<Tables>, first: Tables, known: set<Known>, p: ProcessState, a: Answer)
    requires ProcessOk(first, p) && AnswerFits(p, a) && ResolvesFrom(known, a)
    requires ProcessReads(history, p) && KnownCommitted(history, known)
    ensures ProcessReads(history, Advance(p, a))
  {
    if p.status.Resolving? && a.Resolved? {
      ResolvedIsCommitted(history, known, p, a);
    } else if p.status.Loading? && a.Loaded? {
      LoadedIsCommitted(history, first, p, a);
    }
  }

  // ----- A coordinator -----

  lemma ProgressReads(history: seq<Tables>, first: Tables, known: set<Known>, k: Coordinator, answers: Answers)
    requires ProcessesOk(first, k) && AnswersFit(k.transactions, answers)
    requires forall id, i | id in answers && 0 <= i < |answers[id]| :: ResolvesFrom(known, answers[id][i])
    requires CoordinatorReads(history, k) && KnownCommitted(history, known)
    ensures CoordinatorReads(history, Progressed(k, answers))
  {
    var after := Progressed(k, answers);
    forall id, p | IsPreparing(after, id) && 0 <= p < |after.transactions[id].processes|
      ensures ProcessReads(history, after.transactions[id].processes[p])
    {
      assert IsPreparing(k, id);
      AdvanceReads(history, first, known, k.transactions[id].processes[p], answers[id][p]);
    }
  }

  /** A coordinator with fewer preparing transactions. */
  lemma FewerRead(history: seq<Tables>, k: Coordinator, after: Coordinator)
    requires CoordinatorReads(history, k)
    requires forall id | IsPreparing(after, id) :: IsPreparing(k, id) && after.transactions[id] == k.transactions[id]
    ensures CoordinatorReads(history, after)
  {
  }

  lemma CallsAreCommitted(history: seq<Tables>, processes: seq<ProcessState>)
    requires forall p | 0 <= p < |processes| :: ViewCommitted(history, View(processes[p].tablets))
    ensures SeenMatches(CallsOf(processes)) && ReadsCommitted(history, CallsOf(processes))
  {
    var calls := CallsOf(processes);
    forall slot: (nat, TabletKey) | InCall(calls, slot)
      ensures Recorded(history, SlotRef(calls, slot).tableName,
                       ReadMetadata(slot.1, calls[slot.0].seen[slot.1].contents))
    {
      assert ViewCommitted(history, View(processes[slot.0].tablets));
    }
  }

  // ----- Steps -----

  /** A step that changes one coordinator only. */
  lemma LocalReads(s: System, c: nat, k: Coordinator)
    requires AllCommitted(s) && CoordinatorReads(s.history, k)
    ensures AllCommitted(WithCoordinator(s, c, k))
  {
  }

  lemma SendReads(s: System, q: Request)
    requires AllCommitted(s) && RequestReads(s.history, q)
    ensures AllCommitted(s.(requests := s.requests + [q]))
  {
    forall n | 0 <= n < |s.log|
      ensures n < |s.history| && s.log[n] < |s.requests|
      ensures RequestReads(s.history[..n + 1], (s.requests + [q])[s.log[n]])
    {
      assert RequestReads(s.history[..n + 1], s.requests[s.log[n]]);
    }
  }

  lemma CommitReads(s: System, c: nat, id: nat, order: seq<(nat, TabletKey)>)
    requires AllCommitted(s) && Enabled(s, CommitTransaction(c, id, order))
    ensures AllCommitted(Next(s, CommitTransaction(c, id, order)))
  {
    var k := s.coordinators[c];
    var processes := k.transactions[id].processes;
    assert CoordinatorReads(s.history, k);
    forall p | 0 <= p < |processes| ensures ViewCommitted(s.history, View(processes[p].tablets)) {
      assert ProcessReads(s.history, processes[p]);
    }
    CallsAreCommitted(s.history, processes);
    var after := Committed(k, id, OpsOf(processes, order));
    FewerRead(s.history, k, after);
    LocalReads(s, c, after);
    SendReads(WithCoordinator(s, c, after),
              Request(c, id, after.correlationCounter, OpsOf(processes, order), CallsOf(processes)));
  }

  /** A commit adds a state to the history, and an entry that was shown what was there before. */
  lemma LogReadsMore(requests: seq<Request>, history: seq<Tables>, log: seq<nat>, q: nat, next: Tables)
    requires LogReads(requests, history, log) && |history| == |log| + 1
    requires q < |requests| && RequestReads(history, requests[q])
    ensures LogReads(requests, history + [next], log + [q])
  {
    forall n | 0 <= n < |log + [q]|
      ensures (log + [q])[n] < |requests| && RequestReads((history + [next])[..n + 1], requests[(log + [q])[n]])
    {
      if n < |log| {
        assert (history + [next])[..n + 1] == history[..n + 1];
        assert RequestReads(history[..n + 1], requests[log[n]]);
      } else {
        assert (history + [next])[..n + 1] == history;
      }
    }
  }

  lemma CommittedReads(s: System, q: nat, next: Tables)
    requires AllCommitted(s) && |s.history| == |s.log| + 1 && q < |s.requests|
    ensures AllCommitted(CommittedTo(s, q, next))
  {
    var after := CommittedTo(s, q, next);
    KnownGrow(s.history, next, s.known);
    forall c | c in s.coordinators ensures CoordinatorReads(after.history, s.coordinators[c]) {
      CoordinatorGrows(s.history, next, s.coordinators[c]);
    }
    forall i | 0 <= i < |s.requests| ensures RequestReads(after.history, s.requests[i]) {
      RequestGrows(s.history, next, s.requests[i]);
    }
    forall r | 0 <= r < |s.responses|
      ensures ResponseRefreshes(after.history, s.requests[s.responses[r].request], s.responses[r].results)
    {
      ResponseGrows(s.history, next, s.requests[s.responses[r].request], s.responses[r].results);
    }
    LogReadsMore(s.requests, s.history, s.log, q, next);
  }

  lemma AnswerReads(s: System, q: nat, results: seq<TabletOpResult>)
    requires AllCommitted(s) && q < |s.requests| && ResponseRefreshes(s.history, s.requests[q], results)
    ensures AllCommitted(s.(responses := s.responses + [Response(q, results)]))
  {
  }

  lemma AnswerRefreshes(history: seq<Tables>, q: Request, results: seq<TabletOpResult>)
    requires history != [] && VersionsDetermine(history) && SameTablets(history[0], history[|history| - 1])
    requires RequestOk(history[0], q.calls, q.ops)
    requires PreparedAll(history[|history| - 1], q.ops, results) && ResultsFit(q.ops, results)
    ensures ResponseRefreshes(HistoryAfter(history, q.ops), q, results)
  {
    if Agree(q.calls) && Clean(q.ops, results) {
      CleanIsRecorded(history, q.calls, q.ops, results);
    }
  }

  lemma StoreFacts(s: System, q: nat, results: seq<TabletOpResult>)
    requires Inv(s) && Enabled(s, ApplyRequest(q, results))
    ensures |s.history| == |s.log| + 1 && s.tables == s.history[|s.log|]
    ensures ResponseRefreshes(HistoryAfter(s.history, s.requests[q].ops), s.requests[q], results)
  {
    assert ValidTables(s.tables);
    AnswerIsOk(s.history[0], s.tables, s.log + [q], q, s.requests[q], results);
    AnswerRefreshes(s.history, s.requests[q], results);
  }

  lemma ApplyReads(s: System, q: nat, results: seq<TabletOpResult>)
    requires Inv(s) && AllCommitted(s) && Enabled(s, ApplyRequest(q, results))
    ensures AllCommitted(Next(s, ApplyRequest(q, results)))
  {
    StoreFacts(s, q, results);
    var ops := s.requests[q].ops;
    if AllHold(s.tables, ops) {
      CommittedReads(s, q, Applied(s.tables, ops));
      AnswerReads(CommittedTo(s, q, Applied(s.tables, ops)), q, results);
    } else {
      AnswerReads(s, q, results);
    }
  }

  lemma LearnReads(s: System, more: set<Known>)
    requires AllCommitted(s) && KnownCommitted(s.history, more)
    ensures AllCommitted(s.(known := s.known + more))
  {
  }

  /** What an awaited answer refreshes the cache with is what its request's ops say. */
  lemma RefreshesOfRequest(s: System, r: nat)
    requires Inv(s) && Enabled(s, ReceiveResponse(r))
    ensures var q := s.requests[s.responses[r].request];
            var (after, refreshes) := Answered(s.coordinators[q.coordinator], q.correlation, s.responses[r].results);
            && (refreshes == [] || refreshes == Refreshes(q.ops, s.responses[r].results, |q.ops|))
            && |s.responses[r].results| == |q.ops|
            && forall id | IsPreparing(after, id) ::
                 IsPreparing(s.coordinators[q.coordinator], id) &&
                 after.transactions[id] == s.coordinators[q.coordinator].transactions[id]
  {
    var index := s.responses[r].request;
    var q, first := s.requests[index], s.history[0];
    var k := s.coordinators[q.coordinator];
    assert ResponsesOk(first, s, s.responses[r]) && CoordinatorOk(first, s.requests, s.log, q.coordinator, k);
    AnswerStep(first, s.requests, s.log, q.coordinator, k, index, s.responses[r].results);
  }

  lemma ReceiveReads(s: System, r: nat)
    requires Inv(s) && AllCommitted(s) && Enabled(s, ReceiveResponse(r)) && CleanStep(s, ReceiveResponse(r))
    ensures AllCommitted(Next(s, ReceiveResponse(r)))
  {
    var q := s.requests[s.responses[r].request];
    var (after, refreshes) := Answered(s.coordinators[q.coordinator], q.correlation, s.responses[r].results);
    RefreshesOfRequest(s, r);
    assert CoordinatorReads(s.history, s.coordinators[q.coordinator]);
    FewerRead(s.history, s.coordinators[q.coordinator], after);
    LocalReads(s, q.coordinator, after);
    assert ResponseRefreshes(s.history, q, s.responses[r].results);
    forall i | 0 <= i < |refreshes| ensures Recorded(s.history, refreshes[i].tableName, refreshes[i].metadata) {
      assert refreshes[i] in Refreshes(q.ops, s.responses[r].results, |q.ops|);
    }
    LearnReads(WithCoordinator(s, q.coordinator, after),
               set i | 0 <= i < |refreshes| :: Known(refreshes[i].tableName, refreshes[i].metadata));
  }

  lemma ListReads(s: System, t: string, id: Hash)
    requires Inv(s) && AllCommitted(s) && HasTablet(s.tables, t, id)
    ensures AllCommitted(s.(known := s.known + {Known(t, s.tables[t][id])}))
  {
    assert ValidTables(s.tables) && WellKeyed(s.tables[t]);
    assert Holds(s.history[|s.log|], t, s.tables[t][id]);
    LearnReads(s, {Known(t, s.tables[t][id])});
  }

  lemma LocalActionReads(s: System, a: Action)
    requires Inv(s) && AllCommitted(s) && Enabled(s, a)
    requires !a.CommitTransaction? && !a.ApplyRequest? && !a.ReceiveResponse? && !a.ListTablets?
    ensures AllCommitted(Next(s, a))
  {
    var k := s.coordinators[a.c];
    assert CoordinatorReads(s.history, k);
    var after :=
      match a
      case CreateTransaction(_) => Created(k)
      case ProcessTransaction(_, id, queries, handler) => WithProcess(k, id, queries, handler)
      case MakeProgress(_, answers) => Progressed(k, answers)
      case TakeOutMessages(_) => k.(outMessages := [])
      case AbortTransaction(_, id) => Aborted(k, id)
      case CheckTransactionResult(_, id) => Checked(k, id).0
      case _ => k;
    if a.MakeProgress? {
      assert CoordinatorOk(s.history[0], s.requests, s.log, a.c, k);
      ProgressReads(s.history, s.history[0], s.known, k, a.answers);
    } else {
      LocalChangeReads(s.history, k, a, after);
    }
    LocalReads(s, a.c, after);
  }

  lemma LocalChangeReads(history: seq<Tables>, k: Coordinator, a: Action, after: Coordinator)
    requires CoordinatorReads(history, k)
    requires
      match a
      case CreateTransaction(_) => after == Created(k)
      case ProcessTransaction(_, id, queries, handler) =>
        IsPreparing(k, id) && after == WithProcess(k, id, queries, handler)
      case TakeOutMessages(_) => after == k.(outMessages := [])
      case AbortTransaction(_, id) => after == Aborted(k, id)
      case CheckTransactionResult(_, id) =>
        id in k.transactions && !k.transactions[id].Preparing? && after == Checked(k, id).0
      case _ => false
    ensures CoordinatorReads(history, after)
  {
  }

  lemma AllCommittedIsInductive(s: System, a: Action)
    requires Inv(s) && AllCommitted(s) && Enabled(s, a) && CleanStep(s, a)
    ensures AllCommitted(Next(s, a))
  {
    match a
    case CommitTransaction(c, id, order) => CommitReads(s, c, id, order);
    case ApplyRequest(q, results) => ApplyReads(s, q, results);
    case ReceiveResponse(r) => ReceiveReads(s, r);
    case ListTablets(t, id) => ListReads(s, t, id);
    case _ => LocalActionReads(s, a);
  }

  // ----- Runs -----

  ghost predicate AllClean(states: seq<System>, actions: seq<Action>, i: nat)
    requires IsRun(states, actions) && i <= |actions|
  {
    forall j {:trigger actions[j]} | 0 <= j < i :: CleanStep(states[j], actions[j])
  }

  lemma InitIsCommitted(s: System)
    requires Init(s)
    ensures AllCommitted(s)
  {
  }

  lemma {:induction false} CommittedInRun(states: seq<System>, actions: seq<Action>, i: nat)
    requires IsRun(states, actions) && i < |states| && AllClean(states, actions, i)
    ensures AllCommitted(states[i])
  {
    if i == 0 {
      InitIsCommitted(states[0]);
    } else {
      CommittedInRun(states, actions, i - 1);
      InvInRun(states, actions, i - 1);
      AllCommittedIsInductive(states[i - 1], actions[i - 1]);
    }
  }

  /**
   If every response processed so far was clean and of a request whose calls agree, which its
   coordinator can tell, then every commit so far was atomic if and only if its own calls agree.
   */
  lemma CleanRunsAreAtomic(states: seq<System>, actions: seq<Action>, i: nat, n: nat)
    requires IsRun(states, actions) && i < |states| && AllClean(states, actions, i) && n < |states[i].log|
    ensures |states[i].history| == |states[i].log| + 1 && states[i].log[n] < |states[i].requests|
    ensures SeenMatches(states[i].requests[states[i].log[n]].calls)
    ensures AtomicAt(states[i], n) <==> Agree(states[i].requests[states[i].log[n]].calls)
  {
    InvInRun(states, actions, i);
    CommittedInRun(states, actions, i);
    AtomicAtIff(states[i], n);
    assert RequestReads(states[i].history[..n + 1], states[i].requests[states[i].log[n]]);
  }
}
