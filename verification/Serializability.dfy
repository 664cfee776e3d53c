/**
 Any number of coordinators and one tablet store, exchanging requests and answers in any
 order: exactly when a request the store accepts has the effect of running the transaction's
 handlers at once on the contents the store holds at that moment.
 */
module Serializability {
  import opened Wrappers
  import opened TabletStore
  import opened Coordinator

  // ----- The specification: transactions on contents, without versions or ops -----

  datatype TabletRef = TabletRef(tableName: string, tabletId: Hash)

  ghost function Blob(tables: Tables, r: TabletRef): Bytes {
    if HasTablet(tables, r.tableName, r.tabletId) then tables[r.tableName][r.tabletId].blob else []
  }

  /** A handler call: the tablets it is given, the handler, and what it was shown of them. */
  datatype Call = Call(slots: map<TabletKey, TableQuery>, handler: Handler, seen: map<TabletKey, TabletView>)

  ghost predicate InCall(calls: seq<Call>, slot: (nat, TabletKey)) {
    slot.0 < |calls| && slot.1 in calls[slot.0].slots
  }

  ghost function SlotRef(calls: seq<Call>, slot: (nat, TabletKey)): TabletRef
    requires InCall(calls, slot)
  {
    TabletRef(calls[slot.0].slots[slot.1].tableName, slot.1.tabletId)
  }

  ghost function ViewAt(call: Call, tables: Tables): map<TabletKey, TabletView> {
    map k | k in call.slots ::
      TabletView(call.slots[k], Blob(tables, TabletRef(call.slots[k].tableName, k.tabletId)))
  }

  /** What a slot holds after its handler ran on the given contents. */
  ghost function BlobAfter(calls: seq<Call>, slot: (nat, TabletKey), before: Tables): Bytes
    requires InCall(calls, slot)
  {
    var call := calls[slot.0];
    var writes := call.handler(ViewAt(call, before));
    if slot.1 in writes then writes[slot.1] else Blob(before, SlotRef(calls, slot))
  }

  /** All the calls ran at once: each was shown what `before` holds, and `after` holds what they wrote. */
  ghost predicate ExecutedAtomically(calls: seq<Call>, before: Tables, after: Tables) {
    && (forall p | 0 <= p < |calls| :: calls[p].seen == ViewAt(calls[p], before))
    && (forall slot: (nat, TabletKey) | InCall(calls, slot) ::
          Blob(after, SlotRef(calls, slot)) == BlobAfter(calls, slot, before))
    && (forall r: TabletRef | !Touched(calls, r) :: Blob(after, r) == Blob(before, r))
  }

  ghost predicate Touched(calls: seq<Call>, r: TabletRef) {
    exists slot: (nat, TabletKey) :: InCall(calls, slot) && SlotRef(calls, slot) == r
  }

  // ----- The system -----

  datatype Known = Known(tableName: string, metadata: TabletMetadata)

  /** A committed transaction on its way to the store, with the calls it made. */
  datatype Request = Request(coordinator: nat, id: nat, correlation: nat, ops: seq<TabletOp>, calls: seq<Call>)

  datatype Response = Response(request: nat, results: seq<TabletOpResult>)

  /**
   `known` are the metadata any cache may resolve a query to, `history` the states the
   store went through, and `log` the requests that led from each to the next.
   */
  datatype System = System(
    tables: Tables,
    coordinators: map<nat, Coordinator>,
    known: set<Known>,
    requests: seq<Request>,
    responses: seq<Response>,
    history: seq<Tables>,
    log: seq<nat>)

  datatype Action =
    | CreateTransaction(c: nat)
    | ProcessTransaction(c: nat, id: nat, queries: seq<TableQuery>, handler: Handler)
    | MakeProgress(c: nat, answers: Answers)
    | CommitTransaction(c: nat, id: nat, order: seq<(nat, TabletKey)>)
    | TakeOutMessages(c: nat)
    | AbortTransaction(c: nat, id: nat)
    | CheckTransactionResult(c: nat, id: nat)
    | ApplyRequest(request: nat, results: seq<TabletOpResult>)
    | ReceiveResponse(response: nat)
    | ListTablets(tableName: string, tabletId: Hash)

  ghost predicate Init(s: System) {
    && ValidTables(s.tables) && s.history == [s.tables] && s.log == []
    && s.known == {} && s.requests == [] && s.responses == []
    && forall c | c in s.coordinators ::
         s.coordinators[c].transactions == map[] && s.coordinators[c].correlations == map[]
  }

  ghost predicate ResolvesFrom(known: set<Known>, a: Answer) {
    a.Resolved? ==>
      forall i | 0 <= i < |a.resolved| :: Known(a.resolved[i].0.tableName, a.resolved[i].1) in known
  }

  /** What the coordinators' callers, the caches and the store admit. Requests may be lost, delayed,
      reordered and delivered more than once. */
  ghost predicate Enabled(s: System, a: Action) {
    match a
    case CreateTransaction(c) => c in s.coordinators
    case ProcessTransaction(c, id, _, _) => c in s.coordinators && IsPreparing(s.coordinators[c], id)
    case MakeProgress(c, answers) =>
      && c in s.coordinators && AnswersFit(s.coordinators[c].transactions, answers)
      && forall id, i | id in answers && 0 <= i < |answers[id]| :: ResolvesFrom(s.known, answers[id][i])
    case CommitTransaction(c, id, order) =>
      && c in s.coordinators && IsPreparing(s.coordinators[c], id)
      && !IsActive(s.coordinators[c].transactions[id].processes)
      && Covers(s.coordinators[c].transactions[id].processes, order)
    case TakeOutMessages(c) => c in s.coordinators
    case AbortTransaction(c, _) => c in s.coordinators
    case CheckTransactionResult(c, id) =>
      c in s.coordinators && id in s.coordinators[c].transactions &&
      !s.coordinators[c].transactions[id].Preparing?
    case ApplyRequest(q, results) =>
      && q < |s.requests| && |results| == |s.requests[q].ops|
      && forall i | 0 <= i < |results| :: Prepared(s.tables, s.requests[q].ops[i], results[i])
    case ReceiveResponse(r) =>
      && r < |s.responses| && s.responses[r].request < |s.requests|
      && var q := s.requests[s.responses[r].request];
         q.coordinator in s.coordinators &&
         ResponseFits(s.coordinators[q.coordinator], q.correlation, s.responses[r].results)
    case ListTablets(t, id) => HasTablet(s.tables, t, id)
  }

  /** What a slot's handler leaves in its tablet, going by what it was shown. */
  ghost function Intended(calls: seq<Call>, slot: (nat, TabletKey)): Bytes
    requires InCall(calls, slot) && slot.1 in calls[slot.0].seen
  {
    var writes := calls[slot.0].handler(calls[slot.0].seen);
    if slot.1 in writes then writes[slot.1] else calls[slot.0].seen[slot.1].contents
  }

  ghost predicate SeenMatches(calls: seq<Call>) {
    forall p | 0 <= p < |calls| :: calls[p].seen.Keys == calls[p].slots.Keys
  }

  /**
   Process requests of one transaction that are handed the same tablet leave the same in
   it. This holds in particular when no tablet is handed to two of them.
   */
  ghost predicate Agree(calls: seq<Call>)
    requires SeenMatches(calls)
  {
    forall a: (nat, TabletKey), b: (nat, TabletKey)
      | InCall(calls, a) && InCall(calls, b) && a.0 != b.0 && SlotRef(calls, a) == SlotRef(calls, b) ::
      Intended(calls, a) == Intended(calls, b)
  }

  ghost function CallOf(p: ProcessState): Call {
    Call(map k | k in p.tablets :: p.tablets[k].query, p.handler, View(p.tablets))
  }

  ghost function CallsOf(processes: seq<ProcessState>): seq<Call> {
    seq(|processes|, i requires 0 <= i < |processes| => CallOf(processes[i]))
  }

  ghost function WithCoordinator(s: System, c: nat, coordinator: Coordinator): System {
    s.(coordinators := s.coordinators[c := coordinator])
  }

  ghost function Next(s: System, a: Action): System
    requires Enabled(s, a)
  {
    match a
    case CreateTransaction(c) => WithCoordinator(s, c, Created(s.coordinators[c]))
    case ProcessTransaction(c, id, queries, handler) =>
      WithCoordinator(s, c, WithProcess(s.coordinators[c], id, queries, handler))
    case MakeProgress(c, answers) => WithCoordinator(s, c, Progressed(s.coordinators[c], answers))
    case CommitTransaction(c, id, order) =>
      var processes := s.coordinators[c].transactions[id].processes;
      var ops := OpsOf(processes, order);
      var after := Committed(s.coordinators[c], id, ops);
      WithCoordinator(s, c, after).(
        requests := s.requests + [Request(c, id, after.correlationCounter, ops, CallsOf(processes))])
    case TakeOutMessages(c) => WithCoordinator(s, c, s.coordinators[c].(outMessages := []))
    case AbortTransaction(c, id) => WithCoordinator(s, c, Aborted(s.coordinators[c], id))
    case CheckTransactionResult(c, id) => WithCoordinator(s, c, Checked(s.coordinators[c], id).0)
    case ApplyRequest(q, results) =>
      var ops := s.requests[q].ops;
      var answered := s.(responses := s.responses + [Response(q, results)]);
      if AllHold(s.tables, ops) then
        answered.(tables := Applied(s.tables, ops),
                  history := s.history + [Applied(s.tables, ops)],
                  log := s.log + [q])
      else
        answered
    case ReceiveResponse(r) =>
      var q := s.requests[s.responses[r].request];
      var (after, refreshes) := Answered(s.coordinators[q.coordinator], q.correlation, s.responses[r].results);
      WithCoordinator(s, q.coordinator, after).(
        known := s.known + set i | 0 <= i < |refreshes| :: Known(refreshes[i].tableName, refreshes[i].metadata))
    case ListTablets(t, id) => s.(known := s.known + {Known(t, s.tables[t][id])})
  }

  // ----- Invariant -----

  /** The store holds these metadata. */
  ghost predicate Holds(tables: Tables, t: string, m: TabletMetadata) {
    HasTablet(tables, t, m.tabletId) && tables[t][m.tabletId] == m
  }

  /** The store once held these metadata. */
  ghost predicate Recorded(history: seq<Tables>, t: string, m: TabletMetadata) {
    exists i :: 0 <= i < |history| && Holds(history[i], t, m)
  }

  /** Through all of history a version of a tablet determines its metadata, and versions only grow. */
  ghost predicate VersionsDetermine(history: seq<Tables>) {
    && (forall i | 0 <= i < |history| :: ValidTables(history[i]))
    && forall i, j, t, id | 0 <= i <= j < |history| && HasTablet(history[i], t, id) ::
         && HasTablet(history[j], t, id)
         && history[i][t][id].tabletVersion <= history[j][t][id].tabletVersion
         && (history[i][t][id].tabletVersion == history[j][t][id].tabletVersion ==>
               history[i][t][id] == history[j][t][id])
  }

  /** The metadata a slot was resolved to. */
  ghost function ReadMetadata(k: TabletKey, contents: Bytes): TabletMetadata {
    TabletMetadata(k.tabletId, k.tabletVersion, contents)
  }

  ghost predicate LoadingOk(first: Tables, p: ProcessState)
    requires p.status.Loading?
  {
    && (forall k | k in p.tablets ::
          var s := p.tablets[k];
          && CreateTabletKey(s.tablet.metadata) == k && !s.tablet.isDirty
          && LastWith(p.status.requested, k) == Some(s.tablet.metadata)
          && HasTablet(first, s.query.tableName, k.tabletId))
    && Loadable(p)
  }

  ghost predicate HandledOk(first: Tables, p: ProcessState) {
    var writes := p.handler(View(p.tablets));
    forall k | k in p.tablets ::
      var s := p.tablets[k];
      && HasTablet(first, s.query.tableName, k.tabletId)
      && (s.tablet.isDirty <==> k in writes)
      && s.tablet.metadata ==
         if k in writes then TabletMetadata(k.tabletId, k.tabletVersion + 1, writes[k])
         else ReadMetadata(k, ContentsOf(s.tablet))
  }

  /** `first` is the state the store started from: it has the tablets the store ever has. */
  ghost predicate ProcessOk(first: Tables, p: ProcessState) {
    match p.status
    case Pending(_) => p.tablets == map[]
    case Resolving => p.tablets == map[]
    case Loading(_) => LoadingOk(first, p)
    case Failed => true
    case _ => HandledOk(first, p)
  }

  ghost function CallOp(calls: seq<Call>, slot: (nat, TabletKey)): TabletOp
    requires InCall(calls, slot)
  {
    var call, k := calls[slot.0], slot.1;
    var writes := call.handler(call.seen);
    TabletOp(call.slots[k].tableName, Some(
      if k in writes then UpdateTablet(Some(TabletMetadata(k.tabletId, k.tabletVersion + 1, writes[k])))
      else CheckTablet(k.tabletId, k.tabletVersion)))
  }

  /** A slot's tablet is one of the store's, and its op is among those sent. */
  ghost predicate SlotOk(first: Tables, calls: seq<Call>, ops: seq<TabletOp>, slot: (nat, TabletKey))
    requires SeenMatches(calls) && InCall(calls, slot)
  {
    var call, k := calls[slot.0], slot.1;
    && call.seen[k].query == call.slots[k]
    && HasTablet(first, call.slots[k].tableName, k.tabletId)
    && CallOp(calls, slot) in ops
  }

  ghost predicate RequestOk(first: Tables, calls: seq<Call>, ops: seq<TabletOp>) {
    && SeenMatches(calls)
    && (forall slot: (nat, TabletKey) | InCall(calls, slot) :: SlotOk(first, calls, ops, slot))
    && (forall i | 0 <= i < |ops| :: IsCallOp(calls, ops[i]))
  }

  ghost predicate IsCallOp(calls: seq<Call>, op: TabletOp) {
    exists slot: (nat, TabletKey) :: InCall(calls, slot) && CallOp(calls, slot) == op
  }

  /** The results fit the ops and speak of tablets of the store; success means the request is in the log. */
  ghost predicate ResponseOk(first: Tables, log: seq<nat>, request: nat, q: Request, results: seq<TabletOpResult>) {
    && |results| == |q.ops| && ResultsFit(q.ops, results)
    && (forall i, m | 0 <= i < |results| && Reports(results[i], m) :: HasTablet(first, q.ops[i].tableName, m.tabletId))
    && (AllSucceeded(results) ==> request in log)
  }

  ghost predicate Reports(r: TabletOpResult, m: TabletMetadata) {
    r.opResult.Some? && !r.opResult.value.ListResult? && r.opResult.value.existing == Some(m)
  }

  ghost predicate ProcessesOk(first: Tables, k: Coordinator) {
    forall id, p | IsPreparing(k, id) && 0 <= p < |k.transactions[id].processes| ::
      ProcessOk(first, k.transactions[id].processes[p])
  }

  /** Every pending answer is for a request this transaction sent. */
  ghost predicate CorrelationsOk(requests: seq<Request>, c: nat, k: Coordinator) {
    && (forall id | id in k.transactions :: id <= k.transactionCounter)
    && (forall n | n in k.correlations ::
          && n <= k.correlationCounter && k.correlations[n] <= k.transactionCounter
          && !IsPreparing(k, k.correlations[n])
          && (Awaits(k, n) ==> SentFor(requests, c, k.correlations[n], n, k.transactions[k.correlations[n]].ops)))
    && (forall i | 0 <= i < |requests| && requests[i].coordinator == c ::
          requests[i].correlation <= k.correlationCounter)
  }

  ghost predicate OutcomesOk(requests: seq<Request>, log: seq<nat>, c: nat, k: Coordinator) {
    forall id | id in k.transactions && k.transactions[id] == Finished(TransactionSucceeded) ::
      Executed(requests, log, c, id)
  }

  ghost predicate SentFor(requests: seq<Request>, c: nat, id: nat, n: nat, ops: seq<TabletOp>) {
    exists i :: 0 <= i < |requests| && requests[i].coordinator == c && requests[i].id == id &&
                requests[i].correlation == n && requests[i].ops == ops
  }

  /** A request of this transaction is in the log. */
  ghost predicate Executed(requests: seq<Request>, log: seq<nat>, c: nat, id: nat) {
    exists i :: 0 <= i < |requests| && requests[i].coordinator == c && requests[i].id == id && i in log
  }

  ghost predicate CoordinatorOk(first: Tables, requests: seq<Request>, log: seq<nat>, c: nat, k: Coordinator) {
    ProcessesOk(first, k) && CorrelationsOk(requests, c, k) && OutcomesOk(requests, log, c, k)
  }

  ghost predicate SameTablets(a: Tables, b: Tables) {
    forall t, id :: HasTablet(a, t, id) <==> HasTablet(b, t, id)
  }

  /** The store went from each state to the next by committing a request it accepted. */
  ghost predicate LogOk(requests: seq<Request>, history: seq<Tables>, log: seq<nat>)
    requires |history| == |log| + 1
  {
    forall n | 0 <= n < |log| :: CommitOk(requests, log[n], history[n], history[n + 1])
  }

  ghost predicate CommitOk(requests: seq<Request>, request: nat, before: Tables, after: Tables) {
    request < |requests| && AllHold(before, requests[request].ops) && after == Applied(before, requests[request].ops)
  }

  ghost predicate StoreOk(s: System) {
    && |s.history| == |s.log| + 1 && s.tables == s.history[|s.log|]
    && VersionsDetermine(s.history) && SameTablets(s.history[0], s.tables)
    && LogOk(s.requests, s.history, s.log)
  }

  ghost predicate KnownOk(first: Tables, known: set<Known>) {
    forall k | k in known :: HasTablet(first, k.tableName, k.metadata.tabletId)
  }

  ghost predicate MessagesOk(first: Tables, s: System) {
    && KnownOk(first, s.known)
    && (forall i | 0 <= i < |s.requests| :: RequestOk(first, s.requests[i].calls, s.requests[i].ops))
    && (forall i, j | 0 <= i < j < |s.requests| && s.requests[i].coordinator == s.requests[j].coordinator ::
          s.requests[i].correlation != s.requests[j].correlation)
    && (forall i | 0 <= i < |s.requests| :: s.requests[i].coordinator in s.coordinators)
    && (forall r | 0 <= r < |s.responses| :: ResponsesOk(first, s, s.responses[r]))
  }

  ghost predicate ResponsesOk(first: Tables, s: System, r: Response) {
    r.request < |s.requests| && ResponseOk(first, s.log, r.request, s.requests[r.request], r.results)
  }

  ghost predicate CoordinatorsOk(first: Tables, s: System) {
    forall c | c in s.coordinators :: CoordinatorOk(first, s.requests, s.log, c, s.coordinators[c])
  }

  ghost predicate Inv(s: System) {
    StoreOk(s) && MessagesOk(s.history[0], s) && CoordinatorsOk(s.history[0], s)
  }

  // ----- Processes -----

  /** The last metadata of a list with a given key. */
  ghost function LastWith(ms: seq<TabletMetadata>, k: TabletKey): Option<TabletMetadata> {
    if ms == [] then None
    else if CreateTabletKey(ms[|ms| - 1]) == k then Some(ms[|ms| - 1])
    else LastWith(ms[..|ms| - 1], k)
  }

  lemma {:induction false} InsertResolvedMeaning(resolved: seq<(TableQuery, TabletMetadata)>, k: TabletKey)
    ensures var after := InsertResolved(map[], resolved);
            var last := LastWith(Metadatas(resolved), k);
            && (k in after <==> last.Some?)
            && (k in after ==>
                  && after[k].tablet == Tablet(last.value, None, None, false)
                  && CreateTabletKey(last.value) == k
                  && exists i :: 0 <= i < |resolved| && resolved[i] == (after[k].query, last.value))
  {
    if resolved != [] {
      var n := |resolved| - 1;
      InsertResolvedMeaning(resolved[..n], k);
      assert Metadatas(resolved)[..n] == Metadatas(resolved[..n]);
      var before, last := InsertResolved(map[], resolved[..n]), LastWith(Metadatas(resolved), k);
      if CreateTabletKey(resolved[n].1) != k && k in before {
        var i :| 0 <= i < n && resolved[..n][i] == (before[k].query, last.value);
        assert resolved[i] == (before[k].query, last.value);
      }
    }
  }

  lemma {:induction false} LastWithExists(ms: seq<TabletMetadata>, i: nat)
    requires i < |ms|
    ensures LastWith(ms, CreateTabletKey(ms[i])).Some?
  {
    if CreateTabletKey(ms[|ms| - 1]) != CreateTabletKey(ms[i]) {
      LastWithExists(ms[..|ms| - 1], i);
    }
  }

  lemma ResolvedIsLoading(first: Tables, known: set<Known>, p: ProcessState, a: Answer)
    requires p.status.Resolving? && p.tablets == map[] && a.Resolved? && ResolvesFrom(known, a) && KnownOk(first, known)
    ensures LoadingOk(first, Advance(p, a))
  {
    var after := Advance(p, a);
    forall k | k in after.tablets
      ensures LastWith(after.status.requested, k) == Some(after.tablets[k].tablet.metadata)
      ensures CreateTabletKey(after.tablets[k].tablet.metadata) == k && !after.tablets[k].tablet.isDirty
      ensures HasTablet(first, after.tablets[k].query.tableName, k.tabletId)
    {
      InsertResolvedMeaning(a.resolved, k);
      var i :| 0 <= i < |a.resolved| && a.resolved[i] == (after.tablets[k].query, after.tablets[k].tablet.metadata);
      assert Known(a.resolved[i].0.tableName, a.resolved[i].1) in known;
    }
    forall i | 0 <= i < |after.status.requested| ensures CreateTabletKey(after.status.requested[i]) in after.tablets {
      LastWithExists(after.status.requested, i);
      InsertResolvedMeaning(a.resolved, CreateTabletKey(after.status.requested[i]));
    }
  }

  lemma {:induction false} SetContentsMeaning(tablets: TabletStates, requested: seq<TabletMetadata>, k: TabletKey)
    requires forall i | 0 <= i < |requested| :: CreateTabletKey(requested[i]) in tablets
    requires k in tablets
    ensures forall i | 0 <= i < |requested| :: LoadOf(requested)[i].0 == requested[i]
    ensures var after := SetContents(tablets, LoadOf(requested));
            var last := LastWith(requested, k);
            after[k] == if last.Some?
                        then tablets[k].(tablet := tablets[k].tablet.(contents := Some(last.value.blob)))
                        else tablets[k]
  {
    if requested != [] {
      var n := |requested| - 1;
      assert LoadOf(requested)[..n] == LoadOf(requested[..n]);
      SetContentsMeaning(tablets, requested[..n], k);
    }
  }

  /** Every tablet carries the contents its metadata name, and none was written yet. */
  ghost predicate LoadedOk(first: Tables, tablets: TabletStates) {
    forall k | k in tablets ::
      var t := tablets[k].tablet;
      && t.metadata == ReadMetadata(k, ContentsOf(t)) && !t.isDirty
      && HasTablet(first, tablets[k].query.tableName, k.tabletId)
  }

  lemma ContentsAreLoaded(first: Tables, p: ProcessState)
    requires p.status.Loading? && LoadingOk(first, p)
    ensures forall i | 0 <= i < |p.status.requested| ::
              CreateTabletKey(LoadOf(p.status.requested)[i].0) in p.tablets
    ensures LoadedOk(first, SetContents(p.tablets, LoadOf(p.status.requested)))
  {
    var ms := p.status.requested;
    assert forall i | 0 <= i < |ms| :: LoadOf(ms)[i].0 == ms[i];
    forall k | k in p.tablets
      ensures SetContents(p.tablets, LoadOf(ms))[k] ==
              p.tablets[k].(tablet := p.tablets[k].tablet.(contents := Some(p.tablets[k].tablet.metadata.blob)))
    {
      SetContentsMeaning(p.tablets, ms, k);
    }
  }

  lemma WritesAreHandled(first: Tables, p: ProcessState, tablets: TabletStates)
    requires LoadedOk(first, tablets)
    ensures HandledOk(first, p.(tablets := StoreWrites(tablets, p.handler(View(tablets)))))
  {
    var writes := p.handler(View(tablets));
    var after := StoreWrites(tablets, writes);
    WritingKeepsView(tablets, writes);
    forall k | k in after
      ensures after[k].query == tablets[k].query && ContentsOf(after[k].tablet) == ContentsOf(tablets[k].tablet)
      ensures after[k].tablet.isDirty <==> k in writes
      ensures after[k].tablet.metadata ==
              if k in writes then TabletMetadata(k.tabletId, k.tabletVersion + 1, writes[k])
              else ReadMetadata(k, ContentsOf(tablets[k].tablet))
    {
      assert tablets[k].tablet.metadata == ReadMetadata(k, ContentsOf(tablets[k].tablet));
    }
  }

  lemma WritingKeepsView(tablets: TabletStates, writes: map<TabletKey, Bytes>)
    ensures View(StoreWrites(tablets, writes)) == View(tablets)
  {
    var after := StoreWrites(tablets, writes);
    assert after.Keys == tablets.Keys;
    forall k | k in tablets ensures View(after)[k] == View(tablets)[k] {
    }
  }

  lemma LoadedIsHandled(first: Tables, p: ProcessState, a: Answer)
    requires p.status.Loading? && LoadingOk(first, p) && a.Loaded? && AnswerFits(p, a)
    ensures HandledOk(first, Advance(p, a))
  {
    ContentsAreLoaded(first, p);
    WritesAreHandled(first, p.(status := Storing), SetContents(p.tablets, a.loaded));
  }

  /** Whatever the caches answer, a process only deals with tablets of the store, as its handler was shown them. */
  lemma AdvanceKeepsOk(first: Tables, known: set<Known>, p: ProcessState, a: Answer)
    requires ProcessOk(first, p) && AnswerFits(p, a) && ResolvesFrom(known, a) && KnownOk(first, known)
    ensures ProcessOk(first, Advance(p, a))
  {
    if p.status.Resolving? && a.Resolved? {
      ResolvedIsLoading(first, known, p, a);
    } else if p.status.Loading? && a.Loaded? {
      LoadedIsHandled(first, p, a);
    }
  }

  lemma CommittedSlot(first: Tables, processes: seq<ProcessState>, slot: (nat, TabletKey))
    requires InProcess(processes, slot) && HandledOk(first, processes[slot.0])
    ensures SeenMatches(CallsOf(processes)) && InCall(CallsOf(processes), slot)
    ensures CallOp(CallsOf(processes), slot) == SlotOp(processes, slot)
    ensures SlotOk(first, CallsOf(processes), [SlotOp(processes, slot)], slot)
  {
    var p, k := processes[slot.0], slot.1;
    assert CallsOf(processes)[slot.0] == CallOf(p);
    assert HasTablet(first, p.tablets[k].query.tableName, k.tabletId);
  }

  /** A committed transaction's ops say what its calls read and wrote. */
  lemma CommitIsOk(first: Tables, processes: seq<ProcessState>, order: seq<(nat, TabletKey)>)
    requires forall p | 0 <= p < |processes| :: HandledOk(first, processes[p])
    requires Covers(processes, order)
    ensures RequestOk(first, CallsOf(processes), OpsOf(processes, order))
  {
    var calls, ops := CallsOf(processes), OpsOf(processes, order);
    forall slot: (nat, TabletKey) | InCall(calls, slot) ensures SlotOk(first, calls, ops, slot) {
      assert InProcess(processes, slot);
      CommittedSlot(first, processes, slot);
      var i :| 0 <= i < |order| && order[i] == slot;
      assert ops[i] == SlotOp(processes, slot);
    }
    forall i | 0 <= i < |ops| ensures IsCallOp(calls, ops[i]) {
      assert InProcess(processes, order[i]);
      CommittedSlot(first, processes, order[i]);
    }
  }

  // ----- The store -----

  /** A recorded version that is still current is what the store holds. */
  lemma CurrentIsRecorded(history: seq<Tables>, t: string, m: TabletMetadata)
    requires history != [] && VersionsDetermine(history) && Recorded(history, t, m)
    ensures var now := history[|history| - 1];
            HasTablet(now, t, m.tabletId) && m.tabletVersion <= now[t][m.tabletId].tabletVersion &&
            (now[t][m.tabletId].tabletVersion == m.tabletVersion ==> now[t][m.tabletId] == m)
  {
  }

  /** The store is at the version a slot was resolved to. */
  ghost predicate AtVersion(now: Tables, calls: seq<Call>, slot: (nat, TabletKey))
    requires InCall(calls, slot)
  {
    var r := SlotRef(calls, slot);
    HasTablet(now, r.tableName, r.tabletId) && now[r.tableName][r.tabletId].tabletVersion == slot.1.tabletVersion
  }

  /** A slot was shown what the store holds. */
  ghost predicate SawCurrent(now: Tables, calls: seq<Call>, slot: (nat, TabletKey))
    requires SeenMatches(calls) && InCall(calls, slot)
  {
    Holds(now, SlotRef(calls, slot).tableName, ReadMetadata(slot.1, calls[slot.0].seen[slot.1].contents))
  }

  ghost predicate AllSawCurrent(now: Tables, calls: seq<Call>)
    requires SeenMatches(calls)
  {
    forall slot: (nat, TabletKey) | InCall(calls, slot) :: SawCurrent(now, calls, slot)
  }

  /** What every slot was shown was committed at some time. */
  ghost predicate ReadsCommitted(history: seq<Tables>, calls: seq<Call>)
    requires SeenMatches(calls)
  {
    forall slot: (nat, TabletKey) | InCall(calls, slot) ::
      Recorded(history, SlotRef(calls, slot).tableName, ReadMetadata(slot.1, calls[slot.0].seen[slot.1].contents))
  }

  /** What the proofs about one accepted request use: all slots at their version, all ops from slots. */
  ghost predicate Accepted(now: Tables, calls: seq<Call>, ops: seq<TabletOp>) {
    && ValidTables(now) && AllHold(now, ops) && SeenMatches(calls)
    && (forall slot: (nat, TabletKey) | InCall(calls, slot) ::
          AtVersion(now, calls, slot) && calls[slot.0].seen[slot.1].query == calls[slot.0].slots[slot.1]
          && CallOp(calls, slot) in ops)
    && (forall i | 0 <= i < |ops| :: IsCallOp(calls, ops[i]))
  }

  lemma SlotIsAtVersion(first: Tables, now: Tables, calls: seq<Call>, ops: seq<TabletOp>, slot: (nat, TabletKey))
    requires SameTablets(first, now) && SeenMatches(calls)
    requires AllHold(now, ops) && InCall(calls, slot) && SlotOk(first, calls, ops, slot)
    ensures AtVersion(now, calls, slot)
  {
    assert HasTablet(first, SlotRef(calls, slot).tableName, SlotRef(calls, slot).tabletId);
    var i :| 0 <= i < |ops| && ops[i] == CallOp(calls, slot);
    assert OpHolds(now, ops[i]);
  }

  lemma RequestIsAccepted(first: Tables, now: Tables, calls: seq<Call>, ops: seq<TabletOp>)
    requires ValidTables(now) && SameTablets(first, now) && RequestOk(first, calls, ops) && AllHold(now, ops)
    ensures Accepted(now, calls, ops)
  {
    forall slot: (nat, TabletKey) | InCall(calls, slot)
      ensures AtVersion(now, calls, slot)
      ensures calls[slot.0].seen[slot.1].query == calls[slot.0].slots[slot.1] && CallOp(calls, slot) in ops
    {
      assert SlotOk(first, calls, ops, slot);
      SlotIsAtVersion(first, now, calls, ops, slot);
    }
  }

  /** So no tablet is in two slots of one process request. */
  lemma SharedSlots(now: Tables, calls: seq<Call>, ops: seq<TabletOp>, a: (nat, TabletKey), b: (nat, TabletKey))
    requires Accepted(now, calls, ops) && Agree(calls)
    requires InCall(calls, a) && InCall(calls, b) && SlotRef(calls, a) == SlotRef(calls, b)
    ensures a.1 == b.1 && Intended(calls, a) == Intended(calls, b)
  {
    assert AtVersion(now, calls, a) && AtVersion(now, calls, b);
  }

  /** An update of an accepted request comes from a slot, and writes what that slot intends. */
  lemma UpdateComesFromSlot(now: Tables, calls: seq<Call>, ops: seq<TabletOp>, i: nat, r: TabletRef)
    returns (slot: (nat, TabletKey))
    requires Accepted(now, calls, ops) && i < |ops| && Updates(ops[i], r.tableName, r.tabletId)
    ensures InCall(calls, slot) && SlotRef(calls, slot) == r
    ensures ops[i].op.value.metadata ==
            Some(TabletMetadata(r.tabletId, slot.1.tabletVersion + 1, Intended(calls, slot)))
  {
    assert IsCallOp(calls, ops[i]);
    slot :| InCall(calls, slot) && CallOp(calls, slot) == ops[i];
  }

  /** A slot whose tablet nothing updates intends what it was shown. */
  lemma UnwrittenSlot(now: Tables, calls: seq<Call>, ops: seq<TabletOp>, slot: (nat, TabletKey))
    requires Accepted(now, calls, ops) && InCall(calls, slot)
    requires forall i | 0 <= i < |ops| ::
               !Updates(ops[i], SlotRef(calls, slot).tableName, SlotRef(calls, slot).tabletId)
    ensures Intended(calls, slot) == calls[slot.0].seen[slot.1].contents
  {
    var i :| 0 <= i < |ops| && ops[i] == CallOp(calls, slot);
  }

  /** What a slot's tablet holds after an accepted request that read the present contents. */
  lemma SlotHoldsWrite(now: Tables, calls: seq<Call>, ops: seq<TabletOp>, slot: (nat, TabletKey))
    requires Accepted(now, calls, ops) && Agree(calls) && InCall(calls, slot) && SawCurrent(now, calls, slot)
    ensures Blob(Applied(now, ops), SlotRef(calls, slot)) == Intended(calls, slot)
  {
    var r := SlotRef(calls, slot);
    RequestEffect(now, ops, r.tableName, r.tabletId);
    LastUpdateIsAnUpdate(ops, r.tableName, r.tabletId);
    if LastUpdate(ops, r.tableName, r.tabletId).Some? {
      var i :| 0 <= i < |ops| && Updates(ops[i], r.tableName, r.tabletId) &&
               ops[i].op.value.metadata == LastUpdate(ops, r.tableName, r.tabletId);
      var other := UpdateComesFromSlot(now, calls, ops, i, r);
      SharedSlots(now, calls, ops, other, slot);
    } else {
      UnwrittenSlot(now, calls, ops, slot);
    }
  }

  lemma UntouchedKeepsBlob(now: Tables, calls: seq<Call>, ops: seq<TabletOp>, r: TabletRef)
    requires Accepted(now, calls, ops) && !Touched(calls, r)
    ensures Blob(Applied(now, ops), r) == Blob(now, r)
  {
    if r.tableName in now {
      RequestEffect(now, ops, r.tableName, r.tabletId);
      if i :| 0 <= i < |ops| && Updates(ops[i], r.tableName, r.tabletId) {
        var slot := UpdateComesFromSlot(now, calls, ops, i, r);
        assert false;
      }
    }
  }

  lemma CurrentViews(now: Tables, calls: seq<Call>, ops: seq<TabletOp>)
    requires Accepted(now, calls, ops) && AllSawCurrent(now, calls)
    ensures forall p | 0 <= p < |calls| :: calls[p].seen == ViewAt(calls[p], now)
    ensures forall slot: (nat, TabletKey) | InCall(calls, slot) ::
              BlobAfter(calls, slot, now) == Intended(calls, slot)
  {
    forall p | 0 <= p < |calls| ensures calls[p].seen == ViewAt(calls[p], now) {
      forall k | k in calls[p].slots ensures calls[p].seen[k] == ViewAt(calls[p], now)[k] {
        assert InCall(calls, (p, k));
        assert SawCurrent(now, calls, (p, k));
      }
    }
    forall slot: (nat, TabletKey) | InCall(calls, slot) ensures BlobAfter(calls, slot, now) == Intended(calls, slot) {
      assert SawCurrent(now, calls, slot);
      assert calls[slot.0].seen == ViewAt(calls[slot.0], now);
    }
  }

  /** Calls that agree on the tablets they share and read the present contents are executed atomically. */
  lemma AgreeingIsAtomic(now: Tables, calls: seq<Call>, ops: seq<TabletOp>)
    requires Accepted(now, calls, ops) && AllSawCurrent(now, calls) && Agree(calls)
    ensures ExecutedAtomically(calls, now, Applied(now, ops))
  {
    CurrentViews(now, calls, ops);
    forall slot: (nat, TabletKey) | InCall(calls, slot)
      ensures Blob(Applied(now, ops), SlotRef(calls, slot)) == BlobAfter(calls, slot, now)
    {
      SlotHoldsWrite(now, calls, ops, slot);
    }
    forall r: TabletRef | !Touched(calls, r) ensures Blob(Applied(now, ops), r) == Blob(now, r) {
      UntouchedKeepsBlob(now, calls, ops, r);
    }
  }

  /** A call executed atomically was shown what the store holds. */
  lemma AtomicSawCurrent(now: Tables, calls: seq<Call>, ops: seq<TabletOp>, after: Tables)
    requires Accepted(now, calls, ops) && ExecutedAtomically(calls, now, after)
    ensures AllSawCurrent(now, calls)
  {
    forall slot: (nat, TabletKey) | InCall(calls, slot) ensures SawCurrent(now, calls, slot) {
      assert AtVersion(now, calls, slot);
      assert calls[slot.0].seen[slot.1] == ViewAt(calls[slot.0], now)[slot.1];
      var r := SlotRef(calls, slot);
      assert WellKeyed(now[r.tableName]);
    }
  }

  /** And calls executed atomically agree on the tablets they share. */
  lemma AtomicAgrees(now: Tables, calls: seq<Call>, ops: seq<TabletOp>, after: Tables)
    requires Accepted(now, calls, ops) && AllSawCurrent(now, calls) && ExecutedAtomically(calls, now, after)
    ensures Agree(calls)
  {
    CurrentViews(now, calls, ops);
    forall a: (nat, TabletKey), b: (nat, TabletKey)
      | InCall(calls, a) && InCall(calls, b) && SlotRef(calls, a) == SlotRef(calls, b)
      ensures Intended(calls, a) == Intended(calls, b)
    {
      assert BlobAfter(calls, a, now) == BlobAfter(calls, b, now);
    }
  }

  /** At its version, a slot was shown what the store holds exactly when it was shown what was ever committed. */
  lemma CommittedIsCurrent(history: seq<Tables>, calls: seq<Call>, ops: seq<TabletOp>)
    requires history != [] && VersionsDetermine(history) && Accepted(history[|history| - 1], calls, ops)
    ensures AllSawCurrent(history[|history| - 1], calls) <==> ReadsCommitted(history, calls)
  {
    var now := history[|history| - 1];
    forall slot: (nat, TabletKey) | InCall(calls, slot)
      ensures SawCurrent(now, calls, slot) <==>
              Recorded(history, SlotRef(calls, slot).tableName,
                ReadMetadata(slot.1, calls[slot.0].seen[slot.1].contents))
    {
      var t, m := SlotRef(calls, slot).tableName, ReadMetadata(slot.1, calls[slot.0].seen[slot.1].contents);
      assert AtVersion(now, calls, slot);
      if Recorded(history, t, m) {
        CurrentIsRecorded(history, t, m);
      }
    }
  }

  /**
   The heart of the matter: a request the store accepts is an atomic execution of its calls,
   exactly when the calls agree on the tablets they share and were shown committed contents.
   */
  lemma AcceptedIsAtomic(history: seq<Tables>, calls: seq<Call>, ops: seq<TabletOp>)
    requires history != [] && VersionsDetermine(history) && SameTablets(history[0], history[|history| - 1])
    requires RequestOk(history[0], calls, ops) && AllHold(history[|history| - 1], ops)
    ensures ExecutedAtomically(calls, history[|history| - 1], Applied(history[|history| - 1], ops)) <==>
            Agree(calls) && ReadsCommitted(history, calls)
  {
    var now := history[|history| - 1];
    RequestIsAccepted(history[0], now, calls, ops);
    CommittedIsCurrent(history, calls, ops);
    AtomicIff(now, calls, ops);
  }

  lemma AtomicIff(now: Tables, calls: seq<Call>, ops: seq<TabletOp>)
    requires Accepted(now, calls, ops)
    ensures ExecutedAtomically(calls, now, Applied(now, ops)) <==> Agree(calls) && AllSawCurrent(now, calls)
  {
    if Agree(calls) && AllSawCurrent(now, calls) {
      AgreeingIsAtomic(now, calls, ops);
    }
    if ExecutedAtomically(calls, now, Applied(now, ops)) {
      AtomicSawCurrent(now, calls, ops, Applied(now, ops));
      AtomicAgrees(now, calls, ops, Applied(now, ops));
    }
  }

  lemma HistoryGrows(history: seq<Tables>, ops: seq<TabletOp>)
    requires history != [] && VersionsDetermine(history) && AllHold(history[|history| - 1], ops)
    ensures VersionsDetermine(history + [Applied(history[|history| - 1], ops)])
  {
    var now := history[|history| - 1];
    forall t, id | HasTablet(now, t, id)
      ensures ValidTables(Applied(now, ops)) && HasTablet(Applied(now, ops), t, id)
      ensures now[t][id] == Applied(now, ops)[t][id] ||
              now[t][id].tabletVersion < Applied(now, ops)[t][id].tabletVersion
    {
      RequestEffect(now, ops, t, id);
    }
    assert ValidTables(Applied(now, ops)) by {
      if t :| t in now { RequestEffect(now, ops, t, 0); }
    }
  }

  lemma TabletsStay(now: Tables, ops: seq<TabletOp>)
    requires ValidTables(now)
    ensures SameTablets(now, Applied(now, ops))
  {
    if AllHold(now, ops) {
      forall t, id ensures HasTablet(now, t, id) <==> HasTablet(Applied(now, ops), t, id) {
        if t in now {
          RequestEffect(now, ops, t, id);
        }
      }
    }
  }

  /** All updates of a tablet in an accepted request write the same. */
  lemma UpdatesAgree(now: Tables, calls: seq<Call>, ops: seq<TabletOp>, i: nat, j: nat, r: TabletRef)
    requires Accepted(now, calls, ops) && Agree(calls) && i < |ops| && j < |ops|
    requires Updates(ops[i], r.tableName, r.tabletId) && Updates(ops[j], r.tableName, r.tabletId)
    ensures ops[i].op.value.metadata == ops[j].op.value.metadata
  {
    var a := UpdateComesFromSlot(now, calls, ops, i, r);
    var b := UpdateComesFromSlot(now, calls, ops, j, r);
    SharedSlots(now, calls, ops, a, b);
  }

  /** An accepted request leaves every update it made in the store. */
  lemma UpdatesAreCommitted(now: Tables, calls: seq<Call>, ops: seq<TabletOp>, i: nat)
    requires Accepted(now, calls, ops) && Agree(calls)
    requires i < |ops| && ops[i].op.Some? && ops[i].op.value.UpdateTablet?
    ensures ops[i].op.value.metadata.Some?
    ensures Holds(Applied(now, ops), ops[i].tableName, ops[i].op.value.metadata.value)
  {
    assert OpHolds(now, ops[i]);
    var t, id := ops[i].tableName, ops[i].op.value.metadata.value.tabletId;
    assert Updates(ops[i], t, id);
    assert LastUpdate(ops, t, id) == ops[i].op.value.metadata by {
      LastUpdateIsAnUpdate(ops, t, id);
      var j :| 0 <= j < |ops| && Updates(ops[j], t, id) && ops[j].op.value.metadata == LastUpdate(ops, t, id);
      UpdatesAgree(now, calls, ops, i, j, TabletRef(t, id));
    }
    RequestEffect(now, ops, t, id);
  }
}
