/**
 The transaction coordinator of the tablet cache: transactions gather process
 requests, each resolved, loaded, handled and stored, and commit as one list of
 check and update ops.
 */
module Coordinator {
  import opened Wrappers
  import opened TabletStore

  datatype TableQuery = TableQuery(queryId: nat, tableName: string, keyHashes: set<Hash>)

  /** Tablets of one process request are filed under id and version, without the table. */
  datatype TabletKey = TabletKey(tabletId: Hash, tabletVersion: nat)

  function CreateTabletKey(m: TabletMetadata): TabletKey {
    TabletKey(m.tabletId, m.tabletVersion)
  }

  datatype Tablet = Tablet(
    metadata: TabletMetadata, contents: Option<Bytes>, updatedContents: Option<Bytes>, isDirty: bool)

  datatype TabletState = TabletState(query: TableQuery, tablet: Tablet)

  type TabletStates = map<TabletKey, TabletState>

  /** What a handler is shown of a tablet. */
  datatype TabletView = TabletView(query: TableQuery, contents: Bytes)

  /** A handler call, as the contents it sets given the tablets it is shown. */
  type Handler = map<TabletKey, TabletView> -> map<TabletKey, Bytes>

  datatype ProcessStatus =
    | Pending(queries: seq<TableQuery>)
    | Resolving
    | Loading(requested: seq<TabletMetadata>)
    | Storing
    | Completed
    | Failed

  datatype ProcessState = ProcessState(status: ProcessStatus, handler: Handler, tablets: TabletStates)

  /** What polling the cache a process waits for answers. */
  datatype Answer =
    | NotReady
    | Resolved(resolved: seq<(TableQuery, TabletMetadata)>)
    | Loaded(loaded: seq<(TabletMetadata, Bytes)>)
    | Stored
    | Error

  /** The data cache's contract: every tablet asked for, with the contents its metadata name. */
  function LoadOf(requested: seq<TabletMetadata>): seq<(TabletMetadata, Bytes)> {
    seq(|requested|, i requires 0 <= i < |requested| => (requested[i], requested[i].blob))
  }

  predicate KeepsContract(p: ProcessState, a: Answer) {
    p.status.Loading? && a.Loaded? ==> a.loaded == LoadOf(p.status.requested)
  }

  /** Every tablet asked for is one the process tracks. */
  predicate Loadable(p: ProcessState) {
    p.status.Loading? ==>
      forall i | 0 <= i < |p.status.requested| :: CreateTabletKey(p.status.requested[i]) in p.tablets
  }

  /** The source panics on contents of a tablet the process does not track. */
  predicate AnswerFits(p: ProcessState, a: Answer) {
    KeepsContract(p, a) && (a.Loaded? ==> Loadable(p))
  }

  // ----- One process request -----

  function Metadatas(resolved: seq<(TableQuery, TabletMetadata)>): seq<TabletMetadata> {
    seq(|resolved|, i requires 0 <= i < |resolved| => resolved[i].1)
  }

  function InsertResolved(tablets: TabletStates, resolved: seq<(TableQuery, TabletMetadata)>): TabletStates {
    if resolved == [] then tablets
    else
      var (query, m) := resolved[|resolved| - 1];
      InsertResolved(tablets, resolved[..|resolved| - 1])
      [CreateTabletKey(m) := TabletState(query, Tablet(m, None, None, false))]
  }

  function SetContents(tablets: TabletStates, loaded: seq<(TabletMetadata, Bytes)>): (r: TabletStates)
    requires forall i | 0 <= i < |loaded| :: CreateTabletKey(loaded[i].0) in tablets
    ensures r.Keys == tablets.Keys
  {
    if loaded == [] then tablets
    else
      var rest := SetContents(tablets, loaded[..|loaded| - 1]);
      var (m, data) := loaded[|loaded| - 1];
      var k := CreateTabletKey(m);
      assert k in tablets;
      rest[k := rest[k].(tablet := rest[k].tablet.(contents := Some(data)))]
  }

  function ContentsOf(t: Tablet): Bytes {
    if t.contents.Some? then t.contents.value else []
  }

  function View(tablets: TabletStates): map<TabletKey, TabletView> {
    map k | k in tablets :: TabletView(tablets[k].query, ContentsOf(tablets[k].tablet))
  }

  /** Sets contents, hands them to the data cache and takes the next version from it. */
  function StoreWrites(tablets: TabletStates, writes: map<TabletKey, Bytes>): TabletStates {
    map k | k in tablets ::
      if k in writes then
        var t := tablets[k].tablet;
        tablets[k].(tablet := t.(
          metadata := TabletMetadata(t.metadata.tabletId, t.metadata.tabletVersion + 1, writes[k]),
          updatedContents := None,
          isDirty := true))
      else
        tablets[k]
  }

  /** One step of a process: the next state, if the answer allows one. */
  function Advance(p: ProcessState, a: Answer): ProcessState
    requires AnswerFits(p, a)
  {
    match p.status
    case Pending(_) => p.(status := Resolving)
    case Resolving =>
      if a.Resolved? then
        p.(tablets := InsertResolved(p.tablets, a.resolved), status := Loading(Metadatas(a.resolved)))
      else if a.Error? then p.(status := ProcessStatus.Failed) else p
    case Loading(_) =>
      if a.Loaded? then
        assert forall i | 0 <= i < |a.loaded| :: a.loaded[i].0 == p.status.requested[i];
        var tablets := SetContents(p.tablets, a.loaded);
        p.(tablets := StoreWrites(tablets, p.handler(View(tablets))), status := Storing)
      else if a.Error? then p.(status := ProcessStatus.Failed) else p
    case Storing =>
      if a.Stored? then p.(status := Completed) else if a.Error? then p.(status := ProcessStatus.Failed) else p
    case Completed => p
    case Failed => p
  }

  function GetTabletOp(s: TabletState): TabletOp {
    TabletOp(s.query.tableName, Some(
      if s.tablet.isDirty then UpdateTablet(Some(s.tablet.metadata))
      else CheckTablet(s.tablet.metadata.tabletId, s.tablet.metadata.tabletVersion)))
  }

  // ----- Transactions -----

  datatype Outcome = TransactionSucceeded | TransactionFailed

  datatype TransactionState =
    | Preparing(processes: seq<ProcessState>)
    | Committing(ops: seq<TabletOp>)
    | Finished(outcome: Outcome)

  /** Failed processes count as active too. */
  predicate IsActive(processes: seq<ProcessState>) {
    exists i :: 0 <= i < |processes| && !processes[i].status.Completed?
  }

  /** An order in which the tablets of all the processes are visited. */
  ghost predicate Covers(processes: seq<ProcessState>, order: seq<(nat, TabletKey)>) {
    && (forall i | 0 <= i < |order| :: InProcess(processes, order[i]))
    && (forall i, j | 0 <= i < j < |order| :: order[i] != order[j])
    && (forall slot: (nat, TabletKey) | InProcess(processes, slot) :: slot in order)
  }

  ghost predicate InProcess(processes: seq<ProcessState>, slot: (nat, TabletKey)) {
    slot.0 < |processes| && slot.1 in processes[slot.0].tablets
  }

  ghost function SlotOp(processes: seq<ProcessState>, slot: (nat, TabletKey)): TabletOp
    requires InProcess(processes, slot)
  {
    GetTabletOp(processes[slot.0].tablets[slot.1])
  }

  ghost function OpsOf(processes: seq<ProcessState>, order: seq<(nat, TabletKey)>): seq<TabletOp>
    requires forall i | 0 <= i < |order| :: InProcess(processes, order[i])
  {
    seq(|order|, i requires 0 <= i < |order| => SlotOp(processes, order[i]))
  }

  /** A refresh of the metadata cache: table, metadata, and whether it reports a conflict. */
  datatype Refresh = Refresh(tableName: string, metadata: TabletMetadata, conflict: bool)

  /** The source panics on any other pairing of op and result. */
  predicate ResultFits(op: TabletOp, r: TabletOpResult) {
    && op.op.Some? && r.opResult.Some?
    && (if op.op.value.CheckTablet? then r.opResult.value.CheckResult?
        else op.op.value.UpdateTablet? && op.op.value.metadata.Some? && r.opResult.value.UpdateResult?)
    && (r.status != Succeeded ==> r.opResult.value.existing.Some?)
  }

  function RefreshOf(op: TabletOp, r: TabletOpResult): seq<Refresh>
    requires ResultFits(op, r)
  {
    if r.status != Succeeded then [Refresh(op.tableName, r.opResult.value.existing.value, true)]
    else if op.op.value.UpdateTablet? then [Refresh(op.tableName, op.op.value.metadata.value, false)]
    else []
  }

  /** Ops and results are paired up as far as both go. */
  function Paired(ops: seq<TabletOp>, results: seq<TabletOpResult>): nat {
    if |ops| <= |results| then |ops| else |results|
  }

  predicate ResultsFit(ops: seq<TabletOp>, results: seq<TabletOpResult>) {
    forall i | 0 <= i < Paired(ops, results) :: ResultFits(ops[i], results[i])
  }

  /** What the first `n` pairs tell the metadata cache. */
  function Refreshes(ops: seq<TabletOp>, results: seq<TabletOpResult>, n: nat): seq<Refresh>
    requires ResultsFit(ops, results) && n <= Paired(ops, results)
  {
    if n == 0 then []
    else Refreshes(ops, results, n - 1) + RefreshOf(ops[n - 1], results[n - 1])
  }

  predicate AllSucceeded(results: seq<TabletOpResult>) {
    forall i | 0 <= i < |results| :: results[i].status == Succeeded
  }

  lemma OneMoreSucceeded(results: seq<TabletOpResult>, i: nat)
    requires i < |results|
    ensures AllSucceeded(results[..i + 1]) <==> AllSucceeded(results[..i]) && results[i].status == Succeeded
  {
    assert results[..i + 1] == results[..i] + [results[i]];
  }

  datatype Coordinator = Coordinator(
    correlationCounter: nat,
    transactionCounter: nat,
    transactions: map<nat, TransactionState>,
    correlations: map<nat, nat>,
    outMessages: seq<(nat, seq<TabletOp>)>)

  function Created(c: Coordinator): Coordinator {
    var id := c.transactionCounter + 1;
    c.(transactionCounter := id, transactions := c.transactions[id := Preparing([])])
  }

  predicate IsPreparing(c: Coordinator, id: nat) {
    id in c.transactions && c.transactions[id].Preparing?
  }

  function WithProcess(c: Coordinator, id: nat, queries: seq<TableQuery>, handler: Handler): Coordinator
    requires IsPreparing(c, id)
  {
    var processes := c.transactions[id].processes + [ProcessState(Pending(queries), handler, map[])];
    c.(transactions := c.transactions[id := Preparing(processes)])
  }

  type Answers = map<nat, seq<Answer>>

  predicate AnswersFit(transactions: map<nat, TransactionState>, answers: Answers) {
    forall id | id in transactions && transactions[id].Preparing? ::
      id in answers && |answers[id]| == |transactions[id].processes| &&
      forall i | 0 <= i < |answers[id]| :: AnswerFits(transactions[id].processes[i], answers[id][i])
  }

  /** What the caches promise about their answers. */
  predicate AnswersKeepContract(transactions: map<nat, TransactionState>, answers: Answers) {
    forall id | id in transactions && transactions[id].Preparing? ::
      id in answers && |answers[id]| == |transactions[id].processes| &&
      forall i | 0 <= i < |answers[id]| :: KeepsContract(transactions[id].processes[i], answers[id][i])
  }

  function AdvanceAll(processes: seq<ProcessState>, answers: seq<Answer>): seq<ProcessState>
    requires |processes| == |answers|
    requires forall i | 0 <= i < |answers| :: AnswerFits(processes[i], answers[i])
  {
    seq(|processes|, i requires 0 <= i < |processes| => Advance(processes[i], answers[i]))
  }

  function Progressed(c: Coordinator, answers: Answers): Coordinator
    requires AnswersFit(c.transactions, answers)
  {
    c.(transactions := map id | id in c.transactions ::
         if c.transactions[id].Preparing? then Preparing(AdvanceAll(c.transactions[id].processes, answers[id]))
         else c.transactions[id])
  }

  /** Stashes the request and remembers which transaction its answer is for. */
  function Committed(c: Coordinator, id: nat, ops: seq<TabletOp>): Coordinator {
    var correlation := c.correlationCounter + 1;
    c.(correlationCounter := correlation,
       outMessages := c.outMessages + [(correlation, ops)],
       correlations := c.correlations[correlation := id],
       transactions := c.transactions[id := Committing(ops)])
  }

  function Aborted(c: Coordinator, id: nat): Coordinator {
    c.(transactions := c.transactions - {id})
  }

  predicate Awaits(c: Coordinator, correlation: nat) {
    correlation in c.correlations && c.correlations[correlation] in c.transactions &&
    c.transactions[c.correlations[correlation]].Committing?
  }

  predicate ResponseFits(c: Coordinator, correlation: nat, results: seq<TabletOpResult>) {
    Awaits(c, correlation) ==> ResultsFit(c.transactions[c.correlations[correlation]].ops, results)
  }

  function Answered(c: Coordinator, correlation: nat, results: seq<TabletOpResult>): (Coordinator, seq<Refresh>)
    requires ResponseFits(c, correlation, results)
  {
    var forgotten := c.(correlations := c.correlations - {correlation});
    if Awaits(c, correlation) then
      var id := c.correlations[correlation];
      var ops := c.transactions[id].ops;
      var n := Paired(ops, results);
      (forgotten.(transactions := c.transactions[id := Finished(
         if AllSucceeded(results[..n]) then TransactionSucceeded else TransactionFailed)]),
       Refreshes(ops, results, n))
    else
      (forgotten, [])
  }

  function Checked(c: Coordinator, id: nat): (Coordinator, Option<Outcome>)
    requires id in c.transactions && !c.transactions[id].Preparing?
  {
    if c.transactions[id].Finished? then (Aborted(c, id), Some(c.transactions[id].outcome)) else (c, None)
  }

  class TabletTransactionCoordinator {
    var correlationCounter: nat
    var transactionCounter: nat
    var transactions: map<nat, TransactionState>
    var correlations: map<nat, nat>
    var outMessages: seq<(nat, seq<TabletOp>)>

    ghost function Model(): Coordinator
      reads this
    {
      Coordinator(correlationCounter, transactionCounter, transactions, correlations, outMessages)
    }

    constructor (correlationCounter: nat)
      ensures Model() == Coordinator(correlationCounter, 1, map[], map[], [])
    {
      this.correlationCounter := correlationCounter;
      transactionCounter, transactions, correlations, outMessages := 1, map[], map[], [];
    }

    method CreateTransaction() returns (id: nat)
      modifies this
      ensures Model() == Created(old(Model())) && id == transactionCounter
    {
      transactionCounter := transactionCounter + 1;
      id := transactionCounter;
      transactions := transactions[id := Preparing([])];
    }

    method ProcessTransaction(id: nat, queries: seq<TableQuery>, handler: Handler)
      requires IsPreparing(Model(), id)
      modifies this
      ensures Model() == WithProcess(old(Model()), id, queries, handler)
    {
      var processes := transactions[id].processes + [ProcessState(Pending(queries), handler, map[])];
      transactions := transactions[id := Preparing(processes)];
    }

    method HasPendingProcess(id: nat) returns (pending: bool)
      requires id in transactions
      ensures pending <==> transactions[id].Preparing? && IsActive(transactions[id].processes)
    {
      if !transactions[id].Preparing? {
        return false;
      }
      var processes := transactions[id].processes;
      for i := 0 to |processes|
        invariant forall j | 0 <= j < i :: processes[j].status.Completed?
      {
        if !processes[i].status.Completed? {
          return true;
        }
      }
      return false;
    }

    /** Moves every process of every preparing transaction one step on. */
    method MakeProgress(answers: Answers)
      requires AnswersFit(transactions, answers)
      modifies this
      ensures Model() == Progressed(old(Model()), answers)
    {
      var todo := transactions.Keys;
      ghost var done: set<nat> := {};
      while todo != {}
        invariant done + todo == old(transactions).Keys && done !! todo
        invariant transactions.Keys == old(transactions).Keys
        invariant forall id | id in todo :: transactions[id] == old(transactions)[id]
        invariant forall id | id in done :: transactions[id] == Progressed(old(Model()), answers).transactions[id]
        invariant Model() == old(Model()).(transactions := transactions)
        decreases todo
      {
        var id :| id in todo;
        if transactions[id].Preparing? {
          var processes := AdvanceProcesses(transactions[id].processes, answers[id]);
          transactions := transactions[id := Preparing(processes)];
        }
        todo, done := todo - {id}, done + {id};
      }
    }

    static method AdvanceProcesses(processes: seq<ProcessState>, answers: seq<Answer>)
      returns (r: seq<ProcessState>)
      requires |processes| == |answers|
      requires forall i | 0 <= i < |answers| :: AnswerFits(processes[i], answers[i])
      ensures r == AdvanceAll(processes, answers)
    {
      r := processes;
      for i := 0 to |processes|
        invariant |r| == |processes|
        invariant forall j | 0 <= j < i :: r[j] == Advance(processes[j], answers[j])
        invariant forall j | i <= j < |r| :: r[j] == processes[j]
      {
        r := r[i := Advance(r[i], answers[i])];
      }
    }

    /** The ops of a prepared transaction, none if a process failed. */
    static method CompletePreparing(processes: seq<ProcessState>)
      returns (ops: Option<seq<TabletOp>>, ghost order: seq<(nat, TabletKey)>)
      ensures ops.None? <==> exists i :: 0 <= i < |processes| && processes[i].status.Failed?
      ensures ops.Some? ==> Covers(processes, order) && ops.value == OpsOf(processes, order)
    {
      var found: seq<TabletOp> := [];
      order := [];
      for i := 0 to |processes|
        invariant forall j | 0 <= j < i :: !processes[j].status.Failed?
        invariant Covers(processes[..i], order) && found == OpsOf(processes[..i], order)
      {
        if processes[i].status.Failed? {
          return None, [];
        }
        var todo := processes[i].tablets.Keys;
        ghost var upTo := processes[..i + 1];
        while todo != {}
          invariant todo <= processes[i].tablets.Keys
          invariant forall n | 0 <= n < |order| :: InProcess(upTo, order[n])
          invariant forall n, m | 0 <= n < m < |order| :: order[n] != order[m]
          invariant forall slot: (nat, TabletKey) | InProcess(upTo, slot) ::
                      slot in order <==> slot.0 < i || slot.1 !in todo
          invariant found == OpsOf(upTo, order)
          decreases todo
        {
          var k :| k in todo;
          found := found + [GetTabletOp(processes[i].tablets[k])];
          assert InProcess(upTo, (i, k));
          order := order + [(i, k)];
          todo := todo - {k};
        }
      }
      assert processes[..|processes|] == processes;
      ops := Some(found);
    }

    method CommitTransaction(id: nat) returns (ghost order: seq<(nat, TabletKey)>)
      requires IsPreparing(Model(), id) && !IsActive(transactions[id].processes)
      modifies this
      ensures var processes := old(transactions)[id].processes;
              Covers(processes, order) && Model() == Committed(old(Model()), id, OpsOf(processes, order))
    {
      var ops;
      ops, order := CompletePreparing(transactions[id].processes);
      correlationCounter := correlationCounter + 1;
      outMessages := outMessages + [(correlationCounter, ops.value)];
      correlations := correlations[correlationCounter := id];
      transactions := transactions[id := Committing(ops.value)];
    }

    method AbortTransaction(id: nat)
      modifies this
      ensures Model() == Aborted(old(Model()), id)
    {
      transactions := transactions - {id};
    }

    method CheckTransactionResult(id: nat) returns (outcome: Option<Outcome>)
      requires id in transactions && !transactions[id].Preparing?
      modifies this
      ensures (Model(), outcome) == Checked(old(Model()), id)
    {
      if transactions[id].Finished? {
        outcome := Some(transactions[id].outcome);
        transactions := transactions - {id};
      } else {
        outcome := None;
      }
    }

    method TakeOutMessages() returns (messages: seq<(nat, seq<TabletOp>)>)
      modifies this
      ensures messages == old(outMessages) && Model() == old(Model()).(outMessages := [])
    {
      messages := outMessages;
      outMessages := [];
    }

    static method CompleteCommitting(ops: seq<TabletOp>, results: seq<TabletOpResult>)
      returns (outcome: Outcome, refreshes: seq<Refresh>)
      requires ResultsFit(ops, results)
      ensures outcome == TransactionSucceeded <==> AllSucceeded(results[..Paired(ops, results)])
      ensures refreshes == Refreshes(ops, results, Paired(ops, results))
    {
      outcome, refreshes := TransactionSucceeded, [];
      for i := 0 to Paired(ops, results)
        invariant outcome == TransactionSucceeded <==> AllSucceeded(results[..i])
        invariant refreshes == Refreshes(ops, results, i)
      {
        OneMoreSucceeded(results, i);
        if results[i].status != Succeeded {
          outcome := TransactionFailed;
        }
        refreshes := refreshes + RefreshOf(ops[i], results[i]);
      }
    }

    /** Returns the refreshes the metadata cache is told of. */
    method ProcessResponse(correlation: nat, results: seq<TabletOpResult>) returns (refreshes: seq<Refresh>)
      requires ResponseFits(Model(), correlation, results)
      modifies this
      ensures (Model(), refreshes) == Answered(old(Model()), correlation, results)
    {
      refreshes := [];
      if correlation in correlations {
        var id := correlations[correlation];
        if id in transactions && transactions[id].Committing? {
          var outcome;
          outcome, refreshes := CompleteCommitting(transactions[id].ops, results);
          transactions := transactions[id := Finished(outcome)];
        }
      }
      correlations := correlations - {correlation};
    }
  }
}
