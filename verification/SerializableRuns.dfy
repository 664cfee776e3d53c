/** Every run of coordinators and store, and exactly when what it does is serializable. */
module SerializableRuns {
  import opened Wrappers
  import opened TabletStore
  import opened Coordinator
  import opened Serializability

  // ----- What a longer log or request list keeps -----

  lemma OutcomesGrow(
    requests: seq<Request>, moreRequests: seq<Request>, log: seq<nat>, moreLog: seq<nat>, c: nat, k: Coordinator)
    requires OutcomesOk(requests, log, c, k)
    ensures OutcomesOk(requests + moreRequests, log + moreLog, c, k)
  {
    forall id | id in k.transactions && k.transactions[id] == Finished(TransactionSucceeded)
      ensures Executed(requests + moreRequests, log + moreLog, c, id)
    {
      assert Executed(requests, log, c, id);
      var i :| 0 <= i < |requests| && requests[i].coordinator == c && requests[i].id == id && i in log;
      assert (requests + moreRequests)[i] == requests[i];
    }
  }

  lemma SentForGrows(requests: seq<Request>, q: Request, c: nat, id: nat, n: nat, ops: seq<TabletOp>)
    requires SentFor(requests, c, id, n, ops)
    ensures SentFor(requests + [q], c, id, n, ops)
  {
    var i :| 0 <= i < |requests| && requests[i].coordinator == c && requests[i].id == id &&
             requests[i].correlation == n && requests[i].ops == ops;
    assert (requests + [q])[i] == requests[i];
  }

  /** A request of another coordinator does not touch this one's pending answers. */
  lemma CorrelationsGrow(requests: seq<Request>, q: Request, c: nat, k: Coordinator)
    requires CorrelationsOk(requests, c, k) && q.coordinator != c
    ensures CorrelationsOk(requests + [q], c, k)
  {
    forall n | n in k.correlations && Awaits(k, n)
      ensures SentFor(requests + [q], c, k.correlations[n], n, k.transactions[k.correlations[n]].ops)
    {
      SentForGrows(requests, q, c, k.correlations[n], n, k.transactions[k.correlations[n]].ops);
    }
  }

  // ----- Steps of one coordinator -----

  lemma CreateStep(first: Tables, requests: seq<Request>, log: seq<nat>, c: nat, k: Coordinator)
    requires CoordinatorOk(first, requests, log, c, k)
    ensures CoordinatorOk(first, requests, log, c, Created(k))
  {
  }

  lemma ProcessStep(
    first: Tables, requests: seq<Request>, log: seq<nat>, c: nat, k: Coordinator,
    id: nat, queries: seq<TableQuery>, handler: Handler)
    requires CoordinatorOk(first, requests, log, c, k) && IsPreparing(k, id)
    ensures CoordinatorOk(first, requests, log, c, WithProcess(k, id, queries, handler))
  {
    var after := WithProcess(k, id, queries, handler);
    forall n | n in after.correlations ensures !IsPreparing(after, after.correlations[n]) {
      assert !IsPreparing(k, k.correlations[n]);
    }
    assert forall n | n in after.correlations :: Awaits(after, n) ==> Awaits(k, n);
  }

  lemma ProgressStep(
    first: Tables, requests: seq<Request>, log: seq<nat>, known: set<Known>, c: nat, k: Coordinator, answers: Answers)
    requires CoordinatorOk(first, requests, log, c, k) && AnswersFit(k.transactions, answers)
    requires forall id, i | id in answers && 0 <= i < |answers[id]| :: ResolvesFrom(known, answers[id][i])
    requires KnownOk(first, known)
    ensures CoordinatorOk(first, requests, log, c, Progressed(k, answers))
  {
    var after := Progressed(k, answers);
    forall id, p | IsPreparing(after, id) && 0 <= p < |after.transactions[id].processes|
      ensures ProcessOk(first, after.transactions[id].processes[p])
    {
      assert IsPreparing(k, id);
      AdvanceKeepsOk(first, known, k.transactions[id].processes[p], answers[id][p]);
    }
    assert forall n | n in after.correlations :: Awaits(after, n) ==> Awaits(k, n);
    forall n | n in after.correlations ensures !IsPreparing(after, after.correlations[n]) {
      assert !IsPreparing(k, k.correlations[n]);
    }
  }

  lemma CommitStep(
    first: Tables, requests: seq<Request>, log: seq<nat>, c: nat, k: Coordinator,
    id: nat, ops: seq<TabletOp>, calls: seq<Call>)
    requires CoordinatorOk(first, requests, log, c, k) && IsPreparing(k, id)
    ensures CoordinatorOk(
              first, requests + [Request(c, id, k.correlationCounter + 1, ops, calls)], log, c, Committed(k, id, ops))
  {
    var q := Request(c, id, k.correlationCounter + 1, ops, calls);
    var after := Committed(k, id, ops);
    forall n | n in after.correlations
      ensures !IsPreparing(after, after.correlations[n])
      ensures Awaits(after, n) ==>
                SentFor(requests + [q], c, after.correlations[n], n, after.transactions[after.correlations[n]].ops)
    {
      if n == q.correlation {
        assert (requests + [q])[|requests|] == q;
      } else {
        assert !IsPreparing(k, k.correlations[n]);
        if Awaits(after, n) {
          assert Awaits(k, n);
          SentForGrows(requests, q, c, k.correlations[n], n, k.transactions[k.correlations[n]].ops);
        }
      }
    }
    assert forall other | IsPreparing(after, other) :: IsPreparing(k, other);
    OutcomesGrow(requests, [q], log, [], c, k);
    assert log + [] == log;
  }

  lemma AbortStep(first: Tables, requests: seq<Request>, log: seq<nat>, c: nat, k: Coordinator, id: nat)
    requires CoordinatorOk(first, requests, log, c, k)
    ensures CoordinatorOk(first, requests, log, c, Aborted(k, id))
  {
    var after := Aborted(k, id);
    assert forall other | IsPreparing(after, other) :: IsPreparing(k, other);
    assert forall n | n in after.correlations :: Awaits(after, n) ==> Awaits(k, n);
  }

  /** A pending answer is for the transaction, and the ops, of the request it carries the number of. */
  lemma AwaitedRequest(requests: seq<Request>, c: nat, k: Coordinator, request: nat)
    requires CorrelationsOk(requests, c, k) && request < |requests| && requests[request].coordinator == c
    requires forall i, j | 0 <= i < j < |requests| && requests[i].coordinator == requests[j].coordinator ::
               requests[i].correlation != requests[j].correlation
    requires Awaits(k, requests[request].correlation)
    ensures k.correlations[requests[request].correlation] == requests[request].id
    ensures k.transactions[requests[request].id].ops == requests[request].ops
  {
    var n := requests[request].correlation;
    var id := k.correlations[n];
    assert SentFor(requests, c, id, n, k.transactions[id].ops);
    var i :| 0 <= i < |requests| && requests[i].coordinator == c && requests[i].id == id &&
             requests[i].correlation == n && requests[i].ops == k.transactions[id].ops;
    assert i == request;
  }

  /** A transaction only reports success for a request that is in the log. */
  lemma AnswerStep(
    first: Tables, requests: seq<Request>, log: seq<nat>, c: nat, k: Coordinator,
    request: nat, results: seq<TabletOpResult>)
    requires CoordinatorOk(first, requests, log, c, k)
    requires request < |requests| && requests[request].coordinator == c
    requires forall i, j | 0 <= i < j < |requests| && requests[i].coordinator == requests[j].coordinator ::
               requests[i].correlation != requests[j].correlation
    requires ResponseOk(first, log, request, requests[request], results)
    requires ResponseFits(k, requests[request].correlation, results)
    ensures CoordinatorOk(first, requests, log, c, Answered(k, requests[request].correlation, results).0)
    ensures Awaits(k, requests[request].correlation) ==>
              k.transactions[k.correlations[requests[request].correlation]].ops == requests[request].ops
  {
    var q := requests[request];
    var after := Answered(k, q.correlation, results).0;
    if Awaits(k, q.correlation) {
      var id := k.correlations[q.correlation];
      AwaitedRequest(requests, c, k, request);
      assert results[..Paired(q.ops, results)] == results;
      if AllSucceeded(results) {
        assert Executed(requests, log, c, id);
      }
    }
    assert forall other | IsPreparing(after, other) :: IsPreparing(k, other);
    assert forall n | n in after.correlations :: Awaits(after, n) ==> Awaits(k, n);
    forall other | other in after.transactions && after.transactions[other] == Finished(TransactionSucceeded)
      ensures Executed(requests, log, c, other)
    {
      if other in k.transactions && k.transactions[other] == Finished(TransactionSucceeded) {
        assert Executed(requests, log, c, other);
      }
    }
  }

  // ----- Refreshes of the metadata cache -----

  lemma {:induction false} RefreshComesFromPair(ops: seq<TabletOp>, results: seq<TabletOpResult>, n: nat, x: Refresh)
    requires ResultsFit(ops, results) && n <= Paired(ops, results) && x in Refreshes(ops, results, n)
    ensures exists i :: 0 <= i < n && RefreshOf(ops[i], results[i]) == [x]
  {
    if !(x in Refreshes(ops, results, n - 1)) {
      assert RefreshOf(ops[n - 1], results[n - 1]) == [x];
    } else {
      RefreshComesFromPair(ops, results, n - 1, x);
    }
  }

  lemma {:induction false} PairRefreshes(ops: seq<TabletOp>, results: seq<TabletOpResult>, n: nat, i: nat, x: Refresh)
    requires ResultsFit(ops, results) && n <= Paired(ops, results) && i < n && RefreshOf(ops[i], results[i]) == [x]
    ensures x in Refreshes(ops, results, n)
  {
    if i < n - 1 {
      PairRefreshes(ops, results, n - 1, i, x);
    }
  }

  /** A refresh is about a tablet of the store. */
  lemma RefreshHasTablet(
      first: Tables, log: seq<nat>, request: nat, q: Request, results: seq<TabletOpResult>, x: Refresh)
    requires ResponseOk(first, log, request, q, results) && RequestOk(first, q.calls, q.ops)
    requires x in Refreshes(q.ops, results, Paired(q.ops, results))
    ensures HasTablet(first, x.tableName, x.metadata.tabletId)
  {
    RefreshComesFromPair(q.ops, results, Paired(q.ops, results), x);
    var i :| 0 <= i < Paired(q.ops, results) && RefreshOf(q.ops[i], results[i]) == [x];
    if results[i].status != Succeeded {
      assert Reports(results[i], x.metadata);
    } else {
      assert IsCallOp(q.calls, q.ops[i]);
      var slot: (nat, TabletKey) :| InCall(q.calls, slot) && CallOp(q.calls, slot) == q.ops[i];
      assert SlotOk(first, q.calls, q.ops, slot);
    }
  }

  /** A response either reports a commit, or no update in it was merely prepared. */
  ghost predicate Clean(ops: seq<TabletOp>, results: seq<TabletOpResult>) {
    AllSucceeded(results) ||
    forall i | 0 <= i < Paired(ops, results) ::
      !(ops[i].op.Some? && ops[i].op.value.UpdateTablet? && results[i].status == Succeeded)
  }

  /** The history a request leads to. */
  ghost function HistoryAfter(history: seq<Tables>, ops: seq<TabletOp>): seq<Tables>
    requires history != []
  {
    var now := history[|history| - 1];
    if AllHold(now, ops) then history + [Applied(now, ops)] else history
  }

  ghost predicate RefreshesRecorded(history: seq<Tables>, ops: seq<TabletOp>, results: seq<TabletOpResult>)
    requires |results| == |ops| && ResultsFit(ops, results)
  {
    forall x | x in Refreshes(ops, results, |ops|) :: Recorded(history, x.tableName, x.metadata)
  }

  /** The store's answer to a request. */
  ghost predicate PreparedAll(now: Tables, ops: seq<TabletOp>, results: seq<TabletOpResult>) {
    |results| == |ops| && forall i | 0 <= i < |ops| :: Prepared(now, ops[i], results[i])
  }

  lemma AnswersSucceed(now: Tables, ops: seq<TabletOp>, results: seq<TabletOpResult>)
    requires PreparedAll(now, ops, results)
    ensures AllHold(now, ops) <==> AllSucceeded(results)
  {
    assert forall i | 0 <= i < |ops| :: results[i].status == Succeeded <==> OpHolds(now, ops[i]);
  }

  /** What a failed op reports is what the store holds. */
  lemma ReportIsHeld(now: Tables, op: TabletOp, r: TabletOpResult)
    requires ValidTables(now) && Prepared(now, op, r) && ResultFits(op, r) && r.status != Succeeded
    ensures Holds(now, op.tableName, r.opResult.value.existing.value)
  {
    assert WellKeyed(now[op.tableName]);
  }

  lemma UpdateIsRecorded(history: seq<Tables>, calls: seq<Call>, ops: seq<TabletOp>, i: nat)
    requires history != [] && Accepted(history[|history| - 1], calls, ops) && Agree(calls)
    requires i < |ops| && ops[i].op.Some? && ops[i].op.value.UpdateTablet? && ops[i].op.value.metadata.Some?
    ensures Recorded(HistoryAfter(history, ops), ops[i].tableName, ops[i].op.value.metadata.value)
  {
    var now := history[|history| - 1];
    UpdatesAreCommitted(now, calls, ops, i);
    assert HistoryAfter(history, ops)[|history|] == Applied(now, ops);
  }

  lemma HeldIsRecorded(history: seq<Tables>, ops: seq<TabletOp>, t: string, m: TabletMetadata)
    requires history != [] && Holds(history[|history| - 1], t, m)
    ensures Recorded(HistoryAfter(history, ops), t, m)
  {
    assert HistoryAfter(history, ops)[|history| - 1] == history[|history| - 1];
  }

  lemma PairIsRecorded(
    history: seq<Tables>, calls: seq<Call>, ops: seq<TabletOp>, results: seq<TabletOpResult>, i: nat, x: Refresh)
    requires history != [] && VersionsDetermine(history) && SameTablets(history[0], history[|history| - 1])
    requires RequestOk(history[0], calls, ops) && Agree(calls)
    requires PreparedAll(history[|history| - 1], ops, results) && ResultsFit(ops, results) && Clean(ops, results)
    requires i < |ops| && RefreshOf(ops[i], results[i]) == [x]
    ensures Recorded(HistoryAfter(history, ops), x.tableName, x.metadata)
  {
    var now := history[|history| - 1];
    if results[i].status != Succeeded {
      ReportIsHeld(now, ops[i], results[i]);
      HeldIsRecorded(history, ops, x.tableName, x.metadata);
    } else {
      AnswersSucceed(now, ops, results);
      RequestIsAccepted(history[0], now, calls, ops);
      UpdateIsRecorded(history, calls, ops, i);
    }
  }

  lemma CleanIsRecorded(history: seq<Tables>, calls: seq<Call>, ops: seq<TabletOp>, results: seq<TabletOpResult>)
    requires history != [] && VersionsDetermine(history) && SameTablets(history[0], history[|history| - 1])
    requires RequestOk(history[0], calls, ops) && Agree(calls)
    requires PreparedAll(history[|history| - 1], ops, results) && ResultsFit(ops, results) && Clean(ops, results)
    ensures RefreshesRecorded(HistoryAfter(history, ops), ops, results)
  {
    forall x | x in Refreshes(ops, results, |ops|)
      ensures Recorded(HistoryAfter(history, ops), x.tableName, x.metadata)
    {
      RefreshComesFromPair(ops, results, |ops|, x);
      var i :| 0 <= i < |ops| && RefreshOf(ops[i], results[i]) == [x];
      PairIsRecorded(history, calls, ops, results, i, x);
    }
  }

  lemma UncleanIsNotRecorded(history: seq<Tables>, ops: seq<TabletOp>, results: seq<TabletOpResult>)
    requires history != [] && VersionsDetermine(history)
    requires PreparedAll(history[|history| - 1], ops, results) && ResultsFit(ops, results) && !Clean(ops, results)
    ensures !RefreshesRecorded(HistoryAfter(history, ops), ops, results)
  {
    var now := history[|history| - 1];
    AnswersSucceed(now, ops, results);
    var i :| 0 <= i < |ops| && ops[i].op.Some? && ops[i].op.value.UpdateTablet? && results[i].status == Succeeded;
    var x := Refresh(ops[i].tableName, ops[i].op.value.metadata.value, false);
    PairRefreshes(ops, results, |ops|, i, x);
    assert OpHolds(now, ops[i]);
    if Recorded(history, x.tableName, x.metadata) {
      CurrentIsRecorded(history, x.tableName, x.metadata);
    }
  }

  /**
   Where uncommitted metadata come from: exactly the clean responses refresh the cache with
   committed metadata. On a failed request that prepared an update, the cache is handed a
   version no one committed.
   */
  lemma RefreshIsCommittedIffClean(
    history: seq<Tables>, calls: seq<Call>, ops: seq<TabletOp>, results: seq<TabletOpResult>)
    requires history != [] && VersionsDetermine(history) && SameTablets(history[0], history[|history| - 1])
    requires RequestOk(history[0], calls, ops) && Agree(calls)
    requires PreparedAll(history[|history| - 1], ops, results) && ResultsFit(ops, results)
    ensures RefreshesRecorded(HistoryAfter(history, ops), ops, results) <==> Clean(ops, results)
  {
    if Clean(ops, results) {
      CleanIsRecorded(history, calls, ops, results);
    } else {
      UncleanIsNotRecorded(history, ops, results);
    }
  }

  // ----- The store's step -----

  /** Every op of a transaction is answered with a fitting result, reporting a tablet the store has. */
  lemma OpAnswer(first: Tables, now: Tables, calls: seq<Call>, ops: seq<TabletOp>, i: nat, r: TabletOpResult)
    requires ValidTables(now) && SameTablets(first, now) && RequestOk(first, calls, ops)
    requires i < |ops| && Prepared(now, ops[i], r)
    ensures ResultFits(ops[i], r)
    ensures forall m | Reports(r, m) :: HasTablet(first, ops[i].tableName, m.tabletId)
  {
    assert IsCallOp(calls, ops[i]);
    var slot: (nat, TabletKey) :| InCall(calls, slot) && CallOp(calls, slot) == ops[i];
    assert SlotOk(first, calls, ops, slot);
    assert HasTablet(now, ops[i].tableName, slot.1.tabletId);
    assert WellKeyed(now[ops[i].tableName]);
  }

  /** What the store answers fits the request and speaks of its tablets. */
  lemma AnswerIsOk(first: Tables, now: Tables, log: seq<nat>, request: nat, q: Request, results: seq<TabletOpResult>)
    requires ValidTables(now) && SameTablets(first, now)
    requires RequestOk(first, q.calls, q.ops) && PreparedAll(now, q.ops, results)
    requires AllHold(now, q.ops) ==> request in log
    ensures ResponseOk(first, log, request, q, results)
  {
    AnswersSucceed(now, q.ops, results);
    forall i | 0 <= i < |results|
      ensures ResultFits(q.ops[i], results[i])
      ensures forall m | Reports(results[i], m) :: HasTablet(first, q.ops[i].tableName, m.tabletId)
    {
      OpAnswer(first, now, q.calls, q.ops, i, results[i]);
    }
  }

  lemma LogGrows(requests: seq<Request>, history: seq<Tables>, log: seq<nat>, q: nat, next: Tables)
    requires |history| == |log| + 1 && LogOk(requests, history, log) && CommitOk(requests, q, history[|log|], next)
    ensures LogOk(requests, history + [next], log + [q])
  {
    forall n | 0 <= n < |log + [q]|
      ensures CommitOk(requests, (log + [q])[n], (history + [next])[n], (history + [next])[n + 1])
    {
      if n < |log| {
        assert CommitOk(requests, log[n], history[n], history[n + 1]);
      }
    }
  }

  ghost function CommittedTo(s: System, q: nat, next: Tables): System {
    s.(tables := next, history := s.history + [next], log := s.log + [q])
  }

  lemma StoreAccepts(s: System, q: nat)
    requires StoreOk(s) && q < |s.requests| && AllHold(s.tables, s.requests[q].ops)
    ensures StoreOk(CommittedTo(s, q, Applied(s.tables, s.requests[q].ops)))
  {
    var next := Applied(s.tables, s.requests[q].ops);
    HistoryGrows(s.history, s.requests[q].ops);
    TabletsStay(s.tables, s.requests[q].ops);
    LogGrows(s.requests, s.history, s.log, q, next);
  }

  lemma MessagesAfterCommit(first: Tables, s: System, q: nat, next: Tables)
    requires MessagesOk(first, s)
    ensures MessagesOk(first, CommittedTo(s, q, next))
  {
    var after := CommittedTo(s, q, next);
    forall r | 0 <= r < |s.responses| ensures ResponsesOk(first, after, s.responses[r]) {
      assert ResponsesOk(first, s, s.responses[r]);
    }
  }

  lemma CoordinatorsAfterCommit(first: Tables, s: System, q: nat, next: Tables)
    requires CoordinatorsOk(first, s)
    ensures CoordinatorsOk(first, CommittedTo(s, q, next))
  {
    forall c | c in s.coordinators ensures CoordinatorOk(first, s.requests, s.log + [q], c, s.coordinators[c]) {
      OutcomesGrow(s.requests, [], s.log, [q], c, s.coordinators[c]);
      assert s.requests + [] == s.requests;
    }
  }

  lemma AcceptStep(s: System, q: nat)
    requires Inv(s) && q < |s.requests| && AllHold(s.tables, s.requests[q].ops)
    ensures Inv(CommittedTo(s, q, Applied(s.tables, s.requests[q].ops)))
  {
    var next := Applied(s.tables, s.requests[q].ops);
    StoreAccepts(s, q);
    MessagesAfterCommit(s.history[0], s, q, next);
    CoordinatorsAfterCommit(s.history[0], s, q, next);
    assert CommittedTo(s, q, next).history[0] == s.history[0];
  }

  lemma AnswerIsSent(s: System, q: nat, results: seq<TabletOpResult>)
    requires Inv(s) && q < |s.requests| && ResponseOk(s.history[0], s.log, q, s.requests[q], results)
    ensures Inv(s.(responses := s.responses + [Response(q, results)]))
  {
    var after := s.(responses := s.responses + [Response(q, results)]);
    forall r | 0 <= r < |after.responses| ensures ResponsesOk(s.history[0], after, after.responses[r]) {
      assert r < |s.responses| ==> ResponsesOk(s.history[0], s, s.responses[r]);
    }
  }

  lemma ApplyStep(s: System, q: nat, results: seq<TabletOpResult>)
    requires Inv(s) && Enabled(s, ApplyRequest(q, results))
    ensures Inv(Next(s, ApplyRequest(q, results)))
  {
    var request := s.requests[q];
    assert ValidTables(s.tables);
    if AllHold(s.tables, request.ops) {
      AcceptStep(s, q);
      AnswerIsOk(s.history[0], s.tables, s.log + [q], q, request, results);
      AnswerIsSent(CommittedTo(s, q, Applied(s.tables, request.ops)), q, results);
    } else {
      AnswerIsOk(s.history[0], s.tables, s.log, q, request, results);
      AnswerIsSent(s, q, results);
    }
  }

  // ----- Every step -----

  /** A step that changes one coordinator only. */
  lemma LocalStep(s: System, c: nat, k: Coordinator)
    requires Inv(s) && c in s.coordinators
    requires CoordinatorOk(s.history[0], s.requests, s.log, c, k)
    ensures Inv(WithCoordinator(s, c, k))
  {
    var after := WithCoordinator(s, c, k);
    assert forall r | 0 <= r < |s.responses| :: ResponsesOk(s.history[0], s, s.responses[r]);
  }

  lemma MessagesSend(first: Tables, s: System, q: Request)
    requires MessagesOk(first, s) && q.coordinator in s.coordinators && RequestOk(first, q.calls, q.ops)
    requires forall i | 0 <= i < |s.requests| && s.requests[i].coordinator == q.coordinator ::
               s.requests[i].correlation != q.correlation
    ensures MessagesOk(first, s.(requests := s.requests + [q]))
  {
    var after := s.(requests := s.requests + [q]);
    forall r | 0 <= r < |s.responses| ensures ResponsesOk(first, after, s.responses[r]) {
      assert ResponsesOk(first, s, s.responses[r]);
    }
  }

  lemma LogKeepsRequests(requests: seq<Request>, q: Request, history: seq<Tables>, log: seq<nat>)
    requires |history| == |log| + 1 && LogOk(requests, history, log)
    ensures LogOk(requests + [q], history, log)
  {
    forall n | 0 <= n < |log| ensures CommitOk(requests + [q], log[n], history[n], history[n + 1]) {
      assert CommitOk(requests, log[n], history[n], history[n + 1]);
    }
  }

  /** A request goes out, and the coordinator that sends it knows. */
  lemma SendStep(s: System, c: nat, k: Coordinator, q: Request)
    requires Inv(s) && c in s.coordinators && q.coordinator == c && RequestOk(s.history[0], q.calls, q.ops)
    requires forall i | 0 <= i < |s.requests| && s.requests[i].coordinator == c ::
               s.requests[i].correlation != q.correlation
    requires CoordinatorOk(s.history[0], s.requests + [q], s.log, c, k)
    ensures Inv(WithCoordinator(s, c, k).(requests := s.requests + [q]))
  {
    LogKeepsRequests(s.requests, q, s.history, s.log);
    MessagesSend(s.history[0], s, q);
    forall d | d in s.coordinators && d != c
      ensures CoordinatorOk(s.history[0], s.requests + [q], s.log, d, s.coordinators[d])
    {
      CorrelationsGrow(s.requests, q, d, s.coordinators[d]);
      OutcomesGrow(s.requests, [q], s.log, [], d, s.coordinators[d]);
      assert s.log + [] == s.log;
    }
    var sent, after := s.(requests := s.requests + [q]), WithCoordinator(s, c, k).(requests := s.requests + [q]);
    forall r | 0 <= r < |s.responses| ensures ResponsesOk(s.history[0], after, s.responses[r]) {
      assert ResponsesOk(s.history[0], sent, s.responses[r]);
    }
  }

  lemma CommitTransactionStep(s: System, c: nat, id: nat, order: seq<(nat, TabletKey)>)
    requires Inv(s) && Enabled(s, CommitTransaction(c, id, order))
    ensures Inv(Next(s, CommitTransaction(c, id, order)))
  {
    var k, first := s.coordinators[c], s.history[0];
    var processes := k.transactions[id].processes;
    assert CoordinatorOk(first, s.requests, s.log, c, k);
    forall p | 0 <= p < |processes| ensures HandledOk(first, processes[p]) {
      assert ProcessOk(first, processes[p]);
    }
    var ops, calls := OpsOf(processes, order), CallsOf(processes);
    CommitIsOk(first, processes, order);
    CommitStep(first, s.requests, s.log, c, k, id, ops, calls);
    var q := Request(c, id, k.correlationCounter + 1, ops, calls);
    assert Committed(k, id, ops).correlationCounter == q.correlation;
    SendStep(s, c, Committed(k, id, ops), q);
  }

  /** The coordinator never panics on an answer of the store: the results always fit the ops. */
  lemma ResponseNeverPanics(s: System, r: nat)
    requires Inv(s) && r < |s.responses|
    ensures var q := s.requests[s.responses[r].request];
            ResponseFits(s.coordinators[q.coordinator], q.correlation, s.responses[r].results)
  {
    assert ResponsesOk(s.history[0], s, s.responses[r]);
    var index := s.responses[r].request;
    var q := s.requests[index];
    var k := s.coordinators[q.coordinator];
    if Awaits(k, q.correlation) {
      assert CoordinatorOk(s.history[0], s.requests, s.log, q.coordinator, k);
      AwaitedRequest(s.requests, q.coordinator, k, index);
    }
  }

  /** Nor does it on an answer of the caches: contents only come for tablets a process tracks. */
  lemma ProgressNeverPanics(s: System, c: nat, answers: Answers)
    requires Inv(s) && c in s.coordinators && AnswersKeepContract(s.coordinators[c].transactions, answers)
    ensures AnswersFit(s.coordinators[c].transactions, answers)
  {
    var k := s.coordinators[c];
    assert CoordinatorOk(s.history[0], s.requests, s.log, c, k);
    forall id, i | IsPreparing(k, id) && 0 <= i < |k.transactions[id].processes|
      ensures Loadable(k.transactions[id].processes[i])
    {
      assert ProcessOk(s.history[0], k.transactions[id].processes[i]);
    }
  }

  lemma KnownGrows(s: System, more: set<Known>)
    requires Inv(s) && KnownOk(s.history[0], more)
    ensures Inv(s.(known := s.known + more))
  {
    var after := s.(known := s.known + more);
    assert forall r | 0 <= r < |s.responses| :: ResponsesOk(s.history[0], s, s.responses[r]);
  }

  lemma ReceiveStep(s: System, r: nat)
    requires Inv(s) && Enabled(s, ReceiveResponse(r))
    ensures Inv(Next(s, ReceiveResponse(r)))
  {
    var index, results := s.responses[r].request, s.responses[r].results;
    var q, first := s.requests[index], s.history[0];
    var k := s.coordinators[q.coordinator];
    assert ResponsesOk(first, s, s.responses[r]) && CoordinatorOk(first, s.requests, s.log, q.coordinator, k);
    AnswerStep(first, s.requests, s.log, q.coordinator, k, index, results);
    var (after, refreshes) := Answered(k, q.correlation, results);
    LocalStep(s, q.coordinator, after);
    forall i | 0 <= i < |refreshes| ensures HasTablet(first, refreshes[i].tableName, refreshes[i].metadata.tabletId) {
      RefreshHasTablet(first, s.log, index, q, results, refreshes[i]);
    }
    KnownGrows(WithCoordinator(s, q.coordinator, after),
               set i | 0 <= i < |refreshes| :: Known(refreshes[i].tableName, refreshes[i].metadata));
  }

  lemma ListStep(s: System, t: string, id: Hash)
    requires Inv(s) && HasTablet(s.tables, t, id)
    ensures Inv(s.(known := s.known + {Known(t, s.tables[t][id])}))
  {
    assert ValidTables(s.tables) && WellKeyed(s.tables[t]);
    KnownGrows(s, {Known(t, s.tables[t][id])});
  }

  lemma LocalActionStep(s: System, a: Action)
    requires Inv(s) && Enabled(s, a)
    requires !a.CommitTransaction? && !a.ApplyRequest? && !a.ReceiveResponse? && !a.ListTablets?
    ensures Inv(Next(s, a))
  {
    var first := s.history[0];
    assert CoordinatorOk(first, s.requests, s.log, a.c, s.coordinators[a.c]);
    match a
    case CreateTransaction(c) =>
      CreateStep(first, s.requests, s.log, c, s.coordinators[c]);
      LocalStep(s, c, Created(s.coordinators[c]));
    case ProcessTransaction(c, id, queries, handler) =>
      ProcessStep(first, s.requests, s.log, c, s.coordinators[c], id, queries, handler);
      LocalStep(s, c, WithProcess(s.coordinators[c], id, queries, handler));
    case MakeProgress(c, answers) =>
      ProgressStep(first, s.requests, s.log, s.known, c, s.coordinators[c], answers);
      LocalStep(s, c, Progressed(s.coordinators[c], answers));
    case TakeOutMessages(c) =>
      LocalStep(s, c, s.coordinators[c].(outMessages := []));
    case AbortTransaction(c, id) =>
      AbortStep(first, s.requests, s.log, c, s.coordinators[c], id);
      LocalStep(s, c, Aborted(s.coordinators[c], id));
    case CheckTransactionResult(c, id) =>
      AbortStep(first, s.requests, s.log, c, s.coordinators[c], id);
      LocalStep(s, c, Checked(s.coordinators[c], id).0);
  }

  lemma InvIsInductive(s: System, a: Action)
    requires Inv(s) && Enabled(s, a)
    ensures Inv(Next(s, a))
  {
    match a
    case CommitTransaction(c, id, order) => CommitTransactionStep(s, c, id, order);
    case ApplyRequest(q, results) => ApplyStep(s, q, results);
    case ReceiveResponse(r) => ReceiveStep(s, r);
    case ListTablets(t, id) => ListStep(s, t, id);
    case _ => LocalActionStep(s, a);
  }

  // ----- Runs -----

  ghost predicate IsRun(states: seq<System>, actions: seq<Action>) {
    && |states| == |actions| + 1 && Init(states[0])
    && forall i {:trigger actions[i]} | 0 <= i < |actions| ::
         Enabled(states[i], actions[i]) && states[i + 1] == Next(states[i], actions[i])
  }

  lemma {:induction false} InvInRun(states: seq<System>, actions: seq<Action>, i: nat)
    requires IsRun(states, actions) && i < |states|
    ensures Inv(states[i])
  {
    if i > 0 {
      InvInRun(states, actions, i - 1);
      InvIsInductive(states[i - 1], actions[i - 1]);
    }
  }

  lemma PrefixDetermines(history: seq<Tables>, n: nat)
    requires VersionsDetermine(history) && n <= |history|
    ensures VersionsDetermine(history[..n])
  {
  }

  lemma {:induction false} TabletsNeverChange(requests: seq<Request>, history: seq<Tables>, log: seq<nat>, n: nat)
    requires |history| == |log| + 1 && LogOk(requests, history, log) && VersionsDetermine(history) && n < |history|
    ensures SameTablets(history[0], history[n])
  {
    if n > 0 {
      TabletsNeverChange(requests, history, log, n - 1);
      assert CommitOk(requests, log[n - 1], history[n - 1], history[n]);
      TabletsStay(history[n - 1], requests[log[n - 1]].ops);
    }
  }

  /** The `n`-th commit executed its transaction atomically. */
  ghost predicate AtomicAt(s: System, n: nat)
    requires n < |s.log| && |s.history| == |s.log| + 1 && s.log[n] < |s.requests|
  {
    ExecutedAtomically(s.requests[s.log[n]].calls, s.history[n], s.history[n + 1])
  }

  /** Its calls agree on the tablets they share, and were shown what had been committed by then. */
  ghost predicate SoundAt(s: System, n: nat)
    requires n < |s.log| && |s.history| == |s.log| + 1 && s.log[n] < |s.requests|
  {
    var calls := s.requests[s.log[n]].calls;
    SeenMatches(calls) && Agree(calls) && ReadsCommitted(s.history[..n + 1], calls)
  }

  lemma AtomicAtIff(s: System, n: nat)
    requires Inv(s) && n < |s.log|
    ensures s.log[n] < |s.requests| && (AtomicAt(s, n) <==> SoundAt(s, n))
  {
    var so := s.history[..n + 1];
    assert CommitOk(s.requests, s.log[n], s.history[n], s.history[n + 1]);
    var q := s.requests[s.log[n]];
    PrefixDetermines(s.history, n + 1);
    TabletsNeverChange(s.requests, s.history, s.log, n);
    assert so[0] == s.history[0] && so[|so| - 1] == s.history[n];
    AcceptedIsAtomic(so, q.calls, q.ops);
  }

  /**
   Serializability, without any premise on the run. Whatever the interleaving, the store went
   from its first state to its present one by committing requests that were sent, one after the
   other; each commit executed its transaction atomically on the contents its predecessor left if
   and only if the transaction's calls agree on the tablets they share and were shown committed
   contents; and every transaction reported as succeeded is among them.
   */
  lemma RunsAreSerializable(states: seq<System>, actions: seq<Action>, i: nat)
    requires IsRun(states, actions) && i < |states|
    ensures var s := states[i];
            && |s.history| == |s.log| + 1
            && s.history[0] == states[0].tables && s.history[|s.log|] == s.tables
            && (forall n | 0 <= n < |s.log| :: s.log[n] < |s.requests| && (AtomicAt(s, n) <==> SoundAt(s, n)))
            && (forall c, id | c in s.coordinators && id in s.coordinators[c].transactions &&
                               s.coordinators[c].transactions[id] == Finished(TransactionSucceeded) ::
                  Executed(s.requests, s.log, c, id))
  {
    InvInRun(states, actions, i);
    HistoryStartsAtInit(states, actions, i);
    var s := states[i];
    forall n | 0 <= n < |s.log| ensures s.log[n] < |s.requests| && (AtomicAt(s, n) <==> SoundAt(s, n)) {
      AtomicAtIff(s, n);
    }
    forall c, id | c in s.coordinators && id in s.coordinators[c].transactions &&
                   s.coordinators[c].transactions[id] == Finished(TransactionSucceeded)
      ensures Executed(s.requests, s.log, c, id)
    {
      assert CoordinatorOk(s.history[0], s.requests, s.log, c, s.coordinators[c]);
    }
  }

  lemma {:induction false} HistoryStartsAtInit(states: seq<System>, actions: seq<Action>, i: nat)
    requires IsRun(states, actions) && i < |states|
    ensures states[i].history != [] && states[i].history[0] == states[0].tables
  {
    if i > 0 {
      HistoryStartsAtInit(states, actions, i - 1);
      assert states[i] == Next(states[i - 1], actions[i - 1]);
    }
  }

  // ----- No commit happens twice -----

  ghost predicate IsUpdate(op: TabletOp) {
    op.op.Some? && op.op.value.UpdateTablet?
  }

  lemma UpdatedVersion(s: System, n: nat, j: nat)
    requires StoreOk(s) && n < |s.log| && s.log[n] < |s.requests|
    requires j < |s.requests[s.log[n]].ops| && IsUpdate(s.requests[s.log[n]].ops[j])
    ensures var op := s.requests[s.log[n]].ops[j];
            && op.op.value.metadata.Some? && var m := op.op.value.metadata.value;
            && HasTablet(s.history[n], op.tableName, m.tabletId) &&
               HasTablet(s.history[n + 1], op.tableName, m.tabletId)
            && s.history[n][op.tableName][m.tabletId].tabletVersion + 1 == m.tabletVersion
            && s.history[n + 1][op.tableName][m.tabletId].tabletVersion == m.tabletVersion
  {
    var q := s.requests[s.log[n]];
    assert CommitOk(s.requests, s.log[n], s.history[n], s.history[n + 1]);
    var op := q.ops[j];
    assert OpHolds(s.history[n], op);
    var t, id := op.tableName, op.op.value.metadata.value.tabletId;
    assert Updates(q.ops[j], t, id);
    RequestEffect(s.history[n], q.ops, t, id);
  }

  /** A request may be delivered many times, but one that updates a tablet is committed at most once. */
  lemma CommitsOnce(states: seq<System>, actions: seq<Action>, i: nat, m: nat, n: nat, j: nat)
    requires IsRun(states, actions) && i < |states|
    requires m <= n < |states[i].log| && states[i].log[m] == states[i].log[n] < |states[i].requests|
    requires j < |states[i].requests[states[i].log[n]].ops| && IsUpdate(states[i].requests[states[i].log[n]].ops[j])
    ensures m == n
  {
    InvInRun(states, actions, i);
    var s := states[i];
    UpdatedVersion(s, m, j);
    UpdatedVersion(s, n, j);
  }
}
