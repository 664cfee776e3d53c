/**
 Runs in which every chunk the receiver accepts is of the transfer whose header it saw last, which
 the receiver itself does not check: there a transfer reported as finished always arrived.
 */
module SnapshotDiscipline {
  import opened Wrappers
  import opened Snapshot
  import opened SnapshotTransfer

  ghost predicate Accepting(w: World, d: nat)
    requires Enabled(w, Process(d))
  {
    ReceiveRequest(w.receiver, w.inFlight[d]).1.status == Accepted
  }

  /** A chunk that is accepted is of the session's own transfer. */
  ghost predicate Disciplined(w: World, a: Action)
    requires Enabled(w, a)
  {
    a.Process? && w.inFlight[a.deliveryId].payload.Chunk? && Accepting(w, a.deliveryId) ==>
      w.receiver.value.snapshotId == w.inFlight[a.deliveryId].payload.snapshotId
  }

  ghost predicate AllFrom(sources: map<nat, nat>, id: nat) {
    forall i | i in sources :: sources[i] == id
  }

  /** A session of this transfer completed, with its own chunks. */
  ghost predicate Completed(sessions: set<Session>, id: nat) {
    exists s :: s in sessions && s.id == id && AllFrom(s.sources, id)
  }

  /** A transfer is accepted from its header on, and once accepted in full its session completed. */
  ghost predicate AcceptanceOk(chunkSize: nat, snapshot: RaftSnapshot, got: set<nat>, sessions: set<Session>, id: nat)
    requires chunkSize > 0
  {
    && (got != {} ==> 0 in got)
    && (got == Below(|Parts(snapshot, chunkSize)|) ==> Completed(sessions, id))
  }

  ghost predicate TransfersOk(
      chunkSize: nat, started: map<nat, RaftSnapshot>, accepted: map<nat, set<nat>>, sessions: set<Session>)
    requires chunkSize > 0
  {
    && (forall id | id in started :: AcceptanceOk(chunkSize, started[id], AcceptedOf(accepted, id), sessions, id))
    && (forall s | s in sessions :: AllFrom(s.sources, s.id))
  }

  /** A session of the leader's holds what was accepted of its transfer, and nothing else. */
  ghost predicate OwnSession(
      replicaId: nat, accepted: map<nat, set<nat>>, sources: map<nat, nat>, receiver: Option<ReceiverState>)
  {
    receiver.Some? && receiver.value.senderId == replicaId ==>
      AllFrom(sources, receiver.value.snapshotId) && 0 in receiver.value.chunks &&
      AcceptedOf(accepted, receiver.value.snapshotId) == receiver.value.chunks.Keys
  }

  ghost predicate Direct(w: World) {
    && w.sender.chunkSize > 0 && TransfersOk(w.sender.chunkSize, w.started, w.accepted, w.sessions)
    && OwnSession(w.sender.replicaId, w.accepted, w.sources, w.receiver)
  }

  // ----- Steps -----

  lemma TransfersAdd(
      chunkSize: nat, started: map<nat, RaftSnapshot>, accepted: map<nat, set<nat>>, sessions: set<Session>,
      id: nat, snapshot: RaftSnapshot)
    requires chunkSize > 0 && TransfersOk(chunkSize, started, accepted, sessions) && AcceptedOf(accepted, id) == {}
    ensures TransfersOk(chunkSize, started[id := snapshot], accepted, sessions)
  {
    assert 0 in Below(|Parts(snapshot, chunkSize)|);
  }

  lemma FreshId(w: World)
    requires Inv(w)
    ensures AcceptedOf(w.accepted, w.sender.nextSnapshotId) == {}
  {
    assert StartedOk(w);
  }

  lemma StartIsDirect(w: World, r: nat, snapshot: RaftSnapshot)
    requires Direct(w) && AcceptedOf(w.accepted, w.sender.nextSnapshotId) == {}
    ensures Direct(Next(w, Start(r, snapshot)))
  {
    TransfersAdd(w.sender.chunkSize, w.started, w.accepted, w.sessions, w.sender.nextSnapshotId, snapshot);
  }

  /** Other transfers are left alone, and the accepted one has one index more. */
  lemma TransfersAfterAccept(
      chunkSize: nat, started: map<nat, RaftSnapshot>, accepted: map<nat, set<nat>>, sessions: set<Session>,
      more: set<Session>, id: nat, index: nat)
    requires chunkSize > 0 && TransfersOk(chunkSize, started, accepted, sessions) && id in started
    requires AcceptanceOk(chunkSize, started[id], AcceptedOf(accepted, id) + {index}, sessions + more, id)
    requires forall s | s in more :: AllFrom(s.sources, s.id)
    ensures TransfersOk(chunkSize, started, AlsoAccepted(accepted, id, index), sessions + more)
  {
    var after := AlsoAccepted(accepted, id, index);
    forall other | other in started
      ensures AcceptanceOk(chunkSize, started[other], AcceptedOf(after, other), sessions + more, other)
    {
      OneMoreAccepted(accepted, id, index, other);
      if other != id && AcceptedOf(accepted, other) == Below(|Parts(started[other], chunkSize)|) {
        assert AcceptanceOk(chunkSize, started[other], AcceptedOf(accepted, other), sessions, other);
        var s :| s in sessions && s.id == other && AllFrom(s.sources, other);
        assert s in sessions + more;
      }
    }
  }

  lemma FlightFacts(w: World, d: nat)
    requires Inv(w) && Enabled(w, Process(d))
    ensures var payload := w.inFlight[d].payload;
            && Carries(payload) && payload.snapshotId in w.started && w.inFlight[d].sender == w.sender.replicaId
            && IndexOf(payload) !in AcceptedOf(w.accepted, payload.snapshotId)
  {
    assert FlightOk(w, w.inFlight[d]);
  }

  /** A chunk of its own transfer joins a session. */
  lemma ChunkJoinsOwn(accepted: set<nat>, sources: map<nat, nat>, st: ReceiverState, index: nat, contents: Bytes)
    requires AllFrom(sources, st.snapshotId) && accepted == st.chunks.Keys
    ensures AllFrom(sources[index := st.snapshotId], st.snapshotId)
    ensures st.chunks[index := contents].Keys == accepted + {index}
  {
  }

  /** After an accepted request the session holds what was accepted of the request's transfer. */
  lemma SessionAfterAccept(
      replicaId: nat, accepted: map<nat, set<nat>>, sources: map<nat, nat>, receiver: Option<ReceiverState>,
      request: DeliverRequest)
    requires CanReceive(receiver, request) && ReceiveRequest(receiver, request).1.status == Accepted
    requires Carries(request.payload) && request.sender == replicaId
    requires OwnSession(replicaId, accepted, sources, receiver)
    requires var got := AcceptedOf(accepted, request.payload.snapshotId);
             (got != {} ==> 0 in got) && IndexOf(request.payload) !in got
    requires request.payload.Chunk? ==> receiver.value.snapshotId == request.payload.snapshotId
    ensures var payload, st := request.payload, ReceiveRequest(receiver, request).0.value;
            && st.snapshotId == payload.snapshotId && AllFrom(SourcesAfter(sources, payload), st.snapshotId)
            && st.chunks.Keys == AcceptedOf(accepted, st.snapshotId) + {IndexOf(payload)} && 0 in st.chunks
  {
    var payload := request.payload;
    if payload.Header? {
      assert AcceptedOf(accepted, payload.snapshotId) == {};
    } else {
      ChunkJoinsOwn(AcceptedOf(accepted, payload.snapshotId), sources, receiver.value, payload.chunkIndex,
                    payload.contents);
    }
  }

  lemma AcceptedNextIs(w: World, d: nat)
    requires Inv(w) && Enabled(w, Process(d)) && Accepting(w, d)
    ensures var payload, st := w.inFlight[d].payload, ReceiveRequest(w.receiver, w.inFlight[d]).0.value;
            var after := Next(w, Process(d));
            && Carries(payload) && payload.snapshotId in w.started && ReceiverOk(st)
            && after.sender == w.sender && after.started == w.started
            && after.accepted == AlsoAccepted(w.accepted, payload.snapshotId, IndexOf(payload))
            && after.sources == SourcesAfter(w.sources, payload)
            && after.receiver == (if |st.chunks| == st.chunkCount then None else Some(st))
            && after.sessions ==
               w.sessions + (if |st.chunks| == st.chunkCount then {Session(st.snapshotId, after.sources)} else {})
            && st.snapshotId in w.started && st.chunkCount == |Parts(w.started[st.snapshotId], w.sender.chunkSize)|
  {
    AcceptedSession(w, d);
    assert FlightOk(w, w.inFlight[d]);
    PollRecords(w.sender.replicaId, w.sender.chunkSize, w.started, SourcesAfter(w.sources, w.inFlight[d].payload),
                ReceiveRequest(w.receiver, w.inFlight[d]).0.value);
  }

  lemma RecordedIsOk(
      chunkSize: nat, started: map<nat, RaftSnapshot>, accepted: map<nat, set<nat>>, sessions: set<Session>,
      id: nat, index: nat, sources: map<nat, nat>, st: ReceiverState)
    requires chunkSize > 0 && TransfersOk(chunkSize, started, accepted, sessions) && id in started
    requires st.chunkCount == |Parts(started[id], chunkSize)| && AllFrom(sources, id) && 0 in st.chunks
    requires st.chunks.Keys == AcceptedOf(accepted, id) + {index}
    ensures TransfersOk(chunkSize, started, AlsoAccepted(accepted, id, index),
                        sessions + (if |st.chunks| == st.chunkCount then {Session(id, sources)} else {}))
  {
    var more: set<Session> := if |st.chunks| == st.chunkCount then {Session(id, sources)} else {};
    if st.chunks.Keys == Below(st.chunkCount) {
      assert |st.chunks| == st.chunkCount;
      assert Session(id, sources) in sessions + more;
    }
    TransfersAfterAccept(chunkSize, started, accepted, sessions, more, id, index);
  }

  lemma AcceptIsDirect(w: World, d: nat)
    requires Inv(w) && Direct(w) && Enabled(w, Process(d)) && Accepting(w, d) && Disciplined(w, Process(d))
    ensures Direct(Next(w, Process(d)))
  {
    var payload, st := w.inFlight[d].payload, ReceiveRequest(w.receiver, w.inFlight[d]).0.value;
    FlightFacts(w, d);
    assert AcceptanceOk(w.sender.chunkSize, w.started[payload.snapshotId], AcceptedOf(w.accepted, payload.snapshotId),
                        w.sessions, payload.snapshotId);
    SessionAfterAccept(w.sender.replicaId, w.accepted, w.sources, w.receiver, w.inFlight[d]);
    AcceptedNextIs(w, d);
    RecordedIsOk(w.sender.chunkSize, w.started, w.accepted, w.sessions, payload.snapshotId, IndexOf(payload),
                 SourcesAfter(w.sources, payload), st);
    OneMoreAccepted(w.accepted, payload.snapshotId, IndexOf(payload), payload.snapshotId);
  }

  /** Nothing of what `Direct` looks at changes. */
  lemma SameIsDirect(w: World, after: World)
    requires Direct(w) && after.sender.chunkSize == w.sender.chunkSize && after.sender.replicaId == w.sender.replicaId
    requires after.started == w.started && after.accepted == w.accepted && after.sessions == w.sessions
    requires after.sources == w.sources
    requires after.receiver == w.receiver || after.receiver == None ||
             after.receiver.value.senderId != w.sender.replicaId
    ensures Direct(after)
  {
  }

  lemma RejectIsDirect(w: World, d: nat)
    requires Inv(w) && Direct(w) && Enabled(w, Process(d)) && !Accepting(w, d)
    ensures Direct(Next(w, Process(d)))
  {
    FlightFacts(w, d);
    NothingToYield(w);
    RejectedNext(w, d);
    SameIsDirect(w, Next(w, Process(d)));
  }

  /** Whatever does not accept anything leaves the leader's session alone, or ends it. */
  lemma OtherStepIsDirect(w: World, a: Action)
    requires Direct(w) && Enabled(w, a) && !a.Start? && !a.Process?
    ensures Direct(Next(w, a))
  {
    if a.ProcessForeign? {
      ForeignReceives(w.receiver, a.request, w.sender.replicaId);
    }
    SameIsDirect(w, Next(w, a));
  }

  lemma DirectIsInductive(w: World, a: Action)
    requires Inv(w) && Direct(w) && Enabled(w, a) && Disciplined(w, a)
    ensures Direct(Next(w, a))
  {
    if a.Start? {
      FreshId(w);
      StartIsDirect(w, a.to, a.snapshot);
    } else if a.Process? {
      if Accepting(w, a.deliveryId) {
        AcceptIsDirect(w, a.deliveryId);
      } else {
        RejectIsDirect(w, a.deliveryId);
      }
    } else {
      OtherStepIsDirect(w, a);
    }
  }

  // ----- Runs -----

  ghost predicate AllDisciplined(worlds: seq<World>, actions: seq<Action>)
    requires IsRun(worlds, actions)
  {
    forall i {:trigger actions[i]} | 0 <= i < |actions| :: Disciplined(worlds[i], actions[i])
  }

  lemma InitIsDirect(w: World)
    requires Init(w)
    ensures Direct(w)
  {
  }

  lemma {:induction false} DirectInRun(worlds: seq<World>, actions: seq<Action>, i: nat)
    requires IsRun(worlds, actions) && AllDisciplined(worlds, actions) && i < |worlds|
    ensures Direct(worlds[i])
  {
    if i == 0 {
      InitIsDirect(worlds[0]);
    } else {
      DirectInRun(worlds, actions, i - 1);
      InvInRun(worlds, actions, i - 1);
      DirectIsInductive(worlds[i - 1], actions[i - 1]);
    }
  }

  /** A session with chunks of its own transfer only delivers it. */
  lemma OwnChunksDeliver(started: map<nat, RaftSnapshot>, chunkSize: nat, s: Session)
    requires chunkSize > 0 && CompleteSession(started, chunkSize, s) && AllFrom(s.sources, s.id)
    ensures Delivers(started, chunkSize, s, s.id)
  {
    forall i | i in s.sources ensures SamePart(started[s.sources[i]], started[s.id], chunkSize, i) {
      assert i in Below(|Parts(started[s.id], chunkSize)|);
    }
  }

  /**
   If every chunk accepted is of the session's own transfer, a transfer reported as finished was
   handed on by the receiver, data and metadata, for every size, chunk size, window and interleaving.
   */
  lemma FinishedTransfersArrive(worlds: seq<World>, actions: seq<Action>, i: nat, id: nat)
    requires IsRun(worlds, actions) && AllDisciplined(worlds, actions) && i < |worlds| && id in worlds[i].finished
    ensures id in worlds[i].started
    ensures (worlds[i].sender.replicaId, worlds[i].started[id]) in worlds[i].produced
  {
    var w := worlds[i];
    InvInRun(worlds, actions, i);
    DirectInRun(worlds, actions, i);
    FinishedArrivesIff(worlds, actions, i, id);
    assert AcceptanceOk(w.sender.chunkSize, w.started[id], AcceptedOf(w.accepted, id), w.sessions, id);
    var s :| s in w.sessions && s.id == id && AllFrom(s.sources, id);
    OwnChunksDeliver(w.started, w.sender.chunkSize, s);
  }

  /** And whatever the receiver hands on as the leader's is a snapshot the leader started, data and metadata. */
  lemma ProducedWasStarted(worlds: seq<World>, actions: seq<Action>, i: nat, snapshot: RaftSnapshot)
    requires IsRun(worlds, actions) && AllDisciplined(worlds, actions) && i < |worlds|
    requires (worlds[i].sender.replicaId, snapshot) in worlds[i].produced
    ensures exists id :: id in worlds[i].started && worlds[i].started[id] == snapshot
  {
    var w := worlds[i];
    InvInRun(worlds, actions, i);
    DirectInRun(worlds, actions, i);
    ProducedIsAssembled(worlds, actions, i, snapshot);
    var s :| s in w.sessions && CompleteSession(w.started, w.sender.chunkSize, s) &&
             HandedOn(w.started, w.sender.chunkSize, s) == snapshot;
    OwnChunksDeliver(w.started, w.sender.chunkSize, s);
    HandsOnIff(w.started, w.sender.chunkSize, s, s.id);
  }

  // ----- One chunk -----

  /** A session that holds only parts of its snapshot. */
  ghost predicate Right(parts: seq<Bytes>, st: ReceiverState) {
    forall i | i in st.chunks :: i < |parts| && st.chunks[i] == parts[i]
  }

  lemma ChunkKeepsRightIff(parts: seq<Bytes>, st: ReceiverState, index: nat, contents: Bytes)
    requires Right(parts, st) && index < |parts|
    ensures Right(parts, st.(chunks := st.chunks[index := contents])) <==> contents == parts[index]
  {
    var after := st.(chunks := st.chunks[index := contents]);
    assert index in after.chunks && after.chunks[index] == contents;
  }

  /**
   In every state of every run, a chunk that is accepted leaves a session that holds only parts of
   its snapshot so if and only if it is of that transfer, or of one with the same part there.
   */
  lemma AcceptingKeepsRightIff(w: World, d: nat)
    requires Inv(w) && Enabled(w, Process(d)) && w.inFlight[d].payload.Chunk? && Accepting(w, d)
    requires w.receiver.value.snapshotId in w.started &&
             Right(Parts(w.started[w.receiver.value.snapshotId], w.sender.chunkSize), w.receiver.value)
    ensures var payload, st := w.inFlight[d].payload, w.receiver.value;
            var after := ReceiveRequest(w.receiver, w.inFlight[d]).0.value;
            && payload.snapshotId in w.started
            && (Right(Parts(w.started[st.snapshotId], w.sender.chunkSize), after) <==>
                  payload.snapshotId == st.snapshotId ||
                  SamePart(w.started[payload.snapshotId], w.started[st.snapshotId], w.sender.chunkSize,
                           payload.chunkIndex))
  {
    var payload, st := w.inFlight[d].payload, w.receiver.value;
    assert FlightOk(w, w.inFlight[d]) && ReceivingOk(w);
    ChunkKeepsRightIff(Parts(w.started[st.snapshotId], w.sender.chunkSize), st, payload.chunkIndex, payload.contents);
  }
}
