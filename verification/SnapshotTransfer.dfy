/**
 A leader's sender and one follower's receiver joined by a network that delays, reorders
 and loses messages: exactly when a transfer arrives byte for byte.
 */
module SnapshotTransfer {
  import opened Wrappers
  import opened Snapshot

  // ----- Reassembly undoes splitting -----

  lemma {:induction false} ConcatSnoc(chunks: seq<Bytes>, last: Bytes)
    ensures Concat(chunks + [last]) == Concat(chunks) + last
  {
    if chunks == [] {
      assert Concat([last]) == last + Concat([]);
    } else {
      ConcatSnoc(chunks[1..], last);
      assert (chunks + [last])[1..] == chunks[1..] + [last];
    }
  }

  lemma {:induction false} AssembledIsConcat(chunks: map<nat, Bytes>, parts: seq<Bytes>)
    requires forall i: nat | i < |parts| :: i in chunks && chunks[i] == parts[i]
    ensures Assembled(chunks, |parts|) == Concat(parts)
  {
    if parts != [] {
      var n := |parts| - 1;
      AssembledIsConcat(chunks, parts[..n]);
      ConcatSnoc(parts[..n], parts[n]);
      assert parts == parts[..n] + [parts[n]];
    }
  }

  // ----- The system -----

  /**
   `replica` is the follower, `started` its transfers by snapshot id, `accepted` the indices
   its receiver answered with acceptance, `produced` what the receiver handed on, and
   `finished` the transfers the sender reported as finished. `sources` tells which transfer each
   chunk of the receiver's session was sent in, and `sessions` the sessions that completed.
   */
  datatype World = World(
    replica: nat,
    sender: Sender,
    receiver: Option<ReceiverState>,
    inFlight: map<nat, DeliverRequest>,
    responses: set<(nat, ResponsePayload)>,
    started: map<nat, RaftSnapshot>,
    accepted: map<nat, set<nat>>,
    produced: set<(nat, RaftSnapshot)>,
    finished: set<nat>,
    sources: map<nat, nat>,
    sessions: set<Session>)

  /** A session opened by the header of transfer `id`, and the transfer each of its chunks was sent in. */
  datatype Session = Session(id: nat, sources: map<nat, nat>)

  datatype Action =
    | Start(to: nat, snapshot: RaftSnapshot)
    | Send(to: nat)
    | Lose(deliveryId: nat)
    | Process(deliveryId: nat)
    | Refuse(deliveryId: nat)
    | ProcessForeign(request: DeliverRequest)
    | Respond(deliveryId: nat, payload: ResponsePayload)
    | Fail(from: nat, deliveryId: nat, delivery: Delivery)
    | Complete(to: nat)
    | ResetSender
    | ResetReceiver

  ghost predicate Init(w: World) {
    && SenderOk(w.sender) && w.sender.receivers == map[] && w.receiver == None
    && w.inFlight == map[] && w.responses == {} && w.started == map[] && w.accepted == map[]
    && w.produced == {} && w.finished == {} && w.sources == map[] && w.sessions == {}
  }

  ghost predicate Enabled(w: World, a: Action) {
    match a
    case Start(_, _) => w.sender.chunkSize > 0
    case Send(r) => HasRoom(w.sender) && CanSend(w.sender, r)
    case Lose(d) => d in w.inFlight
    case Process(d) => d in w.inFlight && CanReceive(w.receiver, w.inFlight[d])
    case Refuse(d) => d in w.inFlight
    case ProcessForeign(request) => request.sender != w.sender.replicaId && CanReceive(w.receiver, request)
    case Respond(d, payload) => (d, payload) in w.responses
    case Fail(r, _, delivery) => r == w.replica ==> !delivery.Answer?
    case Complete(r) => r in w.sender.receivers && Outcome(w.sender.receivers[r]).Some?
    case ResetSender => true
    case ResetReceiver => true
  }

  ghost predicate CanReceive(st: Option<ReceiverState>, request: DeliverRequest) {
    HeaderOk(request.payload) && (st.Some? ==> ReceiverOk(st.value))
  }

  /** A request is processed and the receiver polled. */
  ghost function Polled(st: Option<ReceiverState>, request: DeliverRequest)
    : (Option<ReceiverState>, ResponsePayload, Option<Result<(nat, RaftSnapshot), ReceiverError>>)
    requires CanReceive(st, request)
  {
    var (after, payload) := ReceiveRequest(st, request);
    ReceivedOk(st, request);
    var done := Completion(after);
    (if done.Some? then None else after, payload, done)
  }

  lemma ReceivedOk(st: Option<ReceiverState>, request: DeliverRequest)
    requires CanReceive(st, request)
    ensures var after := ReceiveRequest(st, request).0; after.Some? ==> ReceiverOk(after.value)
  {
    if request.payload.Header? {
      HeaderReceiverOk(request.sender, request.payload);
    }
  }

  ghost function Output(done: Option<Result<(nat, RaftSnapshot), ReceiverError>>): set<(nat, RaftSnapshot)> {
    if done.Some? && done.value.Ok? then {done.value.value} else {}
  }

  ghost function AcceptedOf(accepted: map<nat, set<nat>>, id: nat): set<nat> {
    if id in accepted then accepted[id] else {}
  }

  ghost function Refusal(payload: Payload): ResponsePayload {
    match payload
    case Header(id, _, _, _) => ResponsePayload(id, 0, Rejected)
    case Chunk(id, index, _) => ResponsePayload(id, index, Rejected)
    case _ => ResponsePayload(0, 0, Rejected)
  }

  /** Where the chunks of the session are from once a request is accepted: a header starts it anew. */
  ghost function SourcesAfter(sources: map<nat, nat>, payload: Payload): map<nat, nat> {
    if payload.Header? then map[0 := payload.snapshotId]
    else if payload.Chunk? then sources[payload.chunkIndex := payload.snapshotId]
    else sources
  }

  ghost function Next(w: World, a: Action): World
    requires Enabled(w, a)
  {
    match a
    case Start(r, snapshot) =>
      w.(sender := StartTransfer(w.sender, r, snapshot),
         started := if r == w.replica then w.started[w.sender.nextSnapshotId := snapshot] else w.started)
    case Send(r) =>
      var (sender, request) := SendNext(w.sender, r);
      w.(sender := sender,
         inFlight := if r == w.replica then w.inFlight[request.deliveryId := request] else w.inFlight)
    case Lose(d) => w.(inFlight := w.inFlight - {d})
    case Process(d) =>
      var (after, payload, done) := Polled(w.receiver, w.inFlight[d]);
      var id := payload.snapshotId;
      var sources := if payload.status == Accepted then SourcesAfter(w.sources, w.inFlight[d].payload) else w.sources;
      var session := ReceiveRequest(w.receiver, w.inFlight[d]).0;
      w.(receiver := after, inFlight := w.inFlight - {d},
         responses := w.responses + {(d, payload)},
         accepted := if payload.status == Accepted
                     then AlsoAccepted(w.accepted, id, payload.chunkIndex) else w.accepted,
         produced := w.produced + Output(done),
         sources := sources,
         sessions := w.sessions + if payload.status == Accepted && done.Some?
                                  then {Session(session.value.snapshotId, sources)} else {})
    case Refuse(d) =>
      w.(inFlight := w.inFlight - {d}, responses := w.responses + {(d, Refusal(w.inFlight[d].payload))})
    case ProcessForeign(request) =>
      var (after, _, done) := Polled(w.receiver, request);
      w.(receiver := after, produced := w.produced + Output(done))
    case Respond(d, payload) => w.(sender := Receive(w.sender, w.replica, d, Answer(payload)))
    case Fail(r, d, delivery) => w.(sender := Receive(w.sender, r, d, delivery))
    case Complete(r) =>
      w.(sender := Dropped(w.sender, r),
         finished := if r == w.replica && Outcome(w.sender.receivers[r]) == Some(Finish)
                     then w.finished + {w.sender.receivers[r].snapshotId} else w.finished)
    case ResetSender => w.(sender := w.sender.(receivers := map[]))
    case ResetReceiver => w.(receiver := None)
  }

  // ----- Invariant -----

  /** A payload with a part of a snapshot. */
  predicate Carries(payload: Payload) {
    payload.Header? || payload.Chunk?
  }

  /** The index a payload carries. */
  ghost function IndexOf(payload: Payload): nat {
    if payload.Chunk? then payload.chunkIndex else 0
  }

  ghost function Parts(snapshot: RaftSnapshot, chunkSize: nat): seq<Bytes>
    requires chunkSize > 0
  {
    Split(snapshot.data, chunkSize)
  }

  /** A payload as the sender makes it. */
  ghost predicate MadeFrom(snapshot: RaftSnapshot, parts: seq<Bytes>, payload: Payload) {
    && Carries(payload) && IndexOf(payload) < |parts| && payload.contents == parts[IndexOf(payload)]
    && (payload.Header? ==> payload.snapshotSize == |snapshot.data| && payload.metadata == Some(snapshot.metadata))
    && (payload.Chunk? ==> payload.chunkIndex > 0)
  }

  ghost predicate FlightOkIn(
      replicaId: nat, chunkSize: nat, nextDeliveryId: nat, started: map<nat, RaftSnapshot>,
      accepted: map<nat, set<nat>>, request: DeliverRequest)
    requires chunkSize > 0
  {
    && request.sender == replicaId && request.deliveryId < nextDeliveryId
    && Carries(request.payload) && request.payload.snapshotId in started
    && MadeFrom(started[request.payload.snapshotId],
                Parts(started[request.payload.snapshotId], chunkSize), request.payload)
    && IndexOf(request.payload) !in AcceptedOf(accepted, request.payload.snapshotId)
  }

  ghost predicate FlightOk(w: World, request: DeliverRequest)
    requires w.sender.chunkSize > 0
  {
    FlightOkIn(w.sender.replicaId, w.sender.chunkSize, w.sender.nextDeliveryId, w.started, w.accepted, request)
  }

  ghost predicate SameChunk(a: Payload, b: Payload) {
    Carries(a) && Carries(b) && a.snapshotId == b.snapshotId && IndexOf(a) == IndexOf(b)
  }

  ghost predicate FlightsOkIn(
      replicaId: nat, chunkSize: nat, nextDeliveryId: nat, started: map<nat, RaftSnapshot>,
      accepted: map<nat, set<nat>>, inFlight: map<nat, DeliverRequest>)
    requires chunkSize > 0
  {
    && (forall d | d in inFlight ::
          FlightOkIn(replicaId, chunkSize, nextDeliveryId, started, accepted, inFlight[d]) &&
            inFlight[d].deliveryId == d)
    && (forall d, e | d in inFlight && e in inFlight && d != e :: !SameChunk(inFlight[d].payload, inFlight[e].payload))
  }

  ghost predicate FlightsOk(w: World)
    requires w.sender.chunkSize > 0
  {
    FlightsOkIn(w.sender.replicaId, w.sender.chunkSize, w.sender.nextDeliveryId, w.started, w.accepted, w.inFlight)
  }

  /** The contents are the part of transfer `id` at an index where these parts have one as long. */
  ghost predicate IsPartOf(
      started: map<nat, RaftSnapshot>, chunkSize: nat, parts: seq<Bytes>, index: nat, id: nat, contents: Bytes)
    requires chunkSize > 0
  {
    && id in started && index < |Parts(started[id], chunkSize)| && index < |parts|
    && contents == Parts(started[id], chunkSize)[index] && |contents| == |parts[index]|
  }

  /** Every chunk is a part of the transfer its source names. */
  ghost predicate FromSources(
      started: map<nat, RaftSnapshot>, chunkSize: nat, parts: seq<Bytes>, sources: map<nat, nat>,
      chunks: map<nat, Bytes>)
    requires chunkSize > 0
  {
    && sources.Keys == chunks.Keys
    && forall i | i in chunks :: IsPartOf(started, chunkSize, parts, i, sources[i], chunks[i])
  }

  /** The receiver's state as the header of this snapshot leaves it, but for the chunks. */
  ghost predicate OpenedBy(snapshot: RaftSnapshot, parts: seq<Bytes>, st: ReceiverState) {
    && parts != [] && st.metadata == Some(snapshot.metadata) && st.snapshotSize == |snapshot.data|
    && st.chunkCount == |parts| && st.chunkSize == |parts[0]|
  }

  /** The receiver is in the middle of a transfer of the leader's. */
  ghost predicate SessionOk(
      chunkSize: nat, started: map<nat, RaftSnapshot>, sources: map<nat, nat>, st: ReceiverState)
    requires chunkSize > 0
  {
    st.snapshotId in started &&
    var parts := Parts(started[st.snapshotId], chunkSize);
    OpenedBy(started[st.snapshotId], parts, st) && FromSources(started, chunkSize, parts, sources, st.chunks)
  }

  ghost predicate ReceivingOkIn(
      replicaId: nat, chunkSize: nat, started: map<nat, RaftSnapshot>, sources: map<nat, nat>, st: ReceiverState)
    requires chunkSize > 0
  {
    && ReceiverOk(st) && |st.chunks| != st.chunkCount
    && (st.senderId == replicaId ==> SessionOk(chunkSize, started, sources, st))
  }

  ghost predicate ReceivingOk(w: World)
    requires w.sender.chunkSize > 0
  {
    w.receiver.Some? ==>
      ReceivingOkIn(w.sender.replicaId, w.sender.chunkSize, w.started, w.sources, w.receiver.value)
  }

  /** Everything sent or accepted of the present transfer is below its next index. */
  ghost predicate TransferOfIn(
      chunkSize: nat, started: map<nat, RaftSnapshot>, got: set<nat>, inFlight: map<nat, DeliverRequest>,
      st: SenderState)
  {
    && st.snapshotId in started && st.chunkSize == chunkSize
    && st.data == started[st.snapshotId].data && st.metadata == started[st.snapshotId].metadata
    && (Live(st) ==> Acknowledged(st) <= got)
    && (forall d | d in inFlight && Carries(inFlight[d].payload) &&
                   inFlight[d].payload.snapshotId == st.snapshotId ::
          IndexOf(inFlight[d].payload) < st.nextChunkIndex)
    && (forall i | i in got :: i < st.nextChunkIndex)
  }

  ghost predicate TransferOf(w: World, st: SenderState) {
    TransferOfIn(w.sender.chunkSize, w.started, AcceptedOf(w.accepted, st.snapshotId), w.inFlight, st)
  }

  /** Only indices a transfer has are accepted, and all of them once it is reported as finished. */
  ghost predicate StartedOkIn(
      chunkSize: nat, nextSnapshotId: nat, started: map<nat, RaftSnapshot>, accepted: map<nat, set<nat>>,
      finished: set<nat>)
    requires chunkSize > 0
  {
    && (forall id | id in started ::
          id < nextSnapshotId && AcceptedOf(accepted, id) <= Below(|Parts(started[id], chunkSize)|))
    && (forall id | id in accepted :: id in started)
    && (forall id | id in finished ::
          id in started && AcceptedOf(accepted, id) == Below(|Parts(started[id], chunkSize)|))
  }

  ghost predicate StartedOk(w: World)
    requires w.sender.chunkSize > 0
  {
    StartedOkIn(w.sender.chunkSize, w.sender.nextSnapshotId, w.started, w.accepted, w.finished)
  }

  ghost predicate ResponsesOk(responses: set<(nat, ResponsePayload)>, accepted: map<nat, set<nat>>) {
    forall r | r in responses && r.1.status == Accepted :: r.1.chunkIndex in AcceptedOf(accepted, r.1.snapshotId)
  }

  ghost predicate SendingOk(w: World) {
    w.replica in w.sender.receivers ==> TransferOf(w, w.sender.receivers[w.replica])
  }

  /** The chunks a session held, each the part of the transfer it was sent in. */
  ghost function ChunksOf(started: map<nat, RaftSnapshot>, chunkSize: nat, sources: map<nat, nat>): map<nat, Bytes>
    requires chunkSize > 0
  {
    map i | i in sources && sources[i] in started && i < |Parts(started[sources[i]], chunkSize)| ::
      Parts(started[sources[i]], chunkSize)[i]
  }

  /** A session that completed held a chunk at every index of its transfer. */
  ghost predicate CompleteSession(started: map<nat, RaftSnapshot>, chunkSize: nat, s: Session)
    requires chunkSize > 0
  {
    s.id in started &&
    var parts, chunks := Parts(started[s.id], chunkSize), ChunksOf(started, chunkSize, s.sources);
    && s.sources.Keys == chunks.Keys == Below(|parts|)
    && FromSources(started, chunkSize, parts, s.sources, chunks)
  }

  /** What a session that completed handed on. */
  ghost function HandedOn(started: map<nat, RaftSnapshot>, chunkSize: nat, s: Session): RaftSnapshot
    requires chunkSize > 0 && CompleteSession(started, chunkSize, s)
  {
    var n := |Parts(started[s.id], chunkSize)|;
    assert forall i: nat | i < n :: i in Below(n);
    RaftSnapshot(started[s.id].metadata, Assembled(ChunksOf(started, chunkSize, s.sources), n))
  }

  /** What was handed on as the leader's is what its sessions that completed handed on. */
  ghost predicate ProducedOk(
      replicaId: nat, chunkSize: nat, started: map<nat, RaftSnapshot>, sessions: set<Session>,
      produced: set<(nat, RaftSnapshot)>)
    requires chunkSize > 0
  {
    && (forall s | s in sessions ::
          CompleteSession(started, chunkSize, s) && (replicaId, HandedOn(started, chunkSize, s)) in produced)
    && (forall x | x in produced && x.0 == replicaId :: IsHandedOn(chunkSize, started, sessions, x.1))
  }

  ghost predicate IsHandedOn(
      chunkSize: nat, started: map<nat, RaftSnapshot>, sessions: set<Session>, snapshot: RaftSnapshot)
    requires chunkSize > 0
  {
    exists s :: s in sessions && CompleteSession(started, chunkSize, s) && HandedOn(started, chunkSize, s) == snapshot
  }

  ghost predicate Inv(w: World) {
    && SenderOk(w.sender) && FlightsOk(w) && ReceivingOk(w) && StartedOk(w)
    && ResponsesOk(w.responses, w.accepted) && SendingOk(w)
    && ProducedOk(w.sender.replicaId, w.sender.chunkSize, w.started, w.sessions, w.produced)
  }

  // ----- What the parts of the invariant survive -----

  ghost predicate Extends(started: map<nat, RaftSnapshot>, more: map<nat, RaftSnapshot>) {
    forall id | id in started :: id in more && more[id] == started[id]
  }

  lemma FlightsGrow(
      replicaId: nat, chunkSize: nat, next: nat, next': nat, started: map<nat, RaftSnapshot>,
      started': map<nat, RaftSnapshot>, accepted: map<nat, set<nat>>, inFlight: map<nat, DeliverRequest>)
    requires chunkSize > 0 && FlightsOkIn(replicaId, chunkSize, next, started, accepted, inFlight)
    requires next <= next' && Extends(started, started')
    ensures FlightsOkIn(replicaId, chunkSize, next', started', accepted, inFlight)
  {
    forall d | d in inFlight ensures FlightOkIn(replicaId, chunkSize, next', started', accepted, inFlight[d]) {
      assert FlightOkIn(replicaId, chunkSize, next, started, accepted, inFlight[d]);
    }
  }

  lemma FlightsAdd(
      replicaId: nat, chunkSize: nat, next: nat, started: map<nat, RaftSnapshot>, accepted: map<nat, set<nat>>,
      inFlight: map<nat, DeliverRequest>, request: DeliverRequest)
    requires chunkSize > 0 && FlightsOkIn(replicaId, chunkSize, next, started, accepted, inFlight)
    requires FlightOkIn(replicaId, chunkSize, next, started, accepted, request) && request.deliveryId !in inFlight
    requires forall d | d in inFlight :: !SameChunk(inFlight[d].payload, request.payload)
    ensures FlightsOkIn(replicaId, chunkSize, next, started, accepted, inFlight[request.deliveryId := request])
  {
  }

  lemma FlightsRemove(
      replicaId: nat, chunkSize: nat, next: nat, started: map<nat, RaftSnapshot>, accepted: map<nat, set<nat>>,
      inFlight: map<nat, DeliverRequest>, d: nat)
    requires chunkSize > 0 && FlightsOkIn(replicaId, chunkSize, next, started, accepted, inFlight)
    ensures FlightsOkIn(replicaId, chunkSize, next, started, accepted, inFlight - {d})
  {
    assert forall e | e in inFlight - {d} :: (inFlight - {d})[e] == inFlight[e];
  }

  ghost function AlsoAccepted(accepted: map<nat, set<nat>>, id: nat, index: nat): map<nat, set<nat>> {
    accepted[id := AcceptedOf(accepted, id) + {index}]
  }

  lemma FlightsAccept(
      replicaId: nat, chunkSize: nat, next: nat, started: map<nat, RaftSnapshot>, accepted: map<nat, set<nat>>,
      inFlight: map<nat, DeliverRequest>, id: nat, index: nat)
    requires chunkSize > 0 && FlightsOkIn(replicaId, chunkSize, next, started, accepted, inFlight)
    requires forall d | d in inFlight ::
               !(inFlight[d].payload.snapshotId == id && IndexOf(inFlight[d].payload) == index)
    ensures FlightsOkIn(replicaId, chunkSize, next, started, AlsoAccepted(accepted, id, index), inFlight)
  {
    var more := AlsoAccepted(accepted, id, index);
    forall d | d in inFlight ensures FlightOkIn(replicaId, chunkSize, next, started, more, inFlight[d]) {
      assert FlightOkIn(replicaId, chunkSize, next, started, accepted, inFlight[d]);
    }
  }

  lemma StartedLonger(
      chunkSize: nat, next: nat, next': nat, started: map<nat, RaftSnapshot>, accepted: map<nat, set<nat>>,
      finished: set<nat>)
    requires chunkSize > 0 && StartedOkIn(chunkSize, next, started, accepted, finished) && next <= next'
    ensures StartedOkIn(chunkSize, next', started, accepted, finished)
  {
  }

  lemma StartedAdd(
      chunkSize: nat, next: nat, started: map<nat, RaftSnapshot>, accepted: map<nat, set<nat>>, finished: set<nat>,
      id: nat, snapshot: RaftSnapshot)
    requires chunkSize > 0 && StartedOkIn(chunkSize, next, started, accepted, finished)
    requires id !in started && id < next
    ensures StartedOkIn(chunkSize, next, started[id := snapshot], accepted, finished)
  {
    assert AcceptedOf(accepted, id) == {};
  }

  lemma OneMoreAccepted(accepted: map<nat, set<nat>>, id: nat, index: nat, other: nat)
    ensures AcceptedOf(AlsoAccepted(accepted, id, index), other) ==
            if other == id then AcceptedOf(accepted, id) + {index} else AcceptedOf(accepted, other)
  {
  }

  lemma StartedAccept(
      chunkSize: nat, next: nat, started: map<nat, RaftSnapshot>, accepted: map<nat, set<nat>>, finished: set<nat>,
      id: nat, index: nat)
    requires chunkSize > 0 && StartedOkIn(chunkSize, next, started, accepted, finished)
    requires id in started && index < |Parts(started[id], chunkSize)| && index !in AcceptedOf(accepted, id)
    ensures StartedOkIn(chunkSize, next, started, AlsoAccepted(accepted, id, index), finished)
  {
    var more := AlsoAccepted(accepted, id, index);
    forall other | other in started
      ensures AcceptedOf(more, other) <= Below(|Parts(started[other], chunkSize)|)
    {
      OneMoreAccepted(accepted, id, index, other);
    }
    assert index in Below(|Parts(started[id], chunkSize)|);
    forall other | other in finished ensures AcceptedOf(more, other) == AcceptedOf(accepted, other) {
      OneMoreAccepted(accepted, id, index, other);
    }
  }

  lemma SourcesGrow(
      started: map<nat, RaftSnapshot>, started': map<nat, RaftSnapshot>, chunkSize: nat, parts: seq<Bytes>,
      sources: map<nat, nat>, chunks: map<nat, Bytes>)
    requires chunkSize > 0 && FromSources(started, chunkSize, parts, sources, chunks) && Extends(started, started')
    ensures FromSources(started', chunkSize, parts, sources, chunks)
  {
    forall i | i in chunks ensures IsPartOf(started', chunkSize, parts, i, sources[i], chunks[i]) {
      assert IsPartOf(started, chunkSize, parts, i, sources[i], chunks[i]);
    }
  }

  lemma ReceivingGrows(
      replicaId: nat, chunkSize: nat, started: map<nat, RaftSnapshot>, started': map<nat, RaftSnapshot>,
      sources: map<nat, nat>, st: ReceiverState)
    requires chunkSize > 0 && ReceivingOkIn(replicaId, chunkSize, started, sources, st) && Extends(started, started')
    ensures ReceivingOkIn(replicaId, chunkSize, started', sources, st)
  {
    if st.senderId == replicaId {
      SourcesGrow(started, started', chunkSize, Parts(started[st.snapshotId], chunkSize), sources, st.chunks);
    }
  }

  lemma ChunksGrow(
      chunkSize: nat, started: map<nat, RaftSnapshot>, started': map<nat, RaftSnapshot>, parts: seq<Bytes>,
      sources: map<nat, nat>)
    requires chunkSize > 0 && Extends(started, started')
    requires FromSources(started, chunkSize, parts, sources, ChunksOf(started, chunkSize, sources))
    ensures ChunksOf(started', chunkSize, sources) == ChunksOf(started, chunkSize, sources)
  {
    var chunks, chunks' := ChunksOf(started, chunkSize, sources), ChunksOf(started', chunkSize, sources);
    forall i | i in sources ensures i in chunks' && i in chunks && chunks'[i] == chunks[i] {
      assert IsPartOf(started, chunkSize, parts, i, sources[i], chunks[i]);
    }
  }

  /** What a session handed on does not depend on transfers started later. */
  lemma SessionGrows(
      chunkSize: nat, started: map<nat, RaftSnapshot>, started': map<nat, RaftSnapshot>, s: Session)
    requires chunkSize > 0 && CompleteSession(started, chunkSize, s) && Extends(started, started')
    ensures CompleteSession(started', chunkSize, s)
    ensures HandedOn(started', chunkSize, s) == HandedOn(started, chunkSize, s)
  {
    var parts := Parts(started[s.id], chunkSize);
    ChunksGrow(chunkSize, started, started', parts, s.sources);
    SourcesGrow(started, started', chunkSize, parts, s.sources, ChunksOf(started, chunkSize, s.sources));
  }

  lemma ProducedGrows(
      replicaId: nat, chunkSize: nat, started: map<nat, RaftSnapshot>, started': map<nat, RaftSnapshot>,
      sessions: set<Session>, produced: set<(nat, RaftSnapshot)>)
    requires chunkSize > 0 && ProducedOk(replicaId, chunkSize, started, sessions, produced)
    requires Extends(started, started')
    ensures ProducedOk(replicaId, chunkSize, started', sessions, produced)
  {
    forall s | s in sessions
      ensures CompleteSession(started', chunkSize, s) && (replicaId, HandedOn(started', chunkSize, s)) in produced
    {
      SessionGrows(chunkSize, started, started', s);
    }
    forall x | x in produced && x.0 == replicaId ensures IsHandedOn(chunkSize, started', sessions, x.1) {
      var s :| s in sessions && CompleteSession(started, chunkSize, s) && HandedOn(started, chunkSize, s) == x.1;
      SessionGrows(chunkSize, started, started', s);
    }
  }

  lemma ProducedAlso(
      replicaId: nat, chunkSize: nat, started: map<nat, RaftSnapshot>, sessions: set<Session>, more: set<Session>,
      produced: set<(nat, RaftSnapshot)>, output: set<(nat, RaftSnapshot)>)
    requires chunkSize > 0 && ProducedOk(replicaId, chunkSize, started, sessions, produced)
    requires ProducedOk(replicaId, chunkSize, started, more, output)
    ensures ProducedOk(replicaId, chunkSize, started, sessions + more, produced + output)
  {
    forall x | x in produced + output && x.0 == replicaId
      ensures IsHandedOn(chunkSize, started, sessions + more, x.1)
    {
      var s :| (s in sessions || s in more) && CompleteSession(started, chunkSize, s) &&
               HandedOn(started, chunkSize, s) == x.1;
      assert s in sessions + more;
    }
  }

  lemma TransferGrows(
      chunkSize: nat, started: map<nat, RaftSnapshot>, started': map<nat, RaftSnapshot>, got: set<nat>,
      inFlight: map<nat, DeliverRequest>, st: SenderState)
    requires TransferOfIn(chunkSize, started, got, inFlight, st) && Extends(started, started')
    ensures TransferOfIn(chunkSize, started', got, inFlight, st)
  {
  }

  lemma TransferAdd(
      chunkSize: nat, started: map<nat, RaftSnapshot>, got: set<nat>, inFlight: map<nat, DeliverRequest>,
      st: SenderState, request: DeliverRequest)
    requires TransferOfIn(chunkSize, started, got, inFlight, st)
    requires Carries(request.payload) && (request.payload.snapshotId == st.snapshotId ==>
                                            IndexOf(request.payload) < st.nextChunkIndex)
    ensures TransferOfIn(chunkSize, started, got, inFlight[request.deliveryId := request], st)
  {
  }

  lemma TransferRemove(
      chunkSize: nat, started: map<nat, RaftSnapshot>, got: set<nat>, inFlight: map<nat, DeliverRequest>,
      st: SenderState, d: nat)
    requires TransferOfIn(chunkSize, started, got, inFlight, st)
    ensures TransferOfIn(chunkSize, started, got, inFlight - {d}, st)
  {
    assert forall e | e in inFlight - {d} :: (inFlight - {d})[e] == inFlight[e];
  }

  // ----- Steps of the sender -----

  /** The sender moves on, with nothing new on the network. */
  lemma SenderOnlyStep(w: World, sender: Sender)
    requires Inv(w) && SenderOk(sender)
    requires sender.replicaId == w.sender.replicaId && sender.chunkSize == w.sender.chunkSize
    requires sender.nextDeliveryId >= w.sender.nextDeliveryId && sender.nextSnapshotId >= w.sender.nextSnapshotId
    requires w.replica in sender.receivers ==> TransferOf(w, sender.receivers[w.replica])
    ensures Inv(w.(sender := sender))
  {
    FlightsGrow(sender.replicaId, sender.chunkSize, w.sender.nextDeliveryId, sender.nextDeliveryId,
                w.started, w.started, w.accepted, w.inFlight);
    StartedLonger(sender.chunkSize, w.sender.nextSnapshotId, sender.nextSnapshotId, w.started, w.accepted, w.finished);
  }

  lemma AddStarted(w: World, id: nat, snapshot: RaftSnapshot)
    requires Inv(w) && id !in w.started && id < w.sender.nextSnapshotId
    ensures Inv(w.(started := w.started[id := snapshot]))
  {
    var s, more := w.sender, w.started[id := snapshot];
    FlightsGrow(s.replicaId, s.chunkSize, s.nextDeliveryId, s.nextDeliveryId, w.started, more, w.accepted, w.inFlight);
    StartedAdd(s.chunkSize, s.nextSnapshotId, w.started, w.accepted, w.finished, id, snapshot);
    if w.receiver.Some? {
      ReceivingGrows(s.replicaId, s.chunkSize, w.started, more, w.sources, w.receiver.value);
    }
    if w.replica in s.receivers {
      var st := s.receivers[w.replica];
      TransferGrows(s.chunkSize, w.started, more, AcceptedOf(w.accepted, st.snapshotId), w.inFlight, st);
    }
    ProducedGrows(s.replicaId, s.chunkSize, w.started, more, w.sessions, w.produced);
  }

  lemma StartStep(w: World, r: nat, snapshot: RaftSnapshot)
    requires Inv(w) && Enabled(w, Start(r, snapshot))
    ensures Inv(Next(w, Start(r, snapshot)))
  {
    StartOk(w.sender, r, snapshot);
    var id := w.sender.nextSnapshotId;
    var sender := StartTransfer(w.sender, r, snapshot);
    if r == w.replica {
      var bumped := w.sender.(nextSnapshotId := id + 1);
      SenderOnlyStep(w, bumped);
      AddStarted(w.(sender := bumped), id, snapshot);
      var before := w.(sender := bumped, started := w.started[id := snapshot]);
      assert AcceptedOf(w.accepted, id) == {};
      assert Acknowledged(sender.receivers[r]) == {};
      forall d | d in w.inFlight ensures w.inFlight[d].payload.snapshotId != id {
        assert FlightOk(w, w.inFlight[d]);
      }
      SenderOnlyStep(before, sender);
    } else {
      SenderOnlyStep(w, sender);
    }
  }

  /** A request for a chunk not sent before goes on the network. */
  lemma AddFlight(w: World, request: DeliverRequest)
    requires Inv(w) && FlightOk(w, request) && request.deliveryId !in w.inFlight
    requires forall d | d in w.inFlight :: !SameChunk(w.inFlight[d].payload, request.payload)
    requires w.replica in w.sender.receivers &&
             w.sender.receivers[w.replica].snapshotId == request.payload.snapshotId ==>
               IndexOf(request.payload) < w.sender.receivers[w.replica].nextChunkIndex
    ensures Inv(w.(inFlight := w.inFlight[request.deliveryId := request]))
  {
    var s := w.sender;
    FlightsAdd(s.replicaId, s.chunkSize, s.nextDeliveryId, w.started, w.accepted, w.inFlight, request);
    if w.replica in s.receivers {
      var st := s.receivers[w.replica];
      TransferAdd(s.chunkSize, w.started, AcceptedOf(w.accepted, st.snapshotId), w.inFlight, st, request);
    }
  }

  /** The next chunk of a transfer is neither in flight nor accepted yet. */
  lemma SentIsNew(w: World, sender: Sender)
    requires Inv(w) && w.replica in w.sender.receivers && CanSend(w.sender, w.replica)
    requires sender == SendNext(w.sender, w.replica).0
    ensures var request := SendNext(w.sender, w.replica).1;
            && FlightOk(w.(sender := sender), request) && request.deliveryId !in w.inFlight
            && forall d | d in w.inFlight :: !SameChunk(w.inFlight[d].payload, request.payload)
  {
    var st := w.sender.receivers[w.replica];
    assert TransferOf(w, st);
    var request := SendNext(w.sender, w.replica).1;
    forall d | d in w.inFlight ensures !SameChunk(w.inFlight[d].payload, request.payload) && d != request.deliveryId {
      assert FlightOk(w, w.inFlight[d]);
    }
  }

  lemma SendStep(w: World, r: nat)
    requires Inv(w) && Enabled(w, Send(r))
    ensures Inv(Next(w, Send(r)))
  {
    SendOk(w.sender, r);
    var st := w.sender.receivers[r];
    var (sender, request) := SendNext(w.sender, r);
    if r == w.replica {
      assert TransferOk(st) && TransferOf(w, st);
      NextChunkOk(st, w.sender.nextDeliveryId);
      SenderOnlyStep(w, sender);
      SentIsNew(w, sender);
      AddFlight(w.(sender := sender), request);
    } else {
      SenderOnlyStep(w, sender);
    }
  }

  lemma RespondStep(w: World, d: nat, payload: ResponsePayload)
    requires Inv(w) && Enabled(w, Respond(d, payload))
    ensures Inv(Next(w, Respond(d, payload)))
  {
    ReceiveOk(w.sender, w.replica, d, Answer(payload));
    var sender := Receive(w.sender, w.replica, d, Answer(payload));
    if w.replica in w.sender.receivers {
      var st := w.sender.receivers[w.replica];
      assert (d, payload) in w.responses;
      if Live(Delivered(st, d, Answer(payload))) {
        DeliveredOk(st, d, Answer(payload));
      }
    }
    SenderOnlyStep(w, sender);
  }

  lemma FailedIsOf(
      chunkSize: nat, started: map<nat, RaftSnapshot>, got: set<nat>, inFlight: map<nat, DeliverRequest>,
      st: SenderState, d: nat, delivery: Delivery)
    requires TransferOfIn(chunkSize, started, got, inFlight, st) && !delivery.Answer?
    ensures TransferOfIn(chunkSize, started, got, inFlight, Delivered(st, d, delivery))
    ensures Delivered(st, d, delivery).snapshotId == st.snapshotId
  {
  }

  lemma FailStep(w: World, r: nat, d: nat, delivery: Delivery)
    requires Inv(w) && Enabled(w, Fail(r, d, delivery))
    ensures Inv(Next(w, Fail(r, d, delivery)))
  {
    ReceiveOk(w.sender, r, d, delivery);
    var sender := Receive(w.sender, r, d, delivery);
    if w.replica in w.sender.receivers {
      var st := w.sender.receivers[w.replica];
      assert TransferOf(w, st);
      if r == w.replica {
        FailedIsOf(w.sender.chunkSize, w.started, AcceptedOf(w.accepted, st.snapshotId), w.inFlight, st, d, delivery);
        assert sender.receivers[r] == Delivered(st, d, delivery);
      } else {
        assert sender.receivers[w.replica] == st;
      }
    }
    SenderOnlyStep(w, sender);
  }

  /** A transfer that finishes was accepted in full. */
  lemma FinishedIsFull(w: World)
    requires Inv(w) && w.replica in w.sender.receivers
    requires Outcome(w.sender.receivers[w.replica]) == Some(Finish)
    ensures var id := w.sender.receivers[w.replica].snapshotId;
            id in w.started && AcceptedOf(w.accepted, id) == Below(|Parts(w.started[id], w.sender.chunkSize)|)
  {
    var st := w.sender.receivers[w.replica];
    assert HeldOk(w.sender.nextSnapshotId, w.sender.nextDeliveryId, st) && TransferOf(w, st);
    FinishMeansAll(st);
  }

  lemma StartedFinish(
      chunkSize: nat, next: nat, started: map<nat, RaftSnapshot>, accepted: map<nat, set<nat>>, finished: set<nat>,
      id: nat)
    requires chunkSize > 0 && StartedOkIn(chunkSize, next, started, accepted, finished) && id in started
    requires AcceptedOf(accepted, id) == Below(|Parts(started[id], chunkSize)|)
    ensures StartedOkIn(chunkSize, next, started, accepted, finished + {id})
  {
  }

  lemma AddFinished(w: World, id: nat)
    requires Inv(w) && id in w.started
    requires AcceptedOf(w.accepted, id) == Below(|Parts(w.started[id], w.sender.chunkSize)|)
    ensures Inv(w.(finished := w.finished + {id}))
  {
    StartedFinish(w.sender.chunkSize, w.sender.nextSnapshotId, w.started, w.accepted, w.finished, id);
  }

  lemma CompleteStep(w: World, r: nat)
    requires Inv(w) && Enabled(w, Complete(r))
    ensures Inv(Next(w, Complete(r)))
  {
    DropOk(w.sender, r);
    SenderOnlyStep(w, Dropped(w.sender, r));
    if r == w.replica && Outcome(w.sender.receivers[r]) == Some(Finish) {
      FinishedIsFull(w);
      AddFinished(w.(sender := Dropped(w.sender, r)), w.sender.receivers[r].snapshotId);
    }
  }

  lemma ResetSenderStep(w: World)
    requires Inv(w)
    ensures Inv(w.(sender := w.sender.(receivers := map[])))
  {
    assert PendingPairs({}, map[]) == {};
    SenderOnlyStep(w, w.sender.(receivers := map[]));
  }

  // ----- Steps of the network and the receiver -----

  /** Taking a message off the network, and answering without accepting. */
  lemma RemoveStep(w: World, d: nat, responses: set<(nat, ResponsePayload)>)
    requires Inv(w) && ResponsesOk(responses, w.accepted)
    ensures Inv(w.(inFlight := w.inFlight - {d}, responses := responses))
  {
    var s := w.sender;
    FlightsRemove(s.replicaId, s.chunkSize, s.nextDeliveryId, w.started, w.accepted, w.inFlight, d);
    if w.replica in s.receivers {
      var st := s.receivers[w.replica];
      TransferRemove(s.chunkSize, w.started, AcceptedOf(w.accepted, st.snapshotId), w.inFlight, st, d);
    }
  }

  /** The receiver moves on, without accepting anything of the leader's. */
  lemma ReceiverOnlyStep(w: World, receiver: Option<ReceiverState>, output: set<(nat, RaftSnapshot)>)
    requires Inv(w)
    requires receiver.Some? ==> ReceiverOk(receiver.value) && |receiver.value.chunks| != receiver.value.chunkCount
    requires receiver == w.receiver || receiver == None || receiver.value.senderId != w.sender.replicaId
    requires forall x | x in output :: x.0 != w.sender.replicaId
    ensures Inv(w.(receiver := receiver, produced := w.produced + output))
  {
    ProducedAlso(w.sender.replicaId, w.sender.chunkSize, w.started, w.sessions, {}, w.produced, output);
    assert w.sessions + {} == w.sessions;
  }

  /** A session of the leader's is never complete between requests, so what a poll then yields is another's. */
  lemma OthersOutput(
      replicaId: nat, chunkSize: nat, started: map<nat, RaftSnapshot>, sources: map<nat, nat>,
      st: Option<ReceiverState>)
    requires chunkSize > 0 && (st.Some? ==> ReceiverOk(st.value))
    requires st.Some? && st.value.senderId == replicaId ==>
               ReceivingOkIn(replicaId, chunkSize, started, sources, st.value)
    ensures forall x | x in Output(Completion(st)) :: x.0 != replicaId
    ensures st.Some? && st.value.senderId == replicaId ==> Completion(st) == None
  {
  }

  /** A foreign request leaves the leader's session alone, or ends it. */
  lemma ForeignReceives(st: Option<ReceiverState>, request: DeliverRequest, replicaId: nat)
    requires CanReceive(st, request) && request.sender != replicaId
    ensures var after := ReceiveRequest(st, request).0;
            after == st || (after.Some? && after.value.senderId != replicaId)
  {
  }

  lemma ForeignStep(w: World, request: DeliverRequest)
    requires Inv(w) && Enabled(w, ProcessForeign(request))
    ensures Inv(Next(w, ProcessForeign(request)))
  {
    ReceivedOk(w.receiver, request);
    ForeignReceives(w.receiver, request, w.sender.replicaId);
    OthersOutput(w.sender.replicaId, w.sender.chunkSize, w.started, w.sources, ReceiveRequest(w.receiver, request).0);
    var (after, _, done) := Polled(w.receiver, request);
    ReceiverOnlyStep(w, after, Output(done));
  }

  /** The receiver expects of every chunk the length the leader gives it. */
  lemma ExpectedLength(snapshot: RaftSnapshot, chunkSize: nat, st: ReceiverState, index: nat)
    requires chunkSize > 0 && ReceiverOk(st) && OpenedBy(snapshot, Parts(snapshot, chunkSize), st)
    requires index < st.chunkCount
    ensures |Parts(snapshot, chunkSize)[index]| ==
            if index < st.chunkCount - 1 then st.chunkSize else st.snapshotSize - (st.chunkCount - 1) * st.chunkSize
  {
    CountsAgree(snapshot.data, chunkSize);
    SplitLength(snapshot.data, chunkSize, index);
  }

  /** A header of the leader's opens a session that holds the first chunk. */
  lemma HeaderOpens(
      replicaId: nat, chunkSize: nat, next: nat, started: map<nat, RaftSnapshot>, accepted: map<nat, set<nat>>,
      request: DeliverRequest)
    requires chunkSize > 0 && FlightOkIn(replicaId, chunkSize, next, started, accepted, request)
    requires request.payload.Header?
    ensures HeaderOk(request.payload)
    ensures var st := NewReceiverState(request.sender, request.payload);
            ReceiverOk(st) && SessionOk(chunkSize, started, map[0 := request.payload.snapshotId], st)
  {
    var snapshot := started[request.payload.snapshotId];
    CountsAgree(snapshot.data, chunkSize);
    HeaderReceiverOk(request.sender, request.payload);
    assert IsPartOf(started, chunkSize, Parts(snapshot, chunkSize), 0, request.payload.snapshotId,
                    request.payload.contents);
  }

  /** An accepted chunk joins the session, with the transfer it was sent in as its source. */
  lemma ChunkJoins(
      replicaId: nat, chunkSize: nat, next: nat, started: map<nat, RaftSnapshot>, accepted: map<nat, set<nat>>,
      sources: map<nat, nat>, st: ReceiverState, request: DeliverRequest)
    requires chunkSize > 0 && FlightOkIn(replicaId, chunkSize, next, started, accepted, request)
    requires request.payload.Chunk? && ReceiverOk(st) && SessionOk(chunkSize, started, sources, st)
    requires Accepts(st, request.sender, request.payload.chunkIndex, request.payload.contents)
    ensures SessionOk(chunkSize, started, SourcesAfter(sources, request.payload),
                      st.(chunks := st.chunks[request.payload.chunkIndex := request.payload.contents]))
  {
    var index, contents, id := request.payload.chunkIndex, request.payload.contents, request.payload.snapshotId;
    var parts := Parts(started[st.snapshotId], chunkSize);
    ExpectedLength(started[st.snapshotId], chunkSize, st, index);
    assert IsPartOf(started, chunkSize, parts, index, id, contents);
    var chunks, after := st.chunks[index := contents], sources[index := id];
    forall i | i in chunks ensures IsPartOf(started, chunkSize, parts, i, after[i], chunks[i]) {
      if i != index {
        assert IsPartOf(started, chunkSize, parts, i, sources[i], st.chunks[i]);
      }
    }
  }

  /** The state a leader's request leads the receiver to, if it is accepted. */
  lemma AcceptedSession(w: World, d: nat)
    requires Inv(w) && Enabled(w, Process(d))
    requires ReceiveRequest(w.receiver, w.inFlight[d]).1.status == Accepted
    ensures var (after, payload) := ReceiveRequest(w.receiver, w.inFlight[d]);
            && payload == ResponsePayload(w.inFlight[d].payload.snapshotId, IndexOf(w.inFlight[d].payload), Accepted)
            && after.Some? && ReceiverOk(after.value) && after.value.senderId == w.sender.replicaId
            && SessionOk(w.sender.chunkSize, w.started, SourcesAfter(w.sources, w.inFlight[d].payload), after.value)
  {
    var request, s := w.inFlight[d], w.sender;
    assert FlightOk(w, request);
    ReceivedOk(w.receiver, request);
    if request.payload.Header? {
      HeaderOpens(s.replicaId, s.chunkSize, s.nextDeliveryId, w.started, w.accepted, request);
    } else {
      assert ReceivingOk(w);
      ChunkJoins(s.replicaId, s.chunkSize, s.nextDeliveryId, w.started, w.accepted, w.sources, w.receiver.value,
                 request);
    }
  }

  /** One more index of a transfer accepted. */
  ghost function WithAccepted(w: World, id: nat, index: nat): World {
    w.(accepted := AlsoAccepted(w.accepted, id, index))
  }

  lemma SendingAfterAccept(w: World, id: nat, index: nat)
    requires SendingOk(w)
    requires w.replica in w.sender.receivers && w.sender.receivers[w.replica].snapshotId == id ==>
               index < w.sender.receivers[w.replica].nextChunkIndex
    ensures SendingOk(WithAccepted(w, id, index))
  {
    if w.replica in w.sender.receivers {
      var st := w.sender.receivers[w.replica];
      var got := AcceptedOf(WithAccepted(w, id, index).accepted, st.snapshotId);
      forall i | i in got ensures i < st.nextChunkIndex {
        assert i in AcceptedOf(w.accepted, st.snapshotId) || (st.snapshotId == id && i == index);
      }
    }
  }

  lemma ResponsesAfterAccept(
      responses: set<(nat, ResponsePayload)>, accepted: map<nat, set<nat>>, d: nat, id: nat, index: nat)
    requires ResponsesOk(responses, accepted)
    ensures ResponsesOk(responses + {(d, ResponsePayload(id, index, Accepted))}, AlsoAccepted(accepted, id, index))
  {
  }

  ghost function AfterAccept(w: World, d: nat, id: nat, index: nat): World {
    WithAccepted(w, id, index).(responses := w.responses + {(d, ResponsePayload(id, index, Accepted))})
  }

  /** An accepted index is recorded and answered. */
  lemma AcceptQuietly(w: World, d: nat, id: nat, index: nat)
    requires Inv(w) && id in w.started && index < |Parts(w.started[id], w.sender.chunkSize)|
    requires index !in AcceptedOf(w.accepted, id)
    requires forall e | e in w.inFlight ::
               !(w.inFlight[e].payload.snapshotId == id && IndexOf(w.inFlight[e].payload) == index)
    requires w.replica in w.sender.receivers && w.sender.receivers[w.replica].snapshotId == id ==>
               index < w.sender.receivers[w.replica].nextChunkIndex
    ensures Inv(AfterAccept(w, d, id, index))
  {
    var s := w.sender;
    FlightsAccept(s.replicaId, s.chunkSize, s.nextDeliveryId, w.started, w.accepted, w.inFlight, id, index);
    StartedAccept(s.chunkSize, s.nextSnapshotId, w.started, w.accepted, w.finished, id, index);
    SendingAfterAccept(w, id, index);
    ResponsesAfterAccept(w.responses, w.accepted, d, id, index);
  }

  /** A session with all its chunks hands on what its sources say, and then is complete. */
  lemma SessionHandsOn(chunkSize: nat, started: map<nat, RaftSnapshot>, sources: map<nat, nat>, st: ReceiverState)
    requires chunkSize > 0 && ReceiverOk(st) && SessionOk(chunkSize, started, sources, st)
    requires |st.chunks| == st.chunkCount
    ensures CompleteSession(started, chunkSize, Session(st.snapshotId, sources))
    ensures Completion(Some(st)) ==
            Some(Ok((st.senderId, HandedOn(started, chunkSize, Session(st.snapshotId, sources)))))
  {
    var chunks := ChunksOf(started, chunkSize, sources);
    forall i | i in st.chunks ensures i in chunks && chunks[i] == st.chunks[i] {
      assert IsPartOf(started, chunkSize, Parts(started[st.snapshotId], chunkSize), i, sources[i], st.chunks[i]);
    }
    assert chunks == st.chunks;
    Pigeonhole(st.chunks.Keys, st.chunkCount);
  }

  lemma OneProduced(replicaId: nat, chunkSize: nat, started: map<nat, RaftSnapshot>, s: Session)
    requires chunkSize > 0 && CompleteSession(started, chunkSize, s)
    ensures ProducedOk(replicaId, chunkSize, started, {s}, {(replicaId, HandedOn(started, chunkSize, s))})
  {
    assert s in {s};
  }

  /** What the poll after an accepted request hands on, and the session it records. */
  lemma PollRecords(
      replicaId: nat, chunkSize: nat, started: map<nat, RaftSnapshot>, sources: map<nat, nat>, st: ReceiverState)
    requires chunkSize > 0 && ReceiverOk(st) && SessionOk(chunkSize, started, sources, st) && st.senderId == replicaId
    ensures var done := Completion(Some(st));
            && (done.None? <==> |st.chunks| != st.chunkCount)
            && ProducedOk(replicaId, chunkSize, started,
                          if done.Some? then {Session(st.snapshotId, sources)} else {}, Output(done))
  {
    if |st.chunks| == st.chunkCount {
      SessionHandsOn(chunkSize, started, sources, st);
      OneProduced(replicaId, chunkSize, started, Session(st.snapshotId, sources));
    }
  }

  /** The receiver, polled, with what it hands on. */
  ghost function AfterPoll(w: World, sources: map<nat, nat>, st: ReceiverState): World
    requires ReceiverOk(st)
  {
    var done := Completion(Some(st));
    w.(receiver := if done.Some? then None else Some(st), sources := sources, produced := w.produced + Output(done),
       sessions := w.sessions + if done.Some? then {Session(st.snapshotId, sources)} else {})
  }

  lemma PollStep(w: World, sources: map<nat, nat>, st: ReceiverState)
    requires Inv(w) && ReceiverOk(st) && st.senderId == w.sender.replicaId
    requires SessionOk(w.sender.chunkSize, w.started, sources, st)
    ensures Inv(AfterPoll(w, sources, st))
  {
    var done, s := Completion(Some(st)), w.sender;
    PollRecords(s.replicaId, s.chunkSize, w.started, sources, st);
    ProducedAlso(s.replicaId, s.chunkSize, w.started, w.sessions,
                 if done.Some? then {Session(st.snapshotId, sources)} else {}, w.produced, Output(done));
  }

  /** With a request off the network, nothing else there carries its chunk. */
  lemma TakenIsUnique(w: World, d: nat)
    requires Inv(w) && d in w.inFlight
    ensures var payload := w.inFlight[d].payload;
            var rest := w.inFlight - {d};
            && Carries(payload)
            && (forall e | e in rest ::
                  Carries(rest[e].payload) &&
                  !(rest[e].payload.snapshotId == payload.snapshotId && IndexOf(rest[e].payload) == IndexOf(payload)))
            && (w.replica in w.sender.receivers && w.sender.receivers[w.replica].snapshotId == payload.snapshotId ==>
                  IndexOf(payload) < w.sender.receivers[w.replica].nextChunkIndex)
  {
    assert FlightOk(w, w.inFlight[d]);
    forall e | e in w.inFlight && e != d
      ensures Carries(w.inFlight[e].payload) && !SameChunk(w.inFlight[e].payload, w.inFlight[d].payload)
    {
      assert FlightOk(w, w.inFlight[e]);
    }
  }

  ghost function WithoutRequest(w: World, d: nat): World {
    w.(inFlight := w.inFlight - {d}, responses := w.responses)
  }

  lemma AcceptedNext(w: World, d: nat)
    requires Enabled(w, Process(d)) && Carries(w.inFlight[d].payload)
    requires var (after, payload) := ReceiveRequest(w.receiver, w.inFlight[d]);
             && payload == ResponsePayload(w.inFlight[d].payload.snapshotId, IndexOf(w.inFlight[d].payload), Accepted)
             && after.Some? && ReceiverOk(after.value)
    ensures var payload := w.inFlight[d].payload;
            Next(w, Process(d)) ==
            AfterPoll(AfterAccept(WithoutRequest(w, d), d, payload.snapshotId, IndexOf(payload)),
                      SourcesAfter(w.sources, payload), ReceiveRequest(w.receiver, w.inFlight[d]).0.value)
  {
  }

  lemma AnsweredIsInv(w: World, d: nat)
    requires Inv(w) && d in w.inFlight
    ensures var payload := w.inFlight[d].payload;
            Inv(AfterAccept(WithoutRequest(w, d), d, payload.snapshotId, IndexOf(payload)))
  {
    RemoveStep(w, d, w.responses);
    TakenIsUnique(w, d);
    assert FlightOk(w, w.inFlight[d]);
    AcceptQuietly(WithoutRequest(w, d), d, w.inFlight[d].payload.snapshotId, IndexOf(w.inFlight[d].payload));
  }

  lemma AcceptedStep(w: World, d: nat)
    requires Inv(w) && Enabled(w, Process(d))
    requires ReceiveRequest(w.receiver, w.inFlight[d]).1.status == Accepted
    ensures Inv(Next(w, Process(d)))
  {
    var st, payload := ReceiveRequest(w.receiver, w.inFlight[d]).0.value, w.inFlight[d].payload;
    AcceptedSession(w, d);
    AnsweredIsInv(w, d);
    PollStep(AfterAccept(WithoutRequest(w, d), d, payload.snapshotId, IndexOf(payload)),
             SourcesAfter(w.sources, payload), st);
    AcceptedNext(w, d);
  }

  lemma ResponsesAfterReject(
      responses: set<(nat, ResponsePayload)>, accepted: map<nat, set<nat>>, d: nat, answer: ResponsePayload)
    requires ResponsesOk(responses, accepted) && answer.status != Accepted
    ensures ResponsesOk(responses + {(d, answer)}, accepted)
  {
  }

  lemma RejectedNext(w: World, d: nat)
    requires Enabled(w, Process(d)) && ReceiveRequest(w.receiver, w.inFlight[d]).1.status != Accepted
    requires w.inFlight[d].payload.Chunk? && Completion(w.receiver) == None
    ensures Next(w, Process(d)) ==
            w.(inFlight := w.inFlight - {d},
               responses := w.responses + {(d, ReceiveRequest(w.receiver, w.inFlight[d]).1)})
  {
    assert w.produced + {} == w.produced && w.sessions + {} == w.sessions;
  }

  lemma NothingToYield(w: World)
    requires Inv(w)
    ensures (w.receiver.Some? ==> ReceiverOk(w.receiver.value)) && Completion(w.receiver) == None
  {
  }

  /** Sessions are polled when they complete, so there is nothing to yield in between. */
  lemma RejectedStep(w: World, d: nat)
    requires Inv(w) && Enabled(w, Process(d))
    requires ReceiveRequest(w.receiver, w.inFlight[d]).1.status != Accepted
    ensures Inv(Next(w, Process(d)))
  {
    var answer := ReceiveRequest(w.receiver, w.inFlight[d]).1;
    ResponsesAfterReject(w.responses, w.accepted, d, answer);
    RemoveStep(w, d, w.responses + {(d, answer)});
    assert FlightOk(w, w.inFlight[d]);
    NothingToYield(w);
    RejectedNext(w, d);
  }

  lemma RefuseStep(w: World, d: nat)
    requires Inv(w) && Enabled(w, Refuse(d))
    ensures Inv(Next(w, Refuse(d)))
  {
    var answer := Refusal(w.inFlight[d].payload);
    ResponsesAfterReject(w.responses, w.accepted, d, answer);
    RemoveStep(w, d, w.responses + {(d, answer)});
  }

  lemma InvIsInductive(w: World, a: Action)
    requires Inv(w) && Enabled(w, a)
    ensures Inv(Next(w, a))
  {
    match a
    case Start(r, snapshot) => StartStep(w, r, snapshot);
    case Send(r) => SendStep(w, r);
    case Lose(d) => RemoveStep(w, d, w.responses);
    case Process(d) =>
      if ReceiveRequest(w.receiver, w.inFlight[d]).1.status == Accepted {
        AcceptedStep(w, d);
      } else {
        RejectedStep(w, d);
      }
    case Refuse(d) => RefuseStep(w, d);
    case ProcessForeign(request) => ForeignStep(w, request);
    case Respond(d, payload) => RespondStep(w, d, payload);
    case Fail(r, d, delivery) => FailStep(w, r, d, delivery);
    case Complete(r) => CompleteStep(w, r);
    case ResetSender => ResetSenderStep(w);
    case ResetReceiver =>
      ReceiverOnlyStep(w, None, {});
      assert w.produced + {} == w.produced;
  }

  // ----- Runs -----

  ghost predicate IsRun(worlds: seq<World>, actions: seq<Action>) {
    && |worlds| == |actions| + 1 && Init(worlds[0])
    && forall i {:trigger actions[i]} | 0 <= i < |actions| ::
         Enabled(worlds[i], actions[i]) && worlds[i + 1] == Next(worlds[i], actions[i])
  }

  lemma InitIsInv(w: World)
    requires Init(w)
    ensures Inv(w)
  {
  }

  lemma {:induction false} InvInRun(worlds: seq<World>, actions: seq<Action>, i: nat)
    requires IsRun(worlds, actions) && i < |worlds|
    ensures Inv(worlds[i])
  {
    if i == 0 {
      InitIsInv(worlds[0]);
    } else {
      InvInRun(worlds, actions, i - 1);
      InvIsInductive(worlds[i - 1], actions[i - 1]);
    }
  }

  // ----- When a transfer arrives -----

  /** Two snapshots have the same part at an index. */
  ghost predicate SamePart(a: RaftSnapshot, b: RaftSnapshot, chunkSize: nat, index: nat)
    requires chunkSize > 0
  {
    index < |Parts(a, chunkSize)| && index < |Parts(b, chunkSize)| &&
    Parts(a, chunkSize)[index] == Parts(b, chunkSize)[index]
  }

  lemma {:induction false} AssembledInjective(a: map<nat, Bytes>, b: map<nat, Bytes>, n: nat)
    requires forall i: nat | i < n :: i in a && i in b && |a[i]| == |b[i]|
    ensures |Assembled(a, n)| == |Assembled(b, n)|
    ensures Assembled(a, n) == Assembled(b, n) <==> forall i: nat | i < n :: a[i] == b[i]
  {
    if n > 0 {
      AssembledInjective(a, b, n - 1);
      var x, y := Assembled(a, n - 1), Assembled(b, n - 1);
      if x + a[n - 1] == y + b[n - 1] {
        assert x == (x + a[n - 1])[..|x|] && y == (y + b[n - 1])[..|x|];
        assert a[n - 1] == (x + a[n - 1])[|x|..] && b[n - 1] == (y + b[n - 1])[|x|..];
      }
    }
  }

  /**
   With chunks of the announced lengths, the receiver yields the data of a snapshot exactly
   when the last chunk it accepted for every index is that snapshot's.
   */
  lemma AssemblyIsRightIff(data: Bytes, chunkSize: nat, chunks: map<nat, Bytes>)
    requires chunkSize > 0
    requires var parts := Split(data, chunkSize);
             forall i: nat | i < |parts| :: i in chunks && |chunks[i]| == |parts[i]|
    ensures var parts := Split(data, chunkSize);
            Assembled(chunks, |parts|) == data <==> forall i: nat | i < |parts| :: chunks[i] == parts[i]
  {
    var parts := Split(data, chunkSize);
    var right: map<nat, Bytes> := map i: nat | 0 <= i < |parts| :: parts[i];
    AssembledIsConcat(right, parts);
    ConcatOfSplit(data, chunkSize);
    AssembledInjective(chunks, right, |parts|);
  }

  /**
   The snapshots agree in metadata and size, and at every index the session's chunk was sent in a
   transfer with the same part there.
   */
  ghost predicate Delivers(started: map<nat, RaftSnapshot>, chunkSize: nat, s: Session, id: nat)
    requires chunkSize > 0 && CompleteSession(started, chunkSize, s) && id in started
  {
    && started[s.id].metadata == started[id].metadata && |started[s.id].data| == |started[id].data|
    && forall i | i in s.sources :: SamePart(started[s.sources[i]], started[id], chunkSize, i)
  }

  /** Snapshots of one size have as many parts, and as long ones. */
  lemma SameShape(a: Bytes, b: Bytes, chunkSize: nat)
    requires chunkSize > 0 && |a| == |b|
    ensures |Split(a, chunkSize)| == |Split(b, chunkSize)|
    ensures forall i | 0 <= i < |Split(a, chunkSize)| :: |Split(a, chunkSize)[i]| == |Split(b, chunkSize)[i]|
  {
    SplitCount(a, chunkSize);
    SplitCount(b, chunkSize);
    forall i | 0 <= i < |Split(a, chunkSize)| ensures |Split(a, chunkSize)[i]| == |Split(b, chunkSize)[i]| {
      SplitLength(a, chunkSize, i);
      SplitLength(b, chunkSize, i);
    }
  }

  /** Chunks as long as a snapshot's parts assemble to as many bytes as it has. */
  lemma AssembledSize(data: Bytes, chunkSize: nat, chunks: map<nat, Bytes>)
    requires chunkSize > 0
    requires forall i: nat | i < |Split(data, chunkSize)| :: i in chunks && |chunks[i]| == |Split(data, chunkSize)[i]|
    ensures |Assembled(chunks, |Split(data, chunkSize)|)| == |data|
  {
    var parts := Split(data, chunkSize);
    var right: map<nat, Bytes> := map i: nat | 0 <= i < |parts| :: parts[i];
    AssembledIsConcat(right, parts);
    ConcatOfSplit(data, chunkSize);
    AssembledInjective(chunks, right, |parts|);
  }

  lemma CompleteChunks(started: map<nat, RaftSnapshot>, chunkSize: nat, s: Session)
    requires chunkSize > 0 && CompleteSession(started, chunkSize, s)
    ensures var parts, chunks := Parts(started[s.id], chunkSize), ChunksOf(started, chunkSize, s.sources);
            forall i: nat | i < |parts| ::
              && i in chunks && i in s.sources && |chunks[i]| == |parts[i]|
              && s.sources[i] in started && i < |Parts(started[s.sources[i]], chunkSize)|
              && chunks[i] == Parts(started[s.sources[i]], chunkSize)[i]
  {
    var parts, chunks := Parts(started[s.id], chunkSize), ChunksOf(started, chunkSize, s.sources);
    forall i: nat | i < |parts|
      ensures i in chunks && IsPartOf(started, chunkSize, parts, i, s.sources[i], chunks[i])
    {
      assert i in Below(|parts|);
    }
  }

  /** A session that completed handed on a snapshot exactly when it delivers it. */
  lemma HandsOnIff(started: map<nat, RaftSnapshot>, chunkSize: nat, s: Session, id: nat)
    requires chunkSize > 0 && CompleteSession(started, chunkSize, s) && id in started
    ensures HandedOn(started, chunkSize, s) == started[id] <==> Delivers(started, chunkSize, s, id)
  {
    var chunks := ChunksOf(started, chunkSize, s.sources);
    CompleteChunks(started, chunkSize, s);
    AssembledSize(started[s.id].data, chunkSize, chunks);
    if |started[s.id].data| == |started[id].data| {
      var parts := Parts(started[id], chunkSize);
      SameShape(started[s.id].data, started[id].data, chunkSize);
      AssemblyIsRightIff(started[id].data, chunkSize, chunks);
      forall i: nat | i < |parts|
        ensures chunks[i] == parts[i] <==> SamePart(started[s.sources[i]], started[id], chunkSize, i)
      {
      }
      assert forall i: nat :: i in s.sources <==> i < |parts|;
    }
  }

  ghost predicate IsDelivered(
      started: map<nat, RaftSnapshot>, chunkSize: nat, sessions: set<Session>, id: nat)
    requires chunkSize > 0 && id in started
  {
    exists s :: s in sessions && CompleteSession(started, chunkSize, s) && Delivers(started, chunkSize, s, id)
  }

  lemma ProducedIff(w: World, id: nat)
    requires Inv(w) && id in w.started
    ensures (w.sender.replicaId, w.started[id]) in w.produced <==>
            IsDelivered(w.started, w.sender.chunkSize, w.sessions, id)
  {
    if (w.sender.replicaId, w.started[id]) in w.produced {
      assert IsHandedOn(w.sender.chunkSize, w.started, w.sessions, w.started[id]);
      var s :| s in w.sessions && CompleteSession(w.started, w.sender.chunkSize, s) &&
               HandedOn(w.started, w.sender.chunkSize, s) == w.started[id];
      HandsOnIff(w.started, w.sender.chunkSize, s, id);
    }
    if s :| s in w.sessions && CompleteSession(w.started, w.sender.chunkSize, s) &&
            Delivers(w.started, w.sender.chunkSize, s, id) {
      HandsOnIff(w.started, w.sender.chunkSize, s, id);
    }
  }

  /**
   End to end, with nothing asked of the run: a transfer reported as finished was accepted in
   full, and the receiver handed on exactly its snapshot, data and metadata, if and only if some
   session that completed was opened with its metadata and size and holds, at every index, a chunk
   sent in a transfer that has the same part there.
   */
  lemma FinishedArrivesIff(worlds: seq<World>, actions: seq<Action>, i: nat, id: nat)
    requires IsRun(worlds, actions) && i < |worlds| && id in worlds[i].finished
    ensures id in worlds[i].started && worlds[i].sender.chunkSize > 0
    ensures AcceptedOf(worlds[i].accepted, id) == Below(|Parts(worlds[i].started[id], worlds[i].sender.chunkSize)|)
    ensures (worlds[i].sender.replicaId, worlds[i].started[id]) in worlds[i].produced <==>
            IsDelivered(worlds[i].started, worlds[i].sender.chunkSize, worlds[i].sessions, id)
  {
    InvInRun(worlds, actions, i);
    ProducedIff(worlds[i], id);
  }

  /** Whatever was handed on as the leader's was assembled from parts of transfers it started. */
  lemma ProducedIsAssembled(worlds: seq<World>, actions: seq<Action>, i: nat, snapshot: RaftSnapshot)
    requires IsRun(worlds, actions) && i < |worlds|
    requires (worlds[i].sender.replicaId, snapshot) in worlds[i].produced
    ensures worlds[i].sender.chunkSize > 0
    ensures IsHandedOn(worlds[i].sender.chunkSize, worlds[i].started, worlds[i].sessions, snapshot)
  {
    InvInRun(worlds, actions, i);
  }
}
