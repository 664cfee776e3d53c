/**
 Runs in which a transfer is reported as finished although its snapshot was never handed on. Bytes
 travel one by one, from sender `1` to replica `2`.
 */
module SnapshotMixup {
  import opened Wrappers
  import opened Snapshot
  import opened Paths
  import opened SnapshotTransfer

  ghost predicate IsStep(w: World, a: Action, after: World) {
    Enabled(w, a) && after == Next(w, a)
  }

  lemma RunOf(w: World, actions: seq<Action>, after: World) returns (worlds: seq<World>)
    requires Init(w) && Leads(IsStep, w, actions, after)
    ensures IsRun(worlds, actions) && worlds[|actions|] == after
  {
    worlds := StatesOf(IsStep, w, actions, after);
    forall i {:trigger actions[i]} | 0 <= i < |actions|
      ensures Enabled(worlds[i], actions[i]) && worlds[i + 1] == Next(worlds[i], actions[i])
    {
      assert IsStep(worlds[i], actions[i], worlds[i + 1]);
    }
  }

  // ----- The sender -----

  lemma Singles(data: Bytes)
    requires data != []
    ensures |Split(data, 1)| == |data|
    ensures forall i | 0 <= i < |data| :: Split(data, 1)[i] == [data[i]]
  {
    SplitCount(data, 1);
    forall i | 0 <= i < |data| ensures Split(data, 1)[i] == [data[i]] {
      SplitAt(data, 1, i);
      assert data[i..i + 1] == [data[i]];
    }
  }

  /** Delivery ids from `d` on, with the indices sent under them. */
  ghost function Numbered(d: nat, low: nat, high: nat): map<nat, nat> {
    if high <= low then map[] else Numbered(d, low, high - 1)[d + high - 1 := high - 1]
  }

  lemma {:induction false} NumberedKeys(d: nat, low: nat, high: nat)
    requires low <= high
    ensures |Numbered(d, low, high)| == high - low
    ensures forall e | e in Numbered(d, low, high) :: d + low <= e < d + high
    ensures low < high ==> d + low in Numbered(d, low, high) && Numbered(d, low, high)[d + low] == low
    ensures low < high ==> Numbered(d, low, high) - {d + low} == Numbered(d, low + 1, high)
    decreases high
  {
    if low < high {
      NumberedKeys(d, low, high - 1);
    }
  }

  /** A transfer whose requests go out from delivery id `d` on, `next` sent and `sent` of them acknowledged. */
  ghost function Transfer(id: nat, snapshot: RaftSnapshot, d: nat, next: nat, sent: nat): SenderState {
    SenderState(id, snapshot.metadata, snapshot.data, 1, |snapshot.data|, next, sent, Numbered(d, sent, next), None)
  }

  /** The sender is at this point of this transfer, with room for all of it. */
  ghost predicate IsSending(w: World, id: nat, snapshot: RaftSnapshot, d: nat, next: nat, sent: nat) {
    && w.replica == 2 && w.sender.replicaId == 1 && w.sender.chunkSize == 1
    && 0 < |snapshot.data| <= w.sender.maxPendingChunks
    && w.sender.receivers == map[2 := Transfer(id, snapshot, d, next, sent)]
  }

  ghost function RequestOf(id: nat, snapshot: RaftSnapshot, d: nat, index: nat): DeliverRequest
    requires index < |snapshot.data|
  {
    DeliverRequest(
      2, 1, d,
      if index == 0 then Header(id, |snapshot.data|, Some(snapshot.metadata), [snapshot.data[0]])
      else Chunk(id, index, [snapshot.data[index]]))
  }

  lemma Starts(w: World, snapshot: RaftSnapshot) returns (actions: seq<Action>, after: World)
    requires w.replica == 2 && w.sender.replicaId == 1 && w.sender.chunkSize == 1 && w.sender.receivers.Keys <= {2}
    requires 0 < |snapshot.data| <= w.sender.maxPendingChunks
    ensures Leads(IsStep, w, actions, after)
    ensures IsSending(after, w.sender.nextSnapshotId, snapshot, w.sender.nextDeliveryId, 0, 0)
    ensures after == w.(sender := after.sender, started := w.started[w.sender.nextSnapshotId := snapshot])
    ensures after.sender.nextSnapshotId == w.sender.nextSnapshotId + 1
    ensures after.sender.nextDeliveryId == w.sender.nextDeliveryId
    ensures after.sender.maxPendingChunks == w.sender.maxPendingChunks
  {
    Singles(snapshot.data);
    actions := OneStep(IsStep, w, Start(2, snapshot), Next(w, Start(2, snapshot)));
    after := Next(w, Start(2, snapshot));
    var st := Transfer(w.sender.nextSnapshotId, snapshot, w.sender.nextDeliveryId, 0, 0);
    assert st.pending == map[];
    assert after.sender.receivers == map[2 := st];
  }

  lemma HasRoomFor(s: Sender, st: SenderState)
    requires s.receivers == map[2 := st] && |st.pending| < s.maxPendingChunks
    ensures HasRoom(s)
  {
    PendingSplit(s.receivers, 2);
    assert PendingPairs(s.receivers.Keys - {2}, s.receivers) == {};
  }

  lemma TransferNext(id: nat, snapshot: RaftSnapshot, d: nat, next: nat)
    requires next < |snapshot.data| == |Split(snapshot.data, 1)|
    ensures NextChunk(Transfer(id, snapshot, d, next, 0), d + next) ==
            (Transfer(id, snapshot, d, next + 1, 0), RequestOf(id, snapshot, d + next, next).payload)
  {
    Singles(snapshot.data);
  }

  lemma SendIs(w: World, st: SenderState, sent: SenderState, payload: Payload)
    requires w.replica == 2 && w.sender.receivers == map[2 := st] && HasRoom(w.sender) && CanSend(w.sender, 2)
    requires NextChunk(st, w.sender.nextDeliveryId) == (sent, payload)
    ensures var d := w.sender.nextDeliveryId;
            Next(w, Send(2)) ==
            w.(sender := w.sender.(receivers := map[2 := sent], nextDeliveryId := d + 1),
               inFlight := w.inFlight[d := DeliverRequest(2, w.sender.replicaId, d, payload)])
  {
    assert map[2 := st][2 := sent] == map[2 := sent];
  }

  lemma CanSendNext(w: World, id: nat, snapshot: RaftSnapshot, d: nat, next: nat)
    requires IsSending(w, id, snapshot, d, next, 0) && next < |snapshot.data|
    ensures HasRoom(w.sender) && CanSend(w.sender, 2) && |Split(snapshot.data, 1)| == |snapshot.data|
  {
    Singles(snapshot.data);
    NumberedKeys(d, 0, next);
    HasRoomFor(w.sender, Transfer(id, snapshot, d, next, 0));
  }

  lemma SendsOne(w: World, id: nat, snapshot: RaftSnapshot, d: nat, next: nat)
    returns (actions: seq<Action>, after: World)
    requires IsSending(w, id, snapshot, d, next, 0) && next < |snapshot.data| && w.sender.nextDeliveryId == d + next
    ensures Leads(IsStep, w, actions, after)
    ensures after == w.(sender := w.sender.(receivers := map[2 := Transfer(id, snapshot, d, next + 1, 0)],
                                            nextDeliveryId := d + next + 1),
                        inFlight := w.inFlight[d + next := RequestOf(id, snapshot, d + next, next)])
  {
    CanSendNext(w, id, snapshot, d, next);
    TransferNext(id, snapshot, d, next);
    SendIs(w, Transfer(id, snapshot, d, next, 0), Transfer(id, snapshot, d, next + 1, 0),
           RequestOf(id, snapshot, d + next, next).payload);
    actions := OneStep(IsStep, w, Send(2), Next(w, Send(2)));
    after := Next(w, Send(2));
  }

  ghost predicate TravelsAt(w: World, id: nat, snapshot: RaftSnapshot, d: nat, index: nat)
    requires index < |snapshot.data|
  {
    d + index in w.inFlight && w.inFlight[d + index] == RequestOf(id, snapshot, d + index, index)
  }

  /** The requests of a transfer from one delivery id on. */
  ghost predicate Travels(w: World, id: nat, snapshot: RaftSnapshot, d: nat, n: nat)
    requires n <= |snapshot.data|
  {
    forall i: nat | i < n :: TravelsAt(w, id, snapshot, d, i)
  }

  lemma TravelsOn(w: World, id: nat, snapshot: RaftSnapshot, d: nat, n: nat, after: World)
    requires n < |snapshot.data| && Travels(w, id, snapshot, d, n)
    requires after.inFlight == w.inFlight[d + n := RequestOf(id, snapshot, d + n, n)]
    ensures Travels(after, id, snapshot, d, n + 1)
  {
    forall i: nat | i < n + 1 ensures TravelsAt(after, id, snapshot, d, i) {
      if i < n {
        assert TravelsAt(w, id, snapshot, d, i);
      }
    }
  }

  /** The world once the first requests of a transfer went out. */
  ghost predicate HasSent(w: World, id: nat, snapshot: RaftSnapshot, n: nat, after: World)
    requires n <= |snapshot.data|
  {
    var d := w.sender.nextDeliveryId;
    && after == w.(sender := w.sender.(receivers := map[2 := Transfer(id, snapshot, d, n, 0)], nextDeliveryId := d + n),
                   inFlight := after.inFlight)
    && Travels(after, id, snapshot, d, n)
    && (forall e | e in w.inFlight && e < d :: e in after.inFlight && after.inFlight[e] == w.inFlight[e])
  }

  lemma SendsOn(w: World, id: nat, snapshot: RaftSnapshot, n: nat, middle: World)
    returns (actions: seq<Action>, after: World)
    requires IsSending(w, id, snapshot, w.sender.nextDeliveryId, 0, 0) && n < |snapshot.data|
    requires HasSent(w, id, snapshot, n, middle)
    ensures Leads(IsStep, middle, actions, after) && HasSent(w, id, snapshot, n + 1, after)
  {
    actions, after := SendsOne(middle, id, snapshot, w.sender.nextDeliveryId, n);
    TravelsOn(middle, id, snapshot, w.sender.nextDeliveryId, n, after);
  }

  lemma {:induction false} Sends(w: World, id: nat, snapshot: RaftSnapshot, n: nat)
    returns (actions: seq<Action>, after: World)
    requires IsSending(w, id, snapshot, w.sender.nextDeliveryId, 0, 0) && n <= |snapshot.data|
    ensures Leads(IsStep, w, actions, after) && HasSent(w, id, snapshot, n, after)
  {
    if n == 0 {
      actions, after := [], w;
    } else {
      var some, middle := Sends(w, id, snapshot, n - 1);
      var last;
      last, after := SendsOn(w, id, snapshot, n - 1, middle);
      actions := Joined(IsStep, w, some, middle, last, after);
    }
  }

  // ----- The receiver -----

  /** A session for a transfer of sender `1`. */
  ghost function Receiving(id: nat, snapshot: RaftSnapshot, chunks: map<nat, Bytes>): ReceiverState {
    ReceiverState(1, id, |snapshot.data|, Some(snapshot.metadata), 1, |snapshot.data|, chunks)
  }

  lemma ReceivingIsOk(id: nat, snapshot: RaftSnapshot, chunks: map<nat, Bytes>)
    requires snapshot.data != [] && forall i | i in chunks :: i < |snapshot.data|
    ensures ReceiverOk(Receiving(id, snapshot, chunks))
  {
    forall i | i in chunks.Keys ensures i in Below(|snapshot.data|) {
    }
  }

  /** A request is answered with acceptance, and the receiver left in this state. */
  ghost predicate Took(w: World, d: nat, id: nat, index: nat, receiver: Option<ReceiverState>, after: World) {
    && after.replica == w.replica && after.sender == w.sender && after.started == w.started
    && after.finished == w.finished && after.inFlight == w.inFlight - {d} && after.receiver == receiver
    && after.responses == w.responses + {(d, ResponsePayload(id, index, Accepted))}
  }

  lemma Processes(w: World, d: nat, st: ReceiverState, id: nat, index: nat)
    returns (actions: seq<Action>, after: World)
    requires d in w.inFlight && CanReceive(w.receiver, w.inFlight[d]) && ReceiverOk(st)
    requires ReceiveRequest(w.receiver, w.inFlight[d]) == (Some(st), ResponsePayload(id, index, Accepted))
    ensures Leads(IsStep, w, actions, after)
    ensures Took(w, d, id, index, if Completion(Some(st)).Some? then None else Some(st), after)
    ensures after.produced == w.produced + Output(Completion(Some(st)))
  {
    actions := OneStep(IsStep, w, Process(d), Next(w, Process(d)));
    after := Next(w, Process(d));
  }

  lemma TakesHeader(w: World, d: nat, id: nat, snapshot: RaftSnapshot) returns (actions: seq<Action>, after: World)
    requires |snapshot.data| > 1 && w.receiver == None
    requires d in w.inFlight && w.inFlight[d] == RequestOf(id, snapshot, d, 0)
    ensures Leads(IsStep, w, actions, after) && after.produced == w.produced
    ensures Took(w, d, id, 0, Some(Receiving(id, snapshot, map[0 := [snapshot.data[0]]])), after)
  {
    var chunks: map<nat, Bytes> := map[0 := [snapshot.data[0]]];
    ReceivingIsOk(id, snapshot, chunks);
    assert |chunks| == 1;
    assert w.produced + {} == w.produced;
    actions, after := Processes(w, d, Receiving(id, snapshot, chunks), id, 0);
  }

  /** A chunk is taken whatever transfer it is of; the session is not complete yet. */
  lemma TakesChunk(
      w: World, d: nat, own: nat, snapshot: RaftSnapshot, chunks: map<nat, Bytes>, id: nat, index: nat, byte: nat)
    returns (actions: seq<Action>, after: World)
    requires snapshot.data != [] && index < |snapshot.data| && (forall i | i in chunks :: i < |snapshot.data|)
    requires w.receiver == Some(Receiving(own, snapshot, chunks))
    requires d in w.inFlight && w.inFlight[d] == DeliverRequest(2, 1, d, Chunk(id, index, [byte]))
    requires |chunks[index := [byte]]| != |snapshot.data|
    ensures Leads(IsStep, w, actions, after) && after.produced == w.produced
    ensures Took(w, d, id, index, Some(Receiving(own, snapshot, chunks[index := [byte]])), after)
  {
    ReceivingIsOk(own, snapshot, chunks);
    ReceivingIsOk(own, snapshot, chunks[index := [byte]]);
    assert w.produced + {} == w.produced;
    actions, after := Processes(w, d, Receiving(own, snapshot, chunks[index := [byte]]), id, index);
  }

  /** The chunk that completes the session makes the receiver hand on what it holds. */
  lemma TakesLast(
      w: World, d: nat, own: nat, snapshot: RaftSnapshot, chunks: map<nat, Bytes>, id: nat, index: nat, byte: nat,
      all: map<nat, Bytes>)
    returns (actions: seq<Action>, after: World)
    requires snapshot.data != [] && index < |snapshot.data| && (forall i | i in chunks :: i < |snapshot.data|)
    requires w.receiver == Some(Receiving(own, snapshot, chunks))
    requires d in w.inFlight && w.inFlight[d] == DeliverRequest(2, 1, d, Chunk(id, index, [byte]))
    requires all == chunks[index := [byte]] && all.Keys == Below(|snapshot.data|)
    ensures forall i: nat | i < |snapshot.data| :: i in all
    ensures Leads(IsStep, w, actions, after) && Took(w, d, id, index, None, after)
    ensures after.produced ==
            w.produced + {(1, RaftSnapshot(snapshot.metadata, Assembled(all, |snapshot.data|)))}
  {
    ReceivingIsOk(own, snapshot, chunks);
    ReceivingIsOk(own, snapshot, all);
    assert |all| == |all.Keys| == |snapshot.data|;
    assert forall i: nat | i < |snapshot.data| :: i in Below(|snapshot.data|);
    actions, after := Processes(w, d, Receiving(own, snapshot, all), id, index);
  }

  // ----- The report -----

  ghost predicate AllAnswered(w: World, id: nat, d: nat, n: nat) {
    forall i: nat | i < n :: (d + i, ResponsePayload(id, i, Accepted)) in w.responses
  }

  lemma Heard(id: nat, snapshot: RaftSnapshot, d: nat, sent: nat)
    requires sent < |snapshot.data|
    ensures Delivered(Transfer(id, snapshot, d, |snapshot.data|, sent), d + sent,
                      Answer(ResponsePayload(id, sent, Accepted))) ==
            Transfer(id, snapshot, d, |snapshot.data|, sent + 1)
  {
    NumberedKeys(d, sent, |snapshot.data|);
  }

  lemma RespondIs(w: World, d: nat, payload: ResponsePayload, st: SenderState, heard: SenderState)
    requires w.replica == 2 && w.sender.receivers == map[2 := st] && (d, payload) in w.responses
    requires Delivered(st, d, Answer(payload)) == heard
    ensures Enabled(w, Respond(d, payload))
    ensures Next(w, Respond(d, payload)) == w.(sender := w.sender.(receivers := map[2 := heard]))
  {
    assert map[2 := st][2 := heard] == map[2 := heard];
  }

  lemma {:induction false} Hears(w: World, id: nat, snapshot: RaftSnapshot, d: nat, sent: nat)
    returns (actions: seq<Action>, after: World)
    requires sent <= |snapshot.data| && IsSending(w, id, snapshot, d, |snapshot.data|, sent)
    requires AllAnswered(w, id, d, |snapshot.data|)
    ensures var n := |snapshot.data|;
            && Leads(IsStep, w, actions, after)
            && after == w.(sender := w.sender.(receivers := map[2 := Transfer(id, snapshot, d, n, n)]))
    decreases |snapshot.data| - sent
  {
    var n := |snapshot.data|;
    if sent == n {
      actions, after := [], w;
    } else {
      var a := Respond(d + sent, ResponsePayload(id, sent, Accepted));
      Heard(id, snapshot, d, sent);
      RespondIs(w, d + sent, ResponsePayload(id, sent, Accepted), Transfer(id, snapshot, d, n, sent),
                Transfer(id, snapshot, d, n, sent + 1));
      var one := OneStep(IsStep, w, a, Next(w, a));
      var middle := Next(w, a);
      var rest;
      rest, after := Hears(middle, id, snapshot, d, sent + 1);
      actions := Joined(IsStep, w, one, middle, rest, after);
    }
  }

  /** All requests were answered with acceptance, so the transfer is reported as finished. */
  lemma Reports(w: World, id: nat, snapshot: RaftSnapshot, d: nat) returns (actions: seq<Action>, after: World)
    requires IsSending(w, id, snapshot, d, |snapshot.data|, 0) && AllAnswered(w, id, d, |snapshot.data|)
    ensures Leads(IsStep, w, actions, after) && id in after.finished
    ensures after.started == w.started && after.produced == w.produced
  {
    var answers, heard := Hears(w, id, snapshot, d, 0);
    var last := OneStep(IsStep, heard, Complete(2), Next(heard, Complete(2)));
    after := Next(heard, Complete(2));
    actions := Joined(IsStep, w, answers, heard, last, after);
  }

  // ----- A mixture -----

  ghost function Begin(): World {
    World(2, Sender(1, 1, 3, 1, 1, map[]), None, map[], {}, map[], map[], {}, {}, map[], {})
  }

  lemma BeginIsInit()
    ensures Init(Begin())
  {
    assert PendingPairs({}, map[]) == {};
  }

  lemma StartsAndSends(w: World, snapshot: RaftSnapshot, n: nat) returns (actions: seq<Action>, after: World)
    requires w.replica == 2 && w.sender.replicaId == 1 && w.sender.chunkSize == 1 && w.sender.receivers.Keys <= {2}
    requires 0 < |snapshot.data| <= w.sender.maxPendingChunks && n <= |snapshot.data|
    ensures var id, d := w.sender.nextSnapshotId, w.sender.nextDeliveryId;
            && Leads(IsStep, w, actions, after) && IsSending(after, id, snapshot, d, n, 0)
            && after == w.(sender := after.sender, inFlight := after.inFlight, started := w.started[id := snapshot])
            && after.sender.nextSnapshotId == id + 1 && after.sender.nextDeliveryId == d + n
            && after.sender.maxPendingChunks == w.sender.maxPendingChunks
            && Travels(after, id, snapshot, d, n)
            && (forall e | e in w.inFlight && e < d :: e in after.inFlight && after.inFlight[e] == w.inFlight[e])
  {
    var start, middle := Starts(w, snapshot);
    var sends;
    sends, after := Sends(middle, w.sender.nextSnapshotId, snapshot, n);
    actions := Joined(IsStep, w, start, middle, sends, after);
  }

  lemma StillTravels(w: World, id: nat, snapshot: RaftSnapshot, d: nat, n: nat, after: World)
    requires n <= |snapshot.data| && Travels(w, id, snapshot, d, n)
    requires forall e | e in w.inFlight && e < d + n :: e in after.inFlight && after.inFlight[e] == w.inFlight[e]
    ensures Travels(after, id, snapshot, d, n)
  {
    forall i: nat | i < n ensures TravelsAt(after, id, snapshot, d, i) {
      assert TravelsAt(w, id, snapshot, d, i);
    }
  }

  /** Some requests of an older transfer, and all of a newer one, are on the network. */
  lemma BothTravel(older: RaftSnapshot, newer: RaftSnapshot, n: nat) returns (actions: seq<Action>, after: World)
    requires 0 < |older.data| <= 3 && 0 < |newer.data| <= 3 && n <= |older.data|
    ensures Leads(IsStep, Begin(), actions, after) && IsSending(after, 2, newer, n + 1, |newer.data|, 0)
    ensures Travels(after, 1, older, 1, n) && Travels(after, 2, newer, n + 1, |newer.data|)
    ensures after.receiver == None && after.produced == {}
    ensures after.started == map[1 := older, 2 := newer]
  {
    var first, middle := StartsAndSends(Begin(), older, n);
    var second;
    second, after := StartsAndSends(middle, newer, |newer.data|);
    StillTravels(middle, 1, older, 1, n, after);
    actions := Joined(IsStep, Begin(), first, middle, second, after);
    assert after.started == map[][1 := older][2 := newer];
  }

  lemma ThreeAnswered(w: World, id: nat, d: nat)
    requires (d, ResponsePayload(id, 0, Accepted)) in w.responses
    requires (d + 1, ResponsePayload(id, 1, Accepted)) in w.responses
    requires (d + 2, ResponsePayload(id, 2, Accepted)) in w.responses
    ensures AllAnswered(w, id, d, 3)
  {
  }

  lemma TwoAnswered(w: World, id: nat, d: nat)
    requires (d, ResponsePayload(id, 0, Accepted)) in w.responses
    requires (d + 1, ResponsePayload(id, 1, Accepted)) in w.responses
    ensures AllAnswered(w, id, d, 2)
  {
  }

  lemma AssembledThree(chunks: map<nat, Bytes>)
    requires 0 in chunks && 1 in chunks && 2 in chunks
    ensures Assembled(chunks, 3) == chunks[0] + chunks[1] + chunks[2]
  {
    assert Assembled(chunks, 1) == [] + chunks[0];
    assert Assembled(chunks, 2) == chunks[0] + chunks[1];
  }

  lemma AssembledTwo(chunks: map<nat, Bytes>)
    requires 0 in chunks && 1 in chunks
    ensures Assembled(chunks, 2) == chunks[0] + chunks[1]
  {
    assert Assembled(chunks, 1) == [] + chunks[0];
  }

  /** The receiver takes a header, and chunk one. */
  lemma TakesTwo(w: World, d: nat, id: nat, snapshot: RaftSnapshot) returns (actions: seq<Action>, after: World)
    requires |snapshot.data| == 3 && w.receiver == None
    requires TravelsAt(w, id, snapshot, d, 0) && TravelsAt(w, id, snapshot, d, 1)
    ensures Leads(IsStep, w, actions, after) && after.produced == w.produced
    ensures Took(w.(inFlight := w.inFlight - {d}, responses := w.responses + {(d, ResponsePayload(id, 0, Accepted))}),
                 d + 1, id, 1,
                 Some(Receiving(id, snapshot, map[0 := [snapshot.data[0]]][1 := [snapshot.data[1]]])), after)
  {
    var header, middle := TakesHeader(w, d, id, snapshot);
    var first: map<nat, Bytes> := map[0 := [snapshot.data[0]]];
    TwoKeys(first, [snapshot.data[1]]);
    var chunk;
    chunk, after := TakesChunk(middle, d + 1, id, snapshot, first, id, 1, snapshot.data[1]);
    actions := Joined(IsStep, w, header, middle, chunk, after);
  }

  lemma TwoKeys(chunks: map<nat, Bytes>, contents: Bytes)
    requires chunks.Keys == {0}
    ensures chunks[1 := contents].Keys == {0, 1} == Below(2) && |chunks[1 := contents]| == 2
  {
    assert |chunks[1 := contents].Keys| == 2;
  }

  lemma ThreeKeys(chunks: map<nat, Bytes>, contents: Bytes)
    requires chunks.Keys == {0, 1}
    ensures chunks[2 := contents].Keys == Below(3)
  {
  }

  /** Chunk one is taken again, from another transfer, and then the last one. */
  lemma TakesOther(
      w: World, other: nat, byte: nat, d: nat, id: nat, snapshot: RaftSnapshot, chunks: map<nat, Bytes>)
    returns (actions: seq<Action>, after: World)
    requires |snapshot.data| == 3 && w.receiver == Some(Receiving(id, snapshot, chunks)) && chunks.Keys == {0, 1}
    requires other in w.inFlight && w.inFlight[other] == DeliverRequest(2, 1, other, Chunk(1, 1, [byte]))
    requires TravelsAt(w, id, snapshot, d, 2) && other != d + 2
    ensures Leads(IsStep, w, actions, after)
    ensures Took(w.(inFlight := w.inFlight - {other},
                    responses := w.responses + {(other, ResponsePayload(1, 1, Accepted))}), d + 2, id, 2, None, after)
    ensures after.produced ==
            w.produced + {(1, RaftSnapshot(snapshot.metadata, chunks[0] + [byte] + [snapshot.data[2]]))}
  {
    var mixed := chunks[1 := [byte]];
    assert mixed.Keys == {0, 1} && |mixed.Keys| == 2;
    var stale, middle := TakesChunk(w, other, id, snapshot, chunks, 1, 1, byte);
    ThreeKeys(mixed, [snapshot.data[2]]);
    var last;
    last, after := TakesLast(
      middle, d + 2, id, snapshot, mixed, id, 2, snapshot.data[2], mixed[2 := [snapshot.data[2]]]);
    AssembledThree(mixed[2 := [snapshot.data[2]]]);
    actions := Joined(IsStep, w, stale, middle, last, after);
  }

  lemma ThreeBytes(a: nat, b: nat, c: nat)
    ensures [a] + [b] + [c] == [a, b, c]
  {
  }

  /** The receiver takes the newer header and chunk one, the older chunk one, and the newer chunk two. */
  lemma TakesMixture(w: World, byte: nat, newer: RaftSnapshot) returns (actions: seq<Action>, after: World)
    requires |newer.data| == 3 && w.receiver == None
    requires TravelsAt(w, 2, newer, 3, 0) && TravelsAt(w, 2, newer, 3, 1) && TravelsAt(w, 2, newer, 3, 2)
    requires 2 in w.inFlight && w.inFlight[2] == DeliverRequest(2, 1, 2, Chunk(1, 1, [byte]))
    ensures Leads(IsStep, w, actions, after) && after.sender == w.sender && after.started == w.started
    ensures after.replica == w.replica && (3, ResponsePayload(2, 0, Accepted)) in after.responses
    ensures (4, ResponsePayload(2, 1, Accepted)) in after.responses
    ensures (5, ResponsePayload(2, 2, Accepted)) in after.responses
    ensures after.produced ==
            w.produced + {(1, RaftSnapshot(newer.metadata, [newer.data[0]] + [byte] + [newer.data[2]]))}
  {
    var chunks: map<nat, Bytes> := map[0 := [newer.data[0]]][1 := [newer.data[1]]];
    var two, middle := TakesTwo(w, 3, 2, newer);
    assert middle.receiver == Some(Receiving(2, newer, chunks));
    var rest;
    rest, after := TakesOther(middle, 2, byte, 3, 2, newer, chunks);
    actions := Joined(IsStep, w, two, middle, rest, after);
  }

  lemma MixesAndReports(w: World, byte: nat, newer: RaftSnapshot) returns (actions: seq<Action>, after: World)
    requires |newer.data| == 3 && w.receiver == None && IsSending(w, 2, newer, 3, 3, 0)
    requires TravelsAt(w, 2, newer, 3, 0) && TravelsAt(w, 2, newer, 3, 1) && TravelsAt(w, 2, newer, 3, 2)
    requires 2 in w.inFlight && w.inFlight[2] == DeliverRequest(2, 1, 2, Chunk(1, 1, [byte]))
    ensures Leads(IsStep, w, actions, after) && 2 in after.finished && after.started == w.started
    ensures after.produced == w.produced + {(1, RaftSnapshot(newer.metadata, [newer.data[0], byte, newer.data[2]]))}
  {
    var takes, middle := TakesMixture(w, byte, newer);
    ThreeAnswered(middle, 2, 3);
    ThreeBytes(newer.data[0], byte, newer.data[2]);
    var reports;
    reports, after := Reports(middle, 2, newer, 3);
    actions := Joined(IsStep, w, takes, middle, reports, after);
  }

  /**
   From the start, with requests only the sender made and each processed once: a chunk of an
   earlier transfer gets into the session of a later one. The later one is reported as finished;
   its snapshot was not handed on, a mixture of the two was.
   */
  lemma MixedTransfers(meta: SnapshotMetadata) returns (worlds: seq<World>, actions: seq<Action>, after: World)
    ensures IsRun(worlds, actions) && after == worlds[|actions|]
    ensures 2 in after.finished && 2 in after.started && after.started[2] == RaftSnapshot(meta, [7, 8, 9])
    ensures after.produced == {(1, RaftSnapshot(meta, [7, 5, 9]))} && (1, after.started[2]) !in after.produced
  {
    var older, newer := RaftSnapshot(meta, [4, 5, 6]), RaftSnapshot(meta, [7, 8, 9]);
    BeginIsInit();
    var a1, w1 := BothTravel(older, newer, 2);
    assert TravelsAt(w1, 1, older, 1, 1);
    assert TravelsAt(w1, 2, newer, 3, 0) && TravelsAt(w1, 2, newer, 3, 1) && TravelsAt(w1, 2, newer, 3, 2);
    var a2;
    a2, after := MixesAndReports(w1, 5, newer);
    actions := Joined(IsStep, Begin(), a1, w1, a2, after);
    worlds := RunOf(Begin(), actions, after);
    assert [7, 5, 9][1] != [7, 8, 9][1];
  }

  // ----- An acknowledgement without a session -----

  lemma TakesSecond(w: World, id: nat, snapshot: RaftSnapshot, first: map<nat, Bytes>, other: nat, e: nat, byte: nat)
    returns (actions: seq<Action>, after: World)
    requires |snapshot.data| == 2 && first.Keys == {0} && w.receiver == Some(Receiving(id, snapshot, first))
    requires e in w.inFlight && w.inFlight[e] == DeliverRequest(2, 1, e, Chunk(other, 1, [byte]))
    ensures Leads(IsStep, w, actions, after) && Took(w, e, other, 1, None, after)
    ensures after.produced == w.produced + {(1, RaftSnapshot(snapshot.metadata, first[0] + [byte]))}
  {
    TwoKeys(first, [byte]);
    AssembledTwo(first[1 := [byte]]);
    actions, after := TakesLast(w, e, id, snapshot, first, other, 1, byte, first[1 := [byte]]);
  }

  /** The receiver takes a header, and completes the session with a chunk of another transfer. */
  lemma TakesForeign(w: World, id: nat, snapshot: RaftSnapshot, d: nat, other: nat, e: nat, byte: nat)
    returns (actions: seq<Action>, after: World)
    requires |snapshot.data| == 2 && w.receiver == None && TravelsAt(w, id, snapshot, d, 0) && d != e
    requires e in w.inFlight && w.inFlight[e] == DeliverRequest(2, 1, e, Chunk(other, 1, [byte]))
    ensures Leads(IsStep, w, actions, after)
    ensures Took(w.(inFlight := w.inFlight - {d}, responses := w.responses + {(d, ResponsePayload(id, 0, Accepted))}),
                 e, other, 1, None, after)
    ensures after.produced == w.produced + {(1, RaftSnapshot(snapshot.metadata, [snapshot.data[0]] + [byte]))}
  {
    var header, middle := TakesHeader(w, d, id, snapshot);
    var last;
    last, after := TakesSecond(middle, id, snapshot, map[0 := [snapshot.data[0]]], other, e, byte);
    actions := Joined(IsStep, w, header, middle, last, after);
  }

  /** The receiver takes the older header, completes it with the newer chunk, then takes the newer header. */
  lemma TakesAway(w: World, older: RaftSnapshot, newer: RaftSnapshot) returns (actions: seq<Action>, after: World)
    requires |older.data| == 2 && |newer.data| == 2 && w.receiver == None
    requires TravelsAt(w, 1, older, 1, 0) && TravelsAt(w, 2, newer, 2, 0) && TravelsAt(w, 2, newer, 2, 1)
    ensures Leads(IsStep, w, actions, after) && after.sender == w.sender && after.started == w.started
    ensures after.replica == w.replica && AllAnswered(after, 2, 2, 2)
    ensures after.produced == w.produced + {(1, RaftSnapshot(older.metadata, [older.data[0], newer.data[1]]))}
  {
    var away, middle := TakesForeign(w, 1, older, 1, 2, 3, newer.data[1]);
    var header;
    header, after := TakesHeader(middle, 2, 2, newer);
    TwoAnswered(after, 2, 2);
    TwoBytes(older.data[0], newer.data[1]);
    actions := Joined(IsStep, w, away, middle, header, after);
  }

  lemma TwoBytes(a: nat, b: nat)
    ensures [a] + [b] == [a, b]
  {
  }

  /**
   Nor is it enough that a chunk from another transfer has the right contents: here it completes
   the older transfer rightly, its own transfer counts it as arrived, and is reported as finished
   although nothing of it was ever handed on.
   */
  lemma OvertakenTransfer(meta: SnapshotMetadata) returns (worlds: seq<World>, actions: seq<Action>, after: World)
    ensures IsRun(worlds, actions) && after == worlds[|actions|]
    ensures 1 in after.started && after.started[1] == RaftSnapshot(meta, [4, 5])
    ensures 2 in after.finished && 2 in after.started && after.started[2] == RaftSnapshot(meta, [7, 5])
    ensures SamePart(after.started[1], after.started[2], 1, 1)
    ensures after.produced == {(1, after.started[1])} && (1, after.started[2]) !in after.produced
  {
    var older, newer := RaftSnapshot(meta, [4, 5]), RaftSnapshot(meta, [7, 5]);
    BeginIsInit();
    var a1, w1 := BothTravel(older, newer, 1);
    assert TravelsAt(w1, 1, older, 1, 0) && TravelsAt(w1, 2, newer, 2, 0) && TravelsAt(w1, 2, newer, 2, 1);
    var a2, w2 := TakesAway(w1, older, newer);
    var a3;
    a3, after := Reports(w2, 2, newer, 2);
    var a := Joined(IsStep, Begin(), a1, w1, a2, w2);
    actions := Joined(IsStep, Begin(), a, w2, a3, after);
    worlds := RunOf(Begin(), actions, after);
    Singles(older.data);
    Singles(newer.data);
    assert [4, 5][0] != [7, 5][0];
  }
}
