/**
 Snapshot transfer: the sender that splits snapshots into chunks under one window, the
 receiver that assembles one snapshot at a time, and the processor that plays either role.
 */
module Snapshot {
  import opened Wrappers

  datatype SnapshotMetadata = SnapshotMetadata(index: nat, term: nat, voters: seq<nat>)

  datatype RaftSnapshot = RaftSnapshot(metadata: SnapshotMetadata, data: Bytes)

  /** `metadata` is `None` for bytes that do not decode. */
  datatype Payload =
    | Header(snapshotId: nat, snapshotSize: nat, metadata: Option<SnapshotMetadata>, contents: Bytes)
    | Chunk(snapshotId: nat, chunkIndex: nat, contents: Bytes)
    | Unset(snapshotId: nat)
    | Undecodable

  datatype DeliverRequest = DeliverRequest(recipient: nat, sender: nat, deliveryId: nat, payload: Payload)

  datatype DeliverStatus = Unspecified | Accepted | Rejected

  datatype ResponsePayload = ResponsePayload(snapshotId: nat, chunkIndex: nat, status: DeliverStatus)

  datatype DeliverResponse = DeliverResponse(recipient: nat, sender: nat, deliveryId: nat, payload: ResponsePayload)

  /** What the sender gets to see of a delivery. */
  datatype Delivery = Answer(payload: ResponsePayload) | Garbled | FailedDelivery

  datatype SnapshotStatus = Finish | Failure

  // ----- Chunks -----

  /** A snapshot cut into chunks: all full but the last, and one empty chunk if there is nothing. */
  function Split(data: Bytes, chunkSize: nat): (chunks: seq<Bytes>)
    requires chunkSize > 0
    ensures chunks != []
  {
    if |data| <= chunkSize then [data] else [data[..chunkSize]] + Split(data[chunkSize..], chunkSize)
  }

  function Concat(chunks: seq<Bytes>): Bytes {
    if chunks == [] then [] else chunks[0] + Concat(chunks[1..])
  }

  /** Putting the chunks together gives the snapshot back. */
  lemma {:induction false} ConcatOfSplit(data: Bytes, chunkSize: nat)
    requires chunkSize > 0
    ensures Concat(Split(data, chunkSize)) == data
  {
    if |data| <= chunkSize {
      assert Concat([data]) == data + Concat([]);
    } else {
      ConcatOfSplit(data[chunkSize..], chunkSize);
      assert Split(data, chunkSize)[1..] == Split(data[chunkSize..], chunkSize);
    }
  }

  function ChunkCount(size: nat, chunkSize: nat): (n: nat)
    requires size > 0 ==> chunkSize > 0
    ensures n > 0
  {
    if size > 0 then (size - 1) / chunkSize + 1 else 1
  }

  lemma CountOfRest(size: nat, chunkSize: nat)
    requires 0 < chunkSize < size
    ensures ChunkCount(size, chunkSize) == ChunkCount(size - chunkSize, chunkSize) + 1
  {
    var rest := size - 1 - chunkSize;
    var q := rest / chunkSize;
    assert rest == q * chunkSize + rest % chunkSize;
    assert (q + 1) * chunkSize == q * chunkSize + chunkSize;
    DivisionUnique(size - 1, chunkSize, q + 1, rest % chunkSize);
  }

  lemma DivisionUnique(n: nat, d: nat, q: nat, r: nat)
    requires r < d && n == q * d + r
    ensures n / d == q
  {
    var p, m := n / d, n % d;
    assert p * d - q * d == r - m;
    if p > q {
      TimesAtLeast(p, q, d);
    } else if p < q {
      TimesAtLeast(q, p, d);
    }
  }

  lemma {:induction false} TimesAtLeast(a: nat, b: nat, d: nat)
    requires a > b
    ensures a * d >= b * d + d
  {
    if a - 1 > b {
      TimesAtLeast(a - 1, b, d);
    }
    assert a * d == (a - 1) * d + d;
  }

  lemma CountOfOne(size: nat, chunkSize: nat)
    requires size <= chunkSize
    ensures ChunkCount(size, chunkSize) == 1
  {
    if size > 0 {
      DivisionUnique(size - 1, chunkSize, 0, size - 1);
    }
  }

  /** The count the code computes is the number of chunks there are. */
  lemma {:induction false} SplitCount(data: Bytes, chunkSize: nat)
    requires chunkSize > 0
    ensures |Split(data, chunkSize)| == ChunkCount(|data|, chunkSize)
  {
    if |data| <= chunkSize {
      CountOfOne(|data|, chunkSize);
    } else {
      SplitCount(data[chunkSize..], chunkSize);
      CountOfRest(|data|, chunkSize);
    }
  }

  lemma OneMore(n: int, d: int)
    ensures (n + 1) * d == n * d + d
  {
  }

  lemma SliceOfRest(data: Bytes, skipped: nat, start: nat, end: nat)
    requires start <= end && skipped + end <= |data|
    ensures data[skipped..][start..end] == data[start + skipped..end + skipped]
  {
    var slice, same := data[skipped..][start..end], data[start + skipped..end + skipped];
    forall i | 0 <= i < end - start ensures slice[i] == same[i] {
    }
  }

  /** Slicing at multiples of the chunk size never leaves the data, and yields the chunks. */
  lemma {:induction false} SplitAt(data: Bytes, chunkSize: nat, index: nat)
    requires chunkSize > 0 && index < |Split(data, chunkSize)|
    ensures var start := index * chunkSize;
            var end := if |data| <= start + chunkSize then |data| else start + chunkSize;
            0 <= start <= end <= |data| && Split(data, chunkSize)[index] == data[start..end]
  {
    if index > 0 {
      SplitAt(data[chunkSize..], chunkSize, index - 1);
      OneMore(index - 1, chunkSize);
      var start := (index - 1) * chunkSize;
      var rest := data[chunkSize..];
      var end := if |rest| <= start + chunkSize then |rest| else start + chunkSize;
      SliceOfRest(data, chunkSize, start, end);
    }
  }

  /** A full chunk, or the remainder at the end. */
  lemma {:induction false} SplitLength(data: Bytes, chunkSize: nat, index: nat)
    requires chunkSize > 0 && index < |Split(data, chunkSize)|
    ensures var n := |Split(data, chunkSize)|;
            && 0 <= (n - 1) * chunkSize <= |data|
            && |Split(data, chunkSize)[index]| == if index < n - 1 then chunkSize else |data| - (n - 1) * chunkSize
  {
    var n := |Split(data, chunkSize)|;
    if |data| > chunkSize {
      SplitLength(data[chunkSize..], chunkSize, if index > 0 then index - 1 else 0);
      OneMore(n - 2, chunkSize);
    }
  }

  /**
   The receiver, which only sees the size and the first chunk, computes the same count as
   the sender, and expects of every chunk the length the sender gives it.
   */
  lemma CountsAgree(data: Bytes, chunkSize: nat)
    requires chunkSize > 0
    ensures var first := |Split(data, chunkSize)[0]|;
            var n := |Split(data, chunkSize)|;
            && (|data| > 0 ==> first > 0)
            && ChunkCount(|data|, first) == n
            && (n > 1 ==> first == chunkSize)
  {
    SplitCount(data, chunkSize);
    SplitLength(data, chunkSize, 0);
    if |data| <= chunkSize {
      CountOfOne(|data|, |data|);
    }
  }

  // ----- Sender -----

  datatype SenderState = SenderState(
    snapshotId: nat,
    metadata: SnapshotMetadata,
    data: Bytes,
    chunkSize: nat,
    chunkCount: nat,
    nextChunkIndex: nat,
    sentChunkCount: nat,
    pending: map<nat, nat>,
    status: Option<SnapshotStatus>)

  datatype Sender = Sender(
    replicaId: nat,
    chunkSize: nat,
    maxPendingChunks: nat,
    nextSnapshotId: nat,
    nextDeliveryId: nat,
    receivers: map<nat, SenderState>)

  function NewSenderState(id: nat, snapshot: RaftSnapshot, chunkSize: nat): SenderState
    requires chunkSize > 0
  {
    SenderState(id, snapshot.metadata, snapshot.data, chunkSize,
                |Split(snapshot.data, chunkSize)|, 0, 0, map[], None)
  }

  /** A fraction, compared by cross-multiplication. */
  datatype Fraction = Fraction(part: nat, whole: nat)

  const WHOLE := Fraction(1, 1)

  predicate AtMost(a: Fraction, b: Fraction) {
    a.part * b.whole <= b.part * a.whole
  }

  /** Less than one. */
  predicate Partial(a: Fraction) {
    a.part < a.whole
  }

  lemma TimesKeepsOrder(a: nat, b: nat, k: nat)
    requires a <= b
    ensures a * k <= b * k
  {
    if a < b {
      TimesAtLeast(b, a, k);
    }
  }

  lemma TimesCancels(a: nat, b: nat, k: nat)
    requires k > 0 && a * k <= b * k
    ensures a <= b
  {
    if a > b {
      TimesAtLeast(a, b, k);
    }
  }

  lemma SwapFactors(a: nat, b: nat, c: nat)
    ensures a * b * c == a * c * b
  {
    assert a * b * c == a * (b * c);
    assert a * c * b == a * (c * b);
  }

  lemma AtMostTransitive(a: Fraction, b: Fraction, c: Fraction)
    requires b.whole > 0 && AtMost(a, b) && AtMost(b, c)
    ensures AtMost(a, c)
  {
    TimesKeepsOrder(a.part * b.whole, b.part * a.whole, c.whole);
    TimesKeepsOrder(b.part * c.whole, c.part * b.whole, a.whole);
    SwapFactors(a.part, b.whole, c.whole);
    SwapFactors(b.part, a.whole, c.whole);
    SwapFactors(c.part, b.whole, a.whole);
    TimesCancels(a.part * c.whole, c.part * a.whole, b.whole);
  }

  lemma PartialIsBelowWhole(a: Fraction)
    ensures !AtMost(WHOLE, a) <==> Partial(a)
    ensures Partial(a) ==> AtMost(a, WHOLE)
  {
  }

  function Progress(st: SenderState): (f: Fraction)
    requires st.chunkCount > 0
    ensures f.whole > 0
  {
    if st.status.Some? then WHOLE else Fraction(st.sentChunkCount + |st.pending|, st.chunkCount)
  }

  /**
   What holds of a live transfer: the next index is what was acknowledged plus what is
   pending, and the pending deliveries are for distinct indices below it.
   */
  ghost predicate WindowOk(next: nat, sent: nat, pending: map<nat, nat>) {
    && next == sent + |pending|
    && (forall d | d in pending :: pending[d] < next)
    && (forall d, e | d in pending && e in pending && d != e :: pending[d] != pending[e])
  }

  ghost predicate TransferOk(st: SenderState) {
    && st.chunkSize > 0 && st.chunkCount == |Split(st.data, st.chunkSize)|
    && st.nextChunkIndex <= st.chunkCount && WindowOk(st.nextChunkIndex, st.sentChunkCount, st.pending)
  }

  ghost predicate Live(st: SenderState) {
    st.status.None?
  }

  /** A transfer as a sender with these next ids holds it. */
  ghost predicate HeldOk(nextSnapshotId: nat, nextDeliveryId: nat, st: SenderState) {
    && st.chunkCount > 0 && st.snapshotId < nextSnapshotId && st.status != Some(Finish)
    && (forall d | d in st.pending :: d < nextDeliveryId)
    && (Live(st) ==> TransferOk(st))
  }

  ghost predicate SenderOk(s: Sender) {
    && s.chunkSize > 0
    && (forall r | r in s.receivers :: HeldOk(s.nextSnapshotId, s.nextDeliveryId, s.receivers[r]))
    && |PendingPairs(s.receivers.Keys, s.receivers)| <= s.maxPendingChunks
  }

  lemma HeldLonger(
      nextSnapshotId: nat, nextDeliveryId: nat, nextSnapshotId': nat, nextDeliveryId': nat, st: SenderState)
    requires HeldOk(nextSnapshotId, nextDeliveryId, st)
    requires nextSnapshotId <= nextSnapshotId' && nextDeliveryId <= nextDeliveryId'
    ensures HeldOk(nextSnapshotId', nextDeliveryId', st)
  {
  }

  /** Deliveries in flight, over the given receivers. */
  ghost function PendingPairs(ids: set<nat>, receivers: map<nat, SenderState>): set<(nat, nat)>
    requires ids <= receivers.Keys
  {
    set r, d | r in ids && d in receivers[r].pending :: (r, d)
  }

  /** The indices below `next` that are not pending any more. */
  ghost function Settled(next: nat, pending: map<nat, nat>): set<nat> {
    Below(next) - pending.Values
  }

  /** The indices a transfer knows to have arrived. */
  ghost function Acknowledged(st: SenderState): set<nat> {
    Settled(st.nextChunkIndex, st.pending)
  }

  ghost function Below(n: nat): (r: set<nat>)
    ensures |r| == n
    ensures forall i: nat :: i in r <==> i < n
  {
    if n == 0 then {} else Below(n - 1) + {n - 1}
  }

  /** As many numbers below `n` as there are make all of them. */
  lemma Pigeonhole(keys: set<nat>, n: nat)
    requires keys <= Below(n)
    ensures |keys| <= n
    ensures |keys| == n ==> keys == Below(n)
  {
    assert Below(n) == keys + (Below(n) - keys);
  }

  lemma ValuesInsert(m: map<nat, nat>, d: nat, v: nat)
    requires d !in m
    ensures m[d := v].Values == m.Values + {v} && |m[d := v]| == |m| + 1
  {
    var after := m[d := v];
    assert after.Keys == m.Keys + {d};
    assert after[d] == v;
    forall i | i in m.Values ensures i in after.Values {
      var e :| e in m && m[e] == i;
      assert after[e] == i;
    }
  }

  lemma ValuesRemove(m: map<nat, nat>, d: nat)
    requires d in m && forall e | e in m && e != d :: m[d] != m[e]
    ensures (m - {d}).Values == m.Values - {m[d]} && |m - {d}| == |m| - 1
  {
    var after := m - {d};
    assert m.Keys == after.Keys + {d};
    forall i | i in m.Values && i != m[d] ensures i in after.Values {
      var e :| e in m && m[e] == i;
      assert after[e] == i;
    }
    forall i | i in after.Values ensures i in m.Values && i != m[d] {
      var e :| e in after && after[e] == i;
      assert m[e] == i;
    }
  }

  lemma {:induction false} InjectiveSize(m: map<nat, nat>)
    requires forall d, e | d in m && e in m && d != e :: m[d] != m[e]
    ensures |m.Values| == |m|
  {
    if m == map[] {
      assert m.Values == {};
    } else {
      var d :| d in m;
      InjectiveSize(m - {d});
      ValuesRemove(m, d);
      assert m[d] in m.Values;
    }
  }

  /** The acknowledged indices are as many as the transfer counts. */
  lemma SettledSize(next: nat, sent: nat, pending: map<nat, nat>)
    requires WindowOk(next, sent, pending)
    ensures |Settled(next, pending)| == sent
  {
    InjectiveSize(pending);
    assert pending.Values <= Below(next);
    assert Below(next) == Settled(next, pending) + pending.Values;
  }

  /** A transfer that may report `Finish` had every chunk acknowledged, and nothing is pending. */
  lemma FinishMeansAll(st: SenderState)
    requires TransferOk(st) && st.sentChunkCount == st.chunkCount
    ensures Acknowledged(st) == Below(st.chunkCount) && st.pending == map[]
  {
    SettledSize(st.nextChunkIndex, st.sentChunkCount, st.pending);
    Pigeonhole(Acknowledged(st), st.chunkCount);
  }

  /** The next chunk of a live transfer, registered under a delivery id. */
  function NextChunk(st: SenderState, deliveryId: nat): (SenderState, Payload)
    requires st.chunkSize > 0 && st.nextChunkIndex < |Split(st.data, st.chunkSize)|
  {
    var contents := Split(st.data, st.chunkSize)[st.nextChunkIndex];
    (st.(pending := st.pending[deliveryId := st.nextChunkIndex], nextChunkIndex := st.nextChunkIndex + 1),
     if st.nextChunkIndex == 0 then Header(st.snapshotId, |st.data|, Some(st.metadata), contents)
     else Chunk(st.snapshotId, st.nextChunkIndex, contents))
  }

  lemma OneMoreBelow(next: nat, values: set<nat>)
    requires forall v | v in values :: v < next
    ensures Below(next + 1) - (values + {next}) == Below(next) - values
  {
    forall v ensures v in Below(next + 1) - (values + {next}) <==> v in Below(next) - values {
    }
  }

  lemma InsertKeepsApart(next: nat, pending: map<nat, nat>, d: nat)
    requires d !in pending && (forall e | e in pending :: pending[e] < next)
    requires forall e, f | e in pending && f in pending && e != f :: pending[e] != pending[f]
    ensures var after := pending[d := next];
            && (forall e | e in after :: after[e] < next + 1)
            && (forall e, f | e in after && f in after && e != f :: after[e] != after[f])
  {
  }

  lemma SettledGrows(next: nat, pending: map<nat, nat>, d: nat)
    requires d !in pending && (forall e | e in pending :: pending[e] < next)
    ensures Settled(next + 1, pending[d := next]) == Settled(next, pending)
  {
    var values := pending.Values;
    assert pending[d := next].Values == values + {next} by {
      ValuesInsert(pending, d, next);
    }
    forall v | v in values ensures v < next {
    }
    OneMoreBelow(next, values);
  }

  lemma WindowGrows(next: nat, sent: nat, pending: map<nat, nat>, d: nat)
    requires WindowOk(next, sent, pending) && d !in pending
    ensures WindowOk(next + 1, sent, pending[d := next])
  {
    assert |pending[d := next]| == |pending| + 1 by {
      ValuesInsert(pending, d, next);
    }
    InsertKeepsApart(next, pending, d);
  }

  lemma WindowSettles(next: nat, sent: nat, pending: map<nat, nat>, d: nat)
    requires WindowOk(next, sent, pending) && d in pending
    ensures WindowOk(next, sent + 1, pending - {d})
    ensures pending[d] !in Settled(next, pending)
    ensures Settled(next, pending - {d}) == Settled(next, pending) + {pending[d]}
  {
    ValuesRemove(pending, d);
    assert pending[d] in pending.Values;
  }

  lemma NextChunkOk(st: SenderState, deliveryId: nat)
    requires TransferOk(st) && st.nextChunkIndex < st.chunkCount && deliveryId !in st.pending
    ensures TransferOk(NextChunk(st, deliveryId).0)
    ensures Acknowledged(NextChunk(st, deliveryId).0) == Acknowledged(st)
    ensures |NextChunk(st, deliveryId).0.pending| == |st.pending| + 1
  {
    WindowGrows(st.nextChunkIndex, st.sentChunkCount, st.pending, deliveryId);
    SettledGrows(st.nextChunkIndex, st.pending, deliveryId);
    ValuesInsert(st.pending, deliveryId, st.nextChunkIndex);
  }

  /** Whether a delivery keeps the transfer alive. */
  predicate DeliveryOk(st: SenderState, deliveryId: nat, delivery: Delivery) {
    delivery.Answer? &&
    (delivery.payload.snapshotId != st.snapshotId ||
     (Matches(st, deliveryId, delivery.payload) && delivery.payload.status == Accepted))
  }

  predicate Matches(st: SenderState, deliveryId: nat, payload: ResponsePayload) {
    payload.chunkIndex < st.chunkCount && deliveryId in st.pending && st.pending[deliveryId] == payload.chunkIndex
  }

  /** A response for another snapshot is ignored; any other that is not the expected one aborts. */
  function Delivered(st: SenderState, deliveryId: nat, delivery: Delivery): SenderState {
    var mine := delivery.Answer? && delivery.payload.snapshotId == st.snapshotId;
    var looked := mine && delivery.payload.chunkIndex < st.chunkCount;
    st.(pending := if looked then st.pending - {deliveryId} else st.pending,
        sentChunkCount := st.sentChunkCount +
          if mine && DeliveryOk(st, deliveryId, delivery) then 1 else 0,
        status := if DeliveryOk(st, deliveryId, delivery) then st.status else Some(Failure))
  }

  /** A delivery acknowledges at most the index it was sent for, and nothing is acknowledged twice. */
  lemma DeliveredOk(st: SenderState, deliveryId: nat, delivery: Delivery)
    requires TransferOk(st) && Live(st) && Live(Delivered(st, deliveryId, delivery))
    ensures var after := Delivered(st, deliveryId, delivery);
            && TransferOk(after)
            && (delivery.payload.snapshotId != st.snapshotId ==> after == st)
            && (delivery.payload.snapshotId == st.snapshotId ==>
                  && delivery.payload.status == Accepted
                  && delivery.payload.chunkIndex !in Acknowledged(st)
                  && Acknowledged(after) == Acknowledged(st) + {delivery.payload.chunkIndex})
  {
    if delivery.payload.snapshotId == st.snapshotId {
      WindowSettles(st.nextChunkIndex, st.sentChunkCount, st.pending, deliveryId);
    }
  }

  function StartTransfer(s: Sender, receiver: nat, snapshot: RaftSnapshot): Sender
    requires s.chunkSize > 0
  {
    s.(receivers := s.receivers[receiver := NewSenderState(s.nextSnapshotId, snapshot, s.chunkSize)],
       nextSnapshotId := s.nextSnapshotId + 1)
  }

  /** A receiver behind which no other has made less progress, with chunks left to send. */
  ghost predicate LeastProgress(s: Sender, r: nat)
    requires forall q | q in s.receivers :: s.receivers[q].chunkCount > 0
  {
    r in s.receivers && Partial(Progress(s.receivers[r])) &&
    forall q | q in s.receivers :: AtMost(Progress(s.receivers[r]), Progress(s.receivers[q]))
  }

  ghost predicate CanSend(s: Sender, r: nat) {
    r in s.receivers && Live(s.receivers[r]) && s.receivers[r].chunkSize > 0 &&
    s.receivers[r].nextChunkIndex < |Split(s.receivers[r].data, s.receivers[r].chunkSize)|
  }

  ghost function SendNext(s: Sender, r: nat): (Sender, DeliverRequest)
    requires CanSend(s, r)
  {
    var (st, payload) := NextChunk(s.receivers[r], s.nextDeliveryId);
    (s.(receivers := s.receivers[r := st], nextDeliveryId := s.nextDeliveryId + 1),
     DeliverRequest(r, s.replicaId, s.nextDeliveryId, payload))
  }

  /** There is room in the window, and a receiver to send to. Receiver id zero stands for none. */
  ghost predicate Sendable(s: Sender, r: nat)
    requires forall q | q in s.receivers :: s.receivers[q].chunkCount > 0
  {
    HasRoom(s) && r != 0 && LeastProgress(s, r)
  }

  function Receive(s: Sender, r: nat, deliveryId: nat, delivery: Delivery): Sender {
    if r in s.receivers then
      s.(receivers := s.receivers[r := Delivered(s.receivers[r], deliveryId, delivery)])
    else
      s
  }

  /** What a transfer would report now. */
  function Outcome(st: SenderState): Option<SnapshotStatus> {
    if st.status.None? && st.sentChunkCount == st.chunkCount then Some(Finish) else st.status
  }

  function Dropped(s: Sender, r: nat): Sender {
    s.(receivers := s.receivers - {r})
  }

  // ----- The sender's steps keep its invariant -----

  ghost function Tagged(ds: set<nat>, r: nat): set<(nat, nat)> {
    set d | d in ds :: (r, d)
  }

  lemma {:induction false} TaggedSize(ds: set<nat>, r: nat)
    ensures |Tagged(ds, r)| == |ds|
  {
    if ds == {} {
      assert Tagged(ds, r) == {};
    } else {
      var d :| d in ds;
      TaggedSize(ds - {d}, r);
      assert Tagged(ds, r) == Tagged(ds - {d}, r) + {(r, d)};
    }
  }

  lemma PendingOfOne(ids: set<nat>, receivers: map<nat, SenderState>, r: nat)
    requires ids <= receivers.Keys && r in receivers && r !in ids
    ensures |PendingPairs(ids + {r}, receivers)| == |PendingPairs(ids, receivers)| + |receivers[r].pending|
  {
    assert PendingPairs(ids + {r}, receivers) == PendingPairs(ids, receivers) + Tagged(receivers[r].pending.Keys, r);
    TaggedSize(receivers[r].pending.Keys, r);
  }

  /** Replacing one transfer changes what is pending by that transfer's share. */
  lemma PendingAfterUpdate(receivers: map<nat, SenderState>, r: nat, st: SenderState)
    ensures var after := receivers[r := st];
            |PendingPairs(after.Keys, after)| ==
            |PendingPairs(receivers.Keys - {r}, receivers)| + |st.pending|
  {
    var after := receivers[r := st];
    PendingOfOne(receivers.Keys - {r}, after, r);
    assert PendingPairs(receivers.Keys - {r}, after) == PendingPairs(receivers.Keys - {r}, receivers);
    assert after.Keys == (receivers.Keys - {r}) + {r};
  }

  lemma PendingSplit(receivers: map<nat, SenderState>, r: nat)
    ensures |PendingPairs(receivers.Keys, receivers)| ==
            |PendingPairs(receivers.Keys - {r}, receivers)| + if r in receivers then |receivers[r].pending| else 0
  {
    if r in receivers {
      PendingOfOne(receivers.Keys - {r}, receivers, r);
      assert receivers.Keys == (receivers.Keys - {r}) + {r};
    } else {
      assert receivers.Keys - {r} == receivers.Keys;
    }
  }

  lemma StartOk(s: Sender, r: nat, snapshot: RaftSnapshot)
    requires SenderOk(s)
    ensures SenderOk(StartTransfer(s, r, snapshot))
  {
    var st := NewSenderState(s.nextSnapshotId, snapshot, s.chunkSize);
    assert HeldOk(s.nextSnapshotId + 1, s.nextDeliveryId, st);
    forall q | q in s.receivers ensures HeldOk(s.nextSnapshotId + 1, s.nextDeliveryId, s.receivers[q]) {
      HeldLonger(s.nextSnapshotId, s.nextDeliveryId, s.nextSnapshotId + 1, s.nextDeliveryId, s.receivers[q]);
    }
    PendingSplit(s.receivers, r);
    PendingAfterUpdate(s.receivers, r, st);
  }

  lemma LeastCanSend(s: Sender, r: nat)
    requires SenderOk(s) && LeastProgress(s, r)
    ensures CanSend(s, r) && TransferOk(s.receivers[r])
  {
    assert HeldOk(s.nextSnapshotId, s.nextDeliveryId, s.receivers[r]);
  }

  /** There is room in the window. */
  ghost predicate HasRoom(s: Sender) {
    |PendingPairs(s.receivers.Keys, s.receivers)| < s.maxPendingChunks
  }

  lemma SentIsHeld(nextSnapshotId: nat, nextDeliveryId: nat, st: SenderState)
    requires HeldOk(nextSnapshotId, nextDeliveryId, st) && Live(st) && st.nextChunkIndex < st.chunkCount
    ensures var after := NextChunk(st, nextDeliveryId).0;
            HeldOk(nextSnapshotId, nextDeliveryId + 1, after) && |after.pending| == |st.pending| + 1
  {
    NextChunkOk(st, nextDeliveryId);
  }

  lemma SendOk(s: Sender, r: nat)
    requires SenderOk(s) && HasRoom(s) && CanSend(s, r)
    ensures SenderOk(SendNext(s, r).0)
    ensures var after := SendNext(s, r).0;
            |PendingPairs(after.receivers.Keys, after.receivers)| == |PendingPairs(s.receivers.Keys, s.receivers)| + 1
  {
    var st := s.receivers[r];
    SentIsHeld(s.nextSnapshotId, s.nextDeliveryId, st);
    forall q | q in s.receivers ensures HeldOk(s.nextSnapshotId, s.nextDeliveryId + 1, s.receivers[q]) {
      HeldLonger(s.nextSnapshotId, s.nextDeliveryId, s.nextSnapshotId, s.nextDeliveryId + 1, s.receivers[q]);
    }
    PendingSplit(s.receivers, r);
    PendingAfterUpdate(s.receivers, r, NextChunk(st, s.nextDeliveryId).0);
  }

  lemma SmallerMap(a: map<nat, nat>, d: nat)
    ensures |a - {d}| <= |a|
  {
    assert (a - {d}).Keys == a.Keys - {d};
  }

  lemma DeliveredIsHeld(nextSnapshotId: nat, nextDeliveryId: nat, st: SenderState, deliveryId: nat, delivery: Delivery)
    requires HeldOk(nextSnapshotId, nextDeliveryId, st)
    ensures var after := Delivered(st, deliveryId, delivery);
            HeldOk(nextSnapshotId, nextDeliveryId, after) && |after.pending| <= |st.pending|
  {
    if Live(Delivered(st, deliveryId, delivery)) {
      DeliveredOk(st, deliveryId, delivery);
    }
    SmallerMap(st.pending, deliveryId);
  }

  lemma ReceiveOk(s: Sender, r: nat, deliveryId: nat, delivery: Delivery)
    requires SenderOk(s)
    ensures SenderOk(Receive(s, r, deliveryId, delivery))
  {
    if r in s.receivers {
      var st := s.receivers[r];
      DeliveredIsHeld(s.nextSnapshotId, s.nextDeliveryId, st, deliveryId, delivery);
      PendingSplit(s.receivers, r);
      PendingAfterUpdate(s.receivers, r, Delivered(st, deliveryId, delivery));
    }
  }

  lemma DropOk(s: Sender, r: nat)
    requires SenderOk(s)
    ensures SenderOk(Dropped(s, r))
  {
    PendingSplit(s.receivers, r);
    assert PendingPairs(s.receivers.Keys - {r}, s.receivers - {r}) == PendingPairs(s.receivers.Keys - {r}, s.receivers);
    assert (s.receivers - {r}).Keys == s.receivers.Keys - {r};
  }

  /** A least fraction below one, or zero if there is none. */
  ghost predicate Selects(progress: map<nat, Fraction>, selected: nat) {
    && (selected != 0 ==> selected in progress && Partial(progress[selected]))
    && (forall r | r in progress && Partial(progress[r]) :: selected in progress && Partial(progress[selected]))
    && (selected in progress && Partial(progress[selected]) ==>
          forall r | r in progress :: AtMost(progress[selected], progress[r]))
  }

  lemma SelectionMeaning(s: Sender, progress: map<nat, Fraction>, selected: nat)
    requires SenderOk(s) && Selects(progress, selected) && progress.Keys == s.receivers.Keys
    requires forall r | r in s.receivers :: progress[r] == Progress(s.receivers[r])
    ensures selected != 0 ==> LeastProgress(s, selected)
    ensures selected == 0 ==> LeastProgress(s, 0) || forall r | r in s.receivers :: !LeastProgress(s, r)
  {
    if selected in progress && Partial(progress[selected]) {
      forall q | q in s.receivers ensures AtMost(Progress(s.receivers[selected]), Progress(s.receivers[q])) {
        assert AtMost(progress[selected], progress[q]);
      }
    }
  }

  /** A fraction below the least so far becomes the least. */
  lemma LesserIsLeast(progress: map<nat, Fraction>, done: set<nat>, least: Fraction, r: nat)
    requires done <= progress.Keys && r in progress && !AtMost(least, progress[r]) && least.whole > 0
    requires least == WHOLE || Partial(least)
    requires forall q | q in done :: AtMost(least, progress[q])
    ensures forall q | q in done :: AtMost(progress[r], progress[q])
    ensures AtMost(progress[r], progress[r]) && Partial(progress[r])
  {
    forall q | q in done ensures AtMost(progress[r], progress[q]) {
      AtMostTransitive(progress[r], least, progress[q]);
    }
    if least != WHOLE {
      PartialIsBelowWhole(least);
      if AtMost(WHOLE, progress[r]) {
        AtMostTransitive(least, WHOLE, progress[r]);
      }
    }
    PartialIsBelowWhole(progress[r]);
  }

  /** The least of the fractions looked at, with where it was found, unless all of them are whole. */
  ghost predicate LeastSoFar(progress: map<nat, Fraction>, done: set<nat>, least: Fraction, selected: nat)
    requires done <= progress.Keys
  {
    && least.whole > 0 && (forall q | q in done :: AtMost(least, progress[q]))
    && ((least == WHOLE && selected == 0) || (selected in done && progress[selected] == least && Partial(least)))
  }

  lemma LeastStep(progress: map<nat, Fraction>, done: set<nat>, least: Fraction, selected: nat, r: nat)
    requires done <= progress.Keys && r in progress && progress[r].whole > 0 &&
             LeastSoFar(progress, done, least, selected)
    ensures if AtMost(least, progress[r]) then LeastSoFar(progress, done + {r}, least, selected)
            else LeastSoFar(progress, done + {r}, progress[r], r)
  {
    if !AtMost(least, progress[r]) {
      LesserIsLeast(progress, done, least, r);
    }
  }

  lemma LeastSelects(progress: map<nat, Fraction>, least: Fraction, selected: nat)
    requires LeastSoFar(progress, progress.Keys, least, selected)
    ensures Selects(progress, selected)
  {
    PartialIsBelowWhole(least);
    forall r | r in progress ensures Partial(progress[r]) ==> Partial(least) {
      PartialIsBelowWhole(progress[r]);
    }
  }

  class SnapshotSender {
    var replicaId: nat
    var chunkSize: nat
    var maxPendingChunks: nat
    var nextSnapshotId: nat
    var nextDeliveryId: nat
    var receivers: map<nat, SenderState>

    ghost function Model(): Sender
      reads this
    {
      Sender(replicaId, chunkSize, maxPendingChunks, nextSnapshotId, nextDeliveryId, receivers)
    }

    ghost predicate Valid()
      reads this
    {
      SenderOk(Model())
    }

    constructor (replicaId: nat, config: Option<(nat, nat)>)
      requires config.Some? ==> config.value.0 > 0
      ensures Valid() && receivers == map[] && nextSnapshotId == 1 && nextDeliveryId == 1
      ensures this.replicaId == replicaId
      ensures (chunkSize, maxPendingChunks) == if config.Some? then config.value else (1024 * 1024, 2)
    {
      this.replicaId := replicaId;
      chunkSize, maxPendingChunks := 1024 * 1024, 2;
      if config.Some? {
        chunkSize, maxPendingChunks := config.value.0, config.value.1;
      }
      nextSnapshotId, nextDeliveryId, receivers := 1, 1, map[];
    }

    method Start(receiver: nat, snapshot: RaftSnapshot)
      requires Valid()
      modifies this
      ensures Valid() && Model() == StartTransfer(old(Model()), receiver, snapshot)
    {
      StartOk(Model(), receiver, snapshot);
      SplitCount(snapshot.data, chunkSize);
      var st := SenderState(nextSnapshotId, snapshot.metadata, snapshot.data, chunkSize,
                            ChunkCount(|snapshot.data|, chunkSize), 0, 0, map[], None);
      receivers := receivers[receiver := st];
      nextSnapshotId := nextSnapshotId + 1;
    }

    /** The receiver with the least progress, zero if none has chunks left to send. */
    static method SelectReceiver(receivers: map<nat, SenderState>, progress: map<nat, Fraction>)
      returns (selected: nat, pendingChunks: nat)
      requires progress.Keys == receivers.Keys && forall r | r in progress :: progress[r].whole > 0
      ensures pendingChunks == |PendingPairs(receivers.Keys, receivers)|
      ensures Selects(progress, selected)
    {
      var minProgress := WHOLE;
      selected, pendingChunks := 0, 0;
      var todo := receivers.Keys;
      ghost var done: set<nat> := {};
      assert PendingPairs(done, receivers) == {};
      while todo != {}
        invariant done + todo == receivers.Keys && done !! todo
        invariant pendingChunks == |PendingPairs(done, receivers)|
        invariant LeastSoFar(progress, done, minProgress, selected)
        decreases todo
      {
        var r :| r in todo;
        PendingOfOne(done, receivers, r);
        pendingChunks := pendingChunks + |receivers[r].pending|;
        LeastStep(progress, done, minProgress, selected, r);
        if !AtMost(minProgress, progress[r]) {
          minProgress := progress[r];
          selected := r;
        }
        todo, done := todo - {r}, done + {r};
      }
      assert done == receivers.Keys;
      LeastSelects(progress, minProgress, selected);
    }

    /** Picks the receiver with the least progress, if the window has room. */
    method NextRequest() returns (request: Option<DeliverRequest>)
      requires Valid()
      modifies this
      ensures Valid()
      ensures request.None? ==>
                && Model() == old(Model())
                && ((forall r | r in receivers :: !Sendable(Model(), r)) || LeastProgress(Model(), 0))
      ensures request.Some? ==>
                && Sendable(old(Model()), request.value.recipient)
                && CanSend(old(Model()), request.value.recipient)
                && (Model(), request.value) == SendNext(old(Model()), request.value.recipient)
    {
      var progress := map r | r in receivers :: Progress(receivers[r]);
      var selected, pendingChunks := SelectReceiver(receivers, progress);
      SelectionMeaning(Model(), progress, selected);
      if pendingChunks >= maxPendingChunks || selected == 0 {
        return None;
      }
      LeastCanSend(Model(), selected);
      var sent := SendTo(selected);
      request := Some(sent);
    }

    method SendTo(selected: nat) returns (request: DeliverRequest)
      requires Valid() && HasRoom(Model()) && CanSend(Model(), selected)
      modifies this
      ensures Valid()
      ensures (Model(), request) == SendNext(old(Model()), selected)
    {
      SendOk(Model(), selected);
      var st, payload := TakeChunk(receivers[selected], nextDeliveryId);
      request := DeliverRequest(selected, replicaId, nextDeliveryId, payload);
      receivers := receivers[selected := st];
      nextDeliveryId := nextDeliveryId + 1;
    }

    /** Cuts the next chunk out of the data. */
    static method TakeChunk(st0: SenderState, deliveryId: nat) returns (st: SenderState, payload: Payload)
      requires st0.chunkSize > 0 && st0.nextChunkIndex < |Split(st0.data, st0.chunkSize)|
      ensures (st, payload) == NextChunk(st0, deliveryId)
    {
      st := st0.(pending := st0.pending[deliveryId := st0.nextChunkIndex]);
      SplitAt(st.data, st.chunkSize, st.nextChunkIndex);
      var start := st.nextChunkIndex * st.chunkSize;
      var end := if |st.data| <= start + st.chunkSize then |st.data| else start + st.chunkSize;
      var contents := st.data[start..end];
      payload := if st.nextChunkIndex == 0 then Header(st.snapshotId, |st.data|, Some(st.metadata), contents)
                 else Chunk(st.snapshotId, st.nextChunkIndex, contents);
      st := st.(nextChunkIndex := st.nextChunkIndex + 1);
    }

    /** Draining the requests ends, because every request takes a slot of the window. */
    method DrainRequests() returns (requests: seq<DeliverRequest>)
      requires Valid()
      modifies this
      ensures Valid() && receivers.Keys == old(receivers).Keys
      ensures |PendingPairs(receivers.Keys, receivers)| ==
              old(|PendingPairs(receivers.Keys, receivers)|) + |requests|
      ensures (forall r | r in receivers :: !Sendable(Model(), r)) || LeastProgress(Model(), 0)
    {
      requests := [];
      while true
        invariant Valid() && receivers.Keys == old(receivers).Keys
        invariant |PendingPairs(receivers.Keys, receivers)| ==
                  old(|PendingPairs(receivers.Keys, receivers)|) + |requests|
        decreases maxPendingChunks - |PendingPairs(receivers.Keys, receivers)|
      {
        ghost var before := Model();
        var request := NextRequest();
        if request.None? {
          return;
        }
        SendOk(before, request.value.recipient);
        requests := requests + [request.value];
      }
    }

    method ProcessResponse(receiver: nat, deliveryId: nat, delivery: Delivery)
      requires Valid()
      modifies this
      ensures Valid() && Model() == Receive(old(Model()), receiver, deliveryId, delivery)
    {
      ReceiveOk(Model(), receiver, deliveryId, delivery);
      if receiver in receivers {
        var st := Deliver(receivers[receiver], deliveryId, delivery);
        receivers := receivers[receiver := st];
      }
    }

    static method Deliver(st0: SenderState, deliveryId: nat, delivery: Delivery) returns (st: SenderState)
      ensures st == Delivered(st0, deliveryId, delivery)
    {
      st := st0;
      var success := false;
      if delivery.Answer? {
        var payload := delivery.payload;
        if payload.snapshotId != st.snapshotId {
          success := true;
        } else if payload.chunkIndex < st.chunkCount {
          var found := Matches(st, deliveryId, payload);
          st := st.(pending := st.pending - {deliveryId});
          if found && payload.status == Accepted {
            st := st.(sentChunkCount := st.sentChunkCount + 1);
            success := true;
          }
        }
      }
      if !success {
        st := st.(status := Some(Failure));
      }
    }

    /** Reports one transfer that has an outcome, if any has. */
    method TryComplete() returns (result: Option<(nat, SnapshotStatus)>)
      requires Valid()
      modifies this
      ensures Valid()
      ensures result.None? ==> Model() == old(Model()) && forall r | r in receivers :: Outcome(receivers[r]).None?
      ensures result.Some? ==>
                && result.value.0 in old(receivers)
                && Outcome(old(receivers)[result.value.0]) == Some(result.value.1)
                && Model() == Dropped(old(Model()), result.value.0)
    {
      var todo := receivers.Keys;
      result := None;
      while todo != {} && result.None?
        invariant todo <= receivers.Keys && Model() == old(Model())
        invariant forall r | r in receivers && r !in todo && result.None? :: Outcome(receivers[r]).None?
        invariant result.Some? ==> result.value.0 in receivers &&
                                   Outcome(receivers[result.value.0]) == Some(result.value.1)
        decreases todo
      {
        var r :| r in todo;
        var outcome := Outcome(receivers[r]);
        if outcome.Some? {
          result := Some((r, outcome.value));
        }
        todo := todo - {r};
      }
      if result.Some? {
        DropOk(Model(), result.value.0);
        receivers := receivers - {result.value.0};
      }
    }

    /** Cancels every transfer; snapshot and delivery ids only move forward. */
    method Reset() returns (cancelled: seq<(nat, SnapshotStatus)>)
      requires Valid()
      modifies this`receivers
      ensures Valid() && receivers == map[]
      ensures |cancelled| == |old(receivers)|
      ensures forall i | 0 <= i < |cancelled| :: cancelled[i].0 in old(receivers) && cancelled[i].1 == Failure
      ensures forall r | r in old(receivers) :: (r, Failure) in cancelled
    {
      cancelled := [];
      var todo := receivers.Keys;
      while todo != {}
        invariant todo <= receivers.Keys && |cancelled| + |todo| == |receivers|
        invariant forall i | 0 <= i < |cancelled| :: cancelled[i].0 in receivers && cancelled[i].1 == Failure
        invariant forall r | r in receivers :: r in todo || (r, Failure) in cancelled
        decreases todo
      {
        var r :| r in todo;
        cancelled := cancelled + [(r, Failure)];
        todo := todo - {r};
      }
      receivers := map[];
      assert PendingPairs({}, receivers) == {};
    }

    /** A request that arrives in the sender role is turned down. */
    method ProcessUnexpectedRequest(request: DeliverRequest) returns (response: DeliverResponse)
      ensures response.deliveryId == request.deliveryId && response.payload.status == Rejected
      ensures response.recipient == request.sender && response.sender == request.recipient
    {
      var payload := match request.payload
        case Header(id, _, _, _) => ResponsePayload(id, 0, Rejected)
        case Chunk(id, index, _) => ResponsePayload(id, index, Rejected)
        case _ => ResponsePayload(0, 0, Rejected);
      response := DeliverResponse(request.sender, request.recipient, request.deliveryId, payload);
    }
  }

  // ----- Receiver -----

  datatype ReceiverState = ReceiverState(
    senderId: nat,
    snapshotId: nat,
    snapshotSize: nat,
    metadata: Option<SnapshotMetadata>,
    chunkSize: nat,
    chunkCount: nat,
    chunks: map<nat, Bytes>)

  /** A header that announces contents must carry some: the source divides by the first chunk's length. */
  predicate HeaderOk(payload: Payload) {
    payload.Header? && payload.snapshotSize > 0 ==> |payload.contents| > 0
  }

  function NewReceiverState(sender: nat, header: Payload): ReceiverState
    requires header.Header? && HeaderOk(header)
  {
    ReceiverState(sender, header.snapshotId, header.snapshotSize, header.metadata, |header.contents|,
                  ChunkCount(header.snapshotSize, |header.contents|), map[0 := header.contents])
  }

  ghost predicate ReceiverOk(st: ReceiverState) {
    && st.chunkCount > 0 && st.chunks.Keys <= Below(st.chunkCount)
    && (st.chunkCount - 1) * st.chunkSize <= st.snapshotSize
  }

  /** The sender is compared, the snapshot id is not. */
  predicate Accepts(st: ReceiverState, sender: nat, index: nat, contents: Bytes)
    requires st.chunkCount > 0
  {
    && sender == st.senderId && index < st.chunkCount
    && |contents| == if index < st.chunkCount - 1 then st.chunkSize
                     else st.snapshotSize - (st.chunkCount - 1) * st.chunkSize
  }

  function ReceiveRequest(st: Option<ReceiverState>, request: DeliverRequest): (Option<ReceiverState>, ResponsePayload)
    requires HeaderOk(request.payload) && (st.Some? ==> st.value.chunkCount > 0)
  {
    var known := if st.Some? then st.value.snapshotId else 0;
    match request.payload
    case Header(id, _, _, _) =>
      (Some(NewReceiverState(request.sender, request.payload)), ResponsePayload(id, 0, Accepted))
    case Chunk(id, index, contents) =>
      if st.Some? && Accepts(st.value, request.sender, index, contents) then
        (Some(st.value.(chunks := st.value.chunks[index := contents])), ResponsePayload(id, index, Accepted))
      else
        (st, ResponsePayload(id, index, Rejected))
    case Unset(_) => (st, ResponsePayload(known, 0, Unspecified))
    case Undecodable => (st, ResponsePayload(known, 0, Rejected))
  }

  function Assembled(chunks: map<nat, Bytes>, n: nat): Bytes
    requires forall i: nat | i < n :: i in chunks
  {
    if n == 0 then [] else Assembled(chunks, n - 1) + chunks[n - 1]
  }

  datatype ReceiverError = Corrupted

  /** What polling a receiver yields: nothing, a corrupted snapshot, or the sender and the snapshot. */
  ghost function Completion(st: Option<ReceiverState>): Option<Result<(nat, RaftSnapshot), ReceiverError>>
    requires st.Some? ==> ReceiverOk(st.value)
  {
    if st.None? || |st.value.chunks| != st.value.chunkCount then None
    else if st.value.metadata.None? then Some(Err(Corrupted))
    else
      assert forall i: nat | i < st.value.chunkCount :: i in st.value.chunks by {
        Pigeonhole(st.value.chunks.Keys, st.value.chunkCount);
        assert forall i: nat | i < st.value.chunkCount :: i in Below(st.value.chunkCount);
      }
      Some(Ok((st.value.senderId,
               RaftSnapshot(st.value.metadata.value, Assembled(st.value.chunks, st.value.chunkCount)))))
  }

  lemma HeaderReceiverOk(sender: nat, header: Payload)
    requires header.Header? && HeaderOk(header)
    ensures ReceiverOk(NewReceiverState(sender, header))
  {
    if header.snapshotSize > 0 {
      var size, first := header.snapshotSize - 1, |header.contents|;
      assert size == size / first * first + size % first;
    }
  }

  class SnapshotReceiver {
    var state: Option<ReceiverState>

    ghost predicate Valid()
      reads this
    {
      state.Some? ==> ReceiverOk(state.value)
    }

    constructor ()
      ensures Valid() && state == None
    {
      state := None;
    }

    method Reset()
      modifies this
      ensures Valid() && state == None
    {
      state := None;
    }

    method ProcessRequest(request: DeliverRequest) returns (response: DeliverResponse)
      requires Valid() && HeaderOk(request.payload)
      modifies this
      ensures Valid()
      ensures (state, response.payload) == ReceiveRequest(old(state), request)
      ensures response.recipient == request.sender && response.sender == request.recipient
      ensures response.deliveryId == request.deliveryId
    {
      var payload := ResponsePayload(if state.Some? then state.value.snapshotId else 0, 0, Unspecified);
      match request.payload {
        case Header(id, _, _, _) =>
          HeaderReceiverOk(request.sender, request.payload);
          state := Some(NewReceiverState(request.sender, request.payload));
          payload := ResponsePayload(id, 0, Accepted);
        case Chunk(id, index, contents) =>
          payload := ResponsePayload(id, index, Rejected);
          if state.Some? && Accepts(state.value, request.sender, index, contents) {
            state := Some(state.value.(chunks := state.value.chunks[index := contents]));
            payload := payload.(status := Accepted);
          }
        case Unset(_) =>
        case Undecodable =>
          payload := payload.(status := Rejected);
      }
      response := DeliverResponse(request.sender, request.recipient, request.deliveryId, payload);
    }

    /** Assembles the chunks in order; none can be missing. */
    method TryComplete() returns (result: Option<Result<(nat, RaftSnapshot), ReceiverError>>)
      requires Valid()
      modifies this
      ensures Valid() && result == Completion(old(state))
      ensures state == if result.Some? then None else old(state)
    {
      if state.None? || |state.value.chunks| != state.value.chunkCount {
        return None;
      }
      var st := state.value;
      Pigeonhole(st.chunks.Keys, st.chunkCount);
      if st.metadata.None? {
        state := None;
        return Some(Err(Corrupted));
      }
      var data: Bytes := [];
      var chunks := st.chunks;
      assert forall i: nat | i < st.chunkCount :: i in Below(st.chunkCount);
      for c := 0 to st.chunkCount
        invariant chunks == map i | i in st.chunks && c <= i :: st.chunks[i]
        invariant data == Assembled(st.chunks, c)
      {
        data := data + chunks[c];
        chunks := chunks - {c};
      }
      state := None;
      result := Some(Ok((st.senderId, RaftSnapshot(st.metadata.value, data))));
    }
  }

  // ----- Processor -----

  datatype ReplicaRole = Unknown | Follower | Leader

  class SnapshotProcessor {
    const sender: SnapshotSender
    const receiver: SnapshotReceiver
    var replicaId: nat
    var leaderId: nat
    var leaderTerm: nat
    var role: ReplicaRole

    /** After `init`: the leader role is that of the last known leader, and the other role is idle. */
    ghost predicate Valid()
      reads this, sender, receiver
    {
      && sender.Valid() && receiver.Valid() && role != Unknown && sender.replicaId == replicaId
      && (replicaId != 0 ==>
            && (role == Leader <==> replicaId == leaderId)
            && (role == Follower ==> sender.receivers == map[])
            && (role == Leader ==> receiver.state == None))
    }

    constructor (replicaId: nat, config: Option<(nat, nat)>)
      requires config.Some? ==> config.value.0 > 0
      ensures Valid() && fresh(sender) && fresh(receiver)
      ensures this.replicaId == replicaId && role == Follower
    {
      sender := new SnapshotSender(replicaId, config);
      receiver := new SnapshotReceiver();
      this.replicaId, leaderId, leaderTerm, role := replicaId, 0, 0, Follower;
    }

    method ProcessClusterChange(leaderId: nat, leaderTerm: nat, replicas: seq<nat>)
      returns (cancelled: seq<(nat, SnapshotStatus)>)
      requires Valid()
      modifies this, sender`receivers, receiver
      ensures Valid() && replicaId == old(replicaId)
      ensures this.leaderId == leaderId && this.leaderTerm == leaderTerm
      ensures role == if replicaId == leaderId then Leader else Follower
      ensures var changed :=
                old(this.leaderId) != leaderId || old(this.leaderTerm) != leaderTerm || replicaId !in replicas;
              if changed && old(role) == Leader then
                sender.receivers == map[] && |cancelled| == |old(sender.receivers)| &&
                forall r | r in old(sender.receivers) :: (r, Failure) in cancelled
              else
                sender.receivers == old(sender.receivers) && cancelled == []
      ensures var changed :=
                old(this.leaderId) != leaderId || old(this.leaderTerm) != leaderTerm || replicaId !in replicas;
              receiver.state == if changed && old(role) == Follower then None else old(receiver.state)
    {
      var needsReset := this.leaderId != leaderId || this.leaderTerm != leaderTerm || replicaId !in replicas;
      this.leaderId, this.leaderTerm := leaderId, leaderTerm;
      cancelled := [];
      if needsReset {
        if role == Follower {
          receiver.Reset();
        } else {
          cancelled := sender.Reset();
        }
      }
      if role == Follower {
        if replicaId == this.leaderId { role := Leader; }
      } else {
        if replicaId != this.leaderId { role := Follower; }
      }
    }
  }
}
