/**
 Two replicas with one channel each way that loses and reorders nothing. If one of them opens the
 handshake, both complete it, and everything either is handed arrives at the other; if both do,
 both fail.
 */
module TwoParty {
  import opened Wrappers
  import opened Communication
  import H = Handshake

  /** The replicas `a`, which opens, and `b`, with the keys each of them derives. */
  datatype Pair = Pair(a: nat, b: nat, keysA: nat, keysB: nat, crypto: Crypto)

  ghost predicate Opens(crypto: Crypto, from: nat, to: nat, contents: Bytes) {
    var sealed := crypto.encrypt(from, contents);
    sealed.Some? && crypto.decrypt(to, sealed.value) == Some(contents)
  }

  /** Encryption works, and each side decrypts what the other encrypts. */
  ghost predicate Matched(e: Pair) {
    && (forall contents :: Opens(e.crypto, e.keysA, e.keysB, contents))
    && (forall contents :: Opens(e.crypto, e.keysB, e.keysA, contents))
  }

  /** One direction: what was handed in, what arrived, what travels, and as which payloads. */
  datatype Way = Way(handed: seq<Payload>, arrived: seq<Payload>, wire: seq<Wire>, flying: seq<Payload>)

  /**
   Both sides, both ways, the handshake messages sent so far, how far the handshake is, and which
   sides opened it.
   */
  datatype System = System(
    a: Peer, b: Peer, ab: Way, ba: Way, said: seq<H.Content>, stage: nat, openA: bool, openB: bool)

  const EMPTY_WAY := Way([], [], [], [])
  const INIT := System(NEW_PEER, NEW_PEER, EMPTY_WAY, EMPTY_WAY, [], 0, false, false)

  datatype Action =
    | SendA(fromA: Payload) | SendB(fromB: Payload)
    | FlushA | FlushB
    | DeliverToA | DeliverToB

  ghost predicate Enabled(s: System, x: Action) {
    match x
    case DeliverToA => s.ba.wire != []
    case DeliverToB => s.ab.wire != []
    case _ => true
  }

  ghost function Handed(w: Way, payload: Payload): Way {
    w.(handed := w.handed + [payload])
  }

  ghost function Put(w: Way, p: Peer, crypto: Crypto): Way
    requires p.phase.Completed? ==> p.encryptor.Some?
  {
    w.(wire := w.wire + Flushed(p, crypto).1,
       flying := if p.pending.None? && p.phase.Completed? then w.flying + p.buffer else w.flying)
  }

  ghost function Taken(w: Way, arrived: Option<Payload>): Way
    requires w.wire != []
  {
    w.(wire := w.wire[1..],
       arrived := if arrived.Some? then w.arrived + [arrived.value] else w.arrived,
       flying := if w.wire[0].Hello? || w.flying == [] then w.flying else w.flying[1..])
  }

  ghost function Said(said: seq<H.Content>, p: Peer): seq<H.Content> {
    if p.pending.Some? then said + [p.pending.value.content] else said
  }

  ghost function Next(e: Pair, s: System, x: Action): System
    requires PeerOk(s.a) && PeerOk(s.b) && Enabled(s, x)
  {
    var worksA, worksB := H.Works(e.keysA), H.Works(e.keysB);
    match x
    case SendA(payload) =>
      s.(a := Sent(Begun(s.a, H.Initiator, e.a, e.b), payload, worksA).0, ab := Handed(s.ab, payload),
         stage := if s.a.phase.Unknown? then s.stage + 1 else s.stage, openA := s.openA || s.a.phase.Unknown?)
    case SendB(payload) =>
      s.(b := Sent(Begun(s.b, H.Initiator, e.b, e.a), payload, worksB).0, ba := Handed(s.ba, payload),
         stage := if s.b.phase.Unknown? then s.stage + 1 else s.stage, openB := s.openB || s.b.phase.Unknown?)
    case FlushA =>
      s.(a := Flushed(s.a, e.crypto).0, ab := Put(s.ab, s.a, e.crypto), said := Said(s.said, s.a),
         stage := if s.a.pending.Some? then s.stage + 1 else s.stage)
    case FlushB =>
      s.(b := Flushed(s.b, e.crypto).0, ba := Put(s.ba, s.b, e.crypto), said := Said(s.said, s.b),
         stage := if s.b.pending.Some? then s.stage + 1 else s.stage)
    case DeliverToA =>
      var (a, arrived, ok) := Received(Begun(s.a, H.Recipient, e.a, e.b), e.crypto, s.ba.wire[0], worksA, worksA);
      s.(a := a, ba := Taken(s.ba, arrived), stage := if s.ba.wire[0].Hello? then s.stage + 1 else s.stage)
    case DeliverToB =>
      var (b, arrived, ok) := Received(Begun(s.b, H.Recipient, e.b, e.a), e.crypto, s.ab.wire[0], worksB, worksB);
      s.(b := b, ab := Taken(s.ab, arrived), stage := if s.ab.wire[0].Hello? then s.stage + 1 else s.stage)
  }

  // ----- The ten stages of a handshake that `a` opened -----

  ghost function ToB(e: Pair, content: H.Content): H.Message {
    H.Message(e.b, e.a, content)
  }

  ghost function ToA(e: Pair, content: H.Content): H.Message {
    H.Message(e.a, e.b, content)
  }

  ghost predicate SideA(e: Pair, p: Peer, stage: nat) {
    && p.pending == (if stage == 1 then Some(ToB(e, H.AttestRequest))
                     else if stage == 5 then Some(ToB(e, H.HandshakeRequest)) else None)
    && if stage == 0 then p == NEW_PEER
       else if stage <= 4 then
         p.phase.Initiated? && p.session == Some(H.NewSession(H.Initiator, e.a, e.b).(state := H.Attesting))
       else if stage <= 8 then
         p.phase.Initiated? &&
         p.session == Some(H.NewSession(H.Initiator, e.a, e.b).(state := H.KeyExchange, attestation := false))
       else p.phase.Completed? && p.encryptor == Some(e.keysA)
  }

  ghost predicate SideB(e: Pair, p: Peer, stage: nat) {
    && p.pending == (if stage == 3 then Some(ToA(e, H.AttestResponse))
                     else if stage == 7 then Some(ToA(e, H.HandshakeResponse)) else None)
    && if stage <= 2 then p == NEW_PEER
       else if stage <= 6 then
         p.phase.Initiated? &&
         p.session == Some(H.NewSession(H.Recipient, e.b, e.a).(state := H.KeyExchange, attestation := false))
       else p.phase.Completed? && p.encryptor == Some(e.keysB)
  }

  /** The handshake message on its way to `b`. */
  ghost function HelloToB(e: Pair, stage: nat): Option<H.Message> {
    if stage == 2 then Some(ToB(e, H.AttestRequest))
    else if stage == 6 then Some(ToB(e, H.HandshakeRequest)) else None
  }

  ghost function HelloToA(e: Pair, stage: nat): Option<H.Message> {
    if stage == 4 then Some(ToA(e, H.AttestResponse))
    else if stage == 8 then Some(ToA(e, H.HandshakeResponse)) else None
  }

  ghost function Sealed(crypto: Crypto, keys: nat, payload: Payload): Wire
    requires crypto.encrypt(keys, payload.contents).Some?
  {
    Data(payload.(contents := crypto.encrypt(keys, payload.contents).value))
  }

  ghost predicate Carried(crypto: Crypto, keys: nat, wire: Wire, payload: Payload) {
    crypto.encrypt(keys, payload.contents).Some? && wire == Sealed(crypto, keys, payload)
  }

  /** After the first ones, these wires carry these payloads. */
  ghost predicate Carries(crypto: Crypto, keys: nat, wires: seq<Wire>, skipped: nat, payloads: seq<Payload>) {
    |wires| == skipped + |payloads| &&
    forall i | 0 <= i < |payloads| :: Carried(crypto, keys, wires[skipped + i], payloads[i])
  }

  /** A handshake message first, if any, then sealed payloads; and nothing is missing. */
  ghost predicate WayOk(crypto: Crypto, keys: nat, w: Way, hello: Option<H.Message>, buffer: seq<Payload>) {
    && Carries(crypto, keys, w.wire, if hello.Some? then 1 else 0, w.flying)
    && (hello.Some? ==> w.wire[0] == Hello(hello.value))
    && w.handed == w.arrived + w.flying + buffer
  }

  const FOUR := [H.AttestRequest, H.AttestResponse, H.HandshakeRequest, H.HandshakeResponse]

  /** `a` opened and `b` did not, or neither did so far. */
  ghost predicate Lead(e: Pair, s: System) {
    && !s.openB && (s.openA <==> s.stage > 0)
    && s.stage <= 9 && SideA(e, s.a, s.stage) && SideB(e, s.b, s.stage)
    && WayOk(e.crypto, e.keysA, s.ab, HelloToB(e, s.stage), s.a.buffer)
    && WayOk(e.crypto, e.keysB, s.ba, HelloToA(e, s.stage), s.b.buffer)
    && (s.stage < 9 ==> s.ab.flying == []) && (s.stage < 8 ==> s.ba.flying == [])
    && (s.stage < 9 ==> s.ab.arrived == [] && s.ba.arrived == [])
    && s.said == FOUR[..s.stage / 2]
  }

  lemma SidesOk(e: Pair, s: System)
    requires Lead(e, s)
    ensures PeerOk(s.a) && PeerOk(s.b)
    ensures !s.a.phase.Failed? && !s.b.phase.Failed?
  {
  }

  lemma {:induction false} EncryptedCarries(crypto: Crypto, keys: nat, payloads: seq<Payload>)
    requires forall contents :: crypto.encrypt(keys, contents).Some?
    ensures Carries(crypto, keys, Encrypted(crypto, keys, payloads), 0, payloads)
  {
    if payloads != [] {
      var n := |payloads| - 1;
      EncryptedCarries(crypto, keys, payloads[..n]);
      assert payloads == payloads[..n] + [payloads[n]];
      assert Encrypted(crypto, keys, payloads) ==
             Encrypted(crypto, keys, payloads[..n]) + [Sealed(crypto, keys, payloads[n])];
    }
  }

  lemma CarriesMore(
      crypto: Crypto, keys: nat, wires: seq<Wire>, skipped: nat, payloads: seq<Payload>,
      wires': seq<Wire>, payloads': seq<Payload>)
    requires Carries(crypto, keys, wires, skipped, payloads) && Carries(crypto, keys, wires', 0, payloads')
    ensures Carries(crypto, keys, wires + wires', skipped, payloads + payloads')
  {
    forall i | 0 <= i < |payloads + payloads'|
      ensures Carried(crypto, keys, (wires + wires')[skipped + i], (payloads + payloads')[i])
    {
      if i < |payloads| {
        assert Carried(crypto, keys, wires[skipped + i], payloads[i]);
      } else {
        assert Carried(crypto, keys, wires'[0 + (i - |payloads|)], payloads'[i - |payloads|]);
      }
    }
  }

  /** Payloads that leave a completed side go to the end of the way. */
  lemma PutPayloads(crypto: Crypto, keys: nat, w: Way, hello: Option<H.Message>, p: Peer)
    requires WayOk(crypto, keys, w, hello, p.buffer) && forall contents :: crypto.encrypt(keys, contents).Some?
    requires p.pending.None? && p.phase.Completed? && p.encryptor == Some(keys)
    ensures WayOk(crypto, keys, Put(w, p, crypto), hello, [])
  {
    EncryptedCarries(crypto, keys, p.buffer);
    CarriesMore(crypto, keys, w.wire, if hello.Some? then 1 else 0, w.flying,
                Encrypted(crypto, keys, p.buffer), p.buffer);
    assert w.arrived + w.flying + p.buffer == w.arrived + (w.flying + p.buffer) + [];
  }

  /** A pending handshake message goes onto a way that is empty. */
  lemma PutHello(crypto: Crypto, keys: nat, w: Way, p: Peer)
    requires WayOk(crypto, keys, w, None, p.buffer) && w.flying == [] && p.pending.Some?
    requires p.phase.Completed? ==> p.encryptor.Some?
    ensures WayOk(crypto, keys, Put(w, p, crypto), p.pending, p.buffer) && Put(w, p, crypto).flying == []
  {
    assert |w.wire| == 0;
    assert Put(w, p, crypto).wire == [Hello(p.pending.value)];
  }

  lemma CarriesRest(crypto: Crypto, keys: nat, wires: seq<Wire>, payloads: seq<Payload>)
    requires Carries(crypto, keys, wires, 1, payloads)
    ensures Carries(crypto, keys, wires[1..], 0, payloads)
  {
    forall i | 0 <= i < |payloads| ensures Carried(crypto, keys, wires[1..][0 + i], payloads[i]) {
      assert Carried(crypto, keys, wires[1 + i], payloads[i]);
    }
  }

  lemma TakeHello(crypto: Crypto, keys: nat, w: Way, hello: H.Message, buffer: seq<Payload>)
    requires WayOk(crypto, keys, w, Some(hello), buffer)
    ensures w.wire != [] && w.wire[0] == Hello(hello) && WayOk(crypto, keys, Taken(w, None), None, buffer)
    ensures Taken(w, None).flying == w.flying
  {
    CarriesRest(crypto, keys, w.wire, w.flying);
  }

  lemma CarriesLess(crypto: Crypto, keys: nat, wires: seq<Wire>, payloads: seq<Payload>)
    requires Carries(crypto, keys, wires, 0, payloads) && wires != []
    ensures payloads != [] && Carried(crypto, keys, wires[0], payloads[0])
    ensures Carries(crypto, keys, wires[1..], 0, payloads[1..])
  {
    assert Carried(crypto, keys, wires[0 + 0], payloads[0]);
    forall i | 0 <= i < |payloads| - 1 ensures Carried(crypto, keys, wires[1..][0 + i], payloads[1..][i]) {
      assert Carried(crypto, keys, wires[0 + (i + 1)], payloads[i + 1]);
    }
  }

  lemma TakePayload(crypto: Crypto, from: nat, to: nat, w: Way, buffer: seq<Payload>)
    requires WayOk(crypto, from, w, None, buffer) && w.wire != []
    requires forall contents :: Opens(crypto, from, to, contents)
    ensures w.flying != [] && w.wire[0].Data?
    ensures Decrypted(crypto, to, w.wire[0]) == Some(w.flying[0])
    ensures WayOk(crypto, from, Taken(w, Some(w.flying[0])), None, buffer)
  {
    CarriesLess(crypto, from, w.wire, w.flying);
    assert Opens(crypto, from, to, w.flying[0].contents);
    assert w.arrived + w.flying + buffer == (w.arrived + [w.flying[0]]) + w.flying[1..] + buffer;
  }

  lemma HandIn(crypto: Crypto, keys: nat, w: Way, hello: Option<H.Message>, buffer: seq<Payload>, payload: Payload)
    requires WayOk(crypto, keys, w, hello, buffer)
    ensures WayOk(crypto, keys, Handed(w, payload), hello, buffer + [payload])
  {
    assert w.arrived + w.flying + buffer + [payload] == w.arrived + w.flying + (buffer + [payload]);
  }

  lemma SendStep(e: Pair, s: System, x: Action)
    requires Lead(e, s) && (x.SendA? || (x.SendB? && !s.b.phase.Unknown?)) && PeerOk(s.a) && PeerOk(s.b)
    ensures Lead(e, Next(e, s, x))
  {
    if x.SendA? {
      HandIn(e.crypto, e.keysA, s.ab, HelloToB(e, s.stage), s.a.buffer, x.fromA);
    } else {
      HandIn(e.crypto, e.keysB, s.ba, HelloToA(e, s.stage), s.b.buffer, x.fromB);
    }
  }

  lemma MatchedEncrypts(crypto: Crypto, from: nat, to: nat)
    requires forall contents :: Opens(crypto, from, to, contents)
    ensures forall contents :: crypto.encrypt(from, contents).Some?
  {
    forall contents ensures crypto.encrypt(from, contents).Some? {
      assert Opens(crypto, from, to, contents);
    }
  }

  lemma FlushStep(e: Pair, s: System, x: Action)
    requires Matched(e) && Lead(e, s) && (x.FlushA? || x.FlushB?) && PeerOk(s.a) && PeerOk(s.b)
    ensures Lead(e, Next(e, s, x))
  {
    MatchedEncrypts(e.crypto, e.keysA, e.keysB);
    MatchedEncrypts(e.crypto, e.keysB, e.keysA);
    if x.FlushA? {
      if s.a.pending.Some? {
        PutHello(e.crypto, e.keysA, s.ab, s.a);
      } else if s.a.phase.Completed? {
        PutPayloads(e.crypto, e.keysA, s.ab, None, s.a);
      }
    } else {
      if s.b.pending.Some? {
        PutHello(e.crypto, e.keysB, s.ba, s.b);
      } else if s.b.phase.Completed? {
        PutPayloads(e.crypto, e.keysB, s.ba, HelloToA(e, s.stage), s.b);
      }
    }
  }

  lemma HelloToAStep(e: Pair, s: System)
    requires Lead(e, s) && PeerOk(s.a) && PeerOk(s.b) && (s.stage == 4 || s.stage == 8)
    ensures s.ba.wire != [] && Next(e, s, DeliverToA).stage == s.stage + 1 && Lead(e, Next(e, s, DeliverToA))
  {
    TakeHello(e.crypto, e.keysB, s.ba, HelloToA(e, s.stage).value, s.b.buffer);
  }

  lemma HelloToBStep(e: Pair, s: System)
    requires Lead(e, s) && PeerOk(s.a) && PeerOk(s.b) && (s.stage == 2 || s.stage == 6)
    ensures s.ab.wire != [] && Next(e, s, DeliverToB).stage == s.stage + 1 && Lead(e, Next(e, s, DeliverToB))
  {
    TakeHello(e.crypto, e.keysA, s.ab, HelloToB(e, s.stage).value, s.a.buffer);
  }

  lemma PayloadToAStep(e: Pair, s: System)
    requires Matched(e) && Lead(e, s) && s.ba.wire != [] && PeerOk(s.a) && PeerOk(s.b) && s.stage == 9
    ensures Lead(e, Next(e, s, DeliverToA))
  {
    TakePayload(e.crypto, e.keysB, e.keysA, s.ba, s.b.buffer);
  }

  lemma PayloadToBStep(e: Pair, s: System)
    requires Matched(e) && Lead(e, s) && s.ab.wire != [] && PeerOk(s.a) && PeerOk(s.b) && s.stage == 9
    ensures Lead(e, Next(e, s, DeliverToB))
  {
    TakePayload(e.crypto, e.keysA, e.keysB, s.ab, s.a.buffer);
  }

  /** Only a handshake message travels before the handshake is over. */
  lemma WiresBefore(e: Pair, s: System)
    requires Lead(e, s) && s.stage < 9
    ensures s.ab.wire != [] ==> s.stage == 2 || s.stage == 6
    ensures s.ba.wire != [] ==> s.stage == 4 || s.stage == 8
  {
  }

  lemma DeliverStep(e: Pair, s: System, x: Action)
    requires Matched(e) && Lead(e, s) && (x.DeliverToA? || x.DeliverToB?) && Enabled(s, x) && PeerOk(s.a) && PeerOk(s.b)
    ensures Lead(e, Next(e, s, x))
  {
    if s.stage == 9 {
      if x.DeliverToA? {
        PayloadToAStep(e, s);
      } else {
        PayloadToBStep(e, s);
      }
    } else {
      WiresBefore(e, s);
      if x.DeliverToA? {
        HelloToAStep(e, s);
      } else {
        HelloToBStep(e, s);
      }
    }
  }

  /** Whatever happens but `b` opening too. */
  lemma LeadGoesOn(e: Pair, s: System, x: Action)
    requires Matched(e) && Lead(e, s) && Enabled(s, x) && !(x.SendB? && s.b.phase.Unknown?)
    ensures PeerOk(s.a) && PeerOk(s.b) && Lead(e, Next(e, s, x))
  {
    SidesOk(e, s);
    match x
    case SendA(_) => SendStep(e, s, x);
    case SendB(_) => SendStep(e, s, x);
    case FlushA => FlushStep(e, s, x);
    case FlushB => FlushStep(e, s, x);
    case DeliverToA => DeliverStep(e, s, x);
    case DeliverToB => DeliverStep(e, s, x);
  }

  // ----- The other way round -----

  ghost function SwapPair(e: Pair): Pair {
    Pair(e.b, e.a, e.keysB, e.keysA, e.crypto)
  }

  ghost function Swap(s: System): System {
    System(s.b, s.a, s.ba, s.ab, s.said, s.stage, s.openB, s.openA)
  }

  ghost function SwapAction(x: Action): Action {
    match x
    case SendA(payload) => SendB(payload)
    case SendB(payload) => SendA(payload)
    case FlushA => FlushB
    case FlushB => FlushA
    case DeliverToA => DeliverToB
    case DeliverToB => DeliverToA
  }

  /** Neither side is special. */
  lemma NextSwaps(e: Pair, s: System, x: Action)
    requires PeerOk(s.a) && PeerOk(s.b) && Enabled(s, x)
    ensures Enabled(Swap(s), SwapAction(x))
    ensures Next(SwapPair(e), Swap(s), SwapAction(x)) == Swap(Next(e, s, x))
    ensures Swap(Swap(s)) == s && SwapPair(SwapPair(e)) == e && SwapAction(SwapAction(x)) == x
  {
  }

  // ----- Both opened -----

  /** A side that opened and has not been answered, or failed. */
  ghost predicate Opener(p: Peer, self: nat, other: nat) {
    p.phase.Failed? ||
    (p.phase.Initiated? && p.session == Some(H.NewSession(H.Initiator, self, other).(state := H.Attesting)))
  }

  /** The opening message waits, travels, or was heard, and the other side fails just when it hears it. */
  ghost predicate OpeningOk(p: Peer, w: Way, q: Peer, opening: H.Message) {
    && w.flying == [] && w.arrived == [] && w.handed == p.buffer
    && if p.pending.Some? then p.pending.value == opening && w.wire == [] && !q.phase.Failed?
       else if q.phase.Failed? then w.wire == [] else w.wire == [Hello(opening)]
  }

  ghost predicate Clash(e: Pair, s: System) {
    && s.openA && s.openB && Opener(s.a, e.a, e.b) && Opener(s.b, e.b, e.a)
    && OpeningOk(s.a, s.ab, s.b, ToB(e, H.AttestRequest)) && OpeningOk(s.b, s.ba, s.a, ToA(e, H.AttestRequest))
  }

  /** An opener does not take the other's opening message. */
  lemma OpenerFails(p: Peer, self: nat, other: nat, crypto: Crypto, m: H.Message, o: H.Outcome)
    requires Opener(p, self, other) && !p.phase.Failed? && m.content == H.AttestRequest
    ensures var (q, arrived, _) := Received(p, crypto, Hello(m), o, o);
            q.phase.Failed? && q.pending == p.pending && q.buffer == p.buffer && arrived == None
  {
  }

  lemma ClashSides(e: Pair, s: System)
    requires Clash(e, s)
    ensures PeerOk(s.a) && PeerOk(s.b) && !s.a.phase.Unknown? && !s.b.phase.Unknown?
    ensures !s.a.phase.Completed? && !s.b.phase.Completed?
  {
  }

  /** What `a` does, or hears. */
  lemma ClashStepA(e: Pair, s: System, x: Action)
    requires Clash(e, s) && Enabled(s, x) && (x.SendA? || x.FlushA? || x.DeliverToA?) && PeerOk(s.a) && PeerOk(s.b)
    ensures Clash(e, Next(e, s, x))
  {
    ClashSides(e, s);
    if x.DeliverToA? {
      OpenerFails(s.a, e.a, e.b, e.crypto, ToA(e, H.AttestRequest), H.Works(e.keysA));
    }
  }

  lemma ClashSwaps(e: Pair, s: System)
    ensures Clash(SwapPair(e), Swap(s)) <==> Clash(e, s)
  {
  }

  lemma ClashGoesOn(e: Pair, s: System, x: Action)
    requires Clash(e, s) && Enabled(s, x)
    ensures PeerOk(s.a) && PeerOk(s.b) && Clash(e, Next(e, s, x))
  {
    ClashSides(e, s);
    if x.SendA? || x.FlushA? || x.DeliverToA? {
      ClashStepA(e, s, x);
    } else {
      NextSwaps(e, s, x);
      ClashSwaps(e, s);
      ClashStepA(SwapPair(e), Swap(s), SwapAction(x));
      ClashSwaps(e, Next(e, s, x));
    }
  }

  /** `b` opens after `a` did, and before it has heard of it. */
  lemma SecondOpens(e: Pair, s: System, payload: Payload)
    requires Lead(e, s) && s.b.phase.Unknown? && s.stage > 0 && PeerOk(s.a) && PeerOk(s.b)
    ensures Clash(e, Next(e, s, SendB(payload)))
  {
  }

  /** `b` opens first. */
  lemma OtherOpens(e: Pair, s: System, payload: Payload)
    requires Matched(e) && Lead(e, s) && s.stage == 0 && PeerOk(s.a) && PeerOk(s.b)
    ensures Lead(SwapPair(e), Swap(Next(e, s, SendB(payload))))
  {
    assert Lead(SwapPair(e), Swap(s));
    NextSwaps(e, s, SendB(payload));
    LeadGoesOn(SwapPair(e), Swap(s), SendA(payload));
  }

  ghost predicate Inv(e: Pair, s: System) {
    Lead(e, s) || Lead(SwapPair(e), Swap(s)) || Clash(e, s)
  }

  lemma LeadKeepsInv(e: Pair, s: System, x: Action)
    requires Matched(e) && Lead(e, s) && Enabled(s, x)
    ensures PeerOk(s.a) && PeerOk(s.b) && Inv(e, Next(e, s, x))
  {
    SidesOk(e, s);
    if x.SendB? && s.b.phase.Unknown? {
      if s.stage == 0 {
        OtherOpens(e, s, x.fromB);
      } else {
        SecondOpens(e, s, x.fromB);
      }
    } else {
      LeadGoesOn(e, s, x);
    }
  }

  lemma InvSwaps(e: Pair, s: System)
    ensures Inv(SwapPair(e), Swap(s)) <==> Inv(e, s)
  {
    assert SwapPair(SwapPair(e)) == e && Swap(Swap(s)) == s;
    ClashSwaps(e, s);
  }

  lemma InvIsInductive(e: Pair, s: System, x: Action)
    requires Matched(e) && Inv(e, s) && Enabled(s, x)
    ensures PeerOk(s.a) && PeerOk(s.b) && Inv(e, Next(e, s, x))
  {
    if Lead(e, s) {
      LeadKeepsInv(e, s, x);
    } else if Clash(e, s) {
      ClashGoesOn(e, s, x);
    } else {
      SidesOk(SwapPair(e), Swap(s));
      NextSwaps(e, s, x);
      LeadKeepsInv(SwapPair(e), Swap(s), SwapAction(x));
      InvSwaps(e, Next(e, s, x));
    }
  }

  // ----- Runs -----

  ghost predicate IsRun(e: Pair, states: seq<System>, actions: seq<Action>) {
    && |states| == |actions| + 1 && states[0] == INIT
    && forall n {:trigger actions[n]} | 0 <= n < |actions| ::
         && PeerOk(states[n].a) && PeerOk(states[n].b) && Enabled(states[n], actions[n])
         && states[n + 1] == Next(e, states[n], actions[n])
  }

  lemma InitIsInv(e: Pair)
    ensures Inv(e, INIT)
  {
    assert FOUR[..0] == [];
  }

  lemma {:induction false} InvInRun(e: Pair, states: seq<System>, actions: seq<Action>, n: nat)
    requires Matched(e) && IsRun(e, states, actions) && n < |states|
    ensures Inv(e, states[n])
  {
    if n == 0 {
      InitIsInv(e);
    } else {
      InvInRun(e, states, actions, n - 1);
      InvIsInductive(e, states[n - 1], actions[n - 1]);
    }
  }

  ghost predicate Conserved(w: Way, buffer: seq<Payload>) {
    && w.handed == w.arrived + w.flying + buffer
    && (w.wire == [] && buffer == [] ==> w.arrived == w.handed)
  }

  /**
   Neither side failed, and the handshake messages sent are the first of the four, in turn, and all
   four once the side that opened has completed, which the other one then has too.
   */
  ghost predicate GoesWell(s: System) {
    && !s.a.phase.Failed? && !s.b.phase.Failed? && s.said <= FOUR
    && (s.openA && s.a.phase.Completed? ==> s.said == FOUR && s.b.phase.Completed?)
    && (s.openB && s.b.phase.Completed? ==> s.said == FOUR && s.a.phase.Completed?)
  }

  lemma LeadGoesWell(e: Pair, s: System)
    requires Lead(e, s)
    ensures GoesWell(s) && Conserved(s.ab, s.a.buffer) && Conserved(s.ba, s.b.buffer)
  {
    SidesOk(e, s);
    assert FOUR[..4] == FOUR;
  }

  lemma ClashConserves(e: Pair, s: System)
    requires Clash(e, s)
    ensures Conserved(s.ab, s.a.buffer) && Conserved(s.ba, s.b.buffer) && s.ab.arrived == [] && s.ba.arrived == []
  {
    assert s.ab.handed == [] + [] + s.a.buffer && s.ba.handed == [] + [] + s.b.buffer;
  }

  /**
   In every run what arrives on either side is what the other was handed, from the start, once and
   in order, the rest still travelling or held. Unless both sides opened, neither ever fails and the
   handshake goes as it should; if both opened, neither completes and nothing arrives.
   */
  lemma EverythingArrivesInOrder(e: Pair, states: seq<System>, actions: seq<Action>, n: nat)
    requires Matched(e) && IsRun(e, states, actions) && n < |states|
    ensures var s := states[n];
            && Conserved(s.ab, s.a.buffer) && Conserved(s.ba, s.b.buffer)
            && (!(s.openA && s.openB) ==> GoesWell(s))
            && (s.openA && s.openB ==>
                  !s.a.phase.Completed? && !s.b.phase.Completed? && s.ab.arrived == [] && s.ba.arrived == [])
  {
    var s := states[n];
    InvInRun(e, states, actions, n);
    if Lead(e, s) {
      LeadGoesWell(e, s);
    } else if Clash(e, s) {
      ClashConserves(e, s);
    } else {
      LeadGoesWell(SwapPair(e), Swap(s));
    }
  }

  // ----- Who fails -----

  /** A side opens although the other one has. */
  ghost predicate OpensSecond(s: System, x: Action) {
    (x.SendA? && s.a.phase.Unknown? && s.openB) || (x.SendB? && s.b.phase.Unknown? && s.openA)
  }

  lemma OpenedBefore(e: Pair, s: System)
    requires Inv(e, s)
    ensures (s.openA ==> !s.a.phase.Unknown?) && (s.openB ==> !s.b.phase.Unknown?)
  {
  }

  lemma {:induction false} BothOpenedIff(e: Pair, states: seq<System>, actions: seq<Action>, n: nat)
    requires Matched(e) && IsRun(e, states, actions) && n < |states|
    ensures states[n].openA && states[n].openB <==>
            exists i {:trigger actions[i]} :: 0 <= i < n && OpensSecond(states[i], actions[i])
  {
    if n > 0 {
      BothOpenedIff(e, states, actions, n - 1);
      InvInRun(e, states, actions, n - 1);
      OpenedBefore(e, states[n - 1]);
      assert states[n] == Next(e, states[n - 1], actions[n - 1]);
    }
  }

  /** Every handshake message that was produced has been delivered. */
  ghost predicate Quiet(s: System) {
    s.a.pending.None? && s.b.pending.None? && s.ab.wire == [] && s.ba.wire == []
  }

  /**
   A side fails only if both opened, and once everything sent was delivered both have failed if and
   only if at some step a side opened although the other one had.
   */
  lemma NeitherFailsIff(e: Pair, states: seq<System>, actions: seq<Action>, n: nat)
    requires Matched(e) && IsRun(e, states, actions) && n < |states|
    ensures var s := states[n];
            var clash := exists i {:trigger actions[i]} :: 0 <= i < n && OpensSecond(states[i], actions[i]);
            && (s.a.phase.Failed? || s.b.phase.Failed? ==> clash)
            && (Quiet(s) ==> (s.a.phase.Failed? <==> clash) && (s.b.phase.Failed? <==> clash))
  {
    BothOpenedIff(e, states, actions, n);
    EverythingArrivesInOrder(e, states, actions, n);
    InvInRun(e, states, actions, n);
  }

  /** Once both opened, flushing and delivering makes both fail. */
  lemma ClashFails(e: Pair, s: System, x: Action)
    requires Clash(e, s) && PeerOk(s.a) && PeerOk(s.b) && Enabled(s, x)
    ensures x.FlushA? ==> Next(e, s, x).a.pending.None?
    ensures x.FlushB? ==> Next(e, s, x).b.pending.None?
    ensures x.FlushB? || x.DeliverToA? || x.DeliverToB? ==> Next(e, s, x).a.pending == s.a.pending
    ensures x.FlushA? || x.DeliverToA? || x.DeliverToB? ==> Next(e, s, x).b.pending == s.b.pending
    ensures x.DeliverToA? ==> Next(e, s, x).a.phase.Failed? && Next(e, s, x).b == s.b && Next(e, s, x).ab == s.ab
    ensures x.DeliverToB? ==> Next(e, s, x).b.phase.Failed? && Next(e, s, x).a == s.a && Next(e, s, x).ba == s.ba
  {
    if x.DeliverToA? {
      OpenerFails(s.a, e.a, e.b, e.crypto, ToA(e, H.AttestRequest), H.Works(e.keysA));
    }
    if x.DeliverToB? {
      OpenerFails(s.b, e.b, e.a, e.crypto, ToB(e, H.AttestRequest), H.Works(e.keysB));
    }
  }

  ghost predicate IsStep(e: Pair, s: System, x: Action, t: System) {
    PeerOk(s.a) && PeerOk(s.b) && Enabled(s, x) && t == Next(e, s, x)
  }

  /** Both sides are handed a payload before either heard of the other: the second one opens too. */
  lemma BothOpen(e: Pair, first: Payload, second: Payload) returns (s: System, t: System)
    requires Matched(e)
    ensures IsStep(e, INIT, SendA(first), s) && IsStep(e, s, SendB(second), t) && Clash(e, t)
    ensures t.a.pending.Some? && t.b.pending.Some? && !t.a.phase.Failed? && !t.b.phase.Failed?
  {
    InitIsInv(e);
    assert Lead(e, INIT);
    LeadGoesOn(e, INIT, SendA(first));
    s := Next(e, INIT, SendA(first));
    SidesOk(e, s);
    SecondOpens(e, s, second);
    t := Next(e, s, SendB(second));
  }

  lemma BothFlush(e: Pair, s: System) returns (t: System, u: System)
    requires Clash(e, s) && !s.a.phase.Failed? && !s.b.phase.Failed?
    ensures IsStep(e, s, FlushA, t) && IsStep(e, t, FlushB, u) && Clash(e, u)
    ensures u.a.pending.None? && u.b.pending.None? && !u.a.phase.Failed? && !u.b.phase.Failed?
  {
    ClashGoesOn(e, s, FlushA);
    ClashFails(e, s, FlushA);
    t := Next(e, s, FlushA);
    ClashGoesOn(e, t, FlushB);
    ClashFails(e, t, FlushB);
    u := Next(e, t, FlushB);
  }

  lemma BothHear(e: Pair, s: System) returns (t: System, u: System)
    requires Clash(e, s) && s.a.pending.None? && s.b.pending.None? && !s.a.phase.Failed? && !s.b.phase.Failed?
    ensures IsStep(e, s, DeliverToA, t) && IsStep(e, t, DeliverToB, u) && u.a.phase.Failed? && u.b.phase.Failed?
  {
    ClashGoesOn(e, s, DeliverToA);
    ClashFails(e, s, DeliverToA);
    t := Next(e, s, DeliverToA);
    ClashGoesOn(e, t, DeliverToB);
    ClashFails(e, t, DeliverToB);
    u := Next(e, t, DeliverToB);
  }

  /** And then both fail. */
  lemma BothFail(e: Pair, first: Payload, second: Payload) returns (states: seq<System>, actions: seq<Action>)
    requires Matched(e)
    ensures IsRun(e, states, actions) && |states| == 7
    ensures states[6].a.phase.Failed? && states[6].b.phase.Failed?
  {
    var s1, s2 := BothOpen(e, first, second);
    var s3, s4 := BothFlush(e, s2);
    var s5, s6 := BothHear(e, s4);
    states := [INIT, s1, s2, s3, s4, s5, s6];
    actions := [SendA(first), SendB(second), FlushA, FlushB, DeliverToA, DeliverToB];
    forall n | 0 <= n < |actions| ensures IsStep(e, states[n], actions[n], states[n + 1]) {
    }
  }

  /** A handshake that was opened and is not over can always take its next step. */
  lemma HandshakeGoesOn(e: Pair, s: System) returns (x: Action)
    requires Matched(e) && Lead(e, s) && 1 <= s.stage <= 8
    ensures PeerOk(s.a) && PeerOk(s.b) && Enabled(s, x) && !x.SendA? && !x.SendB?
    ensures Next(e, s, x).stage == s.stage + 1
  {
    SidesOk(e, s);
    if s.stage == 1 || s.stage == 5 {
      x := FlushA;
    } else if s.stage == 3 || s.stage == 7 {
      x := FlushB;
    } else if s.stage == 2 || s.stage == 6 {
      x := DeliverToB;
      HelloToBStep(e, s);
    } else {
      x := DeliverToA;
      HelloToAStep(e, s);
    }
  }

  // ----- Everything can arrive -----

  ghost predicate Leads(e: Pair, s: System, actions: seq<Action>, t: System)
    decreases |actions|
  {
    if actions == [] then s == t
    else PeerOk(s.a) && PeerOk(s.b) && Enabled(s, actions[0]) && Leads(e, Next(e, s, actions[0]), actions[1..], t)
  }

  ghost predicate AllArrived(s: System) {
    s.ab.arrived == s.ab.handed && s.ba.arrived == s.ba.handed
  }

  /** After the handshake, flushing empties the buffers and delivering the ways. */
  lemma SettlesOn(e: Pair, s: System) returns (x: Action)
    requires Matched(e) && Lead(e, s) && s.stage == 9
    requires s.a.buffer != [] || s.b.buffer != [] || s.ab.wire != [] || s.ba.wire != []
    ensures PeerOk(s.a) && PeerOk(s.b) && Enabled(s, x) && !x.SendA? && !x.SendB?
    ensures var t := Next(e, s, x);
            && t.stage == 9 && |t.a.buffer| <= |s.a.buffer| && |t.b.buffer| <= |s.b.buffer|
            && (|t.a.buffer| == |s.a.buffer| && |t.b.buffer| == |s.b.buffer| ==>
                  |t.ab.wire| + |t.ba.wire| < |s.ab.wire| + |s.ba.wire|)
  {
    SidesOk(e, s);
    if s.a.buffer != [] {
      x := FlushA;
    } else if s.b.buffer != [] {
      x := FlushB;
    } else if s.ab.wire != [] {
      x := DeliverToB;
      TakePayload(e.crypto, e.keysA, e.keysB, s.ab, s.a.buffer);
    } else {
      x := DeliverToA;
      TakePayload(e.crypto, e.keysB, e.keysA, s.ba, s.b.buffer);
    }
  }

  lemma SettledArrived(e: Pair, s: System)
    requires Lead(e, s) && s.a.buffer == [] && s.b.buffer == [] && s.ab.wire == [] && s.ba.wire == []
    ensures AllArrived(s)
  {
  }

  lemma NothingHandedYet(e: Pair, s: System)
    requires Lead(e, s) && s.stage == 0
    ensures AllArrived(s)
  {
  }

  lemma NothingMoreHanded(e: Pair, s: System, x: Action)
    requires PeerOk(s.a) && PeerOk(s.b) && Enabled(s, x) && !x.SendA? && !x.SendB?
    ensures Next(e, s, x).ab.handed == s.ab.handed && Next(e, s, x).ba.handed == s.ba.handed
  {
  }

  /** Unless the other side opens too there are steps after which everything handed in has arrived. */
  lemma Settles(e: Pair, s: System) returns (actions: seq<Action>, t: System)
    requires Matched(e) && Lead(e, s)
    ensures Leads(e, s, actions, t) && AllArrived(t)
    ensures t.ab.handed == s.ab.handed && t.ba.handed == s.ba.handed
    decreases 9 - s.stage, |s.a.buffer| + |s.b.buffer|, |s.ab.wire| + |s.ba.wire|
  {
    if s.stage == 0 {
      NothingHandedYet(e, s);
      actions, t := [], s;
    } else if s.stage == 9 && s.a.buffer == [] && s.b.buffer == [] && s.ab.wire == [] && s.ba.wire == [] {
      SettledArrived(e, s);
      actions, t := [], s;
    } else {
      var x;
      if s.stage == 9 {
        x := SettlesOn(e, s);
      } else {
        x := HandshakeGoesOn(e, s);
      }
      LeadGoesOn(e, s, x);
      NothingMoreHanded(e, s, x);
      var rest;
      rest, t := Settles(e, Next(e, s, x));
      actions := [x] + rest;
      assert actions[1..] == rest;
    }
  }

  ghost function SwapActions(actions: seq<Action>): seq<Action> {
    seq(|actions|, i requires 0 <= i < |actions| => SwapAction(actions[i]))
  }

  lemma {:induction false} LeadsSwaps(e: Pair, s: System, actions: seq<Action>, t: System)
    requires Leads(e, s, actions, t)
    ensures Leads(SwapPair(e), Swap(s), SwapActions(actions), Swap(t))
    decreases |actions|
  {
    if actions != [] {
      NextSwaps(e, s, actions[0]);
      LeadsSwaps(e, Next(e, s, actions[0]), actions[1..], t);
      assert SwapActions(actions)[1..] == SwapActions(actions[1..]);
    }
  }

  ghost predicate BothFailed(s: System) {
    s.a.phase.Failed? && s.b.phase.Failed?
  }

  /** How many steps a clash is from both having failed. */
  ghost function Remaining(s: System): nat {
    (if s.a.pending.Some? then 1 else 0) + (if s.b.pending.Some? then 1 else 0) +
    (if s.a.phase.Failed? then 0 else 1) + (if s.b.phase.Failed? then 0 else 1)
  }

  lemma ClashNext(e: Pair, s: System) returns (x: Action)
    requires Clash(e, s) && !BothFailed(s)
    ensures PeerOk(s.a) && PeerOk(s.b) && Enabled(s, x) && !x.SendA? && !x.SendB?
    ensures Remaining(Next(e, s, x)) < Remaining(s)
  {
    ClashSides(e, s);
    if s.a.pending.Some? {
      x := FlushA;
    } else if s.b.pending.Some? {
      x := FlushB;
    } else if !s.b.phase.Failed? {
      x := DeliverToB;
    } else {
      x := DeliverToA;
    }
    ClashFails(e, s, x);
  }

  lemma ClashSettles(e: Pair, s: System) returns (actions: seq<Action>, t: System)
    requires Clash(e, s)
    ensures Leads(e, s, actions, t) && BothFailed(t)
    ensures t.ab.handed == s.ab.handed && t.ba.handed == s.ba.handed
    decreases Remaining(s)
  {
    if BothFailed(s) {
      actions, t := [], s;
    } else {
      var x := ClashNext(e, s);
      ClashGoesOn(e, s, x);
      NothingMoreHanded(e, s, x);
      var rest;
      rest, t := ClashSettles(e, Next(e, s, x));
      actions := [x] + rest;
      assert actions[1..] == rest;
    }
  }

  /**
   Nothing is ever stuck: from every state of every run there are steps that hand in nothing more
   and lead to one where each side has received all the other was handed; or, if both sides
   opened, to one where both have failed.
   */
  lemma EverythingCanArrive(e: Pair, states: seq<System>, actions: seq<Action>, n: nat)
    returns (more: seq<Action>, t: System)
    requires Matched(e) && IsRun(e, states, actions) && n < |states|
    ensures Leads(e, states[n], more, t) && t.ab.handed == states[n].ab.handed && t.ba.handed == states[n].ba.handed
    ensures if states[n].openA && states[n].openB then BothFailed(t) else AllArrived(t)
  {
    InvInRun(e, states, actions, n);
    var s := states[n];
    if Lead(e, s) {
      more, t := Settles(e, s);
    } else if Clash(e, s) {
      more, t := ClashSettles(e, s);
    } else {
      var swapped, u := Settles(SwapPair(e), Swap(s));
      LeadsSwaps(SwapPair(e), Swap(s), swapped, u);
      more, t := SwapActions(swapped), Swap(u);
    }
  }
}
