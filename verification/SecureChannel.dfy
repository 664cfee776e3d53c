/**
 What the channel promises over whole runs: against any peer, nothing handed in is lost and
 nothing goes out before the handshake; between two replicas, everything arrives in order.
 */
module SecureChannel {
  import opened Wrappers
  import opened Communication
  import H = Handshake

  // ----- One end, against any peer -----

  /**
   One end of a channel; the payloads it was handed and those it sent out encrypted; the role
   of the last session, and the handshake messages that session took.
   */
  datatype End = End(
    peer: Peer, handed: seq<Payload>, emitted: seq<Payload>, role: H.Role, accepted: seq<H.Content>)

  const START := End(NEW_PEER, [], [], H.Initiator, [])

  datatype Action =
    | Send(payload: Payload, opening: H.Outcome)
    | Receive(wire: Wire, taken: H.Outcome, reply: H.Outcome)
    | Flush
    | Tick(retry: nat)

  /** The payloads of a buffer that can be encrypted. */
  ghost function Encryptable(crypto: Crypto, keys: nat, payloads: seq<Payload>): seq<Payload> {
    if payloads == [] then []
    else
      var n := |payloads| - 1;
      Encryptable(crypto, keys, payloads[..n]) +
      if crypto.encrypt(keys, payloads[n].contents).None? then [] else [payloads[n]]
  }

  ghost function Leaving(p: Peer, crypto: Crypto): seq<Payload>
    requires p.phase.Completed? ==> p.encryptor.Some?
  {
    if p.pending.None? && p.phase.Completed? then Encryptable(crypto, p.encryptor.value, p.buffer) else []
  }

  ghost predicate Takes(s: H.Session, m: H.Message, o: H.Outcome) {
    H.Processed(s, m, o).1 && !H.Over(s)
  }

  ghost function Next(self: nat, other: nat, crypto: Crypto, e: End, a: Action): End
    requires PeerOk(e.peer)
  {
    var opening := e.peer.phase.Unknown?;
    match a
    case Flush => e.(peer := Flushed(e.peer, crypto).0, emitted := e.emitted + Leaving(e.peer, crypto))
    case Tick(retry) => e.(peer := Ticked(e.peer, retry))
    case Send(payload, o) =>
      var p := Begun(e.peer, H.Initiator, self, other);
      End(Sent(p, payload, o).0, e.handed + [payload], e.emitted,
          if opening then H.Initiator else e.role, if opening then [] else e.accepted)
    case Receive(w, o, reply) =>
      var p := Begun(e.peer, H.Recipient, self, other);
      var accepted := if opening then [] else e.accepted;
      e.(peer := Received(p, crypto, w, o, reply).0,
         role := if opening then H.Recipient else e.role,
         accepted := if w.Hello? && InHandshake(p) && Takes(p.session.value, w.message, o)
                     then accepted + [w.message.content] else accepted)
  }

  /** How far the session is, as what it took. */
  ghost predicate InOrder(e: End)
    requires PeerOk(e.peer)
  {
    && (e.peer.phase.Initiated? ==>
          var s := e.peer.session.value;
          && s.role == e.role
          && match (s.role, s.state)
             case (Initiator, Attesting) => e.accepted == []
             case (Initiator, KeyExchange) => e.accepted == [H.AttestResponse]
             case (Recipient, KeyExchange) => e.accepted == [H.AttestRequest]
             case _ => false)
    && (e.peer.phase.Completed? ==>
          e.accepted == if e.role == H.Initiator then [H.AttestResponse, H.HandshakeResponse]
                        else [H.AttestRequest, H.HandshakeRequest])
  }

  ghost predicate EndOk(e: End) {
    PeerOk(e.peer) && !e.peer.phase.Initialized? && InOrder(e)
  }

  lemma SendKeepsOk(self: nat, other: nat, crypto: Crypto, e: End, payload: Payload, o: H.Outcome)
    requires EndOk(e)
    ensures EndOk(Next(self, other, crypto, e, Send(payload, o)))
  {
    SentIsOk(Begun(e.peer, H.Initiator, self, other), payload, o);
  }

  lemma ReceiveKeepsOk(self: nat, other: nat, crypto: Crypto, e: End, w: Wire, o: H.Outcome, reply: H.Outcome)
    requires EndOk(e)
    ensures EndOk(Next(self, other, crypto, e, Receive(w, o, reply)))
  {
    var p := Begun(e.peer, H.Recipient, self, other);
    ReceivedIsOk(p, crypto, w, o, reply);
    assert InOrder(Next(self, other, crypto, e, Receive(w, o, reply)));
  }

  lemma EndOkIsInductive(self: nat, other: nat, crypto: Crypto, e: End, a: Action)
    requires EndOk(e)
    ensures EndOk(Next(self, other, crypto, e, a))
  {
    match a
    case Flush =>
    case Tick(retry) =>
    case Send(payload, o) => SendKeepsOk(self, other, crypto, e, payload, o);
    case Receive(w, o, reply) => ReceiveKeepsOk(self, other, crypto, e, w, o, reply);
  }

  // ----- Nothing is lost -----

  /** A payload that opens a handshake needs its opening message to be produced. */
  ghost predicate Opens(e: End, a: Action) {
    a.Send? && e.peer.phase.Unknown? ==> a.opening.Works?
  }

  ghost predicate CanEncrypt(crypto: Crypto, keys: nat, payloads: seq<Payload>) {
    forall i | 0 <= i < |payloads| :: crypto.encrypt(keys, payloads[i].contents).Some?
  }

  /** Payloads that leave can all be encrypted. */
  ghost predicate Encrypts(crypto: Crypto, e: End, a: Action) {
    a.Flush? && e.peer.pending.None? && e.peer.phase.Completed? && e.peer.encryptor.Some? ==>
      CanEncrypt(crypto, e.peer.encryptor.value, e.peer.buffer)
  }

  ghost predicate Conserved(e: End) {
    e.emitted + e.peer.buffer == e.handed
  }

  lemma {:induction false} EncryptableLength(crypto: Crypto, keys: nat, payloads: seq<Payload>)
    ensures |Encryptable(crypto, keys, payloads)| <= |payloads|
    ensures |Encryptable(crypto, keys, payloads)| == |payloads| <==> CanEncrypt(crypto, keys, payloads)
    ensures CanEncrypt(crypto, keys, payloads) ==> Encryptable(crypto, keys, payloads) == payloads
  {
    if payloads != [] {
      var n := |payloads| - 1;
      EncryptableLength(crypto, keys, payloads[..n]);
      assert payloads == payloads[..n] + [payloads[n]];
      if CanEncrypt(crypto, keys, payloads[..n]) && crypto.encrypt(keys, payloads[n].contents).Some? {
        assert forall i | 0 <= i < n :: payloads[..n][i] == payloads[i];
      }
      if CanEncrypt(crypto, keys, payloads) {
        assert forall i | 0 <= i < n :: payloads[..n][i] == payloads[i];
      }
    }
  }

  /**
   What was sent out and what is still held are together what was handed in, in order: a step
   keeps this exactly when it does not fail to open a handshake or to encrypt.
   */
  lemma ConservedIff(self: nat, other: nat, crypto: Crypto, e: End, a: Action)
    requires EndOk(e) && Conserved(e)
    ensures Conserved(Next(self, other, crypto, e, a)) <==> Opens(e, a) && Encrypts(crypto, e, a)
  {
    var after := Next(self, other, crypto, e, a);
    match a
    case Flush =>
      if e.peer.pending.None? && e.peer.phase.Completed? {
        EncryptableLength(crypto, e.peer.encryptor.value, e.peer.buffer);
        assert |after.emitted + after.peer.buffer| ==
               |e.emitted| + |Encryptable(crypto, e.peer.encryptor.value, e.peer.buffer)|;
      }
    case Tick(retry) =>
    case Send(payload, o) =>
      if Opens(e, a) {
        assert after.peer.buffer == e.peer.buffer + [payload];
        assert e.emitted + (e.peer.buffer + [payload]) == e.handed + [payload];
      } else {
        assert |after.emitted + after.peer.buffer| == |e.handed|;
      }
    case Receive(w, o, reply) =>
      assert after.peer.buffer == e.peer.buffer;
  }

  ghost predicate IsRun(self: nat, other: nat, crypto: Crypto, states: seq<End>, actions: seq<Action>) {
    && |states| == |actions| + 1 && states[0] == START
    && forall n {:trigger actions[n]} | 0 <= n < |actions| ::
         PeerOk(states[n].peer) && states[n + 1] == Next(self, other, crypto, states[n], actions[n])
  }

  lemma {:induction false} EndOkInRun(
      self: nat, other: nat, crypto: Crypto, states: seq<End>, actions: seq<Action>, n: nat)
    requires IsRun(self, other, crypto, states, actions) && n < |states|
    ensures EndOk(states[n])
  {
    if n > 0 {
      EndOkInRun(self, other, crypto, states, actions, n - 1);
      EndOkIsInductive(self, other, crypto, states[n - 1], actions[n - 1]);
    }
  }

  /** How many payloads were handed in and neither sent out nor held. */
  ghost function Missing(e: End): int {
    |e.handed| - |e.emitted| - |e.peer.buffer|
  }

  /** What is missing stays missing, and more goes missing exactly when opening or encrypting fails. */
  lemma MissingNeverShrinks(self: nat, other: nat, crypto: Crypto, e: End, a: Action)
    requires EndOk(e)
    ensures Missing(Next(self, other, crypto, e, a)) >= Missing(e)
    ensures Missing(Next(self, other, crypto, e, a)) == Missing(e) <==> Opens(e, a) && Encrypts(crypto, e, a)
  {
    match a
    case Flush =>
      if e.peer.pending.None? && e.peer.phase.Completed? {
        EncryptableLength(crypto, e.peer.encryptor.value, e.peer.buffer);
      }
    case Tick(retry) =>
    case Send(payload, o) =>
    case Receive(w, o, reply) =>
      assert Next(self, other, crypto, e, a).peer.buffer == e.peer.buffer;
  }

  /** No handshake fails to open and no payload to be encrypted. */
  ghost predicate IsGood(crypto: Crypto, e: End, a: Action) {
    Opens(e, a) && Encrypts(crypto, e, a)
  }

  ghost predicate AllGood(crypto: Crypto, states: seq<End>, actions: seq<Action>, n: nat)
    requires n <= |actions| < |states|
  {
    forall i | 0 <= i < n :: IsGood(crypto, states[i], actions[i])
  }

  /** What a step does to what is missing and to conservation. */
  ghost predicate Accounts(before: End, after: End, good: bool) {
    && Missing(after) >= Missing(before) && (Missing(after) == Missing(before) <==> good)
    && (good && Conserved(before) ==> Conserved(after))
  }

  lemma StepAccounts(self: nat, other: nat, crypto: Crypto, e: End, a: Action)
    requires EndOk(e)
    ensures Accounts(e, Next(self, other, crypto, e, a), IsGood(crypto, e, a))
  {
    MissingNeverShrinks(self, other, crypto, e, a);
    if Conserved(e) {
      ConservedIff(self, other, crypto, e, a);
    }
  }

  lemma {:induction false} MissingChain(crypto: Crypto, states: seq<End>, actions: seq<Action>, n: nat)
    requires n <= |actions| < |states| && Missing(states[0]) == 0 && Conserved(states[0])
    requires forall i | 0 <= i < n :: Accounts(states[i], states[i + 1], IsGood(crypto, states[i], actions[i]))
    ensures Missing(states[n]) >= 0 && (Missing(states[n]) == 0 <==> AllGood(crypto, states, actions, n))
    ensures AllGood(crypto, states, actions, n) ==> Conserved(states[n])
  {
    if n > 0 {
      MissingChain(crypto, states, actions, n - 1);
      assert Accounts(states[n - 1], states[n - 1 + 1], IsGood(crypto, states[n - 1], actions[n - 1]));
      assert AllGood(crypto, states, actions, n) <==>
             AllGood(crypto, states, actions, n - 1) && IsGood(crypto, states[n - 1], actions[n - 1]);
    }
  }

  /**
   Whatever the peer sends, and however often the handshake fails and is reset: nothing was lost,
   repeated or reordered if and only if every opening message could be produced and every payload
   that left could be encrypted.
   */
  lemma NothingIsLost(
      self: nat, other: nat, crypto: Crypto, states: seq<End>, actions: seq<Action>, n: nat)
    requires IsRun(self, other, crypto, states, actions) && n < |states|
    ensures Conserved(states[n]) <==> AllGood(crypto, states, actions, n)
  {
    forall i | 0 <= i < n ensures Accounts(states[i], states[i + 1], IsGood(crypto, states[i], actions[i])) {
      EndOkInRun(self, other, crypto, states, actions, i);
      StepAccounts(self, other, crypto, states[i], actions[i]);
    }
    MissingChain(crypto, states, actions, n);
    if Conserved(states[n]) {
      assert |states[n].emitted + states[n].peer.buffer| == |states[n].handed|;
    }
  }

  /**
   Against any peer, payloads leave only when a handshake is complete: the initiator took the
   two answers, the recipient took an attestation request and then a key exchange request.
   */
  lemma PayloadsLeaveAfterHandshake(
      self: nat, other: nat, crypto: Crypto, states: seq<End>, actions: seq<Action>, n: nat, i: nat)
    requires IsRun(self, other, crypto, states, actions) && n < |states| && PeerOk(states[n].peer)
    requires i < |Flushed(states[n].peer, crypto).1| && Flushed(states[n].peer, crypto).1[i].Data?
    ensures states[n].peer.phase.Completed? && states[n].peer.pending.None?
    ensures states[n].accepted == if states[n].role == H.Initiator then [H.AttestResponse, H.HandshakeResponse]
                                  else [H.AttestRequest, H.HandshakeRequest]
  {
    EndOkInRun(self, other, crypto, states, actions, n);
  }

  /** Nothing that arrives is decrypted before that either. */
  lemma PayloadsArriveAfterHandshake(
      self: nat, other: nat, crypto: Crypto, states: seq<End>, actions: seq<Action>, n: nat,
      w: Wire, o: H.Outcome, reply: H.Outcome)
    requires IsRun(self, other, crypto, states, actions) && n < |states| && PeerOk(states[n].peer)
    requires Received(Begun(states[n].peer, H.Recipient, self, other), crypto, w, o, reply).1.Some?
    ensures states[n].accepted == if states[n].role == H.Initiator then [H.AttestResponse, H.HandshakeResponse]
                                  else [H.AttestRequest, H.HandshakeRequest]
  {
    EndOkInRun(self, other, crypto, states, actions, n);
  }
}
