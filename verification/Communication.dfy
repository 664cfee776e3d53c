/**
 The secure channel to one peer: messages are kept until a handshake completes, then go out
 encrypted; failures are retried after a number of ticks.
 */
module Communication {
  import opened Wrappers
  import H = Handshake

  datatype Kind = SystemMessage | SnapshotRequest | SnapshotResponse

  datatype Payload = Payload(kind: Kind, sender: nat, recipient: nat, contents: Bytes)

  /** What travels between replicas; `Unsupported` stands for messages this channel is not for. */
  datatype Wire = Hello(message: H.Message) | Data(payload: Payload) | Unsupported

  /** Encryption under session keys, with its failures. */
  datatype Crypto = Crypto(encrypt: (nat, Bytes) -> Option<Bytes>, decrypt: (nat, Bytes) -> Option<Bytes>)

  datatype Phase = Unknown | Initialized | Initiated | Completed | Failed(ticks: nat)

  datatype Peer = Peer(
    phase: Phase, pending: Option<H.Message>, session: Option<H.Session>, buffer: seq<Payload>, encryptor: Option<nat>)

  const NEW_PEER := Peer(Phase.Unknown, None, None, [], None)

  predicate InHandshake(p: Peer) {
    p.phase.Initialized? || p.phase.Initiated?
  }

  /** What is used is there: a session that is not over during the handshake, and keys after it. */
  ghost predicate PeerOk(p: Peer) {
    && (InHandshake(p) ==> p.session.Some? && H.SessionOk(p.session.value) && !H.Over(p.session.value))
    && (p.phase.Initialized? ==> p.session.value.state == H.Unknown)
    && (p.phase.Completed? ==> p.encryptor.Some?)
  }

  function Failing(p: Peer): Peer {
    p.(phase := Phase.Failed(0))
  }

  function Opened(p: Peer, session: H.Session): Peer {
    p.(session := Some(session), phase := Initialized)
  }

  /** Handing in a payload, which opens the handshake if there was none yet. */
  function Sent(p: Peer, payload: Payload, o: H.Outcome): (Peer, bool)
    requires InHandshake(p) ==> p.session.Some?
  {
    if p.phase.Unknown? then (Failing(p), false)
    else if p.phase.Initialized? then
      var (s, r) := H.TakenOut(p.session.value, o);
      var q := p.(session := Some(s));
      if r.Err? then (Failing(q), false)
      else if r.value.None? then (Failing(q.(pending := None)), false)
      else (q.(pending := r.value, buffer := p.buffer + [payload], phase := Initiated), true)
    else (p.(buffer := p.buffer + [payload]), true)
  }

  /** A handshake message: the session takes it and says what it has to say. */
  function Greeted(p: Peer, m: H.Message, o: H.Outcome, reply: H.Outcome): (Peer, bool)
    requires p.session.Some?
  {
    var (s, ok) := H.Processed(p.session.value, m, o);
    if !ok then (Failing(p.(session := Some(s))), false)
    else
      var (t, r) := H.TakenOut(s, reply);
      if r.Err? then (Failing(p.(session := Some(t))), false)
      else if t.state == H.Completed
      then (p.(session := None, pending := r.value, encryptor := Some(t.keys), phase := Phase.Completed), true)
      else (p.(session := Some(t), pending := r.value, phase := Initiated), true)
  }

  function Decrypted(crypto: Crypto, keys: nat, w: Wire): Option<Payload> {
    if !w.Data? then None
    else
      var contents := crypto.decrypt(keys, w.payload.contents);
      if contents.None? then None else Some(w.payload.(contents := contents.value))
  }

  /** Receiving: the peer afterwards, the payload that arrives, and whether all went well. */
  function Received(p: Peer, crypto: Crypto, w: Wire, o: H.Outcome, reply: H.Outcome): (Peer, Option<Payload>, bool)
    requires InHandshake(p) ==> p.session.Some?
    requires p.phase.Completed? ==> p.encryptor.Some?
  {
    if p.phase.Unknown? then (Failing(p), None, false)
    else if InHandshake(p) then
      if !w.Hello? then (Failing(p), None, false)
      else
        var (q, ok) := Greeted(p, w.message, o, reply);
        (q, None, ok)
    else if p.phase.Completed? then (p, Decrypted(crypto, p.encryptor.value, w), true)
    else (p, None, true)
  }

  function Encrypted(crypto: Crypto, keys: nat, payloads: seq<Payload>): seq<Wire> {
    if payloads == [] then []
    else
      var n := |payloads| - 1;
      var contents := crypto.encrypt(keys, payloads[n].contents);
      Encrypted(crypto, keys, payloads[..n]) +
      if contents.None? then [] else [Data(payloads[n].(contents := contents.value))]
  }

  /** A pending handshake message goes first and alone; payloads go once the handshake completed. */
  function Flushed(p: Peer, crypto: Crypto): (Peer, seq<Wire>)
    requires p.phase.Completed? ==> p.encryptor.Some?
  {
    if p.pending.Some? then (p.(pending := None), [Hello(p.pending.value)])
    else if p.phase.Completed? then (p.(buffer := []), Encrypted(crypto, p.encryptor.value, p.buffer))
    else (p, [])
  }

  function Reset(p: Peer): Peer {
    p.(phase := Phase.Unknown, pending := None, session := None, encryptor := None)
  }

  /** A tick; a failure that lasted long enough is forgotten, what was handed in is not. */
  function Ticked(p: Peer, retry: nat): Peer {
    if !p.phase.Failed? then p
    else if p.phase.ticks + 1 >= retry then Reset(p)
    else p.(phase := Phase.Failed(p.phase.ticks + 1))
  }

  class CommunicationState {
    var phase: Phase
    var pending: Option<H.Message>
    var session: H.HandshakeSession?
    var buffer: seq<Payload>
    var encryptor: Option<nat>

    ghost function Model(): Peer
      reads this, session
    {
      Peer(phase, pending, if session == null then None else Some(session.Model()), buffer, encryptor)
    }

    constructor ()
      ensures Model() == NEW_PEER && PeerOk(Model())
    {
      phase, pending, session, buffer, encryptor := Phase.Unknown, None, null, [], None;
    }

    method Init(s: H.HandshakeSession) returns (ok: bool)
      requires H.SessionOk(s.Model()) && s.state == H.Unknown && PeerOk(Model())
      modifies this
      ensures ok <==> old(phase).Unknown?
      ensures Model() == if ok then Opened(old(Model()), s.Model()) else old(Model())
      ensures PeerOk(Model())
    {
      if !phase.Unknown? {
        return false;
      }
      session := s;
      phase := Initialized;
      ok := true;
    }

    method MakeTick()
      modifies this`phase
      ensures phase == if old(phase).Failed? then Phase.Failed(old(phase).ticks + 1) else old(phase)
    {
      if phase.Failed? {
        phase := Phase.Failed(phase.ticks + 1);
      }
    }

    method ResetStateMachine()
      modifies this
      ensures Model() == Reset(old(Model())) && PeerOk(Model())
    {
      phase, pending, session, encryptor := Phase.Unknown, None, null, None;
    }

    method ProcessOutMessage(payload: Payload, o: H.Outcome) returns (ok: bool)
      requires PeerOk(Model())
      modifies this, session
      ensures (Model(), ok) == Sent(old(Model()), payload, o)
      ensures PeerOk(Model()) && session == old(session)
    {
      match phase {
        case Unknown =>
          phase := Phase.Failed(0);
          ok := false;
        case Initialized =>
          var r := session.TakeOutMessage(o);
          if r.Err? {
            phase := Phase.Failed(0);
            return false;
          }
          pending := r.value;
          if pending.None? {
            phase := Phase.Failed(0);
            return false;
          }
          buffer := buffer + [payload];
          phase := Initiated;
          ok := true;
        case Initiated =>
          buffer := buffer + [payload];
          ok := true;
        case Completed =>
          buffer := buffer + [payload];
          ok := true;
        case Failed(_) =>
          buffer := buffer + [payload];
          ok := true;
      }
    }

    method ProcessHandshake(m: H.Message, o: H.Outcome, reply: H.Outcome) returns (ok: bool)
      requires PeerOk(Model()) && InHandshake(Model())
      modifies this, session
      ensures (Model(), ok) == Greeted(old(Model()), m, o, reply)
      ensures PeerOk(Model())
    {
      ok := session.ProcessMessage(m, o);
      if !ok {
        phase := Phase.Failed(0);
        return;
      }
      var r := session.TakeOutMessage(reply);
      if r.Err? {
        phase := Phase.Failed(0);
        return false;
      }
      pending := r.value;
      if session.state == H.Completed {
        encryptor := session.GetEncryptor();
        session := null;
        phase := Phase.Completed;
      } else {
        phase := Initiated;
      }
      ok := true;
    }

    method ProcessInMessage(crypto: Crypto, w: Wire, o: H.Outcome, reply: H.Outcome)
      returns (arrived: Option<Payload>, ok: bool)
      requires PeerOk(Model())
      modifies this, session
      ensures (Model(), arrived, ok) == Received(old(Model()), crypto, w, o, reply)
      ensures PeerOk(Model())
    {
      arrived := None;
      match phase {
        case Unknown =>
          phase := Phase.Failed(0);
          ok := false;
        case Completed =>
          arrived := DecryptMessage(crypto, w);
          ok := true;
        case Failed(_) => ok := true;
        case Initialized =>
          if w.Hello? {
            ok := ProcessHandshake(w.message, o, reply);
          } else {
            phase := Phase.Failed(0);
            ok := false;
          }
        case Initiated =>
          if w.Hello? {
            ok := ProcessHandshake(w.message, o, reply);
          } else {
            phase := Phase.Failed(0);
            ok := false;
          }
      }
    }

    method DecryptMessage(crypto: Crypto, w: Wire) returns (arrived: Option<Payload>)
      requires encryptor.Some?
      ensures arrived == Decrypted(crypto, encryptor.value, w)
    {
      if !w.Data? {
        return None;
      }
      var contents := crypto.decrypt(encryptor.value, w.payload.contents);
      if contents.None? {
        return None;
      }
      arrived := Some(w.payload.(contents := contents.value));
    }

    method TakeEncryptedMessages(crypto: Crypto) returns (messages: seq<Wire>)
      requires encryptor.Some?
      modifies this`buffer
      ensures messages == Encrypted(crypto, encryptor.value, old(buffer)) && buffer == []
    {
      messages := [];
      var payloads := buffer;
      buffer := [];
      for i := 0 to |payloads|
        invariant messages == Encrypted(crypto, encryptor.value, payloads[..i]) && buffer == []
      {
        assert payloads[..i + 1][..i] == payloads[..i];
        var contents := crypto.encrypt(encryptor.value, payloads[i].contents);
        if contents.Some? {
          messages := messages + [Data(payloads[i].(contents := contents.value))];
        }
      }
      assert payloads[..|payloads|] == payloads;
    }

    method TakeOutMessages(crypto: Crypto) returns (messages: seq<Wire>)
      requires PeerOk(Model())
      modifies this
      ensures (Model(), messages) == Flushed(old(Model()), crypto)
      ensures PeerOk(Model()) && session == old(session)
    {
      messages := [];
      if pending.Some? {
        messages := [Hello(pending.value)];
        pending := None;
      } else if phase.Completed? {
        messages := TakeEncryptedMessages(crypto);
      }
    }
  }

  datatype PalError = InvalidOperation

  /** All peers of a replica. */
  class CommunicationModule {
    var replicaId: nat
    var retry: nat
    var replicas: map<nat, Peer>

    ghost predicate Valid()
      reads this
    {
      forall id | id in replicas :: PeerOk(replicas[id])
    }

    constructor ()
      ensures Valid() && replicaId == 0 && retry == 1 && replicas == map[]
    {
      replicaId, retry, replicas := 0, 1, map[];
    }

    method Init(id: nat, handshakeRetryTick: Option<nat>)
      requires Valid()
      modifies this`replicaId, this`retry
      ensures replicaId == id && retry == (if handshakeRetryTick.None? then old(retry) else handshakeRetryTick.value)
    {
      replicaId := id;
      if handshakeRetryTick.Some? {
        retry := handshakeRetryTick.value;
      }
    }

    /** A peer not heard of, or reset, is opened as the initiator. */
    method ProcessOutMessage(w: Wire, o: H.Outcome) returns (r: Result<(), PalError>)
      requires Valid()
      modifies this`replicas
      ensures Valid()
      ensures r == if replicaId == 0 || !w.Data? then Err(InvalidOperation) else Ok(())
      ensures r.Err? ==> replicas == old(replicas)
      ensures r.Ok? ==> var id := w.payload.recipient;
                        PeerOk(Ready(old(replicas), id, H.Initiator, replicaId)) &&
                        replicas ==
                          old(replicas)[id := Sent(Ready(old(replicas), id, H.Initiator, replicaId), w.payload, o).0]
    {
      if replicaId == 0 || !w.Data? {
        return Err(InvalidOperation);
      }
      var id := w.payload.recipient;
      var peer := Ready(replicas, id, H.Initiator, replicaId);
      SentIsOk(peer, w.payload, o);
      replicas := replicas[id := Sent(peer, w.payload, o).0];
      r := Ok(());
    }

    /** A peer not heard of, or reset, is opened as the recipient. */
    method ProcessInMessage(crypto: Crypto, w: Wire, o: H.Outcome, reply: H.Outcome)
      returns (r: Result<Option<Payload>, PalError>)
      requires Valid()
      modifies this`replicas
      ensures Valid()
      ensures r.Err? <==> replicaId == 0 || w.Unsupported?
      ensures r.Err? ==> replicas == old(replicas)
      ensures r.Ok? ==> var id := SenderOf(w);
                        var peer := Ready(old(replicas), id, H.Recipient, replicaId);
                        && PeerOk(peer) && r.value == Received(peer, crypto, w, o, reply).1
                        && replicas == old(replicas)[id := Received(peer, crypto, w, o, reply).0]
    {
      if replicaId == 0 || w.Unsupported? {
        return Err(InvalidOperation);
      }
      var id := SenderOf(w);
      var peer := Ready(replicas, id, H.Recipient, replicaId);
      ReceivedIsOk(peer, crypto, w, o, reply);
      var (after, arrived, ok) := Received(peer, crypto, w, o, reply);
      replicas := replicas[id := after];
      r := Ok(arrived);
    }

    /** Forgets the peers that left, and all of them if this replica left. */
    method ProcessClusterChange(ids: set<nat>)
      requires Valid()
      modifies this`replicas
      ensures Valid()
      ensures replicas == if replicaId !in ids then map[]
                          else map id | id in old(replicas) && id in ids :: old(replicas)[id]
    {
      if replicaId !in ids {
        replicas := map[];
        return;
      }
      var todo := replicas.Keys;
      while todo != {}
        invariant todo <= old(replicas).Keys
        invariant replicas == map id | id in old(replicas) && (id in ids || id in todo) :: old(replicas)[id]
        decreases todo
      {
        var id :| id in todo;
        if id !in ids {
          replicas := replicas - {id};
        }
        todo := todo - {id};
      }
    }

    method MakeTick()
      requires Valid()
      modifies this`replicas
      ensures Valid()
      ensures replicas == map id | id in old(replicas) :: Ticked(old(replicas)[id], retry)
    {
      var todo := replicas.Keys;
      while todo != {}
        invariant todo <= old(replicas).Keys
        invariant replicas == map id | id in old(replicas) ::
                                if id in todo then old(replicas)[id] else Ticked(old(replicas)[id], retry)
        decreases todo
      {
        var id :| id in todo;
        var peer := replicas[id];
        if peer.phase.Failed? {
          peer := peer.(phase := Phase.Failed(peer.phase.ticks + 1));
          if peer.phase.ticks >= retry {
            peer := Reset(peer);
          }
        }
        replicas := replicas[id := peer];
        todo := todo - {id};
      }
    }
  }

  function SenderOf(w: Wire): nat
    requires !w.Unsupported?
  {
    if w.Hello? then w.message.sender else w.payload.sender
  }

  /** The peer, opened for this role if no handshake was begun. */
  function Ready(replicas: map<nat, Peer>, id: nat, role: H.Role, self: nat): Peer {
    var p := if id in replicas then replicas[id] else NEW_PEER;
    Begun(p, role, self, id)
  }

  function Begun(p: Peer, role: H.Role, self: nat, peer: nat): Peer {
    if p.phase.Unknown? then Opened(p, H.NewSession(role, self, peer)) else p
  }

  lemma SentIsOk(p: Peer, payload: Payload, o: H.Outcome)
    requires PeerOk(p)
    ensures PeerOk(Sent(p, payload, o).0)
  {
  }

  lemma ReceivedIsOk(p: Peer, crypto: Crypto, w: Wire, o: H.Outcome, reply: H.Outcome)
    requires PeerOk(p)
    ensures PeerOk(Received(p, crypto, w, o, reply).0)
  {
  }
}
