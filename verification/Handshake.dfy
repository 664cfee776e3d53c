/**
 Handshake sessions: mutual attestation, then a key exchange, driven by the initiator. The
 attestation and key exchange libraries appear as the outcomes of the calls made to them.
 */
module Handshake {
  import opened Wrappers

  datatype Role = Initiator | Recipient

  /** What a handshake message carries; `Other` stands for anything a session does not know. */
  datatype Content = AttestRequest | AttestResponse | HandshakeRequest | HandshakeResponse | Other

  datatype Message = Message(recipient: nat, sender: nat, content: Content)

  datatype State = Unknown | Attesting | KeyExchange | Completed | Failed

  /**
   How the libraries do when a session calls them: everything works, and if keys are derived
   these are the keys; the first call fails; or it works but the result it was made for is missing.
   */
  datatype Outcome = Works(keys: nat) | Rejects | Breaks

  /** `attestation` and `handshaker` tell whether the session still has the library object. */
  datatype Session = Session(
    role: Role, self: nat, peer: nat, state: State, attestation: bool, handshaker: bool, keys: nat)

  function NewSession(role: Role, self: nat, peer: nat): Session {
    Session(role, self, peer, Unknown, true, true, 0)
  }

  /** The objects a session goes on to use are there. */
  ghost predicate SessionOk(s: Session) {
    && (s.state == Unknown || s.state == Attesting ==> s.attestation && s.handshaker)
    && (s.state == KeyExchange ==> s.handshaker)
  }

  /** What a session waits for. */
  function Awaits(s: Session): Option<Content> {
    match (s.role, s.state)
    case (Initiator, Attesting) => Some(AttestResponse)
    case (Initiator, KeyExchange) => Some(HandshakeResponse)
    case (Recipient, Unknown) => Some(AttestRequest)
    case (Recipient, KeyExchange) => Some(HandshakeRequest)
    case _ => None
  }

  predicate Over(s: Session) {
    s.state == Completed || s.state == Failed
  }

  /** Takes the message it waits for, ignores all once it is over, and fails on any other. */
  function Processed(s: Session, m: Message, o: Outcome): (Session, bool) {
    if Over(s) then (s, true)
    else if Awaits(s) != Some(m.content) || o.Rejects? then (s.(state := Failed), false)
    else if s.role == Initiator && s.state == Attesting then
      if o.Breaks? then (s.(state := Failed, attestation := false), false)
      else (s.(state := KeyExchange, attestation := false), true)
    else if s.role == Initiator then
      if o.Breaks? then (s.(state := Failed, handshaker := false), false)
      else (s.(state := Completed, handshaker := false, keys := o.keys), true)
    else if o.Breaks? then (s.(state := Failed), false)
    else if s.state == Unknown then (s.(state := Attesting), true)
    else (s, true)
  }

  /** What a session has to say. */
  function Says(s: Session): Option<Content> {
    match (s.role, s.state)
    case (Initiator, Unknown) => Some(AttestRequest)
    case (Initiator, KeyExchange) => Some(HandshakeRequest)
    case (Recipient, Attesting) => Some(AttestResponse)
    case (Recipient, KeyExchange) => Some(HandshakeResponse)
    case _ => None
  }

  function TakenOut(s: Session, o: Outcome): (Session, Result<Option<Message>, ()>) {
    if Says(s).None? then (s, Ok(None))
    else if o.Rejects? then (s.(state := Failed), Err(()))
    else
      var m := Message(s.peer, s.self, Says(s).value);
      if s.role == Initiator then
        if o.Breaks? then (s.(state := Failed), Err(()))
        else (if s.state == Unknown then s.(state := Attesting) else s, Ok(Some(m)))
      else if s.state == Attesting then
        if o.Breaks? then (s.(state := Failed, attestation := false), Err(()))
        else (s.(state := KeyExchange, attestation := false), Ok(Some(m)))
      else
        if o.Breaks? then (s.(state := Failed, handshaker := false), Err(()))
        else (s.(state := Completed, handshaker := false, keys := o.keys), Ok(Some(m)))
  }

  function Rank(state: State): nat {
    match state
    case Unknown => 0
    case Attesting => 1
    case KeyExchange => 2
    case Completed => 3
    case Failed => 4
  }

  /** A session never goes back, is never left without what it needs, and says why it failed. */
  lemma SessionMovesForward(s: Session, m: Message, o: Outcome)
    requires SessionOk(s)
    ensures var (p, ok) := Processed(s, m, o);
            SessionOk(p) && Rank(p.state) >= Rank(s.state) && (!ok <==> s.state != Failed && p.state == Failed)
    ensures var (t, r) := TakenOut(s, o);
            SessionOk(t) && Rank(t.state) >= Rank(s.state) && (r.Err? <==> s.state != Failed && t.state == Failed)
  {
  }

  // ----- Calls to a session -----

  datatype Call = Process(message: Message, outcome: Outcome) | TakeOut(outcome: Outcome)

  function Called(s: Session, c: Call): Session {
    match c
    case Process(m, o) => Processed(s, m, o).0
    case TakeOut(o) => TakenOut(s, o).0
  }

  function CalledAll(s: Session, calls: seq<Call>): Session {
    if calls == [] then s else Called(CalledAll(s, calls[..|calls| - 1]), calls[|calls| - 1])
  }

  predicate IsRequest(c: Call) {
    c.Process? && c.message.content == HandshakeRequest
  }

  /** A key exchange request is among the calls. */
  ghost predicate WasAsked(calls: seq<Call>) {
    exists i :: 0 <= i < |calls| && IsRequest(calls[i])
  }

  lemma AskedBefore(calls: seq<Call>)
    requires calls != []
    ensures WasAsked(calls) <==> WasAsked(calls[..|calls| - 1]) || IsRequest(calls[|calls| - 1])
  {
    var before := calls[..|calls| - 1];
    if i :| 0 <= i < |before| && IsRequest(before[i]) {
      assert calls[i] == before[i];
    }
  }

  /** A recipient that attested and nothing more was not asked yet. */
  lemma {:induction false} NotAskedYet(self: nat, peer: nat, calls: seq<Call>)
    requires CalledAll(NewSession(Recipient, self, peer), calls).state in {Unknown, Attesting}
    ensures !WasAsked(calls)
    decreases |calls|
  {
    if calls != [] {
      var s := CalledAll(NewSession(Recipient, self, peer), calls[..|calls| - 1]);
      assert s.state in {Unknown, Attesting} && !IsRequest(calls[|calls| - 1]) by {
        RecipientCalled(self, peer, calls);
      }
      NotAskedYet(self, peer, calls[..|calls| - 1]);
      AskedBefore(calls);
    }
  }

  /** The session keeps its role, and how its state came about. */
  lemma {:induction false} RecipientCalled(self: nat, peer: nat, calls: seq<Call>)
    ensures CalledAll(NewSession(Recipient, self, peer), calls).role == Recipient
    ensures calls != [] ==>
              var s, c := CalledAll(NewSession(Recipient, self, peer), calls[..|calls| - 1]), calls[|calls| - 1];
              match CalledAll(NewSession(Recipient, self, peer), calls).state
              case Unknown => s.state == Unknown && c.TakeOut?
              case Attesting => s.state == Unknown && c.Process? && !IsRequest(c)
              case KeyExchange => if c.TakeOut? then s.state == Attesting else s.state == KeyExchange && IsRequest(c)
              case Completed => s.state == Completed || (s.state == KeyExchange && c.TakeOut?)
              case Failed => true
    decreases |calls|
  {
    if calls != [] {
      RecipientCalled(self, peer, calls[..|calls| - 1]);
    }
  }

  /**
   The session itself does not check that it was asked. Whatever the calls, the one that
   completes a recipient takes a message out, and a key exchange request came before it exactly
   when the last call before it processed a message.
   */
  lemma RecipientIsAskedIff(self: nat, peer: nat, calls: seq<Call>, c: Call)
    requires CalledAll(NewSession(Recipient, self, peer), calls).state != Completed
    requires Called(CalledAll(NewSession(Recipient, self, peer), calls), c).state == Completed
    ensures c.TakeOut? && calls != []
    ensures WasAsked(calls) <==> calls[|calls| - 1].Process?
  {
    RecipientCalled(self, peer, calls);
    AskedBefore(calls);
    if calls[|calls| - 1].TakeOut? {
      NotAskedYet(self, peer, calls[..|calls| - 1]);
    }
  }

  /** On its own, a recipient that attested answers a key exchange nobody asked for. */
  lemma RecipientAnswersUnasked(self: nat, peer: nat, keys: nat) returns (calls: seq<Call>)
    ensures !WasAsked(calls) && CalledAll(NewSession(Recipient, self, peer), calls).state == Completed
  {
    var s := NewSession(Recipient, self, peer);
    var first := [Process(Message(self, peer, AttestRequest), Works(keys))];
    var second := first + [TakeOut(Works(keys))];
    calls := second + [TakeOut(Works(keys))];
    assert first[..0] == [] && second[..1] == first && calls[..2] == second;
    assert CalledAll(s, first).state == Attesting;
    assert CalledAll(s, second).state == KeyExchange;
  }

  class HandshakeSession {
    const role: Role
    const self: nat
    const peer: nat
    var state: State
    var attestation: bool
    var handshaker: bool
    var keys: nat

    ghost function Model(): Session
      reads this
    {
      Session(role, self, peer, state, attestation, handshaker, keys)
    }

    constructor (role: Role, self: nat, peer: nat)
      ensures Model() == NewSession(role, self, peer)
    {
      this.role, this.self, this.peer := role, self, peer;
      state, attestation, handshaker, keys := Unknown, true, true, 0;
    }

    method ProcessMessage(m: Message, o: Outcome) returns (ok: bool)
      requires SessionOk(Model())
      modifies this
      ensures (Model(), ok) == Processed(old(Model()), m, o) && SessionOk(Model())
    {
      if role == Initiator {
        ok := ClientProcess(m, o);
      } else {
        ok := ServerProcess(m, o);
      }
    }

    method ClientProcess(m: Message, o: Outcome) returns (ok: bool)
      requires SessionOk(Model()) && role == Initiator
      modifies this
      ensures (Model(), ok) == Processed(old(Model()), m, o) && SessionOk(Model())
    {
      match state {
        case Unknown =>
          state := Failed;
          ok := false;
        case Attesting =>
          if m.content == AttestResponse {
            ok := HandleAttestResponse(o);
            state := if ok then KeyExchange else Failed;
          } else {
            state := Failed;
            ok := false;
          }
        case KeyExchange =>
          if m.content == HandshakeResponse {
            ok := HandleHandshakeResponse(o);
            state := if ok then Completed else Failed;
          } else {
            state := Failed;
            ok := false;
          }
        case Completed => ok := true;
        case Failed => ok := true;
      }
    }

    /** The attestation is used up by looking at its results. */
    method HandleAttestResponse(o: Outcome) returns (ok: bool)
      requires attestation && handshaker
      modifies this`attestation
      ensures attestation == o.Rejects? && (ok <==> o.Works?)
    {
      if o.Rejects? {
        return false;
      }
      attestation := false;
      ok := o.Works?;
    }

    /** The handshaker is used up by deriving keys. */
    method HandleHandshakeResponse(o: Outcome) returns (ok: bool)
      requires handshaker
      modifies this`handshaker, this`keys
      ensures handshaker == o.Rejects? && (ok <==> o.Works?)
      ensures keys == if o.Works? then o.keys else old(keys)
    {
      if o.Rejects? {
        return false;
      }
      handshaker := false;
      ok := o.Works?;
      if ok {
        keys := o.keys;
      }
    }

    method ServerProcess(m: Message, o: Outcome) returns (ok: bool)
      requires SessionOk(Model()) && role == Recipient
      modifies this
      ensures (Model(), ok) == Processed(old(Model()), m, o) && SessionOk(Model())
    {
      match state {
        case Unknown =>
          ok := m.content == AttestRequest && o.Works?;
          state := if ok then Attesting else Failed;
        case Attesting =>
          state := Failed;
          ok := false;
        case KeyExchange =>
          ok := m.content == HandshakeRequest && o.Works?;
          if !ok {
            state := Failed;
          }
        case Completed => ok := true;
        case Failed => ok := true;
      }
    }

    method TakeOutMessage(o: Outcome) returns (r: Result<Option<Message>, ()>)
      requires SessionOk(Model())
      modifies this
      ensures (Model(), r) == TakenOut(old(Model()), o) && SessionOk(Model())
    {
      if role == Initiator {
        r := ClientTakeOut(o);
      } else {
        r := ServerTakeOut(o);
      }
    }

    method ClientTakeOut(o: Outcome) returns (r: Result<Option<Message>, ()>)
      requires SessionOk(Model()) && role == Initiator
      modifies this
      ensures (Model(), r) == TakenOut(old(Model()), o) && SessionOk(Model())
    {
      match state {
        case Unknown =>
          if o.Works? {
            state := Attesting;
            r := Ok(Some(Message(peer, self, AttestRequest)));
          } else {
            state := Failed;
            r := Err(());
          }
        case KeyExchange =>
          if o.Works? {
            r := Ok(Some(Message(peer, self, HandshakeRequest)));
          } else {
            state := Failed;
            r := Err(());
          }
        case Attesting => r := Ok(None);
        case Completed => r := Ok(None);
        case Failed => r := Ok(None);
      }
    }

    method ServerTakeOut(o: Outcome) returns (r: Result<Option<Message>, ()>)
      requires SessionOk(Model()) && role == Recipient
      modifies this
      ensures (Model(), r) == TakenOut(old(Model()), o) && SessionOk(Model())
    {
      match state {
        case Unknown => r := Ok(None);
        case Attesting =>
          if o.Rejects? {
            state := Failed;
            return Err(());
          }
          attestation := false;
          if o.Breaks? {
            state := Failed;
            return Err(());
          }
          state := KeyExchange;
          r := Ok(Some(Message(peer, self, AttestResponse)));
        case KeyExchange =>
          if o.Rejects? {
            state := Failed;
            return Err(());
          }
          handshaker := false;
          if o.Breaks? {
            state := Failed;
            return Err(());
          }
          keys := o.keys;
          state := Completed;
          r := Ok(Some(Message(peer, self, HandshakeResponse)));
        case Completed => r := Ok(None);
        case Failed => r := Ok(None);
      }
    }

    /** Keys to encrypt with, once completed. */
    method GetEncryptor() returns (r: Option<nat>)
      ensures r == if state == Completed then Some(keys) else None
    {
      if state != Completed {
        return None;
      }
      r := Some(keys);
    }
  }
}
