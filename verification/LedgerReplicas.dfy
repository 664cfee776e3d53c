/**
 The ledger as several replicas hold it: one log of events that all of them apply, commands that
 move the clock of the replica that takes them and of no other, and snapshots passed on. What a
 replica holds therefore differs from replica to replica; what is released stays within budget.
 */
module LedgerReplicas {
  import opened Wrappers
  import opened Budget
  import opened BudgetTracking
  import L = Ledger

  /** An event with the replica that proposed it, the only one that answers for it. */
  datatype Entry = Entry(owner: nat, event: L.Action)

  /** What commands and events must be: the policy of an event has the hash the event names. */
  ghost predicate IsEvent(policies: Policies, a: L.Action) {
    match a
    case Create(_) => true
    case Delete(_) => true
    case Revoke(_, _) => true
    case Authorize(e) =>
      L.Applicable(e) && (e.header.Some? && e.policy.Some? ==> e.policy.value == policies(e.header.value.policyHash))
    case _ => false
  }

  ghost predicate LogOk(policies: Policies, log: seq<Entry>) {
    forall j | 0 <= j < |log| :: IsEvent(policies, log[j].event)
  }

  // ----- One created key along the log -----

  /** The event can create a key. */
  predicate MakesKey(a: L.Action) {
    a.Create? && a.create.keyId.Some? && a.create.privateKey.Some? && L.ParseTimestamp(a.create.expiration).Some?
  }

  /** The key as it was created, with the budgets it has now. */
  function KeyMade(a: L.Action, tracker: Tracker): L.KeyLedger
    requires MakesKey(a)
  {
    L.KeyLedger(a.create.privateKey.value, a.create.publicKey, L.ParseTimestamp(a.create.expiration).value, tracker)
  }

  /** The event asks for a symmetric key that this created key can rewrap. */
  ghost predicate AsksFor(a: L.Action, made: L.Action)
    requires MakesKey(made)
  {
    a.Authorize? && L.Applicable(a.authorize) &&
    var e := a.authorize;
    && L.ParseTimestamp(e.eventTime).Some? && e.recipientKeyOk && e.header.Some? && e.policy.Some?
    && Some(e.header.value.keyId) == made.create.keyId
    && e.rewrap(made.create.privateKey.value, made.create.publicKey).Some?
  }

  ghost function Charges(u: Usage, e: L.AuthorizeAccessEvent): (Tracker, Result<(), Status>)
    requires L.Applicable(e) && e.header.Some? && e.policy.Some?
  {
    Updated(u.tracker, e.header.value.blobId, e.transformIndex, e.policy.value, e.header.value.policyHash)
  }

  /** One event in the life of a created key, as if it never expired. */
  ghost function UseAfter(u: Usage, made: L.Action, a: L.Action): Usage
    requires MakesKey(made)
  {
    if AsksFor(a, made) then
      var (tracker, r) := Charges(u, a.authorize);
      Usage(tracker, if r.Ok? then u.grants + [L.GrantOf(a.authorize)] else u.grants)
    else if a.Revoke? && Some(a.revoked) == made.create.keyId then u.(tracker := Consumed(u.tracker, a.blob))
    else u
  }

  ghost predicate IsMade(log: seq<Entry>, c: nat) {
    c < |log| && MakesKey(log[c].event)
  }

  /** The budgets of the key created at `c`, and what they granted, after the first `n` events. */
  ghost function UseAt(log: seq<Entry>, c: nat, n: nat): Usage
    requires IsMade(log, c) && c < n <= |log|
  {
    if n == c + 1 then Usage(EMPTY, []) else UseAfter(UseAt(log, c, n - 1), log[c].event, log[n - 1].event)
  }

  /** The event at `j` is granted by the key created at `c`. */
  ghost predicate GrantsAt(log: seq<Entry>, c: nat, j: nat) {
    IsMade(log, c) && c < j < |log| && AsksFor(log[j].event, log[c].event) &&
    Charges(UseAt(log, c, j), log[j].event.authorize).1.Ok?
  }

  lemma {:induction false} UseInLongerLog(log: seq<Entry>, x: Entry, c: nat, n: nat)
    requires IsMade(log, c) && c < n <= |log|
    ensures UseAt(log + [x], c, n) == UseAt(log, c, n)
  {
    assert (log + [x])[c] == log[c] && (log + [x])[n - 1] == log[n - 1];
    if n > c + 1 {
      UseInLongerLog(log, x, c, n - 1);
    }
  }

  lemma UseStepIsBounded(policies: Policies, u: Usage, made: L.Action, a: L.Action)
    requires MakesKey(made) && IsEvent(policies, a) && BudgetTracking.Inv(policies, u)
    ensures BudgetTracking.Inv(policies, UseAfter(u, made, a))
  {
    if AsksFor(a, made) {
      var h := a.authorize.header.value;
      var charge := BudgetTracking.Charge(h.blobId, a.authorize.transformIndex, h.policyHash);
      BudgetTracking.InvIsInductive(policies, u, charge);
      assert UseAfter(u, made, a) == BudgetTracking.Next(policies, u, charge);
    } else if a.Revoke? && Some(a.revoked) == made.create.keyId {
      BudgetTracking.InvIsInductive(policies, u, BudgetTracking.Revoke(a.blob));
    }
  }

  lemma {:induction false} UseIsBounded(policies: Policies, log: seq<Entry>, c: nat, n: nat)
    requires LogOk(policies, log) && IsMade(log, c) && c < n <= |log|
    ensures BudgetTracking.Inv(policies, UseAt(log, c, n))
  {
    if n == c + 1 {
      BudgetTracking.EmptyIsBounded(policies);
    } else {
      UseIsBounded(policies, log, c, n - 1);
      assert IsEvent(policies, log[n - 1].event);
      UseStepIsBounded(policies, UseAt(log, c, n - 1), log[c].event, log[n - 1].event);
    }
  }

  lemma {:induction false} RevokedInLog(log: seq<Entry>, c: nat, j: nat, n: nat, blob: Bytes)
    requires IsMade(log, c) && c < j < n <= |log| && log[j].event.Revoke? && log[j].event.blob == blob
    requires Some(log[j].event.revoked) == log[c].event.create.keyId
    ensures blob in UseAt(log, c, n).tracker.consumed
    decreases n
  {
    if n > j + 1 {
      RevokedInLog(log, c, j, n - 1, blob);
    }
  }

  // ----- The replicas -----

  /** A ledger after the first `applied` events; `born` tells which event created a key it holds. */
  datatype Replica = Replica(ledger: L.LedgerState, applied: nat, born: map<Bytes, nat>)

  /** A snapshot, with what it was taken of. */
  datatype Saved = Saved(of: Replica, snapshot: L.LedgerSnapshot)

  /** A symmetric key handed out for the event at `index`, under the key created at `created`. */
  datatype Release = Release(created: nat, index: nat)

  datatype Cluster = Cluster(
    log: seq<Entry>, replicas: map<nat, Replica>, saved: set<Saved>, released: seq<Release>)

  datatype Step =
    | Join(joins: nat)
    | Propose(owner: nat, event: L.Action)
    | Command(at: nat, now: Option<L.Timestamp>)
    | Apply(applies: nat)
    | Save(saves: nat, snapshot: L.LedgerSnapshot)
    | Install(installs: nat, saved: Saved)

  ghost predicate Enabled(policies: Policies, s: Cluster, x: Step) {
    match x
    case Join(r) => r !in s.replicas
    case Propose(r, event) => r in s.replicas && IsEvent(policies, event)
    case Command(r, _) => r in s.replicas
    case Apply(r) => r in s.replicas && s.replicas[r].applied < |s.log|
    case Save(r, snapshot) => r in s.replicas && L.IsLedgerSnapshotOf(s.replicas[r].ledger, snapshot)
    case Install(r, saved) =>
      r in s.replicas && saved in s.saved && s.replicas[r].applied <= saved.of.applied &&
      L.LoadedLedger(saved.snapshot).Some?
  }

  /** A replica applies the next event. */
  ghost function AppliedTo(r: Replica, a: L.Action): Replica
    requires a.Authorize? ==> L.Applicable(a.authorize)
  {
    Replica(L.After(r.ledger, a), r.applied + 1,
            if a.Create? && L.Created(r.ledger, a.create).1.Ok?
            then r.born[a.create.keyId.value := r.applied] else r.born)
  }

  /** What it hands out for an event of its own. */
  ghost function ReleasedBy(r: Replica, a: L.Action): seq<Release> {
    if a.Authorize? && L.Applicable(a.authorize) && L.Authorized(r.ledger, a.authorize).1.Ok? &&
       a.authorize.header.value.keyId in r.born
    then [Release(r.born[a.authorize.header.value.keyId], r.applied)] else []
  }

  ghost function Next(policies: Policies, s: Cluster, x: Step): Cluster
    requires LogOk(policies, s.log) && Enabled(policies, s, x)
  {
    match x
    case Join(r) => s.(replicas := s.replicas[r := Replica(L.LedgerState(0, map[]), 0, map[])])
    case Propose(r, event) => s.(log := s.log + [Entry(r, event)])
    case Command(r, now) =>
      s.(replicas := s.replicas[r := s.replicas[r].(ledger := L.After(s.replicas[r].ledger, L.Tick(now)))])
    case Apply(r) =>
      var p, entry := s.replicas[r], s.log[s.replicas[r].applied];
      assert IsEvent(policies, entry.event);
      s.(replicas := s.replicas[r := AppliedTo(p, entry.event)],
         released := s.released + if entry.owner == r then ReleasedBy(p, entry.event) else [])
    case Save(r, snapshot) => s.(saved := s.saved + {Saved(s.replicas[r], snapshot)})
    case Install(r, saved) =>
      s.(replicas := s.replicas[r := saved.of.(ledger := L.LoadedLedger(saved.snapshot).value)])
  }

  // ----- Invariant -----

  /** A held key was created at the event `born` names, and has used what the log says. */
  ghost predicate KeyOk(log: seq<Entry>, r: Replica, k: Bytes)
    requires k in r.ledger.keys
  {
    k in r.born && IsMade(log, r.born[k]) && r.born[k] < r.applied <= |log| &&
    log[r.born[k]].event.create.keyId == Some(k) &&
    r.ledger.keys[k] == KeyMade(log[r.born[k]].event, UseAt(log, r.born[k], r.applied).tracker)
  }

  ghost predicate ReplicaOk(log: seq<Entry>, r: Replica) {
    r.applied <= |log| && forall k | k in r.ledger.keys :: KeyOk(log, r, k)
  }

  ghost predicate SavedOk(log: seq<Entry>, s: Saved) {
    L.IsLedgerSnapshotOf(s.of.ledger, s.snapshot) && ReplicaOk(log, s.of)
  }

  /** Everything released was granted in the log, by an event its owner has behind it. */
  ghost predicate ReleaseOk(log: seq<Entry>, replicas: map<nat, Replica>, x: Release) {
    && GrantsAt(log, x.created, x.index)
    && log[x.index].owner in replicas && x.index < replicas[log[x.index].owner].applied
  }

  /** No event is answered twice. */
  ghost predicate Distinct(released: seq<Release>) {
    forall i, j | 0 <= i < j < |released| :: released[i].index != released[j].index
  }

  ghost predicate Inv(policies: Policies, s: Cluster) {
    && LogOk(policies, s.log)
    && (forall r | r in s.replicas :: ReplicaOk(s.log, s.replicas[r]))
    && (forall x | x in s.saved :: SavedOk(s.log, x))
    && (forall i | 0 <= i < |s.released| :: ReleaseOk(s.log, s.replicas, s.released[i]))
    && Distinct(s.released)
  }

  // ----- Steps -----

  lemma ReplicaInLongerLog(log: seq<Entry>, x: Entry, r: Replica)
    requires ReplicaOk(log, r)
    ensures ReplicaOk(log + [x], r)
  {
    forall k | k in r.ledger.keys ensures KeyOk(log + [x], r, k) {
      assert KeyOk(log, r, k);
      assert (log + [x])[r.born[k]] == log[r.born[k]];
      UseInLongerLog(log, x, r.born[k], r.applied);
    }
  }

  lemma GrantInLongerLog(log: seq<Entry>, x: Entry, c: nat, j: nat)
    requires GrantsAt(log, c, j)
    ensures GrantsAt(log + [x], c, j)
  {
    assert (log + [x])[c] == log[c] && (log + [x])[j] == log[j];
    UseInLongerLog(log, x, c, j);
  }

  lemma ProposeStep(policies: Policies, s: Cluster, x: Entry)
    requires Inv(policies, s) && IsEvent(policies, x.event)
    ensures Inv(policies, s.(log := s.log + [x]))
  {
    var log := s.log + [x];
    forall r | r in s.replicas ensures ReplicaOk(log, s.replicas[r]) {
      ReplicaInLongerLog(s.log, x, s.replicas[r]);
    }
    forall y | y in s.saved ensures SavedOk(log, y) {
      ReplicaInLongerLog(s.log, x, y.of);
    }
    forall i | 0 <= i < |s.released| ensures ReleaseOk(log, s.replicas, s.released[i]) {
      assert ReleaseOk(s.log, s.replicas, s.released[i]);
      GrantInLongerLog(s.log, x, s.released[i].created, s.released[i].index);
    }
  }

  /** A replica whose clock is moved loses keys and nothing else. */
  lemma TickKeepsOk(log: seq<Entry>, r: Replica, now: Option<L.Timestamp>)
    requires ReplicaOk(log, r)
    ensures ReplicaOk(log, r.(ledger := L.After(r.ledger, L.Tick(now))))
  {
    var after := r.(ledger := L.After(r.ledger, L.Tick(now)));
    forall k | k in after.ledger.keys ensures KeyOk(log, after, k) {
      assert KeyOk(log, r, k);
    }
  }

  /** Applying an event to a held key does what it does in the key's life. */
  lemma HeldKeyFollows(ledger: L.LedgerState, a: L.Action, k: Bytes, made: L.Action, u: Usage)
    requires a.Create? || a.Authorize? || a.Delete? || a.Revoke?
    requires a.Authorize? ==> L.Applicable(a.authorize)
    requires MakesKey(made) && made.create.keyId == Some(k) && k in L.After(ledger, a).keys && k in ledger.keys
    requires ledger.keys[k] == KeyMade(made, u.tracker) && !L.Creates(ledger, a, k)
    ensures L.After(ledger, a).keys[k] == KeyMade(made, UseAfter(u, made, a).tracker)
  {
  }

  lemma NewKeyFollows(ledger: L.LedgerState, a: L.Action, k: Bytes)
    requires L.Creates(ledger, a, k)
    ensures MakesKey(a) && L.After(ledger, a).keys[k] == KeyMade(a, EMPTY)
  {
  }

  lemma NoOtherKeys(ledger: L.LedgerState, a: L.Action, k: Bytes)
    requires a.Create? || a.Authorize? || a.Delete? || a.Revoke?
    requires a.Authorize? ==> L.Applicable(a.authorize)
    requires k in L.After(ledger, a).keys && !L.Creates(ledger, a, k)
    ensures k in ledger.keys
  {
  }

  lemma AppliedKeyOk(policies: Policies, log: seq<Entry>, r: Replica, k: Bytes)
    requires LogOk(policies, log) && ReplicaOk(log, r) && r.applied < |log| && IsEvent(policies, log[r.applied].event)
    requires k in L.After(r.ledger, log[r.applied].event).keys
    ensures KeyOk(log, AppliedTo(r, log[r.applied].event), k)
  {
    var a := log[r.applied].event;
    if L.Creates(r.ledger, a, k) {
      NewKeyFollows(r.ledger, a, k);
    } else {
      NoOtherKeys(r.ledger, a, k);
      assert KeyOk(log, r, k);
      var c := r.born[k];
      HeldKeyFollows(r.ledger, a, k, log[c].event, UseAt(log, c, r.applied));
      assert UseAt(log, c, r.applied + 1) == UseAfter(UseAt(log, c, r.applied), log[c].event, a);
    }
  }

  lemma AppliedIsOk(policies: Policies, log: seq<Entry>, r: Replica)
    requires LogOk(policies, log) && ReplicaOk(log, r) && r.applied < |log| && IsEvent(policies, log[r.applied].event)
    ensures ReplicaOk(log, AppliedTo(r, log[r.applied].event))
  {
    var after := AppliedTo(r, log[r.applied].event);
    forall k | k in after.ledger.keys ensures KeyOk(log, after, k) {
      AppliedKeyOk(policies, log, r, k);
    }
  }

  /** What a replica hands out was granted in the log. */
  lemma ReleasedWasGranted(policies: Policies, log: seq<Entry>, r: Replica)
    requires LogOk(policies, log) && ReplicaOk(log, r) && r.applied < |log|
    ensures forall x | x in ReleasedBy(r, log[r.applied].event) ::
            GrantsAt(log, x.created, r.applied) && x.index == r.applied
    ensures |ReleasedBy(r, log[r.applied].event)| <= 1
  {
    var a := log[r.applied].event;
    assert IsEvent(policies, a);
    if ReleasedBy(r, a) != [] {
      var k := a.authorize.header.value.keyId;
      assert k in r.ledger.keys;
      assert KeyOk(log, r, k);
      assert AsksFor(a, log[r.born[k]].event);
    }
  }

  lemma DistinctGrows(released: seq<Release>, more: seq<Release>, index: nat)
    requires Distinct(released) && |more| <= 1 && (forall x | x in more :: x.index == index)
    requires forall i | 0 <= i < |released| :: released[i].index != index
    ensures Distinct(released + more)
  {
  }

  /** A replica that moves on keeps what was released answered for. */
  lemma ReleasesStay(s: Cluster, r: nat, p: Replica)
    requires r in s.replicas ==> s.replicas[r].applied <= p.applied
    requires forall i | 0 <= i < |s.released| :: ReleaseOk(s.log, s.replicas, s.released[i])
    ensures forall i | 0 <= i < |s.released| :: ReleaseOk(s.log, s.replicas[r := p], s.released[i])
  {
    forall i | 0 <= i < |s.released| ensures ReleaseOk(s.log, s.replicas[r := p], s.released[i]) {
      assert ReleaseOk(s.log, s.replicas, s.released[i]);
    }
  }

  lemma ReplicaStep(policies: Policies, s: Cluster, r: nat, p: Replica)
    requires Inv(policies, s) && ReplicaOk(s.log, p) && (r in s.replicas ==> s.replicas[r].applied <= p.applied)
    ensures Inv(policies, s.(replicas := s.replicas[r := p]))
  {
    ReleasesStay(s, r, p);
  }

  lemma ReleaseStep(policies: Policies, s: Cluster, more: seq<Release>)
    requires Inv(policies, s) && Distinct(s.released + more)
    requires forall x | x in more :: ReleaseOk(s.log, s.replicas, x)
    ensures Inv(policies, s.(released := s.released + more))
  {
    var all := s.released + more;
    forall i | 0 <= i < |all| ensures ReleaseOk(s.log, s.replicas, all[i]) {
      if i >= |s.released| {
        assert all[i] in more;
      }
    }
  }

  lemma ApplyStep(policies: Policies, s: Cluster, r: nat)
    requires Inv(policies, s) && Enabled(policies, s, Apply(r))
    ensures Inv(policies, Next(policies, s, Apply(r)))
  {
    var p, entry := s.replicas[r], s.log[s.replicas[r].applied];
    assert ReplicaOk(s.log, p) && IsEvent(policies, entry.event);
    AppliedIsOk(policies, s.log, p);
    var middle := s.(replicas := s.replicas[r := AppliedTo(p, entry.event)]);
    assert Inv(policies, middle) by {
      ReplicaStep(policies, s, r, AppliedTo(p, entry.event));
    }
    var more := if entry.owner == r then ReleasedBy(p, entry.event) else [];
    ReleasedWasGranted(policies, s.log, p);
    forall i | 0 <= i < |s.released| ensures s.released[i].index != p.applied || entry.owner != r {
      assert ReleaseOk(s.log, s.replicas, s.released[i]);
    }
    if entry.owner == r {
      DistinctGrows(s.released, more, p.applied);
      ReleaseStep(policies, middle, more);
    } else {
      assert s.released + more == s.released;
    }
  }

  lemma SaveStep(policies: Policies, s: Cluster, r: nat, snapshot: L.LedgerSnapshot)
    requires Inv(policies, s) && Enabled(policies, s, Save(r, snapshot))
    ensures Inv(policies, Next(policies, s, Save(r, snapshot)))
  {
    assert ReplicaOk(s.log, s.replicas[r]);
  }

  lemma InstallStep(policies: Policies, s: Cluster, r: nat, saved: Saved)
    requires Inv(policies, s) && Enabled(policies, s, Install(r, saved))
    ensures Inv(policies, Next(policies, s, Install(r, saved)))
  {
    assert SavedOk(s.log, saved);
    L.SaveThenLoad(saved.of.ledger, saved.snapshot);
    ReplicaStep(policies, s, r, saved.of);
  }

  lemma InvIsInductive(policies: Policies, s: Cluster, x: Step)
    requires Inv(policies, s) && Enabled(policies, s, x)
    ensures Inv(policies, Next(policies, s, x))
  {
    match x
    case Join(r) => ReplicaStep(policies, s, r, Replica(L.LedgerState(0, map[]), 0, map[]));
    case Propose(r, event) => ProposeStep(policies, s, Entry(r, event));
    case Command(r, now) =>
      TickKeepsOk(s.log, s.replicas[r], now);
      ReplicaStep(policies, s, r, s.replicas[r].(ledger := L.After(s.replicas[r].ledger, L.Tick(now))));
    case Apply(r) => ApplyStep(policies, s, r);
    case Save(r, snapshot) => SaveStep(policies, s, r, snapshot);
    case Install(r, saved) => InstallStep(policies, s, r, saved);
  }
}
