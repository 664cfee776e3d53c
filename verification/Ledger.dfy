/**
 The ledger: keys with an expiration and the budgets of the blobs encrypted under them, driven
 by commands that only look and by replicated events that change it.
 */
module Ledger {
  import opened Wrappers
  import opened Budget
  import opened BudgetTracking

  // ----- Time -----

  const NANOS := 1_000_000_000
  const I64_MAX := 0x7FFF_FFFF_FFFF_FFFF

  datatype Timestamp = Timestamp(seconds: int, nanos: int)

  /** Durations since the epoch are in nanoseconds; a missing timestamp is the epoch. */
  function ParseTimestamp(t: Option<Timestamp>): Option<nat> {
    if t.None? then Some(0)
    else if t.value.seconds < 0 || t.value.nanos < 0 then None
    else Some(t.value.seconds * NANOS + t.value.nanos)
  }

  predicate Representable(d: nat) {
    d / NANOS <= I64_MAX
  }

  function FormatTimestamp(d: nat): (r: Option<Timestamp>)
    ensures r.Some? <==> Representable(d)
    ensures r.Some? ==> 0 <= r.value.seconds <= I64_MAX && 0 <= r.value.nanos < NANOS
    ensures r.Some? ==> ParseTimestamp(r) == Some(d)
  {
    if Representable(d) then Some(Timestamp(d / NANOS, d % NANOS)) else None
  }

  // ----- State -----

  datatype KeyLedger = KeyLedger(privateKey: Bytes, publicKey: Bytes, expiration: nat, tracker: Tracker)

  datatype LedgerState = LedgerState(now: nat, keys: map<Bytes, KeyLedger>)

  datatype Header = Header(keyId: Bytes, blobId: Bytes, policyHash: Bytes, nodeId: nat)

  /** `keyId` and `privateKey` are what the event's keys decode to, if they do. */
  datatype CreateKeyEvent = CreateKeyEvent(
    eventTime: Option<Timestamp>, keyId: Option<Bytes>, publicKey: Bytes, privateKey: Option<Bytes>,
    expiration: Option<Timestamp>)

  /**
   `header` and `policy` are what the event's bytes decode to, if they do; `rewrap` wraps the
   blob's symmetric key for the recipient, given the private and the public key, if it can.
   */
  datatype AuthorizeAccessEvent = AuthorizeAccessEvent(
    eventTime: Option<Timestamp>, recipientKeyOk: bool, header: Option<Header>, policy: Option<Policy>,
    transformIndex: nat, rewrap: (Bytes, Bytes) -> Option<Bytes>)

  /** Time only moves forward, and takes the keys that expire with it. */
  function Advanced(s: LedgerState, now: nat): LedgerState {
    if now <= s.now then s
    else LedgerState(now, map k | k in s.keys && s.keys[k].expiration > now :: s.keys[k])
  }

  // ----- Events -----

  function Created(s: LedgerState, e: CreateKeyEvent): (LedgerState, Result<Bytes, Status>) {
    var time := ParseTimestamp(e.eventTime);
    if time.None? then (s, Err(InvalidArgument))
    else
      var t := Advanced(s, time.value);
      var expiration := ParseTimestamp(e.expiration);
      if expiration.None? || e.keyId.None? || e.keyId.value in t.keys || e.privateKey.None?
      then (t, Err(InvalidArgument))
      else
        var key := KeyLedger(e.privateKey.value, e.publicKey, expiration.value, EMPTY);
        (t.(keys := t.keys[e.keyId.value := key]), Ok(e.publicKey))
  }

  predicate Applicable(e: AuthorizeAccessEvent) {
    e.policy.Some? ==> e.transformIndex < |e.policy.value.transforms|
  }

  function Authorized(s: LedgerState, e: AuthorizeAccessEvent): (LedgerState, Result<Bytes, Status>)
    requires Applicable(e)
  {
    var time := ParseTimestamp(e.eventTime);
    if time.None? then (s, Err(InvalidArgument))
    else
      var t := Advanced(s, time.value);
      if !e.recipientKeyOk || e.header.None? || e.policy.None? then (t, Err(InvalidArgument))
      else
        var h := e.header.value;
        if h.keyId !in t.keys then (t, Err(NotFound))
        else
          var key := t.keys[h.keyId];
          var wrapped := e.rewrap(key.privateKey, key.publicKey);
          if wrapped.None? then (t, Err(InvalidArgument))
          else
            var (tracker, r) := Updated(key.tracker, h.blobId, e.transformIndex, e.policy.value, h.policyHash);
            (t.(keys := t.keys[h.keyId := key.(tracker := tracker)]),
             if r.Ok? then Ok(wrapped.value) else Err(r.error))
  }

  function Deleted(s: LedgerState, keyId: Option<Bytes>): (LedgerState, Result<(), Status>) {
    if keyId.None? then (s, Err(InvalidArgument))
    else if keyId.value !in s.keys then (s, Err(NotFound))
    else (s.(keys := s.keys - {keyId.value}), Ok(()))
  }

  function Revoked(s: LedgerState, keyId: Bytes, blob: Bytes): (LedgerState, Result<(), Status>) {
    if keyId !in s.keys then (s, Err(NotFound))
    else
      var key := s.keys[keyId];
      (s.(keys := s.keys[keyId := key.(tracker := Consumed(key.tracker, blob))]), Ok(()))
  }

  // ----- Snapshots -----

  datatype KeySnapshot = KeySnapshot(
    keyId: Bytes, publicKey: Bytes, privateKey: Option<Bytes>, expiration: Option<Timestamp>,
    budgets: Option<BudgetSnapshot>)

  datatype LedgerSnapshot = LedgerSnapshot(currentTime: Option<Timestamp>, keys: seq<KeySnapshot>)

  ghost function KeyIdsOf(s: seq<KeySnapshot>): seq<Bytes> {
    seq(|s|, i requires 0 <= i < |s| => s[i].keyId)
  }

  ghost predicate IsKeySnapshotOf(key: KeyLedger, s: KeySnapshot) {
    && s.publicKey == key.publicKey && s.privateKey == Some(key.privateKey)
    && s.expiration.Some? && s.expiration == FormatTimestamp(key.expiration)
    && s.budgets.Some? && BudgetTracking.IsSnapshotOf(key.tracker, s.budgets.value)
  }

  ghost predicate ListsLedgers(m: map<Bytes, KeyLedger>, s: seq<KeySnapshot>) {
    ListsKeys(m, KeyIdsOf(s)) && forall i | 0 <= i < |s| :: s[i].keyId in m && IsKeySnapshotOf(m[s[i].keyId], s[i])
  }

  /** Every key once, in whatever order, each with its budgets. */
  ghost predicate IsLedgerSnapshotOf(s: LedgerState, snapshot: LedgerSnapshot) {
    && snapshot.currentTime.Some? && snapshot.currentTime == FormatTimestamp(s.now)
    && ListsLedgers(s.keys, snapshot.keys)
  }

  function LoadKey(s: KeySnapshot): Option<KeyLedger> {
    var expiration := ParseTimestamp(s.expiration);
    var tracker := if s.budgets.None? then Some(EMPTY) else BudgetTracking.Loaded(s.budgets.value);
    if s.privateKey.None? || expiration.None? || tracker.None? then None
    else Some(KeyLedger(s.privateKey.value, s.publicKey, expiration.value, tracker.value))
  }

  function LoadKeys(m: map<Bytes, KeyLedger>, s: seq<KeySnapshot>): Option<map<Bytes, KeyLedger>>
    decreases |s|
  {
    if s == [] then Some(m)
    else
      var key := LoadKey(s[0]);
      if key.None? || s[0].keyId in m then None else LoadKeys(m[s[0].keyId := key.value], s[1..])
  }

  function LoadedLedger(s: LedgerSnapshot): Option<LedgerState> {
    var now := ParseTimestamp(s.currentTime);
    var keys := LoadKeys(map[], s.keys);
    if now.None? || keys.None? then None else Some(LedgerState(now.value, keys.value))
  }

  lemma {:induction false} KeysLoad(full: map<Bytes, KeyLedger>, s: seq<KeySnapshot>, n: nat, m: map<Bytes, KeyLedger>)
    requires ListsLedgers(full, s) && n <= |s| && IsPart(full, KeyIdsOf(s), n, m)
    ensures LoadKeys(m, s[n..]) == Some(full)
    decreases |s| - n
  {
    if n == |s| {
      WholePart(full, KeyIdsOf(s), m);
    } else {
      PartGrows(full, KeyIdsOf(s), n, m);
      var key := full[s[n].keyId];
      BudgetTracking.SaveThenLoad(key.tracker, s[n].budgets.value);
      assert LoadKey(s[n]) == Some(key);
      KeysLoad(full, s, n + 1, m[s[n].keyId := key]);
      assert s[n..][1..] == s[n + 1..];
    }
  }

  /** Loading what was saved restores time, keys and budgets, and never meets a duplicate. */
  lemma SaveThenLoad(s: LedgerState, snapshot: LedgerSnapshot)
    requires IsLedgerSnapshotOf(s, snapshot)
    ensures LoadedLedger(snapshot) == Some(s)
  {
    KeysLoad(s.keys, snapshot.keys, 0, map[]);
    assert snapshot.keys[0..] == snapshot.keys;
  }

  // ----- Runs -----

  /** The ledger, with everything granted under each key it holds since that key was created. */
  datatype History = History(ledger: LedgerState, grants: map<Bytes, seq<Grant>>)

  /** A command that produces an event only advances the time; that is `Tick`. */
  datatype Action =
    | Tick(now: Option<Timestamp>)
    | Create(create: CreateKeyEvent)
    | Authorize(authorize: AuthorizeAccessEvent)
    | Delete(keyId: Option<Bytes>)
    | Revoke(revoked: Bytes, blob: Bytes)
    | Reload(snapshot: LedgerSnapshot)

  /** The policy of an event was checked against its hash when the event was produced. */
  ghost predicate Enabled(policies: Policies, h: History, a: Action) {
    match a
    case Authorize(e) =>
      Applicable(e) && (e.header.Some? && e.policy.Some? ==> e.policy.value == policies(e.header.value.policyHash))
    case Reload(snapshot) => IsLedgerSnapshotOf(h.ledger, snapshot)
    case _ => true
  }

  ghost function After(s: LedgerState, a: Action): LedgerState
    requires a.Authorize? ==> Applicable(a.authorize)
  {
    match a
    case Tick(now) => if ParseTimestamp(now).None? then s else Advanced(s, ParseTimestamp(now).value)
    case Create(e) => Created(s, e).0
    case Authorize(e) => Authorized(s, e).0
    case Delete(keyId) => Deleted(s, keyId).0
    case Revoke(keyId, blob) => Revoked(s, keyId, blob).0
    case Reload(snapshot) => if LoadedLedger(snapshot).None? then s else LoadedLedger(snapshot).value
  }

  ghost predicate Creates(s: LedgerState, a: Action, k: Bytes) {
    a.Create? && Created(s, a.create).1.Ok? && a.create.keyId == Some(k)
  }

  ghost predicate Grants(s: LedgerState, a: Action, k: Bytes) {
    a.Authorize? && Applicable(a.authorize) && Authorized(s, a.authorize).1.Ok? && a.authorize.header.value.keyId == k
  }

  ghost function GrantOf(e: AuthorizeAccessEvent): Grant
    requires e.header.Some?
  {
    Grant(e.header.value.policyHash, e.header.value.blobId, e.transformIndex)
  }

  ghost function Next(policies: Policies, h: History, a: Action): History
    requires Enabled(policies, h, a)
  {
    var s := After(h.ledger, a);
    History(s, map k | k in s.keys ::
                 if Creates(h.ledger, a, k) || k !in h.grants then []
                 else if Grants(h.ledger, a, k) then h.grants[k] + [GrantOf(a.authorize)]
                 else h.grants[k])
  }

  ghost predicate KeyInv(policies: Policies, h: History, k: Bytes)
    requires k in h.ledger.keys
  {
    k in h.grants && BudgetTracking.Inv(policies, Usage(h.ledger.keys[k].tracker, h.grants[k]))
  }

  ghost predicate Inv(policies: Policies, h: History) {
    forall k | k in h.ledger.keys :: KeyInv(policies, h, k)
  }

  /** A step leaves a key's budgets alone, or creates the key, or makes one move of its tracker. */
  lemma StepOfKey(policies: Policies, h: History, a: Action, k: Bytes)
    requires Enabled(policies, h, a) && k in After(h.ledger, a).keys
    ensures var s, t := h.ledger, After(h.ledger, a);
            if Creates(s, a, k) then t.keys[k].tracker == EMPTY
            else k in s.keys && (
                   || (t.keys[k].tracker == s.keys[k].tracker && !Grants(s, a, k))
                   || (a.Revoke? && a.revoked == k && t.keys[k].tracker == Consumed(s.keys[k].tracker, a.blob))
                   || (a.Authorize? && a.authorize.header.Some? && a.authorize.header.value.keyId == k &&
                       a.authorize.policy.Some? &&
                       var e := a.authorize;
                       var (tracker, r) := Updated(s.keys[k].tracker, e.header.value.blobId, e.transformIndex,
                                                   e.policy.value, e.header.value.policyHash);
                       t.keys[k].tracker == tracker && (Grants(s, a, k) <==> r.Ok?)))
  {
    if a.Reload? {
      SaveThenLoad(h.ledger, a.snapshot);
    }
  }

  lemma KeyInvIsInductive(policies: Policies, h: History, a: Action, k: Bytes)
    requires Inv(policies, h) && Enabled(policies, h, a) && k in After(h.ledger, a).keys
    ensures KeyInv(policies, Next(policies, h, a), k)
  {
    StepOfKey(policies, h, a, k);
    var after := Next(policies, h, a);
    if Creates(h.ledger, a, k) {
      BudgetTracking.EmptyIsBounded(policies);
    } else {
      assert KeyInv(policies, h, k);
      var u := Usage(h.ledger.keys[k].tracker, h.grants[k]);
      if a.Revoke? && a.revoked == k {
        BudgetTracking.InvIsInductive(policies, u, BudgetTracking.Revoke(a.blob));
      } else if after.ledger.keys[k].tracker != u.tracker || Grants(h.ledger, a, k) {
        var header := a.authorize.header.value;
        var charge := BudgetTracking.Charge(header.blobId, a.authorize.transformIndex, header.policyHash);
        BudgetTracking.InvIsInductive(policies, u, charge);
        assert Usage(after.ledger.keys[k].tracker, after.grants[k]) == BudgetTracking.Next(policies, u, charge);
      }
    }
  }

  lemma InvIsInductive(policies: Policies, h: History, a: Action)
    requires Inv(policies, h) && Enabled(policies, h, a)
    ensures Inv(policies, Next(policies, h, a))
  {
    forall k | k in After(h.ledger, a).keys ensures KeyInv(policies, Next(policies, h, a), k) {
      KeyInvIsInductive(policies, h, a, k);
    }
  }

  lemma StepKeepsInv(policies: Policies, h: History, a: Action, after: History)
    requires Inv(policies, h) && Enabled(policies, h, a) && after == Next(policies, h, a)
    ensures Inv(policies, after)
  {
    InvIsInductive(policies, h, a);
  }

  ghost predicate IsRun(policies: Policies, states: seq<History>, actions: seq<Action>) {
    && |states| == |actions| + 1 && states[0] == History(LedgerState(0, map[]), map[])
    && forall n {:trigger actions[n]} | 0 <= n < |actions| ::
         Enabled(policies, states[n], actions[n]) && states[n + 1] == Next(policies, states[n], actions[n])
  }

  lemma EmptyIsInv(policies: Policies)
    ensures Inv(policies, History(LedgerState(0, map[]), map[]))
  {
  }

  ghost predicate KeepsInv(policies: Policies, before: History, after: History) {
    Inv(policies, before) ==> Inv(policies, after)
  }

  lemma {:induction false} InvChain(policies: Policies, states: seq<History>, n: nat)
    requires n < |states| && Inv(policies, states[0])
    requires forall i | 0 < i <= n :: KeepsInv(policies, states[i - 1], states[i])
    ensures Inv(policies, states[n])
  {
    if n > 0 {
      InvChain(policies, states, n - 1);
      assert KeepsInv(policies, states[n - 1], states[n]);
    }
  }

  lemma InvInRun(policies: Policies, states: seq<History>, actions: seq<Action>, n: nat)
    requires IsRun(policies, states, actions) && n < |states|
    ensures Inv(policies, states[n])
  {
    EmptyIsInv(policies);
    forall i | 0 < i <= n ensures KeepsInv(policies, states[i - 1], states[i]) {
      if Inv(policies, states[i - 1]) {
        StepKeepsInv(policies, states[i - 1], actions[i - 1], states[i]);
      }
    }
    InvChain(policies, states, n);
  }

  /**
   Whatever commands, events, revocations, deletions and reloads there were, every limited
   transform and every limited shared budget was used within its limit under every held key.
   */
  lemma GrantsStayWithinBudget(
      policies: Policies, states: seq<History>, actions: seq<Action>, n: nat, k: Bytes, hash: Bytes, blob: Bytes)
    requires IsRun(policies, states, actions) && n < |states| && k in states[n].ledger.keys
    ensures k in states[n].grants
    ensures forall i | 0 <= i < |policies(hash).transforms| && TransformLimit(policies(hash).transforms[i]).Some? ::
              Granted(states[n].grants[k], hash, blob, i) <= TransformLimit(policies(hash).transforms[i]).value
    ensures forall j | 0 <= j < |policies(hash).shared| && policies(hash).shared[j].times.Some? ::
              SharedUse(states[n].grants[k], policies(hash), hash, blob, j) <= policies(hash).shared[j].times.value
  {
    InvInRun(policies, states, actions, n);
    assert KeyInv(policies, states[n], k);
    BudgetTracking.InvBoundsGrants(policies, Usage(states[n].ledger.keys[k].tracker, states[n].grants[k]), hash, blob);
  }

  ghost predicate SameGrants(before: seq<Grant>, after: seq<Grant>, blob: Bytes) {
    forall hash, i :: Granted(after, hash, blob, i) == Granted(before, hash, blob, i)
  }

  lemma OtherBlobGranted(grants: seq<Grant>, g: Grant, blob: Bytes)
    requires g.blob != blob
    ensures SameGrants(grants, grants + [g], blob)
  {
    assert (grants + [g])[..|grants|] == grants;
  }

  lemma RevokedStep(policies: Policies, h: History, a: Action, k: Bytes, blob: Bytes)
    requires Enabled(policies, h, a) && k in After(h.ledger, a).keys && !Creates(h.ledger, a, k)
    requires k in h.ledger.keys && k in h.grants && blob in h.ledger.keys[k].tracker.consumed
    ensures blob in Next(policies, h, a).ledger.keys[k].tracker.consumed
    ensures SameGrants(h.grants[k], Next(policies, h, a).grants[k], blob)
  {
    StepOfKey(policies, h, a, k);
    if Grants(h.ledger, a, k) {
      OtherBlobGranted(h.grants[k], GrantOf(a.authorize), blob);
    }
  }

  /** Without being created anew, a key that is held now was held all along. */
  lemma HeldBefore(policies: Policies, h: History, a: Action, k: Bytes)
    requires Enabled(policies, h, a) && k in After(h.ledger, a).keys && !Creates(h.ledger, a, k)
    ensures k in h.ledger.keys
  {
    StepOfKey(policies, h, a, k);
  }

  ghost predicate IsRevoked(h: History, k: Bytes, blob: Bytes) {
    k in h.ledger.keys && k in h.grants && blob in h.ledger.keys[k].tracker.consumed
  }

  /** Between two moments the blob was revoked and nothing was granted for it. */
  ghost predicate StaysRevoked(before: History, after: History, k: Bytes, blob: Bytes) {
    IsRevoked(before, k, blob) && IsRevoked(after, k, blob) && SameGrants(before.grants[k], after.grants[k], blob)
  }

  lemma StaysRevokedTransitive(h: History, i: History, j: History, k: Bytes, blob: Bytes)
    requires StaysRevoked(h, i, k, blob) && StaysRevoked(i, j, k, blob)
    ensures StaysRevoked(h, j, k, blob)
  {
  }

  /** The key was held before if it is held after, and what was revoked stays so. */
  ghost predicate Linked(before: History, after: History, k: Bytes, blob: Bytes) {
    k in after.ledger.keys ==>
      k in before.ledger.keys && (IsRevoked(before, k, blob) ==> StaysRevoked(before, after, k, blob))
  }

  lemma StepIsLinked(policies: Policies, h: History, a: Action, k: Bytes, blob: Bytes)
    requires Enabled(policies, h, a) && !Creates(h.ledger, a, k)
    ensures Linked(h, Next(policies, h, a), k, blob)
  {
    if k in After(h.ledger, a).keys {
      HeldBefore(policies, h, a, k);
      if IsRevoked(h, k, blob) {
        RevokedStep(policies, h, a, k, blob);
      }
    }
  }

  lemma {:induction false} LinkedStaysRevoked(states: seq<History>, n: nat, m: nat, k: Bytes, blob: Bytes)
    requires n <= m < |states| && IsRevoked(states[n], k, blob) && k in states[m].ledger.keys
    requires forall i | n < i <= m :: Linked(states[i - 1], states[i], k, blob)
    ensures StaysRevoked(states[n], states[m], k, blob)
    decreases m
  {
    if n < m {
      assert Linked(states[m - 1], states[m], k, blob);
      LinkedStaysRevoked(states, n, m - 1, k, blob);
      StaysRevokedTransitive(states[n], states[m - 1], states[m], k, blob);
    }
  }

  /** A revoked blob is not granted again under that key, until the key is created anew. */
  lemma RevokedForGood(
      policies: Policies, states: seq<History>, actions: seq<Action>, n: nat, m: nat, k: Bytes, blob: Bytes)
    requires IsRun(policies, states, actions) && n <= m < |states|
    requires IsRevoked(states[n], k, blob) && k in states[m].ledger.keys
    requires forall i {:trigger actions[i]} | n <= i < m :: !Creates(states[i].ledger, actions[i], k)
    ensures StaysRevoked(states[n], states[m], k, blob)
  {
    forall i | n < i <= m ensures Linked(states[i - 1], states[i], k, blob) {
      StepIsLinked(policies, states[i - 1], actions[i - 1], k, blob);
    }
    LinkedStaysRevoked(states, n, m, k, blob);
  }

  /** Time never goes back. */
  lemma {:induction false} TimeNeverGoesBack(
      policies: Policies, states: seq<History>, actions: seq<Action>, n: nat, m: nat)
    requires IsRun(policies, states, actions) && n <= m < |states|
    ensures states[n].ledger.now <= states[m].ledger.now
    decreases m
  {
    if n < m {
      TimeNeverGoesBack(policies, states, actions, n, m - 1);
      if actions[m - 1].Reload? {
        SaveThenLoad(states[m - 1].ledger, actions[m - 1].snapshot);
      }
    }
  }

  // ----- Expiration -----

  ghost predicate AllLive(s: LedgerState) {
    forall k | k in s.keys :: s.keys[k].expiration > s.now
  }

  function Later(s: nat, t: nat): nat {
    if s >= t then s else t
  }

  /** The event decodes, and its key id is not held, or only by a key that has expired by its time. */
  ghost predicate CanCreate(s: LedgerState, e: CreateKeyEvent) {
    && ParseTimestamp(e.eventTime).Some? && ParseTimestamp(e.expiration).Some?
    && e.keyId.Some? && e.privateKey.Some?
    && (e.keyId.value in s.keys ==>
          s.now < ParseTimestamp(e.eventTime).value &&
          s.keys[e.keyId.value].expiration <= ParseTimestamp(e.eventTime).value)
  }

  /** A key that is created expires after the ledger's time and after the event's. */
  ghost predicate CreatesLive(s: LedgerState, a: Action) {
    a.Create? && CanCreate(s, a.create) ==>
      ParseTimestamp(a.create.expiration).value > Later(s.now, ParseTimestamp(a.create.eventTime).value)
  }

  lemma CreatedIff(s: LedgerState, e: CreateKeyEvent)
    ensures Created(s, e).1.Ok? <==> CanCreate(s, e)
    ensures CanCreate(s, e) ==>
              var t := Created(s, e).0;
              && e.keyId.value in t.keys && t.keys[e.keyId.value].expiration == ParseTimestamp(e.expiration).value
              && t.now == Later(s.now, ParseTimestamp(e.eventTime).value)
  {
  }

  /** A step keeps every held key live exactly when it does not create an expired one. */
  lemma LiveStepIff(policies: Policies, h: History, a: Action)
    requires Enabled(policies, h, a) && AllLive(h.ledger)
    ensures AllLive(Next(policies, h, a).ledger) <==> CreatesLive(h.ledger, a)
  {
    if a.Reload? {
      SaveThenLoad(h.ledger, a.snapshot);
    }
    if a.Create? {
      CreatedIff(h.ledger, a.create);
    }
  }

  ghost predicate KeepsLive(before: History, after: History) {
    AllLive(before.ledger) ==> AllLive(after.ledger)
  }

  lemma StepKeepsLive(policies: Policies, h: History, a: Action)
    requires Enabled(policies, h, a) && CreatesLive(h.ledger, a)
    ensures KeepsLive(h, Next(policies, h, a))
  {
    if AllLive(h.ledger) {
      LiveStepIff(policies, h, a);
    }
  }

  lemma {:induction false} LiveChain(states: seq<History>, n: nat)
    requires n < |states| && AllLive(states[0].ledger)
    requires forall i | 0 < i <= n :: KeepsLive(states[i - 1], states[i])
    ensures AllLive(states[n].ledger)
  {
    if n > 0 {
      LiveChain(states, n - 1);
      assert KeepsLive(states[n - 1], states[n]);
    }
  }

  /** If every key that is created is live then, only live keys are ever held. */
  lemma HeldKeysAreLive(policies: Policies, states: seq<History>, actions: seq<Action>, n: nat)
    requires IsRun(policies, states, actions) && n < |states|
    requires forall i {:trigger actions[i]} | 0 <= i < n :: CreatesLive(states[i].ledger, actions[i])
    ensures AllLive(states[n].ledger)
  {
    forall i | 0 < i <= n ensures KeepsLive(states[i - 1], states[i]) {
      StepKeepsLive(policies, states[i - 1], actions[i - 1]);
    }
    LiveChain(states, n);
  }

  /** Nothing refuses a lifetime of zero: the key is held although it has expired. */
  lemma ExpiredKeyIsHeld() returns (e: CreateKeyEvent)
    ensures var (s, r) := Created(LedgerState(0, map[]), e);
            r.Ok? && !AllLive(s)
  {
    e := CreateKeyEvent(None, Some([]), [], Some([]), None);
    var s := Created(LedgerState(0, map[]), e).0;
    assert [] in s.keys;
  }

  // ----- The service -----

  /** `app` is the attested application, `digest` the hash of the policy's bytes. */
  datatype AuthorizeAccessRequest = AuthorizeAccessRequest(
    now: Option<Timestamp>, app: Option<Application>, header: Option<Header>, digest: Bytes, policy: Option<Policy>)

  /** The application is attested, header and policy decode, and the policy has the header's hash. */
  ghost predicate WellFormed(q: AuthorizeAccessRequest) {
    q.app.Some? && q.header.Some? && q.policy.Some? && q.digest == q.header.value.policyHash
  }

  /** The key is held, the blob not revoked, and some transform fits and may still be used. */
  ghost predicate CanGrant(s: LedgerState, q: AuthorizeAccessRequest) {
    WellFormed(q) && q.header.value.keyId in s.keys &&
    var h, policy, tracker := q.header.value, q.policy.value, s.keys[q.header.value.keyId].tracker;
    h.blobId !in tracker.consumed &&
    exists i :: 0 <= i < |policy.transforms| &&
                Grantable(tracker, h.blobId, i, h.nodeId, policy, h.policyHash, q.app.value, s.now)
  }

  datatype Produced = Produced(eventTime: Timestamp, transformIndex: nat)

  datatype ProducedKey = ProducedKey(eventTime: Timestamp, expiration: Timestamp)

  class LedgerService {
    var now: nat
    var keys: map<Bytes, KeyLedger>

    ghost function Model(): LedgerState
      reads this
    {
      LedgerState(now, keys)
    }

    constructor ()
      ensures Model() == LedgerState(0, map[])
    {
      now, keys := 0, map[];
    }

    method UpdateCurrentTime(time: Option<Timestamp>) returns (ok: bool)
      modifies this
      ensures ok <==> ParseTimestamp(time).Some?
      ensures Model() == if ok then Advanced(old(Model()), ParseTimestamp(time).value) else old(Model())
    {
      var parsed := ParseTimestamp(time);
      if parsed.None? {
        return false;
      }
      if parsed.value > now {
        now := parsed.value;
        var todo := keys.Keys;
        while todo != {}
          invariant todo <= old(keys).Keys && now == parsed.value
          invariant keys == map k | k in old(keys) && (k in todo || old(keys)[k].expiration > now) :: old(keys)[k]
          decreases todo
        {
          var k :| k in todo;
          if keys[k].expiration <= now {
            keys := keys - {k};
          }
          todo := todo - {k};
        }
        assert keys == Advanced(old(Model()), now).keys;
      }
      ok := true;
    }

    /**
     The event's times, for a lifetime in nanoseconds; the new key's id is not held. Signing the
     public key panics on a time that does not fit a timestamp, before anything else can fail.
     */
    method ProduceCreateKeyEvent(time: Option<Timestamp>, ttl: Option<int>, cwtOk: bool)
      returns (r: Result<ProducedKey, Status>)
      requires ParseTimestamp(time).Some? && (ttl.Some? ==> ttl.value >= 0) ==>
                 var later := Later(now, ParseTimestamp(time).value);
                 Representable(later) && Representable(later + if ttl.Some? then ttl.value else 0)
      modifies this
      ensures ParseTimestamp(time).None? ==> r == Err(InvalidArgument) && Model() == old(Model())
      ensures ParseTimestamp(time).Some? ==> Model() == Advanced(old(Model()), ParseTimestamp(time).value)
      ensures r.Ok? <==> ParseTimestamp(time).Some? && (ttl.Some? ==> ttl.value >= 0) && cwtOk
      ensures r == Err(Internal) <==> ParseTimestamp(time).Some? && (ttl.Some? ==> ttl.value >= 0) && !cwtOk
      ensures r.Ok? ==>
                && ParseTimestamp(Some(r.value.eventTime)) == Some(now)
                && ParseTimestamp(Some(r.value.expiration)) == Some(now + if ttl.Some? then ttl.value else 0)
    {
      var ok := UpdateCurrentTime(time);
      if !ok || (ttl.Some? && ttl.value < 0) {
        return Err(InvalidArgument);
      }
      var expiration := now + if ttl.Some? then ttl.value else 0;
      if !cwtOk {
        return Err(Internal);
      }
      r := Ok(ProducedKey(FormatTimestamp(now).value, FormatTimestamp(expiration).value));
    }

    method ApplyCreateKeyEvent(e: CreateKeyEvent) returns (r: Result<Bytes, Status>)
      modifies this
      ensures (Model(), r) == Created(old(Model()), e)
    {
      var ok := UpdateCurrentTime(e.eventTime);
      var expiration := ParseTimestamp(e.expiration);
      if !ok || expiration.None? || e.keyId.None? || e.keyId.value in keys || e.privateKey.None? {
        return Err(InvalidArgument);
      }
      keys := keys[e.keyId.value := KeyLedger(e.privateKey.value, e.publicKey, expiration.value, EMPTY)];
      r := Ok(e.publicKey);
    }

    /**
     Only the time changes. An event is produced for a policy that has the header's hash, a key
     that is held, and the first transform that fits and may still be used.
     */
    method ProduceAuthorizeAccessEvent(q: AuthorizeAccessRequest) returns (r: Result<Produced, Status>)
      modifies this
      ensures ParseTimestamp(q.now).None? ==> r == Err(InvalidArgument) && Model() == old(Model())
      ensures ParseTimestamp(q.now).Some? ==> Model() == Advanced(old(Model()), ParseTimestamp(q.now).value)
      ensures ParseTimestamp(q.now).Some? ==>
                (r == Err(InvalidArgument) <==> !WellFormed(q) || (CanGrant(Model(), q) && !Representable(now)))
      ensures ParseTimestamp(q.now).Some? && WellFormed(q) ==>
                && (r == Err(NotFound) <==> q.header.value.keyId !in keys)
                && (r.Ok? <==> CanGrant(Model(), q) && Representable(now))
      ensures r.Ok? ==>
                && ParseTimestamp(Some(r.value.eventTime)) == Some(now)
                && WellFormed(q) && q.header.value.keyId in keys && r.value.transformIndex < |q.policy.value.transforms|
                && var h, i, tracker := q.header.value, r.value.transformIndex, keys[q.header.value.keyId].tracker;
                   && h.blobId !in tracker.consumed
                   && Grantable(tracker, h.blobId, i, h.nodeId, q.policy.value, h.policyHash, q.app.value, now)
                   && forall j | 0 <= j < i ::
                        !Grantable(tracker, h.blobId, j, h.nodeId, q.policy.value, h.policyHash, q.app.value, now)
    {
      var ok := UpdateCurrentTime(q.now);
      if !ok || q.app.None? || q.header.None? || q.digest != q.header.value.policyHash || q.policy.None? {
        return Err(InvalidArgument);
      }
      var h := q.header.value;
      if h.keyId !in keys {
        return Err(NotFound);
      }
      var tracker := new BudgetTracker.Of(keys[h.keyId].tracker);
      var found := tracker.FindMatchingTransform(h.blobId, h.nodeId, q.policy.value, h.policyHash, q.app.value, now);
      if found.Err? {
        ghost var t := keys[h.keyId].tracker;
        assert tracker.Model() == t;
        if h.blobId !in t.consumed {
          assert forall j | 0 <= j < |q.policy.value.transforms| ::
              !Grantable(tracker.Model(), h.blobId, j, h.nodeId, q.policy.value, h.policyHash, q.app.value, now);
          assert forall j | 0 <= j < |q.policy.value.transforms| ::
              !Grantable(t, h.blobId, j, h.nodeId, q.policy.value, h.policyHash, q.app.value, now);
        }
        return Err(found.error);
      }
      var eventTime := FormatTimestamp(now);
      if eventTime.None? {
        return Err(InvalidArgument);
      }
      r := Ok(Produced(eventTime.value, found.value));
    }

    method ApplyAuthorizeAccessEvent(e: AuthorizeAccessEvent) returns (r: Result<Bytes, Status>)
      requires Applicable(e)
      modifies this
      ensures (Model(), r) == Authorized(old(Model()), e)
    {
      var ok := UpdateCurrentTime(e.eventTime);
      if !ok || !e.recipientKeyOk || e.header.None? || e.policy.None? {
        return Err(InvalidArgument);
      }
      var h := e.header.value;
      if h.keyId !in keys {
        return Err(NotFound);
      }
      var key := keys[h.keyId];
      var wrapped := e.rewrap(key.privateKey, key.publicKey);
      if wrapped.None? {
        return Err(InvalidArgument);
      }
      var tracker := new BudgetTracker.Of(key.tracker);
      var charged := tracker.UpdateBudget(h.blobId, e.transformIndex, e.policy.value, h.policyHash);
      keys := keys[h.keyId := key.(tracker := Tracker(tracker.budgets, tracker.consumed))];
      r := if charged.Ok? then Ok(wrapped.value) else Err(charged.error);
    }

    method DeleteKey(keyId: Option<Bytes>) returns (r: Result<(), Status>)
      modifies this
      ensures (Model(), r) == Deleted(old(Model()), keyId)
    {
      if keyId.None? {
        return Err(InvalidArgument);
      }
      if keyId.value !in keys {
        return Err(NotFound);
      }
      keys := keys - {keyId.value};
      r := Ok(());
    }

    method RevokeAccess(keyId: Bytes, blob: Bytes) returns (r: Result<(), Status>)
      modifies this
      ensures (Model(), r) == Revoked(old(Model()), keyId, blob)
    {
      if keyId !in keys {
        return Err(NotFound);
      }
      var tracker := new BudgetTracker.Of(keys[keyId].tracker);
      tracker.ConsumeBudget(blob);
      keys := keys[keyId := keys[keyId].(tracker := Tracker(tracker.budgets, tracker.consumed))];
      r := Ok(());
    }

    /** Fails exactly when a time does not fit a timestamp. */
    method SaveSnapshot() returns (r: Result<LedgerSnapshot, Status>)
      ensures r.Ok? <==> Representable(now) && forall k | k in keys :: Representable(keys[k].expiration)
      ensures r.Ok? ==> IsLedgerSnapshotOf(Model(), r.value)
    {
      var time := FormatTimestamp(now);
      if time.None? {
        return Err(InvalidArgument);
      }
      var saved := [];
      var todo := keys.Keys;
      while todo != {}
        invariant todo <= keys.Keys && ListsLedgers(keys - todo, saved)
        invariant forall k | k in keys && k !in todo :: Representable(keys[k].expiration)
        decreases todo
      {
        var k :| k in todo;
        var expiration := FormatTimestamp(keys[k].expiration);
        if expiration.None? {
          return Err(InvalidArgument);
        }
        var tracker := new BudgetTracker.Of(keys[k].tracker);
        var budgets := tracker.SaveSnapshot();
        ghost var before := saved;
        saved := saved + [KeySnapshot(k, keys[k].publicKey, Some(keys[k].privateKey), expiration, Some(budgets))];
        assert KeyIdsOf(saved) == KeyIdsOf(before) + [k];
        todo := todo - {k};
      }
      assert keys - todo == keys;
      r := Ok(LedgerSnapshot(time, saved));
    }

    method LoadSnapshot(s: LedgerSnapshot) returns (r: Result<(), Status>)
      modifies this
      ensures r == if LoadedLedger(s).Some? then Ok(()) else Err(InvalidArgument)
      ensures r.Ok? ==> Model() == LoadedLedger(s).value
    {
      var time := ParseTimestamp(s.currentTime);
      if time.None? {
        return Err(InvalidArgument);
      }
      now := time.value;
      keys := map[];
      for i := 0 to |s.keys|
        invariant now == time.value && LoadKeys(keys, s.keys[i..]) == LoadKeys(map[], s.keys)
      {
        assert s.keys[i..][1..] == s.keys[i + 1..];
        var snapshot := s.keys[i];
        var expiration := ParseTimestamp(snapshot.expiration);
        if snapshot.privateKey.None? || expiration.None? {
          return Err(InvalidArgument);
        }
        var tracker := new BudgetTracker();
        if snapshot.budgets.Some? {
          var loaded := tracker.LoadSnapshot(snapshot.budgets.value);
          if loaded.Err? {
            return Err(InvalidArgument);
          }
        }
        if snapshot.keyId in keys {
          return Err(InvalidArgument);
        }
        keys := keys[snapshot.keyId := KeyLedger(snapshot.privateKey.value, snapshot.publicKey, expiration.value,
                                                 Tracker(tracker.budgets, tracker.consumed))];
      }
      r := Ok(());
    }
  }
}
