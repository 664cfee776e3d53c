/**
 The budgets of all blobs under one key: finding a transform, charging it, revoking a blob,
 saving and loading, and the bound this keeps on what is ever granted.
 */
module BudgetTracking {
  import opened Wrappers
  import opened Budget

  type PolicyBudgets = map<Bytes, BlobBudget>

  /** Budgets by policy hash and blob, and the blobs whose budgets are gone for good. */
  datatype Tracker = Tracker(budgets: map<Bytes, PolicyBudgets>, consumed: set<Bytes>)

  const EMPTY := Tracker(map[], {})

  predicate Stored(t: Tracker, hash: Bytes, blob: Bytes) {
    hash in t.budgets && blob in t.budgets[hash]
  }

  /** A blob that was never charged under a policy has the policy's whole budget. */
  function BudgetOf(t: Tracker, hash: Bytes, blob: Bytes, policy: Policy): BlobBudget {
    if Stored(t, hash, blob) then t.budgets[hash][blob] else NewBudget(policy)
  }

  function WithBudget(t: Tracker, hash: Bytes, blob: Bytes, b: BlobBudget): Tracker {
    var perPolicy := if hash in t.budgets then t.budgets[hash] else map[];
    t.(budgets := t.budgets[hash := perPolicy[blob := b]])
  }

  function Updated(t: Tracker, blob: Bytes, i: nat, policy: Policy, hash: Bytes): (Tracker, Result<(), Status>)
    requires i < |policy.transforms|
  {
    if blob in t.consumed then (t, Err(Internal))
    else
      var (b, r) := Charged(BudgetOf(t, hash, blob, policy), i, policy);
      (WithBudget(t, hash, blob, b), r)
  }

  function Consumed(t: Tracker, blob: Bytes): Tracker {
    if blob in t.consumed then t
    else Tracker(map hash | hash in t.budgets :: t.budgets[hash] - {blob}, t.consumed + {blob})
  }

  // ----- Finding a transform -----

  /** The requesting application, as what it matches at a time. */
  type Application = (string, nat) -> bool

  predicate Matches(policy: Policy, i: nat, node: nat, app: Application, now: nat)
    requires i < |policy.transforms|
  {
    policy.transforms[i].src == node && app(policy.transforms[i].application, now)
  }

  ghost predicate Grantable(
      t: Tracker, blob: Bytes, i: nat, node: nat, policy: Policy, hash: Bytes, app: Application, now: nat)
    requires i < |policy.transforms|
  {
    Matches(policy, i, node, app, now) && Allows(BudgetOf(t, hash, blob, policy), i, policy)
  }

  /** A transform that was just found is charged, unless it lists a limited budget too often. */
  lemma FindThenCharge(
      t: Tracker, blob: Bytes, i: nat, node: nat, policy: Policy, hash: Bytes, app: Application, now: nat)
    requires i < |policy.transforms| && Grantable(t, blob, i, node, policy, hash, app, now)
    requires Fits(BudgetOf(t, hash, blob, policy), policy)
    ensures Updated(t, blob, i, policy, hash).1.Ok? <==>
            && blob !in t.consumed
            && forall k | 0 <= k < |policy.shared| :: !ListedTooOften(BudgetOf(t, hash, blob, policy), i, policy, k)
  {
    ChargeIffAllowed(BudgetOf(t, hash, blob, policy), i, policy);
  }

  // ----- Snapshots -----

  datatype BlobSnapshot = BlobSnapshot(blob: Bytes, budget: BlobBudget)

  datatype PolicySnapshot = PolicySnapshot(hash: Bytes, budgets: seq<BlobSnapshot>)

  datatype BudgetSnapshot = BudgetSnapshot(policies: seq<PolicySnapshot>, consumed: seq<Bytes>)

  ghost predicate ListsBudgets(m: PolicyBudgets, s: seq<BlobSnapshot>) {
    ListsKeys(m, BlobsOf(s)) && forall i | 0 <= i < |s| :: s[i].blob in m && m[s[i].blob] == s[i].budget
  }

  ghost predicate ListsPolicies(m: map<Bytes, PolicyBudgets>, s: seq<PolicySnapshot>) {
    ListsKeys(m, HashesOf(s)) && forall i | 0 <= i < |s| :: s[i].hash in m && ListsBudgets(m[s[i].hash], s[i].budgets)
  }

  ghost predicate ListsBlobs(m: set<Bytes>, s: seq<Bytes>) {
    && (forall i, j | 0 <= i < j < |s| :: s[i] != s[j])
    && (forall blob :: blob in m <==> blob in s)
  }

  /** The snapshot lists everything once, in whatever order. */
  ghost predicate IsSnapshotOf(t: Tracker, s: BudgetSnapshot) {
    ListsPolicies(t.budgets, s.policies) && ListsBlobs(t.consumed, s.consumed)
  }

  function LoadBudgets(m: PolicyBudgets, s: seq<BlobSnapshot>): Option<PolicyBudgets>
    decreases |s|
  {
    if s == [] then Some(m)
    else if s[0].blob in m then None
    else LoadBudgets(m[s[0].blob := s[0].budget], s[1..])
  }

  function LoadPolicies(m: map<Bytes, PolicyBudgets>, s: seq<PolicySnapshot>): Option<map<Bytes, PolicyBudgets>>
    decreases |s|
  {
    if s == [] then Some(m)
    else
      var budgets := LoadBudgets(map[], s[0].budgets);
      if budgets.None? || s[0].hash in m then None
      else LoadPolicies(m[s[0].hash := budgets.value], s[1..])
  }

  function LoadBlobs(m: set<Bytes>, s: seq<Bytes>): Option<set<Bytes>>
    decreases |s|
  {
    if s == [] then Some(m) else if s[0] in m then None else LoadBlobs(m + {s[0]}, s[1..])
  }

  function Loaded(s: BudgetSnapshot): Option<Tracker> {
    var budgets := LoadPolicies(map[], s.policies);
    var consumed := LoadBlobs({}, s.consumed);
    if budgets.None? || consumed.None? then None else Some(Tracker(budgets.value, consumed.value))
  }

  /** `m` is the part of `full` with the first `n` keys. */
  ghost predicate IsPart<V>(full: map<Bytes, V>, keys: seq<Bytes>, n: nat, m: map<Bytes, V>)
    requires n <= |keys|
  {
    && (forall key :: key in m <==> key in keys[..n])
    && (forall key | key in m :: key in full && m[key] == full[key])
  }

  ghost predicate ListsKeys<V>(full: map<Bytes, V>, keys: seq<Bytes>) {
    (forall i, j | 0 <= i < j < |keys| :: keys[i] != keys[j]) && forall key :: key in full <==> key in keys
  }

  lemma PartGrows<V>(full: map<Bytes, V>, keys: seq<Bytes>, n: nat, m: map<Bytes, V>)
    requires ListsKeys(full, keys) && n < |keys| && IsPart(full, keys, n, m)
    ensures keys[n] in full && keys[n] !in m
    ensures IsPart(full, keys, n + 1, m[keys[n] := full[keys[n]]])
  {
    assert keys[n] in keys && keys[..n + 1] == keys[..n] + [keys[n]];
  }

  lemma WholePart<V>(full: map<Bytes, V>, keys: seq<Bytes>, m: map<Bytes, V>)
    requires ListsKeys(full, keys) && IsPart(full, keys, |keys|, m)
    ensures m == full
  {
    assert keys[..|keys|] == keys;
  }

  ghost function BlobsOf(s: seq<BlobSnapshot>): seq<Bytes> {
    seq(|s|, i requires 0 <= i < |s| => s[i].blob)
  }

  ghost function HashesOf(s: seq<PolicySnapshot>): seq<Bytes> {
    seq(|s|, i requires 0 <= i < |s| => s[i].hash)
  }

  lemma {:induction false} BudgetsLoad(full: PolicyBudgets, s: seq<BlobSnapshot>, n: nat, m: PolicyBudgets)
    requires ListsBudgets(full, s) && n <= |s| && IsPart(full, BlobsOf(s), n, m)
    ensures LoadBudgets(m, s[n..]) == Some(full)
    decreases |s| - n
  {
    if n == |s| {
      WholePart(full, BlobsOf(s), m);
    } else {
      PartGrows(full, BlobsOf(s), n, m);
      BudgetsLoad(full, s, n + 1, m[s[n].blob := s[n].budget]);
      assert s[n..][1..] == s[n + 1..];
    }
  }

  lemma {:induction false} PoliciesLoad(
      full: map<Bytes, PolicyBudgets>, s: seq<PolicySnapshot>, n: nat, m: map<Bytes, PolicyBudgets>)
    requires ListsPolicies(full, s) && n <= |s| && IsPart(full, HashesOf(s), n, m)
    ensures LoadPolicies(m, s[n..]) == Some(full)
    decreases |s| - n
  {
    if n == |s| {
      WholePart(full, HashesOf(s), m);
    } else {
      PartGrows(full, HashesOf(s), n, m);
      BudgetsLoad(full[s[n].hash], s[n].budgets, 0, map[]);
      assert s[n].budgets[0..] == s[n].budgets;
      PoliciesLoad(full, s, n + 1, m[s[n].hash := full[s[n].hash]]);
      assert s[n..][1..] == s[n + 1..];
    }
  }

  lemma {:induction false} BlobsLoad(full: set<Bytes>, s: seq<Bytes>, n: nat, m: set<Bytes>)
    requires ListsBlobs(full, s) && n <= |s| && (forall b :: b in m <==> b in s[..n])
    ensures LoadBlobs(m, s[n..]) == Some(full)
    decreases |s| - n
  {
    if n == |s| {
      assert s[..n] == s && m == full;
    } else {
      assert s[n..][1..] == s[n + 1..] && s[..n + 1] == s[..n] + [s[n]];
      BlobsLoad(full, s, n + 1, m + {s[n]});
    }
  }

  /** Loading what was saved restores the tracker and never meets a duplicate. */
  lemma SaveThenLoad(t: Tracker, s: BudgetSnapshot)
    requires IsSnapshotOf(t, s)
    ensures Loaded(s) == Some(t)
  {
    PoliciesLoad(t.budgets, s.policies, 0, map[]);
    BlobsLoad(t.consumed, s.consumed, 0, {});
    assert s.policies[0..] == s.policies && s.consumed[0..] == s.consumed;
  }

  // ----- Runs -----

  datatype Grant = Grant(hash: Bytes, blob: Bytes, transform: nat)

  /** A tracker with everything it ever granted. */
  datatype Usage = Usage(tracker: Tracker, grants: seq<Grant>)

  /** Charges come with any transform, found whenever; reloading puts a saved copy in the tracker's place. */
  datatype Action =
    | Charge(blob: Bytes, transform: nat, hash: Bytes)
    | Revoke(blob: Bytes)
    | Reload(snapshot: BudgetSnapshot)

  /** Each policy hash names one policy. */
  type Policies = Bytes -> Policy

  ghost predicate Enabled(policies: Policies, u: Usage, a: Action) {
    match a
    case Charge(_, i, hash) => i < |policies(hash).transforms|
    case Revoke(_) => true
    case Reload(snapshot) => IsSnapshotOf(u.tracker, snapshot)
  }

  ghost function Next(policies: Policies, u: Usage, a: Action): Usage
    requires Enabled(policies, u, a)
  {
    match a
    case Revoke(blob) => u.(tracker := Consumed(u.tracker, blob))
    case Reload(snapshot) =>
      if Loaded(snapshot).None? then u.(tracker := EMPTY) else u.(tracker := Loaded(snapshot).value)
    case Charge(blob, i, hash) =>
      var (t, r) := Updated(u.tracker, blob, i, policies(hash), hash);
      Usage(t, if r.Ok? then u.grants + [Grant(hash, blob, i)] else u.grants)
  }

  /** How often a transform was granted. */
  ghost function Granted(grants: seq<Grant>, hash: Bytes, blob: Bytes, i: nat): nat {
    if grants == [] then 0
    else
      Granted(grants[..|grants| - 1], hash, blob, i) +
      if grants[|grants| - 1] == Grant(hash, blob, i) then 1 else 0
  }

  /** How often a grant uses a shared budget of a blob. */
  ghost function UseOf(g: Grant, policy: Policy, hash: Bytes, blob: Bytes, k: nat): nat {
    if g.hash == hash && g.blob == blob && g.transform < |policy.transforms| then Uses(policy, g.transform, k) else 0
  }

  /** How often a shared budget was used, over all transforms that list it. */
  ghost function SharedUse(grants: seq<Grant>, policy: Policy, hash: Bytes, blob: Bytes, k: nat): nat {
    if grants == [] then 0
    else
      SharedUse(grants[..|grants| - 1], policy, hash, blob, k) +
      UseOf(grants[|grants| - 1], policy, hash, blob, k)
  }

  ghost function Left(t: Tracker, blob: Bytes, times: nat): nat {
    if blob in t.consumed then 0 else times
  }

  /** What was granted and what is left are together within the limit of the transform. */
  ghost predicate TransformBound(u: Usage, policy: Policy, hash: Bytes, blob: Bytes, i: nat)
    requires i < |policy.transforms| == |BudgetOf(u.tracker, hash, blob, policy).transforms|
  {
    TransformLimit(policy.transforms[i]).Some? ==>
      Granted(u.grants, hash, blob, i) +
      Left(u.tracker, blob, BudgetOf(u.tracker, hash, blob, policy).transforms[i]) <=
      TransformLimit(policy.transforms[i]).value
  }

  ghost predicate SharedBound(u: Usage, policy: Policy, hash: Bytes, blob: Bytes, k: nat)
    requires k < |policy.shared| == |BudgetOf(u.tracker, hash, blob, policy).shared|
  {
    policy.shared[k].times.Some? ==>
      SharedUse(u.grants, policy, hash, blob, k) +
      Left(u.tracker, blob, BudgetOf(u.tracker, hash, blob, policy).shared[k]) <=
      policy.shared[k].times.value
  }

  ghost predicate Bounded(u: Usage, policy: Policy, hash: Bytes, blob: Bytes) {
    && Fits(BudgetOf(u.tracker, hash, blob, policy), policy)
    && (forall i | 0 <= i < |policy.transforms| :: TransformBound(u, policy, hash, blob, i))
    && (forall k | 0 <= k < |policy.shared| :: SharedBound(u, policy, hash, blob, k))
  }

  ghost predicate Inv(policies: Policies, u: Usage) {
    forall hash, blob :: Bounded(u, policies(hash), hash, blob)
  }

  lemma EmptyIsBounded(policies: Policies)
    ensures Inv(policies, Usage(EMPTY, []))
  {
  }

  /** Another blob or another policy is not touched. */
  lemma OthersKeepBounds(
      policies: Policies, u: Usage, hash: Bytes, blob: Bytes, b: BlobBudget, grants: seq<Grant>,
      hash': Bytes, blob': Bytes)
    requires Bounded(u, policies(hash'), hash', blob') && (hash, blob) != (hash', blob')
    requires grants == u.grants || (exists i :: grants == u.grants + [Grant(hash, blob, i)])
    ensures Bounded(Usage(WithBudget(u.tracker, hash, blob, b), grants), policies(hash'), hash', blob')
  {
    var policy := policies(hash');
    assert BudgetOf(WithBudget(u.tracker, hash, blob, b), hash', blob', policy) ==
           BudgetOf(u.tracker, hash', blob', policy);
    if grants != u.grants {
      var i :| grants == u.grants + [Grant(hash, blob, i)];
      assert grants[..|grants| - 1] == u.grants;
    }
    var after := Usage(WithBudget(u.tracker, hash, blob, b), grants);
    forall j | 0 <= j < |policy.transforms| ensures TransformBound(after, policy, hash', blob', j) {
      assert TransformBound(u, policy, hash', blob', j);
    }
    forall k | 0 <= k < |policy.shared| ensures SharedBound(after, policy, hash', blob', k) {
      assert SharedBound(u, policy, hash', blob', k);
    }
  }

  lemma GrantAdds(grants: seq<Grant>, g: Grant, policy: Policy)
    requires g.transform < |policy.transforms|
    ensures forall i ::
              Granted(grants + [g], g.hash, g.blob, i) ==
              Granted(grants, g.hash, g.blob, i) + if i == g.transform then 1 else 0
    ensures forall k ::
              SharedUse(grants + [g], policy, g.hash, g.blob, k) ==
              SharedUse(grants, policy, g.hash, g.blob, k) + Uses(policy, g.transform, k)
  {
    assert (grants + [g])[..|grants|] == grants;
  }

  lemma ChargedKeepsBounds(u: Usage, policy: Policy, hash: Bytes, blob: Bytes, i: nat)
    requires Bounded(u, policy, hash, blob) && i < |policy.transforms| && blob !in u.tracker.consumed
    ensures var (b, r) := Charged(BudgetOf(u.tracker, hash, blob, policy), i, policy);
            Bounded(Usage(WithBudget(u.tracker, hash, blob, b),
                          if r.Ok? then u.grants + [Grant(hash, blob, i)] else u.grants), policy, hash, blob)
  {
    var before := BudgetOf(u.tracker, hash, blob, policy);
    var (b, r) := Charged(before, i, policy);
    ChargeEffect(before, i, policy);
    GrantAdds(u.grants, Grant(hash, blob, i), policy);
    var after := Usage(WithBudget(u.tracker, hash, blob, b),
                       if r.Ok? then u.grants + [Grant(hash, blob, i)] else u.grants);
    assert BudgetOf(after.tracker, hash, blob, policy) == b;
    forall j | 0 <= j < |policy.transforms| ensures TransformBound(after, policy, hash, blob, j) {
      assert TransformBound(u, policy, hash, blob, j);
    }
    forall k | 0 <= k < |policy.shared| ensures SharedBound(after, policy, hash, blob, k) {
      assert SharedBound(u, policy, hash, blob, k);
    }
  }

  lemma RevokedKeepsBounds(u: Usage, policy: Policy, hash: Bytes, blob: Bytes, revoked: Bytes)
    requires Bounded(u, policy, hash, blob)
    ensures Bounded(u.(tracker := Consumed(u.tracker, revoked)), policy, hash, blob)
  {
    var after := u.(tracker := Consumed(u.tracker, revoked));
    if blob != revoked {
      assert BudgetOf(after.tracker, hash, blob, policy) == BudgetOf(u.tracker, hash, blob, policy);
    }
    forall j | 0 <= j < |policy.transforms| ensures TransformBound(after, policy, hash, blob, j) {
      assert TransformBound(u, policy, hash, blob, j);
    }
    forall k | 0 <= k < |policy.shared| ensures SharedBound(after, policy, hash, blob, k) {
      assert SharedBound(u, policy, hash, blob, k);
    }
  }

  lemma InvIsInductive(policies: Policies, u: Usage, a: Action)
    requires Inv(policies, u) && Enabled(policies, u, a)
    ensures Inv(policies, Next(policies, u, a))
  {
    var after := Next(policies, u, a);
    if a.Reload? {
      SaveThenLoad(u.tracker, a.snapshot);
      return;
    }
    forall hash, blob ensures Bounded(after, policies(hash), hash, blob) {
      assert Bounded(u, policies(hash), hash, blob);
      match a
      case Revoke(revoked) => RevokedKeepsBounds(u, policies(hash), hash, blob, revoked);
      case Charge(b, i, h) =>
        if b !in u.tracker.consumed {
          if (h, b) == (hash, blob) {
            ChargedKeepsBounds(u, policies(hash), hash, blob, i);
          } else {
            var charged := Charged(BudgetOf(u.tracker, h, b, policies(h)), i, policies(h)).0;
            OthersKeepBounds(policies, u, h, b, charged, after.grants, hash, blob);
          }
        }
    }
  }

  ghost predicate IsRun(policies: Policies, states: seq<Usage>, actions: seq<Action>) {
    && |states| == |actions| + 1 && states[0] == Usage(EMPTY, [])
    && forall n {:trigger actions[n]} | 0 <= n < |actions| ::
         Enabled(policies, states[n], actions[n]) && states[n + 1] == Next(policies, states[n], actions[n])
  }

  lemma {:induction false} InvInRun(policies: Policies, states: seq<Usage>, actions: seq<Action>, n: nat)
    requires IsRun(policies, states, actions) && n < |states|
    ensures Inv(policies, states[n])
  {
    if n == 0 {
      EmptyIsBounded(policies);
    } else {
      InvInRun(policies, states, actions, n - 1);
      InvIsInductive(policies, states[n - 1], actions[n - 1]);
    }
  }

  lemma InvBoundsGrants(policies: Policies, u: Usage, hash: Bytes, blob: Bytes)
    requires Inv(policies, u)
    ensures forall i | 0 <= i < |policies(hash).transforms| && TransformLimit(policies(hash).transforms[i]).Some? ::
              Granted(u.grants, hash, blob, i) <= TransformLimit(policies(hash).transforms[i]).value
    ensures forall k | 0 <= k < |policies(hash).shared| && policies(hash).shared[k].times.Some? ::
              SharedUse(u.grants, policies(hash), hash, blob, k) <= policies(hash).shared[k].times.value
  {
    assert Bounded(u, policies(hash), hash, blob);
    forall i | 0 <= i < |policies(hash).transforms| && TransformLimit(policies(hash).transforms[i]).Some?
      ensures Granted(u.grants, hash, blob, i) <= TransformLimit(policies(hash).transforms[i]).value
    {
      assert TransformBound(u, policies(hash), hash, blob, i);
    }
    forall k | 0 <= k < |policies(hash).shared| && policies(hash).shared[k].times.Some?
      ensures SharedUse(u.grants, policies(hash), hash, blob, k) <= policies(hash).shared[k].times.value
    {
      assert SharedBound(u, policies(hash), hash, blob, k);
    }
  }

  /**
   In every run, a limited transform is granted for a blob at most as often as its limit says,
   and a limited shared budget is used at most as often as its limit says, counting every
   listing by every transform.
   */
  lemma GrantsStayWithinBudget(
      policies: Policies, states: seq<Usage>, actions: seq<Action>, n: nat, hash: Bytes, blob: Bytes)
    requires IsRun(policies, states, actions) && n < |states|
    ensures forall i | 0 <= i < |policies(hash).transforms| && TransformLimit(policies(hash).transforms[i]).Some? ::
              Granted(states[n].grants, hash, blob, i) <= TransformLimit(policies(hash).transforms[i]).value
    ensures forall k | 0 <= k < |policies(hash).shared| && policies(hash).shared[k].times.Some? ::
              SharedUse(states[n].grants, policies(hash), hash, blob, k) <= policies(hash).shared[k].times.value
  {
    InvInRun(policies, states, actions, n);
    InvBoundsGrants(policies, states[n], hash, blob);
  }

  // ----- The bound is reached -----

  /** What was granted and what is left make up every limit. */
  ghost predicate Exact(u: Usage, policy: Policy, hash: Bytes, blob: Bytes) {
    var b := BudgetOf(u.tracker, hash, blob, policy);
    && Fits(b, policy)
    && (forall i | 0 <= i < |b.transforms| && TransformLimit(policy.transforms[i]).Some? ::
          Granted(u.grants, hash, blob, i) + b.transforms[i] == TransformLimit(policy.transforms[i]).value)
    && (forall k | 0 <= k < |b.shared| && policy.shared[k].times.Some? ::
          SharedUse(u.grants, policy, hash, blob, k) + b.shared[k] == policy.shared[k].times.value)
  }

  /** A step that neither fails to charge the blob under this policy nor revokes it. */
  ghost predicate Undisturbed(policies: Policies, u: Usage, a: Action, hash: Bytes, blob: Bytes)
    requires Enabled(policies, u, a)
  {
    match a
    case Charge(b, i, h) => (h, b) == (hash, blob) ==> Updated(u.tracker, blob, i, policies(hash), hash).1.Ok?
    case Revoke(b) => b != blob
    case Reload(_) => true
  }

  lemma ChargedStaysExact(u: Usage, policy: Policy, hash: Bytes, blob: Bytes, i: nat)
    requires Exact(u, policy, hash, blob) && i < |policy.transforms|
    requires Charged(BudgetOf(u.tracker, hash, blob, policy), i, policy).1.Ok?
    ensures var b := Charged(BudgetOf(u.tracker, hash, blob, policy), i, policy).0;
            Exact(Usage(WithBudget(u.tracker, hash, blob, b), u.grants + [Grant(hash, blob, i)]), policy, hash, blob)
  {
    var before := BudgetOf(u.tracker, hash, blob, policy);
    var b := Charged(before, i, policy).0;
    ChargeEffect(before, i, policy);
    GrantAdds(u.grants, Grant(hash, blob, i), policy);
    assert BudgetOf(WithBudget(u.tracker, hash, blob, b), hash, blob, policy) == b;
  }

  lemma OtherGrant(grants: seq<Grant>, g: Grant, policy: Policy, hash: Bytes, blob: Bytes)
    requires (g.hash, g.blob) != (hash, blob)
    ensures forall i :: Granted(grants + [g], hash, blob, i) == Granted(grants, hash, blob, i)
    ensures forall k :: SharedUse(grants + [g], policy, hash, blob, k) == SharedUse(grants, policy, hash, blob, k)
  {
    assert (grants + [g])[..|grants|] == grants;
  }

  lemma OthersStayExact(u: Usage, policy: Policy, g: Grant, b: BlobBudget, granted: bool, hash: Bytes, blob: Bytes)
    requires Exact(u, policy, hash, blob) && (g.hash, g.blob) != (hash, blob)
    ensures Exact(Usage(WithBudget(u.tracker, g.hash, g.blob, b), if granted then u.grants + [g] else u.grants),
                  policy, hash, blob)
  {
    OtherGrant(u.grants, g, policy, hash, blob);
    assert BudgetOf(WithBudget(u.tracker, g.hash, g.blob, b), hash, blob, policy) ==
           BudgetOf(u.tracker, hash, blob, policy);
  }

  lemma ExactStep(policies: Policies, u: Usage, a: Action, hash: Bytes, blob: Bytes)
    requires Enabled(policies, u, a) && Undisturbed(policies, u, a, hash, blob) && Exact(u, policies(hash), hash, blob)
    ensures Exact(Next(policies, u, a), policies(hash), hash, blob)
  {
    match a
    case Reload(snapshot) => SaveThenLoad(u.tracker, snapshot);
    case Revoke(b) =>
      assert BudgetOf(Consumed(u.tracker, b), hash, blob, policies(hash)) ==
             BudgetOf(u.tracker, hash, blob, policies(hash));
    case Charge(b, i, h) =>
      if (h, b) == (hash, blob) {
        ChargedStaysExact(u, policies(hash), hash, blob, i);
      } else if b !in u.tracker.consumed {
        var (after, r) := Charged(BudgetOf(u.tracker, h, b, policies(h)), i, policies(h));
        OthersStayExact(u, policies(hash), Grant(h, b, i), after, r.Ok?, hash, blob);
      }
  }

  /** Until a charge fails or the blob is revoked, no budget of it is lost: every limit can be used in full. */
  lemma {:induction false} NothingIsWasted(
      policies: Policies, states: seq<Usage>, actions: seq<Action>, n: nat, hash: Bytes, blob: Bytes)
    requires IsRun(policies, states, actions) && n < |states|
    requires forall i {:trigger actions[i]} | 0 <= i < n :: Undisturbed(policies, states[i], actions[i], hash, blob)
    ensures Exact(states[n], policies(hash), hash, blob)
  {
    if n > 0 {
      NothingIsWasted(policies, states, actions, n - 1, hash, blob);
      ExactStep(policies, states[n - 1], actions[n - 1], hash, blob);
    }
  }

  /** Once revoked, a blob stays revoked and is never granted again, under any policy. */
  lemma {:induction false} RevokedForGood(
      policies: Policies, states: seq<Usage>, actions: seq<Action>, n: nat, m: nat, blob: Bytes)
    requires IsRun(policies, states, actions) && n <= m < |states| && blob in states[n].tracker.consumed
    ensures blob in states[m].tracker.consumed
    ensures forall hash, i :: Granted(states[m].grants, hash, blob, i) == Granted(states[n].grants, hash, blob, i)
    decreases m
  {
    if n < m {
      RevokedForGood(policies, states, actions, n, m - 1, blob);
      if actions[m - 1].Reload? {
        SaveThenLoad(states[m - 1].tracker, actions[m - 1].snapshot);
      }
      var before, after := states[m - 1].grants, states[m].grants;
      assert states[m] == Next(policies, states[m - 1], actions[m - 1]);
      if after != before {
        assert after[..|after| - 1] == before && after[|after| - 1].blob != blob;
      }
    }
  }

  // ----- The tracker -----

  method SaveBudgets(m: PolicyBudgets) returns (s: seq<BlobSnapshot>)
    ensures ListsBudgets(m, s)
  {
    s := [];
    var todo := m.Keys;
    while todo != {}
      invariant todo <= m.Keys && ListsBudgets(m - todo, s)
      decreases todo
    {
      var blob :| blob in todo;
      ghost var before := s;
      s := s + [BlobSnapshot(blob, m[blob])];
      assert BlobsOf(s) == BlobsOf(before) + [blob];
      todo := todo - {blob};
    }
    assert m - todo == m;
  }

  method SavePolicies(m: map<Bytes, PolicyBudgets>) returns (s: seq<PolicySnapshot>)
    ensures ListsPolicies(m, s)
  {
    s := [];
    var todo := m.Keys;
    while todo != {}
      invariant todo <= m.Keys && ListsPolicies(m - todo, s)
      decreases todo
    {
      var hash :| hash in todo;
      var budgets := SaveBudgets(m[hash]);
      ghost var before := s;
      s := s + [PolicySnapshot(hash, budgets)];
      assert HashesOf(s) == HashesOf(before) + [hash];
      todo := todo - {hash};
    }
    assert m - todo == m;
  }

  method SaveBlobs(m: set<Bytes>) returns (s: seq<Bytes>)
    ensures ListsBlobs(m, s)
  {
    s := [];
    var todo := m;
    while todo != {}
      invariant todo <= m && ListsBlobs(m - todo, s)
      decreases todo
    {
      var blob :| blob in todo;
      s := s + [blob];
      todo := todo - {blob};
    }
    assert m - todo == m;
  }

  method LoadPolicyBudgets(s: seq<BlobSnapshot>) returns (r: Option<PolicyBudgets>)
    ensures r == LoadBudgets(map[], s)
  {
    var m: PolicyBudgets := map[];
    for i := 0 to |s|
      invariant LoadBudgets(m, s[i..]) == LoadBudgets(map[], s)
    {
      assert s[i..][1..] == s[i + 1..];
      if s[i].blob in m {
        return None;
      }
      m := m[s[i].blob := s[i].budget];
    }
    r := Some(m);
  }

  class BudgetTracker {
    var budgets: map<Bytes, PolicyBudgets>
    var consumed: set<Bytes>

    ghost function Model(): Tracker
      reads this
    {
      Tracker(budgets, consumed)
    }

    constructor ()
      ensures Model() == EMPTY
    {
      budgets, consumed := map[], {};
    }

    constructor Of(t: Tracker)
      ensures Model() == t
    {
      budgets, consumed := t.budgets, t.consumed;
    }

    /** The first transform that fits the request and may still be used; or why there is none. */
    method FindMatchingTransform(blob: Bytes, node: nat, policy: Policy, hash: Bytes, app: Application, now: nat)
      returns (r: Result<nat, Status>)
      ensures blob in consumed ==> r == Err(ResourceExhausted)
      ensures r.Ok? ==> r.value < |policy.transforms| && Grantable(Model(), blob, r.value, node, policy, hash, app, now)
      ensures r.Ok? ==> forall j | 0 <= j < r.value :: !Grantable(Model(), blob, j, node, policy, hash, app, now)
      ensures r.Err? && blob !in consumed ==>
                forall j | 0 <= j < |policy.transforms| :: !Grantable(Model(), blob, j, node, policy, hash, app, now)
      ensures r.Err? && blob !in consumed ==>
                r.error == if exists j :: 0 <= j < |policy.transforms| && Matches(policy, j, node, app, now)
                           then ResourceExhausted else FailedPrecondition
    {
      if blob in consumed {
        return Err(ResourceExhausted);
      }
      var found := false;
      for i := 0 to |policy.transforms|
        invariant found <==> exists j :: 0 <= j < i && Matches(policy, j, node, app, now)
        invariant forall j | 0 <= j < i :: !Grantable(Model(), blob, j, node, policy, hash, app, now)
      {
        if Matches(policy, i, node, app, now) {
          found := true;
          var allowed := AllowsAccess(BudgetOf(Tracker(budgets, consumed), hash, blob, policy), i, policy);
          if allowed {
            return Ok(i);
          }
        }
      }
      r := Err(if found then ResourceExhausted else FailedPrecondition);
    }

    method UpdateBudget(blob: Bytes, i: nat, policy: Policy, hash: Bytes) returns (r: Result<(), Status>)
      requires i < |policy.transforms|
      modifies this
      ensures (Model(), r) == Updated(old(Model()), blob, i, policy, hash)
    {
      if blob in consumed {
        return Err(Internal);
      }
      var perPolicy := if hash in budgets then budgets[hash] else map[];
      if blob !in perPolicy {
        perPolicy := perPolicy[blob := NewBudget(policy)];
      }
      var after;
      after, r := RecordAccess(perPolicy[blob], i, policy);
      perPolicy := perPolicy[blob := after];
      assert perPolicy == (if hash in budgets then budgets[hash] else map[])[blob := after];
      budgets := budgets[hash := perPolicy];
    }

    method ConsumeBudget(blob: Bytes)
      modifies this
      ensures Model() == Consumed(old(Model()), blob)
    {
      if blob in consumed {
        return;
      }
      consumed := consumed + {blob};
      var todo := budgets.Keys;
      while todo != {}
        invariant todo <= old(budgets).Keys && consumed == old(consumed) + {blob}
        invariant budgets == map hash | hash in old(budgets) ::
                               if hash in todo then old(budgets)[hash] else old(budgets)[hash] - {blob}
        decreases todo
      {
        var hash :| hash in todo;
        budgets := budgets[hash := budgets[hash] - {blob}];
        todo := todo - {hash};
      }
      assert budgets == Consumed(old(Model()), blob).budgets;
    }

    method SaveSnapshot() returns (s: BudgetSnapshot)
      ensures IsSnapshotOf(Model(), s)
    {
      var policies := SavePolicies(budgets);
      var blobs := SaveBlobs(consumed);
      s := BudgetSnapshot(policies, blobs);
    }

    /** Discards what was there; fails on a snapshot that lists something twice. */
    method LoadSnapshot(s: BudgetSnapshot) returns (r: Result<(), Status>)
      modifies this
      ensures r == if Loaded(s).Some? then Ok(()) else Err(InvalidArgument)
      ensures r.Ok? ==> Model() == Loaded(s).value
    {
      budgets, consumed := map[], {};
      for i := 0 to |s.policies|
        invariant consumed == {} && LoadPolicies(budgets, s.policies[i..]) == LoadPolicies(map[], s.policies)
      {
        assert s.policies[i..][1..] == s.policies[i + 1..];
        var perPolicy := LoadPolicyBudgets(s.policies[i].budgets);
        if perPolicy.None? || s.policies[i].hash in budgets {
          return Err(InvalidArgument);
        }
        budgets := budgets[s.policies[i].hash := perPolicy.value];
      }
      for i := 0 to |s.consumed|
        invariant LoadPolicies(map[], s.policies) == Some(budgets)
        invariant LoadBlobs(consumed, s.consumed[i..]) == LoadBlobs({}, s.consumed)
      {
        assert s.consumed[i..][1..] == s.consumed[i + 1..];
        if s.consumed[i] in consumed {
          return Err(InvalidArgument);
        }
        consumed := consumed + {s.consumed[i]};
      }
      r := Ok(());
    }
  }
}
