/**
 Privacy budgets: how often each transform of an access policy may still see a blob, and how
 often the transforms that share a budget may do so together.
 */
module Budget {
  import opened Wrappers

  /** A limited number of times, or no limit at all. */
  datatype AccessBudget = AccessBudget(times: Option<nat>)

  datatype Transform = Transform(
    src: nat, application: string, accessBudget: Option<AccessBudget>, sharedIndices: seq<nat>)

  datatype Policy = Policy(transforms: seq<Transform>, shared: seq<AccessBudget>)

  datatype BlobBudget = BlobBudget(transforms: seq<nat>, shared: seq<nat>)

  datatype Status = InvalidArgument | NotFound | FailedPrecondition | ResourceExhausted | Internal

  function TransformLimit(t: Transform): Option<nat> {
    if t.accessBudget.None? then None else t.accessBudget.value.times
  }

  function InitialTimes(limit: Option<nat>): nat {
    if limit.None? then 0 else limit.value
  }

  function NewBudget(policy: Policy): BlobBudget {
    BlobBudget(
      seq(|policy.transforms|, i requires 0 <= i < |policy.transforms| =>
        InitialTimes(TransformLimit(policy.transforms[i]))),
      seq(|policy.shared|, k requires 0 <= k < |policy.shared| => InitialTimes(policy.shared[k].times)))
  }

  ghost predicate Fits(b: BlobBudget, policy: Policy) {
    |b.transforms| == |policy.transforms| && |b.shared| == |policy.shared|
  }

  predicate HasRemaining(budgets: seq<nat>, index: nat, budget: AccessBudget) {
    budget.times.None? || (index < |budgets| && budgets[index] > 0)
  }

  /** What the check before an access looks at: every budget involved has something left. */
  ghost predicate Allows(b: BlobBudget, i: nat, policy: Policy)
    requires i < |policy.transforms|
  {
    var t := policy.transforms[i];
    && (t.accessBudget.Some? ==> HasRemaining(b.transforms, i, t.accessBudget.value))
    && forall j | 0 <= j < |t.sharedIndices| ::
         t.sharedIndices[j] < |policy.shared| &&
         HasRemaining(b.shared, t.sharedIndices[j], policy.shared[t.sharedIndices[j]])
  }

  // ----- Charging an access -----

  function ChargeOne(budgets: seq<nat>, index: nat, budget: AccessBudget): Option<seq<nat>> {
    if budget.times.None? then Some(budgets)
    else if index < |budgets| && budgets[index] > 0 then Some(budgets[index := budgets[index] - 1])
    else None
  }

  /** One listed index at a time; a failure keeps what was charged before it. */
  function ChargeShared(budgets: seq<nat>, policy: Policy, indices: seq<nat>): (seq<nat>, Result<(), Status>)
    decreases |indices|
  {
    if indices == [] then (budgets, Ok(()))
    else if indices[0] >= |policy.shared| then (budgets, Err(InvalidArgument))
    else
      var charged := ChargeOne(budgets, indices[0], policy.shared[indices[0]]);
      if charged.None? then (budgets, Err(Internal)) else ChargeShared(charged.value, policy, indices[1..])
  }

  function Charged(b: BlobBudget, i: nat, policy: Policy): (BlobBudget, Result<(), Status>)
    requires i < |policy.transforms|
  {
    var t := policy.transforms[i];
    var own := if t.accessBudget.None? then Some(b.transforms) else ChargeOne(b.transforms, i, t.accessBudget.value);
    if own.None? then (b, Err(Internal))
    else
      var (shared, r) := ChargeShared(b.shared, policy, t.sharedIndices);
      (BlobBudget(own.value, shared), r)
  }

  predicate Limited(policy: Policy, k: nat) {
    k < |policy.shared| && policy.shared[k].times.Some?
  }

  /** The shared budget `k` exists, and lasts for `n` more accesses. */
  ghost predicate Covered(budgets: seq<nat>, policy: Policy, k: nat, n: nat) {
    k < |policy.shared| && (Limited(policy, k) ==> k < |budgets| && n <= budgets[k])
  }

  ghost predicate AllCovered(budgets: seq<nat>, policy: Policy, indices: seq<nat>) {
    forall k | k in indices :: Covered(budgets, policy, k, multiset(indices)[k])
  }

  lemma HeadAndTail(indices: seq<nat>)
    requires indices != []
    ensures multiset(indices) == multiset{indices[0]} + multiset(indices[1..])
    ensures forall k :: k in indices <==> k == indices[0] || k in indices[1..]
  {
    assert indices == [indices[0]] + indices[1..];
  }

  lemma CoveredStep(budgets: seq<nat>, policy: Policy, indices: seq<nat>)
    requires indices != [] && indices[0] < |policy.shared|
    ensures var charged := ChargeOne(budgets, indices[0], policy.shared[indices[0]]);
            AllCovered(budgets, policy, indices) <==> charged.Some? && AllCovered(charged.value, policy, indices[1..])
  {
    HeadAndTail(indices);
    var head, tail := indices[0], indices[1..];
    var charged := ChargeOne(budgets, head, policy.shared[head]);
    assert head in indices;
    if charged.Some? {
      forall k | k in tail
        ensures Covered(budgets, policy, k, multiset(indices)[k]) <==>
                Covered(charged.value, policy, k, multiset(tail)[k])
      {
      }
      if head !in tail {
        assert multiset(tail)[head] == 0;
      }
    }
  }

  /**
   Charging the listed budgets succeeds exactly when each lasts for as many accesses as it is
   listed, and then takes that many from each.
   */
  lemma {:induction false} ChargeSharedIff(budgets: seq<nat>, policy: Policy, indices: seq<nat>)
    ensures ChargeShared(budgets, policy, indices).1.Ok? <==> AllCovered(budgets, policy, indices)
    decreases |indices|
  {
    if indices != [] {
      assert indices[0] in indices;
      if indices[0] < |policy.shared| {
        CoveredStep(budgets, policy, indices);
        var charged := ChargeOne(budgets, indices[0], policy.shared[indices[0]]);
        if charged.Some? {
          ChargeSharedIff(charged.value, policy, indices[1..]);
        }
      }
    }
  }

  lemma {:induction false} ChargeSharedEffect(budgets: seq<nat>, policy: Policy, indices: seq<nat>, k: nat)
    requires k < |budgets|
    ensures var (after, r) := ChargeShared(budgets, policy, indices);
            && |after| == |budgets| && after[k] <= budgets[k]
            && (r.Ok? ==> budgets[k] == after[k] + if Limited(policy, k) then multiset(indices)[k] else 0)
    decreases |indices|
  {
    if indices != [] {
      HeadAndTail(indices);
      if indices[0] < |policy.shared| {
        var charged := ChargeOne(budgets, indices[0], policy.shared[indices[0]]);
        if charged.Some? {
          ChargeSharedEffect(charged.value, policy, indices[1..], k);
        }
      }
    }
  }

  lemma ChargeSharedLength(budgets: seq<nat>, policy: Policy, indices: seq<nat>)
    ensures |ChargeShared(budgets, policy, indices).0| == |budgets|
    decreases |indices|
  {
  }

  /** How often a transform lists a shared budget. */
  ghost function Uses(policy: Policy, i: nat, k: nat): nat
    requires i < |policy.transforms|
  {
    multiset(policy.transforms[i].sharedIndices)[k]
  }

  /** A limited shared budget is listed more often than it has accesses left. */
  ghost predicate ListedTooOften(b: BlobBudget, i: nat, policy: Policy, k: nat)
    requires i < |policy.transforms|
  {
    Limited(policy, k) && k < |b.shared| && b.shared[k] < Uses(policy, i, k)
  }

  /**
   An access that was allowed can be charged exactly when no limited budget is listed more
   often than it has accesses left. One that was not allowed is never charged.
   */
  lemma ChargeIffAllowed(b: BlobBudget, i: nat, policy: Policy)
    requires i < |policy.transforms| && Fits(b, policy)
    ensures Charged(b, i, policy).1.Ok? <==>
            Allows(b, i, policy) && forall k | 0 <= k < |b.shared| :: !ListedTooOften(b, i, policy, k)
  {
    var t := policy.transforms[i];
    var indices := t.sharedIndices;
    ChargeSharedIff(b.shared, policy, indices);
    if AllCovered(b.shared, policy, indices) {
      forall j | 0 <= j < |indices|
        ensures indices[j] < |policy.shared| && HasRemaining(b.shared, indices[j], policy.shared[indices[j]])
      {
        assert indices[j] in indices && multiset(indices)[indices[j]] > 0;
        assert Covered(b.shared, policy, indices[j], multiset(indices)[indices[j]]);
      }
      forall k | 0 <= k < |b.shared| ensures !ListedTooOften(b, i, policy, k) {
        if k in indices {
          assert Covered(b.shared, policy, k, multiset(indices)[k]);
        }
      }
    } else {
      var k :| k in indices && !Covered(b.shared, policy, k, multiset(indices)[k]);
      var j :| 0 <= j < |indices| && indices[j] == k;
      assert k < |b.shared| ==> ListedTooOften(b, i, policy, k);
    }
  }

  /** A charge never raises a budget; one that succeeds takes exactly what the transform lists. */
  lemma ChargeEffect(b: BlobBudget, i: nat, policy: Policy)
    requires i < |policy.transforms| && Fits(b, policy)
    ensures var (after, r) := Charged(b, i, policy);
            && Fits(after, policy)
            && (forall j | 0 <= j < |b.transforms| ::
                  after.transforms[j] <= b.transforms[j] &&
                  (r.Ok? ==> b.transforms[j] ==
                             after.transforms[j] +
                             if j == i && TransformLimit(policy.transforms[i]).Some? then 1 else 0))
            && (forall k | 0 <= k < |b.shared| ::
                  after.shared[k] <= b.shared[k] &&
                  (r.Ok? ==> b.shared[k] == after.shared[k] + if Limited(policy, k) then Uses(policy, i, k) else 0))
  {
    var indices := policy.transforms[i].sharedIndices;
    ChargeSharedLength(b.shared, policy, indices);
    forall k | 0 <= k < |b.shared|
      ensures var (after, r) := ChargeShared(b.shared, policy, indices);
              after[k] <= b.shared[k] &&
              (r.Ok? ==> b.shared[k] == after[k] + if Limited(policy, k) then Uses(policy, i, k) else 0)
    {
      ChargeSharedEffect(b.shared, policy, indices, k);
    }
  }

  /** A budget listed twice with one access left: allowed, then not charged, and that access is gone. */
  lemma ListedTwice() returns (policy: Policy, b: BlobBudget)
    ensures Fits(b, policy) && |policy.transforms| == 1 && b == NewBudget(policy) && Allows(b, 0, policy)
    ensures Charged(b, 0, policy) == (BlobBudget([0], [0]), Err(Internal))
  {
    policy := Policy([Transform(0, "", None, [0, 0])], [AccessBudget(Some(1))]);
    b := NewBudget(policy);
    assert b == BlobBudget([0], [1]);
    assert [0, 0][1..] == [0] && [1][0 := 0] == [0];
    assert ChargeShared([1], policy, [0, 0]) == ChargeShared([0], policy, [0]);
  }

  // ----- Loops over a policy -----

  method AllowsAccess(b: BlobBudget, i: nat, policy: Policy) returns (allowed: bool)
    requires i < |policy.transforms|
    ensures allowed <==> Allows(b, i, policy)
  {
    var t := policy.transforms[i];
    if t.accessBudget.Some? && !HasRemaining(b.transforms, i, t.accessBudget.value) {
      return false;
    }
    for j := 0 to |t.sharedIndices|
      invariant forall l | 0 <= l < j ::
                  t.sharedIndices[l] < |policy.shared| &&
                  HasRemaining(b.shared, t.sharedIndices[l], policy.shared[t.sharedIndices[l]])
    {
      var k := t.sharedIndices[j];
      if k >= |policy.shared| || !HasRemaining(b.shared, k, policy.shared[k]) {
        return false;
      }
    }
    allowed := true;
  }

  method RecordAccess(b: BlobBudget, i: nat, policy: Policy) returns (after: BlobBudget, r: Result<(), Status>)
    requires i < |policy.transforms|
    ensures (after, r) == Charged(b, i, policy)
  {
    var t := policy.transforms[i];
    after := b;
    if t.accessBudget.Some? {
      var own := ChargeOne(b.transforms, i, t.accessBudget.value);
      if own.None? {
        return after, Err(Internal);
      }
      after := after.(transforms := own.value);
    }
    for j := 0 to |t.sharedIndices|
      invariant after.transforms == Charged(b, i, policy).0.transforms
      invariant ChargeShared(after.shared, policy, t.sharedIndices[j..]) ==
                ChargeShared(b.shared, policy, t.sharedIndices)
      invariant (Charged(b, i, policy).0.shared, Charged(b, i, policy).1) ==
                ChargeShared(b.shared, policy, t.sharedIndices)
    {
      var k := t.sharedIndices[j];
      assert t.sharedIndices[j..][1..] == t.sharedIndices[j + 1..];
      if k >= |policy.shared| {
        return after, Err(InvalidArgument);
      }
      var charged := ChargeOne(after.shared, k, policy.shared[k]);
      if charged.None? {
        return after, Err(Internal);
      }
      after := after.(shared := charged.value);
    }
    r := Ok(());
  }
}
