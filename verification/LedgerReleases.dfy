/** What the replicas of a ledger release over a whole run. */
module LedgerReleases {
  import opened Wrappers
  import opened Budget
  import opened BudgetTracking
  import opened LedgerReplicas
  import L = Ledger

  ghost predicate IsRun(policies: Policies, states: seq<Cluster>, steps: seq<Step>) {
    && |states| == |steps| + 1 && states[0] == Cluster([], map[], {}, [])
    && forall n {:trigger steps[n]} | 0 <= n < |steps| ::
         && LogOk(policies, states[n].log) && LedgerReplicas.Enabled(policies, states[n], steps[n])
         && states[n + 1] == LedgerReplicas.Next(policies, states[n], steps[n])
  }

  lemma EmptyIsInv(policies: Policies)
    ensures LedgerReplicas.Inv(policies, Cluster([], map[], {}, []))
  {
  }

  lemma {:induction false} InvInRun(policies: Policies, states: seq<Cluster>, steps: seq<Step>, n: nat)
    requires IsRun(policies, states, steps) && n < |states|
    ensures LedgerReplicas.Inv(policies, states[n])
  {
    if n == 0 {
      EmptyIsInv(policies);
    } else {
      InvInRun(policies, states, steps, n - 1);
      LedgerReplicas.InvIsInductive(policies, states[n - 1], steps[n - 1]);
    }
  }

  /** What was released under the key created at `c` for the first `n` events, in their order. */
  ghost function Answers(log: seq<Entry>, released: seq<Release>, c: nat, n: nat): seq<Grant>
    requires n <= |log|
  {
    if n == 0 then []
    else
      Answers(log, released, c, n - 1) +
      if Release(c, n - 1) in released && log[n - 1].event.Authorize? && log[n - 1].event.authorize.header.Some?
      then [L.GrantOf(log[n - 1].event.authorize)] else []
  }

  ghost predicate AllGranted(log: seq<Entry>, released: seq<Release>) {
    forall x | x in released :: GrantsAt(log, x.created, x.index)
  }

  /** One list of grants uses no budget more than another does. */
  ghost predicate UsesNoMore(policy: Policy, hash: Bytes, blob: Bytes, fewer: seq<Grant>, more: seq<Grant>) {
    && (forall i :: Granted(fewer, hash, blob, i) <= Granted(more, hash, blob, i))
    && (forall k :: SharedUse(fewer, policy, hash, blob, k) <= SharedUse(more, policy, hash, blob, k))
  }

  lemma OneMoreGrant(policy: Policy, hash: Bytes, blob: Bytes, grants: seq<Grant>, g: Grant, i: nat)
    ensures Granted(grants + [g], hash, blob, i) ==
            Granted(grants, hash, blob, i) + if g == Grant(hash, blob, i) then 1 else 0
    ensures SharedUse(grants + [g], policy, hash, blob, i) ==
            SharedUse(grants, policy, hash, blob, i) + UseOf(g, policy, hash, blob, i)
  {
    assert (grants + [g])[..|grants|] == grants;
  }

  lemma AlsoInMore(policy: Policy, hash: Bytes, blob: Bytes, fewer: seq<Grant>, more: seq<Grant>, g: Grant)
    requires UsesNoMore(policy, hash, blob, fewer, more)
    ensures UsesNoMore(policy, hash, blob, fewer, more + [g]) && UsesNoMore(policy, hash, blob, fewer + [g], more + [g])
  {
    forall i: nat
      ensures Granted(fewer, hash, blob, i) <= Granted(more + [g], hash, blob, i)
      ensures Granted(fewer + [g], hash, blob, i) <= Granted(more + [g], hash, blob, i)
      ensures SharedUse(fewer, policy, hash, blob, i) <= SharedUse(more + [g], policy, hash, blob, i)
      ensures SharedUse(fewer + [g], policy, hash, blob, i) <= SharedUse(more + [g], policy, hash, blob, i)
    {
      OneMoreGrant(policy, hash, blob, fewer, g, i);
      OneMoreGrant(policy, hash, blob, more, g, i);
    }
  }

  /** Until its key is created, nothing is released under it. */
  lemma {:induction false} NothingBefore(log: seq<Entry>, released: seq<Release>, c: nat, n: nat)
    requires AllGranted(log, released) && IsMade(log, c) && n <= c + 1
    ensures Answers(log, released, c, n) == []
  {
    if n > 0 {
      NothingBefore(log, released, c, n - 1);
    }
  }

  lemma AnswerStep(
      policy: Policy, hash: Bytes, blob: Bytes, log: seq<Entry>, released: seq<Release>, c: nat, j: nat)
    requires AllGranted(log, released) && IsMade(log, c) && c < j < |log|
    requires UsesNoMore(policy, hash, blob, Answers(log, released, c, j), UseAt(log, c, j).grants)
    ensures UsesNoMore(policy, hash, blob, Answers(log, released, c, j + 1), UseAt(log, c, j + 1).grants)
  {
    var fewer, more, a := Answers(log, released, c, j), UseAt(log, c, j).grants, log[j].event;
    if GrantsAt(log, c, j) {
      AlsoInMore(policy, hash, blob, fewer, more, L.GrantOf(a.authorize));
      assert UseAt(log, c, j + 1).grants == more + [L.GrantOf(a.authorize)];
      assert Answers(log, released, c, j + 1) == fewer + [L.GrantOf(a.authorize)] ||
             Answers(log, released, c, j + 1) == fewer;
    } else {
      assert Release(c, j) !in released;
      assert Answers(log, released, c, j + 1) == fewer;
      assert UseAt(log, c, j + 1).grants == more;
    }
  }

  lemma {:induction false} AnswersWereGranted(
      policy: Policy, hash: Bytes, blob: Bytes, log: seq<Entry>, released: seq<Release>, c: nat, n: nat)
    requires AllGranted(log, released) && IsMade(log, c) && c < n <= |log|
    ensures UsesNoMore(policy, hash, blob, Answers(log, released, c, n), UseAt(log, c, n).grants)
  {
    if n == c + 1 {
      NothingBefore(log, released, c, n);
    } else {
      AnswersWereGranted(policy, hash, blob, log, released, c, n - 1);
      AnswerStep(policy, hash, blob, log, released, c, n - 1);
    }
  }

  /**
   Whatever the clocks of the replicas that led, whoever took over and whatever snapshots were
   passed on: for every key that was created, all symmetric keys released under it, by whichever
   replicas, stay within every limited transform's and every limited shared budget. And no event
   was ever answered twice.
   */
  lemma ReleasesStayWithinBudget(
      policies: Policies, states: seq<Cluster>, steps: seq<Step>, n: nat, c: nat, hash: Bytes, blob: Bytes)
    requires IsRun(policies, states, steps) && n < |states| && IsMade(states[n].log, c)
    ensures Distinct(states[n].released)
    ensures var all := Answers(states[n].log, states[n].released, c, |states[n].log|);
            && (forall i | 0 <= i < |policies(hash).transforms| && TransformLimit(policies(hash).transforms[i]).Some? ::
                  Granted(all, hash, blob, i) <= TransformLimit(policies(hash).transforms[i]).value)
            && (forall j | 0 <= j < |policies(hash).shared| && policies(hash).shared[j].times.Some? ::
                  SharedUse(all, policies(hash), hash, blob, j) <= policies(hash).shared[j].times.value)
  {
    InvInRun(policies, states, steps, n);
    var s := states[n];
    assert AllGranted(s.log, s.released) by {
      forall x | x in s.released ensures GrantsAt(s.log, x.created, x.index) {
        var i :| 0 <= i < |s.released| && s.released[i] == x;
        assert ReleaseOk(s.log, s.replicas, s.released[i]);
      }
    }
    UseIsBounded(policies, s.log, c, |s.log|);
    BudgetTracking.InvBoundsGrants(policies, UseAt(s.log, c, |s.log|), hash, blob);
    AnswersWereGranted(policies(hash), hash, blob, s.log, s.released, c, |s.log|);
  }

  /** Clocks only make replicas forget: two that are equally far agree on a key the same event created for both. */
  lemma HeldKeysAgree(policies: Policies, states: seq<Cluster>, steps: seq<Step>, n: nat, r: nat, q: nat, k: Bytes)
    requires IsRun(policies, states, steps) && n < |states| && r in states[n].replicas && q in states[n].replicas
    requires states[n].replicas[r].applied == states[n].replicas[q].applied
    requires k in states[n].replicas[r].ledger.keys && k in states[n].replicas[q].ledger.keys
    requires k in states[n].replicas[r].born && k in states[n].replicas[q].born
    requires states[n].replicas[r].born[k] == states[n].replicas[q].born[k]
    ensures states[n].replicas[r].ledger.keys[k] == states[n].replicas[q].ledger.keys[k]
  {
    InvInRun(policies, states, steps, n);
    var s := states[n];
    assert ReplicaOk(s.log, s.replicas[r]) && ReplicaOk(s.log, s.replicas[q]);
    assert KeyOk(s.log, s.replicas[r], k) && KeyOk(s.log, s.replicas[q], k);
  }

  /** What a step makes of a replica that is there already. */
  ghost function LedgerAfter(policies: Policies, s: Cluster, x: Step, r: nat): L.LedgerState
    requires LogOk(policies, s.log) && LedgerReplicas.Enabled(policies, s, x) && r in s.replicas
  {
    LedgerReplicas.Next(policies, s, x).replicas[r].ledger
  }

  lemma EventMovesOn(policies: Policies, ledger: L.LedgerState, a: L.Action)
    requires IsEvent(policies, a)
    ensures L.After(ledger, a).now >= ledger.now
    ensures forall k | k in L.After(ledger, a).keys && k !in ledger.keys :: L.Creates(ledger, a, k)
  {
  }

  /**
   Nothing but an installed snapshot moves a replica's clock back or lets it hold a key it does not
   create: the clock goes back exactly when the snapshot's time is below the replica's.
   */
  lemma ClockGoesBackIff(policies: Policies, s: Cluster, x: Step, r: nat)
    requires LedgerReplicas.Inv(policies, s) && LedgerReplicas.Enabled(policies, s, x) && r in s.replicas
    ensures LedgerAfter(policies, s, x, r).now < s.replicas[r].ledger.now <==>
            x.Install? && x.installs == r && L.ParseTimestamp(x.saved.snapshot.currentTime).Some? &&
            L.ParseTimestamp(x.saved.snapshot.currentTime).value < s.replicas[r].ledger.now
    ensures forall k | k in LedgerAfter(policies, s, x, r).keys && k !in s.replicas[r].ledger.keys ::
              || (x.Install? && x.installs == r && k in x.saved.of.ledger.keys)
              || (x.Apply? && x.applies == r && L.Creates(s.replicas[r].ledger, s.log[s.replicas[r].applied].event, k))
  {
    if x.Install? {
      assert SavedOk(s.log, x.saved);
      L.SaveThenLoad(x.saved.of.ledger, x.saved.snapshot);
    } else if x.Apply? && x.applies == r {
      EventMovesOn(policies, s.replicas[r].ledger, s.log[s.replicas[r].applied].event);
    }
  }

  /** Once its revocation is in the log, no replica releases the blob under that key for a later event. */
  lemma RevokedEverywhere(
      policies: Policies, states: seq<Cluster>, steps: seq<Step>, n: nat, x: Release, j: nat)
    requires IsRun(policies, states, steps) && n < |states| && x in states[n].released
    requires x.created < j < x.index < |states[n].log| && states[n].log[j].event.Revoke?
    requires IsMade(states[n].log, x.created)
    requires states[n].log[x.created].event.create.keyId == Some(states[n].log[j].event.revoked)
    ensures GrantsAt(states[n].log, x.created, x.index)
    ensures states[n].log[x.index].event.authorize.header.value.blobId != states[n].log[j].event.blob
  {
    InvInRun(policies, states, steps, n);
    var s := states[n];
    var i :| 0 <= i < |s.released| && s.released[i] == x;
    assert ReleaseOk(s.log, s.replicas, s.released[i]);
    RevokedInLog(s.log, x.created, j, x.index, s.log[j].event.blob);
  }
}
