/** Steps taken one after the other, whatever the steps are. */
module Paths {

  /** The actions lead from one state to the other. */
  ghost predicate Leads<S(!new), A>(step: (S, A, S) -> bool, s: S, actions: seq<A>, t: S)
    decreases |actions|
  {
    if actions == [] then s == t
    else exists next :: step(s, actions[0], next) && Leads(step, next, actions[1..], t)
  }

  lemma OneStep<S(!new), A>(step: (S, A, S) -> bool, s: S, a: A, t: S) returns (actions: seq<A>)
    requires step(s, a, t)
    ensures Leads(step, s, actions, t)
  {
    actions := [a];
    assert step(s, actions[0], t) && Leads(step, t, actions[1..], t);
  }

  lemma {:induction false} LeadsOn<S(!new), A>(
      step: (S, A, S) -> bool, s: S, actions: seq<A>, middle: S, more: seq<A>, t: S)
    requires Leads(step, s, actions, middle) && Leads(step, middle, more, t)
    ensures Leads(step, s, actions + more, t)
    decreases |actions|
  {
    if actions == [] {
      assert actions + more == more;
    } else {
      var next :| step(s, actions[0], next) && Leads(step, next, actions[1..], middle);
      LeadsOn(step, next, actions[1..], middle, more, t);
      assert (actions + more)[1..] == actions[1..] + more;
    }
  }

  lemma Joined<S(!new), A>(step: (S, A, S) -> bool, s: S, actions: seq<A>, middle: S, more: seq<A>, t: S)
    returns (all: seq<A>)
    requires Leads(step, s, actions, middle) && Leads(step, middle, more, t)
    ensures Leads(step, s, all, t)
  {
    LeadsOn(step, s, actions, middle, more, t);
    all := actions + more;
  }

  /** The states the actions lead through. */
  lemma {:induction false} StatesOf<S(!new), A>(step: (S, A, S) -> bool, s: S, actions: seq<A>, t: S)
    returns (states: seq<S>)
    requires Leads(step, s, actions, t)
    ensures |states| == |actions| + 1 && states[0] == s && states[|actions|] == t
    ensures forall i {:trigger actions[i]} | 0 <= i < |actions| :: step(states[i], actions[i], states[i + 1])
    decreases |actions|
  {
    if actions == [] {
      states := [s];
    } else {
      var next :| step(s, actions[0], next) && Leads(step, next, actions[1..], t);
      var rest := StatesOf(step, next, actions[1..], t);
      states := [s] + rest;
      forall i {:trigger actions[i]} | 0 <= i < |actions| ensures step(states[i], actions[i], states[i + 1]) {
        if i > 0 {
          assert actions[i] == actions[1..][i - 1];
        }
      }
    }
  }
}
