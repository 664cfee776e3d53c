/**
 The atomic counter actor: named counters changed by compare-and-swap, saved and loaded
 through snapshots that are merged into what is there.
 */
module Counter {
  import opened Wrappers
  import opened Storage
  import opened Replication

  datatype CounterValue = CounterValue(value: int, payload: Bytes)

  type Counters = map<string, CounterValue>

  /** A request as it is replicated: its only operation is compare-and-swap. */
  datatype CounterRequest = CounterRequest(name: string, payload: Bytes, expectedValue: int, newValue: int)

  datatype CounterStatus = Success | InvalidArgumentError

  datatype CounterResponse = CounterResponse(status: CounterStatus, oldValue: int, newValue: int)

  const ZERO := CounterValue(0, [])

  ghost function ValueOf(values: Counters, name: string): CounterValue {
    if name in values then values[name] else ZERO
  }

  /** A counter that is asked for exists from then on, even if the swap fails. */
  function Swapped(values: Counters, r: CounterRequest): Counters {
    var existing := if r.name in values then values[r.name] else ZERO;
    values[r.name := if existing.value == r.expectedValue then CounterValue(r.newValue, r.payload) else existing]
  }

  ghost function Response(values: Counters, r: CounterRequest): CounterResponse {
    var before := ValueOf(values, r.name).value;
    if before == r.expectedValue then CounterResponse(Success, before, r.newValue)
    else CounterResponse(InvalidArgumentError, before, 0)
  }

  function Loaded(values: Counters, snapshot: Counters): Counters {
    values + snapshot
  }

  /** Loading is a merge, so it restores the saved state exactly when nothing else was there. */
  lemma LoadIsExact(values: Counters, saved: Counters)
    ensures Loaded(values, saved) == saved <==> values.Keys <= saved.Keys
  {
    if values.Keys <= saved.Keys {
      assert Loaded(values, saved).Keys == saved.Keys;
    } else {
      var name :| name in values && name !in saved;
      assert name in Loaded(values, saved);
    }
  }

  // ----- A counter over a run of requests -----

  ghost function After(values: Counters, requests: seq<CounterRequest>): Counters {
    if requests == [] then values
    else Swapped(After(values, requests[..|requests| - 1]), requests[|requests| - 1])
  }

  ghost predicate Succeeds(values: Counters, requests: seq<CounterRequest>, i: nat)
    requires i < |requests|
  {
    Response(After(values, requests[..i]), requests[i]).status == Success
  }

  ghost predicate Changes(values: Counters, requests: seq<CounterRequest>, name: string, i: nat)
    requires i < |requests|
  {
    requests[i].name == name && Succeeds(values, requests, i)
  }

  /** The last of the first `n` requests that changed this counter. */
  ghost function LastChange(values: Counters, requests: seq<CounterRequest>, name: string, n: nat): (r: Option<nat>)
    requires n <= |requests|
    ensures r.None? ==> forall i | 0 <= i < n :: !Changes(values, requests, name, i)
    ensures r.Some? ==> r.value < n && Changes(values, requests, name, r.value)
    ensures r.Some? ==> forall i | r.value < i < n :: !Changes(values, requests, name, i)
  {
    if n == 0 then None
    else if Changes(values, requests, name, n - 1) then Some(n - 1)
    else LastChange(values, requests, name, n - 1)
  }

  /** A counter always holds what the last successful swap wrote, or what it held at first. */
  lemma {:induction false} LastChangeHolds(values: Counters, requests: seq<CounterRequest>, name: string, n: nat)
    requires n <= |requests|
    ensures var last := LastChange(values, requests, name, n);
            ValueOf(After(values, requests[..n]), name) ==
              if last.None? then ValueOf(values, name)
              else CounterValue(requests[last.value].newValue, requests[last.value].payload)
  {
    if n > 0 {
      LastChangeHolds(values, requests, name, n - 1);
      assert requests[..n][..n - 1] == requests[..n - 1];
    }
  }

  /** So each success saw exactly what the success before it left: no swap is lost or done twice. */
  lemma SuccessSeesLastSuccess(values: Counters, requests: seq<CounterRequest>, i: nat, j: nat)
    requires i < j < |requests| && requests[i].name == requests[j].name
    requires Succeeds(values, requests, i) && Succeeds(values, requests, j)
    requires forall k | i < k < j :: !Changes(values, requests, requests[j].name, k)
    ensures requests[j].expectedValue == requests[i].newValue
  {
    assert Changes(values, requests, requests[j].name, i);
    LastChangeHolds(values, requests, requests[j].name, j);
  }

  // ----- Replicating counters -----

  /** Replicas are all started with the same configured counters. */
  ghost function CounterMachine(
      initial: Counters, reconfigure: (ConfigState, ConfigChange) -> Option<ConfigState>)
    : Machine<Counters, CounterRequest, Counters>
  {
    Machine((s, r) => Some(Swapped(s, r)), s => Some(s), (s, d) => Some(Loaded(s, d)), s => s == initial, reconfigure)
  }

  lemma {:induction false} CountersAreKept(
      m: Machine<Counters, CounterRequest, Counters>, initial: Counters, boot: Boot<Counters>,
      log: seq<LogEntry<CounterRequest>>, i: nat, j: nat)
    requires m == CounterMachine(initial, m.reconfigure)
    requires 1 <= i <= j <= |log| && Fold(m, boot, log, i).Some? && Fold(m, boot, log, j).Some?
    ensures Fold(m, boot, log, i).value.actor.Keys <= Fold(m, boot, log, j).value.actor.Keys
    decreases j
  {
    if i < j {
      CountersAreKept(m, initial, boot, log, i, j - 1);
    }
  }

  /** Counters are never removed, so merging a later snapshot into an earlier state is exact. */
  lemma CountersCatchUp(
      initial: Counters, reconfigure: (ConfigState, ConfigChange) -> Option<ConfigState>,
      leader: nat, log: seq<LogEntry<CounterRequest>>)
    requires log != []
    ensures CatchesUp(CounterMachine(initial, reconfigure), Boot(leader, initial), log)
  {
    var m, boot := CounterMachine(initial, reconfigure), Boot(leader, initial);
    forall p: Progress<Counters>, s: StoredSnapshot<Counters> | Overtakes(m, boot, log, p, s)
      ensures m.load(p.actor, s.data) == Some(Fold(m, boot, log, s.index).value.actor)
    {
      assert Fold(m, boot, log, 1) == Some(Meaning(ConfigState([leader], [], []), initial));
      CountersAreKept(m, initial, boot, log, if p.applied == 0 then 1 else p.applied, s.index);
      LoadIsExact(p.actor, s.data);
    }
  }

  class CounterActor {
    var values: Counters

    constructor (initialValues: map<string, int>)
      ensures values == map name | name in initialValues :: CounterValue(initialValues[name], [])
    {
      values := map[];
      new;
      var todo := initialValues.Keys;
      while todo != {}
        invariant todo <= initialValues.Keys
        invariant values == map name | name in initialValues && name !in todo :: CounterValue(initialValues[name], [])
        decreases todo
      {
        var name :| name in todo;
        values := values[name := CounterValue(initialValues[name], [])];
        todo := todo - {name};
      }
    }

    method ApplyCompareAndSwap(request: CounterRequest) returns (response: CounterResponse)
      modifies this
      ensures values == Swapped(old(values), request)
      ensures response == Response(old(values), request)
    {
      if request.name !in values {
        values := values[request.name := ZERO];
      }
      var existing := values[request.name];
      response := CounterResponse(InvalidArgumentError, existing.value, 0);
      if existing.value == request.expectedValue {
        values := values[request.name := CounterValue(request.newValue, request.payload)];
        response := response.(status := Success, newValue := request.newValue);
      }
    }

    method SaveSnapshot() returns (snapshot: Counters)
      ensures snapshot == values
    {
      snapshot := map[];
      var todo := values.Keys;
      while todo != {}
        invariant todo <= values.Keys
        invariant snapshot == map name | name in values && name !in todo :: values[name]
        decreases todo
      {
        var name :| name in todo;
        snapshot := snapshot[name := values[name]];
        todo := todo - {name};
      }
    }

    method LoadSnapshot(snapshot: Counters)
      modifies this
      ensures values == Loaded(old(values), snapshot)
    {
      var todo := snapshot.Keys;
      while todo != {}
        invariant todo <= snapshot.Keys
        invariant values == old(values) + map name | name in snapshot && name !in todo :: snapshot[name]
        decreases todo
      {
        var name :| name in todo;
        values := values[name := snapshot[name]];
        todo := todo - {name};
      }
    }
  }
}
