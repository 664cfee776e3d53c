/** What a snapshot sender reports to Raft over a whole run. */
module SnapshotReports {
  import opened Wrappers
  import opened Snapshot

  datatype SenderStep =
    | StartTo(to: nat, snapshot: RaftSnapshot)
    | SendTo(to: nat)
    | Deliver(from: nat, deliveryId: nat, delivery: Delivery)
    | Report(to: nat)
    | Cancel(to: nat)

  /** A sender with the snapshot ids it reported to Raft, and those a newer start replaced. */
  datatype Reporting = Reporting(sender: Sender, reported: seq<nat>, overridden: set<nat>)

  ghost predicate CanStep(p: Reporting, a: SenderStep) {
    match a
    case StartTo(_, _) => p.sender.chunkSize > 0
    case SendTo(r) => CanSend(p.sender, r)
    case Deliver(_, _, _) => true
    case Report(r) => r in p.sender.receivers && Outcome(p.sender.receivers[r]).Some?
    case Cancel(r) => r in p.sender.receivers
  }

  ghost function Stepped(p: Reporting, a: SenderStep): Reporting
    requires CanStep(p, a)
  {
    match a
    case StartTo(r, snapshot) =>
      p.(sender := StartTransfer(p.sender, r, snapshot),
         overridden := p.overridden + if r in p.sender.receivers then {p.sender.receivers[r].snapshotId} else {})
    case SendTo(r) => p.(sender := SendNext(p.sender, r).0)
    case Deliver(r, d, delivery) => p.(sender := Receive(p.sender, r, d, delivery))
    case Report(r) => p.(sender := Dropped(p.sender, r), reported := p.reported + [p.sender.receivers[r].snapshotId])
    case Cancel(r) => p.(sender := Dropped(p.sender, r), reported := p.reported + [p.sender.receivers[r].snapshotId])
  }

  ghost predicate IsLive(s: Sender, id: nat) {
    exists r :: r in s.receivers && s.receivers[r].snapshotId == id
  }

  /** Every transfer since `first` is live, reported or overridden: one of the three, and once. */
  ghost predicate Accounted(p: Reporting, first: nat) {
    && first <= p.sender.nextSnapshotId
    && (forall q, r | q in p.sender.receivers && r in p.sender.receivers && q != r ::
          p.sender.receivers[q].snapshotId != p.sender.receivers[r].snapshotId)
    && (forall r | r in p.sender.receivers :: first <= p.sender.receivers[r].snapshotId < p.sender.nextSnapshotId)
    && (forall id | id in p.reported || id in p.overridden :: first <= id < p.sender.nextSnapshotId)
    && (forall id: nat | first <= id < p.sender.nextSnapshotId ::
          multiset(p.reported)[id] + (if id in p.overridden then 1 else 0) +
          (if IsLive(p.sender, id) then 1 else 0) == 1)
  }

  /** A step that keeps receivers and their snapshot ids. */
  lemma SameTransfers(p: Reporting, sender: Sender, first: nat)
    requires Accounted(p, first)
    requires sender.nextSnapshotId == p.sender.nextSnapshotId && sender.receivers.Keys == p.sender.receivers.Keys
    requires forall r | r in sender.receivers :: sender.receivers[r].snapshotId == p.sender.receivers[r].snapshotId
    ensures Accounted(p.(sender := sender), first)
  {
    forall id: nat ensures IsLive(sender, id) == IsLive(p.sender, id) {
      if IsLive(sender, id) {
        var r :| r in sender.receivers && sender.receivers[r].snapshotId == id;
        assert p.sender.receivers[r].snapshotId == id;
      }
      if IsLive(p.sender, id) {
        var r :| r in p.sender.receivers && p.sender.receivers[r].snapshotId == id;
        assert sender.receivers[r].snapshotId == id;
      }
    }
  }

  lemma DropAccounted(p: Reporting, r: nat, first: nat)
    requires Accounted(p, first) && r in p.sender.receivers
    ensures Accounted(p.(sender := Dropped(p.sender, r),
                         reported := p.reported + [p.sender.receivers[r].snapshotId]), first)
  {
    var gone := p.sender.receivers[r].snapshotId;
    var after := Dropped(p.sender, r);
    assert IsLive(p.sender, gone);
    forall id: nat ensures IsLive(after, id) <==> IsLive(p.sender, id) && id != gone {
      if IsLive(p.sender, id) && id != gone {
        var q :| q in p.sender.receivers && p.sender.receivers[q].snapshotId == id;
        assert q in after.receivers && after.receivers[q].snapshotId == id;
      }
      if IsLive(after, id) {
        var q :| q in after.receivers && after.receivers[q].snapshotId == id;
        assert q in p.sender.receivers && p.sender.receivers[q].snapshotId == id;
      }
    }
    assert multiset(p.reported + [gone]) == multiset(p.reported) + multiset{gone};
  }

  /** Starting a transfer makes it live, in place of the one the receiver had. */
  lemma LiveAfterStart(s: Sender, r: nat, st: SenderState, id: nat)
    ensures IsLive(s.(receivers := s.receivers[r := st]), id) <==>
            id == st.snapshotId || exists q :: q in s.receivers && q != r && s.receivers[q].snapshotId == id
  {
    var after := s.receivers[r := st];
    assert after[r].snapshotId == st.snapshotId;
    if q :| q in s.receivers && q != r && s.receivers[q].snapshotId == id {
      assert after[q].snapshotId == id;
    }
  }

  lemma StartAccounted(p: Reporting, r: nat, snapshot: RaftSnapshot, first: nat)
    requires Accounted(p, first) && p.sender.chunkSize > 0
    ensures Accounted(Stepped(p, StartTo(r, snapshot)), first)
  {
    var newest := p.sender.nextSnapshotId;
    var after := Stepped(p, StartTo(r, snapshot));
    assert after.sender.receivers[r].snapshotId == newest;
    assert newest !in p.reported;
    forall id: nat
      ensures IsLive(after.sender, id) <==>
              id == newest ||
              (IsLive(p.sender, id) && !(r in p.sender.receivers && p.sender.receivers[r].snapshotId == id))
    {
      LiveAfterStart(p.sender, r, after.sender.receivers[r], id);
    }
    if r in p.sender.receivers {
      assert IsLive(p.sender, p.sender.receivers[r].snapshotId);
    }
  }

  ghost predicate IsReportingRun(ps: seq<Reporting>, steps: seq<SenderStep>) {
    && |ps| == |steps| + 1
    && ps[0].sender.receivers == map[] && ps[0].reported == [] && ps[0].overridden == {}
    && forall i | 0 <= i < |steps| :: CanStep(ps[i], steps[i]) && ps[i + 1] == Stepped(ps[i], steps[i])
  }

  lemma StepAccounted(p: Reporting, step: SenderStep, first: nat)
    requires Accounted(p, first) && CanStep(p, step)
    ensures Accounted(Stepped(p, step), first)
  {
    match step
    case StartTo(r, snapshot) => StartAccounted(p, r, snapshot, first);
    case SendTo(r) => SameTransfers(p, SendNext(p.sender, r).0, first);
    case Deliver(r, d, delivery) => SameTransfers(p, Receive(p.sender, r, d, delivery), first);
    case Report(r) => DropAccounted(p, r, first);
    case Cancel(r) => DropAccounted(p, r, first);
  }

  /** In every run each started transfer is reported exactly once, overridden, or still live. */
  lemma {:induction false} EveryTransferIsAccountedFor(ps: seq<Reporting>, steps: seq<SenderStep>, i: nat)
    requires IsReportingRun(ps, steps) && i < |ps|
    ensures Accounted(ps[i], ps[0].sender.nextSnapshotId)
  {
    if i > 0 {
      EveryTransferIsAccountedFor(ps, steps, i - 1);
      StepAccounted(ps[i - 1], steps[i - 1], ps[0].sender.nextSnapshotId);
    }
  }
}
