// What holds in every reachable state of the agent and along every step.
module DeliveryTheorems {
  import opened Probes
  import opened Lanes
  import opened LaneLemmas
  import opened Delivery
  import opened Reporter
  import opened ProbeRuns
  import opened DeliveryProofs

  ghost predicate CarriedAt(w: World, k: int, kind: Kind, id: int) {
    && 0 <= k < |HeldReports(w)| && id in LaneOf(w.s, kind).pending
    && Carries(Part(HeldReports(w)[k], kind), id, LaneOf(w.s, kind).pending[id].sequence)
  }

  // A pending result is marked leased iff a held report carries its current
  // number; there is at most one such report, and it carries the result too.
  lemma LeaseConservation(w: World, kind: Kind, id: int)
    requires Reachable(w) && id in LaneOf(w.s, kind).pending
    ensures LaneOf(w.s, kind).pending[id].leased <==> exists k :: CarriedAt(w, k, kind, id)
    ensures forall j, k :: CarriedAt(w, j, kind, id) && CarriedAt(w, k, kind, id) ==> j == k
    ensures forall k :: CarriedAt(w, k, kind, id) ==>
              LaneOf(w.s, kind).pending[id].result in Part(HeldReports(w)[k], kind).results
  {
    hide RunsOk, FidelityOk, LedgerOk, AllSized, BatchOk, PhaseOk, Reachable;
    ReachableOk(w);
    var l, held := LaneOf(w.s, kind), HeldReports(w);
    assert LaneOk(l, held, kind, w.s.nextResultID);
    if l.pending[id].leased {
      var k :| 0 <= k < |held| && Carries(Part(held[k], kind), id, l.pending[id].sequence);
      assert CarriedAt(w, k, kind, id);
    }
    forall k | CarriedAt(w, k, kind, id)
      ensures l.pending[id].leased && l.pending[id].result in Part(held[k], kind).results
    {
      assert SlipFits(Part(held[k], kind), l.pending, w.s.nextResultID);
    }
    forall j, k | 0 <= j < k < |held|
      ensures !CarriedAt(w, j, kind, id) || !CarriedAt(w, k, kind, id)
    {
      BeforeExcludes(Part(held[j], kind), Part(held[k], kind), id, l.pending[id].sequence);
    }
  }

  lemma BeforeExcludes(a: Slip, b: Slip, id: int, sequence: nat)
    requires Before(a, b)
    ensures !Carries(a, id, sequence) || !Carries(b, id, sequence)
  {
    assert id in b.leases ==> Below(a, b.leases[id]);
  }

  // The numbers of the results of one lane, along a sequence of reports.
  function Numbers(s: Slip): seq<nat> {
    seq(|s.results|, i requires 0 <= i < |s.results| => LeaseOf(s.leases, s.results[i].id))
  }

  function Line(reports: seq<Report>, kind: Kind): seq<nat> {
    if reports == [] then [] else Line(reports[..|reports| - 1], kind) + Numbers(Part(reports[|reports| - 1], kind))
  }

  ghost predicate StrictlyRising(numbers: seq<nat>) {
    forall i, j :: 0 <= i < j < |numbers| ==> numbers[i] < numbers[j]
  }

  lemma {:induction false} LineFrom(reports: seq<Report>, kind: Kind, i: nat) returns (k: nat, id: int)
    requires i < |Line(reports, kind)|
    requires forall k :: 0 <= k < |reports| ==> Rising(Part(reports[k], kind).results, Part(reports[k], kind).leases)
    ensures k < |reports| && id in Part(reports[k], kind).leases && Part(reports[k], kind).leases[id] == Line(reports, kind)[i]
  {
    var front, last := reports[..|reports| - 1], reports[|reports| - 1];
    if i < |Line(front, kind)| {
      k, id := LineFrom(front, kind, i);
    } else {
      k, id := |reports| - 1, Part(last, kind).results[i - |Line(front, kind)|].id;
    }
  }

  lemma {:induction false} LineRises(reports: seq<Report>, kind: Kind)
    requires forall k :: 0 <= k < |reports| ==> Rising(Part(reports[k], kind).results, Part(reports[k], kind).leases)
    requires forall j, k :: 0 <= j < k < |reports| ==> Before(Part(reports[j], kind), Part(reports[k], kind))
    ensures StrictlyRising(Line(reports, kind))
  {
    if reports != [] {
      var front, last := reports[..|reports| - 1], reports[|reports| - 1];
      LineRises(front, kind);
      var a, b := Line(front, kind), Numbers(Part(last, kind));
      forall i, j | 0 <= i < |a| && 0 <= j < |b|
        ensures a[i] < b[j]
      {
        var k, id := LineFrom(front, kind, i);
        assert Before(Part(reports[k], kind), Part(reports[|reports| - 1], kind));
        assert Part(last, kind).results[j].id in Part(last, kind).leases;
      }
    }
  }

  // Along everything the reporter holds, result numbers strictly increase in
  // each lane, and at most one bounded batch awaits an acknowledgement.
  lemma HeldOrder(w: World, kind: Kind)
    requires Reachable(w)
    ensures StrictlyRising(Line(HeldReports(w), kind))
    ensures |w.inFlight| <= MAX_REPORTS_PER_ENVELOPE
    ensures w.phase.Sent? ==> w.inFlight == [] && |w.phase.batch| <= MAX_REPORTS_PER_ENVELOPE
    ensures w.phase != Ending ==> w.s.retryQueue == [] || (w.inFlight == [] && w.pending == [])
    ensures AllSized(HeldReports(w))
  {
    ReachableOk(w);
    var held := HeldReports(w);
    assert LaneOk(LaneOf(w.s, kind), held, kind, w.s.nextResultID);
    forall k | 0 <= k < |held|
      ensures Rising(Part(held[k], kind).results, Part(held[k], kind).leases)
    {
      assert SlipFits(Part(held[k], kind), LaneOf(w.s, kind).pending, w.s.nextResultID);
    }
    LineRises(held, kind);
  }

  // A second batch never leaves while one is unacknowledged.
  lemma OneBatchAtATime(w: World, step: Step)
    requires Reachable(w) && Enabled(w, step) && w.inFlight != []
    ensures var w' := Next(w, step); w'.inFlight == w.inFlight || (w'.inFlight == [] && (step == Ack || step == EndInFlight))
  {
    ReachableOk(w);
  }

  // Every issued number is, exactly once, pending, acknowledged, or dropped by
  // a policy: no result is lost and none is delivered twice.
  lemma NumberConservation(w: World, n: nat)
    requires Reachable(w)
    ensures 1 <= n <= w.s.nextResultID <==>
            n in Sequences(w.s.ping) || n in Sequences(w.s.website) || n in w.acked || n in w.dropped
    ensures n in Sequences(w.s.ping) ==> n !in Sequences(w.s.website) && n !in w.acked && n !in w.dropped
    ensures n in Sequences(w.s.website) ==> n !in w.acked && n !in w.dropped
    ensures n in w.acked ==> n !in w.dropped
  {
    ReachableOk(w);
    assert Issued(n, w.s.nextResultID) <==> n in PendingNumbers(w.s) + w.acked + w.dropped;
  }

  // Pending results and uncancelled runs match the current policy. For a
  // website result this includes the configuration revision it reports.
  lemma DefinitionFidelity(w: World)
    requires Reachable(w)
    ensures forall kind, id :: id in LaneOf(w.s, kind).pending ==> ResultBacked(LaneOf(w.s, kind), w.origin, id)
    ensures forall x :: x in w.workers && x.token !in w.s.cancelled ==>
              Backed(LaneOf(w.s, x.kind).tasks, x.task.id, x.task.definition)
    ensures forall id :: id in w.s.website.pending && w.s.website.pending[id].result.outcome.Verdict? ==>
              exists t :: t in w.s.website.tasks && t.id == id && t.definition.Website?
                          && t.definition.configRevision == w.s.website.pending[id].result.outcome.configRevision
  {
    ReachableOk(w);
    forall id | id in w.s.website.pending && w.s.website.pending[id].result.outcome.Verdict?
      ensures exists t :: t in w.s.website.tasks && t.id == id && t.definition.Website?
                          && t.definition.configRevision == w.s.website.pending[id].result.outcome.configRevision
    {
      assert ResultBacked(LaneOf(w.s, WebsiteKind), w.origin, id);
      var definition := w.origin[w.s.website.pending[id].sequence];
      var t :| t in w.s.website.tasks && t.id == id && SameProbe(t.definition, definition);
    }
  }

  // At most four probes run; the counter is exact; nothing is both running
  // and pending; the queue order is the order of issue.
  lemma SchedulerInvariant(w: World, kind: Kind)
    requires Reachable(w)
    ensures w.s.activeProbes == |w.s.ping.running| + |w.s.website.running| <= MAX_CONCURRENT_PROBES
    ensures forall id :: id in LaneOf(w.s, kind).pending ==> id !in LaneOf(w.s, kind).running
    ensures forall id :: id in LaneOf(w.s, kind).order <==> id in LaneOf(w.s, kind).pending
    ensures Ascending(LaneOf(w.s, kind).order, LaneOf(w.s, kind).pending)
  {
    ReachableOk(w);
    var l := LaneOf(w.s, kind);
    assert QueueOk(l, w.s.nextResultID);
    assert forall id :: id in l.pending ==> id !in l.running;
    forall id | id in l.order
      ensures id in l.pending
    {
      var i :| 0 <= i < |l.order| && l.order[i] == id;
    }
  }

  // A run that was cancelled leaves no result; any other run queues exactly
  // its own result, under a fresh number.
  lemma FinishQueuesIffLive(w: World, worker: Worker, outcome: Outcome)
    requires Reachable(w) && Enabled(w, FinishProbe(worker, outcome))
    ensures var s' := Next(w, FinishProbe(worker, outcome)).s;
            if Interrupted(w.s, worker.token) then
              s'.ping.pending == w.s.ping.pending && s'.website.pending == w.s.website.pending
            else
              && s'.nextResultID == w.s.nextResultID + 1
              && LaneOf(s', worker.kind).pending
                 == LaneOf(w.s, worker.kind).pending[worker.task.id := Queued(Result(worker.task.id, outcome), s'.nextResultID, false)]
              && worker.task.id !in LaneOf(w.s, worker.kind).pending
  {
    hide LaneOk, FidelityOk, LedgerOk, AllSized, BatchOk, PhaseOk, Reachable;
    ReachableOk(w);
    RunningIsNotPending(w.s, w.workers, HeldReports(w), worker);
    FinishEffect(w.s, w.workers, worker, outcome);
  }

  ghost predicate Unmoved(w: World, w': World, kind: Kind, id: int)
    requires id in LaneOf(w.s, kind).pending
  {
    && id in LaneOf(w'.s, kind).pending
    && LaneOf(w'.s, kind).pending[id].result == LaneOf(w.s, kind).pending[id].result
    && LaneOf(w'.s, kind).pending[id].sequence == LaneOf(w.s, kind).pending[id].sequence
    && (LaneOf(w.s, kind).pending[id].leased ==> LaneOf(w'.s, kind).pending[id].leased)
  }

  // The batch that a step acknowledges.
  function AcceptedBatch(w: World, step: Step): seq<Report>
    requires Enabled(w, step)
  {
    if step == Ack then w.inFlight else if step == HttpAccepted then w.phase.batch else []
  }

  // The task lists a policy installs.
  function InstalledTasks(w: World, policy: Policy, kind: Kind): seq<Task> {
    var interval := PolicyInterval(w.s, policy);
    match kind
    case PingKind => WithInterval(policy.pings, interval)
    case WebsiteKind => WithInterval(policy.websites, interval)
  }

  lemma BatchFits(w: World, step: Step, kind: Kind)
    requires Inv(w) && Enabled(w, step)
    ensures var batch := AcceptedBatch(w, step);
            forall k :: 0 <= k < |batch| ==> SlipFits(Part(batch[k], kind), LaneOf(w.s, kind).pending, w.s.nextResultID)
  {
    var batch := AcceptedBatch(w, step);
    forall k | 0 <= k < |batch|
      ensures SlipFits(Part(batch[k], kind), LaneOf(w.s, kind).pending, w.s.nextResultID)
    {
      if step == Ack {
        assert HeldReports(w)[|w.s.retryQueue| + k] == batch[k];
        assert LaneOk(LaneOf(w.s, kind), HeldReports(w), kind, w.s.nextResultID);
      } else {
        assert CopyOk(w.s, batch[k], w.pending[k]);
      }
    }
  }

  // A batch that is accepted carries the result under its current number.
  ghost predicate Delivered(w: World, batch: seq<Report>, kind: Kind, id: int)
    requires id in LaneOf(w.s, kind).pending
  {
    exists k :: 0 <= k < |batch| && Carries(Part(batch[k], kind), id, LaneOf(w.s, kind).pending[id].sequence)
                && LaneOf(w.s, kind).pending[id].result in Part(batch[k], kind).results
  }

  // A pending result leaves the queue only when a batch that carries it, with
  // its current number, is accepted, or when a policy removes or redefines its
  // task. Every other step leaves it, its number and its leased mark alone.
  lemma ResultLeavesOnly(w: World, step: Step, kind: Kind, id: int)
    requires Reachable(w) && Enabled(w, step) && id in LaneOf(w.s, kind).pending
    ensures
      || Unmoved(w, Next(w, step), kind, id)
      || Delivered(w, AcceptedBatch(w, step), kind, id)
      || (step.NewPolicy? && id in SupersededIds(LaneOf(w.s, kind).tasks, InstalledTasks(w, step.policy, kind)))
  {
    match step
    case LaunchDueProbes(now) => LaunchLeaves(w, now, kind, id);
    case FinishProbe(worker, outcome) => FinishLeaves(w, worker, outcome, kind, id);
    case LeaseFirst(sample) => LeaseReportOnlyMarks(w.s, sample, kind, id);
    case LeaseRemaining => LeaseRestOnlyMarks(w.s, w.phase.sample, kind, id);
    case Ack => AckLeaves(w, step, kind, id);
    case HttpAccepted => AckLeaves(w, step, kind, id);
    case NewPolicy(policy) => PolicyLeaves(w, policy, kind, id);
    case _ => LanesAlone(w, step);
  }

  lemma AckLeaves(w: World, step: Step, kind: Kind, id: int)
    requires Reachable(w) && Enabled(w, step) && (step == Ack || step == HttpAccepted) && id in LaneOf(w.s, kind).pending
    ensures Unmoved(w, Next(w, step), kind, id) || Delivered(w, AcceptedBatch(w, step), kind, id)
  {
    ReachableOk(w);
    BatchFits(w, step, kind);
    var batch := AcceptedBatch(w, step);
    if batch != [] {
      assert Next(w, step).s == Acknowledge(w.s, batch);
      AckMoves(w, batch, kind, id);
    } else {
      AckAllShrinks(LaneOf(w.s, kind).pending, batch, kind);
    }
  }

  predicate ReporterOnly(step: Step) {
    step in {Close, Connect, TakeRetryReports, SampleTick, UploadTick, Flush, EndInFlight, EndPending, HttpSend, HttpRejected}
  }

  lemma LanesAlone(w: World, step: Step)
    requires Enabled(w, step) && ReporterOnly(step)
    ensures Next(w, step).s.ping == w.s.ping && Next(w, step).s.website == w.s.website
  {
    hide LaunchDue, Finish, ApplyPolicy, Acknowledge, LeaseReport, LeaseRest, KeepCurrent, CurrentReports, PendingNumbers;
  }

  lemma LaunchLeaves(w: World, now: nat, kind: Kind, id: int)
    requires Reachable(w) && id in LaneOf(w.s, kind).pending
    ensures Unmoved(w, Next(w, LaunchDueProbes(now)), kind, id)
  {
    ReachableOk(w);
    LaunchDueKeepsLanes(w.s, HeldReports(w), now);
    assert LaneOf(Next(w, LaunchDueProbes(now)).s, kind).pending == LaneOf(w.s, kind).pending;
  }

  lemma FinishLeaves(w: World, worker: Worker, outcome: Outcome, kind: Kind, id: int)
    requires Reachable(w) && Enabled(w, FinishProbe(worker, outcome)) && id in LaneOf(w.s, kind).pending
    ensures Unmoved(w, Next(w, FinishProbe(worker, outcome)), kind, id)
  {
    hide LaneOk, FidelityOk, LedgerOk, AllSized, BatchOk, PhaseOk, Reachable;
    ReachableOk(w);
    RunningIsNotPending(w.s, w.workers, HeldReports(w), worker);
    FinishEffect(w.s, w.workers, worker, outcome);
  }

  lemma PolicyLeaves(w: World, policy: Policy, kind: Kind, id: int)
    requires Enabled(w, NewPolicy(policy)) && id in LaneOf(w.s, kind).pending
    ensures || Unmoved(w, Next(w, NewPolicy(policy)), kind, id)
            || id in SupersededIds(LaneOf(w.s, kind).tasks, InstalledTasks(w, policy, kind))
  {
  }

  lemma AckMoves(w: World, batch: seq<Report>, kind: Kind, id: int)
    requires id in LaneOf(w.s, kind).pending
    requires forall k :: 0 <= k < |batch| ==> SlipFits(Part(batch[k], kind), LaneOf(w.s, kind).pending, w.s.nextResultID)
    ensures
      || (id in LaneOf(Acknowledge(w.s, batch), kind).pending
          && LaneOf(Acknowledge(w.s, batch), kind).pending[id] == LaneOf(w.s, kind).pending[id])
      || Delivered(w, batch, kind, id)
  {
    AckAllShrinks(LaneOf(w.s, kind).pending, batch, kind);
    if id !in LaneOf(Acknowledge(w.s, batch), kind).pending {
      var k :| 0 <= k < |batch| && Carries(Part(batch[k], kind), id, LaneOf(w.s, kind).pending[id].sequence);
      assert SlipFits(Part(batch[k], kind), LaneOf(w.s, kind).pending, w.s.nextResultID);
    }
  }

  ghost predicate Marked(s: State, s': State, kind: Kind, id: int)
    requires id in LaneOf(s, kind).pending
  {
    && id in LaneOf(s', kind).pending
    && LaneOf(s', kind).pending[id].result == LaneOf(s, kind).pending[id].result
    && LaneOf(s', kind).pending[id].sequence == LaneOf(s, kind).pending[id].sequence
    && (LaneOf(s, kind).pending[id].leased ==> LaneOf(s', kind).pending[id].leased)
  }

  lemma LeaseReportOnlyMarks(s: State, sample: nat, kind: Kind, id: int)
    requires id in LaneOf(s, kind).pending
    ensures Marked(s, LeaseReport(s, sample).0, kind, id)
  {
  }

  lemma {:induction false} LeaseRestOnlyMarks(s: State, sample: nat, kind: Kind, id: int)
    requires id in LaneOf(s, kind).pending
    ensures Marked(s, LeaseRest(s, sample).0, kind, id)
    decreases UnleasedCount(s)
  {
    var (s1, next) := LeaseReport(s, sample);
    LeaseRestUnfolds(s, sample);
    LeaseReportOnlyMarks(s, sample, kind, id);
    if HasResults(next) {
      LeaseRestOnlyMarks(s1, sample, kind, id);
    }
  }
}
