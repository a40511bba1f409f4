// What every step of the agent keeps.
module DeliveryProofs {
  import opened Probes
  import opened Lanes
  import opened LaneLemmas
  import opened Delivery
  import opened Reporter
  import opened ProbeRuns

  // ------------------------------------------------- filtering whole batches

  lemma FilterOneKeeps(s: State, a: seq<Report>, r: Report, b: seq<Report>)
    requires LanesOk(s, a + [r] + b)
    ensures LanesOk(s, a + [CurrentReport(s, r)] + b)
  {
    FilterKeeps(s.ping, a, r, b, CurrentReport(s, r), PingKind, s.nextResultID);
    FilterKeeps(s.website, a, r, b, CurrentReport(s, r), WebsiteKind, s.nextResultID);
  }

  lemma {:induction false} CurrentKeeps(s: State, a: seq<Report>, reports: seq<Report>, b: seq<Report>)
    requires LanesOk(s, a + reports + b)
    ensures LanesOk(s, a + CurrentReports(s, reports) + b)
    decreases |reports|
  {
    if reports != [] {
      var r, rest := reports[0], reports[1..];
      var r' := CurrentReport(s, r);
      assert a + reports + b == a + [r] + (rest + b);
      FilterOneKeeps(s, a, r, rest + b);
      assert a + [r'] + (rest + b) == (a + [r']) + rest + b;
      CurrentKeeps(s, a + [r'], rest, b);
      assert (a + [r']) + CurrentReports(s, rest) + b == a + CurrentReports(s, reports) + b;
    } else {
      assert CurrentReports(s, reports) == reports;
    }
  }

  lemma DropOneKeeps(s: State, a: seq<Report>, r: Report, b: seq<Report>)
    requires LanesOk(s, a + [r] + b) && !HasResults(r)
    ensures LanesOk(s, a + b)
  {
    DropKeeps(s.ping, a, r, b, PingKind, s.nextResultID);
    DropKeeps(s.website, a, r, b, WebsiteKind, s.nextResultID);
  }

  lemma {:induction false} KeepCurrentKeeps(s: State, a: seq<Report>, reports: seq<Report>, b: seq<Report>)
    requires LanesOk(s, a + reports + b)
    ensures LanesOk(s, a + KeepCurrent(s, reports) + b)
    decreases |reports|
  {
    if reports != [] {
      var r, rest := reports[0], reports[1..];
      var r' := CurrentReport(s, r);
      assert a + reports + b == a + [r] + (rest + b);
      FilterOneKeeps(s, a, r, rest + b);
      if HasResults(r') {
        assert a + [r'] + (rest + b) == (a + [r']) + rest + b;
        KeepCurrentKeeps(s, a + [r'], rest, b);
        assert (a + [r']) + KeepCurrent(s, rest) + b == a + KeepCurrent(s, reports) + b;
      } else {
        DropOneKeeps(s, a, r', rest + b);
        assert a + (rest + b) == a + rest + b;
        KeepCurrentKeeps(s, a, rest, b);
        assert KeepCurrent(s, reports) == KeepCurrent(s, rest);
      }
    } else {
      assert KeepCurrent(s, reports) == reports;
    }
  }

  lemma CurrentReportSized(s: State, r: Report)
    requires ReportSized(r)
    ensures ReportSized(CurrentReport(s, r))
  {
    FilterLength(r.ping.results, r.ping.leases, s.ping.pending);
    FilterLength(r.website.results, r.website.leases, s.website.pending);
  }

  lemma {:induction false} KeepCurrentSized(s: State, reports: seq<Report>)
    requires AllSized(reports)
    ensures AllSized(KeepCurrent(s, reports))
  {
    if reports != [] {
      assert ReportSized(reports[0]);
      CurrentReportSized(s, reports[0]);
      KeepCurrentSized(s, reports[1..]);
    }
  }

  lemma CurrentReportsSized(s: State, reports: seq<Report>)
    requires AllSized(reports)
    ensures AllSized(CurrentReports(s, reports))
  {
    forall k | 0 <= k < |reports|
      ensures ReportSized(CurrentReports(s, reports)[k])
    {
      CurrentReportSized(s, reports[k]);
    }
  }

  // ----------------------------------------------------------------- leasing

  ghost predicate SameButLeased(s: State, s': State) {
    && s' == s.(ping := s'.ping, website := s'.website)
    && s'.ping == s.ping.(pending := s'.ping.pending) && OnlyLeased(s.ping.pending, s'.ping.pending)
    && s'.website == s.website.(pending := s'.website.pending) && OnlyLeased(s.website.pending, s'.website.pending)
  }

  ghost predicate OnlyLeased(pending: map<int, Queued>, pending': map<int, Queued>) {
    && pending'.Keys == pending.Keys
    && forall id :: id in pending ==> pending'[id].result == pending[id].result && pending'[id].sequence == pending[id].sequence
  }

  lemma LeaseReportKeeps(s: State, held: seq<Report>, sample: nat)
    requires LanesOk(s, held)
    ensures LanesOk(LeaseReport(s, sample).0, held + [LeaseReport(s, sample).1])
  {
    var (s', r) := LeaseReport(s, sample);
    LeaseKeeps(s.ping, held, PingKind, s.nextResultID, MAX_PING_RESULTS_PER_REPORT, r);
    LeaseKeeps(s.website, held, WebsiteKind, s.nextResultID, MAX_WEBSITE_RESULTS_PER_REPORT, r);
  }

  lemma LeaseRestUnfolds(s: State, sample: nat)
    ensures var (s1, next) := LeaseReport(s, sample);
            if HasResults(next) then
              && UnleasedCount(s1) < UnleasedCount(s)
              && LeaseRest(s, sample).0 == LeaseRest(s1, sample).0
              && LeaseRest(s, sample).1 == [next] + LeaseRest(s1, sample).1
            else LeaseRest(s, sample) == (s, [])
  {
    LeaseShrinks(s.ping, MAX_PING_RESULTS_PER_REPORT);
    LeaseShrinks(s.website, MAX_WEBSITE_RESULTS_PER_REPORT);
  }

  lemma LeaseRestStep(s: State, held: seq<Report>, sample: nat, s1: State, next: Report)
    requires LeaseReport(s, sample) == (s1, next)
    ensures HasResults(next) ==>
              && UnleasedCount(s1) < UnleasedCount(s)
              && LeaseRest(s, sample).0 == LeaseRest(s1, sample).0
              && held + LeaseRest(s, sample).1 == held + [next] + LeaseRest(s1, sample).1
    ensures !HasResults(next) ==> LeaseRest(s, sample).0 == s && held + LeaseRest(s, sample).1 == held
  {
    LeaseRestUnfolds(s, sample);
  }

  lemma {:induction false} LeaseRestKeeps(s: State, held: seq<Report>, sample: nat)
    requires LanesOk(s, held)
    ensures LanesOk(LeaseRest(s, sample).0, held + LeaseRest(s, sample).1)
    decreases UnleasedCount(s)
  {
    var (s1, next) := LeaseReport(s, sample);
    LeaseRestStep(s, held, sample, s1, next);
    if HasResults(next) {
      LeaseReportKeeps(s, held, sample);
      LeaseRestKeeps(s1, held + [next], sample);
    }
  }

  lemma LeaseReportOnlyLeases(s: State, sample: nat)
    ensures ReportSized(LeaseReport(s, sample).1) && SameButLeased(s, LeaseReport(s, sample).0)
  {
  }

  lemma {:induction false} LeaseRestOnlyLeases(s: State, sample: nat)
    ensures AllSized(LeaseRest(s, sample).1) && SameButLeased(s, LeaseRest(s, sample).0)
    decreases UnleasedCount(s)
  {
    var (s1, next) := LeaseReport(s, sample);
    LeaseRestUnfolds(s, sample);
    LeaseReportOnlyLeases(s, sample);
    if HasResults(next) {
      LeaseRestOnlyLeases(s1, sample);
    }
  }

  lemma OnlyLeasedKeeps(s: State, s': State, workers: set<Worker>, origin: map<nat, Definition>, acked: set<nat>, dropped: set<nat>)
    requires SameButLeased(s, s')
    requires RunsOk(s, workers) && FidelityOk(s, workers, origin) && LedgerOk(s, acked, dropped)
    ensures RunsOk(s', workers) && FidelityOk(s', workers, origin) && LedgerOk(s', acked, dropped)
  {
    forall x | x in workers
      ensures RunningAs(s', x)
    {
      assert RunningAs(s, x);
    }
    forall kind, id | id in LaneOf(s', kind).pending
      ensures ResultBacked(LaneOf(s', kind), origin, id)
    {
      assert ResultBacked(LaneOf(s, kind), origin, id);
    }
    SameSequences(s.ping, s'.ping);
    SameSequences(s.website, s'.website);
  }

  lemma SameSequences(l: Lane, l': Lane)
    requires OnlyLeased(l.pending, l'.pending)
    ensures Sequences(l') == Sequences(l)
  {
  }

  // --------------------------------------------------------- acknowledgement

  lemma {:induction false} AckAllKeeps(pending: map<int, Queued>, reports: seq<Report>, b: seq<Report>, kind: Kind, next: nat)
    requires HeldOk(pending, reports + b, kind, next)
    ensures HeldOk(AckAll(pending, reports, kind), b, kind, next)
    decreases |reports|
  {
    if reports == [] {
      assert reports + b == b;
    } else {
      var a: seq<Report> := [];
      assert reports + b == a + [reports[0]] + (reports[1..] + b);
      AckKeeps(pending, a, reports[0], reports[1..] + b, kind, next);
      assert a + (reports[1..] + b) == reports[1..] + b;
      AckAllKeeps(AckPending(pending, Part(reports[0], kind)), reports[1..], b, kind, next);
    }
  }

  lemma {:induction false} AckAllShrinks(pending: map<int, Queued>, reports: seq<Report>, kind: Kind)
    ensures forall id :: id in AckAll(pending, reports, kind) ==>
              id in pending && AckAll(pending, reports, kind)[id] == pending[id]
    ensures forall id :: id in pending && id !in AckAll(pending, reports, kind) ==>
              exists k :: 0 <= k < |reports| && Carries(Part(reports[k], kind), id, pending[id].sequence)
    decreases |reports|
  {
    if reports != [] {
      var p1 := AckPending(pending, Part(reports[0], kind));
      AckAllShrinks(p1, reports[1..], kind);
      forall id | id in pending && id !in AckAll(pending, reports, kind)
        ensures exists k :: 0 <= k < |reports| && Carries(Part(reports[k], kind), id, pending[id].sequence)
      {
        if id in p1 {
          var k :| 0 <= k < |reports[1..]| && Carries(Part(reports[1..][k], kind), id, p1[id].sequence);
          assert Carries(Part(reports[k + 1], kind), id, pending[id].sequence);
        } else {
          assert Carries(Part(reports[0], kind), id, pending[id].sequence);
        }
      }
    }
  }

  lemma {:induction false} AckSameLeases(pending: map<int, Queued>, a: seq<Report>, b: seq<Report>, kind: Kind)
    requires |a| == |b|
    requires forall k :: 0 <= k < |a| ==> Part(a[k], kind).leases == Part(b[k], kind).leases
    ensures AckAll(pending, a, kind) == AckAll(pending, b, kind)
    decreases |a|
  {
    if a != [] {
      assert Part(a[0], kind).leases == Part(b[0], kind).leases;
      assert AckPending(pending, Part(a[0], kind)) == AckPending(pending, Part(b[0], kind));
      AckSameLeases(AckPending(pending, Part(a[0], kind)), a[1..], b[1..], kind);
    }
  }

  lemma AcknowledgeKeeps(s: State, reports: seq<Report>, b: seq<Report>)
    requires LanesOk(s, reports + b)
    ensures LanesOk(Acknowledge(s, reports), b)
  {
    var s' := Acknowledge(s, reports);
    AckAllKeeps(s.ping.pending, reports, b, PingKind, s.nextResultID);
    AckAllShrinks(s.ping.pending, reports, PingKind);
    ShrinkKeepsQueue(s.ping, s.nextResultID, s'.ping.pending);
    AckAllKeeps(s.website.pending, reports, b, WebsiteKind, s.nextResultID);
    AckAllShrinks(s.website.pending, reports, WebsiteKind);
    ShrinkKeepsQueue(s.website, s.nextResultID, s'.website.pending);
  }

  // -------------------------------------------- shrinking the pending numbers

  ghost predicate Shrunk(s: State, s': State) {
    && s'.nextResultID == s.nextResultID && s'.nextToken == s.nextToken && s'.activeProbes == s.activeProbes
    && forall kind :: LaneOf(s', kind).running == LaneOf(s, kind).running
                      && SubMap(LaneOf(s', kind).pending, LaneOf(s, kind).pending)
  }

  ghost predicate SubMap(small: map<int, Queued>, big: map<int, Queued>) {
    forall id :: id in small ==> id in big && small[id] == big[id]
  }

  lemma ShrunkLedger(s: State, s': State, gone: set<nat>, other: set<nat>)
    requires Shrunk(s, s') && LedgerOk(s, gone, other)
    ensures LedgerOk(s', gone + (PendingNumbers(s) - PendingNumbers(s')), other)
  {
    assert SubMap(LaneOf(s', PingKind).pending, LaneOf(s, PingKind).pending);
    assert SubMap(LaneOf(s', WebsiteKind).pending, LaneOf(s, WebsiteKind).pending);
    assert Sequences(s'.ping) <= Sequences(s.ping);
    assert Sequences(s'.website) <= Sequences(s.website);
    var gone' := gone + (PendingNumbers(s) - PendingNumbers(s'));
    assert PendingNumbers(s') + gone' + other == PendingNumbers(s) + gone + other;
  }

  lemma LedgerSwap(s: State, acked: set<nat>, dropped: set<nat>)
    requires LedgerOk(s, acked, dropped)
    ensures LedgerOk(s, dropped, acked)
  {
    assert PendingNumbers(s) + dropped + acked == PendingNumbers(s) + acked + dropped;
  }

  lemma AcknowledgeShrinks(s: State, reports: seq<Report>)
    ensures Shrunk(s, Acknowledge(s, reports))
  {
    AckAllShrinks(s.ping.pending, reports, PingKind);
    AckAllShrinks(s.website.pending, reports, WebsiteKind);
  }

  lemma AcknowledgeKeepsRest(s: State, reports: seq<Report>, workers: set<Worker>, origin: map<nat, Definition>)
    requires RunsOk(s, workers) && FidelityOk(s, workers, origin)
    ensures RunsOk(Acknowledge(s, reports), workers) && FidelityOk(Acknowledge(s, reports), workers, origin)
  {
    var s' := Acknowledge(s, reports);
    AcknowledgeShrinks(s, reports);
    forall x | x in workers
      ensures RunningAs(s', x)
    {
      assert RunningAs(s, x);
    }
    forall kind, id | id in LaneOf(s', kind).pending
      ensures ResultBacked(LaneOf(s', kind), origin, id)
    {
      assert SubMap(LaneOf(s', kind).pending, LaneOf(s, kind).pending);
      assert ResultBacked(LaneOf(s, kind), origin, id);
    }
  }

  lemma PolicyKeepsLanes(s: State, held: seq<Report>, policy: Policy)
    requires LanesOk(s, held)
    ensures LanesOk(ApplyPolicy(s, policy), held) && Shrunk(s, ApplyPolicy(s, policy))
  {
    var interval := PolicyInterval(s, policy);
    ApplyTasksKeeps(s.ping, held, PingKind, s.nextResultID, WithInterval(policy.pings, interval));
    ApplyTasksKeeps(s.website, held, WebsiteKind, s.nextResultID, WithInterval(policy.websites, interval));
  }

  // ------------------------------------------------------------- single steps

  lemma BatchKeptByLaunch(s: State, s': State, batch: seq<Report>, pending: seq<Report>)
    requires BatchOk(s, batch, pending) && SameQueues(s, s')
    ensures BatchOk(s', batch, pending)
  {
    assert LaneOf(s', PingKind).pending == LaneOf(s, PingKind).pending;
    assert LaneOf(s', WebsiteKind).pending == LaneOf(s, WebsiteKind).pending;
    forall k | 0 <= k < |batch|
      ensures CopyOk(s', batch[k], pending[k])
    {
      assert CopyOk(s, batch[k], pending[k]);
    }
  }

  lemma LaterNumberKeepsSlip(s: Slip, pending: map<int, Queued>, next: nat)
    requires SlipFits(s, pending, next)
    ensures SlipFits(s, pending, next + 1)
  {
  }

  lemma CopyKeptByQueueing(s: State, copy: Report, original: Report, kind: Kind, id: int, outcome: Outcome)
    requires CopyOk(s, copy, original) && id !in LaneOf(s, kind).pending
    ensures CopyOk(QueueFrom(s, kind, id, outcome), copy, original)
  {
    var s' := QueueFrom(s, kind, id, outcome);
    match kind
    case PingKind =>
      QueueKeepsSlip(copy.ping, s.ping.pending, s.nextResultID, Result(id, outcome));
      LaterNumberKeepsSlip(copy.website, s.website.pending, s.nextResultID);
      assert s'.website == s.website;
    case WebsiteKind =>
      QueueKeepsSlip(copy.website, s.website.pending, s.nextResultID, Result(id, outcome));
      LaterNumberKeepsSlip(copy.ping, s.ping.pending, s.nextResultID);
      assert s'.ping == s.ping;
  }

  lemma BatchKeptByQueueing(s: State, batch: seq<Report>, pending: seq<Report>, kind: Kind, id: int, outcome: Outcome)
    requires BatchOk(s, batch, pending) && id !in LaneOf(s, kind).pending
    ensures BatchOk(QueueFrom(s, kind, id, outcome), batch, pending)
  {
    forall k | 0 <= k < |batch|
      ensures CopyOk(QueueFrom(s, kind, id, outcome), batch[k], pending[k])
    {
      CopyKeptByQueueing(s, batch[k], pending[k], kind, id, outcome);
    }
  }

  lemma LaunchStep(w: World, now: nat)
    requires Inv(w)
    ensures Inv(Next(w, LaunchDueProbes(now)))
  {
    var w' := Next(w, LaunchDueProbes(now));
    assert w'.s == LaunchDue(w.s, now).0 && w'.workers == w.workers + Spawned(w.s, now);
    LaunchDueKeepsRuns(w.s, w.workers, now);
    LaunchDueKeepsFidelity(w.s, w.workers, w.origin, now);
    LaunchDueKeepsLanes(w.s, HeldReports(w), now);
    assert HeldReports(w') == HeldReports(w);
    SameQueuesKeepLedger(w.s, w'.s, w.acked, w.dropped);
    if w.phase.Sent? {
      BatchKeptByLaunch(w.s, w'.s, w.phase.batch, w.pending);
    }
  }

  lemma SameQueuesKeepLedger(s: State, s': State, acked: set<nat>, dropped: set<nat>)
    requires SameQueues(s, s') && LedgerOk(s, acked, dropped)
    ensures LedgerOk(s', acked, dropped)
  {
    assert LaneOf(s', PingKind).pending == LaneOf(s, PingKind).pending;
    assert LaneOf(s', WebsiteKind).pending == LaneOf(s, WebsiteKind).pending;
    assert Sequences(s'.ping) == Sequences(s.ping) && Sequences(s'.website) == Sequences(s.website);
  }

  lemma QueueFromKeepsLedger(s: State, kind: Kind, id: int, outcome: Outcome, acked: set<nat>, dropped: set<nat>)
    requires LedgerOk(s, acked, dropped) && id !in LaneOf(s, kind).pending
    ensures LedgerOk(QueueFrom(s, kind, id, outcome), acked, dropped)
  {
    var s' := QueueFrom(s, kind, id, outcome);
    var n := s.nextResultID + 1;
    assert !Issued(n, s.nextResultID);
    QueueAddsNumber(LaneOf(s, kind), Result(id, outcome), n);
    assert Sequences(LaneOf(s', kind)) == Sequences(LaneOf(s, kind)) + {n};
    assert PendingNumbers(s') == PendingNumbers(s) + {n};
    forall m: nat
      ensures Issued(m, s'.nextResultID) <==> m in PendingNumbers(s') + acked + dropped
    {
      assert Issued(m, s.nextResultID) <==> m in PendingNumbers(s) + acked + dropped;
    }
  }

  lemma QueueAddsNumber(l: Lane, r: Result, n: nat)
    requires r.id !in l.pending
    ensures Sequences(QueueResult(l.(running := Without(l.running, {r.id})), r, n)) == Sequences(l) + {n}
  {
    var l' := QueueResult(l.(running := Without(l.running, {r.id})), r, n);
    forall m | m in Sequences(l) + {n}
      ensures m in Sequences(l')
    {
      if m in Sequences(l) {
        var id :| id in l.pending && l.pending[id].sequence == m;
        assert id in l'.pending && l'.pending[id].sequence == m;
      } else {
        assert r.id in l'.pending && l'.pending[r.id].sequence == m;
      }
    }
  }

  // A finishing run, from what it leaves in the shared state.
  lemma FinishedStep(w: World, w': World)
    requires Inv(w)
    requires HeldReports(w') == HeldReports(w) && PhaseOk(w') && w'.phase == w.phase && w'.pending == w.pending
    requires w'.phase.Sent? ==> BatchOk(w'.s, w.phase.batch, w.pending)
    requires LanesOk(w'.s, HeldReports(w)) && RunsOk(w'.s, w'.workers) && FidelityOk(w'.s, w'.workers, w'.origin)
    requires LedgerOk(w'.s, w.acked, w.dropped) && w'.acked == w.acked && w'.dropped == w.dropped
    ensures Inv(w')
  {
  }

  lemma FinishKeepsLedger(s: State, workers: set<Worker>, held: seq<Report>, worker: Worker, outcome: Outcome,
                          acked: set<nat>, dropped: set<nat>)
    requires RunsOk(s, workers) && worker in workers && LanesOk(s, held)
    requires LedgerOk(s, acked, dropped)
    ensures LedgerOk(Finish(s, worker, outcome), acked, dropped)
  {
    RunningIsNotPending(s, workers, held, worker);
    FinishEffect(s, workers, worker, outcome);
    var s' := Finish(s, worker, outcome);
    if Interrupted(s, worker.token) {
      assert SameQueues(s, s');
      SameQueuesKeepLedger(s, s', acked, dropped);
    } else {
      assert s' == QueueFrom(s, worker.kind, worker.task.id, outcome);
      QueueFromKeepsLedger(s, worker.kind, worker.task.id, outcome, acked, dropped);
    }
  }

  lemma FinishKeepsBatch(s: State, workers: set<Worker>, held: seq<Report>, worker: Worker, outcome: Outcome,
                         batch: seq<Report>, pending: seq<Report>)
    requires RunsOk(s, workers) && worker in workers && LanesOk(s, held)
    requires BatchOk(s, batch, pending)
    ensures BatchOk(Finish(s, worker, outcome), batch, pending)
  {
    RunningIsNotPending(s, workers, held, worker);
    FinishEffect(s, workers, worker, outcome);
    var s' := Finish(s, worker, outcome);
    if Interrupted(s, worker.token) {
      assert SameQueues(s, s');
      BatchKeptByLaunch(s, s', batch, pending);
    } else {
      assert s' == QueueFrom(s, worker.kind, worker.task.id, outcome);
      BatchKeptByQueueing(s, batch, pending, worker.kind, worker.task.id, outcome);
    }
  }

  lemma FinishKeepsRetryQueue(s: State, worker: Worker, outcome: Outcome)
    ensures Finish(s, worker, outcome).retryQueue == s.retryQueue
  {
  }

  lemma FinishStep(w: World, worker: Worker, outcome: Outcome)
    requires Inv(w) && Enabled(w, FinishProbe(worker, outcome))
    ensures Inv(Next(w, FinishProbe(worker, outcome)))
  {
    var w' := Next(w, FinishProbe(worker, outcome));
    FinishKeepsRuns(w.s, w.workers, worker, outcome);
    FinishKeepsFidelity(w.s, w.workers, w.origin, HeldReports(w), worker, outcome);
    FinishKeepsLanes(w.s, w.workers, HeldReports(w), worker, outcome);
    FinishKeepsLedger(w.s, w.workers, HeldReports(w), worker, outcome, w.acked, w.dropped);
    if w.phase.Sent? {
      FinishKeepsBatch(w.s, w.workers, HeldReports(w), worker, outcome, w.phase.batch, w.pending);
    }
    FinishKeepsRetryQueue(w.s, worker, outcome);
    FinishedStep(w, w');
  }

  // Leasing appends reports to what the reporter holds.
  lemma LeasingStep(w: World, w': World, reports: seq<Report>)
    requires Inv(w) && SameButLeased(w.s, w'.s)
    requires w'.workers == w.workers && w'.origin == w.origin && w'.acked == w.acked && w'.dropped == w.dropped
    requires HeldReports(w') == HeldReports(w) + reports && LanesOk(w'.s, HeldReports(w) + reports) && AllSized(reports)
    requires PhaseOk(w') && !w'.phase.Sent?
    ensures Inv(w')
  {
    OnlyLeasedKeeps(w.s, w'.s, w.workers, w.origin, w.acked, w.dropped);
  }

  lemma LeaseFirstStep(w: World, sample: nat)
    requires Inv(w) && Enabled(w, LeaseFirst(sample))
    ensures Inv(Next(w, LeaseFirst(sample)))
  {
    hide LaneOk, RunsOk, FidelityOk, LedgerOk, ReportSized;
    var w' := Next(w, LeaseFirst(sample));
    var r := LeaseReport(w.s, sample).1;
    LeaseReportKeeps(w.s, HeldReports(w), sample);
    LeaseReportOnlyLeases(w.s, sample);
    assert HeldReports(w') == HeldReports(w) + [r];
    LeasingStep(w, w', [r]);
  }

  lemma LeasedRestStep(w: World, s': State, rest: seq<Report>)
    requires Inv(w) && w.phase.Opened? && SameButLeased(w.s, s')
    requires LanesOk(s', HeldReports(w) + rest) && AllSized(rest)
    ensures Inv(w.(s := s', pending := w.pending + rest, phase := Ready))
  {
    var w' := w.(s := s', pending := w.pending + rest, phase := Ready);
    assert HeldReports(w') == HeldReports(w) + rest;
    LeasingStep(w, w', rest);
  }

  lemma LeaseRemainingStep(w: World)
    requires Inv(w) && Enabled(w, LeaseRemaining)
    ensures Inv(Next(w, LeaseRemaining))
  {
    LeaseRestKeeps(w.s, HeldReports(w), w.phase.sample);
    LeaseRestOnlyLeases(w.s, w.phase.sample);
    LeasedRestStep(w, LeaseRest(w.s, w.phase.sample).0, LeaseRest(w.s, w.phase.sample).1);
  }

  // Steps that touch nothing of the shared state but the retry queue.
  ghost predicate OnlyRetry(s: State, s': State) {
    s' == s.(retryQueue := s'.retryQueue)
  }

  lemma OnlyRetryKeeps(s: State, s': State, held: seq<Report>, workers: set<Worker>, origin: map<nat, Definition>,
                       acked: set<nat>, dropped: set<nat>)
    requires OnlyRetry(s, s')
    requires LanesOk(s, held) && RunsOk(s, workers) && FidelityOk(s, workers, origin) && LedgerOk(s, acked, dropped)
    ensures LanesOk(s', held) && RunsOk(s', workers) && FidelityOk(s', workers, origin) && LedgerOk(s', acked, dropped)
  {
    assert s'.ping == s.ping && s'.website == s.website;
    forall x | x in workers
      ensures RunningAs(s', x)
    {
      assert RunningAs(s, x);
    }
    forall kind, id | id in LaneOf(s', kind).pending
      ensures ResultBacked(LaneOf(s', kind), origin, id)
    {
      assert ResultBacked(LaneOf(s, kind), origin, id);
    }
  }

  lemma ReportMoveStep(w: World, w': World)
    requires Inv(w)
    requires OnlyRetry(w.s, w'.s) && w'.workers == w.workers && w'.origin == w.origin
    requires w'.acked == w.acked && w'.dropped == w.dropped
    requires LanesOk(w.s, HeldReports(w')) && AllSized(HeldReports(w')) && PhaseOk(w') && !w'.phase.Sent?
    ensures Inv(w')
  {
    OnlyRetryKeeps(w.s, w'.s, HeldReports(w'), w.workers, w.origin, w.acked, w.dropped);
  }

  lemma TakeRetryStep(w: World)
    requires Inv(w) && Enabled(w, TakeRetryReports)
    ensures Inv(Next(w, TakeRetryReports))
  {
    hide LaneOk, RunsOk, FidelityOk, LedgerOk, ReportSized;
    var w' := Next(w, TakeRetryReports);
    var queue := w.s.retryQueue;
    assert [] + queue + (w.inFlight + w.pending) == HeldReports(w);
    KeepCurrentKeeps(w.s, [], queue, w.inFlight + w.pending);
    assert AllSized(queue) by {
      assert forall k :: 0 <= k < |queue| ==> queue[k] == HeldReports(w)[k];
    }
    KeepCurrentSized(w.s, queue);
    if queue == [] {
      assert HeldReports(w') == HeldReports(w);
    } else {
      assert HeldReports(w') == [] + KeepCurrent(w.s, queue) + (w.inFlight + w.pending);
    }
    ReportMoveStep(w, w');
  }

  lemma FlushStep(w: World)
    requires Inv(w) && Enabled(w, Flush)
    ensures Inv(Next(w, Flush))
  {
    if w.uploadReady && |w.inFlight| == 0 && |w.pending| > 0 {
      var w' := Next(w, Flush);
      var count := Envelope(w.pending);
      var batch, rest := w.pending[..count], w.pending[count..];
      assert HeldReports(w) == w.s.retryQueue + batch + rest;
      CurrentKeeps(w.s, w.s.retryQueue, batch, rest);
      assert HeldReports(w') == w.s.retryQueue + CurrentReports(w.s, batch) + rest;
      SizedParts(w.s.retryQueue, batch, rest);
      CurrentReportsSized(w.s, batch);
      SizedParts(w.s.retryQueue, CurrentReports(w.s, batch), rest);
      ReportMoveStep(w, w');
    }
  }

  lemma SizedParts(a: seq<Report>, b: seq<Report>, c: seq<Report>)
    ensures AllSized(a + b + c) <==> AllSized(a) && AllSized(b) && AllSized(c)
  {
    if AllSized(a + b + c) {
      assert forall k :: 0 <= k < |a| ==> a[k] == (a + b + c)[k];
      assert forall k :: 0 <= k < |b| ==> b[k] == (a + b + c)[|a| + k];
      assert forall k :: 0 <= k < |c| ==> c[k] == (a + b + c)[|a| + |b| + k];
    }
  }

  lemma EndInFlightStep(w: World)
    requires Inv(w) && Enabled(w, EndInFlight)
    ensures Inv(Next(w, EndInFlight))
  {
    hide LaneOk, RunsOk, FidelityOk, LedgerOk, ReportSized;
    var w' := Next(w, EndInFlight);
    KeepCurrentKeeps(w.s, w.s.retryQueue, w.inFlight, w.pending);
    SizedParts(w.s.retryQueue, w.inFlight, w.pending);
    KeepCurrentSized(w.s, w.inFlight);
    SizedParts(w.s.retryQueue, KeepCurrent(w.s, w.inFlight), w.pending);
    assert HeldReports(w') == w.s.retryQueue + KeepCurrent(w.s, w.inFlight) + w.pending;
    ReportMoveStep(w, w');
  }

  // Returning `pending` to the retry queue: the end of a session, or a
  // rejected HTTP request.
  lemma ReturnPendingStep(w: World, w': World)
    requires Inv(w) && w.inFlight == []
    requires w' == w.(s := RetryReports(w.s, w.pending), pending := [], phase := Ready)
    requires !w.connected
    ensures Inv(w')
  {
    assert w.s.retryQueue + w.pending + [] == HeldReports(w);
    KeepCurrentKeeps(w.s, w.s.retryQueue, w.pending, []);
    SizedParts(w.s.retryQueue, w.inFlight, w.pending);
    KeepCurrentSized(w.s, w.pending);
    SizedParts(w.s.retryQueue, KeepCurrent(w.s, w.pending), []);
    assert HeldReports(w') == w.s.retryQueue + KeepCurrent(w.s, w.pending) + [];
    ReportMoveStep(w, w');
  }

  lemma CopyFits(s: State, held: seq<Report>, k: nat)
    requires LanesOk(s, held) && k < |held|
    ensures CopyOk(s, CurrentReport(s, held[k]), held[k])
  {
    CurrentSlipFits(Part(held[k], PingKind), s.ping.pending, s.nextResultID);
    CurrentSlipFits(Part(held[k], WebsiteKind), s.website.pending, s.nextResultID);
  }

  lemma HttpSendStep(w: World)
    requires Inv(w) && Enabled(w, HttpSend)
    ensures Inv(Next(w, HttpSend))
  {
    var w' := Next(w, HttpSend);
    var count := Envelope(w.pending);
    var batch := CurrentReports(w.s, w.pending[..count]);
    forall k | 0 <= k < |batch|
      ensures CopyOk(w.s, batch[k], w.pending[k])
    {
      var held := HeldReports(w);
      assert held[|w.s.retryQueue + w.inFlight| + k] == w.pending[k];
      CopyFits(w.s, held, |w.s.retryQueue + w.inFlight| + k);
    }
    assert HeldReports(w') == HeldReports(w);
  }

  // An acknowledgement of the oldest held reports.
  lemma AckStep(w: World, w': World, reports: seq<Report>)
    requires Inv(w)
    requires w'.s == Acknowledge(w.s, reports)
    requires HeldReports(w) == reports + HeldReports(w')
    requires w'.workers == w.workers && w'.origin == w.origin && w'.dropped == w.dropped
    requires w'.acked == w.acked + (PendingNumbers(w.s) - PendingNumbers(w'.s))
    requires PhaseOk(w') && !w'.phase.Sent?
    ensures Inv(w')
  {
    hide LaneOk, RunsOk, FidelityOk, LedgerOk, ReportSized;
    AcknowledgeKeeps(w.s, reports, HeldReports(w'));
    AcknowledgeShrinks(w.s, reports);
    AcknowledgeKeepsRest(w.s, reports, w.workers, w.origin);
    ShrunkLedger(w.s, w'.s, w.acked, w.dropped);
    assert reports + [] + HeldReports(w') == HeldReports(w);
    SizedParts(reports, [], HeldReports(w'));
  }

  lemma BatchAcksSame(s: State, batch: seq<Report>, pending: seq<Report>)
    requires BatchOk(s, batch, pending)
    ensures Acknowledge(s, batch) == Acknowledge(s, pending[..|batch|])
  {
    forall k | 0 <= k < |batch|
      ensures Part(batch[k], PingKind).leases == Part(pending[k], PingKind).leases
      ensures Part(batch[k], WebsiteKind).leases == Part(pending[k], WebsiteKind).leases
    {
      assert CopyOk(s, batch[k], pending[k]);
    }
    AckSameLeases(s.ping.pending, batch, pending[..|batch|], PingKind);
    AckSameLeases(s.website.pending, batch, pending[..|batch|], WebsiteKind);
  }

  lemma HttpAcceptedStep(w: World)
    requires Inv(w) && Enabled(w, HttpAccepted)
    ensures Inv(Next(w, HttpAccepted))
  {
    hide LaneOk, RunsOk, FidelityOk, LedgerOk, ReportSized;
    var w' := Next(w, HttpAccepted);
    var count := Envelope(w.pending);
    BatchAcksSame(w.s, w.phase.batch, w.pending);
    assert HeldReports(w) == w.pending[..count] + HeldReports(w');
    AckStep(w, w', w.pending[..count]);
  }

  lemma PolicyStep(w: World, policy: Policy)
    requires Inv(w) && Enabled(w, NewPolicy(policy))
    ensures Inv(Next(w, NewPolicy(policy)))
  {
    var w' := Next(w, NewPolicy(policy));
    PolicyKeepsLanes(w.s, HeldReports(w), policy);
    PolicyKeepsRuns(w.s, w.workers, policy);
    PolicyKeepsFidelity(w.s, w.workers, w.origin, policy);
    LedgerSwap(w.s, w.acked, w.dropped);
    ShrunkLedger(w.s, w'.s, w.dropped, w.acked);
    LedgerSwap(w'.s, w'.dropped, w'.acked);
    assert HeldReports(w') == HeldReports(w);
  }

  lemma QuietStep(w: World, w': World)
    requires Inv(w)
    requires w'.s == w.s || w'.s == w.s.(closing := true)
    requires w'.workers == w.workers && w'.origin == w.origin && w'.acked == w.acked && w'.dropped == w.dropped
    requires w'.pending == w.pending && w'.inFlight == w.inFlight && w'.phase == w.phase && PhaseOk(w')
    ensures Inv(w')
  {
    assert HeldReports(w') == HeldReports(w);
    assert SameQueues(w.s, w'.s);
    SameQueuesKeepLedger(w.s, w'.s, w.acked, w.dropped);
    forall x | x in w.workers
      ensures RunningAs(w'.s, x)
    {
      assert RunningAs(w.s, x);
    }
    forall kind, id | id in LaneOf(w'.s, kind).pending
      ensures ResultBacked(LaneOf(w'.s, kind), w.origin, id)
    {
      assert ResultBacked(LaneOf(w.s, kind), w.origin, id);
    }
    if w.phase.Sent? {
      BatchKeptByLaunch(w.s, w'.s, w.phase.batch, w.pending);
    }
  }

  lemma StepKeeps(w: World, step: Step)
    requires Inv(w) && Enabled(w, step)
    ensures Inv(Next(w, step))
  {
    hide LanesOk, RunsOk, FidelityOk, LedgerOk, BatchOk, AllSized, LaunchDue, Finish, ApplyPolicy, LeaseReport, LeaseRest, RetryReports;
    match step
    case LaunchDueProbes(now) => LaunchStep(w, now);
    case FinishProbe(worker, outcome) => FinishStep(w, worker, outcome);
    case Close => QuietStep(w, Next(w, step));
    case Connect => QuietStep(w, Next(w, step));
    case TakeRetryReports => TakeRetryStep(w);
    case LeaseFirst(sample) => LeaseFirstStep(w, sample);
    case LeaseRemaining => LeaseRemainingStep(w);
    case SampleTick => QuietStep(w, Next(w, step));
    case UploadTick => QuietStep(w, Next(w, step));
    case Flush => FlushStep(w);
    case Ack =>
      if |w.inFlight| > 0 {
        var w' := Next(w, step);
        assert HeldReports(w) == w.inFlight + HeldReports(w');
        AckStep(w, w', w.inFlight);
      }
    case NewPolicy(policy) => PolicyStep(w, policy);
    case EndInFlight => EndInFlightStep(w);
    case EndPending => ReturnPendingStep(w, Next(w, step));
    case HttpSend => HttpSendStep(w);
    case HttpAccepted => HttpAcceptedStep(w);
    case HttpRejected => ReturnPendingStep(w, Next(w, step));
  }

  lemma InitialOk(http: bool)
    ensures Inv(Initial(http))
  {
  }

  lemma {:induction false} RunKeeps(w: World, steps: seq<Step>)
    requires Inv(w) && Legal(w, steps)
    ensures Inv(Run(w, steps))
    decreases |steps|
  {
    if steps != [] {
      StepKeeps(w, steps[0]);
      RunKeeps(Next(w, steps[0]), steps[1..]);
    }
  }

  lemma ReachableOk(w: World)
    requires Reachable(w)
    ensures Inv(w)
  {
    var http, steps :| Legal(Initial(http), steps) && Run(Initial(http), steps) == w;
    InitialOk(http);
    RunKeeps(Initial(http), steps);
  }
}
