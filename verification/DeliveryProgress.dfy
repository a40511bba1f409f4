// What is sent is current, splitting is exact, a reconnect retries exactly
// what was held, and everything pending can be delivered.
module DeliveryProgress {
  import opened Probes
  import opened Lanes
  import opened LaneLemmas
  import opened Delivery
  import opened Reporter
  import opened DeliveryProofs

  // --------------------------------------------------------- what is sent

  ghost predicate AllCurrent(s: Slip, pending: map<int, Queued>) {
    forall r :: r in s.results ==>
      r.id in pending && pending[r.id].result == r && pending[r.id].leased && Carries(s, r.id, pending[r.id].sequence)
  }

  lemma FilteredIsCurrent(s: Slip, pending: map<int, Queued>, next: nat)
    requires SlipFits(s, pending, next)
    requires forall id :: id in pending ==> pending[id].result.id == id
    ensures AllCurrent(CurrentSlip(s, pending), pending)
  {
    forall r | r in CurrentSlip(s, pending).results
      ensures r.id in pending && pending[r.id].result == r && pending[r.id].leased && Carries(s, r.id, pending[r.id].sequence)
    {
      assert r in s.results;
      var i :| 0 <= i < |s.results| && s.results[i] == r;
      assert r.id in s.leases && IsCurrent(r, s.leases, pending);
      assert pending[r.id].result in s.results;
      var j :| 0 <= j < |s.results| && s.results[j] == pending[r.id].result;
      assert s.results[i].id == s.results[j].id;
    }
  }

  // Every result of a batch at the moment it is sent is the pending result of
  // its task, under its current number.
  lemma SentIsCurrent(w: World, step: Step, k: nat)
    requires Reachable(w) && Enabled(w, step)
    requires (step == Flush && w.inFlight == []) || step == HttpSend
    requires k < |if step == Flush then Next(w, step).inFlight else Next(w, step).phase.batch|
    ensures var r := if step == Flush then Next(w, step).inFlight[k] else Next(w, step).phase.batch[k];
            AllCurrent(r.ping, w.s.ping.pending) && AllCurrent(r.website, w.s.website.pending)
            && r.sample == w.pending[k].sample
  {
    hide RunsOk, FidelityOk, LedgerOk, AllSized, BatchOk, PhaseOk, Reachable;
    ReachableOk(w);
    var held := HeldReports(w);
    var at := |w.s.retryQueue + w.inFlight| + k;
    assert held[at] == w.pending[k];
    SlipAt(w.s, held, at);
    FilteredIsCurrent(w.pending[k].ping, w.s.ping.pending, w.s.nextResultID);
    FilteredIsCurrent(w.pending[k].website, w.s.website.pending, w.s.nextResultID);
  }

  lemma SlipAt(s: State, held: seq<Report>, k: nat)
    requires LanesOk(s, held) && k < |held|
    ensures SlipFits(held[k].ping, s.ping.pending, s.nextResultID) && SlipFits(held[k].website, s.website.pending, s.nextResultID)
    ensures forall kind, id :: id in LaneOf(s, kind).pending ==> LaneOf(s, kind).pending[id].result.id == id
  {
    assert held[k].ping == Part(held[k], PingKind) && held[k].website == Part(held[k], WebsiteKind);
  }

  // ------------------------------------------------------------- splitting

  function Minus(ids: seq<int>, gone: seq<int>): seq<int> {
    if ids == [] then [] else (if ids[0] in gone then [] else [ids[0]]) + Minus(ids[1..], gone)
  }

  lemma {:induction false} UnleasedAfterMarking(order: seq<int>, pending: map<int, Queued>, ids: seq<int>)
    ensures Unleased(order, MarkLeased(pending, ids)) == Minus(Unleased(order, pending), ids)
  {
    if order != [] {
      UnleasedAfterMarking(order[1..], pending, ids);
      var marked := MarkLeased(pending, ids);
      var rest := Unleased(order[1..], pending);
      var unleased := order[0] in pending && !pending[order[0]].leased;
      assert order[0] in marked && !marked[order[0]].leased <==> unleased && order[0] !in ids;
      if unleased {
        assert Unleased(order, pending)[1..] == rest;
      } else {
        assert Unleased(order, pending) == rest;
        assert Unleased(order, marked) == Unleased(order[1..], marked);
      }
    }
  }

  lemma {:induction false} MinusNone(ids: seq<int>, gone: seq<int>)
    requires forall i :: 0 <= i < |ids| ==> ids[i] !in gone
    ensures Minus(ids, gone) == ids
  {
    if ids != [] {
      assert ids[0] !in gone;
      MinusNone(ids[1..], gone);
    }
  }

  lemma {:induction false} MinusPrefix(ids: seq<int>, gone: seq<int>, n: nat)
    requires n <= |ids|
    requires forall i :: 0 <= i < n ==> ids[i] in gone
    requires forall i :: n <= i < |ids| ==> ids[i] !in gone
    ensures Minus(ids, gone) == ids[n..]
    decreases n
  {
    if n == 0 {
      MinusNone(ids, gone);
    } else {
      MinusPrefix(ids[1..], gone, n - 1);
    }
  }

  // One report takes the oldest unleased results and leaves the rest.
  lemma LeaseSplits(l: Lane, limit: nat)
    requires Ascending(l.order, l.pending)
    ensures var (l', s) := Lease(l, limit);
            var all := Unleased(l.order, l.pending);
            && |s.results| == (if limit < |all| then limit else |all|)
            && (forall i :: 0 <= i < |s.results| ==> s.results[i] == l.pending[all[i]].result)
            && Unleased(l'.order, l'.pending) == all[|s.results|..]
            && Ascending(l'.order, l'.pending)
  {
    hide Unleased;
    var all, ids := Unleased(l.order, l.pending), LeaseIds(l, limit);
    UnleasedAscending(l.order, l.pending);
    UnleasedAfterMarking(l.order, l.pending, ids);
    forall i | |ids| <= i < |all|
      ensures all[i] !in ids
    {
      forall j | 0 <= j < |ids|
        ensures ids[j] != all[i]
      {
        assert l.pending[all[j]].sequence < l.pending[all[i]].sequence;
      }
    }
    forall i | 0 <= i < |ids|
      ensures all[i] in ids
    {
      assert ids[i] == all[i];
    }
    MinusPrefix(all, ids, |ids|);
  }

  function Results(reports: seq<Report>, kind: Kind): seq<Result> {
    if reports == [] then [] else Part(reports[0], kind).results + Results(reports[1..], kind)
  }

  function UnleasedResults(l: Lane): seq<Result> {
    var ids := Unleased(l.order, l.pending);
    seq(|ids|, i requires 0 <= i < |ids| => (assert ids[i] in ids; l.pending[ids[i]].result))
  }

  ghost predicate Ordered(s: State) {
    Ascending(s.ping.order, s.ping.pending) && Ascending(s.website.order, s.website.pending)
  }

  lemma UnleasedResultsAre(l: Lane, all: seq<int>)
    requires all == Unleased(l.order, l.pending)
    ensures |UnleasedResults(l)| == |all|
    ensures forall i :: 0 <= i < |all| ==> all[i] in l.pending && UnleasedResults(l)[i] == l.pending[all[i]].result
  {
    assert forall i :: 0 <= i < |all| ==> all[i] in all;
  }

  lemma MarkingKeepsResult(pending: map<int, Queued>, ids: seq<int>, id: int)
    requires id in pending
    ensures id in MarkLeased(pending, ids) && MarkLeased(pending, ids)[id].result == pending[id].result
  {
  }

  lemma SplitResults(l: Lane, l': Lane, ids: seq<int>, taken: seq<Result>)
    requires l'.pending == MarkLeased(l.pending, ids)
    requires |taken| <= |Unleased(l.order, l.pending)|
    requires Unleased(l'.order, l'.pending) == Unleased(l.order, l.pending)[|taken|..]
    requires forall i :: 0 <= i < |taken| ==> Unleased(l.order, l.pending)[i] in l.pending
    requires forall i :: 0 <= i < |taken| ==> taken[i] == l.pending[Unleased(l.order, l.pending)[i]].result
    ensures UnleasedResults(l) == taken + UnleasedResults(l')
  {
    var n := |taken|;
    var all, rest := Unleased(l.order, l.pending), Unleased(l'.order, l'.pending);
    UnleasedResultsAre(l, all);
    UnleasedResultsAre(l', rest);
    forall i | n <= i < |all|
      ensures UnleasedResults(l)[i] == UnleasedResults(l')[i - n]
    {
      assert rest[i - n] == all[i];
      MarkingKeepsResult(l.pending, ids, all[i]);
    }
  }

  lemma LaneSplits(l: Lane, limit: nat)
    requires Ascending(l.order, l.pending) && limit > 0
    ensures Ascending(Lease(l, limit).0.order, Lease(l, limit).0.pending)
    ensures UnleasedResults(l) == Lease(l, limit).1.results + UnleasedResults(Lease(l, limit).0)
    ensures Lease(l, limit).1.results == [] ==> UnleasedResults(l) == []
  {
    LeaseSplits(l, limit);
    SplitResults(l, Lease(l, limit).0, LeaseIds(l, limit), Lease(l, limit).1.results);
  }

  lemma LeaseReportSplits(s: State, sample: nat, kind: Kind)
    requires Ordered(s)
    ensures var (s1, r) := LeaseReport(s, sample);
            && Ordered(s1)
            && UnleasedResults(LaneOf(s, kind)) == Part(r, kind).results + UnleasedResults(LaneOf(s1, kind))
            && (Part(r, kind).results == [] ==> UnleasedResults(LaneOf(s, kind)) == [])
  {
    LaneSplits(s.ping, MAX_PING_RESULTS_PER_REPORT);
    LaneSplits(s.website, MAX_WEBSITE_RESULTS_PER_REPORT);
  }

  // The split-off reports together carry exactly the unleased results, oldest
  // first, each report within its limits, and leave nothing unleased.
  lemma {:induction false} SplittingIsExact(s: State, sample: nat, kind: Kind)
    requires Ordered(s)
    ensures Results(LeaseRest(s, sample).1, kind) == UnleasedResults(LaneOf(s, kind))
    ensures UnleasedResults(LaneOf(LeaseRest(s, sample).0, kind)) == []
    ensures forall k :: 0 <= k < |LeaseRest(s, sample).1| ==>
              ReportSized(LeaseRest(s, sample).1[k]) && LeaseRest(s, sample).1[k].sample == sample && HasResults(LeaseRest(s, sample).1[k])
    decreases UnleasedCount(s)
  {
    LeaseRestUnfolds(s, sample);
    LeaseReportSplits(s, sample, kind);
    LeaseReportOnlyLeases(s, sample);
    var (s1, r) := LeaseReport(s, sample);
    if HasResults(r) {
      SplittingIsExact(s1, sample, kind);
      assert LeaseRest(s, sample).1[1..] == LeaseRest(s1, sample).1;
    }
  }

  // ------------------------------------------------------------- reconnecting

  lemma {:induction false} FilterIdempotent(results: seq<Result>, leases: map<int, nat>, pending: map<int, Queued>)
    ensures FilterCurrent(FilterCurrent(results, leases, pending), leases, pending) == FilterCurrent(results, leases, pending)
  {
    if results != [] {
      FilterIdempotent(results[1..], leases, pending);
      var rest := FilterCurrent(results[1..], leases, pending);
      if IsCurrent(results[0], leases, pending) {
        assert ([results[0]] + rest)[1..] == rest;
      } else {
        assert FilterCurrent(results, leases, pending) == rest;
      }
    }
  }

  lemma {:induction false} KeepIdempotent(s: State, reports: seq<Report>)
    ensures KeepCurrent(s, KeepCurrent(s, reports)) == KeepCurrent(s, reports)
  {
    if reports != [] {
      var r := reports[0];
      KeepIdempotent(s, reports[1..]);
      FilterIdempotent(r.ping.results, r.ping.leases, s.ping.pending);
      FilterIdempotent(r.website.results, r.website.leases, s.website.pending);
      var rest := KeepCurrent(s, reports[1..]);
      var r' := CurrentReport(s, r);
      assert CurrentReport(s, r') == r';
      if HasResults(r') {
        assert ([r'] + rest)[1..] == rest;
      } else {
        assert KeepCurrent(s, reports) == rest;
      }
    }
  }

  lemma {:induction false} KeepAppend(s: State, a: seq<Report>, b: seq<Report>)
    ensures KeepCurrent(s, a + b) == KeepCurrent(s, a) + KeepCurrent(s, b)
  {
    if a == [] {
      assert a + b == b;
    } else {
      assert (a + b)[1..] == a[1..] + b;
      KeepAppend(s, a[1..], b);
    }
  }

  lemma {:induction false} KeepSameLanes(s: State, s': State, reports: seq<Report>)
    requires s.ping == s'.ping && s.website == s'.website
    ensures KeepCurrent(s, reports) == KeepCurrent(s', reports)
  {
    if reports != [] {
      KeepSameLanes(s, s', reports[1..]);
    }
  }

  lemma RetryOfRetry(s: State, queue: seq<Report>, a: seq<Report>, b: seq<Report>)
    ensures KeepCurrent(s, queue + KeepCurrent(s, a) + KeepCurrent(s, b)) == KeepCurrent(s, queue + a + b)
  {
    KeepAppend(s, queue + KeepCurrent(s, a), KeepCurrent(s, b));
    KeepAppend(s, queue, KeepCurrent(s, a));
    KeepIdempotent(s, a);
    KeepIdempotent(s, b);
    KeepAppend(s, queue + a, b);
    KeepAppend(s, queue, a);
  }

  function Reconnected(w: World): World
    requires w.connected && w.phase == Ready && !w.http
  {
    Next(Next(Next(Next(w, EndInFlight), EndPending), Connect), TakeRetryReports)
  }

  // After a disconnect and a reconnect the reporter holds again exactly the
  // reports it held before, in order, with their samples and their current
  // results; no probe runs for this.
  lemma ReconnectRetries(w: World)
    requires w.connected && w.phase == Ready && !w.http
    ensures Reconnected(w).pending == KeepCurrent(w.s, HeldReports(w))
    ensures Reconnected(w).inFlight == [] && Reconnected(w).s == w.s.(retryQueue := []) && Reconnected(w).workers == w.workers
  {
    hide KeepCurrent, CurrentReport;
    var w1 := Next(w, EndInFlight);
    KeepSameLanes(w1.s, w.s, w.pending);
    var queue := w.s.retryQueue + KeepCurrent(w.s, w.inFlight) + KeepCurrent(w.s, w.pending);
    var w3 := Next(Next(w1, EndPending), Connect);
    assert w3.s == w.s.(retryQueue := queue) && w3.pending == [];
    KeepSameLanes(w3.s, w.s, queue);
    RetryOfRetry(w.s, w.s.retryQueue, w.inFlight, w.pending);
    assert Reconnected(w).pending == [] + KeepCurrent(w3.s, queue);
  }

  // ---------------------------------------------------------------- progress

  lemma {:induction false} RunAppend(w: World, steps: seq<Step>, last: Step)
    requires Legal(w, steps) && Enabled(Run(w, steps), last)
    ensures Legal(w, steps + [last]) && Run(w, steps + [last]) == Next(Run(w, steps), last)
    decreases |steps|
  {
    if steps == [] {
      assert (steps + [last])[1..] == [];
    } else {
      assert (steps + [last])[1..] == steps[1..] + [last];
      RunAppend(Next(w, steps[0]), steps[1..], last);
    }
  }

  lemma ReachableNext(w: World, step: Step)
    requires Reachable(w) && Enabled(w, step)
    ensures Reachable(Next(w, step))
  {
    var http, steps :| Legal(Initial(http), steps) && Run(Initial(http), steps) == w;
    RunAppend(Initial(http), steps, step);
  }

  ghost predicate AllLeased(s: State) {
    && (forall id :: id in s.ping.pending ==> s.ping.pending[id].leased)
    && (forall id :: id in s.website.pending ==> s.website.pending[id].leased)
  }

  // w' comes after w, with no policy in between; what left the queue was acknowledged.
  ghost predicate Forward(w: World, w': World) {
    && PendingNumbers(w'.s) <= PendingNumbers(w.s)
    && w'.acked == w.acked + (PendingNumbers(w.s) - PendingNumbers(w'.s))
    && w'.dropped == w.dropped
  }

  ghost predicate Drained(w: World, w': World) {
    Forward(w, w') && w'.s.ping.pending == map[] && w'.s.website.pending == map[]
  }

  lemma ForwardDrained(w: World, w1: World, w': World)
    requires Forward(w, w1) && Drained(w1, w')
    ensures Drained(w, w')
  {
  }

  lemma NothingHeldNothingPending(w: World)
    requires Reachable(w) && AllLeased(w.s) && HeldReports(w) == []
    ensures Drained(w, w)
  {
    ReachableOk(w);
    forall id | id in w.s.ping.pending
      ensures Held([], PingKind, id, w.s.ping.pending[id].sequence)
    {
    }
    forall id | id in w.s.website.pending
      ensures Held([], WebsiteKind, id, w.s.website.pending[id].sequence)
    {
    }
    assert forall id :: id !in w.s.ping.pending;
    assert forall id :: id !in w.s.website.pending;
  }

  lemma AckKeepsLeased(s: State, batch: seq<Report>)
    requires AllLeased(s)
    ensures AllLeased(Acknowledge(s, batch))
  {
    AckAllShrinks(s.ping.pending, batch, PingKind);
    AckAllShrinks(s.website.pending, batch, WebsiteKind);
  }

  lemma {:induction false} AckNumbers(l: Lane, batch: seq<Report>, kind: Kind)
    ensures Sequences(AckLane(l, batch, kind)) <= Sequences(l)
  {
    AckAllShrinks(l.pending, batch, kind);
  }

  lemma AckForward(w: World)
    requires w.connected && w.phase == Ready && w.inFlight != [] && AllLeased(w.s)
    ensures var w1 := Next(w, Ack); Forward(w, w1) && AllLeased(w1.s) && w1 == w.(s := w1.s, inFlight := [], acked := w1.acked)
                                    && w1.s.retryQueue == w.s.retryQueue
  {
    AckNumbers(w.s.ping, w.inFlight, PingKind);
    AckNumbers(w.s.website, w.inFlight, WebsiteKind);
    AckKeepsLeased(w.s, w.inFlight);
  }

  lemma FlushForward(w: World)
    requires w.connected && w.phase == Ready && w.inFlight == [] && w.pending != []
    ensures var w2 := Next(Next(w, SampleTick), Flush);
            && w2.s == w.s && Forward(w, w2) && |w2.inFlight| + |w2.pending| == |w.pending| && |w2.pending| < |w.pending|
            && w2.connected && w2.phase == Ready
  {
  }

  lemma Prepend(w: World, step: Step, rest: seq<Step>)
    requires Enabled(w, step) && Legal(Next(w, step), rest)
    ensures Legal(w, [step] + rest) && Run(w, [step] + rest) == Run(Next(w, step), rest)
  {
    assert ([step] + rest)[1..] == rest;
  }

  lemma {:induction false} DrainHeld(w: World) returns (steps: seq<Step>)
    requires Reachable(w) && w.connected && w.phase == Ready && w.s.retryQueue == [] && AllLeased(w.s)
    ensures Legal(w, steps) && Drained(w, Run(w, steps))
    decreases |w.inFlight| + |w.pending|, |w.pending|
  {
    if w.inFlight != [] {
      var w1 := Next(w, Ack);
      AckForward(w);
      ReachableNext(w, Ack);
      var rest := DrainHeld(w1);
      Prepend(w, Ack, rest);
      ForwardDrained(w, w1, Run(w1, rest));
      steps := [Ack] + rest;
    } else if w.pending != [] {
      var w1 := Next(w, SampleTick);
      var w2 := Next(w1, Flush);
      FlushForward(w);
      ReachableNext(w, SampleTick);
      ReachableNext(w1, Flush);
      var rest := DrainHeld(w2);
      Prepend(w1, Flush, rest);
      Prepend(w, SampleTick, [Flush] + rest);
      ForwardDrained(w, w2, Run(w2, rest));
      steps := [SampleTick] + ([Flush] + rest);
    } else {
      NothingHeldNothingPending(w);
      steps := [];
    }
  }

  lemma QueueCovered(w: World)
    requires Reachable(w)
    ensures Ordered(w.s)
    ensures forall id :: id in w.s.ping.pending ==> id in w.s.ping.order
    ensures forall id :: id in w.s.website.pending ==> id in w.s.website.order
  {
    ReachableOk(w);
  }

  lemma EmptyUnleased(l: Lane)
    requires UnleasedResults(l) == []
    requires forall id :: id in l.pending ==> id in l.order
    ensures forall id :: id in l.pending ==> l.pending[id].leased
  {
    assert Unleased(l.order, l.pending) == [];
    assert forall id :: id !in Unleased(l.order, l.pending);
  }

  lemma RestLeasesAll(s: State, sample: nat)
    requires Ordered(s)
    requires forall id :: id in s.ping.pending ==> id in s.ping.order
    requires forall id :: id in s.website.pending ==> id in s.website.order
    ensures AllLeased(LeaseRest(s, sample).0)
  {
    SplittingIsExact(s, sample, PingKind);
    SplittingIsExact(s, sample, WebsiteKind);
    LeaseRestOnlyLeases(s, sample);
    var s' := LeaseRest(s, sample).0;
    EmptyUnleased(s'.ping);
    EmptyUnleased(s'.website);
  }

  lemma SameNumbers(s: State, s': State)
    requires SameButLeased(s, s')
    ensures PendingNumbers(s') == PendingNumbers(s) && s'.retryQueue == s.retryQueue
  {
    SameSequences(s.ping, s'.ping);
    SameSequences(s.website, s'.website);
  }

  function Prepared(w: World, sample: nat): World
    requires Enabled(w, TakeRetryReports)
  {
    Next(Next(Next(w, TakeRetryReports), LeaseFirst(sample)), LeaseRemaining)
  }

  lemma PreparedSteps(w: World, sample: nat, rest: seq<Step>)
    requires Enabled(w, TakeRetryReports) && Legal(Prepared(w, sample), rest)
    ensures var steps := [TakeRetryReports, LeaseFirst(sample), LeaseRemaining] + rest;
            Legal(w, steps) && Run(w, steps) == Run(Prepared(w, sample), rest)
  {
    var w1 := Next(w, TakeRetryReports);
    var w2 := Next(w1, LeaseFirst(sample));
    Prepend(w2, LeaseRemaining, rest);
    Prepend(w1, LeaseFirst(sample), [LeaseRemaining] + rest);
    Prepend(w, TakeRetryReports, [LeaseFirst(sample)] + ([LeaseRemaining] + rest));
    assert [TakeRetryReports, LeaseFirst(sample), LeaseRemaining] + rest
        == [TakeRetryReports] + ([LeaseFirst(sample)] + ([LeaseRemaining] + rest));
  }

  lemma PreparedKeepsNumbers(w: World, sample: nat)
    requires Enabled(w, TakeRetryReports)
    ensures Forward(w, Prepared(w, sample)) && PendingNumbers(Prepared(w, sample).s) == PendingNumbers(w.s)
    ensures Prepared(w, sample).s.retryQueue == [] && Prepared(w, sample).phase == Ready
    ensures Prepared(w, sample).connected == w.connected && Prepared(w, sample).http == w.http
  {
    var w1 := Next(w, TakeRetryReports);
    var w2 := Next(w1, LeaseFirst(sample));
    LeaseReportOnlyLeases(w1.s, sample);
    SameNumbers(w1.s, w2.s);
    LeaseRestOnlyLeases(w2.s, sample);
    SameNumbers(w2.s, LeaseRest(w2.s, sample).0);
  }

  lemma PreparedLeasesAll(w: World, sample: nat)
    requires Reachable(w) && Enabled(w, TakeRetryReports)
    ensures Reachable(Prepared(w, sample)) && AllLeased(Prepared(w, sample).s)
  {
    var w1 := Next(w, TakeRetryReports);
    var w2 := Next(w1, LeaseFirst(sample));
    ReachableNext(w, TakeRetryReports);
    ReachableNext(w1, LeaseFirst(sample));
    ReachableNext(w2, LeaseRemaining);
    QueueCovered(w2);
    RestLeasesAll(w2.s, sample);
  }

  // No result is ever stranded: from every reachable state of a connected,
  // idle session the reporter alone, given acknowledgements, can have every
  // pending result acknowledged.
  lemma EverythingCanBeDelivered(w: World, sample: nat) returns (steps: seq<Step>)
    requires Reachable(w) && w.connected && w.phase == Ready
    ensures Legal(w, steps) && Drained(w, Run(w, steps))
    ensures Run(w, steps).acked == w.acked + PendingNumbers(w.s)
  {
    PreparedKeepsNumbers(w, sample);
    PreparedLeasesAll(w, sample);
    var rest := DrainHeld(Prepared(w, sample));
    PreparedSteps(w, sample, rest);
    steps := [TakeRetryReports, LeaseFirst(sample), LeaseRemaining] + rest;
    ForwardDrained(w, Prepared(w, sample), Run(w, steps));
    assert PendingNumbers(Run(w, steps).s) == {};
  }
}
