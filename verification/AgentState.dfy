// The agent's mutable objects: the lock-protected probe and report state, and
// the reporter with its local slices. Every method is proved to perform
// exactly the step that Delivery or Reporter specifies.
module AgentState {
  import opened Probes
  import opened Lanes
  import opened LaneLemmas
  import opened Delivery
  import opened LaneLoops
  import DeliveryProgress

  class PingReportState {
    var ping: Lane
    var website: Lane
    var nextResultID: nat
    var retryQueue: seq<Report>
    var intervalSec: int
    var activeProbes: int
    var preferWebsite: bool
    var nextToken: nat
    var cancelled: set<nat>
    var closing: bool

    function View(): State
      reads this
    {
      State(ping, website, nextResultID, retryQueue, intervalSec, activeProbes, preferWebsite, nextToken, cancelled, closing)
    }

    // Both queues list their pending results oldest first.
    ghost predicate Valid()
      reads this
    {
      Ascending(ping.order, ping.pending) && Ascending(website.order, website.pending)
    }

    constructor ()
      ensures View() == INITIAL && Valid()
    {
      ping, website := EMPTY_LANE, EMPTY_LANE;
      nextResultID, retryQueue, intervalSec := 0, [], DEFAULT_PING_INTERVAL_SEC;
      activeProbes, preferWebsite := 0, true;
      nextToken, cancelled, closing := 0, {}, false;
    }

    // -------------------------------------------------------------- leasing

    method AppendPendingResults(sample: nat) returns (report: Report)
      requires Valid()
      modifies this
      ensures (View(), report) == LeaseReport(old(View()), sample)
      ensures Valid()
    {
      LeaseReportKeepsOrder(View(), sample);
      var pings, pingSlip := LeasePending(ping, MAX_PING_RESULTS_PER_REPORT);
      var websites, websiteSlip := LeasePending(website, MAX_WEBSITE_RESULTS_PER_REPORT);
      ping, website := ping.(pending := pings), website.(pending := websites);
      report := Report(sample, pingSlip, websiteSlip);
    }

    method AppendPendingReports(first: Report) returns (reports: seq<Report>)
      requires Valid()
      modifies this
      ensures View() == LeaseRest(old(View()), first.sample).0
      ensures reports == [first] + LeaseRest(old(View()), first.sample).1
      ensures Valid()
    {
      hide Lease, LeaseReport, LeaseRest, Ascending, Unleased;
      ghost var start := View();
      reports := [first];
      while true
        invariant Valid()
        invariant |reports| > 0 && reports[0] == first && Remaining(start, View(), first.sample, reports[1..])
        decreases UnleasedCount(View())
      {
        ghost var before := View();
        RemainingStep(start, before, first.sample, reports[1..]);
        var next := AppendPendingResults(first.sample);
        if |next.ping.results| == 0 && |next.website.results| == 0 {
          break;
        }
        reports := reports + [next];
        assert reports[1..] == reports[1..|reports| - 1] + [next];
      }
    }

    // ---------------------------------------------- currency and retry queue

    method CurrentReportResults(reports: seq<Report>) returns (current: seq<Report>)
      ensures current == CurrentReports(View(), reports)
    {
      current := [];
      for i := 0 to |reports|
        invariant |current| == i
        invariant forall k :: 0 <= k < i ==> current[k] == CurrentReport(View(), reports[k])
      {
        var ping := CurrentResults(reports[i].ping, ping.pending);
        var website := CurrentResults(reports[i].website, website.pending);
        current := current + [reports[i].(ping := ping, website := website)];
      }
    }

    method Kept(reports: seq<Report>) returns (kept: seq<Report>)
      ensures kept == KeepCurrent(View(), reports)
    {
      kept := [];
      for i := 0 to |reports|
        invariant kept == KeepCurrent(View(), reports[..i])
      {
        KeepNext(View(), reports, i);
        var ping := CurrentResults(reports[i].ping, ping.pending);
        var website := CurrentResults(reports[i].website, website.pending);
        if |ping.results| > 0 || |website.results| > 0 {
          kept := kept + [reports[i].(ping := ping, website := website)];
        }
      }
      assert reports[..|reports|] == reports;
    }

    method RetryReports(reports: seq<Report>)
      modifies this`retryQueue
      ensures View() == Delivery.RetryReports(old(View()), reports)
    {
      var kept := Kept(reports);
      retryQueue := retryQueue + kept;
    }

    method TakeRetryReports() returns (reports: seq<Report>)
      modifies this`retryQueue
      ensures (View(), reports) == TakeRetry(old(View()))
    {
      reports := Kept(retryQueue);
      retryQueue := [];
    }

    // ------------------------------------------------------ acknowledgement

    method AcknowledgeReports(reports: seq<Report>)
      modifies this`ping, this`website
      ensures View() == Acknowledge(old(View()), reports)
    {
      ghost var start := View();
      var pings, websites := ping.pending, website.pending;
      for i := 0 to |reports|
        invariant AckAll(pings, reports[i..], PingKind) == AckAll(start.ping.pending, reports, PingKind)
        invariant AckAll(websites, reports[i..], WebsiteKind) == AckAll(start.website.pending, reports, WebsiteKind)
      {
        assert reports[i..][1..] == reports[i + 1..];
        pings := AckPending(pings, reports[i].ping);
        websites := AckPending(websites, reports[i].website);
      }
      ping, website := ping.(pending := pings), website.(pending := websites);
      PruneResultOrder();
    }

    method PruneResultOrder()
      modifies this`ping, this`website
      ensures ping == old(ping).(order := Prune(old(ping).order, old(ping).pending))
      ensures website == old(website).(order := Prune(old(website).order, old(website).pending))
    {
      var pings := PruneOrder(ping.order, ping.pending);
      var websites := PruneOrder(website.order, website.pending);
      ping, website := ping.(order := pings), website.(order := websites);
    }

    // --------------------------------------------------------------- policy

    method ApplyPolicy(policy: Policy)
      modifies this
      ensures View() == Delivery.ApplyPolicy(old(View()), policy)
    {
      hide ApplyTasks, CancelledBy, WithInterval, Delivery.ApplyPolicy;
      ghost var start := View();
      if policy.pingIntervalSec > 0 {
        intervalSec := policy.pingIntervalSec;
      }
      if intervalSec < 1 {
        intervalSec := DEFAULT_PING_INTERVAL_SEC;
      }
      var pings := Configure(policy.pings, intervalSec);
      var websites := Configure(policy.websites, intervalSec);
      var newPing, afterPings := InstallTasks(ping, pings, cancelled);
      var newWebsite, afterWebsites := InstallTasks(website, websites, afterPings);
      PolicyIs(start, policy, intervalSec, pings, websites, newPing, newWebsite, afterWebsites);
      ping, website, cancelled := newPing, newWebsite, afterWebsites;
    }

    method Close()
      modifies this`closing
      ensures View() == old(View()).(closing := true)
    {
      closing := true;
    }

    // ----------------------------------------------------------- scheduling

    // Records one new run and hands out its goroutine.
    method Start(kind: Kind, task: Task, tie: bool, now: nat) returns (worker: Worker)
      modifies this
      ensures (View(), worker) == Launch(old(View()), kind, task, tie, now)
    {
      if tie {
        preferWebsite := !preferWebsite;
      }
      worker := Worker(kind, task, nextToken);
      activeProbes := activeProbes + 1;
      match kind {
        case WebsiteKind =>
          website := website.(running := website.running[task.id := nextToken], lastRun := website.lastRun[task.id := now]);
        case PingKind =>
          ping := ping.(running := ping.running[task.id := nextToken], lastRun := ping.lastRun[task.id := now]);
      }
      nextToken := nextToken + 1;
    }

    method LaunchDueProbes(now: nat) returns (spawned: seq<Worker>, wake: nat)
      modifies this
      ensures (View(), spawned, wake) == LaunchDue(old(View()), now)
    {
      ghost var start := View();
      spawned := [];
      while activeProbes < MAX_CONCURRENT_PROBES && !closing
        invariant Launching(start, View(), now, spawned)
        decreases MAX_CONCURRENT_PROBES - activeProbes
      {
        var ping := NextDue(ping);
        var website := NextDue(website);
        LaunchingStep(start, View(), now, spawned);
        if ping.Nothing? && website.Nothing? {
          wake := 0;
          return;
        }
        var useWebsite := website.Pick?
          && (ping.Nothing? || website.due < ping.due || (website.due == ping.due && preferWebsite));
        var due := if useWebsite then website.due else ping.due;
        if due > now {
          wake := due;
          return;
        }
        var tie := ping.Pick? && website.Pick? && website.due == ping.due;
        var worker := Start(if useWebsite then WebsiteKind else PingKind, if useWebsite then website.task else ping.task, tie, now);
        spawned := spawned + [worker];
      }
      assert spawned + [] == spawned;
      wake := 0;
    }

    // The tail of runPingProbe and runWebsiteProbe, after the probe itself.
    method FinishProbe(worker: Worker, outcome: Outcome)
      modifies this
      ensures View() == Finish(old(View()), worker, outcome)
    {
      var id := worker.task.id;
      var interrupted := worker.token in cancelled || closing;
      match worker.kind {
        case PingKind =>
          if id in ping.running && ping.running[id] == worker.token {
            ping := ping.(running := ping.running - {id});
            if !interrupted && id !in ping.pending {
              nextResultID := nextResultID + 1;
              ping := ping.(pending := ping.pending[id := Queued(Result(id, outcome), nextResultID, false)],
                                order := ping.order + [id]);
            }
          }
        case WebsiteKind =>
          if id in website.running && website.running[id] == worker.token {
            website := website.(running := website.running - {id});
            if !interrupted && id !in website.pending {
              nextResultID := nextResultID + 1;
              website := website.(pending := website.pending[id := Queued(Result(id, outcome), nextResultID, false)],
                                order := website.order + [id]);
            }
          }
      }
      activeProbes := activeProbes - 1;
    }
  }

  // ---------------------------------------------------------------- lemmas

  lemma PolicyIs(s: State, policy: Policy, interval: int, pings: seq<Task>, websites: seq<Task>,
                 ping: Lane, website: Lane, cancelled: set<nat>)
    requires interval == PolicyInterval(s, policy)
    requires pings == WithInterval(policy.pings, interval) && websites == WithInterval(policy.websites, interval)
    requires ping == ApplyTasks(s.ping, pings) && website == ApplyTasks(s.website, websites)
    requires cancelled == s.cancelled + CancelledBy(s.ping, pings) + CancelledBy(s.website, websites)
    ensures s.(intervalSec := interval, ping := ping, website := website, cancelled := cancelled) == Delivery.ApplyPolicy(s, policy)
  {
  }

  lemma LeaseReportKeepsOrder(s: State, sample: nat)
    requires Ascending(s.ping.order, s.ping.pending) && Ascending(s.website.order, s.website.pending)
    ensures var s' := LeaseReport(s, sample).0;
            Ascending(s'.ping.order, s'.ping.pending) && Ascending(s'.website.order, s'.website.pending)
  {
  }

  // Splitting has come from `start` to `s` and produced `done`.
  ghost predicate Remaining(start: State, s: State, sample: nat, done: seq<Report>) {
    && LeaseRest(start, sample).0 == LeaseRest(s, sample).0
    && LeaseRest(start, sample).1 == done + LeaseRest(s, sample).1
  }

  lemma RemainingStep(start: State, s: State, sample: nat, done: seq<Report>)
    requires Remaining(start, s, sample, done)
    ensures var (s1, next) := LeaseReport(s, sample);
            if HasResults(next) then UnleasedCount(s1) < UnleasedCount(s) && Remaining(start, s1, sample, done + [next])
            else s1 == s && LeaseRest(start, sample) == (s, done)
  {
    hide Unleased, MarkLeased, SlipFor, LeaseIds;
    LeaseShrinks(s.ping, MAX_PING_RESULTS_PER_REPORT);
    LeaseShrinks(s.website, MAX_WEBSITE_RESULTS_PER_REPORT);
    var (s1, next) := LeaseReport(s, sample);
    if HasResults(next) {
      assert done + ([next] + LeaseRest(s1, sample).1) == (done + [next]) + LeaseRest(s1, sample).1;
    } else {
      LeasingNothing(s, sample);
      assert done + [] == done;
    }
  }

  lemma LeasingNothing(s: State, sample: nat)
    requires !HasResults(LeaseReport(s, sample).1)
    ensures LeaseReport(s, sample).0 == s
  {
    assert LeaseIds(s.ping, MAX_PING_RESULTS_PER_REPORT) == [];
    assert LeaseIds(s.website, MAX_WEBSITE_RESULTS_PER_REPORT) == [];
    assert MarkLeased(s.ping.pending, []) == s.ping.pending;
    assert MarkLeased(s.website.pending, []) == s.website.pending;
  }

  lemma KeepNext(s: State, reports: seq<Report>, i: nat)
    requires i < |reports|
    ensures KeepCurrent(s, reports[..i + 1])
         == KeepCurrent(s, reports[..i])
            + (if HasResults(CurrentReport(s, reports[i])) then [CurrentReport(s, reports[i])] else [])
  {
    assert reports[..i + 1] == reports[..i] + [reports[i]];
    DeliveryProgress.KeepAppend(s, reports[..i], [reports[i]]);
    assert [reports[i]][1..] == [];
  }

  // Launching has come from `start` to `s` and spawned `done`.
  ghost predicate Launching(start: State, s: State, now: nat, done: seq<Worker>) {
    && LaunchDue(start, now).0 == LaunchDue(s, now).0
    && LaunchDue(start, now).1 == done + LaunchDue(s, now).1
    && LaunchDue(start, now).2 == LaunchDue(s, now).2
  }

  lemma LaunchingStep(start: State, s: State, now: nat, done: seq<Worker>)
    requires Launching(start, s, now, done) && s.activeProbes < MAX_CONCURRENT_PROBES && !s.closing
    ensures match Decide(s, now)
            case NoneEligible => LaunchDue(start, now) == (s, done, 0)
            case NotBefore(due) => LaunchDue(start, now) == (s, done, due)
            case Start(kind, task, tie) =>
              var (s1, worker) := Launch(s, kind, task, tie, now);
              Launching(start, s1, now, done + [worker])
  {
    if Decide(s, now).Start? {
      var Start(kind, task, tie) := Decide(s, now);
      var (s1, worker) := Launch(s, kind, task, tie, now);
      assert LaunchDue(s, now).1 == [worker] + LaunchDue(s1, now).1;
      assert done + ([worker] + LaunchDue(s1, now).1) == (done + [worker]) + LaunchDue(s1, now).1;
    } else {
      assert done + [] == done;
    }
  }
}
