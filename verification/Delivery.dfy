// The lock-protected state shared by the probe scheduler and the reporter.
// Every function below is one critical section of the agent.
module Delivery {
  import opened Probes
  import opened Lanes

  const MAX_PING_RESULTS_PER_REPORT := 50
  const MAX_WEBSITE_RESULTS_PER_REPORT := 20
  const MAX_REPORTS_PER_ENVELOPE := 300
  const MAX_CONCURRENT_PROBES := 4

  datatype State = State(
    ping: Lane,
    website: Lane,
    nextResultID: nat,
    retryQueue: seq<Report>,
    intervalSec: int,
    activeProbes: int,
    preferWebsite: bool,
    nextToken: nat,
    cancelled: set<nat>,
    closing: bool)

  // The goroutine of one probe run: its task and the identity of its run record.
  datatype Worker = Worker(kind: Kind, task: Task, token: nat)

  datatype Policy = Policy(pingIntervalSec: int, pings: seq<Task>, websites: seq<Task>)

  const INITIAL := State(EMPTY_LANE, EMPTY_LANE, 0, [], DEFAULT_PING_INTERVAL_SEC, 0, true, 0, {}, false)

  function LaneOf(s: State, kind: Kind): Lane {
    match kind case PingKind => s.ping case WebsiteKind => s.website
  }

  function WithLane(s: State, kind: Kind, l: Lane): State {
    match kind case PingKind => s.(ping := l) case WebsiteKind => s.(website := l)
  }

  function Limit(kind: Kind): nat {
    match kind case PingKind => MAX_PING_RESULTS_PER_REPORT case WebsiteKind => MAX_WEBSITE_RESULTS_PER_REPORT
  }

  // ----------------------------------------------------------------- leasing

  function LeaseReport(s: State, sample: nat): (State, Report) {
    var (ping, pingSlip) := Lease(s.ping, MAX_PING_RESULTS_PER_REPORT);
    var (website, websiteSlip) := Lease(s.website, MAX_WEBSITE_RESULTS_PER_REPORT);
    (s.(ping := ping, website := website), Report(sample, pingSlip, websiteSlip))
  }

  predicate HasResults(r: Report) {
    r.ping.results != [] || r.website.results != []
  }

  function UnleasedCount(s: State): nat {
    |Unleased(s.ping.order, s.ping.pending)| + |Unleased(s.website.order, s.website.pending)|
  }

  lemma {:induction false} MarkingShrinks(order: seq<int>, pending: map<int, Queued>, ids: seq<int>)
    ensures |Unleased(order, MarkLeased(pending, ids))| <= |Unleased(order, pending)|
    ensures (exists id :: id in ids && id in Unleased(order, pending)) ==>
              |Unleased(order, MarkLeased(pending, ids))| < |Unleased(order, pending)|
  {
    if order != [] {
      MarkingShrinks(order[1..], pending, ids);
    }
  }

  lemma LeaseShrinks(l: Lane, limit: nat)
    requires limit > 0
    ensures var l' := Lease(l, limit).0;
            && |Unleased(l'.order, l'.pending)| <= |Unleased(l.order, l.pending)|
            && (Lease(l, limit).1.results != [] ==>
                  |Unleased(l'.order, l'.pending)| < |Unleased(l.order, l.pending)|)
  {
    var ids := LeaseIds(l, limit);
    MarkingShrinks(l.order, l.pending, ids);
    if ids != [] {
      assert ids[0] == Unleased(l.order, l.pending)[0];
      assert ids[0] in ids && ids[0] in Unleased(l.order, l.pending);
    }
  }

  // Splits what the first report could not take into further reports.
  function LeaseRest(s: State, sample: nat): (State, seq<Report>)
    decreases UnleasedCount(s)
  {
    var (s1, next) := LeaseReport(s, sample);
    if !HasResults(next) then (s, [])
    else
      LeaseShrinks(s.ping, MAX_PING_RESULTS_PER_REPORT);
      LeaseShrinks(s.website, MAX_WEBSITE_RESULTS_PER_REPORT);
      var (s2, rest) := LeaseRest(s1, sample);
      (s2, [next] + rest)
  }

  // --------------------------------------------- currency and the retry queue

  function CurrentReport(s: State, r: Report): Report {
    r.(ping := CurrentSlip(r.ping, s.ping.pending), website := CurrentSlip(r.website, s.website.pending))
  }

  function CurrentReports(s: State, reports: seq<Report>): seq<Report> {
    seq(|reports|, i requires 0 <= i < |reports| => CurrentReport(s, reports[i]))
  }

  // The reports that still have a current result, reduced to those results.
  function KeepCurrent(s: State, reports: seq<Report>): seq<Report> {
    if reports == [] then []
    else
      var r := CurrentReport(s, reports[0]);
      (if HasResults(r) then [r] else []) + KeepCurrent(s, reports[1..])
  }

  function RetryReports(s: State, reports: seq<Report>): State {
    s.(retryQueue := s.retryQueue + KeepCurrent(s, reports))
  }

  function TakeRetry(s: State): (State, seq<Report>) {
    (s.(retryQueue := []), KeepCurrent(s, s.retryQueue))
  }

  // --------------------------------------------------------- acknowledgement

  function AckAll(pending: map<int, Queued>, reports: seq<Report>, kind: Kind): map<int, Queued> {
    if reports == [] then pending
    else AckAll(AckPending(pending, Part(reports[0], kind)), reports[1..], kind)
  }

  function AckLane(l: Lane, reports: seq<Report>, kind: Kind): Lane {
    var pending := AckAll(l.pending, reports, kind);
    l.(pending := pending, order := Prune(l.order, pending))
  }

  function Acknowledge(s: State, reports: seq<Report>): State {
    s.(ping := AckLane(s.ping, reports, PingKind), website := AckLane(s.website, reports, WebsiteKind))
  }

  // ------------------------------------------------------------------ policy

  function WithInterval(tasks: seq<Task>, intervalSec: int): seq<Task> {
    seq(|tasks|, i requires 0 <= i < |tasks| =>
      if tasks[i].intervalSec < 1 then tasks[i].(intervalSec := intervalSec) else tasks[i])
  }

  function PolicyInterval(s: State, policy: Policy): int {
    var configured := if policy.pingIntervalSec > 0 then policy.pingIntervalSec else s.intervalSec;
    if configured < 1 then DEFAULT_PING_INTERVAL_SEC else configured
  }

  function ApplyPolicy(s: State, policy: Policy): State {
    var interval := PolicyInterval(s, policy);
    var pings := WithInterval(policy.pings, interval);
    var websites := WithInterval(policy.websites, interval);
    s.(intervalSec := interval,
       ping := ApplyTasks(s.ping, pings),
       website := ApplyTasks(s.website, websites),
       cancelled := s.cancelled + CancelledBy(s.ping, pings) + CancelledBy(s.website, websites))
  }

  // -------------------------------------------------------------- scheduling

  datatype Pick = Nothing | Pick(task: Task, due: nat)

  predicate Eligible(l: Lane, task: Task) {
    task.id > 0 && task.id !in l.pending && task.id !in l.running
  }

  function Due(l: Lane, task: Task): nat {
    if task.id in l.lastRun then l.lastRun[task.id] + Interval(task) else 0
  }

  // The earliest-due eligible task; the first of equals.
  function Best(l: Lane, tasks: seq<Task>): Pick {
    if tasks == [] then Nothing
    else
      var best := Best(l, tasks[..|tasks| - 1]);
      var task := tasks[|tasks| - 1];
      if Eligible(l, task) && (best.Nothing? || Due(l, task) < best.due) then Pick(task, Due(l, task)) else best
  }

  datatype Decision = NoneEligible | NotBefore(due: nat) | Start(kind: Kind, task: Task, tie: bool)

  function Decide(s: State, now: nat): Decision {
    var ping := Best(s.ping, s.ping.tasks);
    var website := Best(s.website, s.website.tasks);
    if ping.Nothing? && website.Nothing? then NoneEligible
    else
      var useWebsite := website.Pick? && (ping.Nothing? || website.due < ping.due || (website.due == ping.due && s.preferWebsite));
      var due := if useWebsite then website.due else ping.due;
      if due > now then NotBefore(due)
      else
        var tie := ping.Pick? && website.Pick? && website.due == ping.due;
        if useWebsite then Start(WebsiteKind, website.task, tie) else Start(PingKind, ping.task, tie)
  }

  function Launch(s: State, kind: Kind, task: Task, tie: bool, now: nat): (State, Worker) {
    var l := LaneOf(s, kind);
    var s1 := WithLane(s, kind, l.(running := l.running[task.id := s.nextToken], lastRun := l.lastRun[task.id := now]));
    (s1.(activeProbes := s.activeProbes + 1,
         preferWebsite := if tie then !s.preferWebsite else s.preferWebsite,
         nextToken := s.nextToken + 1),
     Worker(kind, task, s.nextToken))
  }

  // Launches until four probes run, nothing is due, or the agent is closing;
  // returns the spawned runs and the time to wake up at (0 for none).
  function LaunchDue(s: State, now: nat): (State, seq<Worker>, nat)
    decreases MAX_CONCURRENT_PROBES - s.activeProbes
  {
    if s.activeProbes >= MAX_CONCURRENT_PROBES || s.closing then (s, [], 0)
    else
      match Decide(s, now)
      case NoneEligible => (s, [], 0)
      case NotBefore(due) => (s, [], due)
      case Start(kind, task, tie) =>
        var (s1, worker) := Launch(s, kind, task, tie, now);
        var (s2, rest, wake) := LaunchDue(s1, now);
        (s2, [worker] + rest, wake)
  }

  predicate Interrupted(s: State, token: nat) {
    token in s.cancelled || s.closing
  }

  function Finish(s: State, worker: Worker, outcome: Outcome): State {
    var l := LaneOf(s, worker.kind);
    var id := worker.task.id;
    var s1 :=
      if id in l.running && l.running[id] == worker.token then
        var l1 := l.(running := Without(l.running, {id}));
        if Interrupted(s, worker.token) then WithLane(s, worker.kind, l1)
        else if id in l1.pending then WithLane(s, worker.kind, l1)
        else WithLane(s, worker.kind, QueueResult(l1, Result(id, outcome), s.nextResultID + 1)).(nextResultID := s.nextResultID + 1)
      else s;
    s1.(activeProbes := s.activeProbes - 1)
  }
}
