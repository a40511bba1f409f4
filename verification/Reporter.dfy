// The whole agent as a state machine: the shared state, the running probe
// goroutines, and the one reporter goroutine with its local report slices.
// Each step is one critical section (or one local action of the reporter), so
// that probes may start and finish between any two steps of the reporter.
module Reporter {
  import opened Probes
  import opened Lanes
  import opened Delivery

  // Where the reporter goroutine is between two critical sections.
  datatype Phase =
    | Ready
    | Fetched                      // prepareReportsWithPing took the retry queue
    | Opened(sample: nat)          // ... and leased into its first report
    | Ending                       // a session returned inFlight, not yet pending
    | Delivering                   // deliverHTTPReports between two batches
    | Sent(batch: seq<Report>)     // deliverHTTPReports awaits the response

  datatype World = World(
    s: State,
    workers: set<Worker>,
    http: bool,
    connected: bool,
    phase: Phase,
    pending: seq<Report>,
    inFlight: seq<Report>,
    uploadReady: bool,
    // History, read by no step: which task every sequence number came from,
    // and which numbers were acknowledged or dropped by a policy.
    origin: map<nat, Definition>,
    acked: set<nat>,
    dropped: set<nat>)

  function Initial(http: bool): World {
    World(INITIAL, {}, http, false, Ready, [], [], false, map[], {}, {})
  }

  datatype Step =
    | LaunchDueProbes(now: nat)
    | FinishProbe(worker: Worker, outcome: Outcome)
    | Close
    | Connect
    | TakeRetryReports
    | LeaseFirst(sample: nat)
    | LeaseRemaining
    | SampleTick
    | UploadTick
    | Flush
    | Ack
    | NewPolicy(policy: Policy)
    | EndInFlight
    | EndPending
    | HttpSend
    | HttpAccepted
    | HttpRejected

  // All reports whose leases the agent still holds, oldest first.
  function HeldReports(w: World): seq<Report> {
    w.s.retryQueue + w.inFlight + w.pending
  }

  function Envelope(pending: seq<Report>): nat {
    if |pending| < MAX_REPORTS_PER_ENVELOPE then |pending| else MAX_REPORTS_PER_ENVELOPE
  }

  function Sequences(l: Lane): set<nat> {
    set id | id in l.pending :: l.pending[id].sequence
  }

  function PendingNumbers(s: State): set<nat> {
    Sequences(s.ping) + Sequences(s.website)
  }

  predicate Enabled(w: World, step: Step) {
    match step
    case LaunchDueProbes(_) => true
    case FinishProbe(worker, outcome) => worker in w.workers && Answers(outcome, worker.task.definition)
    case Close => true
    case Connect => !w.http && !w.connected && w.phase == Ready
    case TakeRetryReports => w.phase == Ready && (w.http || w.connected)
    case LeaseFirst(_) => w.phase == Fetched
    case LeaseRemaining => w.phase.Opened?
    case SampleTick => w.connected && w.phase == Ready
    case UploadTick => w.connected && w.phase == Ready
    case Flush => w.connected && w.phase == Ready
    case Ack => w.connected && w.phase == Ready
    case NewPolicy(_) => w.phase == Ready && (w.http || w.connected)
    case EndInFlight => w.connected && w.phase == Ready
    case EndPending => w.phase == Ending
    case HttpSend => w.http && (w.phase == Ready || w.phase == Delivering) && w.pending != []
    case HttpAccepted => w.phase.Sent?
    case HttpRejected => w.phase.Sent?
  }

  function Next(w: World, step: Step): World
    requires Enabled(w, step)
  {
    match step
    case LaunchDueProbes(now) =>
      var (s, spawned, _) := LaunchDue(w.s, now);
      w.(s := s, workers := w.workers + (set x | x in spawned))
    case FinishProbe(worker, outcome) =>
      var s := Finish(w.s, worker, outcome);
      w.(s := s,
         workers := w.workers - {worker},
         origin := if s.nextResultID == w.s.nextResultID then w.origin
                   else w.origin[s.nextResultID := worker.task.definition])
    case Close => w.(s := w.s.(closing := true))
    case Connect => w.(connected := true, pending := [], inFlight := [], uploadReady := true)
    case TakeRetryReports =>
      var (s, retry) := TakeRetry(w.s);
      w.(s := s, pending := w.pending + retry, phase := Fetched)
    case LeaseFirst(sample) =>
      var (s, first) := LeaseReport(w.s, sample);
      w.(s := s, pending := w.pending + [first], phase := Opened(sample))
    case LeaseRemaining =>
      var (s, rest) := LeaseRest(w.s, w.phase.sample);
      w.(s := s, pending := w.pending + rest, phase := Ready)
    case SampleTick => w.(uploadReady := true)
    case UploadTick => w.(uploadReady := |w.pending| > 0)
    case Flush =>
      if !w.uploadReady || |w.inFlight| > 0 || |w.pending| == 0 then w
      else
        var count := Envelope(w.pending);
        w.(inFlight := CurrentReports(w.s, w.pending[..count]),
           pending := w.pending[count..],
           uploadReady := |w.pending| > count)
    case Ack =>
      if |w.inFlight| == 0 then w
      else
        var s := Acknowledge(w.s, w.inFlight);
        w.(s := s, inFlight := [], acked := w.acked + (PendingNumbers(w.s) - PendingNumbers(s)))
    case NewPolicy(policy) =>
      var s := ApplyPolicy(w.s, policy);
      w.(s := s, dropped := w.dropped + (PendingNumbers(w.s) - PendingNumbers(s)))
    case EndInFlight =>
      w.(s := RetryReports(w.s, w.inFlight), inFlight := [], connected := false, phase := Ending)
    case EndPending =>
      w.(s := RetryReports(w.s, w.pending), pending := [], phase := Ready)
    case HttpSend =>
      w.(phase := Sent(CurrentReports(w.s, w.pending[..Envelope(w.pending)])))
    case HttpAccepted =>
      var s := Acknowledge(w.s, w.phase.batch);
      var rest := w.pending[Envelope(w.pending)..];
      w.(s := s, pending := rest, phase := if rest == [] then Ready else Delivering,
         acked := w.acked + (PendingNumbers(w.s) - PendingNumbers(s)))
    case HttpRejected =>
      w.(s := RetryReports(w.s, w.pending), pending := [], phase := Ready)
  }

  // ------------------------------------------------------------------- runs

  ghost predicate Legal(w: World, steps: seq<Step>)
    decreases |steps|
  {
    steps == [] || (Enabled(w, steps[0]) && Legal(Next(w, steps[0]), steps[1..]))
  }

  ghost function Run(w: World, steps: seq<Step>): World
    requires Legal(w, steps)
    decreases |steps|
  {
    if steps == [] then w else Run(Next(w, steps[0]), steps[1..])
  }

  ghost predicate Reachable(w: World) {
    exists http, steps :: Legal(Initial(http), steps) && Run(Initial(http), steps) == w
  }

  // -------------------------------------------------------------- invariants

  ghost predicate LanesOk(s: State, held: seq<Report>) {
    LaneOk(s.ping, held, PingKind, s.nextResultID) && LaneOk(s.website, held, WebsiteKind, s.nextResultID)
  }

  // Where reports may be; together with LanesOk this fixes the order of
  // everything the reporter holds.
  ghost predicate PhaseOk(w: World) {
    && (w.s.retryQueue == [] || (w.inFlight == [] && w.pending == []) || w.phase == Ending)
    && (w.phase == Fetched || w.phase.Opened? ==> w.s.retryQueue == [])
    && (w.phase == Ending ==> w.inFlight == [])
    && (w.http ==> w.inFlight == [] && !w.connected && w.phase != Ending)
    && (!w.connected && !w.http && w.phase != Ending ==> w.inFlight == [] && w.pending == [] && w.phase == Ready)
    && (w.connected ==> w.phase != Ending)
    && (w.phase.Sent? || w.phase == Delivering ==> w.http && w.pending != [])
    && |w.inFlight| <= MAX_REPORTS_PER_ENVELOPE
  }

  // The batch an HTTP request carries has the leases of the reports it copies,
  // and its slips fit the queue as held slips do.
  ghost predicate BatchOk(s: State, batch: seq<Report>, pending: seq<Report>) {
    && |batch| == Envelope(pending)
    && (forall k :: 0 <= k < |batch| ==> CopyOk(s, batch[k], pending[k]))
  }

  ghost predicate CopyOk(s: State, copy: Report, original: Report) {
    && copy.ping.leases == original.ping.leases && copy.website.leases == original.website.leases
    && SlipFits(copy.ping, s.ping.pending, s.nextResultID)
    && SlipFits(copy.website, s.website.pending, s.nextResultID)
  }

  ghost predicate ReportSized(r: Report) {
    && |r.ping.results| <= MAX_PING_RESULTS_PER_REPORT
    && |r.website.results| <= MAX_WEBSITE_RESULTS_PER_REPORT
  }

  ghost predicate AllSized(reports: seq<Report>) {
    forall k :: 0 <= k < |reports| ==> ReportSized(reports[k])
  }

  // Probe runs: one goroutine per running entry, at most four.
  ghost predicate RunsOk(s: State, workers: set<Worker>) {
    && (forall x :: x in workers ==> RunningAs(s, x))
    && (forall kind, id :: id in LaneOf(s, kind).running ==> HasWorker(workers, kind, id))
    && (forall x, y :: x in workers && y in workers && x.token == y.token ==> x == y)
    && s.activeProbes == |s.ping.running| + |s.website.running|
    && s.activeProbes <= MAX_CONCURRENT_PROBES
  }

  ghost predicate HasWorker(workers: set<Worker>, kind: Kind, id: int) {
    exists x :: x in workers && x.kind == kind && x.task.id == id
  }

  ghost predicate RunningAs(s: State, x: Worker) {
    && x.task.id in LaneOf(s, x.kind).running
    && LaneOf(s, x.kind).running[x.task.id] == x.token
    && x.token < s.nextToken
  }

  ghost predicate Backed(tasks: seq<Task>, id: int, definition: Definition) {
    exists t :: t in tasks && t.id == id && SameProbe(t.definition, definition)
  }

  ghost predicate ResultBacked(l: Lane, origin: map<nat, Definition>, id: int)
    requires id in l.pending
  {
    && l.pending[id].sequence in origin
    && Answers(l.pending[id].result.outcome, origin[l.pending[id].sequence])
    && Backed(l.tasks, id, origin[l.pending[id].sequence])
  }

  // Every pending result and every run that is not cancelled belongs to a
  // task that the current policy still defines the same way.
  ghost predicate FidelityOk(s: State, workers: set<Worker>, origin: map<nat, Definition>) {
    && (forall kind, id :: id in LaneOf(s, kind).pending ==> ResultBacked(LaneOf(s, kind), origin, id))
    && (forall x :: x in workers && x.token !in s.cancelled ==>
          Backed(LaneOf(s, x.kind).tasks, x.task.id, x.task.definition))
    && (forall n :: n in origin ==> n <= s.nextResultID)
    && (forall token :: token in s.cancelled ==> token < s.nextToken)
  }

  predicate Issued(n: nat, next: nat) {
    1 <= n <= next
  }

  // Conservation: every number ever issued is pending in exactly one lane,
  // acknowledged, or dropped by a policy.
  ghost predicate LedgerOk(s: State, acked: set<nat>, dropped: set<nat>) {
    && Sequences(s.ping) !! Sequences(s.website)
    && PendingNumbers(s) !! acked
    && PendingNumbers(s) !! dropped
    && acked !! dropped
    && (forall n: nat :: Issued(n, s.nextResultID) <==> n in PendingNumbers(s) + acked + dropped)
  }

  ghost predicate Inv(w: World) {
    && LanesOk(w.s, HeldReports(w))
    && PhaseOk(w)
    && (w.phase.Sent? ==> BatchOk(w.s, w.phase.batch, w.pending))
    && AllSized(HeldReports(w))
    && RunsOk(w.s, w.workers)
    && FidelityOk(w.s, w.workers, w.origin)
    && LedgerOk(w.s, w.acked, w.dropped)
  }
}
