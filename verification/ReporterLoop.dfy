// The reporter goroutine as an object: its local report slices and the steps
// of a WebSocket session and of HTTP delivery, each proved to be the step (or
// the run of steps) of the Reporter state machine.
module ReporterLoop {
  import opened Probes
  import opened Lanes
  import opened Delivery
  import opened Reporter
  import opened DeliveryProofs
  import opened DeliveryProgress
  import opened AgentState

  // One delivery: batches go out in order until one is rejected. The responses
  // of the server are an input; a missing one is a failure to send.
  function Deliver(w: World, responses: seq<bool>): World
    requires w.http && (w.phase == Ready || w.phase == Delivering)
    decreases |w.pending|
  {
    if w.pending == [] then w
    else
      var sent := Next(w, HttpSend);
      if responses == [] || !responses[0] then Next(sent, HttpRejected)
      else Deliver(Next(sent, HttpAccepted), responses[1..])
  }

  lemma {:induction false} DeliverIsARun(w: World, responses: seq<bool>) returns (steps: seq<Step>)
    requires w.http && (w.phase == Ready || w.phase == Delivering)
    ensures Legal(w, steps) && Run(w, steps) == Deliver(w, responses)
    decreases |w.pending|
  {
    if w.pending == [] {
      steps := [];
    } else {
      var sent := Next(w, HttpSend);
      var rest: seq<Step>;
      var reply := HttpRejected;
      if responses == [] || !responses[0] {
        rest := [];
      } else {
        reply := HttpAccepted;
        rest := DeliverIsARun(Next(sent, HttpAccepted), responses[1..]);
      }
      Prepend(sent, reply, rest);
      Prepend(w, HttpSend, [reply] + rest);
      steps := [HttpSend] + ([reply] + rest);
    }
  }

  predicate AllAccepted(count: nat, responses: seq<bool>)
    decreases count
  {
    count == 0 || (responses != [] && responses[0]
                   && AllAccepted(if count < MAX_REPORTS_PER_ENVELOPE then 0 else count - MAX_REPORTS_PER_ENVELOPE, responses[1..]))
  }

  function Exchange(w: World, accepted: bool): World
    requires Enabled(w, HttpSend)
  {
    Next(Next(w, HttpSend), if accepted then HttpAccepted else HttpRejected)
  }

  lemma ExchangeIs(w: World)
    requires Enabled(w, HttpSend)
    ensures var count := Envelope(w.pending);
            var s := Acknowledge(w.s, CurrentReports(w.s, w.pending[..count]));
            var rest := w.pending[count..];
            && Exchange(w, false) == w.(s := RetryReports(w.s, w.pending), pending := [], phase := Ready)
            && Exchange(w, true) == w.(s := s, pending := rest, phase := if rest == [] then Ready else Delivering,
                                       acked := w.acked + (PendingNumbers(w.s) - PendingNumbers(s)))
  {
    hide Acknowledge, RetryReports, PendingNumbers, CurrentReports;
  }

  lemma DeliverUnfolds(w: World, responses: seq<bool>)
    requires w.http && (w.phase == Ready || w.phase == Delivering) && w.pending != []
    ensures if responses == [] || !responses[0] then
              Deliver(w, responses) == Exchange(w, false) && !AllAccepted(|w.pending|, responses)
            else
              && Deliver(w, responses) == Deliver(Exchange(w, true), responses[1..])
              && AllAccepted(|w.pending|, responses) == AllAccepted(|Exchange(w, true).pending|, responses[1..])
              && |Exchange(w, true).pending| < |w.pending|
              && Exchange(w, true).http && (Exchange(w, true).phase == Ready || Exchange(w, true).phase == Delivering)
  {
  }

  lemma DeliverEnds(w: World, responses: seq<bool>)
    requires w.http && (w.phase == Ready || w.phase == Delivering) && w.pending == []
    ensures Deliver(w, responses) == w && AllAccepted(0, responses)
  {
  }

  // A batch that is accepted takes its results out of the queue and nothing else.
  lemma AcceptedForward(w: World)
    requires Enabled(w, HttpSend) && AllLeased(w.s)
    ensures var next := Exchange(w, true); Forward(w, next) && AllLeased(next.s) && next.s.retryQueue == w.s.retryQueue
  {
    var batch := CurrentReports(w.s, w.pending[..Envelope(w.pending)]);
    ExchangeIs(w);
    AckNumbers(w.s.ping, batch, PingKind);
    AckNumbers(w.s.website, batch, WebsiteKind);
    AckKeepsLeased(w.s, batch);
  }

  lemma ExchangeReachable(w: World, accepted: bool)
    requires Reachable(w) && Enabled(w, HttpSend)
    ensures Reachable(Exchange(w, accepted))
  {
    ReachableNext(w, HttpSend);
    ReachableNext(Next(w, HttpSend), if accepted then HttpAccepted else HttpRejected);
  }

  lemma NothingInFlight(w: World)
    requires Reachable(w) && w.http
    ensures w.inFlight == []
  {
    ReachableOk(w);
  }

  lemma {:induction false} DeliverDrains(w: World, responses: seq<bool>)
    requires Reachable(w) && w.http && (w.phase == Ready || w.phase == Delivering) && w.s.retryQueue == [] && AllLeased(w.s)
    requires AllAccepted(|w.pending|, responses)
    ensures Drained(w, Deliver(w, responses))
    decreases |w.pending|
  {
    hide Reachable, Drained, Forward, AllLeased, Deliver, AllAccepted, Exchange;
    if w.pending == [] {
      DeliverEnds(w, responses);
      NothingInFlight(w);
      NothingHeldNothingPending(w);
    } else {
      DeliverUnfolds(w, responses);
      AcceptedForward(w);
      ExchangeReachable(w, true);
      DeliverDrains(Exchange(w, true), responses[1..]);
      ForwardDrained(w, Exchange(w, true), Deliver(w, responses));
    }
  }

  // No result is ever stranded over HTTP either: from every reachable state of
  // an idle reporter, preparing reports and one delivery whose batches are all
  // accepted gets every pending result acknowledged.
  lemma HttpDeliversEverything(w: World, sample: nat, responses: seq<bool>)
    requires Reachable(w) && w.http && w.phase == Ready
    requires AllAccepted(|Prepared(w, sample).pending|, responses)
    ensures var end := Deliver(Prepared(w, sample), responses);
            Drained(w, end) && end.acked == w.acked + PendingNumbers(w.s)
  {
    hide Reachable, AllLeased, Deliver, AllAccepted, Prepared;
    PreparedKeepsNumbers(w, sample);
    PreparedLeasesAll(w, sample);
    var end := Deliver(Prepared(w, sample), responses);
    DeliverDrains(Prepared(w, sample), responses);
    ForwardDrained(w, Prepared(w, sample), end);
    assert PendingNumbers(end.s) == {};
  }

  lemma PreparedIs(w: World, sample: nat, s1: State, retry: seq<Report>, s2: State, first: Report, s3: State, rest: seq<Report>)
    requires Enabled(w, TakeRetryReports)
    requires TakeRetry(w.s) == (s1, retry) && LeaseReport(s1, sample) == (s2, first) && LeaseRest(s2, sample) == (s3, rest)
    ensures Prepared(w, sample) == w.(s := s3, pending := w.pending + retry + ([first] + rest), phase := Ready)
  {
    hide TakeRetry, LeaseReport, LeaseRest;
    var w1 := w.(s := s1, pending := w.pending + retry, phase := Fetched);
    assert Next(w, TakeRetryReports) == w1;
    var w2 := w.(s := s2, pending := w.pending + retry + [first], phase := Opened(sample));
    assert Next(w1, LeaseFirst(sample)) == w2;
    assert w.pending + retry + [first] + rest == w.pending + retry + ([first] + rest);
  }

  class ReporterAgent {
    const state: PingReportState
    const http: bool
    var connected: bool
    var phase: Phase
    var pending: seq<Report>
    var inFlight: seq<Report>
    var uploadReady: bool
    ghost var workers: set<Worker>
    ghost var origin: map<nat, Definition>
    ghost var acked: set<nat>
    ghost var dropped: set<nat>

    ghost function View(): World
      reads this, state
    {
      World(state.View(), workers, http, connected, phase, pending, inFlight, uploadReady, origin, acked, dropped)
    }

    constructor (http: bool)
      ensures View() == Initial(http) && fresh(state)
    {
      this.http := http;
      state := new PingReportState();
      connected, phase, pending, inFlight, uploadReady := false, Ready, [], [], false;
      workers, origin, acked, dropped := {}, map[], {}, {};
    }

    method Connect()
      requires Enabled(View(), Step.Connect)
      modifies this
      ensures View() == Next(old(View()), Step.Connect)
    {
      connected, pending, inFlight, uploadReady := true, [], [], true;
    }

    // prepareReportsWithPing, appended to what is pending.
    method Prepare(sample: nat)
      requires state.Valid() && Enabled(View(), TakeRetryReports)
      modifies this, state
      ensures View() == Prepared(old(View()), sample) && state.Valid()
    {
      ghost var before := View();
      var retry := state.TakeRetryReports();
      ghost var s1 := state.View();
      var first := state.AppendPendingResults(sample);
      ghost var s2 := state.View();
      var rest := state.AppendPendingReports(first);
      PreparedIs(before, sample, s1, retry, s2, first, state.View(), LeaseRest(s2, sample).1);
      pending := pending + retry + rest;
    }

    method SampleTick()
      requires Enabled(View(), Step.SampleTick)
      modifies this
      ensures View() == Next(old(View()), Step.SampleTick)
    {
      uploadReady := true;
    }

    method UploadTick()
      requires Enabled(View(), Step.UploadTick)
      modifies this
      ensures View() == Next(old(View()), Step.UploadTick)
    {
      uploadReady := |pending| > 0;
    }

    // Hands the next batch to the socket; whether the write succeeds decides
    // only whether the session goes on.
    method Flush()
      requires Enabled(View(), Step.Flush)
      modifies this
      ensures View() == Next(old(View()), Step.Flush)
    {
      if !uploadReady || |inFlight| > 0 || |pending| == 0 {
        return;
      }
      var count := if |pending| < MAX_REPORTS_PER_ENVELOPE then |pending| else MAX_REPORTS_PER_ENVELOPE;
      inFlight := state.CurrentReportResults(pending[..count]);
      pending := pending[count..];
      uploadReady := |pending| > 0;
    }

    method Acknowledged()
      requires Enabled(View(), Ack)
      modifies this, state
      ensures View() == Next(old(View()), Ack)
    {
      if |inFlight| > 0 {
        ghost var before := state.View();
        state.AcknowledgeReports(inFlight);
        acked := acked + (PendingNumbers(before) - PendingNumbers(state.View()));
        inFlight := [];
      }
    }

    method PolicyArrived(policy: Policy)
      requires Enabled(View(), NewPolicy(policy))
      modifies this, state
      ensures View() == Next(old(View()), NewPolicy(policy))
    {
      ghost var before := state.View();
      state.ApplyPolicy(policy);
      dropped := dropped + (PendingNumbers(before) - PendingNumbers(state.View()));
    }

    // The deferred end of a session: in-flight reports first, then pending ones.
    method EndSession()
      requires Enabled(View(), EndInFlight)
      modifies this, state
      ensures View() == Next(Next(old(View()), EndInFlight), EndPending)
    {
      hide Delivery.RetryReports;
      state.RetryReports(inFlight);
      inFlight, connected := [], false;
      state.RetryReports(pending);
      pending := [];
    }

    // One HTTP request and its response.
    method ExchangeBatch(accepted: bool)
      requires Enabled(View(), HttpSend)
      modifies this, state
      ensures View() == Exchange(old(View()), accepted)
    {
      hide Exchange, Acknowledge, Delivery.RetryReports, PendingNumbers, CurrentReports;
      ExchangeIs(View());
      ghost var before := state.View();
      var count := if |pending| < MAX_REPORTS_PER_ENVELOPE then |pending| else MAX_REPORTS_PER_ENVELOPE;
      var batch := state.CurrentReportResults(pending[..count]);
      if accepted {
        state.AcknowledgeReports(batch);
        acked := acked + (PendingNumbers(before) - PendingNumbers(state.View()));
        pending := pending[count..];
        phase := if pending == [] then Ready else Delivering;
      } else {
        state.RetryReports(pending);
        pending, phase := [], Ready;
      }
    }

    method DeliverHTTPReports(responses: seq<bool>) returns (ok: bool)
      requires http && phase == Ready
      modifies this, state
      ensures View() == Deliver(old(View()), responses)
      ensures ok <==> AllAccepted(|old(pending)|, responses)
    {
      hide Deliver, Exchange, AllAccepted;
      ghost var goal, all := Deliver(View(), responses), AllAccepted(|pending|, responses);
      ok := true;
      var left := responses;
      while |pending| > 0
        invariant http && (phase == Ready || phase == Delivering)
        invariant Deliver(View(), left) == goal && AllAccepted(|pending|, left) == all
        decreases |pending|
      {
        DeliverUnfolds(View(), left);
        if |left| == 0 || !left[0] {
          ExchangeBatch(false);
          ok := false;
          return;
        }
        ExchangeBatch(true);
        left := left[1..];
      }
      DeliverEnds(View(), left);
    }
  }
}
