// The probe scheduler: launching, finishing and cancelling probe runs.
module ProbeRuns {
  import opened Probes
  import opened Lanes
  import opened LaneLemmas
  import opened Delivery
  import opened Reporter

  lemma SameProbeIsEquivalence(a: Definition, b: Definition, c: Definition)
    ensures SameProbe(a, a)
    ensures SameProbe(a, b) ==> SameProbe(b, a)
    ensures SameProbe(a, b) && SameProbe(b, c) ==> SameProbe(a, c)
  {
  }

  // ---------------------------------------------------------------- picking

  // Best is an earliest-due eligible task, and finds one whenever there is one.
  lemma {:induction false} BestIsEarliest(l: Lane, tasks: seq<Task>)
    ensures Best(l, tasks).Nothing? <==> forall t :: t in tasks ==> !Eligible(l, t)
    ensures var best := Best(l, tasks);
            best.Pick? ==>
              && best.task in tasks && Eligible(l, best.task) && best.due == Due(l, best.task)
              && forall t :: t in tasks && Eligible(l, t) ==> best.due <= Due(l, t)
  {
    if tasks != [] {
      var front, last := tasks[..|tasks| - 1], tasks[|tasks| - 1];
      BestIsEarliest(l, front);
      assert tasks == front + [last];
    }
  }

  ghost predicate EarliestDue(s: State, task: Task, kind: Kind) {
    && task in LaneOf(s, kind).tasks
    && Eligible(LaneOf(s, kind), task)
    && forall k, t :: t in LaneOf(s, k).tasks && Eligible(LaneOf(s, k), t) ==>
         Due(LaneOf(s, kind), task) <= Due(LaneOf(s, k), t)
  }

  // A decision to start picks an earliest-due task over both lanes that is due;
  // on a tie between the lanes the preferred one goes first. A decision not to
  // start means that no eligible task is due.
  lemma DecideIsEarliest(s: State, now: nat)
    ensures match Decide(s, now)
            case NoneEligible => forall k, t :: t in LaneOf(s, k).tasks ==> !Eligible(LaneOf(s, k), t)
            case NotBefore(due) =>
              && due > now
              && (exists k, t :: t in LaneOf(s, k).tasks && Eligible(LaneOf(s, k), t) && Due(LaneOf(s, k), t) == due)
              && (forall k, t :: t in LaneOf(s, k).tasks && Eligible(LaneOf(s, k), t) ==> due <= Due(LaneOf(s, k), t))
            case Start(kind, task, tie) =>
              && EarliestDue(s, task, kind) && Due(LaneOf(s, kind), task) <= now
              && (tie ==> kind == if s.preferWebsite then WebsiteKind else PingKind)
              && (tie <==> (exists other, t :: other != kind && t in LaneOf(s, other).tasks
                              && Eligible(LaneOf(s, other), t) && Due(LaneOf(s, other), t) == Due(LaneOf(s, kind), task)))
  {
    BestIsEarliest(s.ping, s.ping.tasks);
    BestIsEarliest(s.website, s.website.tasks);
    var ping, website := Best(s.ping, s.ping.tasks), Best(s.website, s.website.tasks);
    match Decide(s, now)
    case NoneEligible =>
    case NotBefore(due) =>
      if ping.Pick? && ping.due == due {
        assert ping.task in LaneOf(s, PingKind).tasks;
      } else {
        assert website.task in LaneOf(s, WebsiteKind).tasks;
      }
    case Start(kind, task, tie) =>
      if tie {
        var other := if kind == PingKind then WebsiteKind else PingKind;
        var t := if kind == PingKind then website.task else ping.task;
        assert other != kind && t in LaneOf(s, other).tasks;
      }
  }

  // -------------------------------------------------------------- launching

  ghost predicate SameQueues(s: State, s': State) {
    && s'.nextResultID == s.nextResultID && s'.retryQueue == s.retryQueue && s'.cancelled == s.cancelled
    && forall kind :: LaneOf(s', kind).pending == LaneOf(s, kind).pending
                      && LaneOf(s', kind).order == LaneOf(s, kind).order && LaneOf(s', kind).tasks == LaneOf(s, kind).tasks
  }

  lemma DecideStartsEligible(s: State, now: nat)
    requires Decide(s, now).Start?
    ensures var d := Decide(s, now); d.task in LaneOf(s, d.kind).tasks && Eligible(LaneOf(s, d.kind), d.task)
  {
    BestIsEarliest(s.ping, s.ping.tasks);
    BestIsEarliest(s.website, s.website.tasks);
  }

  lemma StartRunningKeeps(l: Lane, held: seq<Report>, kind: Kind, next: nat, id: int, token: nat, now: nat)
    requires LaneOk(l, held, kind, next) && id !in l.pending
    ensures LaneOk(l.(running := l.running[id := token], lastRun := l.lastRun[id := now]), held, kind, next)
  {
    hide HeldOk;
  }

  lemma LaunchKeepsLanes(s: State, held: seq<Report>, kind: Kind, task: Task, tie: bool, now: nat)
    requires LanesOk(s, held) && Eligible(LaneOf(s, kind), task)
    ensures LanesOk(Launch(s, kind, task, tie, now).0, held) && SameQueues(s, Launch(s, kind, task, tie, now).0)
  {
    hide LaneOk;
    StartRunningKeeps(LaneOf(s, kind), held, kind, s.nextResultID, task.id, s.nextToken, now);
  }

  lemma LaunchKeepsRuns(s: State, workers: set<Worker>, kind: Kind, task: Task, tie: bool, now: nat)
    requires RunsOk(s, workers) && s.activeProbes < MAX_CONCURRENT_PROBES && Eligible(LaneOf(s, kind), task)
    ensures RunsOk(Launch(s, kind, task, tie, now).0, workers + {Launch(s, kind, task, tie, now).1})
  {
    var (s1, worker) := Launch(s, kind, task, tie, now);
    var workers' := workers + {worker};
    assert worker in workers';
    forall x | x in workers'
      ensures RunningAs(s1, x)
    {
      if x in workers {
        assert RunningAs(s, x);
      }
    }
    forall k, id | id in LaneOf(s1, k).running
      ensures HasWorker(workers', k, id)
    {
      if id in LaneOf(s, k).running {
        assert HasWorker(workers, k, id);
        var x :| x in workers && x.kind == k && x.task.id == id;
        assert x in workers';
      }
    }
    forall x, y | x in workers' && y in workers' && x.token == y.token
      ensures x == y
    {
      if x in workers { assert RunningAs(s, x); }
      if y in workers { assert RunningAs(s, y); }
    }
  }

  lemma LaunchKeepsFidelity(s: State, workers: set<Worker>, origin: map<nat, Definition>, kind: Kind, task: Task, tie: bool, now: nat)
    requires FidelityOk(s, workers, origin) && task in LaneOf(s, kind).tasks
    ensures FidelityOk(Launch(s, kind, task, tie, now).0, workers + {Launch(s, kind, task, tie, now).1}, origin)
  {
    var (s1, worker) := Launch(s, kind, task, tie, now);
    SameProbeIsEquivalence(task.definition, task.definition, task.definition);
    assert Backed(LaneOf(s1, kind).tasks, task.id, task.definition);
    forall k, id | id in LaneOf(s1, k).pending
      ensures ResultBacked(LaneOf(s1, k), origin, id)
    {
      assert ResultBacked(LaneOf(s, k), origin, id);
    }
  }

  function Spawned(s: State, now: nat): set<Worker> {
    set x | x in LaunchDue(s, now).1
  }

  lemma SpawnedUnfolds(s: State, now: nat)
    ensures
      if s.activeProbes < MAX_CONCURRENT_PROBES && !s.closing && Decide(s, now).Start? then
        var (s1, worker) := Launch(s, Decide(s, now).kind, Decide(s, now).task, Decide(s, now).tie, now);
        LaunchDue(s, now).0 == LaunchDue(s1, now).0 && Spawned(s, now) == {worker} + Spawned(s1, now)
      else
        LaunchDue(s, now).0 == s && Spawned(s, now) == {}
  {
    if s.activeProbes < MAX_CONCURRENT_PROBES && !s.closing && Decide(s, now).Start? {
      var (s1, worker) := Launch(s, Decide(s, now).kind, Decide(s, now).task, Decide(s, now).tie, now);
      assert LaunchDue(s, now).1 == [worker] + LaunchDue(s1, now).1;
    }
  }

  lemma {:induction false} LaunchDueKeepsRuns(s: State, workers: set<Worker>, now: nat)
    requires RunsOk(s, workers)
    ensures RunsOk(LaunchDue(s, now).0, workers + Spawned(s, now))
    decreases MAX_CONCURRENT_PROBES - s.activeProbes
  {
    hide Decide, RunningAs, HasWorker;
    SpawnedUnfolds(s, now);
    if s.activeProbes < MAX_CONCURRENT_PROBES && !s.closing && Decide(s, now).Start? {
      var Start(kind, task, tie) := Decide(s, now);
      DecideStartsEligible(s, now);
      LaunchKeepsRuns(s, workers, kind, task, tie, now);
      var (s1, worker) := Launch(s, kind, task, tie, now);
      LaunchDueKeepsRuns(s1, workers + {worker}, now);
      assert workers + Spawned(s, now) == (workers + {worker}) + Spawned(s1, now);
    } else {
      assert workers + Spawned(s, now) == workers;
    }
  }

  lemma {:induction false} LaunchDueKeepsFidelity(s: State, workers: set<Worker>, origin: map<nat, Definition>, now: nat)
    requires FidelityOk(s, workers, origin)
    ensures FidelityOk(LaunchDue(s, now).0, workers + Spawned(s, now), origin)
    decreases MAX_CONCURRENT_PROBES - s.activeProbes
  {
    SpawnedUnfolds(s, now);
    if s.activeProbes < MAX_CONCURRENT_PROBES && !s.closing && Decide(s, now).Start? {
      var Start(kind, task, tie) := Decide(s, now);
      DecideStartsEligible(s, now);
      LaunchKeepsFidelity(s, workers, origin, kind, task, tie, now);
      var (s1, worker) := Launch(s, kind, task, tie, now);
      LaunchDueKeepsFidelity(s1, workers + {worker}, origin, now);
      assert workers + Spawned(s, now) == (workers + {worker}) + Spawned(s1, now);
    } else {
      assert workers + Spawned(s, now) == workers;
    }
  }

  lemma {:induction false} LaunchDueKeepsLanes(s: State, held: seq<Report>, now: nat)
    requires LanesOk(s, held)
    ensures LanesOk(LaunchDue(s, now).0, held) && SameQueues(s, LaunchDue(s, now).0)
    decreases MAX_CONCURRENT_PROBES - s.activeProbes
  {
    SpawnedUnfolds(s, now);
    if s.activeProbes < MAX_CONCURRENT_PROBES && !s.closing && Decide(s, now).Start? {
      var Start(kind, task, tie) := Decide(s, now);
      DecideStartsEligible(s, now);
      LaunchKeepsLanes(s, held, kind, task, tie, now);
      var (s1, worker) := Launch(s, kind, task, tie, now);
      LaunchDueKeepsLanes(s1, held, now);
    }
  }

  ghost predicate SomeEligible(s: State) {
    exists k, t :: t in LaneOf(s, k).tasks && Eligible(LaneOf(s, k), t)
  }

  // The earliest time at which an eligible task is due.
  ghost predicate EarliestTime(s: State, due: nat) {
    && (exists k, t :: t in LaneOf(s, k).tasks && Eligible(LaneOf(s, k), t) && Due(LaneOf(s, k), t) == due)
    && (forall k, t :: t in LaneOf(s, k).tasks && Eligible(LaneOf(s, k), t) ==> due <= Due(LaneOf(s, k), t))
  }

  // On return four probes run, the agent is closing, or nothing eligible is
  // due. The wake-up time is set exactly when an eligible task is left to wait
  // for, and is then the earliest due time, in the future.
  lemma {:induction false} LaunchDueExhausts(s: State, now: nat)
    ensures var (s', spawned, wake) := LaunchDue(s, now);
            var stopped := s'.activeProbes >= MAX_CONCURRENT_PROBES || s'.closing;
            && (stopped || forall k, t :: t in LaneOf(s', k).tasks && Eligible(LaneOf(s', k), t) ==> Due(LaneOf(s', k), t) > now)
            && (wake > 0 <==> !stopped && SomeEligible(s'))
            && (wake > 0 ==> wake > now && EarliestTime(s', wake))
    decreases MAX_CONCURRENT_PROBES - s.activeProbes
  {
    DecideIsEarliest(s, now);
    if s.activeProbes < MAX_CONCURRENT_PROBES && !s.closing && Decide(s, now).Start? {
      var Start(kind, task, tie) := Decide(s, now);
      LaunchDueExhausts(Launch(s, kind, task, tie, now).0, now);
    }
  }

  // Every run was an earliest-due choice at its turn: the k-th spawned worker
  // runs an earliest-due, due task of the state its predecessors left.
  ghost predicate FairTurns(s: State, spawned: seq<Worker>, now: nat)
    decreases |spawned|
  {
    spawned == [] ||
    (&& Decide(s, now).Start? && Decide(s, now).kind == spawned[0].kind && Decide(s, now).task == spawned[0].task
     && EarliestDue(s, spawned[0].task, spawned[0].kind)
     && Due(LaneOf(s, spawned[0].kind), spawned[0].task) <= now
     && FairTurns(Launch(s, spawned[0].kind, spawned[0].task, Decide(s, now).tie, now).0, spawned[1..], now))
  }

  lemma {:induction false} LaunchDueIsFair(s: State, now: nat)
    ensures FairTurns(s, LaunchDue(s, now).1, now)
    decreases MAX_CONCURRENT_PROBES - s.activeProbes
  {
    if s.activeProbes < MAX_CONCURRENT_PROBES && !s.closing && Decide(s, now).Start? {
      DecideIsEarliest(s, now);
      var Start(kind, task, tie) := Decide(s, now);
      var (s1, worker) := Launch(s, kind, task, tie, now);
      LaunchDueIsFair(s1, now);
      assert LaunchDue(s, now).1[1..] == LaunchDue(s1, now).1;
    }
  }

  // ------------------------------------------------------------ alternation

  // The decisions behind the runs that a launch loop spawns.
  function Turns(s: State, now: nat): seq<Decision>
    decreases MAX_CONCURRENT_PROBES - s.activeProbes
  {
    if s.activeProbes >= MAX_CONCURRENT_PROBES || s.closing || !Decide(s, now).Start? then []
    else
      var d := Decide(s, now);
      [d] + Turns(Launch(s, d.kind, d.task, d.tie, now).0, now)
  }

  lemma {:induction false} TurnsAreSpawned(s: State, now: nat)
    ensures var spawned := LaunchDue(s, now).1;
            |Turns(s, now)| == |spawned| && forall i :: 0 <= i < |spawned| ==>
              Turns(s, now)[i].Start? && Turns(s, now)[i].kind == spawned[i].kind && Turns(s, now)[i].task == spawned[i].task
    decreases MAX_CONCURRENT_PROBES - s.activeProbes
  {
    if s.activeProbes < MAX_CONCURRENT_PROBES && !s.closing && Decide(s, now).Start? {
      var d := Decide(s, now);
      var (s1, worker) := Launch(s, d.kind, d.task, d.tie, now);
      TurnsAreSpawned(s1, now);
      assert LaunchDue(s, now).1 == [worker] + LaunchDue(s1, now).1;
    }
  }

  predicate IsTie(d: Decision) {
    d.Start? && d.tie
  }

  function Preferred(preferWebsite: bool): Kind {
    if preferWebsite then WebsiteKind else PingKind
  }

  // The preference after these decisions: every tie turns it around.
  function Turned(preferWebsite: bool, turns: seq<Decision>): bool
    decreases |turns|
  {
    if turns == [] then preferWebsite else Turned(if IsTie(turns[0]) then !preferWebsite else preferWebsite, turns[1..])
  }

  // Every tie goes to the lane that was preferred at its turn.
  ghost predicate Alternating(preferWebsite: bool, turns: seq<Decision>) {
    forall i :: 0 <= i < |turns| && IsTie(turns[i]) ==> turns[i].kind == Preferred(Turned(preferWebsite, turns[..i]))
  }

  lemma {:induction false} TurnedAppend(preferWebsite: bool, a: seq<Decision>, b: seq<Decision>)
    ensures Turned(preferWebsite, a + b) == Turned(Turned(preferWebsite, a), b)
    decreases |a|
  {
    if a == [] {
      assert a + b == b;
    } else {
      assert (a + b)[1..] == a[1..] + b;
      TurnedAppend(if IsTie(a[0]) then !preferWebsite else preferWebsite, a[1..], b);
    }
  }

  lemma AlternatingAppend(preferWebsite: bool, a: seq<Decision>, b: seq<Decision>)
    requires Alternating(preferWebsite, a) && Alternating(Turned(preferWebsite, a), b)
    ensures Alternating(preferWebsite, a + b)
  {
    var turns := a + b;
    forall i | 0 <= i < |turns| && IsTie(turns[i])
      ensures turns[i].kind == Preferred(Turned(preferWebsite, turns[..i]))
    {
      if i < |a| {
        assert turns[i] == a[i] && turns[..i] == a[..i];
      } else {
        assert turns[i] == b[i - |a|] && turns[..i] == a + b[..i - |a|];
        TurnedAppend(preferWebsite, a, b[..i - |a|]);
      }
    }
  }

  lemma {:induction false} LoopAlternates(s: State, now: nat)
    ensures Alternating(s.preferWebsite, Turns(s, now))
    ensures LaunchDue(s, now).0.preferWebsite == Turned(s.preferWebsite, Turns(s, now))
    decreases MAX_CONCURRENT_PROBES - s.activeProbes
  {
    if s.activeProbes < MAX_CONCURRENT_PROBES && !s.closing && Decide(s, now).Start? {
      var d := Decide(s, now);
      var s1 := Launch(s, d.kind, d.task, d.tie, now).0;
      DecideIsEarliest(s, now);
      LoopAlternates(s1, now);
      assert [d][..0] == [] && Turned(s.preferWebsite, [d]) == s1.preferWebsite;
      AlternatingAppend(s.preferWebsite, [d], Turns(s1, now));
      TurnedAppend(s.preferWebsite, [d], Turns(s1, now));
    }
  }

  // The launches of one step of the agent, and of a run.
  function StepTurns(w: World, step: Step): seq<Decision> {
    if step.LaunchDueProbes? then Turns(w.s, step.now) else []
  }

  ghost function RunTurns(w: World, steps: seq<Step>): seq<Decision>
    requires Legal(w, steps)
    decreases |steps|
  {
    if steps == [] then [] else StepTurns(w, steps[0]) + RunTurns(Next(w, steps[0]), steps[1..])
  }

  // Only a launch on a tie changes the preferred lane.
  lemma OnlyTiesTurn(w: World, step: Step)
    requires Enabled(w, step)
    ensures Next(w, step).s.preferWebsite == Turned(w.s.preferWebsite, StepTurns(w, step))
    ensures Alternating(w.s.preferWebsite, StepTurns(w, step))
  {
    if step.LaunchDueProbes? {
      LoopAlternates(w.s, step.now);
    } else if step.LeaseRemaining? {
      LeasingKeepsPreference(w.s, w.phase.sample);
    }
  }

  lemma {:induction false} LeasingKeepsPreference(s: State, sample: nat)
    ensures LeaseRest(s, sample).0.preferWebsite == s.preferWebsite
    decreases UnleasedCount(s)
  {
    var (s1, next) := LeaseReport(s, sample);
    if HasResults(next) {
      LeaseShrinks(s.ping, MAX_PING_RESULTS_PER_REPORT);
      LeaseShrinks(s.website, MAX_WEBSITE_RESULTS_PER_REPORT);
      LeasingKeepsPreference(s1, sample);
    }
  }

  lemma {:induction false} RunAlternates(w: World, steps: seq<Step>)
    requires Legal(w, steps)
    ensures Alternating(w.s.preferWebsite, RunTurns(w, steps))
    ensures Run(w, steps).s.preferWebsite == Turned(w.s.preferWebsite, RunTurns(w, steps))
    decreases |steps|
  {
    hide Alternating, Next, Enabled, StepTurns;
    if steps == [] {
      NoTurns(w.s.preferWebsite);
    } else {
      var first, rest := StepTurns(w, steps[0]), RunTurns(Next(w, steps[0]), steps[1..]);
      OnlyTiesTurn(w, steps[0]);
      RunAlternates(Next(w, steps[0]), steps[1..]);
      AlternatingAppend(w.s.preferWebsite, first, rest);
      TurnedAppend(w.s.preferWebsite, first, rest);
    }
  }

  lemma NoTurns(preferWebsite: bool)
    ensures Alternating(preferWebsite, []) && Turned(preferWebsite, []) == preferWebsite
  {
  }

  lemma {:induction false} NoTieNoTurn(preferWebsite: bool, turns: seq<Decision>)
    requires forall i :: 0 <= i < |turns| ==> !IsTie(turns[i])
    ensures Turned(preferWebsite, turns) == preferWebsite
    decreases |turns|
  {
    if turns != [] {
      assert !IsTie(turns[0]);
      NoTieNoTurn(preferWebsite, turns[1..]);
    }
  }

  // Along every run of the agent, whatever happens between the launches and
  // whether they are made by one launch loop or by several: two ties with no
  // tie between them start probes of different kinds.
  lemma TiesAlternate(w: World, steps: seq<Step>, i: nat, j: nat)
    requires Legal(w, steps) && i < j < |RunTurns(w, steps)|
    requires IsTie(RunTurns(w, steps)[i]) && IsTie(RunTurns(w, steps)[j])
    requires forall n :: i < n < j ==> !IsTie(RunTurns(w, steps)[n])
    ensures RunTurns(w, steps)[i].kind != RunTurns(w, steps)[j].kind
  {
    var turns, before := RunTurns(w, steps), w.s.preferWebsite;
    RunAlternates(w, steps);
    var between := turns[i + 1..j];
    assert turns[..j] == turns[..i] + ([turns[i]] + between);
    TurnedAppend(before, turns[..i], [turns[i]] + between);
    TurnedAppend(Turned(before, turns[..i]), [turns[i]], between);
    NoTieNoTurn(!Turned(before, turns[..i]), between);
    assert [turns[i]][1..] == [];
  }

  // -------------------------------------------------------------- finishing

  // The run a goroutine finishes is always the one on record, so its entry
  // goes away and no result is ever dropped as a duplicate.
  lemma FinishKeepsRuns(s: State, workers: set<Worker>, worker: Worker, outcome: Outcome)
    requires RunsOk(s, workers) && worker in workers
    ensures RunsOk(Finish(s, worker, outcome), workers - {worker})
  {
    hide Interrupted;
    var s' := Finish(s, worker, outcome);
    var workers' := workers - {worker};
    assert RunningAs(s, worker);
    var l, l' := LaneOf(s, worker.kind), LaneOf(s', worker.kind);
    assert l'.running == Without(l.running, {worker.task.id});
    assert l'.running.Keys == l.running.Keys - {worker.task.id};
    assert |l'.running.Keys| == |l.running.Keys| - 1;
    forall x | x in workers'
      ensures RunningAs(s', x)
    {
      assert RunningAs(s, x);
    }
    forall k, id | id in LaneOf(s', k).running
      ensures HasWorker(workers', k, id)
    {
      assert HasWorker(workers, k, id);
      var x :| x in workers && x.kind == k && x.task.id == id;
      assert x in workers';
    }
  }

  lemma FinishEffect(s: State, workers: set<Worker>, worker: Worker, outcome: Outcome)
    requires RunsOk(s, workers) && worker in workers
    requires worker.task.id !in LaneOf(s, worker.kind).pending
    ensures var s' := Finish(s, worker, outcome);
            var l := LaneOf(s, worker.kind);
            var l1 := l.(running := Without(l.running, {worker.task.id}));
            && (Interrupted(s, worker.token) ==>
                  s' == WithLane(s, worker.kind, l1).(activeProbes := s.activeProbes - 1))
            && (!Interrupted(s, worker.token) ==>
                  s' == WithLane(s, worker.kind, QueueResult(l1, Result(worker.task.id, outcome), s.nextResultID + 1))
                        .(nextResultID := s.nextResultID + 1, activeProbes := s.activeProbes - 1))
  {
    assert RunningAs(s, worker);
  }

  lemma RunningIsNotPending(s: State, workers: set<Worker>, held: seq<Report>, worker: Worker)
    requires RunsOk(s, workers) && worker in workers && LanesOk(s, held)
    ensures worker.task.id !in LaneOf(s, worker.kind).pending
  {
    assert RunningAs(s, worker);
  }

  lemma StopRunningKeeps(l: Lane, held: seq<Report>, kind: Kind, next: nat, id: int)
    requires LaneOk(l, held, kind, next)
    ensures LaneOk(l.(running := Without(l.running, {id})), held, kind, next)
  {
    assert QueueOk(l, next);
    assert QueueOk(l.(running := Without(l.running, {id})), next);
  }

  function QueueFrom(s: State, kind: Kind, id: int, outcome: Outcome): State {
    var l1 := LaneOf(s, kind).(running := Without(LaneOf(s, kind).running, {id}));
    WithLane(s, kind, QueueResult(l1, Result(id, outcome), s.nextResultID + 1)).(nextResultID := s.nextResultID + 1, activeProbes := s.activeProbes - 1)
  }

  lemma QueueAfterRunKeeps(l: Lane, held: seq<Report>, kind: Kind, next: nat, id: int, outcome: Outcome)
    requires LaneOk(l, held, kind, next) && id !in l.pending
    ensures LaneOk(QueueResult(l.(running := Without(l.running, {id})), Result(id, outcome), next + 1), held, kind, next + 1)
  {
    StopRunningKeeps(l, held, kind, next, id);
    QueueKeeps(l.(running := Without(l.running, {id})), held, kind, next, Result(id, outcome));
  }

  lemma QueueFromKeepsLanes(s: State, held: seq<Report>, kind: Kind, id: int, outcome: Outcome)
    requires LanesOk(s, held) && id !in LaneOf(s, kind).pending
    ensures LanesOk(QueueFrom(s, kind, id, outcome), held)
  {
    hide LaneOk, QueueResult;
    var s' := QueueFrom(s, kind, id, outcome);
    match kind {
      case PingKind =>
        QueueAfterRunKeeps(s.ping, held, PingKind, s.nextResultID, id, outcome);
        LaterNumberKeeps(s.website, held, WebsiteKind, s.nextResultID);
        assert s'.ping == QueueResult(s.ping.(running := Without(s.ping.running, {id})), Result(id, outcome), s.nextResultID + 1);
        assert s'.website == s.website;
      case WebsiteKind =>
        QueueAfterRunKeeps(s.website, held, WebsiteKind, s.nextResultID, id, outcome);
        LaterNumberKeeps(s.ping, held, PingKind, s.nextResultID);
        assert s'.website == QueueResult(s.website.(running := Without(s.website.running, {id})), Result(id, outcome), s.nextResultID + 1);
        assert s'.ping == s.ping;
    }
  }

  lemma QueueFromKeepsFidelity(s: State, workers: set<Worker>, origin: map<nat, Definition>,
                               kind: Kind, task: Task, outcome: Outcome)
    requires FidelityOk(s, workers, origin)
    requires task.id !in LaneOf(s, kind).pending && Backed(LaneOf(s, kind).tasks, task.id, task.definition)
    requires Answers(outcome, task.definition)
    requires forall k, id :: id in LaneOf(s, k).pending ==> LaneOf(s, k).pending[id].sequence <= s.nextResultID
    ensures FidelityOk(QueueFrom(s, kind, task.id, outcome), workers, origin[s.nextResultID + 1 := task.definition])
  {
    hide Answers, SameProbe;
    var s' := QueueFrom(s, kind, task.id, outcome);
    var origin' := origin[s.nextResultID + 1 := task.definition];
    forall k, id | id in LaneOf(s', k).pending
      ensures ResultBacked(LaneOf(s', k), origin', id)
    {
      if k == kind && id == task.id {
      } else {
        assert id in LaneOf(s, k).pending && LaneOf(s', k).pending[id] == LaneOf(s, k).pending[id];
        assert ResultBacked(LaneOf(s, k), origin, id);
      }
    }
  }

  lemma FinishKeepsLanes(s: State, workers: set<Worker>, held: seq<Report>, worker: Worker, outcome: Outcome)
    requires RunsOk(s, workers) && worker in workers
    requires LanesOk(s, held)
    ensures LanesOk(Finish(s, worker, outcome), held)
  {
    RunningIsNotPending(s, workers, held, worker);
    FinishEffect(s, workers, worker, outcome);
    if Interrupted(s, worker.token) {
      StopRunningKeeps(LaneOf(s, worker.kind), held, worker.kind, s.nextResultID, worker.task.id);
    } else {
      QueueFromKeepsLanes(s, held, worker.kind, worker.task.id, outcome);
    }
  }

  lemma FinishKeepsFidelity(s: State, workers: set<Worker>, origin: map<nat, Definition>, held: seq<Report>,
                            worker: Worker, outcome: Outcome)
    requires RunsOk(s, workers) && worker in workers && LanesOk(s, held)
    requires FidelityOk(s, workers, origin)
    requires Answers(outcome, worker.task.definition)
    ensures Finish(s, worker, outcome).nextResultID == if Interrupted(s, worker.token) then s.nextResultID else s.nextResultID + 1
    ensures FidelityOk(Finish(s, worker, outcome), workers - {worker},
                       if Interrupted(s, worker.token) then origin else origin[s.nextResultID + 1 := worker.task.definition])
  {
    hide RunsOk, LanesOk, Backed, Answers;
    RunningIsNotPending(s, workers, held, worker);
    FinishEffect(s, workers, worker, outcome);
    var rest := workers - {worker};
    if Interrupted(s, worker.token) {
      assert FidelityOk(s, rest, origin);
      forall k, id | id in LaneOf(Finish(s, worker, outcome), k).pending
        ensures ResultBacked(LaneOf(Finish(s, worker, outcome), k), origin, id)
      {
        assert ResultBacked(LaneOf(s, k), origin, id);
      }
    } else {
      assert FidelityOk(s, rest, origin);
      QueueFromKeepsFidelity(s, rest, origin, worker.kind, worker.task, outcome);
    }
  }

  // ------------------------------------------------------------ policy change

  // What survives a policy change is defined by the new policy as it was by the old.
  lemma BackedSurvives(prior: seq<Task>, tasks: seq<Task>, id: int, definition: Definition)
    requires Backed(prior, id, definition)
    requires id !in SupersededIds(prior, tasks)
    ensures Backed(tasks, id, definition)
  {
    var t :| t in prior && t.id == id && SameProbe(t.definition, definition);
    var byID := ByID(tasks);
    assert !Superseded(t, byID);
    var next := byID[id];
    SameProbeIsEquivalence(t.definition, next.definition, next.definition);
    SameProbeIsEquivalence(next.definition, t.definition, definition);
    assert next in tasks && next.id == id;
  }

  lemma ApplyTasksKeepsFidelity(l: Lane, origin: map<nat, Definition>, tasks: seq<Task>, id: int)
    requires id in ApplyTasks(l, tasks).pending
    requires ResultBacked(l, origin, id)
    ensures ResultBacked(ApplyTasks(l, tasks), origin, id)
  {
    BackedSurvives(l.tasks, tasks, id, origin[l.pending[id].sequence]);
  }

  lemma PolicyKeepsRuns(s: State, workers: set<Worker>, policy: Policy)
    requires RunsOk(s, workers)
    ensures RunsOk(ApplyPolicy(s, policy), workers)
  {
    var s' := ApplyPolicy(s, policy);
    assert forall kind :: LaneOf(s', kind).running == LaneOf(s, kind).running;
    forall x | x in workers
      ensures RunningAs(s', x)
    {
      assert RunningAs(s, x);
    }
    forall kind, id | id in LaneOf(s', kind).running
      ensures HasWorker(workers, kind, id)
    {
      assert id in LaneOf(s, kind).running;
    }
  }

  lemma SupersededIsCancelled(l: Lane, tasks: seq<Task>, id: int)
    requires id in l.running
    ensures id in SupersededIds(l.tasks, tasks) ==> l.running[id] in CancelledBy(l, tasks)
  {
  }

  lemma PolicyKeepsFidelity(s: State, workers: set<Worker>, origin: map<nat, Definition>, policy: Policy)
    requires RunsOk(s, workers) && FidelityOk(s, workers, origin)
    ensures FidelityOk(ApplyPolicy(s, policy), workers, origin)
  {
    var s' := ApplyPolicy(s, policy);
    var interval := PolicyInterval(s, policy);
    var pings, websites := WithInterval(policy.pings, interval), WithInterval(policy.websites, interval);
    forall k, id | id in LaneOf(s', k).pending
      ensures ResultBacked(LaneOf(s', k), origin, id)
    {
      assert id in LaneOf(s, k).pending;
      ApplyTasksKeepsFidelity(LaneOf(s, k), origin, if k == PingKind then pings else websites, id);
    }
    forall x | x in workers && x.token !in s'.cancelled
      ensures Backed(LaneOf(s', x.kind).tasks, x.task.id, x.task.definition)
    {
      assert RunningAs(s, x);
      var tasks := if x.kind == PingKind then pings else websites;
      var l := LaneOf(s, x.kind);
      SupersededIsCancelled(l, tasks, x.task.id);
      BackedSurvives(l.tasks, tasks, x.task.id, x.task.definition);
    }
    forall token | token in s'.cancelled
      ensures token < s'.nextToken
    {
      if token !in s.cancelled {
        CancelledIsRunning(s, workers, PingKind, pings, token);
        CancelledIsRunning(s, workers, WebsiteKind, websites, token);
      }
    }
  }

  lemma CancelledIsRunning(s: State, workers: set<Worker>, kind: Kind, tasks: seq<Task>, token: nat)
    requires RunsOk(s, workers)
    ensures token in CancelledBy(LaneOf(s, kind), tasks) ==> token < s.nextToken
  {
    var l := LaneOf(s, kind);
    if token in CancelledBy(l, tasks) {
      var id :| id in l.running && l.running[id] == token;
      assert HasWorker(workers, kind, id);
      var x :| x in workers && x.kind == kind && x.task.id == id;
      assert RunningAs(s, x);
    }
  }
}
