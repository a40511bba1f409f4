// Whole runs of saves, failures, crashes and restarts over one directory.
module TrafficRuns {
  import opened TrafficFiles
  import opened TrafficCrash
  import opened TrafficSaves
  import opened TrafficWriter

  // --------------------------------------------------------- one save, any ending

  // A save that stopped anywhere leaves the old generation while its staging
  // file was incomplete and the new one afterwards.
  lemma StoppedSaveSafe(dir: Directory, generation: Option<TrafficState>, listing: seq<Name>, state: TrafficState, scratch: Scratch,
                        k: nat, dir': Directory)
    requires CanSave(dir, generation, listing, state, scratch)
    requires Stopped(dir, CommitOps(dir, listing, state, scratch), k, dir')
    ensures Holds(dir', if k < |Head(dir, listing, state, scratch)| then generation else Some(SavedAs(dir, listing, state)))
  {
    HoldsReads(dir, generation, listing);
    var ops := CommitOps(dir, listing, state, scratch);
    var all := SaveOps(dir, listing, state, scratch, []);
    assert all == ops + RemoveOps(Candidates([]));
    assert all[..k] == ops[..k];
    assert k > 0 ==> all[k - 1] == ops[k - 1];
    if dir' == ApplyAll(dir, ops[..k]) {
      CrashSafety(dir, generation, listing, state, scratch, [], k);
    } else {
      FailureSafety(dir, generation, listing, state, scratch, [], k);
    }
  }

  lemma HeldAtMain(dir: Directory, state: TrafficState)
    requires Holds(dir, Some(state)) && Readable(dir, Main) == Some(state)
    ensures HeldAt(dir, state, Main)
  {
    var at :| HeldAt(dir, state, at);
  }

  lemma FinishedSaveSafe(dir: Directory, generation: Option<TrafficState>, listing: seq<Name>, state: TrafficState, scratch: Scratch,
                         removed: seq<Op>)
    requires CanSave(dir, generation, listing, state, scratch)
    requires forall op :: op in removed ==> IsCleanUp(op)
    ensures Holds(ApplyAll(dir, CommitOps(dir, listing, state, scratch) + removed), Some(SavedAs(dir, listing, state)))
  {
    HoldsReads(dir, generation, listing);
    var ops := CommitOps(dir, listing, state, scratch);
    assert ops[..|ops|] == ops;
    StoppedSaveSafe(dir, generation, listing, state, scratch, |ops|, ApplyAll(dir, ops));
    CommittedFiles(dir, listing, state, scratch);
    HeldAtMain(ApplyAll(dir, ops), SavedAs(dir, listing, state));
    ApplyAppend(dir, ops, removed);
    forall i | 0 <= i < |removed|
      ensures Quiet(removed[i], SavedAs(dir, listing, state), Main)
    {
      assert IsCleanUp(removed[i]);
    }
    QuietOpsKeep(ApplyAll(dir, ops), removed, SavedAs(dir, listing, state), Main);
  }

  // ------------------------------------------------------------------ whole runs

  // The directory, the revision the agent remembers, and the last generation
  // whose staging file was completed.
  datatype Agent = Agent(dir: Directory, revision: nat, generation: Option<TrafficState>)

  // A save of `next` stopped after k operations.
  ghost predicate SaveStops(a: Agent, a': Agent, listing: seq<Name>, next: TrafficState, scratch: Scratch, k: nat)
    requires |scratch.corrupt| >= |ScanFiles(a.dir, Candidates(listing)).corrupt|
  {
    && Stopped(a.dir, CommitOps(a.dir, listing, next, scratch), k, a'.dir)
    && a'.generation ==
       if k < |Head(a.dir, listing, next, scratch)| then a.generation else Some(SavedAs(a.dir, listing, next))
  }

  // A save of `next` got as far as removing some leftovers.
  ghost predicate SaveFinishes(a: Agent, a': Agent, listing: seq<Name>, next: TrafficState, scratch: Scratch, removed: seq<Op>)
    requires |scratch.corrupt| >= |ScanFiles(a.dir, Candidates(listing)).corrupt|
  {
    && (forall op :: op in removed ==> IsCleanUp(op))
    && a'.dir == ApplyAll(a.dir, CommitOps(a.dir, listing, next, scratch) + removed)
    && a'.generation == Some(SavedAs(a.dir, listing, next))
  }

  // The tracker raises the remembered revision and saves, whatever happens.
  ghost predicate SaveStep(a: Agent, a': Agent, state: TrafficState, listing: seq<Name>, scratch: Scratch) {
    var next := state.(revision := a.revision + 1);
    && a'.revision == a.revision + 1
    && IsListing(listing, a.dir) && FreshScratch(a.dir, scratch) && EnoughScratch(a.dir, scratch)
    && Validate(next) == Decoded(next)
    && ((exists k: nat :: SaveStops(a, a', listing, next, scratch, k))
        || (exists removed: seq<Op> :: SaveFinishes(a, a', listing, next, scratch, removed)))
  }

  // A new process starts from what it can read.
  ghost predicate RestartStep(a: Agent, a': Agent, listing: seq<Name>) {
    && IsListing(listing, a.dir) && a'.dir == a.dir && a'.generation == a.generation
    && a'.revision == match ReadState(a.dir, listing) case Found(state, _) => state.revision case _ => 0
  }

  ghost predicate Next(a: Agent, a': Agent) {
    || (exists state, listing, scratch :: SaveStep(a, a', state, listing, scratch))
    || (exists listing :: RestartStep(a, a', listing))
  }

  // A run begins with a process started over a directory that holds one
  // generation or none.
  ghost predicate Run(trace: seq<Agent>) {
    && |trace| > 0 && Holds(trace[0].dir, trace[0].generation)
    && trace[0].revision == (if trace[0].generation.Some? then trace[0].generation.value.revision else 0)
    && forall i :: 0 <= i < |trace| - 1 ==> Next(trace[i], trace[i + 1])
  }

  ghost predicate Safe(a: Agent) {
    Holds(a.dir, a.generation) && (a.generation.Some? ==> a.generation.value.revision <= a.revision)
  }

  ghost predicate NotOlder(before: Option<TrafficState>, after: Option<TrafficState>) {
    before.Some? ==> after.Some? && before.value.revision <= after.value.revision
  }

  lemma SaveStepSafe(a: Agent, a': Agent, state: TrafficState, listing: seq<Name>, scratch: Scratch)
    requires Safe(a) && SaveStep(a, a', state, listing, scratch)
    ensures Safe(a') && NotOlder(a.generation, a'.generation)
  {
    var next := state.(revision := a.revision + 1);
    assert CanSave(a.dir, a.generation, listing, next, scratch);
    assert SavedAs(a.dir, listing, next).revision == a.revision + 1;
    if k: nat :| SaveStops(a, a', listing, next, scratch, k) {
      StopSafe(a, a', listing, next, scratch, k);
    } else {
      var removed: seq<Op> :| SaveFinishes(a, a', listing, next, scratch, removed);
      FinishedSaveSafe(a.dir, a.generation, listing, next, scratch, removed);
    }
  }

  lemma StopSafe(a: Agent, a': Agent, listing: seq<Name>, next: TrafficState, scratch: Scratch, k: nat)
    requires CanSave(a.dir, a.generation, listing, next, scratch) && SaveStops(a, a', listing, next, scratch, k)
    ensures Holds(a'.dir, a'.generation)
    ensures a'.generation == a.generation || a'.generation == Some(SavedAs(a.dir, listing, next))
  {
    StoppedSaveSafe(a.dir, a.generation, listing, next, scratch, k, a'.dir);
  }

  lemma StepSafe(a: Agent, a': Agent)
    requires Safe(a) && Next(a, a')
    ensures Safe(a') && NotOlder(a.generation, a'.generation)
  {
    if state, listing, scratch :| SaveStep(a, a', state, listing, scratch) {
      SaveStepSafe(a, a', state, listing, scratch);
    } else {
      var listing :| RestartStep(a, a', listing);
      HoldsReads(a.dir, a.generation, listing);
    }
  }

  lemma {:induction false} RunSafe(trace: seq<Agent>, i: nat)
    requires Run(trace) && i < |trace|
    ensures Safe(trace[i])
  {
    if i > 0 {
      RunSafe(trace, i - 1);
      assert Next(trace[i - 1], trace[i - 1 + 1]);
      StepSafe(trace[i - 1], trace[i]);
    }
  }

  lemma GenerationAdvances(trace: seq<Agent>, i: nat)
    requires Run(trace) && i < |trace| - 1
    ensures NotOlder(trace[i].generation, trace[i + 1].generation)
  {
    RunSafe(trace, i);
    assert Next(trace[i], trace[i + 1]);
    StepSafe(trace[i], trace[i + 1]);
  }

  lemma {:induction false} NotOlderChain(generations: seq<Option<TrafficState>>, i: nat, j: nat)
    requires i <= j < |generations|
    requires forall n :: 0 <= n < |generations| - 1 ==> NotOlder(generations[n], generations[n + 1])
    ensures NotOlder(generations[i], generations[j])
  {
    if i < j {
      NotOlderChain(generations, i, j - 1);
      assert NotOlder(generations[j - 1], generations[j - 1 + 1]);
    }
  }

  lemma GenerationsAdvance(trace: seq<Agent>, i: nat, j: nat)
    requires Run(trace) && i <= j < |trace|
    ensures NotOlder(trace[i].generation, trace[j].generation)
  {
    var generations := seq(|trace|, n requires 0 <= n < |trace| => trace[n].generation);
    forall n | 0 <= n < |generations| - 1
      ensures NotOlder(generations[n], generations[n + 1])
    {
      GenerationAdvances(trace, n);
    }
    NotOlderChain(generations, i, j);
  }

  // At every point of every run a reader recovers exactly the last generation
  // whose staging file was completed, and never refuses.
  lemma RecoversLastStaged(trace: seq<Agent>, i: nat, listing: seq<Name>)
    requires Run(trace) && i < |trace| && IsListing(listing, trace[i].dir)
    ensures match ReadState(trace[i].dir, listing)
            case Fatal => false
            case Found(state, _) => trace[i].generation == Some(state)
            case _ => trace[i].generation == None
  {
    RunSafe(trace, i);
    HoldsReads(trace[i].dir, trace[i].generation, listing);
  }

  // What can be recovered is never lost again and never grows older, however
  // often saves fail, processes crash and restart.
  lemma RecoveryNeverRegresses(trace: seq<Agent>, i: nat, j: nat, first: seq<Name>, second: seq<Name>)
    requires Run(trace) && i <= j < |trace|
    requires IsListing(first, trace[i].dir) && IsListing(second, trace[j].dir)
    requires ReadState(trace[i].dir, first).Found?
    ensures ReadState(trace[j].dir, second).Found?
    ensures ReadState(trace[i].dir, first).state.revision <= ReadState(trace[j].dir, second).state.revision
  {
    RecoversLastStaged(trace, i, first);
    RecoversLastStaged(trace, j, second);
    GenerationsAdvance(trace, i, j);
  }

  // ----------------------------------------------------- where the guarantee ends

  const SAMPLE := BLANK.(resetDay := 1, period := Starting(0), counterVersion := 1)

  // A backup that cannot be read at start makes the tracker begin at revision
  // zero. Once the backup is gone, its first save (revision 1) completes but
  // is not what the next reader recovers: the generation of revision 100 is.
  lemma BlindStartLosesSave(scratch: Scratch, leftovers: seq<Name>, later: seq<Name>)
    requires var dir: Directory := map[Main := Encoded(SAMPLE.(revision := 100))];
             && FreshScratch(dir, scratch)
             && |scratch.corrupt| >= |ScanFiles(dir, Candidates([])).corrupt|
             && IsListing(leftovers, Committed(dir, [], SAMPLE.(revision := 1), scratch))
             && IsListing(later, ApplyAll(dir, SaveOps(dir, [], SAMPLE.(revision := 1), scratch, leftovers)))
    ensures var dir: Directory := map[Main := Encoded(SAMPLE.(revision := 100))];
            && ReadState(dir[Bak := Unreadable], []).Fatal?
            && |scratch.corrupt| >= |ScanFiles(dir, Candidates([])).corrupt|
            && ReadState(ApplyAll(dir, SaveOps(dir, [], SAMPLE.(revision := 1), scratch, leftovers)), later)
               == Found(SAMPLE.(revision := 100), Bak)
  {
    var dir: Directory := map[Main := Encoded(SAMPLE.(revision := 100))];
    TwoFiles(dir, [], SAMPLE.(revision := 100));
    ScanFatal(dir[Bak := Unreadable], Candidates([]));
    assert Candidates([])[1] == Bak && IsFatal(dir[Bak := Unreadable], Bak);
    SaveReadsBackIff(dir, [], SAMPLE.(revision := 1), scratch, leftovers, later);
  }
}
