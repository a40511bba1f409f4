// The traffic tracker as an object: the loops over the interface counters, and
// the methods that update the state and save it.
module TrafficAgent {
  import opened Calendar
  import opened Sums
  import opened TrafficFiles
  import opened TrafficCrash
  import opened TrafficWriter
  import opened TrafficRuns
  import opened TrafficTracker

  // ------------------------------------------------------------------- loops

  lemma WrapAddsBoth(a: int, b: int)
    ensures Wrap(Wrap(a) + Wrap(b)) == Wrap(a + b)
  {
    WrapAdds(a, Wrap(b));
    WrapAdds(b, a);
  }

  ghost function SumWithout(counters: map<string, Counters>, rest: set<string>, way: Way): int {
    Wrap(Sum(Counts(counters - rest, way)))
  }

  lemma SumStarts(counters: map<string, Counters>, way: Way)
    ensures SumWithout(counters, counters.Keys, way) == 0
    ensures SumWithout(counters, {}, way) == Wrap(Sum(Counts(counters, way)))
  {
    assert counters - counters.Keys == map[] && counters - {} == counters;
  }

  lemma SumStep(counters: map<string, Counters>, rest: set<string>, name: string, way: Way)
    requires name in rest && rest <= counters.Keys
    ensures SumWithout(counters, rest - {name}, way) ==
            Wrap(SumWithout(counters, rest, way) + Wrap(Count(counters[name], way)))
  {
    var next := Counts(counters - (rest - {name}), way);
    SumRemove(next, name);
    assert next - {name} == Counts(counters - rest, way);
    WrapAddsBoth(Sum(Counts(counters - rest, way)), Count(counters[name], way));
  }

  // The sums of all counters, as the 64-bit additions compute them.
  method SumCounters(current: map<string, Counters>) returns (up: int, down: int, snapshot: map<string, Counters>)
    ensures up == Wrap(Sum(Counts(current, Up))) && down == Wrap(Sum(Counts(current, Down)))
    ensures snapshot == current
  {
    hide Wrap, Sum, Counts, SumWithout;
    up, down, snapshot := 0, 0, map[];
    var rest := current.Keys;
    SumStarts(current, Up);
    SumStarts(current, Down);
    while rest != {}
      invariant rest <= current.Keys
      invariant snapshot == current - rest
      invariant up == SumWithout(current, rest, Up) && down == SumWithout(current, rest, Down)
      decreases |rest|
    {
      var name :| name in rest;
      SumStep(current, rest, name, Up);
      SumStep(current, rest, name, Down);
      up := Wrap(up + Wrap(current[name].sent));
      down := Wrap(down + Wrap(current[name].recv));
      rest := rest - {name};
      snapshot := snapshot[name := current[name]];
    }
  }

  ghost function GainedWithout(previous: map<string, Counters>, current: map<string, Counters>, rest: set<string>, way: Way): int {
    Wrap(Gained(previous, current - rest, way))
  }

  lemma GainsStart(previous: map<string, Counters>, current: map<string, Counters>, way: Way)
    ensures GainedWithout(previous, current, current.Keys, way) == 0
    ensures GainedWithout(previous, current, {}, way) == Wrap(Gained(previous, current, way))
  {
    assert Gains(previous, current - current.Keys, way) == map[] && current - {} == current;
  }

  function TrafficCounterDelta(previous: nat, current: nat): int {
    if current < previous then Wrap(current) else Wrap(current - previous)
  }

  lemma GainsStep(previous: map<string, Counters>, current: map<string, Counters>, rest: set<string>, name: string, way: Way)
    requires name in rest && rest <= current.Keys
    ensures GainedWithout(previous, current, rest - {name}, way) ==
            if name in previous
            then Wrap(GainedWithout(previous, current, rest, way)
                      + TrafficCounterDelta(Count(previous[name], way), Count(current[name], way)))
            else GainedWithout(previous, current, rest, way)
  {
    hide Wrap;
    var next := Gains(previous, current - (rest - {name}), way);
    if name in previous {
      SumRemove(next, name);
      assert next - {name} == Gains(previous, current - rest, way);
      WrapAddsBoth(Gained(previous, current - rest, way), Delta(Count(previous[name], way), Count(current[name], way)));
    } else {
      assert next == Gains(previous, current - rest, way);
    }
  }

  method SumGains(previous: map<string, Counters>, current: map<string, Counters>) returns (up: int, down: int)
    ensures up == Wrap(Gained(previous, current, Up)) && down == Wrap(Gained(previous, current, Down))
  {
    hide Wrap, TrafficCounterDelta, Gained, GainedWithout;
    up, down := 0, 0;
    var rest := current.Keys;
    GainsStart(previous, current, Up);
    GainsStart(previous, current, Down);
    while rest != {}
      invariant rest <= current.Keys
      invariant up == GainedWithout(previous, current, rest, Up) && down == GainedWithout(previous, current, rest, Down)
      decreases |rest|
    {
      var name :| name in rest;
      GainsStep(previous, current, rest, name, Up);
      GainsStep(previous, current, rest, name, Down);
      if name in previous {
        up := Wrap(up + TrafficCounterDelta(previous[name].sent, current[name].sent));
        down := Wrap(down + TrafficCounterDelta(previous[name].recv, current[name].recv));
      }
      rest := rest - {name};
    }
  }

  // ----------------------------------------------------------------- the tracker

  // What a save of `next` may leave of a directory.
  ghost predicate SaveLeaves(dir: Directory, next: TrafficState, scratch: Scratch, dir': Directory) {
    exists listing ::
      && IsListing(listing, dir) && |scratch.corrupt| >= |ScanFiles(dir, Candidates(listing)).corrupt|
      && SaveMayLeave(dir, listing, next, scratch, dir')
  }

  ghost predicate SaveMayLeave(dir: Directory, listing: seq<Name>, next: TrafficState, scratch: Scratch, dir': Directory)
    requires |scratch.corrupt| >= |ScanFiles(dir, Candidates(listing)).corrupt|
  {
    || (ReadState(dir, listing).Fatal? && dir' == dir)
    || (exists k: nat :: Stopped(dir, CommitOps(dir, listing, next, scratch), k, dir'))
    || (exists removed: seq<Op> ::
          (forall op :: op in removed ==> IsCleanUp(op))
          && dir' == ApplyAll(dir, CommitOps(dir, listing, next, scratch) + removed))
  }

  // However a save ends, a directory that held an older generation (or none)
  // holds that one or the saved state.
  lemma SaveKeepsRecoverable(dir: Directory, generation: Option<TrafficState>, next: TrafficState, scratch: Scratch, dir': Directory)
    requires Holds(dir, generation) && SaveLeaves(dir, next, scratch, dir') && FreshScratch(dir, scratch)
    requires generation.Some? ==> generation.value.revision < next.revision
    requires Validate(next) == Decoded(next)
    ensures Holds(dir', generation) || exists listing :: IsListing(listing, dir) && Holds(dir', Some(SavedAs(dir, listing, next)))
  {
    var listing :| IsListing(listing, dir) && |scratch.corrupt| >= |ScanFiles(dir, Candidates(listing)).corrupt|
                   && SaveMayLeave(dir, listing, next, scratch, dir');
    if k: nat :| Stopped(dir, CommitOps(dir, listing, next, scratch), k, dir') {
      StoppedSaveSafe(dir, generation, listing, next, scratch, k, dir');
    } else if !(ReadState(dir, listing).Fatal? && dir' == dir) {
      var removed: seq<Op> :| (forall op :: op in removed ==> IsCleanUp(op))
                              && dir' == ApplyAll(dir, CommitOps(dir, listing, next, scratch) + removed);
      FinishedSaveSafe(dir, generation, listing, next, scratch, removed);
    }
  }

  lemma ForeignTotal(t: Tracker, sample: Sample, way: Way)
    requires Foreign(t)
    ensures NewTotal(t, sample, way) == if CoversPeriod(t.resetDay, sample) then Raw(sample, way) else 0
  {
  }

  class TrafficResetTracker {
    const directory: StateDirectory
    const scope: string
    var resetDay: int
    var source: string
    var policy: Option<int>
    var state: TrafficState

    ghost function View(): Tracker
      reads this
    {
      Tracker(resetDay, scope, source, policy, state)
    }

    constructor (day: int, scope: string, directory: StateDirectory)
      ensures this.directory == directory
      ensures exists listing :: IsListing(listing, directory.files) && View() == New(day, scope, ReadState(directory.files, listing))
    {
      this.directory, this.scope := directory, scope;
      resetDay, source, policy := NormalizeResetDay(day), "local", None;
      state := BLANK;
      new;
      ghost var listing := Load();
      assert View() == Tracker(NormalizeResetDay(day), scope, "local", None, TrafficTracker.Load(ReadState(directory.files, listing)));
      if state.policyResetDay.Some? && state.policyResetDay.value >= 1 && state.policyResetDay.value <= 31 {
        resetDay, policy, source := state.policyResetDay.value, Some(state.policyResetDay.value), "server";
      } else if state.resetDay >= 1 && state.resetDay <= 31 && state.period != NoPeriod && state.resetDaySource != "local" {
        resetDay, source := state.resetDay, "restored";
      }
    }

    method Load() returns (ghost listing: seq<Name>)
      requires state == BLANK
      modifies this`state
      ensures IsListing(listing, directory.files)
      ensures state == TrafficTracker.Load(ReadState(directory.files, listing))
    {
      var found := directory.List();
      listing := found;
      var recovery := ReadTrafficResetState(directory.files, found);
      match recovery
      case Found(recovered, _) => state := recovered;
      case AllCorrupt(_) => state := state.(historyIncomplete := true);
      case _ =>
    }

    method Save(scratch: Scratch)
      requires FreshScratch(directory.files, scratch) && EnoughScratch(directory.files, scratch)
      modifies this`state, directory
      ensures View() == Bump(old(View()))
      ensures SaveLeaves(old(directory.files), state, scratch, directory.files)
    {
      state := state.(revision := state.revision + 1);
      ghost var listing, k, leftovers, removed;
      var ok, complete;
      ok, listing, k, leftovers, removed, complete := directory.WriteTrafficResetState(state, scratch);
      assert EnoughScratch(old(directory.files), scratch);
      assert SaveMayLeave(old(directory.files), listing, state, scratch, directory.files);
    }

    method SetPolicyResetDay(day: int, scratch: Scratch) returns (changed: bool)
      requires FreshScratch(directory.files, scratch) && EnoughScratch(directory.files, scratch)
      modifies this, directory
      ensures changed <==> old(resetDay) != day
      ensures old(policy) == Some(day) ==> View() == SetPolicy(old(View()), day) && directory.files == old(directory.files)
      ensures old(policy) != Some(day) ==> View() == Bump(SetPolicy(old(View()), day))
      ensures old(policy) != Some(day) ==> SaveLeaves(old(directory.files), state, scratch, directory.files)
    {
      changed := resetDay != day;
      var known := policy.Some? && policy.value == day;
      resetDay := day;
      source := "server";
      policy := Some(day);
      if !known {
        state := state.(policyResetDay := Some(day), resetDaySource := "server");
        Save(scratch);
      }
    }

    method AdjustInterfacesSinceBoot(sample: Sample, scratch: Scratch) returns (up: int, down: int)
      requires FreshScratch(directory.files, scratch) && EnoughScratch(directory.files, scratch)
      modifies this`state, directory
      ensures View() == Bump(Adjust(old(View()), sample))
      ensures up == state.periodUp && down == state.periodDown
      ensures SaveLeaves(old(directory.files), state, scratch, directory.files)
    {
      var next := NextState(sample);
      state := next;
      Save(scratch);
      up, down := state.periodUp, state.periodDown;
    }

    // The new state of one sample, before it is saved.
    method NextState(sample: Sample) returns (next: TrafficState)
      ensures next == Adjust(View(), sample).state
    {
      hide Wrap, LastReset, NewTotal;
      var rawUp, rawDown, snapshot := SumCounters(sample.current);
      var periodStart := LastReset(resetDay, sample.now);
      var period := Starting(periodStart);
      var covers := sample.boot != 0 && !(sample.boot < periodStart * DAY) && !(sample.boot > sample.now);
      next := state;
      if next.resetDay != resetDay || next.period == NoPeriod || next.scope != scope {
        ForeignTotal(View(), sample, Up);
        ForeignTotal(View(), sample, Down);
        next := BLANK.(resetDay := resetDay, period := period, scope := scope, revision := state.revision,
                       historyIncomplete := state.historyIncomplete);
        if covers {
          next := next.(periodUp := rawUp, periodDown := rawDown);
        }
      } else {
        next := Accumulate(sample, period, covers, rawUp, rawDown, snapshot);
      }
      next := next.(resetDay := resetDay, scope := scope, lastRawUp := rawUp, lastRawDown := rawDown, baselineUp := 0, baselineDown := 0);
      if sample.boot != 0 {
        next := next.(lastBootUnix := sample.boot);
      }
      next := next.(counterVersion := 1, interfaces := snapshot, resetDaySource := source, policyResetDay := policy);
    }

    // The totals of a state that goes on: it rotates, or takes in the gains.
    method Accumulate(sample: Sample, period: Period, covers: bool, rawUp: int, rawDown: int, snapshot: map<string, Counters>)
      returns (next: TrafficState)
      requires !Foreign(View()) && snapshot == sample.current
      requires period == PeriodAt(resetDay, sample.now) && covers == CoversPeriod(resetDay, sample)
      requires rawUp == Raw(sample, Up) && rawDown == Raw(sample, Down)
      ensures next == state.(period := period, historyIncomplete := state.period == period && state.historyIncomplete,
                             periodUp := NewTotal(View(), sample, Up), periodDown := NewTotal(View(), sample, Down))
    {
      hide Wrap, LastReset, BasisOf, CoversPeriod, PeriodAt, Raw, Gained;
      var bootChanged := sample.boot != 0 && state.lastBootUnix != 0 && state.lastBootUnix != sample.boot;
      next := state;
      var basis := BasisNow(sample, period, covers, rawUp, rawDown);
      var deltaUp, deltaDown := 0, 0;
      if basis.Repaired? {
        next := next.(periodUp := basis.up, periodDown := basis.down);
      } else {
        deltaUp, deltaDown := SumGains(basis.interfaces, snapshot);
      }
      if bootChanged && covers {
        deltaUp, deltaDown := rawUp, rawDown;
      }
      if next.period != period {
        if covers {
          deltaUp, deltaDown := rawUp, rawDown;
        }
        next := next.(period := period, historyIncomplete := false, periodUp := deltaUp, periodDown := deltaDown);
      } else {
        next := next.(periodUp := Wrap(next.periodUp + deltaUp), periodDown := Wrap(next.periodDown + deltaDown));
      }
    }

    // Old single-counter states are repaired or compared as one counter.
    method BasisNow(sample: Sample, period: Period, covers: bool, rawUp: int, rawDown: int) returns (basis: Basis)
      requires period == PeriodAt(resetDay, sample.now) && covers == CoversPeriod(resetDay, sample)
      requires rawUp == Raw(sample, Up) && rawDown == Raw(sample, Down)
      ensures basis == BasisOf(View(), sample)
    {
      basis := Previous(state.interfaces);
      if state.counterVersion == 0 {
        if state.period == period && state.lastRawUp == 0 && state.lastRawDown == 0
           && (state.baselineUp != 0 || state.baselineDown != 0) {
          basis := Repaired(Max(0, Wrap(rawUp - state.baselineUp)), Max(0, Wrap(rawDown - state.baselineDown)));
        } else if state.period == period && covers && state.periodUp == 0 && state.periodDown == 0 {
          basis := Repaired(rawUp, rawDown);
        } else if "" in sample.current {
          basis := Previous(map["" := Counters(Max(0, state.lastRawUp), Max(0, state.lastRawDown))]);
        }
      }
    }
  }
}
