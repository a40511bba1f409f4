// Where the traffic goes: over any run of samples the tracker's totals are
// exactly the gains of the counters, across billing periods too.
module TrafficConservation {
  import opened Calendar
  import opened Sums
  import opened TrafficFiles
  import opened TrafficTracker

  // ------------------------------------------------------------------ gains

  lemma GainedNonnegative(previous: map<string, Counters>, current: map<string, Counters>, way: Way)
    ensures Gained(previous, current, way) >= 0
  {
    SumNonnegative(Gains(previous, current, way));
  }

  // An interface that was not in the previous sample contributes nothing.
  lemma JoiningAddsNothing(previous: map<string, Counters>, current: map<string, Counters>, name: string, counters: Counters, way: Way)
    requires name !in previous
    ensures Gained(previous, current[name := counters], way) == Gained(previous, current, way)
  {
    assert Gains(previous, current[name := counters], way) == Gains(previous, current, way);
  }

  // ------------------------------------------------------------- whole runs

  // A sample and the save that follows it.
  ghost function Sampled(t: Tracker, sample: Sample): Tracker {
    Bump(Adjust(t, sample))
  }

  ghost function After(t: Tracker, samples: seq<Sample>): Tracker
    decreases |samples|
  {
    if samples == [] then t else After(Sampled(t, samples[0]), samples[1..])
  }

  ghost function TotalGained(previous: map<string, Counters>, samples: seq<Sample>, way: Way): int
    decreases |samples|
  {
    if samples == [] then 0
    else Gained(previous, samples[0].current, way) + TotalGained(samples[0].current, samples[1..], way)
  }

  // The totals of the periods that ended during the run.
  ghost function Closed(t: Tracker, samples: seq<Sample>, way: Way): int
    decreases |samples|
  {
    if samples == [] then 0
    else (if t.state.period != PeriodAt(t.resetDay, samples[0].now) then Total(t.state, way) else 0)
         + Closed(Sampled(t, samples[0]), samples[1..], way)
  }

  // The tracker was last sampled at time `at`, on a boot that had begun by
  // then (or is unknown).
  ghost predicate Ready(t: Tracker, at: int, boot: nat) {
    && !Foreign(t) && t.state.counterVersion == 1 && t.state.period == PeriodAt(t.resetDay, at)
    && boot <= at
    && (t.state.lastBootUnix == 0 || boot == 0 || t.state.lastBootUnix == boot)
  }

  // Samples in order of time, on one boot.
  ghost predicate Follow(at: int, boot: nat, samples: seq<Sample>)
    decreases |samples|
  {
    samples != [] ==> samples[0].boot == boot && at <= samples[0].now && Follow(samples[0].now, boot, samples[1..])
  }

  // A new period cannot be covered by a boot that preceded the last sample.
  lemma RotationIsUncovered(resetDay: int, at: int, sample: Sample)
    requires at <= sample.now && sample.boot <= at
    requires PeriodAt(resetDay, at) != PeriodAt(resetDay, sample.now)
    ensures !CoversPeriod(resetDay, sample)
  {
    LastResetIsGreatest(resetDay, at);
    LastResetIsGreatest(resetDay, sample.now);
  }

  lemma TotalSteps(t: Tracker, at: int, sample: Sample, way: Way)
    requires Ready(t, at, sample.boot) && at <= sample.now
    ensures NewTotal(t, sample, way) ==
            Wrap(Gained(t.state.interfaces, sample.current, way)
                 + (if PeriodAt(t.resetDay, sample.now) == t.state.period then Total(t.state, way) else 0))
  {
    assert BasisOf(t, sample) == Previous(t.state.interfaces) && !BootChanged(t.state, sample);
    var gained := Gained(t.state.interfaces, sample.current, way);
    if t.state.period != PeriodAt(t.resetDay, sample.now) {
      RotationIsUncovered(t.resetDay, at, sample);
      assert NewTotal(t, sample, way) == Wrap(gained);
    } else {
      WrapAdds(gained, Total(t.state, way));
      assert NewTotal(t, sample, way) == Wrap(Total(t.state, way) + Wrap(gained));
    }
  }

  lemma StepConserves(t: Tracker, at: int, sample: Sample, way: Way)
    requires Ready(t, at, sample.boot) && at <= sample.now
    ensures var next := Sampled(t, sample);
            && Ready(next, sample.now, sample.boot)
            && next.resetDay == t.resetDay
            && next.state.interfaces == sample.current
            && next.state.period == PeriodAt(t.resetDay, sample.now)
            && Total(next.state, way) ==
               Wrap(Gained(t.state.interfaces, sample.current, way)
                    + (if next.state.period == t.state.period then Total(t.state, way) else 0))
  {
    TotalSteps(t, at, sample, way);
    assert Total(Sampled(t, sample).state, way) == NewTotal(t, sample, way);
  }

  lemma Unfold(t: Tracker, samples: seq<Sample>, way: Way)
    requires samples != []
    ensures var next, rest := Sampled(t, samples[0]), samples[1..];
            && After(t, samples) == After(next, rest)
            && Closed(t, samples, way) ==
               (if next.state.period == t.state.period then 0 else Total(t.state, way)) + Closed(next, rest, way)
            && TotalGained(t.state.interfaces, samples, way) ==
               Gained(t.state.interfaces, samples[0].current, way) + TotalGained(next.state.interfaces, rest, way)
  {
  }

  // Conservation over a run with any number of period changes: the totals of
  // the closed periods plus the open one are the starting total plus all
  // gains, up to whole turns of the 64-bit arithmetic. Nothing is lost or
  // counted twice at a change.
  lemma {:induction false} TrafficConserved(t: Tracker, at: int, boot: nat, samples: seq<Sample>, way: Way) returns (turns: int)
    requires Ready(t, at, boot) && Follow(at, boot, samples)
    ensures Closed(t, samples, way) + Total(After(t, samples).state, way)
            == Total(t.state, way) + TotalGained(t.state.interfaces, samples, way) - turns * FULL
    decreases |samples|
  {
    if samples == [] {
      turns := 0;
    } else {
      StepConserves(t, at, samples[0], way);
      var later := TrafficConserved(Sampled(t, samples[0]), samples[0].now, boot, samples[1..], way);
      var now := StepTurns(t, at, samples[0], way);
      Unfold(t, samples, way);
      turns := now + later;
    }
  }

  lemma StepTurns(t: Tracker, at: int, sample: Sample, way: Way) returns (turns: int)
    requires Ready(t, at, sample.boot) && at <= sample.now
    ensures var next := Sampled(t, sample);
            Total(next.state, way) ==
            (if next.state.period == t.state.period then Total(t.state, way) else 0)
            + Gained(t.state.interfaces, sample.current, way) - turns * FULL
  {
    StepConserves(t, at, sample, way);
    turns := WrapIsMultiple(Gained(t.state.interfaces, sample.current, way)
                            + (if Sampled(t, sample).state.period == t.state.period then Total(t.state, way) else 0));
  }

  // ---------------------------------------------------------- within a period

  ghost predicate OnePeriod(resetDay: int, period: Period, samples: seq<Sample>)
    decreases |samples|
  {
    samples != [] ==> PeriodAt(resetDay, samples[0].now) == period && OnePeriod(resetDay, period, samples[1..])
  }

  lemma {:induction false} TotalGainedNonnegative(previous: map<string, Counters>, samples: seq<Sample>, way: Way)
    ensures TotalGained(previous, samples, way) >= 0
    decreases |samples|
  {
    if samples != [] {
      GainedNonnegative(previous, samples[0].current, way);
      TotalGainedNonnegative(samples[0].current, samples[1..], way);
    }
  }

  // Within a period, as long as it fits in 64 bits, the total is exactly the
  // starting total plus the gains.
  lemma {:induction false} TotalIsExact(t: Tracker, at: int, boot: nat, samples: seq<Sample>, way: Way)
    requires Ready(t, at, boot) && Follow(at, boot, samples) && OnePeriod(t.resetDay, t.state.period, samples)
    requires -HALF <= Total(t.state, way) && Total(t.state, way) + TotalGained(t.state.interfaces, samples, way) < HALF
    ensures Total(After(t, samples).state, way) == Total(t.state, way) + TotalGained(t.state.interfaces, samples, way)
    decreases |samples|
  {
    if samples != [] {
      var next := Sampled(t, samples[0]);
      StepConserves(t, at, samples[0], way);
      GainedNonnegative(t.state.interfaces, samples[0].current, way);
      TotalGainedNonnegative(samples[0].current, samples[1..], way);
      TotalIsExact(next, samples[0].now, boot, samples[1..], way);
    }
  }

  lemma {:induction false} TotalGainedGrows(previous: map<string, Counters>, samples: seq<Sample>, i: nat, j: nat, way: Way)
    requires i <= j <= |samples|
    ensures TotalGained(previous, samples[..i], way) <= TotalGained(previous, samples[..j], way)
    decreases |samples|
  {
    if i == 0 {
      TotalGainedNonnegative(previous, samples[..j], way);
    } else {
      assert samples[..i][1..] == samples[1..][..i - 1] && samples[..j][1..] == samples[1..][..j - 1];
      TotalGainedGrows(samples[0].current, samples[1..], i - 1, j - 1, way);
    }
  }

  lemma {:induction false} OnePeriodPrefix(resetDay: int, period: Period, samples: seq<Sample>, i: nat)
    requires OnePeriod(resetDay, period, samples) && i <= |samples|
    ensures OnePeriod(resetDay, period, samples[..i])
    decreases |samples|
  {
    if i > 0 {
      assert samples[..i][1..] == samples[1..][..i - 1];
      OnePeriodPrefix(resetDay, period, samples[1..], i - 1);
    }
  }

  lemma {:induction false} FollowPrefix(at: int, boot: nat, samples: seq<Sample>, i: nat)
    requires Follow(at, boot, samples) && i <= |samples|
    ensures Follow(at, boot, samples[..i])
    decreases |samples|
  {
    if i > 0 {
      assert samples[..i][1..] == samples[1..][..i - 1];
      FollowPrefix(samples[0].now, boot, samples[1..], i - 1);
    }
  }

  // Totals never fall within a period.
  lemma TotalsNeverFall(t: Tracker, at: int, boot: nat, samples: seq<Sample>, i: nat, j: nat, way: Way)
    requires Ready(t, at, boot) && Follow(at, boot, samples) && OnePeriod(t.resetDay, t.state.period, samples) && i <= j <= |samples|
    requires -HALF <= Total(t.state, way) && Total(t.state, way) + TotalGained(t.state.interfaces, samples, way) < HALF
    ensures Total(After(t, samples[..i]).state, way) <= Total(After(t, samples[..j]).state, way)
  {
    hide Ready, Follow, OnePeriod, Gained, Sampled, PeriodAt;
    assert samples[..|samples|] == samples;
    TotalGainedGrows(t.state.interfaces, samples, i, j, way);
    TotalGainedGrows(t.state.interfaces, samples, j, |samples|, way);
    FollowPrefix(at, boot, samples, i);
    FollowPrefix(at, boot, samples, j);
    OnePeriodPrefix(t.resetDay, t.state.period, samples, i);
    OnePeriodPrefix(t.resetDay, t.state.period, samples, j);
    TotalIsExact(t, at, boot, samples[..i], way);
    TotalIsExact(t, at, boot, samples[..j], way);
  }

  // ------------------------------------------------------------- telescoping

  // The same interfaces throughout, and no counter ever falls.
  ghost predicate Uninterrupted(previous: map<string, Counters>, samples: seq<Sample>, way: Way)
    decreases |samples|
  {
    samples != [] ==>
      && samples[0].current.Keys == previous.Keys
      && (forall name :: name in previous ==> Count(previous[name], way) <= Count(samples[0].current[name], way))
      && Uninterrupted(samples[0].current, samples[1..], way)
  }

  // Uninterrupted counters telescope: the gains of the whole run are the last
  // reading minus the first.
  lemma {:induction false} GainsTelescope(previous: map<string, Counters>, samples: seq<Sample>, way: Way)
    requires Uninterrupted(previous, samples, way)
    ensures TotalGained(previous, samples, way) ==
            if samples == [] then 0
            else Sum(Counts(samples[|samples| - 1].current, way)) - Sum(Counts(previous, way))
    decreases |samples|
  {
    if samples != [] {
      var current := samples[0].current;
      SumDifference(Counts(current, way), Counts(previous, way), Gains(previous, current, way));
      GainsTelescope(current, samples[1..], way);
    }
  }
}
