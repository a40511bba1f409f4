// A tracker that runs without stopping, and exactly for which inputs the
// decoder accepts every state that it saves.
module TrafficAcceptance {
  import opened Calendar
  import opened Sums
  import opened TrafficFiles
  import opened TrafficTracker

  datatype Input = Take(sample: Sample) | Policy(day: int)

  datatype CommandLine = CommandLine(resetDay: int, scope: string)

  function Begin(line: CommandLine, recovery: Recovery): Tracker {
    New(line.resetDay, line.scope, recovery)
  }

  // Samples and new policies are saved. Policies outside 1 to 31 are ignored.
  predicate Saves(t: Tracker, input: Input) {
    input.Take? || (1 <= input.day <= 31 && t.policy != Some(input.day))
  }

  // The tracker after an input, as it is saved.
  ghost function Continue(t: Tracker, input: Input): Tracker {
    match input
    case Take(sample) => Bump(Adjust(t, sample))
    case Policy(day) =>
      if day < 1 || day > 31 then t
      else if t.policy == Some(day) then SetPolicy(t, day)
      else Bump(SetPolicy(t, day))
  }

  ghost function Reported(t: Tracker, inputs: seq<Input>): seq<(int, int)>
    decreases |inputs|
  {
    if inputs == [] then []
    else
      var next := Continue(t, inputs[0]);
      (if inputs[0].Take? then [(next.state.periodUp, next.state.periodDown)] else []) + Reported(next, inputs[1..])
  }

  ghost predicate AllAccepted(t: Tracker, inputs: seq<Input>)
    decreases |inputs|
  {
    inputs != [] ==>
      && (Saves(t, inputs[0]) ==> Validate(Continue(t, inputs[0]).state).Decoded?)
      && AllAccepted(Continue(t, inputs[0]), inputs[1..])
  }

  // Where the reset day of a tracker comes from.
  ghost predicate Rooted(t: Tracker, line: CommandLine) {
    && t.scope == line.scope && 1 <= t.resetDay <= 31
    && match t.policy
       case Some(day) => t.resetDay == day && t.source == "server"
       case None => t.source == "restored" || (t.source == "local" && t.resetDay == NormalizeResetDay(line.resetDay))
  }

  lemma BeginRooted(line: CommandLine, recovery: Recovery)
    ensures Rooted(Begin(line, recovery), line)
  {
  }

  lemma ContinueRooted(t: Tracker, line: CommandLine, input: Input)
    requires Rooted(t, line)
    ensures Rooted(Continue(t, input), line)
  {
  }

  // ------------------------------------------------------------ sums as integers

  // Everything the counters of a sample show.
  ghost function Shown(sample: Sample, way: Way): int {
    Sum(Counts(sample.current, way))
  }

  // The total that a state of the current period enters the sample with.
  ghost function Entering(t: Tracker, sample: Sample, way: Way): int {
    var basis := BasisOf(t, sample);
    if basis.Previous? then Total(t.state, way) else if way == Up then basis.up else basis.down
  }

  // What the counters gained since the last sample; after a boot within the
  // period, everything they show.
  ghost function Gain(t: Tracker, sample: Sample, way: Way): int {
    var basis := BasisOf(t, sample);
    if BootChanged(t.state, sample) && CoversPeriod(t.resetDay, sample) then Shown(sample, way)
    else if basis.Repaired? then 0
    else Gained(basis.interfaces, sample.current, way)
  }

  // The new total without any wrap-around.
  ghost function Due(t: Tracker, sample: Sample, way: Way): int {
    var covers := CoversPeriod(t.resetDay, sample);
    if Foreign(t) then if covers then Shown(sample, way) else 0
    else if t.state.period == PeriodAt(t.resetDay, sample.now) then Entering(t, sample, way) + Gain(t, sample, way)
    else if covers then Shown(sample, way)
    else Gain(t, sample, way)
  }

  lemma TotalIsWrapped(t: Tracker, sample: Sample, way: Way)
    ensures NewTotal(t, sample, way) == Wrap(Due(t, sample, way))
  {
    hide Wrap, Sum, LastReset, Counts, Gains;
    assert Wrap(0) == 0;
    if !Foreign(t) {
      WrapAdds(Gain(t, sample, way), Entering(t, sample, way));
      RepairIsWrapped(t, sample);
    }
  }

  lemma RepairIsWrapped(t: Tracker, sample: Sample)
    ensures BasisOf(t, sample).Repaired? ==> t.state.period == PeriodAt(t.resetDay, sample.now)
  {
  }

  // The integers whose 64-bit value is not negative: those below half a turn
  // after any number of whole turns.
  predicate LowerHalf(x: int) {
    x % FULL < HALF
  }

  lemma WrapSign(x: int)
    ensures Wrap(x) >= 0 <==> LowerHalf(x)
  {
    if LowerHalf(x) {
      assert (x + HALF) % FULL == x % FULL + HALF;
    } else {
      assert (x + HALF) % FULL == x % FULL - HALF;
    }
  }

  // The condition on a sample, before it is taken.
  ghost predicate FitsWay(t: Tracker, sample: Sample, way: Way) {
    LowerHalf(Shown(sample, way)) && LowerHalf(Due(t, sample, way))
  }

  ghost predicate Fits(t: Tracker, sample: Sample) {
    FitsWay(t, sample, Up) && FitsWay(t, sample, Down)
  }

  ghost predicate AllFit(t: Tracker, inputs: seq<Input>)
    decreases |inputs|
  {
    inputs != [] ==> (inputs[0].Take? ==> Fits(t, inputs[0].sample)) && AllFit(Continue(t, inputs[0]), inputs[1..])
  }

  // ------------------------------------------------- which states are accepted

  // A state that was accepted, or one of a tracker that has not sampled yet.
  ghost predicate Acceptable(state: TrafficState) {
    || Validate(state).Decoded?
    || (state.period == NoPeriod && state.policyResetDay.None? && Validate(state.(policyResetDay := Some(1))).Decoded?)
  }

  lemma BeginAcceptable(line: CommandLine, recovery: Recovery)
    requires recovery.Found? ==> Validate(recovery.state).Decoded?
    ensures Acceptable(Begin(line, recovery).state)
  {
  }

  lemma SampleAccepted(t: Tracker, line: CommandLine, sample: Sample)
    requires Rooted(t, line) && Acceptable(t.state)
    ensures Validate(Adjust(t, sample).state).Decoded? <==> Fits(t, sample)
  {
    hide Wrap, LastReset, NewTotal, Due, LowerHalf;
    forall way: Way
      ensures FitsWay(t, sample, way) <==> Raw(sample, way) >= 0 && NewTotal(t, sample, way) >= 0
    {
      WrapSign(Shown(sample, way));
      TotalIsWrapped(t, sample, way);
      WrapSign(Due(t, sample, way));
    }
  }

  lemma SavesAccepted(t: Tracker, line: CommandLine, input: Input)
    requires Rooted(t, line) && Acceptable(t.state) && Saves(t, input)
    ensures Validate(Continue(t, input).state).Decoded? <==> (input.Take? ==> Fits(t, input.sample))
  {
    hide Fits, Adjust;
    if input.Take? {
      SampleAccepted(t, line, input.sample);
    }
  }

  lemma ContinueAcceptable(t: Tracker, input: Input)
    requires Acceptable(t.state) && (Saves(t, input) ==> Validate(Continue(t, input).state).Decoded?)
    ensures Acceptable(Continue(t, input).state)
  {
  }

  // Every state ever saved is accepted by the decoder iff for no sample the
  // sum of its counters or the new total reaches the upper half of 64 bits.
  lemma {:induction false} AcceptedIffFits(t: Tracker, line: CommandLine, inputs: seq<Input>)
    requires Rooted(t, line) && Acceptable(t.state)
    ensures AllAccepted(t, inputs) <==> AllFit(t, inputs)
    decreases |inputs|
  {
    hide Fits, Validate, Rooted, Acceptable, Continue;
    if inputs != [] {
      var input, next := inputs[0], Continue(t, inputs[0]);
      if Saves(t, input) {
        SavesAccepted(t, line, input);
      }
      if Saves(t, input) ==> Validate(next.state).Decoded? {
        ContinueRooted(t, line, input);
        ContinueAcceptable(t, input);
        AcceptedIffFits(next, line, inputs[1..]);
      }
    }
  }

  // From any readable start.
  lemma SavedStatesAccepted(line: CommandLine, recovery: Recovery, inputs: seq<Input>)
    requires recovery.Found? ==> Validate(recovery.state).Decoded?
    ensures AllAccepted(Begin(line, recovery), inputs) <==> AllFit(Begin(line, recovery), inputs)
  {
    BeginRooted(line, recovery);
    BeginAcceptable(line, recovery);
    AcceptedIffFits(Begin(line, recovery), line, inputs);
  }

  // ------------------------------------------------------- sums below half a turn

  ghost predicate SmallWay(t: Tracker, sample: Sample, way: Way) {
    Shown(sample, way) < HALF && Due(t, sample, way) < HALF
  }

  ghost predicate AllSmall(t: Tracker, inputs: seq<Input>)
    decreases |inputs|
  {
    inputs != [] ==>
      && (inputs[0].Take? ==> SmallWay(t, inputs[0].sample, Up) && SmallWay(t, inputs[0].sample, Down))
      && AllSmall(Continue(t, inputs[0]), inputs[1..])
  }

  lemma DueNonnegative(t: Tracker, sample: Sample, way: Way)
    requires Acceptable(t.state) && Shown(sample, Up) < HALF && Shown(sample, Down) < HALF
    ensures Shown(sample, way) >= 0 && Due(t, sample, way) >= 0
  {
    hide LastReset;
    SumNonnegative(Counts(sample.current, Up));
    SumNonnegative(Counts(sample.current, Down));
    var basis := BasisOf(t, sample);
    if basis.Previous? {
      SumNonnegative(Gains(basis.interfaces, sample.current, way));
    }
  }

  lemma SmallIsLower(x: int)
    requires 0 <= x < HALF
    ensures LowerHalf(x)
  {
  }

  lemma SmallFits(t: Tracker, sample: Sample)
    requires Acceptable(t.state) && SmallWay(t, sample, Up) && SmallWay(t, sample, Down)
    ensures Fits(t, sample)
  {
    hide Due, Shown, LowerHalf, Acceptable;
    forall way: Way
      ensures FitsWay(t, sample, way)
    {
      assert way == Up || way == Down;
      DueNonnegative(t, sample, way);
      SmallIsLower(Shown(sample, way));
      SmallIsLower(Due(t, sample, way));
    }
  }

  // Sums that stay below half a turn are always accepted.
  lemma {:induction false} SmallSumsAccepted(t: Tracker, line: CommandLine, inputs: seq<Input>)
    requires Rooted(t, line) && Acceptable(t.state) && AllSmall(t, inputs)
    ensures AllAccepted(t, inputs)
    decreases |inputs|
  {
    hide Validate, Rooted, Acceptable, Continue, Fits;
    if inputs != [] {
      var input := inputs[0];
      if input.Take? {
        SmallFits(t, input.sample);
      }
      if Saves(t, input) {
        SavesAccepted(t, line, input);
      }
      ContinueRooted(t, line, input);
      ContinueAcceptable(t, input);
      SmallSumsAccepted(Continue(t, input), line, inputs[1..]);
    }
  }

  // Everything that the counters show in all samples together.
  ghost function AllShown(inputs: seq<Input>, way: Way): int
    decreases |inputs|
  {
    if inputs == [] then 0 else (if inputs[0].Take? then Shown(inputs[0].sample, way) else 0) + AllShown(inputs[1..], way)
  }

  // Not a state of the old single-counter format.
  predicate Modern(t: Tracker) {
    t.state.counterVersion != 0 || t.state.period == NoPeriod
  }

  lemma GainedAtMost(previous: map<string, Counters>, current: map<string, Counters>, way: Way)
    ensures Gained(previous, current, way) <= Sum(Counts(current, way))
  {
    SumAtMost(Gains(previous, current, way), Counts(current, way));
  }

  lemma DueAtMost(t: Tracker, sample: Sample, way: Way)
    requires Acceptable(t.state) && Modern(t)
    ensures Due(t, sample, way) <= Total(t.state, way) + Shown(sample, way)
  {
    hide LastReset, Gained;
    SumNonnegative(Counts(sample.current, way));
    var basis := BasisOf(t, sample);
    if basis.Previous? {
      GainedAtMost(basis.interfaces, sample.current, way);
    }
  }

  lemma {:induction false} AllShownNonnegative(inputs: seq<Input>, way: Way)
    ensures AllShown(inputs, way) >= 0
    decreases |inputs|
  {
    if inputs != [] {
      if inputs[0].Take? {
        SumNonnegative(Counts(inputs[0].sample.current, way));
      }
      AllShownNonnegative(inputs[1..], way);
    }
  }

  lemma SampleBounded(t: Tracker, sample: Sample, way: Way, rest: int)
    requires Acceptable(t.state) && Modern(t) && rest >= 0
    requires forall w: Way :: Total(t.state, w) + Shown(sample, w) < HALF
    requires Total(t.state, way) + Shown(sample, way) + rest < HALF
    ensures SmallWay(t, sample, way) && Total(Continue(t, Take(sample)).state, way) + rest < HALF
  {
    hide Wrap, Due, Shown, LastReset;
    DueAtMost(t, sample, way);
    DueNonnegative(t, sample, way);
    TotalIsWrapped(t, sample, way);
    assert Total(Continue(t, Take(sample)).state, way) == NewTotal(t, sample, way) == Wrap(Due(t, sample, way));
  }

  // From a current-format state, a condition on the counters alone: as long as
  // the starting total and everything that is ever shown add up to less than
  // half a turn, every saved state is accepted.
  lemma {:induction false} BoundedCountersAccepted(t: Tracker, line: CommandLine, inputs: seq<Input>)
    requires Rooted(t, line) && Acceptable(t.state) && Modern(t)
    requires forall way: Way :: Total(t.state, way) + AllShown(inputs, way) < HALF
    ensures AllAccepted(t, inputs)
    decreases |inputs|
  {
    hide Validate, Rooted, Acceptable, Fits, Due, Shown, SmallWay, Adjust;
    if inputs != [] {
      var input, rest := inputs[0], inputs[1..];
      forall way: Way
        ensures AllShown(rest, way) >= 0
        ensures Total(t.state, way) + (if input.Take? then Shown(input.sample, way) else 0) + AllShown(rest, way) < HALF
      {
        AllShownNonnegative(rest, way);
        assert Total(t.state, way) + AllShown(inputs, way) < HALF;
      }
      if input.Take? {
        assert forall w: Way :: Total(t.state, w) + Shown(input.sample, w) < HALF;
        forall way: Way
          ensures SmallWay(t, input.sample, way)
          ensures Total(Continue(t, input).state, way) + AllShown(rest, way) < HALF
        {
          SampleBounded(t, input.sample, way, AllShown(rest, way));
        }
        SmallFits(t, input.sample);
        ModernAfter(t, input.sample);
      } else {
        assert forall way: Way :: Total(Continue(t, input).state, way) == Total(t.state, way);
      }
      if Saves(t, input) {
        SavesAccepted(t, line, input);
      }
      ContinueRooted(t, line, input);
      ContinueAcceptable(t, input);
      BoundedCountersAccepted(Continue(t, input), line, rest);
    }
  }

  lemma ModernAfter(t: Tracker, sample: Sample)
    ensures Modern(Continue(t, Take(sample)))
  {
  }

  // ------------------------------------------------------------- two instances

  lemma TwoCounters(a: Counters, b: Counters, way: Way)
    ensures Sum(Counts(map["a" := a], way)) == Count(a, way)
    ensures Sum(Counts(map["a" := a, "b" := b], way)) == Count(a, way) + Count(b, way)
  {
    assert Counts(map["a" := a], way) - {"a"} == map[];
    assert Counts(map["a" := a, "b" := b], way) - {"b"} == Counts(map["a" := a], way);
    SumRemove(Counts(map["a" := a], way), "a");
    SumRemove(Counts(map["a" := a, "b" := b], way), "b");
  }

  // A single counter at half a turn makes the first state unacceptable; two of
  // them go round the whole turn, and the state is accepted with total zero.
  lemma HalfIsRefusedTwiceIsNot(line: CommandLine, now: int, half: Counters)
    requires half == Counters(HALF, 0)
    ensures !AllAccepted(Begin(line, Missing), [Take(Sample(map["a" := half], now, 0))])
    ensures AllAccepted(Begin(line, Missing), [Take(Sample(map["a" := half, "b" := half], now, 0))])
  {
    hide LastReset, Continue;
    var t := Begin(line, Missing);
    forall way: Way
      ensures Shown(Sample(map["a" := half], now, 0), way) == Count(half, way)
      ensures Shown(Sample(map["a" := half, "b" := half], now, 0), way) == 2 * Count(half, way)
    {
      TwoCounters(half, half, way);
    }
    var one, two := Sample(map["a" := half], now, 0), Sample(map["a" := half, "b" := half], now, 0);
    assert !Fits(t, one) && Fits(t, two);
    SavedStatesAccepted(line, Missing, [Take(one)]);
    SavedStatesAccepted(line, Missing, [Take(two)]);
    assert AllFit(Continue(t, Take(two)), [Take(two)][1..]);
  }
}
