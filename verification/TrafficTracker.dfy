// Turning raw interface counters into per-period totals: the specification of
// one sample, one policy update, one save and one restart of the tracker.
module TrafficTracker {
  import opened Calendar
  import opened Sums
  import opened TrafficFiles

  // ------------------------------------------------------ 64-bit arithmetic

  const HALF := 0x8000_0000_0000_0000
  const FULL := 0x1_0000_0000_0000_0000

  // The int64 that a mathematical integer becomes.
  function Wrap(x: int): (r: int)
    ensures -HALF <= r < HALF
    ensures -HALF <= x < HALF ==> r == x
  {
    (x + HALF) % FULL - HALF
  }

  lemma WrapIsMultiple(x: int) returns (turns: int)
    ensures Wrap(x) == x - turns * FULL
  {
    turns := (x + HALF) / FULL;
  }

  lemma WrapIgnores(x: int, turns: int)
    ensures Wrap(x - turns * FULL) == Wrap(x)
  {
  }

  lemma WrapAdds(a: int, b: int)
    ensures Wrap(Wrap(a) + b) == Wrap(a + b)
  {
    var turns := WrapIsMultiple(a);
    WrapIgnores(a + b, turns);
  }

  // ------------------------------------------------------------------ gains

  datatype Way = Up | Down

  function Count(counters: Counters, way: Way): nat {
    if way == Up then counters.sent else counters.recv
  }

  ghost function Counts(counters: map<string, Counters>, way: Way): map<string, int> {
    map name | name in counters :: Count(counters[name], way)
  }

  // What a counter gained; a counter that fell was reset in between.
  function Delta(previous: nat, current: nat): nat {
    if current < previous then current else current - previous
  }

  // The gains of the interfaces present in both samples.
  ghost function Gains(previous: map<string, Counters>, current: map<string, Counters>, way: Way): map<string, int> {
    map name | name in current && name in previous :: Delta(Count(previous[name], way), Count(current[name], way))
  }

  ghost function Gained(previous: map<string, Counters>, current: map<string, Counters>, way: Way): int {
    Sum(Gains(previous, current, way))
  }

  // ------------------------------------------------------------- one sample

  datatype Tracker = Tracker(resetDay: int, scope: string, source: string, policy: Option<int>, state: TrafficState)

  // A reading of all counters, at a time, on a machine booted at a time
  // (zero when unknown).
  datatype Sample = Sample(current: map<string, Counters>, now: int, boot: nat)

  function PeriodAt(resetDay: int, now: int): Period {
    Starting(LastReset(resetDay, now))
  }

  predicate CoversPeriod(resetDay: int, sample: Sample) {
    sample.boot != 0 && LastReset(resetDay, sample.now) * DAY <= sample.boot <= sample.now
  }

  predicate BootChanged(state: TrafficState, sample: Sample) {
    sample.boot != 0 && state.lastBootUnix != 0 && state.lastBootUnix != sample.boot
  }

  // The state belongs to another reset day, another scope, or to no period.
  predicate Foreign(t: Tracker) {
    t.state.resetDay != t.resetDay || t.state.period == NoPeriod || t.state.scope != t.scope
  }

  ghost function Raw(sample: Sample, way: Way): int {
    Wrap(Sum(Counts(sample.current, way)))
  }

  function Max(a: int, b: int): int {
    if a > b then a else b
  }

  function Total(state: TrafficState, way: Way): int {
    if way == Up then state.periodUp else state.periodDown
  }

  // How a state of the old single-counter format enters the sample: either
  // with repaired totals or with a previous reading to compare with.
  datatype Basis = Repaired(up: int, down: int) | Previous(interfaces: map<string, Counters>)

  ghost function BasisOf(t: Tracker, sample: Sample): Basis {
    var state, period := t.state, PeriodAt(t.resetDay, sample.now);
    if state.counterVersion != 0 then Previous(state.interfaces)
    else if state.period == period && state.lastRawUp == 0 && state.lastRawDown == 0
            && (state.baselineUp != 0 || state.baselineDown != 0) then
      Repaired(Max(0, Wrap(Raw(sample, Up) - state.baselineUp)), Max(0, Wrap(Raw(sample, Down) - state.baselineDown)))
    else if state.period == period && CoversPeriod(t.resetDay, sample) && state.periodUp == 0 && state.periodDown == 0 then
      Repaired(Raw(sample, Up), Raw(sample, Down))
    else if "" in sample.current then
      Previous(map["" := Counters(Max(0, state.lastRawUp), Max(0, state.lastRawDown))])
    else Previous(state.interfaces)
  }

  ghost function NewTotal(t: Tracker, sample: Sample, way: Way): int {
    var covers, raw := CoversPeriod(t.resetDay, sample), Raw(sample, way);
    if Foreign(t) then
      if covers then raw else 0
    else
      var basis := BasisOf(t, sample);
      var before := if basis.Previous? then Total(t.state, way) else if way == Up then basis.up else basis.down;
      var gained :=
        if BootChanged(t.state, sample) && covers then raw
        else if basis.Repaired? then 0
        else Wrap(Gained(basis.interfaces, sample.current, way));
      if t.state.period == PeriodAt(t.resetDay, sample.now) then Wrap(before + gained)
      else if covers then raw
      else gained
  }

  // The tracker after a sample, before it is saved.
  ghost function Adjust(t: Tracker, sample: Sample): Tracker {
    var period := PeriodAt(t.resetDay, sample.now);
    t.(state := TrafficState(
         resetDay := t.resetDay, period := period, scope := t.scope,
         lastRawUp := Raw(sample, Up), lastRawDown := Raw(sample, Down),
         periodUp := NewTotal(t, sample, Up), periodDown := NewTotal(t, sample, Down),
         baselineUp := 0, baselineDown := 0,
         lastBootUnix := if sample.boot != 0 then sample.boot else if Foreign(t) then 0 else t.state.lastBootUnix,
         counterVersion := 1,
         interfaces := sample.current,
         resetDaySource := t.source, policyResetDay := t.policy,
         revision := t.state.revision,
         historyIncomplete := (Foreign(t) || t.state.period == period) && t.state.historyIncomplete))
  }

  // ------------------------------------------------- policies, saves, restarts

  function SetPolicy(t: Tracker, day: int): Tracker {
    var known := t.policy == Some(day);
    t.(resetDay := day, source := "server", policy := Some(day),
       state := if known then t.state else t.state.(policyResetDay := Some(day), resetDaySource := "server"))
  }

  function Bump(t: Tracker): Tracker {
    t.(state := t.state.(revision := t.state.revision + 1))
  }

  function Load(recovery: Recovery): TrafficState {
    match recovery
    case Found(state, _) => state
    case AllCorrupt(_) => BLANK.(historyIncomplete := true)
    case _ => BLANK
  }

  // A new process with the given command line.
  function New(resetDay: int, scope: string, recovery: Recovery): Tracker {
    var state := Load(recovery);
    var local := Tracker(NormalizeResetDay(resetDay), scope, "local", None, state);
    if state.policyResetDay.Some? && 1 <= state.policyResetDay.value <= 31 then
      local.(resetDay := state.policyResetDay.value, policy := state.policyResetDay, source := "server")
    else if 1 <= state.resetDay <= 31 && state.period != NoPeriod && state.resetDaySource != "local" then
      local.(resetDay := state.resetDay, source := "restored")
    else local
  }
}
