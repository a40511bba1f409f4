// Restart transparency: a tracker that is reloaded from its directory at any
// points reports the same totals as one that never stopped.
module TrafficRestarts {
  import opened Calendar
  import opened TrafficFiles
  import opened TrafficCrash
  import opened TrafficWriter
  import opened TrafficRuns
  import opened TrafficTracker
  import opened TrafficAcceptance

  // ----------------------------------------------------------- machines and runs

  // A running tracker and its directory.
  datatype Machine = Machine(tracker: Tracker, dir: Directory)

  // What a completed save meets: how the candidates are listed, which names it
  // is given, and which leftovers it manages to remove.
  datatype Disk = Disk(listing: seq<Name>, scratch: Scratch, removed: seq<Op>)

  datatype Event = Act(input: Input, disk: Disk) | Restart(listing: seq<Name>)

  function Start(line: CommandLine, dir: Directory, listing: seq<Name>): Machine {
    Machine(Begin(line, ReadState(dir, listing)), dir)
  }

  ghost predicate CanComplete(dir: Directory, disk: Disk) {
    && IsListing(disk.listing, dir) && !ReadState(dir, disk.listing).Fatal?
    && FreshScratch(dir, disk.scratch)
    && |disk.scratch.corrupt| >= |ScanFiles(dir, Candidates(disk.listing)).corrupt|
    && forall op :: op in disk.removed ==> IsCleanUp(op)
  }

  // The directory after a completed save.
  function Saved(dir: Directory, state: TrafficState, disk: Disk): Directory
    requires |disk.scratch.corrupt| >= |ScanFiles(dir, Candidates(disk.listing)).corrupt|
  {
    ApplyAll(dir, CommitOps(dir, disk.listing, state, disk.scratch) + disk.removed)
  }

  ghost predicate Enabled(m: Machine, event: Event) {
    match event
    case Act(input, disk) => Saves(m.tracker, input) ==> CanComplete(m.dir, disk)
    case Restart(listing) => IsListing(listing, m.dir)
  }

  ghost function Handle(m: Machine, event: Event, line: CommandLine): Machine
    requires Enabled(m, event)
  {
    match event
    case Act(input, disk) =>
      var next := Continue(m.tracker, input);
      Machine(next, if Saves(m.tracker, input) then Saved(m.dir, next.state, disk) else m.dir)
    case Restart(listing) => Start(line, m.dir, listing)
  }

  ghost predicate Legal(m: Machine, events: seq<Event>, line: CommandLine)
    decreases |events|
  {
    events != [] ==> Enabled(m, events[0]) && Legal(Handle(m, events[0], line), events[1..], line)
  }

  ghost function Reports(m: Machine, events: seq<Event>, line: CommandLine): seq<(int, int)>
    requires Legal(m, events, line)
    decreases |events|
  {
    if events == [] then []
    else
      var next := Handle(m, events[0], line);
      (if events[0].Act? && events[0].input.Take? then [(next.tracker.state.periodUp, next.tracker.state.periodDown)] else [])
      + Reports(next, events[1..], line)
  }

  function Inputs(events: seq<Event>): seq<Input> {
    if events == [] then []
    else (if events[0].Act? then [events[0].input] else []) + Inputs(events[1..])
  }

  // ---------------------------------------------------------------- invariants

  // Trackers that differ at most in the completeness mark of their history.
  ghost predicate Alike(t: Tracker, u: Tracker) {
    u == t.(state := t.state.(historyIncomplete := u.state.historyIncomplete))
  }

  function RecoveryOf(generation: Option<TrafficState>): Recovery {
    if generation.Some? then Found(generation.value, Main) else Missing
  }

  // The directory holds one generation or none, no newer than the tracker, and
  // a process started from it is like the running one.
  ghost predicate Synced(m: Machine, generation: Option<TrafficState>, line: CommandLine) {
    && Rooted(m.tracker, line) && Holds(m.dir, generation)
    && (generation.Some? ==> generation.value.revision <= m.tracker.state.revision)
    && Alike(m.tracker, Begin(line, RecoveryOf(generation)))
  }

  // Every reader of a directory recovers the generation it holds.
  lemma StartFromHeld(line: CommandLine, dir: Directory, generation: Option<TrafficState>, listing: seq<Name>)
    requires Holds(dir, generation) && IsListing(listing, dir)
    ensures Alike(Start(line, dir, listing).tracker, Begin(line, RecoveryOf(generation)))
    ensures Synced(Start(line, dir, listing), generation, line)
  {
    hide Holds, ReadState;
    HoldsReads(dir, generation, listing);
    BeginRooted(line, ReadState(dir, listing));
  }

  // A completed save of an acceptable state: the directory then holds it.
  lemma SaveHolds(m: Machine, generation: Option<TrafficState>, line: CommandLine, input: Input, disk: Disk)
    requires Synced(m, generation, line) && Saves(m.tracker, input) && CanComplete(m.dir, disk)
    requires Validate(Continue(m.tracker, input).state).Decoded?
    ensures var state := Continue(m.tracker, input).state;
            Holds(Saved(m.dir, state, disk), Some(SavedAs(m.dir, disk.listing, state)))
  {
    hide Holds, Validate, ReadState, Adjust, SetPolicy, CommitOps;
    var state := Continue(m.tracker, input).state;
    assert state.revision == m.tracker.state.revision + 1 by {
      RevisionRises(m.tracker, input);
    }
    AcceptedAsIs(state);
    FinishedSaveSafe(m.dir, generation, disk.listing, state, disk.scratch, disk.removed);
  }

  lemma RevisionRises(t: Tracker, input: Input)
    requires Saves(t, input)
    ensures Continue(t, input).state.revision == t.state.revision + 1
  {
  }

  lemma AcceptedAsIs(state: TrafficState)
    requires Validate(state).Decoded?
    ensures Validate(state) == Decoded(state)
  {
  }

  // What is written differs from the tracker's state at most in the mark.
  lemma SavedIsLike(t: Tracker, line: CommandLine, input: Input, dir: Directory, listing: seq<Name>)
    requires Rooted(t, line) && Saves(t, input) && Validate(Continue(t, input).state).Decoded?
    ensures var next := Continue(t, input);
            var saved := SavedAs(dir, listing, next.state);
            && saved.revision == next.state.revision
            && Alike(next, Begin(line, Found(saved, Main)))
  {
    hide ReadState, NewTotal, Raw, PeriodAt, NormalizeResetDay;
    ContinueRooted(t, line, input);
  }

  lemma SaveKeepsSynced(m: Machine, generation: Option<TrafficState>, line: CommandLine, input: Input, disk: Disk)
    requires Synced(m, generation, line) && Saves(m.tracker, input) && CanComplete(m.dir, disk)
    requires Validate(Continue(m.tracker, input).state).Decoded?
    ensures var next := Handle(m, Act(input, disk), line);
            Synced(next, Some(SavedAs(m.dir, disk.listing, next.tracker.state)), line)
  {
    hide Holds, Validate, Alike, SavedAs, Saved, Continue, Saves, CanComplete, Rooted;
    SaveHolds(m, generation, line, input, disk);
    SavedIsLike(m.tracker, line, input, m.dir, disk.listing);
    ContinueRooted(m.tracker, line, input);
  }

  // An input that is not saved changes nothing that matters.
  lemma UnsavedKeepsSynced(m: Machine, generation: Option<TrafficState>, line: CommandLine, input: Input, disk: Disk)
    requires Synced(m, generation, line) && !Saves(m.tracker, input)
    ensures Handle(m, Act(input, disk), line) == m
  {
  }

  lemma AlikeContinues(t: Tracker, u: Tracker, input: Input)
    requires Alike(t, u)
    ensures Alike(Continue(t, input), Continue(u, input)) && (Saves(t, input) <==> Saves(u, input))
    ensures Validate(Continue(t, input).state).Decoded? <==> Validate(Continue(u, input).state).Decoded?
  {
    hide Wrap, LastReset, Raw;
    if input.Take? {
      AdjustAlike(t, u, input.sample);
    }
  }

  lemma AdjustAlike(t: Tracker, u: Tracker, sample: Sample)
    requires Alike(t, u)
    ensures Alike(Adjust(t, sample), Adjust(u, sample))
  {
    hide Wrap, LastReset;
    assert BasisOf(t, sample) == BasisOf(u, sample);
    assert NewTotal(t, sample, Up) == NewTotal(u, sample, Up) && NewTotal(t, sample, Down) == NewTotal(u, sample, Down);
  }

  // ------------------------------------------------- saves that can be completed

  function IdOf(name: Name): nat {
    if name.Temp? || name.Backup? || name.Corrupt? then name.id else 0
  }

  lemma {:induction false} SomeListing(names: set<Name>) returns (listing: seq<Name>, bound: nat)
    ensures forall i, j :: 0 <= i < j < |listing| ==> listing[i] != listing[j]
    ensures forall name :: name in listing <==> name in names && (name.Temp? || name.Backup?)
    ensures forall name :: name in names ==> IdOf(name) < bound
    decreases |names|
  {
    if names == {} {
      listing, bound := [], 0;
    } else {
      var name :| name in names;
      var rest, least := SomeListing(names - {name});
      listing := if name.Temp? || name.Backup? then rest + [name] else rest;
      bound := if IdOf(name) < least then least else IdOf(name) + 1;
      assert forall n :: n in names ==> n == name || n in names - {name};
    }
  }

  // Whatever a directory holds, a save over it can be completed.
  lemma SaveCanComplete(dir: Directory, generation: Option<TrafficState>) returns (disk: Disk)
    requires Holds(dir, generation)
    ensures CanComplete(dir, disk)
  {
    hide Holds;
    var listing, bound := SomeListing(dir.Keys);
    var count := |ScanFiles(dir, Candidates(listing)).corrupt|;
    var ids := seq(count, i requires 0 <= i < count => bound + i);
    disk := Disk(listing, Scratch(bound, bound, ids, ""), []);
    HoldsReads(dir, generation, listing);
    assert forall name :: name in dir ==> IdOf(name) < bound;
    assert IdOf(Temp(bound)) == bound && IdOf(Backup(bound)) == bound;
    forall i | 0 <= i < |ids|
      ensures Corrupt(ids[i]) !in dir
    {
      assert IdOf(Corrupt(ids[i])) == bound + i;
    }
  }

  // -------------------------------------------------------------- main results

  lemma {:induction false} ReportsAlike(t: Tracker, m: Machine, generation: Option<TrafficState>, events: seq<Event>, line: CommandLine)
    requires Alike(t, m.tracker) && Synced(m, generation, line) && Legal(m, events, line)
    requires AllAccepted(t, Inputs(events))
    ensures Reports(m, events, line) == Reported(t, Inputs(events))
    decreases |events|
  {
    hide Alike, Synced, Continue, Saves, Validate, Start, CanComplete;
    if events != [] {
      var event, rest := events[0], events[1..];
      var next := Handle(m, event, line);
      match event
      case Restart(listing) =>
        assert Inputs(events) == Inputs(rest);
        RestartAlike(t, m, generation, listing, line);
        ReportsAlike(t, next, generation, rest, line);
      case Act(input, disk) =>
        assert Inputs(events) == [input] + Inputs(rest) && ([input] + Inputs(rest))[1..] == Inputs(rest);
        AlikeContinues(t, m.tracker, input);
        var held := ActSynced(t, m, generation, input, disk, line);
        SameTotals(Continue(t, input), next.tracker);
        ReportsAlike(Continue(t, input), next, held, rest, line);
    }
  }

  lemma RestartAlike(t: Tracker, m: Machine, generation: Option<TrafficState>, listing: seq<Name>, line: CommandLine)
    requires Alike(t, m.tracker) && Synced(m, generation, line) && IsListing(listing, m.dir)
    ensures Synced(Start(line, m.dir, listing), generation, line) && Alike(t, Start(line, m.dir, listing).tracker)
  {
    hide Holds, Rooted, IsListing, New, ReadState;
    StartFromHeld(line, m.dir, generation, listing);
  }

  lemma ActSynced(t: Tracker, m: Machine, generation: Option<TrafficState>, input: Input, disk: Disk, line: CommandLine)
    returns (held: Option<TrafficState>)
    requires Alike(t, m.tracker) && Synced(m, generation, line) && Enabled(m, Act(input, disk))
    requires Saves(t, input) ==> Validate(Continue(t, input).state).Decoded?
    ensures Synced(Handle(m, Act(input, disk), line), held, line)
  {
    hide Alike, Synced, Continue, Saves, Validate, CanComplete;
    AlikeContinues(t, m.tracker, input);
    if Saves(m.tracker, input) {
      SaveKeepsSynced(m, generation, line, input, disk);
      held := Some(SavedAs(m.dir, disk.listing, Continue(m.tracker, input).state));
    } else {
      UnsavedKeepsSynced(m, generation, line, input, disk);
      held := generation;
    }
  }

  lemma SameTotals(t: Tracker, u: Tracker)
    requires Alike(t, u)
    ensures t.state.periodUp == u.state.periodUp && t.state.periodDown == u.state.periodDown
  {
  }

  // A process started over a directory that holds one generation or none, and
  // restarted over it at any points between its inputs, with every save
  // completed, reports exactly what one tracker reports that takes the inputs
  // without ever stopping. The condition is on the inputs: no sum in the upper
  // half of 64 bits.
  lemma RestartsAreTransparent(line: CommandLine, dir: Directory, generation: Option<TrafficState>, listing: seq<Name>, events: seq<Event>)
    requires Holds(dir, generation) && IsListing(listing, dir)
    requires Legal(Start(line, dir, listing), events, line)
    requires AllFit(Start(line, dir, listing).tracker, Inputs(events))
    ensures Reports(Start(line, dir, listing), events, line) == Reported(Start(line, dir, listing).tracker, Inputs(events))
    ensures AllAccepted(Start(line, dir, listing).tracker, Inputs(events))
  {
    hide Holds, AllFit, AllAccepted, Reports, Reported, Legal, Validate;
    var m := Start(line, dir, listing);
    StartFromHeld(line, dir, generation, listing);
    ReadIsAccepted(dir, listing);
    SavedStatesAccepted(line, ReadState(dir, listing), Inputs(events));
    ReportsAlike(m.tracker, m, generation, events, line);
  }

  lemma ReadIsAccepted(dir: Directory, listing: seq<Name>)
    requires IsListing(listing, dir)
    ensures ReadState(dir, listing).Found? ==> Validate(ReadState(dir, listing).state).Decoded?
  {
    ReadIsBest(dir, listing);
  }
}
