// The on-disk generations of the traffic counters: decoding, recovery of the
// best generation, and the sequence of file operations of one save.
module TrafficFiles {

  datatype Option<T> = None | Some(value: T)

  datatype Counters = Counters(sent: nat, recv: nat)

  // A period start as saved: absent, a date (as its day number), or a text
  // that is not a date.
  datatype Period = NoPeriod | Starting(day: int) | NotADate(text: string)

  datatype TrafficState = TrafficState(
    resetDay: int,
    period: Period,
    scope: string,
    lastRawUp: int,
    lastRawDown: int,
    periodUp: int,
    periodDown: int,
    baselineUp: int,
    baselineDown: int,
    lastBootUnix: int,
    counterVersion: int,
    interfaces: map<string, Counters>,
    resetDaySource: string,
    policyResetDay: Option<int>,
    revision: nat,
    historyIncomplete: bool)

  // Go's zero value.
  const BLANK := TrafficState(0, NoPeriod, "", 0, 0, 0, 0, 0, 0, 0, 0, map[], "", None, 0, false)

  // What a file holds: the encoding of a state, bytes that are no encoding
  // (a partly written file among them), or something that cannot be read.
  datatype Content = Encoded(state: TrafficState) | Damaged(bytes: string) | Unreadable

  datatype Decoding = Decoded(state: TrafficState) | NewerFormat | Invalid

  function Validate(state: TrafficState): Decoding {
    if state.counterVersion > 1 then NewerFormat
    else if state.policyResetDay.Some? && (state.policyResetDay.value < 1 || state.policyResetDay.value > 31) then Invalid
    else if state.lastRawUp < 0 || state.lastRawDown < 0 || state.periodUp < 0 || state.periodDown < 0
            || state.baselineUp < 0 || state.baselineDown < 0 || state.lastBootUnix < 0 || state.counterVersion < 0 then Invalid
    else if state.period == NoPeriod then
      if state.policyResetDay.None? || state.periodUp != 0 || state.periodDown != 0 then Invalid else Decoded(state)
    else if state.resetDay < 1 || state.resetDay > 31 then Invalid
    else if state.period.NotADate? then Invalid
    else Decoded(state)
  }

  function Decode(content: Content): Decoding
    requires !content.Unreadable?
  {
    match content
    case Encoded(state) => Validate(state)
    case Damaged(_) => Invalid
  }

  // ---------------------------------------------------------------- directory

  // Names next to the state file: itself, its backup, the legacy staging name,
  // numbered staging and backup-staging files, and quarantined files.
  datatype Name = Main | Bak | LegacyTmp | Temp(id: nat) | Backup(id: nat) | Corrupt(id: nat)

  type Directory = map<Name, Content>

  predicate IsCandidate(name: Name) {
    !name.Corrupt?
  }

  // The staging and backup-staging files of the directory, in any order.
  ghost predicate IsListing(listing: seq<Name>, dir: Directory) {
    && (forall i, j :: 0 <= i < j < |listing| ==> listing[i] != listing[j])
    && (forall name :: name in listing <==> name in dir && (name.Temp? || name.Backup?))
  }

  function Candidates(listing: seq<Name>): seq<Name> {
    [Main, Bak, LegacyTmp] + listing
  }

  // -------------------------------------------------------------------- reading

  datatype Scan = Scan(best: Option<Name>, corrupt: seq<Name>, fatal: bool)

  function Readable(dir: Directory, name: Name): Option<TrafficState> {
    if name in dir && !dir[name].Unreadable? && Decode(dir[name]).Decoded? then Some(Decode(dir[name]).state) else None
  }

  predicate IsFatal(dir: Directory, name: Name) {
    name in dir && (dir[name].Unreadable? || Decode(dir[name]).NewerFormat?)
  }

  predicate IsCorrupt(dir: Directory, name: Name) {
    name in dir && !dir[name].Unreadable? && Decode(dir[name]).Invalid?
  }

  function ScanFiles(dir: Directory, names: seq<Name>): (scan: Scan)
    ensures scan.best.Some? ==> Readable(dir, scan.best.value).Some?
  {
    if names == [] then Scan(None, [], false)
    else
      var scan := ScanFiles(dir, names[..|names| - 1]);
      var name := names[|names| - 1];
      if IsFatal(dir, name) then scan.(fatal := true)
      else if IsCorrupt(dir, name) then scan.(corrupt := scan.corrupt + [name])
      else if Readable(dir, name).Some?
              && (scan.best.None? || Readable(dir, name).value.revision > Readable(dir, scan.best.value).value.revision) then
        scan.(best := Some(name))
      else scan
  }

  datatype Recovery = Found(state: TrafficState, name: Name) | Missing | AllCorrupt(names: seq<Name>) | Fatal

  function ReadState(dir: Directory, listing: seq<Name>): Recovery {
    var scan := ScanFiles(dir, Candidates(listing));
    if scan.fatal then Fatal
    else if scan.best.Some? then Found(Readable(dir, scan.best.value).value, scan.best.value)
    else if |scan.corrupt| > 0 then AllCorrupt(scan.corrupt)
    else Missing
  }

  // The loop of readTrafficResetState.
  method ReadTrafficResetState(dir: Directory, listing: seq<Name>) returns (recovery: Recovery)
    ensures recovery == ReadState(dir, listing)
  {
    var names := Candidates(listing);
    var best: Option<Name> := None;
    var bestState := BLANK;
    var corrupt: seq<Name> := [];
    var isFatal := false;
    for i := 0 to |names|
      invariant ScanFiles(dir, names[..i]) == Scan(best, corrupt, isFatal)
      invariant best.Some? ==> Readable(dir, best.value) == Some(bestState)
    {
      assert names[..i + 1][..i] == names[..i];
      var name := names[i];
      if name in dir {
        if dir[name].Unreadable? {
          isFatal := true;
        } else {
          match Decode(dir[name]) {
            case NewerFormat => isFatal := true;
            case Invalid => corrupt := corrupt + [name];
            case Decoded(state) =>
              if best == None || state.revision > bestState.revision {
                best, bestState := Some(name), state;
              }
          }
        }
      }
    }
    assert names[..|names|] == names;
    if isFatal {
      return Fatal;
    }
    if best != None {
      return Found(bestState, best.value);
    }
    if |corrupt| > 0 {
      return AllCorrupt(corrupt);
    }
    return Missing;
  }

  // -------------------------------------------------------------------- writing

  datatype Op = Put(name: Name, content: Content) | Rename(from: Name, to: Name) | Remove(name: Name)

  function Apply(dir: Directory, op: Op): Directory {
    match op
    case Put(name, content) => dir[name := content]
    case Rename(from, to) => if from in dir && from != to then (dir - {from})[to := dir[from]] else dir
    case Remove(name) => dir - {name}
  }

  function ApplyAll(dir: Directory, ops: seq<Op>): Directory
    decreases |ops|
  {
    if ops == [] then dir else ApplyAll(Apply(dir, ops[0]), ops[1..])
  }

  // The names CreateTemp hands out during one save, and the bytes found in a
  // temporary file whose writing was cut short.
  datatype Scratch = Scratch(temp: nat, backup: nat, corrupt: seq<nat>, partial: string)

  function WriteTemp(name: Name, content: Content, scratch: Scratch): seq<Op> {
    [Put(name, Damaged(scratch.partial)), Put(name, content)]
  }

  function QuarantineOps(dir: Directory, names: seq<Name>, ids: seq<nat>, scratch: Scratch): seq<Op>
    requires |ids| >= |names| && forall i :: 0 <= i < |names| ==> names[i] in dir
  {
    if names == [] then []
    else
      QuarantineOps(dir, names[..|names| - 1], ids, scratch)
      + WriteTemp(Corrupt(ids[|names| - 1]), dir[names[|names| - 1]], scratch) + [Remove(names[|names| - 1])]
  }

  function RemoveOps(names: seq<Name>): seq<Op> {
    if names == [] then []
    else RemoveOps(names[..|names| - 1])
         + (if names[|names| - 1] != Main && names[|names| - 1] != Bak then [Remove(names[|names| - 1])] else [])
  }

  // The state as written: history stays marked incomplete within a period.
  function Written(recovery: Recovery, state: TrafficState): TrafficState {
    match recovery
    case AllCorrupt(_) => state.(historyIncomplete := true)
    case Found(prior, _) =>
      if prior.period == state.period && prior.historyIncomplete then state.(historyIncomplete := true) else state
    case _ => state
  }

  lemma {:induction false} CorruptNames(dir: Directory, names: seq<Name>)
    ensures forall i :: 0 <= i < |ScanFiles(dir, names).corrupt| ==> IsCorrupt(dir, ScanFiles(dir, names).corrupt[i])
    ensures forall name :: name in ScanFiles(dir, names).corrupt ==> name in names
  {
    if names != [] {
      CorruptNames(dir, names[..|names| - 1]);
    }
  }

  function Quarantine(dir: Directory, listing: seq<Name>, scratch: Scratch): seq<Op>
    requires |scratch.corrupt| >= |ScanFiles(dir, Candidates(listing)).corrupt|
  {
    CorruptNames(dir, Candidates(listing));
    match ReadState(dir, listing)
    case AllCorrupt(names) => QuarantineOps(dir, names, scratch.corrupt, scratch)
    case _ => []
  }

  function Stage(dir: Directory, listing: seq<Name>, state: TrafficState, scratch: Scratch): seq<Op> {
    WriteTemp(Temp(scratch.temp), Encoded(Written(ReadState(dir, listing), state)), scratch)
  }

  function BackupOps(content: Content, scratch: Scratch): seq<Op> {
    WriteTemp(Backup(scratch.backup), content, scratch) + [Rename(Backup(scratch.backup), Bak)]
  }

  function KeepPrior(dir: Directory, listing: seq<Name>, scratch: Scratch): seq<Op> {
    match ReadState(dir, listing)
    case Found(_, name) => BackupOps(dir[name], scratch)
    case _ => []
  }

  // The operations that put the new generation in place.
  function CommitOps(dir: Directory, listing: seq<Name>, state: TrafficState, scratch: Scratch): seq<Op>
    requires |scratch.corrupt| >= |ScanFiles(dir, Candidates(listing)).corrupt|
  {
    Quarantine(dir, listing, scratch) + Stage(dir, listing, state, scratch) + KeepPrior(dir, listing, scratch)
    + [Rename(Temp(scratch.temp), Main)]
  }

  // All file operations of a save, in order. `leftovers` lists the staging
  // files that the final clean-up finds.
  function SaveOps(dir: Directory, listing: seq<Name>, state: TrafficState, scratch: Scratch, leftovers: seq<Name>): seq<Op>
    requires |scratch.corrupt| >= |ScanFiles(dir, Candidates(listing)).corrupt|
  {
    if ReadState(dir, listing).Fatal? then []
    else CommitOps(dir, listing, state, scratch) + RemoveOps(Candidates(leftovers))
  }

  // Fresh scratch names: CreateTemp never returns an existing file.
  ghost predicate FreshScratch(dir: Directory, scratch: Scratch) {
    && Temp(scratch.temp) !in dir && Backup(scratch.backup) !in dir
    && (forall i :: 0 <= i < |scratch.corrupt| ==> Corrupt(scratch.corrupt[i]) !in dir)
    && (forall i, j :: 0 <= i < j < |scratch.corrupt| ==> scratch.corrupt[i] != scratch.corrupt[j])
  }
}
