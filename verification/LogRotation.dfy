// The agent's rotating log: what its files hold after any run of writes.
module LogRotation {

  const DAY := 86_400

  // A file and the time of its last change.
  datatype File = File(data: string, time: int)

  datatype Settings = Settings(maxBytes: nat, backups: nat, maxAge: int)

  // The files by number (0 is the current one), and what the writer tracks of
  // the current one: its size and the day it belongs to.
  datatype Log = Log(files: map<nat, File>, size: nat, day: int)

  // The clock as read by one write: for the day, for pruning, and when the
  // file is opened and written.
  datatype Times = Times(day: int, prune: int, write: int)

  ghost predicate ValidSettings(settings: Settings) {
    settings.maxBytes >= 1 && settings.maxAge > 0
  }

  // ------------------------------------------------------------ one operation

  predicate HasSource(files: map<nat, File>, i: nat) {
    i >= 1 && i - 1 in files
  }

  function Shifted(files: map<nat, File>, backups: nat): map<nat, File> {
    map i: nat | i <= backups && HasSource(files, i) :: files[i - 1]
  }

  predicate Stale(file: File, settings: Settings, now: int) {
    file.time < now - settings.maxAge || |file.data| > settings.maxBytes
  }

  function Pruned(files: map<nat, File>, settings: Settings, now: int): map<nat, File> {
    map i | i in files && !(1 <= i <= settings.backups && Stale(files[i], settings, now)) :: files[i]
  }

  function Opened(files: map<nat, File>, now: int): Log {
    var after := if 0 in files then files else files[0 := File("", now)];
    var size := |after[0].data|;
    Log(after, size, if size == 0 then now / DAY else after[0].time / DAY)
  }

  function Rotated(log: Log, settings: Settings, times: Times): Log {
    Opened(Pruned(Shifted(log.files, settings.backups), settings, times.prune), times.write)
  }

  function Truncated(data: string, settings: Settings): string {
    if |data| > settings.maxBytes then data[..settings.maxBytes] else data
  }

  predicate NeedsRotation(log: Log, data: string, settings: Settings, times: Times) {
    log.size > 0 && (log.size + |Truncated(data, settings)| > settings.maxBytes || log.day != times.day / DAY)
  }

  function Appended(log: Log, data: string, times: Times): Log
    requires 0 in log.files
  {
    var file := log.files[0];
    Log(log.files[0 := File(file.data + data, if data == "" then file.time else times.write)], log.size + |data|, times.day / DAY)
  }

  function Written(log: Log, data: string, settings: Settings, times: Times): Log
    requires 0 in log.files
  {
    Appended(if NeedsRotation(log, data, settings, times) then Rotated(log, settings, times) else log,
             Truncated(data, settings), times)
  }

  // ---------------------------------------------------------------- invariant

  // Files are numbered without gaps.
  ghost predicate Numbered(files: map<nat, File>, oldest: nat) {
    forall i: nat :: i in files <==> i <= oldest
  }

  // The contents from the oldest file to the current one.
  function Joined(files: map<nat, File>, oldest: nat): string
    requires forall i: nat :: i <= oldest ==> i in files
  {
    if oldest == 0 then files[0].data else files[oldest].data + Joined(files, oldest - 1)
  }

  predicate IsSuffix(part: string, whole: string) {
    |part| <= |whole| && whole[|whole| - |part|..] == part
  }

  ghost predicate FilesOk(files: map<nat, File>, oldest: nat, settings: Settings, now: int) {
    && oldest <= settings.backups
    && Numbered(files, oldest)
    && (forall i :: i in files ==> |files[i].data| <= settings.maxBytes && files[i].time <= now)
    && (forall i, j :: i in files && j in files && i < j ==> files[j].time <= files[i].time)
  }

  ghost predicate LogOk(log: Log, oldest: nat, settings: Settings, stream: string, now: int) {
    && FilesOk(log.files, oldest, settings, now)
    && log.size == |log.files[0].data|
    && IsSuffix(Joined(log.files, oldest), stream)
  }

  // ------------------------------------------------------------------ rotation

  lemma {:induction false} JoinedSuffix(files: map<nat, File>, n: nat, oldest: nat)
    requires n <= oldest && forall i: nat :: i <= oldest ==> i in files
    ensures IsSuffix(Joined(files, n), Joined(files, oldest))
  {
    if n < oldest {
      JoinedSuffix(files, n, oldest - 1);
    }
  }

  lemma SuffixTrans(a: string, b: string, c: string)
    requires IsSuffix(a, b) && IsSuffix(b, c)
    ensures IsSuffix(a, c)
  {
  }

  lemma EmptySuffix(whole: string)
    ensures IsSuffix("", whole)
  {
  }

  lemma SuffixAppend(a: string, b: string, data: string)
    requires IsSuffix(a, b)
    ensures IsSuffix(a + data, b + data)
  {
  }

  // Files that moved up by one place, over a new current file.
  lemma {:induction false} JoinedShifted(files: map<nat, File>, files': map<nat, File>, n: nat)
    requires forall i: nat :: i <= n ==> i in files'
    requires forall i: nat :: i < n ==> i in files
    requires forall i: nat :: 1 <= i <= n ==> files'[i] == files[i - 1]
    ensures Joined(files', n) == (if n == 0 then "" else Joined(files, n - 1)) + files'[0].data
  {
    if n == 1 {
      assert Joined(files', 0) == files'[0].data;
    } else if n > 1 {
      JoinedShifted(files, files', n - 1);
      assert files[n - 1].data + (Joined(files, n - 2) + files'[0].data) == files[n - 1].data + Joined(files, n - 2) + files'[0].data;
    }
  }

  // How many files a rotation keeps: the newest ones, up to the number of
  // backups, as long as they are young enough.
  function Kept(files: map<nat, File>, settings: Settings, now: int, n: nat): (kept: nat)
    ensures kept <= n
  {
    if n == 0 then 0
    else if n - 1 in files && Stale(files[n - 1], settings, now) then Kept(files, settings, now, n - 1)
    else n
  }

  lemma {:induction false} KeptAre(files: map<nat, File>, settings: Settings, now: int, n: nat)
    requires forall i :: 0 <= i < n ==> i in files && |files[i].data| <= settings.maxBytes
    requires forall i, j :: 0 <= i < j < n ==> files[j].time <= files[i].time
    ensures forall i :: 0 <= i < n ==> (Stale(files[i], settings, now) <==> i >= Kept(files, settings, now, n))
  {
    if n > 0 && Stale(files[n - 1], settings, now) {
      KeptAre(files, settings, now, n - 1);
    } else if n > 0 {
      forall i | 0 <= i < n
        ensures !Stale(files[i], settings, now)
      {
        assert files[n - 1].time <= files[i].time;
      }
    }
  }

  function Moved(oldest: nat, settings: Settings): nat {
    if oldest + 1 < settings.backups then oldest + 1 else settings.backups
  }

  lemma RotatedFiles(files: map<nat, File>, oldest: nat, settings: Settings, times: Times, kept: nat)
    requires Numbered(files, oldest) && kept <= Moved(oldest, settings)
    requires forall i :: 0 <= i < Moved(oldest, settings) ==> (Stale(files[i], settings, times.prune) <==> i >= kept)
    ensures var after := Opened(Pruned(Shifted(files, settings.backups), settings, times.prune), times.write).files;
            && Numbered(after, kept) && after[0] == File("", times.write)
            && (forall i: nat :: i < kept ==> i in files)
            && (forall i: nat :: 1 <= i <= kept ==> after[i] == files[i - 1])
  {
    var shifted := Shifted(files, settings.backups);
    assert forall i: nat :: i in shifted <==> 1 <= i <= Moved(oldest, settings);
    var pruned := Pruned(shifted, settings, times.prune);
    forall i: nat
      ensures i in pruned <==> 1 <= i <= kept
    {
      if 1 <= i <= Moved(oldest, settings) {
        assert shifted[i] == files[i - 1];
      }
    }
  }

  lemma KeptAreNewest(files: map<nat, File>, oldest: nat, settings: Settings, now: int, at: int)
    requires FilesOk(files, oldest, settings, now)
    ensures var n := Moved(oldest, settings);
            forall i :: 0 <= i < n ==> i in files && (Stale(files[i], settings, at) <==> i >= Kept(files, settings, at, n))
  {
    hide Stale, Kept;
    var n := Moved(oldest, settings);
    forall i | 0 <= i < n
      ensures i in files
    {
      assert i <= oldest;
    }
    KeptAre(files, settings, at, n);
  }

  lemma RotatedOk(files: map<nat, File>, after: map<nat, File>, oldest: nat, kept: nat, settings: Settings, now: int, later: int)
    requires FilesOk(files, oldest, settings, now) && now <= later && kept <= settings.backups
    requires Numbered(after, kept) && after[0] == File("", later)
    requires forall i: nat :: i < kept ==> i in files
    requires forall i: nat :: 1 <= i <= kept ==> after[i] == files[i - 1]
    ensures FilesOk(after, kept, settings, later)
  {
    forall i | i in after
      ensures |after[i].data| <= settings.maxBytes && after[i].time <= later
    {
    }
    forall i, j | i in after && j in after && i < j
      ensures after[j].time <= after[i].time
    {
      assert after[j] == files[j - 1];
    }
  }

  lemma RotatedSuffix(files: map<nat, File>, after: map<nat, File>, oldest: nat, kept: nat, stream: string)
    requires Numbered(files, oldest) && Numbered(after, kept) && after[0].data == "" && kept <= oldest + 1
    requires forall i: nat :: i < kept ==> i in files
    requires forall i: nat :: 1 <= i <= kept ==> after[i] == files[i - 1]
    requires IsSuffix(Joined(files, oldest), stream)
    ensures IsSuffix(Joined(after, kept), stream)
  {
    hide Joined, IsSuffix;
    JoinedShifted(files, after, kept);
    if kept == 0 {
      EmptySuffix(stream);
      assert "" + after[0].data == "";
    } else {
      JoinedSuffix(files, kept - 1, oldest);
      assert Joined(files, kept - 1) + "" == Joined(files, kept - 1);
      SuffixTrans(Joined(files, kept - 1), Joined(files, oldest), stream);
    }
  }

  // A rotation keeps a newest part of the files, drops only what exceeds the
  // number of backups or is too old, and starts an empty current file.
  lemma RotationKeeps(log: Log, oldest: nat, settings: Settings, stream: string, now: int, times: Times)
    requires ValidSettings(settings) && LogOk(log, oldest, settings, stream, now) && now <= times.prune <= times.write
    ensures var kept := Kept(log.files, settings, times.prune, Moved(oldest, settings));
            && LogOk(Rotated(log, settings, times), kept, settings, stream, times.write)
            && Rotated(log, settings, times).size == 0
            && (kept < Moved(oldest, settings) ==> kept in log.files && log.files[kept].time < times.prune - settings.maxAge)
  {
    hide Joined, IsSuffix, Kept, Pruned, Shifted;
    var n := Moved(oldest, settings);
    var kept := Kept(log.files, settings, times.prune, n);
    var after := Rotated(log, settings, times);
    KeptAreNewest(log.files, oldest, settings, now, times.prune);
    RotatedFiles(log.files, oldest, settings, times, kept);
    RotatedOk(log.files, after.files, oldest, kept, settings, now, times.write);
    RotatedSuffix(log.files, after.files, oldest, kept, stream);
  }

  lemma {:induction false} JoinedAppended(files: map<nat, File>, files': map<nat, File>, oldest: nat, data: string)
    requires forall i: nat :: i <= oldest ==> i in files && i in files'
    requires forall i: nat :: 1 <= i <= oldest ==> files'[i] == files[i]
    requires files'[0].data == files[0].data + data
    ensures Joined(files', oldest) == Joined(files, oldest) + data
  {
    if oldest > 0 {
      JoinedAppended(files, files', oldest - 1, data);
    }
  }

  lemma AppendKeeps(log: Log, oldest: nat, settings: Settings, stream: string, now: int, data: string, times: Times)
    requires LogOk(log, oldest, settings, stream, now) && now <= times.write
    requires log.size + |data| <= settings.maxBytes
    ensures LogOk(Appended(log, data, times), oldest, settings, stream + data, times.write)
  {
    var after := Appended(log, data, times);
    JoinedAppended(log.files, after.files, oldest, data);
    SuffixAppend(Joined(log.files, oldest), stream, data);
  }

  lemma WriteKeeps(log: Log, oldest: nat, settings: Settings, stream: string, now: int, data: string, times: Times) returns (oldest': nat)
    requires ValidSettings(settings) && LogOk(log, oldest, settings, stream, now)
    requires now <= times.day <= times.prune <= times.write
    ensures LogOk(Written(log, data, settings, times), oldest', settings, stream + Truncated(data, settings), times.write)
  {
    if NeedsRotation(log, data, settings, times) {
      oldest' := Kept(log.files, settings, times.prune, Moved(oldest, settings));
      RotationKeeps(log, oldest, settings, stream, now, times);
      AppendKeeps(Rotated(log, settings, times), oldest', settings, stream, times.write, Truncated(data, settings), times);
    } else {
      oldest' := oldest;
      AppendKeeps(log, oldest, settings, stream, now, Truncated(data, settings), times);
    }
  }

  // ---------------------------------------------------------------- whole runs

  datatype Entry = Entry(data: string, times: Times)

  // Writes under a clock that never goes back.
  ghost predicate InOrder(entries: seq<Entry>, start: int)
    decreases |entries|
  {
    entries != [] ==>
      && start <= entries[0].times.day <= entries[0].times.prune <= entries[0].times.write
      && InOrder(entries[1..], entries[0].times.write)
  }

  function Stream(entries: seq<Entry>, settings: Settings): string {
    if entries == [] then "" else Truncated(entries[0].data, settings) + Stream(entries[1..], settings)
  }

  ghost predicate Reaches(log: Log, entries: seq<Entry>, settings: Settings, end: Log)
    decreases |entries|
  {
    if entries == [] then end == log
    else 0 in log.files && Reaches(Written(log, entries[0].data, settings, entries[0].times), entries[1..], settings, end)
  }

  // After any run of writes: every file is within its limit, the tracked size
  // is the file's, and the files joined from oldest to newest are an end part
  // of everything written (cut to the limit write by write), of at most
  // (backups + 1) times the limit.
  lemma {:induction false} RunKeeps(log: Log, oldest: nat, settings: Settings, stream: string, now: int, entries: seq<Entry>)
      returns (end: Log, oldest': nat, later: int)
    requires ValidSettings(settings) && LogOk(log, oldest, settings, stream, now) && InOrder(entries, now)
    ensures Reaches(log, entries, settings, end)
    ensures LogOk(end, oldest', settings, stream + Stream(entries, settings), later)
    ensures |Joined(end.files, oldest')| <= (oldest' + 1) * settings.maxBytes
    decreases |entries|
  {
    hide LogOk, Joined, Written, Stream;
    if entries == [] {
      end, oldest', later := log, oldest, now;
      StreamEnds(settings);
      assert stream + "" == stream;
      JoinedBounded(log, oldest, settings, stream, now);
    } else {
      CurrentExists(log, oldest, settings, stream, now);
      var next := Written(log, entries[0].data, settings, entries[0].times);
      var moved := WriteKeeps(log, oldest, settings, stream, now, entries[0].data, entries[0].times);
      end, oldest', later := RunKeeps(next, moved, settings, stream + Truncated(entries[0].data, settings), entries[0].times.write, entries[1..]);
      StreamGoesOn(stream, entries, settings);
    }
  }

  lemma StreamEnds(settings: Settings)
    ensures Stream([], settings) == ""
  {
  }

  lemma StreamGoesOn(stream: string, entries: seq<Entry>, settings: Settings)
    requires entries != []
    ensures stream + Stream(entries, settings) == stream + Truncated(entries[0].data, settings) + Stream(entries[1..], settings)
  {
  }

  lemma CurrentExists(log: Log, oldest: nat, settings: Settings, stream: string, now: int)
    requires LogOk(log, oldest, settings, stream, now)
    ensures 0 in log.files
  {
  }

  lemma {:induction false} JoinedLength(files: map<nat, File>, oldest: nat, maxBytes: nat)
    requires forall i: nat :: i <= oldest ==> i in files && |files[i].data| <= maxBytes
    ensures |Joined(files, oldest)| <= (oldest + 1) * maxBytes
  {
    if oldest > 0 {
      JoinedLength(files, oldest - 1, maxBytes);
    }
  }

  lemma JoinedBounded(log: Log, oldest: nat, settings: Settings, stream: string, now: int)
    requires LogOk(log, oldest, settings, stream, now)
    ensures |Joined(log.files, oldest)| <= (oldest + 1) * settings.maxBytes
  {
    JoinedLength(log.files, oldest, settings.maxBytes);
  }

  // ----------------------------------------------------------------- the writer

  // The files while a rotation has renamed those above `index`.
  function Shifting(files: map<nat, File>, backups: nat, index: nat): map<nat, File> {
    map j: nat | j <= backups && (if j > index then HasSource(files, j) else j in files && (j < index || index == backups)) ::
      if j > index then files[j - 1] else files[j]
  }

  lemma ShiftStep(before: map<nat, File>, backups: nat, index: nat)
    requires 1 <= index <= backups && forall i :: i in before ==> i <= backups
    ensures var now := Shifting(before, backups, index);
            var freed := if index == backups then now - {index} else now;
            var moved := if index - 1 in freed then (freed - {index - 1})[index := freed[index - 1]] else freed;
            moved == Shifting(before, backups, index - 1)
  {
  }

  lemma ShiftEnds(before: map<nat, File>, backups: nat)
    requires forall i :: i in before ==> i <= backups
    ensures Shifting(before, backups, backups) == before
    ensures (if backups == 0 then Shifting(before, 0, 0) - {0} else Shifting(before, backups, 0)) == Shifted(before, backups)
  {
  }

  class RotatingAgentLog {
    const settings: Settings
    var files: map<nat, File>
    var size: nat
    var day: int
    ghost var stream: string
    ghost var oldest: nat
    ghost var clock: int

    function View(): Log
      reads this
    {
      Log(files, size, day)
    }

    ghost predicate Valid()
      reads this
    {
      ValidSettings(settings) && LogOk(View(), oldest, settings, stream, clock)
    }

    constructor (settings: Settings, now: int)
      requires ValidSettings(settings)
      ensures Valid() && stream == "" && clock == now && this.settings == settings
      ensures View() == Opened(map[], now)
    {
      this.settings := settings;
      files, size, day := map[], 0, 0;
      stream, oldest, clock := "", 0, now;
      new;
      Open(now);
      assert View() == Log(map[0 := File("", now)], 0, now / DAY);
    }

    method Open(now: int)
      modifies this`files, this`size, this`day
      ensures View() == Opened(old(files), now)
    {
      if 0 !in files {
        files := files[0 := File("", now)];
      }
      size, day := |files[0].data|, files[0].time / DAY;
      if size == 0 {
        day := now / DAY;
      }
    }

    method Prune(now: int)
      modifies this`files
      ensures files == Pruned(old(files), settings, now)
    {
      var cutoff := now - settings.maxAge;
      for index := 1 to settings.backups + 1
        invariant files == map i | i in old(files) && !(1 <= i < index && Stale(old(files)[i], settings, now)) :: old(files)[i]
      {
        if index in files && (files[index].time < cutoff || |files[index].data| > settings.maxBytes) {
          files := files - {index};
        }
      }
    }

    method Rotate(times: Times)
      requires forall i :: i in files ==> i <= settings.backups
      modifies this`files, this`size, this`day
      ensures View() == Rotated(old(View()), settings, times)
    {
      ghost var before := files;
      hide Shifting, Shifted, Pruned;
      ShiftEnds(before, settings.backups);
      var index: nat := settings.backups;
      while index >= 1
        invariant index <= settings.backups
        invariant files == Shifting(before, settings.backups, index)
      {
        ShiftStep(before, settings.backups, index);
        if index == settings.backups {
          files := files - {index};
        }
        if index - 1 in files {
          files := (files - {index - 1})[index := files[index - 1]];
        }
        index := index - 1;
      }
      if settings.backups == 0 {
        files := files - {0};
      }
      assert files == Shifted(before, settings.backups);
      Prune(times.prune);
      Open(times.write);
    }

    method Write(data: string, times: Times) returns (written: nat)
      requires Valid() && clock <= times.day <= times.prune <= times.write
      modifies this
      ensures Valid() && clock == times.write
      ensures stream == old(stream) + Truncated(data, settings)
      ensures View() == Written(old(View()), data, settings, times)
      ensures written == |data|
    {
      hide Joined, IsSuffix, Pruned, Shifted, Kept;
      written := |data|;
      var cut := data;
      if |cut| > settings.maxBytes {
        cut := cut[..settings.maxBytes];
      }
      oldest := WriteKeeps(View(), oldest, settings, stream, clock, data, times);
      if size > 0 && (size + |cut| > settings.maxBytes || day != times.day / DAY) {
        Rotate(times);
      }
      var file := files[0];
      files := files[0 := File(file.data + cut, if cut == "" then file.time else times.write)];
      size, day := size + |cut|, times.day / DAY;
      stream, clock := stream + cut, times.write;
    }
  }
}
