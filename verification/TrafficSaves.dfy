// Whole saves: what quarantine preserves, what a completed save leaves on
// disk, and when it is what the next reader recovers.
module TrafficSaves {
  import opened TrafficFiles
  import opened TrafficCrash

  // -------------------------------------------------------- quarantined bytes

  ghost predicate Distinct(names: seq<Name>) {
    forall i, j :: 0 <= i < j < |names| ==> names[i] != names[j]
  }

  ghost predicate DistinctIds(ids: seq<nat>) {
    forall i, j :: 0 <= i < j < |ids| ==> ids[i] != ids[j]
  }

  // The first n damaged files have moved to their quarantine names.
  ghost predicate Quarantined(dir: Directory, dir': Directory, names: seq<Name>, ids: seq<nat>, n: nat)
    requires n <= |names| <= |ids|
  {
    && (forall i :: 0 <= i < n ==> names[i] in dir && Corrupt(ids[i]) in dir' && dir'[Corrupt(ids[i])] == dir[names[i]])
    && (forall i :: n <= i < |names| ==> names[i] in dir && names[i] in dir' && dir'[names[i]] == dir[names[i]])
    && (forall i :: 0 <= i < n ==> names[i] !in dir')
    && (forall name :: name in dir' && !name.Corrupt? ==> name in dir && dir'[name] == dir[name])
    && (forall name :: name in dir && name !in names ==> name in dir' && dir'[name] == dir[name])
  }

  ghost predicate QuarantineSetup(dir: Directory, names: seq<Name>, ids: seq<nat>) {
    && |names| <= |ids| && Distinct(names) && DistinctIds(ids)
    && (forall i :: 0 <= i < |names| ==> names[i] in dir && !names[i].Corrupt?)
    && (forall i :: 0 <= i < |ids| ==> Corrupt(ids[i]) !in dir)
  }

  function Block(dir: Directory, name: Name, id: nat, scratch: Scratch): seq<Op>
    requires name in dir
  {
    WriteTemp(Corrupt(id), dir[name], scratch) + [Remove(name)]
  }

  lemma ApplyOne(dir: Directory, op: Op)
    ensures ApplyAll(dir, [op]) == Apply(dir, op)
  {
    assert [op][1..] == [];
  }

  lemma ApplyThree(dir: Directory, a: Op, b: Op, c: Op)
    ensures ApplyAll(dir, [a]) == Apply(dir, a)
    ensures ApplyAll(dir, [a, b]) == Apply(Apply(dir, a), b)
    ensures ApplyAll(dir, [a, b, c]) == Apply(Apply(Apply(dir, a), b), c)
  {
    ApplyOne(dir, a);
    ApplyOne(Apply(dir, a), b);
    ApplyOne(Apply(Apply(dir, a), b), c);
    assert [a, b][1..] == [b] && [b, c][1..] == [c] && [a, b, c][1..] == [b, c];
    assert ApplyAll(Apply(dir, a), [b, c]) == ApplyAll(Apply(Apply(dir, a), b), [c]);
  }

  lemma BlockMoves(dir: Directory, dir1: Directory, names: seq<Name>, ids: seq<nat>, n: nat, scratch: Scratch)
    requires QuarantineSetup(dir, names, ids) && n < |names|
    requires Quarantined(dir, dir1, names, ids, n)
    ensures Quarantined(dir, ApplyAll(dir1, Block(dir, names[n], ids[n], scratch)), names, ids, n + 1)
  {
    var name, copy := names[n], Corrupt(ids[n]);
    ApplyThree(dir1, Put(copy, Damaged(scratch.partial)), Put(copy, dir[name]), Remove(name));
    var dir2 := ApplyAll(dir1, Block(dir, name, ids[n], scratch));
    assert Block(dir, name, ids[n], scratch) == [Put(copy, Damaged(scratch.partial)), Put(copy, dir[name]), Remove(name)];
    assert dir2 == (dir1[copy := dir[name]]) - {name};
    forall i | 0 <= i < n + 1
      ensures Corrupt(ids[i]) in dir2 && dir2[Corrupt(ids[i])] == dir[names[i]] && names[i] !in dir2
    {
      if i < n {
        assert ids[i] != ids[n];
        assert names[i] !in dir1 && !names[i].Corrupt?;
      }
    }
    forall i | n + 1 <= i < |names|
      ensures names[i] in dir2 && dir2[names[i]] == dir[names[i]]
    {
      assert names[n] != names[i] && !names[i].Corrupt?;
    }
  }

  lemma {:induction false} QuarantineMoves(dir: Directory, names: seq<Name>, ids: seq<nat>, scratch: Scratch, n: nat)
    requires QuarantineSetup(dir, names, ids) && n <= |names|
    ensures Quarantined(dir, ApplyAll(dir, QuarantineOps(dir, names[..n], ids, scratch)), names, ids, n)
  {
    if n > 0 {
      QuarantineMoves(dir, names, ids, scratch, n - 1);
      assert names[..n][..n - 1] == names[..n - 1];
      var before := QuarantineOps(dir, names[..n - 1], ids, scratch);
      assert QuarantineOps(dir, names[..n], ids, scratch) == before + Block(dir, names[n - 1], ids[n - 1], scratch);
      ApplyAppend(dir, before, Block(dir, names[n - 1], ids[n - 1], scratch));
      BlockMoves(dir, ApplyAll(dir, before), names, ids, n - 1, scratch);
    }
  }

  // Every damaged file's bytes are in some file.
  ghost predicate BytesKept(dir: Directory, dir': Directory, names: seq<Name>) {
    forall i :: 0 <= i < |names| ==> names[i] in dir && dir[names[i]] in dir'.Values
  }

  lemma QuarantinedKept(dir: Directory, dir': Directory, names: seq<Name>, ids: seq<nat>, n: nat)
    requires n <= |names| <= |ids| && Quarantined(dir, dir', names, ids, n)
    ensures BytesKept(dir, dir', names)
  {
    forall i | 0 <= i < |names|
      ensures names[i] in dir && dir[names[i]] in dir'.Values
    {
      if i < n {
        assert dir'[Corrupt(ids[i])] == dir[names[i]];
      } else {
        assert dir'[names[i]] == dir[names[i]];
      }
    }
  }

  // Quarantining keeps the bytes of every damaged generation in some file at
  // every step.
  lemma {:induction false} QuarantineKeepsBytes(dir: Directory, names: seq<Name>, ids: seq<nat>, scratch: Scratch, n: nat, k: nat)
    requires QuarantineSetup(dir, names, ids) && n <= |names|
    requires k <= |QuarantineOps(dir, names[..n], ids, scratch)|
    ensures BytesKept(dir, ApplyAll(dir, QuarantineOps(dir, names[..n], ids, scratch)[..k]), names)
  {
    if n == 0 {
      QuarantineMoves(dir, names, ids, scratch, 0);
      QuarantinedKept(dir, dir, names, ids, 0);
    } else {
      assert names[..n][..n - 1] == names[..n - 1];
      var before := QuarantineOps(dir, names[..n - 1], ids, scratch);
      var block := Block(dir, names[n - 1], ids[n - 1], scratch);
      var ops := QuarantineOps(dir, names[..n], ids, scratch);
      assert ops == before + block;
      if k <= |before| {
        assert ops[..k] == before[..k];
        QuarantineKeepsBytes(dir, names, ids, scratch, n - 1, k);
      } else if k == |before| + 3 {
        assert ops[..k] == ops;
        QuarantineMoves(dir, names, ids, scratch, n);
        QuarantinedKept(dir, ApplyAll(dir, ops), names, ids, n);
      } else {
        QuarantineMoves(dir, names, ids, scratch, n - 1);
        var dir1 := ApplyAll(dir, before);
        QuarantinedKept(dir, dir1, names, ids, n - 1);
        assert ops[..k] == before + block[..k - |before|];
        ApplyAppend(dir, before, block[..k - |before|]);
        CopyingKeeps(dir, dir1, names, ids, n - 1, scratch, k - |before|);
      }
    }
  }

  lemma CopyingKeeps(dir: Directory, dir1: Directory, names: seq<Name>, ids: seq<nat>, n: nat, scratch: Scratch, j: nat)
    requires QuarantineSetup(dir, names, ids) && n < |names| && 1 <= j <= 2
    requires Quarantined(dir, dir1, names, ids, n)
    ensures BytesKept(dir, ApplyAll(dir1, Block(dir, names[n], ids[n], scratch)[..j]), names)
  {
    var copy := Corrupt(ids[n]);
    var block := Block(dir, names[n], ids[n], scratch);
    assert block == [block[0], block[1], block[2]];
    ApplyThree(dir1, block[0], block[1], block[2]);
    assert block[..1] == [block[0]] && block[..2] == [block[0], block[1]];
    var dir2 := ApplyAll(dir1, block[..j]);
    forall i | 0 <= i < |names|
      ensures names[i] in dir && dir[names[i]] in dir2.Values
    {
      if i < n {
        assert ids[i] != ids[n];
        assert dir2[Corrupt(ids[i])] == dir[names[i]];
      } else {
        assert dir2[names[i]] == dir[names[i]];
      }
    }
  }

  lemma CandidatesDistinct(dir: Directory, listing: seq<Name>)
    requires IsListing(listing, dir)
    ensures Distinct(Candidates(listing))
  {
    var names := Candidates(listing);
    forall i, j | 0 <= i < j < |names|
      ensures names[i] != names[j]
    {
      if j >= 3 {
        assert names[j] == listing[j - 3] && listing[j - 3] in listing;
        if i >= 3 {
          assert names[i] == listing[i - 3];
        }
      }
    }
  }

  lemma {:induction false} CorruptDistinct(dir: Directory, names: seq<Name>)
    requires Distinct(names)
    ensures Distinct(ScanFiles(dir, names).corrupt)
    ensures forall name :: name in names && IsCorrupt(dir, name) ==> name in ScanFiles(dir, names).corrupt
  {
    if names != [] {
      var front, last := names[..|names| - 1], names[|names| - 1];
      CorruptDistinct(dir, front);
      CorruptNames(dir, front);
      assert names == front + [last];
      var before := ScanFiles(dir, front).corrupt;
      assert forall i :: 0 <= i < |before| ==> before[i] in before && before[i] != last;
    }
  }

  // When no generation is readable, the damaged files are all the candidates.
  lemma CorruptSetup(dir: Directory, listing: seq<Name>, scratch: Scratch)
    requires IsListing(listing, dir) && FreshScratch(dir, scratch) && ReadState(dir, listing).AllCorrupt?
    requires |scratch.corrupt| >= |ReadState(dir, listing).names|
    ensures QuarantineSetup(dir, ReadState(dir, listing).names, scratch.corrupt)
    ensures forall name :: name in dir && IsCandidate(name) ==> name in ReadState(dir, listing).names
  {
    var names := Candidates(listing);
    CandidatesDistinct(dir, listing);
    CorruptDistinct(dir, names);
    CorruptNames(dir, names);
    ReadIsBest(dir, listing);
    var corrupt := ReadState(dir, listing).names;
    forall i | 0 <= i < |corrupt|
      ensures corrupt[i] in dir && !corrupt[i].Corrupt?
    {
      assert corrupt[i] in corrupt;
      var j :| 0 <= j < |names| && names[j] == corrupt[i];
      ListedIsCandidate(dir, listing, j);
    }
    forall name | name in dir && IsCandidate(name)
      ensures name in corrupt
    {
      CandidateListed(dir, listing, name);
      assert Readable(dir, name).None? && !IsFatal(dir, name);
    }
  }

  predicate LeavesQuarantine(op: Op) {
    match op
    case Put(name, _) => IsCandidate(name)
    case Rename(from, to) => IsCandidate(from) && IsCandidate(to)
    case Remove(name) => IsCandidate(name)
  }

  lemma {:induction false} QuarantineStays(dir: Directory, ops: seq<Op>)
    requires forall i :: 0 <= i < |ops| ==> LeavesQuarantine(ops[i])
    ensures forall name: Name :: name.Corrupt? ==>
              (name in ApplyAll(dir, ops) <==> name in dir) && (name in dir ==> ApplyAll(dir, ops)[name] == dir[name])
    decreases |ops|
  {
    if ops != [] {
      assert LeavesQuarantine(ops[0]);
      var dir1 := Apply(dir, ops[0]);
      assert forall name: Name :: name.Corrupt? ==> (name in dir1 <==> name in dir) && (name in dir ==> dir1[name] == dir[name]);
      QuarantineStays(dir1, ops[1..]);
    }
  }

  lemma RestLeavesQuarantine(dir: Directory, listing: seq<Name>, state: TrafficState, scratch: Scratch, leftovers: seq<Name>)
    requires forall name :: name in leftovers ==> IsCandidate(name)
    ensures var rest := Stage(dir, listing, state, scratch) + Tail(dir, listing, scratch, leftovers);
            forall i :: 0 <= i < |rest| ==> LeavesQuarantine(rest[i])
  {
    CleanUpQuiet(Candidates(leftovers), state);
    forall name | name in Candidates(leftovers)
      ensures IsCandidate(name)
    {
      var j :| 0 <= j < |Candidates(leftovers)| && Candidates(leftovers)[j] == name;
      assert j >= 3 ==> name == leftovers[j - 3];
    }
  }

  // A save over damaged generations keeps the bytes of each of them in some
  // file, however far it gets.
  lemma DamagedBytesSurvive(dir: Directory, listing: seq<Name>, state: TrafficState, scratch: Scratch, leftovers: seq<Name>, k: nat)
    requires IsListing(listing, dir) && FreshScratch(dir, scratch) && ReadState(dir, listing).AllCorrupt?
    requires |scratch.corrupt| >= |ReadState(dir, listing).names|
    requires forall name :: name in leftovers ==> IsCandidate(name)
    requires k <= |SaveOps(dir, listing, state, scratch, leftovers)|
    ensures BytesKept(dir, ApplyAll(dir, SaveOps(dir, listing, state, scratch, leftovers)[..k]), ReadState(dir, listing).names)
  {
    CorruptSetup(dir, listing, scratch);
    RestLeavesQuarantine(dir, listing, state, scratch, leftovers);
    var names := ReadState(dir, listing).names;
    var rest := Stage(dir, listing, state, scratch) + Tail(dir, listing, scratch, leftovers);
    SaveSplits(dir, listing, state, scratch, leftovers);
    BytesSurvive(dir, names, scratch.corrupt, scratch, rest, k);
  }

  lemma SaveSplits(dir: Directory, listing: seq<Name>, state: TrafficState, scratch: Scratch, leftovers: seq<Name>)
    requires |scratch.corrupt| >= |ScanFiles(dir, Candidates(listing)).corrupt| && !ReadState(dir, listing).Fatal?
    ensures SaveOps(dir, listing, state, scratch, leftovers) ==
            Quarantine(dir, listing, scratch) + (Stage(dir, listing, state, scratch) + Tail(dir, listing, scratch, leftovers))
  {
    var a, b := Quarantine(dir, listing, scratch), Stage(dir, listing, state, scratch);
    var c, d, e := KeepPrior(dir, listing, scratch), [Rename(Temp(scratch.temp), Main)], RemoveOps(Candidates(leftovers));
    assert a + b + c + d + e == a + (b + (c + d + e));
  }

  lemma BytesSurvive(dir: Directory, names: seq<Name>, ids: seq<nat>, scratch: Scratch, rest: seq<Op>, k: nat)
    requires QuarantineSetup(dir, names, ids)
    requires forall i :: 0 <= i < |rest| ==> LeavesQuarantine(rest[i])
    requires k <= |QuarantineOps(dir, names, ids, scratch) + rest|
    ensures BytesKept(dir, ApplyAll(dir, (QuarantineOps(dir, names, ids, scratch) + rest)[..k]), names)
  {
    var first := QuarantineOps(dir, names, ids, scratch);
    assert names[..|names|] == names;
    if k <= |first| {
      assert (first + rest)[..k] == first[..k];
      QuarantineKeepsBytes(dir, names, ids, scratch, |names|, k);
    } else {
      var more := rest[..k - |first|];
      assert (first + rest)[..k] == first + more;
      ApplyAppend(dir, first, more);
      QuarantineMoves(dir, names, ids, scratch, |names|);
      QuarantineStays(ApplyAll(dir, first), more);
      QuarantinedStaysKept(dir, ApplyAll(dir, first), ApplyAll(ApplyAll(dir, first), more), names, ids);
    }
  }

  lemma QuarantinedStaysKept(dir: Directory, dir1: Directory, dir2: Directory, names: seq<Name>, ids: seq<nat>)
    requires |names| <= |ids| && Quarantined(dir, dir1, names, ids, |names|)
    requires forall name: Name :: name.Corrupt? && name in dir1 ==> name in dir2 && dir2[name] == dir1[name]
    ensures BytesKept(dir, dir2, names)
  {
    forall i | 0 <= i < |names|
      ensures names[i] in dir && dir[names[i]] in dir2.Values
    {
      assert dir2[Corrupt(ids[i])] == dir[names[i]];
    }
  }

  // ------------------------------------------------------- a completed save

  lemma {:induction false} CleanedUp(dir: Directory, names: seq<Name>)
    ensures forall name :: name in ApplyAll(dir, RemoveOps(names)) <==> name in dir && (name !in names || name == Main || name == Bak)
    ensures forall name :: name in ApplyAll(dir, RemoveOps(names)) ==> ApplyAll(dir, RemoveOps(names))[name] == dir[name]
  {
    if names != [] {
      var front, last := names[..|names| - 1], names[|names| - 1];
      CleanedUp(dir, front);
      assert names == front + [last];
      var before := RemoveOps(front);
      if last != Main && last != Bak {
        ApplyAppend(dir, before, [Remove(last)]);
        ApplyOne(ApplyAll(dir, before), Remove(last));
      } else {
        assert RemoveOps(names) == before;
      }
    }
  }

  // The directory once the new generation is in place, before clean-up.
  function Committed(dir: Directory, listing: seq<Name>, state: TrafficState, scratch: Scratch): Directory
    requires |scratch.corrupt| >= |ScanFiles(dir, Candidates(listing)).corrupt|
  {
    ApplyAll(dir, CommitOps(dir, listing, state, scratch))
  }

  // After the quarantine: the prior candidates, if one of them was readable.
  lemma AfterQuarantine(dir: Directory, listing: seq<Name>, scratch: Scratch)
    requires IsListing(listing, dir) && FreshScratch(dir, scratch) && !ReadState(dir, listing).Fatal?
    requires |scratch.corrupt| >= |ScanFiles(dir, Candidates(listing)).corrupt|
    ensures var dir1 := ApplyAll(dir, Quarantine(dir, listing, scratch));
            if ReadState(dir, listing).Found? then dir1 == dir
            else forall name :: name in dir1 ==> !IsCandidate(name)
  {
    match ReadState(dir, listing)
    case AllCorrupt(names) =>
      CorruptSetup(dir, listing, scratch);
      assert names[..|names|] == names;
      QuarantineMoves(dir, names, scratch.corrupt, scratch, |names|);
    case Missing =>
      ReadIsBest(dir, listing);
      CandidatesDistinct(dir, listing);
      CorruptDistinct(dir, Candidates(listing));
      forall name | name in dir
        ensures !IsCandidate(name)
      {
        if IsCandidate(name) {
          CandidateListed(dir, listing, name);
        }
      }
    case Found(_, _) =>
  }

  ghost predicate Replaced(dir: Directory, listing: seq<Name>, state: TrafficState, final: Directory) {
    var recovery := ReadState(dir, listing);
    && Main in final && final[Main] == Encoded(Written(recovery, state))
    && (recovery.Found? ==> recovery.name in dir && Bak in final && final[Bak] == dir[recovery.name])
    && (!recovery.Found? ==> Bak !in final)
  }

  // The directory with the staged generation, and the prior one kept.
  lemma StagedFiles(dir1: Directory, temp: Name, next: TrafficState, keep: seq<Op>, prior: Option<Content>, scratch: Scratch)
    requires temp == Temp(scratch.temp)
    requires keep == if prior.Some? then BackupOps(prior.value, scratch) else []
    ensures var staged := dir1[temp := Encoded(next)];
            && ApplyAll(dir1, WriteTemp(temp, Encoded(next), scratch)) == staged
            && ApplyAll(staged, keep) ==
               if prior.Some? then (staged - {Backup(scratch.backup)})[Bak := prior.value] else staged
  {
    var stage := WriteTemp(temp, Encoded(next), scratch);
    ApplyThree(dir1, stage[0], stage[1], stage[1]);
    assert stage == [stage[0], stage[1]];
    var staged := dir1[temp := Encoded(next)];
    if prior.Some? {
      assert keep == [keep[0], keep[1], keep[2]];
      ApplyThree(staged, keep[0], keep[1], keep[2]);
    }
  }

  lemma CommittedFiles(dir: Directory, listing: seq<Name>, state: TrafficState, scratch: Scratch)
    requires IsListing(listing, dir) && FreshScratch(dir, scratch) && !ReadState(dir, listing).Fatal?
    requires |scratch.corrupt| >= |ScanFiles(dir, Candidates(listing)).corrupt|
    ensures Replaced(dir, listing, state, Committed(dir, listing, state, scratch))
  {
    var recovery, temp := ReadState(dir, listing), Temp(scratch.temp);
    var first, stage, keep := Quarantine(dir, listing, scratch), Stage(dir, listing, state, scratch), KeepPrior(dir, listing, scratch);
    var dir1 := ApplyAll(dir, first);
    StagedFiles(dir1, temp, Written(recovery, state), keep, if recovery.Found? then Some(dir[recovery.name]) else None, scratch);
    ApplyAppend(dir, first, stage);
    ApplyAppend(dir, first + stage, keep);
    ApplyAppend(dir, first + stage + keep, [Rename(temp, Main)]);
    ApplyOne(ApplyAll(dir, first + stage + keep), Rename(temp, Main));
    AfterQuarantine(dir, listing, scratch);
  }

  // A completed save leaves exactly the new generation as the main file, the
  // one it replaced (if any) as the backup, and no other candidate: damaged
  // files beside a readable generation are gone.
  lemma CompletedSave(dir: Directory, listing: seq<Name>, state: TrafficState, scratch: Scratch, leftovers: seq<Name>)
    requires IsListing(listing, dir) && FreshScratch(dir, scratch) && !ReadState(dir, listing).Fatal?
    requires |scratch.corrupt| >= |ScanFiles(dir, Candidates(listing)).corrupt|
    requires IsListing(leftovers, Committed(dir, listing, state, scratch))
    ensures var final := ApplyAll(dir, SaveOps(dir, listing, state, scratch, leftovers));
            && Replaced(dir, listing, state, final)
            && forall name :: name in final && IsCandidate(name) ==> name == Main || name == Bak
  {
    CommittedFiles(dir, listing, state, scratch);
    var committed := CommitOps(dir, listing, state, scratch);
    var names := Candidates(leftovers);
    assert SaveOps(dir, listing, state, scratch, leftovers) == committed + RemoveOps(names);
    ApplyAppend(dir, committed, RemoveOps(names));
    CleanedUp(ApplyAll(dir, committed), names);
    var final := ApplyAll(dir, SaveOps(dir, listing, state, scratch, leftovers));
    forall name | name in final && IsCandidate(name)
      ensures name == Main || name == Bak
    {
      CandidateListed(ApplyAll(dir, committed), leftovers, name);
    }
  }

  lemma HasMember(listing: seq<Name>)
    ensures listing == [] || exists name :: name in listing
  {
    if listing != [] {
      assert listing[0] in listing;
    }
  }

  lemma TwoFiles(dir: Directory, listing: seq<Name>, state: TrafficState)
    requires IsListing(listing, dir) && Main in dir && dir[Main] == Encoded(state) && Validate(state) == Decoded(state)
    requires forall name :: name in dir && IsCandidate(name) ==> name == Main || name == Bak
    requires Bak in dir ==> Readable(dir, Bak).Some?
    ensures ReadState(dir, listing) ==
            if Bak in dir && Readable(dir, Bak).value.revision > state.revision
            then Found(Readable(dir, Bak).value, Bak) else Found(state, Main)
  {
    HasMember(listing);
    assert Candidates(listing) == [] + [Main] + [Bak] + [LegacyTmp];
    ScanNext(dir, [], Main);
    assert ScanFiles(dir, [] + [Main]) == Scan(Some(Main), [], false);
    ScanNext(dir, [] + [Main], Bak);
    ScanNext(dir, [] + [Main] + [Bak], LegacyTmp);
  }

  lemma ScanNext(dir: Directory, front: seq<Name>, name: Name)
    ensures var scan := ScanFiles(dir, front);
            ScanFiles(dir, front + [name]) ==
              if IsFatal(dir, name) then scan.(fatal := true)
              else if IsCorrupt(dir, name) then scan.(corrupt := scan.corrupt + [name])
              else if Readable(dir, name).Some?
                      && (scan.best.None? || Readable(dir, name).value.revision > Readable(dir, scan.best.value).value.revision) then
                scan.(best := Some(name))
              else scan
  {
    assert (front + [name])[..|front + [name]| - 1] == front;
  }

  // Exactly when a completed save is what the next reader recovers: when its
  // revision is not below the one it replaced. A save with a smaller revision
  // (made after a load that failed on an unreadable file) is lost.
  lemma SaveReadsBackIff(dir: Directory, listing: seq<Name>, state: TrafficState, scratch: Scratch, leftovers: seq<Name>,
                         later: seq<Name>)
    requires IsListing(listing, dir) && FreshScratch(dir, scratch) && !ReadState(dir, listing).Fatal?
    requires |scratch.corrupt| >= |ScanFiles(dir, Candidates(listing)).corrupt|
    requires IsListing(leftovers, Committed(dir, listing, state, scratch))
    requires IsListing(later, ApplyAll(dir, SaveOps(dir, listing, state, scratch, leftovers)))
    requires Validate(state) == Decoded(state)
    ensures var recovery := ReadState(dir, listing);
            var after := ReadState(ApplyAll(dir, SaveOps(dir, listing, state, scratch, leftovers)), later);
            && (after == Found(Written(recovery, state), Main) <==> !(recovery.Found? && recovery.state.revision > state.revision))
            && (recovery.Found? && recovery.state.revision > state.revision ==> after == Found(recovery.state, Bak))
  {
    CompletedSave(dir, listing, state, scratch, leftovers);
    ReadIsBest(dir, listing);
    var final := ApplyAll(dir, SaveOps(dir, listing, state, scratch, leftovers));
    var recovery := ReadState(dir, listing);
    if recovery.Found? {
      assert Readable(final, Bak) == Readable(dir, recovery.name);
    }
    TwoFiles(final, later, Written(recovery, state));
  }
}
