// The writer of the traffic generations: file operations performed one at a
// time on a directory, each of which may fail.
module TrafficWriter {
  import opened TrafficFiles
  import opened TrafficCrash
  import opened TrafficSaves

  // What is left when a list of operations stopped after k of them, with or
  // without the removal of a temporary file that could not be finished.
  ghost predicate Stopped(dir: Directory, ops: seq<Op>, k: nat, dir': Directory) {
    k <= |ops| && (dir' == ApplyAll(dir, ops[..k]) || dir' == Abandon(dir, ops, k))
  }

  lemma StoppedAfter(dir: Directory, before: seq<Op>, ops: seq<Op>, after: seq<Op>, k: nat, dir': Directory)
    requires Stopped(ApplyAll(dir, before), ops, k, dir')
    ensures Stopped(dir, before + ops + after, |before| + k, dir')
  {
    var all := before + ops + after;
    assert all[..|before| + k] == before + ops[..k];
    ApplyAppend(dir, before, ops[..k]);
    if k > 0 {
      assert all[|before| + k - 1] == ops[k - 1];
    } else {
      assert dir' == ApplyAll(dir, all[..|before|]);
    }
  }

  lemma StoppedWithin(dir: Directory, before: seq<Op>, ops: seq<Op>, all: seq<Op>, k: nat, dir': Directory)
    requires Stopped(ApplyAll(dir, before), ops, k, dir') && before + ops <= all
    ensures Stopped(dir, all, |before| + k, dir')
  {
    StoppedAfter(dir, before, ops, all[|before + ops|..], k, dir');
    assert before + ops + all[|before + ops|..] == all;
  }

  // One damaged file further: its bytes are still in place, and moving it
  // aside completes the next block of operations.
  lemma QuarantineStep(dir: Directory, names: seq<Name>, scratch: Scratch, i: nat)
    requires QuarantineSetup(dir, names, scratch.corrupt) && i < |names|
    ensures var ids := scratch.corrupt;
            var files := ApplyAll(dir, QuarantineOps(dir, names[..i], ids, scratch));
            && names[i] in files && names[i] != Corrupt(ids[i])
            && ApplyAll(files, Block(files, names[i], ids[i], scratch))
               == ApplyAll(dir, QuarantineOps(dir, names[..i + 1], ids, scratch))
  {
    var ids := scratch.corrupt;
    QuarantineMoves(dir, names, ids, scratch, i);
    QuarantineSplits(dir, names, ids, scratch, i);
    DoneAfter(dir, QuarantineOps(dir, names[..i], ids, scratch), Block(dir, names[i], ids[i], scratch));
  }

  lemma QuarantineStops(dir: Directory, names: seq<Name>, scratch: Scratch, i: nat, k: nat, dir': Directory)
    requires QuarantineSetup(dir, names, scratch.corrupt) && i < |names|
    requires var files := ApplyAll(dir, QuarantineOps(dir, names[..i], scratch.corrupt, scratch));
             names[i] in files && Stopped(files, Block(files, names[i], scratch.corrupt[i], scratch), k, dir')
    ensures Stopped(dir, QuarantineOps(dir, names, scratch.corrupt, scratch),
                    |QuarantineOps(dir, names[..i], scratch.corrupt, scratch)| + k, dir')
  {
    var ids := scratch.corrupt;
    var before := QuarantineOps(dir, names[..i], ids, scratch);
    QuarantineMoves(dir, names, ids, scratch, i);
    QuarantineSplits(dir, names, ids, scratch, i);
    StoppedWithin(dir, before, Block(dir, names[i], ids[i], scratch), QuarantineOps(dir, names, ids, scratch), k, dir');
  }

  lemma StoppedFirst(dir: Directory, ops: seq<Op>, all: seq<Op>, k: nat, dir': Directory)
    requires Stopped(dir, ops, k, dir') && ops <= all
    ensures Stopped(dir, all, k, dir')
  {
    assert all[..k] == ops[..k];
  }

  lemma DoneAfter(dir: Directory, before: seq<Op>, ops: seq<Op>)
    ensures ApplyAll(ApplyAll(dir, before), ops) == ApplyAll(dir, before + ops)
  {
    ApplyAppend(dir, before, ops);
  }

  lemma {:induction false} QuarantineGrows(dir: Directory, names: seq<Name>, ids: seq<nat>, scratch: Scratch, n: nat)
    requires |names| <= |ids| && n <= |names| && forall i :: 0 <= i < |names| ==> names[i] in dir
    ensures QuarantineOps(dir, names[..n], ids, scratch) <= QuarantineOps(dir, names, ids, scratch)
  {
    if n == |names| {
      assert names[..n] == names;
    } else {
      QuarantineGrows(dir, names[..|names| - 1], ids, scratch, n);
      assert names[..|names| - 1][..n] == names[..n];
    }
  }

  lemma QuarantineSplits(dir: Directory, names: seq<Name>, ids: seq<nat>, scratch: Scratch, n: nat)
    requires |names| <= |ids| && n < |names| && forall i :: 0 <= i < |names| ==> names[i] in dir
    ensures QuarantineOps(dir, names[..n + 1], ids, scratch) ==
            QuarantineOps(dir, names[..n], ids, scratch) + Block(dir, names[n], ids[n], scratch)
    ensures QuarantineOps(dir, names[..n], ids, scratch) + Block(dir, names[n], ids[n], scratch)
            <= QuarantineOps(dir, names, ids, scratch)
  {
    assert names[..n + 1][..n] == names[..n];
    QuarantineGrows(dir, names, ids, scratch, n + 1);
  }

  // CreateTemp never runs out of names.
  ghost predicate EnoughScratch(dir: Directory, scratch: Scratch) {
    forall listing :: IsListing(listing, dir) ==> |scratch.corrupt| >= |ScanFiles(dir, Candidates(listing)).corrupt|
  }

  function InstallOps(prior: Option<Content>, next: TrafficState, scratch: Scratch): seq<Op> {
    WriteTemp(Temp(scratch.temp), Encoded(next), scratch)
    + (if prior.Some? then BackupOps(prior.value, scratch) else [])
    + [Rename(Temp(scratch.temp), Main)]
  }

  function Prior(dir: Directory, recovery: Recovery): Option<Content>
    requires recovery.Found? ==> recovery.name in dir
  {
    if recovery.Found? then Some(dir[recovery.name]) else None
  }

  lemma CommitSplits(dir: Directory, listing: seq<Name>, state: TrafficState, scratch: Scratch)
    requires |scratch.corrupt| >= |ScanFiles(dir, Candidates(listing)).corrupt|
    ensures var first, all := Quarantine(dir, listing, scratch), CommitOps(dir, listing, state, scratch);
            var recovery := ReadState(dir, listing);
            && first <= all
            && all == first + InstallOps(Prior(dir, recovery), Written(recovery, state), scratch)
  {
    var a, b, c := Quarantine(dir, listing, scratch), Stage(dir, listing, state, scratch), KeepPrior(dir, listing, scratch);
    var d := [Rename(Temp(scratch.temp), Main)];
    assert a + b + c + d == a + (b + c + d);
  }

  lemma StoppedQuarantine(dir: Directory, listing: seq<Name>, state: TrafficState, scratch: Scratch, k: nat, dir': Directory)
    requires |scratch.corrupt| >= |ScanFiles(dir, Candidates(listing)).corrupt|
    requires Stopped(dir, Quarantine(dir, listing, scratch), k, dir')
    ensures Stopped(dir, CommitOps(dir, listing, state, scratch), k, dir')
  {
    CommitSplits(dir, listing, state, scratch);
    StoppedFirst(dir, Quarantine(dir, listing, scratch), CommitOps(dir, listing, state, scratch), k, dir');
  }

  lemma StoppedInstall(dir: Directory, listing: seq<Name>, state: TrafficState, scratch: Scratch, k: nat, dir': Directory)
    requires |scratch.corrupt| >= |ScanFiles(dir, Candidates(listing)).corrupt|
    requires var recovery := ReadState(dir, listing);
             Stopped(ApplyAll(dir, Quarantine(dir, listing, scratch)),
                     InstallOps(Prior(dir, recovery), Written(recovery, state), scratch), k, dir')
    ensures Stopped(dir, CommitOps(dir, listing, state, scratch), |Quarantine(dir, listing, scratch)| + k, dir')
  {
    var recovery := ReadState(dir, listing);
    CommitSplits(dir, listing, state, scratch);
    StoppedWithin(dir, Quarantine(dir, listing, scratch), InstallOps(Prior(dir, recovery), Written(recovery, state), scratch),
                  CommitOps(dir, listing, state, scratch), k, dir');
  }

  lemma DoneInstall(dir: Directory, listing: seq<Name>, state: TrafficState, scratch: Scratch)
    requires |scratch.corrupt| >= |ScanFiles(dir, Candidates(listing)).corrupt|
    ensures var recovery := ReadState(dir, listing);
            ApplyAll(ApplyAll(dir, Quarantine(dir, listing, scratch)),
                     InstallOps(Prior(dir, recovery), Written(recovery, state), scratch))
            == ApplyAll(dir, CommitOps(dir, listing, state, scratch))
  {
    var recovery := ReadState(dir, listing);
    CommitSplits(dir, listing, state, scratch);
    DoneAfter(dir, Quarantine(dir, listing, scratch), InstallOps(Prior(dir, recovery), Written(recovery, state), scratch));
  }

  predicate IsCleanUp(op: Op) {
    op.Remove? && IsCandidate(op.name) && op.name != Main && op.name != Bak
  }

  class StateDirectory {
    var files: Directory

    // A single file operation: it happens, or nothing does.
    method Perform(op: Op) returns (ok: bool)
      modifies this
      ensures files == if ok then Apply(old(files), op) else old(files)
    {
      ok := *;
      if ok {
        match op
        case Put(name, content) => files := files[name := content];
        case Rename(from, to) =>
          if from in files && from != to {
            files := (files - {from})[to := files[from]];
          }
        case Remove(name) => files := files - {name};
      }
    }

    method Sync() returns (ok: bool) {
      ok := *;
    }

    // The staging files present, in the order of the directory listing.
    method List() returns (listing: seq<Name>)
      ensures IsListing(listing, files)
    {
      listing := [];
      var rest := files.Keys;
      while rest != {}
        invariant rest <= files.Keys
        invariant forall i, j :: 0 <= i < j < |listing| ==> listing[i] != listing[j]
        invariant forall name :: name in listing <==> name in files && name !in rest && (name.Temp? || name.Backup?)
        decreases |rest|
      {
        var name :| name in rest;
        rest := rest - {name};
        if name.Temp? || name.Backup? {
          listing := listing + [name];
        }
      }
    }

    method WriteSyncedTemp(name: Name, content: Content, scratch: Scratch) returns (ok: bool, ghost k: nat)
      modifies this
      ensures ok ==> files == ApplyAll(old(files), WriteTemp(name, content, scratch))
      ensures !ok ==> Stopped(old(files), WriteTemp(name, content, scratch), k, files)
    {
      ghost var ops := WriteTemp(name, content, scratch);
      ApplyThree(files, ops[0], ops[1], ops[1]);
      assert ops == [ops[0], ops[1]] && ops[..1] == [ops[0]];
      k := 0;
      ok := Perform(Put(name, Damaged(scratch.partial)));
      if ok {
        k := 1;
        ok := Perform(Put(name, content));
        if !ok {
          var removed := Perform(Remove(name));
        }
      }
    }

    // Copies one damaged file out of the way, then removes it.
    method MoveAside(name: Name, id: nat, scratch: Scratch) returns (ok: bool, ghost k: nat)
      requires name in files && name != Corrupt(id)
      modifies this
      ensures ok ==> files == ApplyAll(old(files), Block(old(files), name, id, scratch))
      ensures !ok ==> Stopped(old(files), Block(old(files), name, id, scratch), k, files)
    {
      ghost var dir, copy := files, WriteTemp(Corrupt(id), files[name], scratch);
      ok, k := WriteSyncedTemp(Corrupt(id), files[name], scratch);
      if !ok {
        StoppedAfter(dir, [], copy, [Remove(name)], k, files);
        assert [] + copy + [Remove(name)] == Block(dir, name, id, scratch);
        return;
      }
      ok := Sync();
      if ok {
        ok := Perform(Remove(name));
      }
      if ok {
        ApplyOne(ApplyAll(dir, copy), Remove(name));
        DoneAfter(dir, copy, [Remove(name)]);
      } else {
        k := 2;
        assert Block(dir, name, id, scratch)[..2] == copy;
      }
    }

    method QuarantineTrafficState(names: seq<Name>, scratch: Scratch) returns (ok: bool, ghost k: nat)
      requires QuarantineSetup(files, names, scratch.corrupt)
      modifies this
      ensures ok ==> files == ApplyAll(old(files), QuarantineOps(old(files), names, scratch.corrupt, scratch))
      ensures !ok ==> Stopped(old(files), QuarantineOps(old(files), names, scratch.corrupt, scratch), k, files)
    {
      ghost var dir := files;
      k := 0;
      for i := 0 to |names|
        invariant files == ApplyAll(dir, QuarantineOps(dir, names[..i], scratch.corrupt, scratch))
      {
        QuarantineStep(dir, names, scratch, i);
        ok, k := MoveAside(names[i], scratch.corrupt[i], scratch);
        if !ok {
          QuarantineStops(dir, names, scratch, i, k, files);
          k := |QuarantineOps(dir, names[..i], scratch.corrupt, scratch)| + k;
          return;
        }
      }
      assert names[..|names|] == names;
      ok := true;
    }

    // Keeps the generation about to be replaced as the backup file.
    method KeepGeneration(content: Content, scratch: Scratch) returns (ok: bool, ghost k: nat)
      modifies this
      ensures ok ==> files == ApplyAll(old(files), BackupOps(content, scratch))
      ensures !ok ==> Stopped(old(files), BackupOps(content, scratch), k, files)
    {
      ghost var dir, copy := files, WriteTemp(Backup(scratch.backup), content, scratch);
      ghost var rename := Rename(Backup(scratch.backup), Bak);
      ok, k := WriteSyncedTemp(Backup(scratch.backup), content, scratch);
      if !ok {
        StoppedAfter(dir, [], copy, [rename], k, files);
        assert [] + copy + [rename] == BackupOps(content, scratch);
        return;
      }
      ok := Perform(Rename(Backup(scratch.backup), Bak));
      k := 2;
      assert BackupOps(content, scratch)[..2] == copy;
      if ok {
        ApplyOne(ApplyAll(dir, copy), rename);
        DoneAfter(dir, copy, [rename]);
        ok := Sync();
        k := 3;
        assert BackupOps(content, scratch)[..3] == BackupOps(content, scratch);
      }
    }

    // Removes leftover candidates, ignoring failures.
    method CleanUp() returns (ghost listing: seq<Name>, ghost removed: seq<Op>, complete: bool)
      modifies this
      ensures files == ApplyAll(old(files), removed)
      ensures forall op :: op in removed ==> IsCleanUp(op)
      ensures IsListing(listing, old(files))
      ensures complete ==> removed == RemoveOps(Candidates(listing))
    {
      var found := List();
      listing, removed, complete := found, [], true;
      var names := Candidates(found);
      for i := 0 to |names|
        invariant files == ApplyAll(old(files), removed)
        invariant forall op :: op in removed ==> IsCleanUp(op)
        invariant complete ==> removed == RemoveOps(names[..i])
      {
        assert names[..i + 1][..i] == names[..i];
        if names[i] != Main && names[i] != Bak {
          ListedIsCandidate(old(files), listing, i);
          var ok := Perform(Remove(names[i]));
          if ok {
            ApplyOne(ApplyAll(old(files), removed), Remove(names[i]));
            DoneAfter(old(files), removed, [Remove(names[i])]);
            removed := removed + [Remove(names[i])];
          } else {
            complete := false;
          }
        }
      }
      assert names[..|names|] == names;
    }

    // Stages a new generation, keeps the prior one, and swaps the new one in.
    method Install(prior: Option<Content>, next: TrafficState, scratch: Scratch) returns (ok: bool, ghost k: nat)
      modifies this
      ensures ok ==> files == ApplyAll(old(files), InstallOps(prior, next, scratch))
      ensures !ok ==> Stopped(old(files), InstallOps(prior, next, scratch), k, files)
    {
      ghost var dir, all := files, InstallOps(prior, next, scratch);
      ghost var stage, rename := WriteTemp(Temp(scratch.temp), Encoded(next), scratch), Rename(Temp(scratch.temp), Main);
      ghost var keep := if prior.Some? then BackupOps(prior.value, scratch) else [];
      assert stage <= all && stage + keep <= all && all == stage + keep + [rename];
      ok, k := WriteSyncedTemp(Temp(scratch.temp), Encoded(next), scratch);
      if !ok {
        StoppedFirst(dir, stage, all, k, files);
        return;
      }
      if prior.Some? {
        ok, k := KeepGeneration(prior.value, scratch);
        if !ok {
          StoppedWithin(dir, stage, keep, all, k, files);
          k := |stage| + k;
          return;
        }
      }
      DoneAfter(dir, stage, keep);
      ok := Perform(Rename(Temp(scratch.temp), Main));
      if !ok {
        k := |stage + keep|;
        assert all[..k] == stage + keep;
        return;
      }
      ApplyOne(ApplyAll(dir, stage + keep), rename);
      DoneAfter(dir, stage + keep, [rename]);
      ok := Sync();
      k := |all|;
      assert all[..k] == all;
    }

    // Moves damaged generations aside when none is readable.
    method ClearDamaged(recovery: Recovery, ghost listing: seq<Name>, scratch: Scratch) returns (ok: bool, ghost k: nat)
      requires IsListing(listing, files) && FreshScratch(files, scratch) && EnoughScratch(files, scratch)
      requires recovery == ReadState(files, listing)
      modifies this
      ensures ok ==> files == ApplyAll(old(files), Quarantine(old(files), listing, scratch))
      ensures !ok ==> Stopped(old(files), Quarantine(old(files), listing, scratch), k, files)
    {
      ok, k := true, 0;
      if recovery.AllCorrupt? {
        CorruptSetup(files, listing, scratch);
        ok, k := QuarantineTrafficState(recovery.names, scratch);
      }
    }

    // Everything before clean-up.
    method Replace(recovery: Recovery, ghost listing: seq<Name>, state: TrafficState, scratch: Scratch) returns (ok: bool, ghost k: nat)
      requires IsListing(listing, files) && FreshScratch(files, scratch) && EnoughScratch(files, scratch)
      requires recovery == ReadState(files, listing) && !recovery.Fatal?
      modifies this
      ensures ok ==> files == ApplyAll(old(files), CommitOps(old(files), listing, state, scratch))
      ensures !ok ==> Stopped(old(files), CommitOps(old(files), listing, state, scratch), k, files)
    {
      ghost var dir := files;
      var prior := Prior(files, recovery);
      ok, k := ClearDamaged(recovery, listing, scratch);
      if !ok {
        StoppedQuarantine(dir, listing, state, scratch, k, files);
        return;
      }
      var next := if recovery.AllCorrupt? then state.(historyIncomplete := true) else state;
      if recovery.Found? && recovery.state.period == state.period && recovery.state.historyIncomplete {
        next := next.(historyIncomplete := true);
      }
      assert next == Written(recovery, state);
      ok, k := Install(prior, next, scratch);
      if ok {
        DoneInstall(dir, listing, state, scratch);
      } else {
        StoppedInstall(dir, listing, state, scratch, k, files);
        k := |Quarantine(dir, listing, scratch)| + k;
      }
    }

    // The whole save. On failure some prefix of its operations took place; on
    // success all of them did, up to clean-up removals that failed.
    method WriteTrafficResetState(state: TrafficState, scratch: Scratch)
      returns (ok: bool, ghost listing: seq<Name>, ghost k: nat, ghost leftovers: seq<Name>, ghost removed: seq<Op>, complete: bool)
      requires FreshScratch(files, scratch) && EnoughScratch(files, scratch)
      modifies this
      ensures IsListing(listing, old(files))
      ensures ReadState(old(files), listing).Fatal? ==> !ok && files == old(files)
      ensures !ok && !ReadState(old(files), listing).Fatal? ==>
                Stopped(old(files), CommitOps(old(files), listing, state, scratch), k, files)
      ensures ok ==> forall op :: op in removed ==> IsCleanUp(op)
      ensures ok ==> files == ApplyAll(old(files), CommitOps(old(files), listing, state, scratch) + removed)
      ensures ok && complete ==>
                && IsListing(leftovers, Committed(old(files), listing, state, scratch))
                && files == ApplyAll(old(files), SaveOps(old(files), listing, state, scratch, leftovers))
    {
      ghost var dir := files;
      var found := List();
      listing, k, leftovers, removed, complete := found, 0, [], [], false;
      var recovery := ReadTrafficResetState(files, found);
      if recovery.Fatal? {
        return false, listing, k, leftovers, removed, complete;
      }
      ok, k := Replace(recovery, listing, state, scratch);
      if ok {
        leftovers, removed, complete := CleanUp();
        DoneAfter(dir, CommitOps(dir, listing, state, scratch), removed);
      }
    }
  }
}
