// Crash safety of the traffic generations: what a reader recovers after a
// save was cut short between any two file operations.
module TrafficCrash {
  import opened TrafficFiles

  // ---------------------------------------------------------------- reading

  lemma {:induction false} ScanFatal(dir: Directory, names: seq<Name>)
    ensures ScanFiles(dir, names).fatal <==> exists i :: 0 <= i < |names| && IsFatal(dir, names[i])
  {
    if names != [] {
      var front := names[..|names| - 1];
      ScanFatal(dir, front);
      if ScanFiles(dir, front).fatal {
        var i :| 0 <= i < |front| && IsFatal(dir, front[i]);
        assert IsFatal(dir, names[i]);
      }
    }
  }

  lemma {:induction false} ScanEmpty(dir: Directory, names: seq<Name>)
    ensures ScanFiles(dir, names).best.None? <==> forall i :: 0 <= i < |names| ==> Readable(dir, names[i]).None?
  {
    if names != [] {
      var front := names[..|names| - 1];
      ScanEmpty(dir, front);
      assert forall i :: 0 <= i < |front| ==> front[i] == names[i];
    }
  }

  lemma BestStays(dir: Directory, names: seq<Name>, i: nat)
    requires |names| > 0 && i < |names| - 1 && FirstBest(dir, names[..|names| - 1], i)
    ensures var last := names[|names| - 1];
            if Readable(dir, last).Some? && Readable(dir, last).value.revision > Readable(dir, names[i]).value.revision
            then FirstBest(dir, names, |names| - 1) else FirstBest(dir, names, i)
  {
    var front := names[..|names| - 1];
    assert forall j :: 0 <= j < |front| ==> front[j] == names[j];
  }

  lemma {:induction false} ScanBest(dir: Directory, names: seq<Name>) returns (i: nat)
    requires ScanFiles(dir, names).best.Some?
    ensures i < |names| && FirstBest(dir, names, i) && names[i] == ScanFiles(dir, names).best.value
  {
    var front := names[..|names| - 1];
    if ScanFiles(dir, front).best.Some? {
      i := ScanBest(dir, front);
      BestStays(dir, names, i);
      if ScanFiles(dir, names).best != ScanFiles(dir, front).best {
        i := |names| - 1;
      }
    } else {
      ScanEmpty(dir, front);
      i := |names| - 1;
      assert forall j :: 0 <= j < |front| ==> front[j] == names[j];
    }
  }

  // Position i holds the first of the readable files of highest revision.
  ghost predicate FirstBest(dir: Directory, names: seq<Name>, i: int)
    requires 0 <= i < |names|
  {
    && Readable(dir, names[i]).Some?
    && (forall j :: 0 <= j < |names| && Readable(dir, names[j]).Some? ==>
          Readable(dir, names[j]).value.revision <= Readable(dir, names[i]).value.revision)
    && (forall j :: 0 <= j < i && Readable(dir, names[j]).Some? ==>
          Readable(dir, names[j]).value.revision < Readable(dir, names[i]).value.revision)
  }

  // The reader recovers a highest revision among all candidate files, prefers
  // the main file on ties, and refuses when any candidate is unreadable or of
  // a newer format.
  lemma ReadIsBest(dir: Directory, listing: seq<Name>)
    requires IsListing(listing, dir)
    ensures match ReadState(dir, listing)
            case Fatal => exists name :: name in dir && IsCandidate(name) && IsFatal(dir, name)
            case Found(state, at) =>
              && NoFatal(dir) && IsCandidate(at) && Readable(dir, at) == Some(state)
              && (forall name :: IsCandidate(name) && Readable(dir, name).Some? ==> Readable(dir, name).value.revision <= state.revision)
              && (Readable(dir, Main).Some? && Readable(dir, Main).value.revision == state.revision ==> at == Main)
            case Missing => Barren(dir)
            case AllCorrupt(_) => Barren(dir)
  {
    var names := Candidates(listing);
    ScanFatal(dir, names);
    ScanEmpty(dir, names);
    forall name | name in dir && IsCandidate(name)
      ensures name in names
    {
      CandidateListed(dir, listing, name);
    }
    var scan := ScanFiles(dir, names);
    if scan.fatal {
      var i :| 0 <= i < |names| && IsFatal(dir, names[i]);
      ListedIsCandidate(dir, listing, i);
    } else if scan.best.Some? {
      var i := ScanBest(dir, names);
      ListedIsCandidate(dir, listing, i);
      assert names[0] == Main;
    }
  }

  lemma CandidateListed(dir: Directory, listing: seq<Name>, name: Name)
    requires IsListing(listing, dir) && name in dir && IsCandidate(name)
    ensures name in Candidates(listing)
  {
    var names := Candidates(listing);
    assert names[0] == Main && names[1] == Bak && names[2] == LegacyTmp;
    if name.Temp? || name.Backup? {
      assert name in listing;
    }
  }

  lemma ListedIsCandidate(dir: Directory, listing: seq<Name>, i: nat)
    requires IsListing(listing, dir) && i < |Candidates(listing)|
    ensures IsCandidate(Candidates(listing)[i])
  {
    if i >= 3 {
      assert Candidates(listing)[i] == listing[i - 3];
      assert listing[i - 3] in listing;
    }
  }

  // ----------------------------------------------------------- what a directory holds

  ghost predicate NoFatal(dir: Directory) {
    forall name :: name in dir && IsCandidate(name) ==> !IsFatal(dir, name)
  }

  ghost predicate Barren(dir: Directory) {
    NoFatal(dir) && forall name :: IsCandidate(name) ==> Readable(dir, name).None?
  }

  ghost predicate HeldAt(dir: Directory, state: TrafficState, at: Name) {
    && IsCandidate(at) && Readable(dir, at) == Some(state) && NoFatal(dir)
    && forall name :: IsCandidate(name) && Readable(dir, name).Some? ==>
         Readable(dir, name).value == state || Readable(dir, name).value.revision < state.revision
  }

  // The directory holds this generation (or none), whatever the listing order.
  ghost predicate Holds(dir: Directory, generation: Option<TrafficState>) {
    match generation
    case None => Barren(dir)
    case Some(state) => exists at :: HeldAt(dir, state, at)
  }

  lemma HoldsReads(dir: Directory, generation: Option<TrafficState>, listing: seq<Name>)
    requires Holds(dir, generation) && IsListing(listing, dir)
    ensures match ReadState(dir, listing)
            case Fatal => false
            case Found(state, _) => generation == Some(state)
            case _ => generation == None
  {
    ReadIsBest(dir, listing);
    if generation.Some? {
      var at :| HeldAt(dir, generation.value, at);
      assert Readable(dir, at).Some?;
    }
  }

  // ------------------------------------------------------- single operations

  // The content can stand beside a generation without taking its place.
  predicate Lesser(content: Content, state: TrafficState) {
    match content
    case Unreadable => false
    case Damaged(_) => true
    case Encoded(other) =>
      match Validate(other)
      case NewerFormat => false
      case Invalid => true
      case Decoded(s) => s == state || s.revision < state.revision
  }

  predicate Quiet(op: Op, state: TrafficState, at: Name) {
    match op
    case Put(name, content) => name != at && (name.Corrupt? || Lesser(content, state))
    case Rename(from, to) => from != at && to != at && IsCandidate(from)
    case Remove(name) => name != at
  }

  lemma QuietKeeps(dir: Directory, op: Op, state: TrafficState, at: Name)
    requires HeldAt(dir, state, at) && Quiet(op, state, at)
    ensures HeldAt(Apply(dir, op), state, at)
  {
    var dir' := Apply(dir, op);
    forall name | name in dir' && IsCandidate(name)
      ensures !IsFatal(dir', name)
      ensures Readable(dir', name).Some? ==>
                Readable(dir', name).value == state || Readable(dir', name).value.revision < state.revision
    {
      if op.Rename? && name == op.to && op.from in dir && op.from != op.to {
        assert dir'[name] == dir[op.from];
        assert Readable(dir', name) == Readable(dir, op.from);
      } else if op.Put? && name == op.name {
      } else {
        assert dir'[name] == dir[name];
        assert Readable(dir', name) == Readable(dir, name);
      }
    }
    assert dir'[at] == dir[at];
  }

  lemma {:induction false} QuietOpsKeep(dir: Directory, ops: seq<Op>, state: TrafficState, at: Name)
    requires HeldAt(dir, state, at) && forall i :: 0 <= i < |ops| ==> Quiet(ops[i], state, at)
    ensures HeldAt(ApplyAll(dir, ops), state, at)
    decreases |ops|
  {
    if ops != [] {
      QuietKeeps(dir, ops[0], state, at);
      QuietOpsKeep(Apply(dir, ops[0]), ops[1..], state, at);
    }
  }

  predicate Idle(op: Op) {
    match op
    case Put(name, content) => name.Corrupt? || content.Damaged?
    case Rename(_, _) => false
    case Remove(_) => true
  }

  lemma {:induction false} IdleOpsKeep(dir: Directory, ops: seq<Op>)
    requires Barren(dir) && forall i :: 0 <= i < |ops| ==> Idle(ops[i])
    ensures Barren(ApplyAll(dir, ops))
    decreases |ops|
  {
    if ops != [] {
      var dir' := Apply(dir, ops[0]);
      forall name | IsCandidate(name)
        ensures Readable(dir', name).None? && (name in dir' ==> !IsFatal(dir', name))
      {
        if name in dir' && !(ops[0].Put? && ops[0].name == name) {
          assert dir'[name] == dir[name];
          assert Readable(dir', name) == Readable(dir, name);
        }
      }
      IdleOpsKeep(dir', ops[1..]);
    }
  }

  lemma {:induction false} ApplyAppend(dir: Directory, a: seq<Op>, b: seq<Op>)
    ensures ApplyAll(dir, a + b) == ApplyAll(ApplyAll(dir, a), b)
    decreases |a|
  {
    if a == [] {
      assert a + b == b;
    } else {
      assert (a + b)[1..] == a[1..] + b;
      ApplyAppend(Apply(dir, a[0]), a[1..], b);
    }
  }

  // Writing a generation at a new place, over a directory of older ones.
  lemma PutNewest(dir: Directory, generation: Option<TrafficState>, state: TrafficState, at: Name)
    requires Holds(dir, generation)
    requires generation.Some? ==> generation.value.revision < state.revision
    requires Validate(state) == Decoded(state) && IsCandidate(at)
    ensures HeldAt(dir[at := Encoded(state)], state, at)
  {
    var dir' := dir[at := Encoded(state)];
    forall name | name in dir' && IsCandidate(name)
      ensures !IsFatal(dir', name)
      ensures Readable(dir', name).Some? ==>
                Readable(dir', name).value == state || Readable(dir', name).value.revision < state.revision
    {
      if name != at {
        assert dir'[name] == dir[name];
        assert Readable(dir', name) == Readable(dir, name);
      }
    }
  }

  lemma MoveNewest(dir: Directory, state: TrafficState, from: Name, to: Name)
    requires HeldAt(dir, state, from) && from in dir && from != to && IsCandidate(to)
    ensures HeldAt(Apply(dir, Rename(from, to)), state, to)
  {
    var dir' := Apply(dir, Rename(from, to));
    forall name | name in dir' && IsCandidate(name)
      ensures !IsFatal(dir', name)
      ensures Readable(dir', name).Some? ==>
                Readable(dir', name).value == state || Readable(dir', name).value.revision < state.revision
    {
      if name != to {
        assert dir'[name] == dir[name];
        assert Readable(dir', name) == Readable(dir, name);
      }
    }
    assert dir'[to] == dir[from];
  }

  // ------------------------------------------------------------ crash safety

  lemma {:induction false} QuarantineIdle(dir: Directory, names: seq<Name>, ids: seq<nat>, scratch: Scratch)
    requires |ids| >= |names| && forall i :: 0 <= i < |names| ==> names[i] in dir
    ensures forall i :: 0 <= i < |QuarantineOps(dir, names, ids, scratch)| ==> Idle(QuarantineOps(dir, names, ids, scratch)[i])
  {
    if names != [] {
      QuarantineIdle(dir, names[..|names| - 1], ids, scratch);
    }
  }

  lemma {:induction false} CleanUpQuiet(names: seq<Name>, state: TrafficState)
    ensures forall i :: 0 <= i < |RemoveOps(names)| ==> Quiet(RemoveOps(names)[i], state, Main)
    ensures forall i :: 0 <= i < |RemoveOps(names)| ==> RemoveOps(names)[i].Remove? && RemoveOps(names)[i].name in names
  {
    if names != [] {
      CleanUpQuiet(names[..|names| - 1], state);
    }
  }

  // When a new generation may be saved over a directory: the directory holds
  // an older generation or none, and the new one would be accepted.
  ghost predicate CanSave(dir: Directory, generation: Option<TrafficState>, listing: seq<Name>, state: TrafficState, scratch: Scratch) {
    && Holds(dir, generation) && IsListing(listing, dir) && FreshScratch(dir, scratch)
    && (generation.Some? ==> generation.value.revision < state.revision)
    && Validate(state) == Decoded(state)
    && |scratch.corrupt| >= |ScanFiles(dir, Candidates(listing)).corrupt|
  }

  function SavedAs(dir: Directory, listing: seq<Name>, state: TrafficState): TrafficState {
    Written(ReadState(dir, listing), state)
  }

  // The operations up to and including the completed staging file.
  function Head(dir: Directory, listing: seq<Name>, state: TrafficState, scratch: Scratch): seq<Op>
    requires |scratch.corrupt| >= |ScanFiles(dir, Candidates(listing)).corrupt|
  {
    Quarantine(dir, listing, scratch) + Stage(dir, listing, state, scratch)
  }

  function Tail(dir: Directory, listing: seq<Name>, scratch: Scratch, leftovers: seq<Name>): seq<Op> {
    KeepPrior(dir, listing, scratch) + [Rename(Temp(scratch.temp), Main)] + RemoveOps(Candidates(leftovers))
  }

  lemma HeadIdle(dir: Directory, listing: seq<Name>, state: TrafficState, scratch: Scratch)
    requires |scratch.corrupt| >= |ScanFiles(dir, Candidates(listing)).corrupt|
    ensures var head := Head(dir, listing, state, scratch);
            && |head| == |Quarantine(dir, listing, scratch)| + 2
            && forall i :: 0 <= i < |head| - 1 ==> Idle(head[i])
  {
    CorruptNames(dir, Candidates(listing));
    var quarantine := Quarantine(dir, listing, scratch);
    if ReadState(dir, listing).AllCorrupt? {
      QuarantineIdle(dir, ReadState(dir, listing).names, scratch.corrupt, scratch);
    }
    assert forall i :: 0 <= i < |quarantine| ==> Idle(quarantine[i]);
  }

  lemma BeforeStaged(dir: Directory, generation: Option<TrafficState>, listing: seq<Name>, state: TrafficState, scratch: Scratch, k: nat)
    requires CanSave(dir, generation, listing, state, scratch)
    requires k < |Head(dir, listing, state, scratch)|
    ensures Holds(ApplyAll(dir, Head(dir, listing, state, scratch)[..k]), generation)
  {
    var ops := Head(dir, listing, state, scratch)[..k];
    HeadIdle(dir, listing, state, scratch);
    if generation.None? {
      IdleOpsKeep(dir, ops);
    } else {
      HoldsReads(dir, generation, listing);
      assert |Head(dir, listing, state, scratch)| == 2;
      var at :| HeldAt(dir, generation.value, at);
      assert at in dir;
      assert forall i :: 0 <= i < |ops| ==> ops[i] == Put(Temp(scratch.temp), Damaged(scratch.partial));
      QuietOpsKeep(dir, ops, generation.value, at);
    }
  }

  lemma Staged(dir: Directory, generation: Option<TrafficState>, listing: seq<Name>, state: TrafficState, scratch: Scratch)
    requires CanSave(dir, generation, listing, state, scratch)
    ensures HeldAt(ApplyAll(dir, Head(dir, listing, state, scratch)), SavedAs(dir, listing, state), Temp(scratch.temp))
  {
    var head := Head(dir, listing, state, scratch);
    var n := |head| - 1;
    BeforeStaged(dir, generation, listing, state, scratch, n);
    var dir1 := ApplyAll(dir, head[..n]);
    assert head == head[..n] + [head[n]];
    ApplyAppend(dir, head[..n], [head[n]]);
    assert head[n] == Put(Temp(scratch.temp), Encoded(SavedAs(dir, listing, state)));
    assert ApplyAll(dir1, [head[n]]) == Apply(dir1, head[n]) by {
      assert [head[n]][1..] == [];
    }
    PutNewest(dir1, generation, SavedAs(dir, listing, state), Temp(scratch.temp));
  }

  lemma KeepPriorQuiet(dir: Directory, generation: Option<TrafficState>, listing: seq<Name>, state: TrafficState, scratch: Scratch)
    requires CanSave(dir, generation, listing, state, scratch)
    ensures forall i :: 0 <= i < |KeepPrior(dir, listing, scratch)| ==>
              Quiet(KeepPrior(dir, listing, scratch)[i], SavedAs(dir, listing, state), Temp(scratch.temp))
  {
    HoldsReads(dir, generation, listing);
  }

  lemma AfterStaged(dir: Directory, state: TrafficState, temp: Name, keep: seq<Op>, clean: seq<Op>, k: nat)
    requires HeldAt(dir, state, temp) && temp.Temp? && temp in dir
    requires forall i :: 0 <= i < |keep| ==> Quiet(keep[i], state, temp)
    requires forall i :: 0 <= i < |clean| ==> Quiet(clean[i], state, Main)
    requires k <= |keep| + 1 + |clean|
    ensures Holds(ApplyAll(dir, (keep + [Rename(temp, Main)] + clean)[..k]), Some(state))
  {
    var ops := keep + [Rename(temp, Main)] + clean;
    if k <= |keep| {
      assert ops[..k] == keep[..k];
      QuietOpsKeep(dir, keep[..k], state, temp);
    } else {
      var rest := clean[..k - |keep| - 1];
      assert ops[..k] == keep + ([Rename(temp, Main)] + rest);
      ApplyAppend(dir, keep, [Rename(temp, Main)] + rest);
      QuietOpsKeep(dir, keep, state, temp);
      var dir1 := ApplyAll(dir, keep);
      MoveNewest(dir1, state, temp, Main);
      var dir2 := Apply(dir1, Rename(temp, Main));
      assert ([Rename(temp, Main)] + rest)[1..] == rest;
      QuietOpsKeep(dir2, rest, state, Main);
      assert ApplyAll(dir, ops[..k]) == ApplyAll(dir2, rest);
    }
  }

  // A save cut short after any number of its operations leaves the old
  // generation (or none) as long as its staging file is incomplete, and the
  // new generation from then on. No reader ever sees anything else.
  lemma CrashSafety(dir: Directory, generation: Option<TrafficState>, listing: seq<Name>, state: TrafficState,
                    scratch: Scratch, leftovers: seq<Name>, k: nat)
    requires CanSave(dir, generation, listing, state, scratch)
    requires k <= |SaveOps(dir, listing, state, scratch, leftovers)|
    ensures Holds(ApplyAll(dir, SaveOps(dir, listing, state, scratch, leftovers)[..k]),
                  if k < |Head(dir, listing, state, scratch)| then generation else Some(SavedAs(dir, listing, state)))
  {
    HoldsReads(dir, generation, listing);
    var head, tail := Head(dir, listing, state, scratch), Tail(dir, listing, scratch, leftovers);
    var ops := SaveOps(dir, listing, state, scratch, leftovers);
    assert ops == head + tail;
    if k < |head| {
      assert ops[..k] == head[..k];
      BeforeStaged(dir, generation, listing, state, scratch, k);
    } else {
      var j := k - |head|;
      assert ops[..k] == head + tail[..j];
      ApplyAppend(dir, head, tail[..j]);
      Staged(dir, generation, listing, state, scratch);
      KeepPriorQuiet(dir, generation, listing, state, scratch);
      CleanUpQuiet(Candidates(leftovers), SavedAs(dir, listing, state));
      AfterStaged(ApplyAll(dir, head), SavedAs(dir, listing, state), Temp(scratch.temp),
                  KeepPrior(dir, listing, scratch), RemoveOps(Candidates(leftovers)), j);
    }
  }

  // An operation that fails instead of completing ends the save; a staging
  // file that could not be written is removed first.
  function Abandon(dir: Directory, ops: seq<Op>, k: nat): Directory
    requires k <= |ops|
  {
    var stopped := ApplyAll(dir, ops[..k]);
    if k > 0 && ops[k - 1].Put? && ops[k - 1].content.Damaged? then Apply(stopped, Remove(ops[k - 1].name)) else stopped
  }

  lemma RemovingDamagedKeeps(dir: Directory, generation: Option<TrafficState>, name: Name)
    requires Holds(dir, generation) && (name in dir ==> Readable(dir, name).None?)
    ensures Holds(Apply(dir, Remove(name)), generation)
  {
    var dir' := Apply(dir, Remove(name));
    assert forall other :: other in dir' ==> dir'[other] == dir[other] && Readable(dir', other) == Readable(dir, other);
    if generation.Some? {
      var at :| HeldAt(dir, generation.value, at);
      assert HeldAt(dir', generation.value, at);
    }
  }

  lemma AbandonKeeps(dir: Directory, generation: Option<TrafficState>, ops: seq<Op>, k: nat)
    requires k <= |ops| && Holds(ApplyAll(dir, ops[..k]), generation)
    ensures Holds(Abandon(dir, ops, k), generation)
  {
    if k > 0 && ops[k - 1].Put? && ops[k - 1].content.Damaged? {
      assert ops[..k] == ops[..k - 1] + [ops[k - 1]];
      ApplyAppend(dir, ops[..k - 1], [ops[k - 1]]);
      assert [ops[k - 1]][1..] == [];
      RemovingDamagedKeeps(ApplyAll(dir, ops[..k]), generation, ops[k - 1].name);
    }
  }

  lemma FailureSafety(dir: Directory, generation: Option<TrafficState>, listing: seq<Name>, state: TrafficState,
                      scratch: Scratch, leftovers: seq<Name>, k: nat)
    requires CanSave(dir, generation, listing, state, scratch)
    requires k <= |SaveOps(dir, listing, state, scratch, leftovers)|
    ensures Holds(Abandon(dir, SaveOps(dir, listing, state, scratch, leftovers), k),
                  if k < |Head(dir, listing, state, scratch)| then generation else Some(SavedAs(dir, listing, state)))
  {
    var kept := if k < |Head(dir, listing, state, scratch)| then generation else Some(SavedAs(dir, listing, state));
    CrashSafety(dir, generation, listing, state, scratch, leftovers, k);
    AbandonKeeps(dir, kept, SaveOps(dir, listing, state, scratch, leftovers), k);
  }
}
