// The allocated size of a directory tree: a recursive walk that counts every
// inode once, refuses other filesystems and oversized or too deep trees.
module DiskScan {
  import opened Sums

  datatype Inode = Inode(dev: nat, ino: nat)

  datatype Stat = Stat(inode: Inode, isDir: bool, blocks: int)

  // A directory entry as the walk finds it: it opens, it has vanished in the
  // meantime, or opening it fails otherwise.
  datatype Entry = Opens(name: string, node: Node) | Vanished(name: string) | Refused(name: string)

  datatype Node = Node(stat: Stat, children: seq<Entry>)

  datatype Limits = Limits(maxEntries: nat, maxDepth: nat, rootDev: nat, excluded: set<string>)

  const MAX_TOTAL_BYTES := 1_000_000_000_000_000
  const BLOCK := 512

  // ---------------------------------------------------- the walk as a plain list

  // What the walk comes across, in order: a name, an invalid name, an entry
  // that cannot be opened, an inode, a directory to descend into.
  datatype Event = NextName | BadName | CannotOpen | Found(stat: Stat) | Descend(depth: nat)

  predicate IsDot(name: string) {
    name == "." || name == ".."
  }

  predicate IsInvalid(name: string) {
    name == "" || '/' in name
  }

  function ChildPath(relative: string, name: string): string {
    if relative != "" then relative + "/" + name else name
  }

  function EventsOf(entry: Entry, limits: Limits, relative: string, depth: nat): seq<Event>
    decreases entry, 1
  {
    if IsDot(entry.name) then []
    else if IsInvalid(entry.name) then [BadName]
    else if ChildPath(relative, entry.name) in limits.excluded then [NextName] + []
    else
      match entry
      case Vanished(_) => [NextName] + []
      case Refused(_) => [NextName] + [CannotOpen]
      case Opens(name, node) => [NextName] + EventsAt(node, limits, ChildPath(relative, name), depth)
  }

  function EventsAt(node: Node, limits: Limits, path: string, depth: nat): seq<Event>
    decreases node, 1
  {
    [Found(node.stat)] + (if node.stat.isDir then [Descend(depth + 1)] + EventsIn(node.children, limits, path, depth + 1) else [])
  }

  function EventsIn(children: seq<Entry>, limits: Limits, relative: string, depth: nat): seq<Event>
    decreases children, 0
  {
    if children == [] then []
    else EventsOf(children[0], limits, relative, depth) + EventsIn(children[1..], limits, relative, depth)
  }

  function RootEvents(root: Node, limits: Limits): seq<Event> {
    [Found(root.stat)] + ([Descend(0)] + EventsIn(root.children, limits, "", 0))
  }

  // -------------------------------------------------------------- the counting

  datatype Option<T> = None | Some(value: T)

  datatype Walk = Walk(seen: set<Inode>, usedBytes: int, entries: nat)

  function Counted(w: Walk, stat: Stat): Option<Walk> {
    if stat.inode in w.seen then
      if stat.isDir then None else Some(w)
    else if stat.blocks < 0 || stat.blocks > MAX_TOTAL_BYTES / BLOCK || stat.blocks * BLOCK > MAX_TOTAL_BYTES - w.usedBytes then None
    else Some(w.(seen := w.seen + {stat.inode}, usedBytes := w.usedBytes + stat.blocks * BLOCK))
  }

  function Step(w: Walk, event: Event, limits: Limits): Option<Walk> {
    match event
    case NextName => if w.entries >= limits.maxEntries then None else Some(w.(entries := w.entries + 1))
    case BadName => None
    case CannotOpen => None
    case Found(stat) => if stat.inode.dev != limits.rootDev then None else Counted(w, stat)
    case Descend(depth) => if depth > limits.maxDepth then None else Some(w)
  }

  function Run(w: Walk, events: seq<Event>, limits: Limits): Option<Walk> {
    if events == [] then Some(w)
    else
      var before := Run(w, events[..|events| - 1], limits);
      if before.None? then None else Step(before.value, events[|events| - 1], limits)
  }

  lemma {:induction false} RunAppend(w: Walk, a: seq<Event>, b: seq<Event>, limits: Limits)
    ensures Run(w, a + b, limits) == if Run(w, a, limits).None? then None else Run(Run(w, a, limits).value, b, limits)
    decreases |b|
  {
    if b == [] {
      assert a + b == a;
    } else {
      assert (a + b)[..|a + b| - 1] == a + b[..|b| - 1];
      RunAppend(w, a, b[..|b| - 1], limits);
    }
  }

  // ------------------------------------------------------------ what is counted

  function Names(events: seq<Event>): nat {
    if events == [] then 0 else Names(events[..|events| - 1]) + if events[|events| - 1].NextName? then 1 else 0
  }

  // The blocks of every inode, as found first.
  function Blocks(events: seq<Event>): map<Inode, int> {
    if events == [] then map[]
    else
      var before, last := Blocks(events[..|events| - 1]), events[|events| - 1];
      if last.Found? && last.stat.inode !in before then before[last.stat.inode := last.stat.blocks] else before
  }

  lemma {:induction false} BlocksAreFound(events: seq<Event>)
    ensures forall inode :: inode in Blocks(events) <==> exists i :: FoundAt(events, i, inode)
  {
    if events != [] {
      var front := events[..|events| - 1];
      BlocksAreFound(front);
      forall inode
        ensures inode in Blocks(events) <==> exists i :: FoundAt(events, i, inode)
      {
        if i :| FoundAt(front, i, inode) {
          assert FoundAt(events, i, inode);
        }
        if i :| FoundAt(events, i, inode) {
          assert i < |front| ==> FoundAt(front, i, inode);
        }
        if inode in Blocks(events) && inode !in Blocks(front) {
          assert FoundAt(events, |front|, inode);
        }
      }
    }
  }

  predicate SameInode(a: Event, b: Event) {
    a.Found? && b.Found? && a.stat.inode == b.stat.inode
  }

  ghost predicate FoundAt(events: seq<Event>, i: int, inode: Inode) {
    0 <= i < |events| && events[i].Found? && events[i].stat.inode == inode
  }

  // In a tree where all entries of an inode agree, the first is as good as any.
  lemma {:induction false} BlocksAgree(events: seq<Event>, i: nat)
    requires i < |events| && events[i].Found?
    requires forall j, k :: 0 <= j < |events| && 0 <= k < |events| && SameInode(events[j], events[k]) ==>
                              events[j].stat.blocks == events[k].stat.blocks
    ensures events[i].stat.inode in Blocks(events) && Blocks(events)[events[i].stat.inode] == events[i].stat.blocks
  {
    var front, last := events[..|events| - 1], |events| - 1;
    if i < last {
      assert front[i] == events[i];
      BlocksAgree(front, i);
    } else if events[last].stat.inode in Blocks(front) {
      BlocksAreFound(front);
      var j :| FoundAt(front, j, events[last].stat.inode);
      BlocksAgree(front, j);
      assert events[j].stat.blocks == events[last].stat.blocks;
    }
  }

  // --------------------------------------------------------------- main result

  ghost predicate NoRepeatedDirectory(events: seq<Event>) {
    forall i, j :: 0 <= i < j < |events| && SameInode(events[i], events[j]) ==> !events[j].stat.isDir
  }

  // Everything is on the root's filesystem, opens, and is within the limits.
  ghost predicate Admissible(events: seq<Event>, limits: Limits) {
    forall i :: 0 <= i < |events| ==>
      && !events[i].BadName? && !events[i].CannotOpen?
      && (events[i].Found? ==> events[i].stat.inode.dev == limits.rootDev)
      && (events[i].Descend? ==> events[i].depth <= limits.maxDepth)
  }

  // Each inode found has a sensible size, and all of them together fit.
  ghost predicate Fits(blocks: map<Inode, int>) {
    && (forall inode :: inode in blocks ==> blocks[inode] >= 0)
    && BLOCK * Sum(blocks) <= MAX_TOTAL_BYTES
  }

  ghost predicate Succeeds(events: seq<Event>, limits: Limits, entries: nat) {
    && Admissible(events, limits)
    && NoRepeatedDirectory(events)
    && entries + Names(events) <= limits.maxEntries
    && Fits(Blocks(events))
  }

  lemma AdmissibleLast(events: seq<Event>, limits: Limits)
    requires events != []
    ensures var front, last := events[..|events| - 1], events[|events| - 1];
            Admissible(events, limits) <==>
              && Admissible(front, limits)
              && !last.BadName? && !last.CannotOpen?
              && (last.Found? ==> last.stat.inode.dev == limits.rootDev)
              && (last.Descend? ==> last.depth <= limits.maxDepth)
  {
    var front := events[..|events| - 1];
    assert forall i :: 0 <= i < |front| ==> front[i] == events[i];
  }

  lemma RepeatedLast(events: seq<Event>)
    requires events != []
    ensures var front, last := events[..|events| - 1], events[|events| - 1];
            NoRepeatedDirectory(events) <==>
              NoRepeatedDirectory(front) && (last.Found? && last.stat.inode in Blocks(front) ==> !last.stat.isDir)
  {
    var front, last := events[..|events| - 1], events[|events| - 1];
    assert forall i :: 0 <= i < |front| ==> front[i] == events[i];
    BlocksAreFound(front);
    if last.Found? && last.stat.inode in Blocks(front) {
      var i :| FoundAt(front, i, last.stat.inode);
      assert events[i].stat.inode == last.stat.inode;
    }
    forall i, j | NoRepeatedDirectory(front) && 0 <= i < j < |events| && SameInode(events[i], events[j])
                  && (last.Found? && last.stat.inode in Blocks(front) ==> !last.stat.isDir)
      ensures !events[j].stat.isDir
    {
      if j == |front| {
        assert FoundAt(front, i, last.stat.inode);
      } else {
        assert front[i] == events[i] && front[j] == events[j];
      }
    }
  }

  lemma FitsLast(before: map<Inode, int>, inode: Inode, blocks: int)
    requires inode !in before
    ensures Fits(before[inode := blocks]) <==>
              Fits(before) && 0 <= blocks <= MAX_TOTAL_BYTES / BLOCK && blocks * BLOCK <= MAX_TOTAL_BYTES - BLOCK * Sum(before)
    ensures Sum(before[inode := blocks]) == Sum(before) + blocks
  {
    var after := before[inode := blocks];
    SumRemove(after, inode);
    assert after - {inode} == before;
    if forall i :: i in after ==> after[i] >= 0 {
      assert forall i :: i in before ==> after[i] == before[i];
      SumNonnegative(before);
    }
    if Fits(before) {
      SumNonnegative(before);
    }
  }

  // The walk succeeds exactly when everything is within its limits, and then
  // it has counted every inode once: the total is the sum over the inodes
  // found, hard links counting once.
  lemma {:induction false} RunCounts(events: seq<Event>, limits: Limits, entries: nat)
    requires entries <= limits.maxEntries
    ensures var end := Run(Walk({}, 0, entries), events, limits);
            && (end.Some? <==> Succeeds(events, limits, entries))
            && (end.Some? ==> end.value == Walk(Blocks(events).Keys, BLOCK * Sum(Blocks(events)), entries + Names(events)))
  {
    if events == [] {
    } else {
      var front, last := events[..|events| - 1], events[|events| - 1];
      RunCounts(front, limits, entries);
      AdmissibleLast(events, limits);
      RepeatedLast(events);
      if last.Found? && last.stat.inode !in Blocks(front) {
        FitsLast(Blocks(front), last.stat.inode, last.stat.blocks);
      }
    }
  }

  // ---------------------------------------------------------------- the walker

  lemma {:induction false} EventsAppend(a: seq<Entry>, b: seq<Entry>, limits: Limits, relative: string, depth: nat)
    ensures EventsIn(a + b, limits, relative, depth) == EventsIn(a, limits, relative, depth) + EventsIn(b, limits, relative, depth)
  {
    if a == [] {
      assert a + b == b;
    } else {
      assert (a + b)[1..] == a[1..] + b;
      EventsAppend(a[1..], b, limits, relative, depth);
    }
  }

  lemma OneMore(children: seq<Entry>, i: nat, limits: Limits, relative: string, depth: nat)
    requires i < |children|
    ensures EventsIn(children[..i + 1], limits, relative, depth)
            == EventsIn(children[..i], limits, relative, depth) + EventsOf(children[i], limits, relative, depth)
  {
    assert children[..i + 1] == children[..i] + [children[i]];
    EventsAppend(children[..i], [children[i]], limits, relative, depth);
    assert [children[i]][1..] == [];
    assert EventsIn([children[i]], limits, relative, depth) == EventsOf(children[i], limits, relative, depth) + [];
  }

  lemma RunOne(w: Walk, event: Event, limits: Limits)
    ensures Run(w, [event], limits) == Step(w, event, limits)
  {
    assert [event][..0] == [];
    assert Run(w, [], limits) == Some(w);
  }

  // A walk that stopped stays stopped.
  lemma StoppedStays(w: Walk, events: seq<Event>, all: seq<Event>, limits: Limits)
    requires events <= all && Run(w, events, limits).None?
    ensures Run(w, all, limits).None?
  {
    assert all == events + all[|events|..];
    RunAppend(w, events, all[|events|..], limits);
  }

  function AfterName(entry: Entry, limits: Limits, relative: string, depth: nat): (more: seq<Event>)
    requires !IsDot(entry.name) && !IsInvalid(entry.name)
    ensures EventsOf(entry, limits, relative, depth) == [NextName] + more
  {
    if ChildPath(relative, entry.name) in limits.excluded || entry.Vanished? then []
    else if entry.Refused? then [CannotOpen]
    else EventsAt(entry.node, limits, ChildPath(relative, entry.name), depth)
  }

  // What one name does to the walk.
  lemma EntrySteps(w: Walk, entry: Entry, limits: Limits, relative: string, depth: nat)
    ensures var end := Run(w, EventsOf(entry, limits, relative, depth), limits);
            var next := w.(entries := w.entries + 1);
            var path := ChildPath(relative, entry.name);
            if IsDot(entry.name) then end == Some(w)
            else if IsInvalid(entry.name) || w.entries >= limits.maxEntries then end == None
            else if path in limits.excluded || entry.Vanished? then end == Some(next)
            else if entry.Refused? then end == None
            else end == Run(next, EventsAt(entry.node, limits, path, depth), limits)
  {
    if !IsDot(entry.name) {
      if IsInvalid(entry.name) {
        RunOne(w, BadName, limits);
      } else {
        RunOne(w, NextName, limits);
        RunAppend(w, [NextName], AfterName(entry, limits, relative, depth), limits);
        RunOne(w.(entries := w.entries + 1), CannotOpen, limits);
      }
    }
  }

  datatype Visit = Visited | Missing | Failed

  class DirectoryDiskWalker {
    const limits: Limits
    var seen: set<Inode>
    var usedBytes: int
    var entries: nat

    function View(): Walk
      reads this
    {
      Walk(seen, usedBytes, entries)
    }

    constructor (limits: Limits)
      ensures View() == Walk({}, 0, 1) && this.limits == limits
    {
      this.limits := limits;
      seen, usedBytes, entries := {}, 0, 1;
    }

    method CountBlocks(stat: Stat) returns (ok: bool)
      modifies this
      ensures ok <==> Counted(old(View()), stat).Some?
      ensures ok ==> View() == Counted(old(View()), stat).value
    {
      if stat.inode in seen {
        return !stat.isDir;
      }
      seen := seen + {stat.inode};
      if stat.blocks < 0 || stat.blocks > MAX_TOTAL_BYTES / BLOCK || stat.blocks * BLOCK > MAX_TOTAL_BYTES - usedBytes {
        return false;
      }
      usedBytes := usedBytes + stat.blocks * BLOCK;
      return true;
    }

    method WalkDirectory(children: seq<Entry>, relative: string, depth: nat) returns (ok: bool)
      modifies this
      decreases children, 0
      ensures var end := Run(old(View()), [Descend(depth)] + EventsIn(children, limits, relative, depth), limits);
              (ok <==> end.Some?) && (ok ==> View() == end.value)
    {
      hide Run, EventsOf;
      ghost var start, all := View(), [Descend(depth)] + EventsIn(children, limits, relative, depth);
      RunOne(start, Descend(depth), limits);
      if depth > limits.maxDepth {
        StoppedStays(start, [Descend(depth)], all, limits);
        return false;
      }
      assert children[..0] == [] && [Descend(depth)] + [] == [Descend(depth)];
      for i := 0 to |children|
        invariant Run(start, [Descend(depth)] + EventsIn(children[..i], limits, relative, depth), limits) == Some(View())
      {
        ghost var before := [Descend(depth)] + EventsIn(children[..i], limits, relative, depth);
        ghost var next := EventsOf(children[i], limits, relative, depth);
        OneMore(children, i, limits, relative, depth);
        assert before + next == [Descend(depth)] + EventsIn(children[..i + 1], limits, relative, depth);
        RunAppend(start, before, next, limits);
        ok := TakeEntry(children[i], relative, depth);
        if !ok {
          EventsAppend(children[..i + 1], children[i + 1..], limits, relative, depth);
          assert children == children[..i + 1] + children[i + 1..];
          assert before + next <= all;
          StoppedStays(start, before + next, all, limits);
          return;
        }
      }
      assert children[..|children|] == children;
      ok := true;
    }

    // One name of a directory.
    method TakeEntry(entry: Entry, relative: string, depth: nat) returns (ok: bool)
      modifies this
      decreases entry, 2
      ensures var end := Run(old(View()), EventsOf(entry, limits, relative, depth), limits);
              (ok <==> end.Some?) && (ok ==> View() == end.value)
    {
      hide Run, EventsOf, EventsAt, EventsIn;
      EntrySteps(View(), entry, limits, relative, depth);
      if entry.name == "." || entry.name == ".." {
        return true;
      }
      if entry.name == "" || '/' in entry.name || entries >= limits.maxEntries {
        return false;
      }
      entries := entries + 1;
      var childPath := if relative != "" then relative + "/" + entry.name else entry.name;
      if childPath in limits.excluded {
        return true;
      }
      var visit := VisitEntry(entry, childPath, depth);
      return visit != Failed;
    }

    method VisitEntry(entry: Entry, childPath: string, depth: nat) returns (visit: Visit)
      modifies this
      decreases entry, 1
      ensures visit == Missing <==> entry.Vanished?
      ensures entry.Vanished? ==> View() == old(View())
      ensures entry.Refused? ==> visit == Failed
      ensures entry.Opens? ==>
                var end := Run(old(View()), EventsAt(entry.node, limits, childPath, depth), limits);
                (visit == Visited <==> end.Some?) && (visit == Visited ==> View() == end.value)
    {
      match entry
      case Vanished(_) => return Missing;
      case Refused(_) => return Failed;
      case Opens(_, node) =>
        ghost var start := View();
        ghost var inside := if node.stat.isDir then [Descend(depth + 1)] + EventsIn(node.children, limits, childPath, depth + 1) else [];
        RunOne(start, Found(node.stat), limits);
        RunAppend(start, [Found(node.stat)], inside, limits);
        if node.stat.inode.dev != limits.rootDev {
          return Failed;
        }
        var counted := CountBlocks(node.stat);
        if !counted {
          return Failed;
        }
        if !node.stat.isDir {
          return Visited;
        }
        var walked := WalkDirectory(node.children, childPath, depth + 1);
        return if walked then Visited else Failed;
    }
  }

  // A scan succeeds exactly when its limits are valid and the tree is within
  // them, and then reports the allocated bytes of the distinct inodes.
  method ScanDirectoryAllocated(root: Node, limits: Limits) returns (used: Option<int>)
    requires limits.rootDev == root.stat.inode.dev
    ensures used.Some? <==>
              && 1 <= limits.maxEntries <= 200_000 && 1 <= limits.maxDepth <= 256
              && Succeeds(RootEvents(root, limits), limits, 1)
    ensures used.Some? ==> used.value == BLOCK * Sum(Blocks(RootEvents(root, limits))) && 0 <= used.value <= MAX_TOTAL_BYTES
  {
    if limits.maxEntries < 1 || limits.maxEntries > 200_000 || limits.maxDepth < 1 || limits.maxDepth > 256 {
      return None;
    }
    ghost var events, rest := RootEvents(root, limits), [Descend(0)] + EventsIn(root.children, limits, "", 0);
    RunCounts(events, limits, 1);
    RunOne(Walk({}, 0, 1), Found(root.stat), limits);
    RunAppend(Walk({}, 0, 1), [Found(root.stat)], rest, limits);
    var walker := new DirectoryDiskWalker(limits);
    var counted := walker.CountBlocks(root.stat);
    if !counted {
      return None;
    }
    var walked := walker.WalkDirectory(root.children, "", 0);
    if !walked {
      return None;
    }
    SumNonnegative(Blocks(events));
    return Some(walker.usedBytes);
  }
}
