// The loops of the agent over one lane, each proved to compute the function
// that Lanes specifies.
module LaneLoops {
  import opened Probes
  import opened Lanes
  import opened LaneLemmas
  import opened Delivery

  method PruneOrder(order: seq<int>, pending: map<int, Queued>) returns (kept: seq<int>)
    ensures kept == Prune(order, pending)
  {
    kept := [];
    for i := 0 to |order|
      invariant kept == Prune(order[..i], pending)
    {
      PruneAppend(order[..i], [order[i]], pending);
      assert order[..i + 1] == order[..i] + [order[i]];
      assert [order[i]][1..] == [];
      if order[i] in pending {
        kept := kept + [order[i]];
      }
    }
    assert order[..|order|] == order;
  }

  lemma UnleasedNext(order: seq<int>, pending: map<int, Queued>, i: nat)
    requires i < |order|
    ensures Unleased(order[..i + 1], pending)
         == Unleased(order[..i], pending) + (if order[i] in pending && !pending[order[i]].leased then [order[i]] else [])
  {
    UnleasedAppend(order[..i], [order[i]], pending);
    assert order[..i + 1] == order[..i] + [order[i]];
    assert [order[i]][1..] == [];
  }

  // `ids`, the unleased part of a prefix of the order, is what one report leases.
  lemma LeasedPrefix(l: Lane, limit: nat, i: nat, ids: seq<int>)
    requires i <= |l.order| && ids == Unleased(l.order[..i], l.pending) && |ids| <= limit
    requires i == |l.order| || |ids| == limit
    ensures ids == LeaseIds(l, limit)
  {
    UnleasedAppend(l.order[..i], l.order[i..], l.pending);
    assert l.order[..i] + l.order[i..] == l.order;
    if i == |l.order| {
      assert l.order[i..] == [];
    }
  }

  lemma NotYetLeased(order: seq<int>, pending: map<int, Queued>, i: nat)
    requires Ascending(order, pending) && i < |order|
    ensures order[i] !in Unleased(order[..i], pending)
  {
    forall j | 0 <= j < i
      ensures order[j] != order[i]
    {
      assert pending[order[j]].sequence < pending[order[i]].sequence;
    }
  }

  lemma MarkMore(pending: map<int, Queued>, ids: seq<int>, id: int)
    requires id in pending && id !in ids
    ensures MarkLeased(pending, ids)[id := pending[id].(leased := true)] == MarkLeased(pending, ids + [id])
  {
  }

  lemma SlipMore(pending: map<int, Queued>, ids: seq<int>, id: int)
    requires (forall i :: 0 <= i < |ids| ==> ids[i] in pending) && id in pending
    ensures var s := SlipFor(pending, ids);
            Slip(s.results + [pending[id].result], s.leases[id := pending[id].sequence]) == SlipFor(pending, ids + [id])
  {
    var s, s' := SlipFor(pending, ids), SlipFor(pending, ids + [id]);
    assert s'.results == s.results + [pending[id].result];
    assert s'.leases == s.leases[id := pending[id].sequence];
  }

  // Leases the oldest unleased results, up to the limit of one report.
  method LeasePending(l: Lane, limit: nat) returns (pending: map<int, Queued>, slip: Slip)
    requires Ascending(l.order, l.pending)
    ensures l.(pending := pending) == Lease(l, limit).0
    ensures slip == Lease(l, limit).1
  {
    pending := l.pending;
    var results: seq<Result>, leases: map<int, nat> := [], map[];
    ghost var ids: seq<int> := [];
    assert MarkLeased(l.pending, ids) == l.pending;
    var i := 0;
    while i < |l.order|
      invariant i <= |l.order|
      invariant ids == Unleased(l.order[..i], l.pending) && |ids| == |results| <= limit
      invariant forall j :: 0 <= j < |ids| ==> ids[j] in l.pending
      invariant pending == MarkLeased(l.pending, ids)
      invariant Slip(results, leases) == SlipFor(l.pending, ids)
    {
      if |results| >= limit {
        break;
      }
      var id := l.order[i];
      UnleasedNext(l.order, l.pending, i);
      NotYetLeased(l.order, l.pending, i);
      assert pending[id] == l.pending[id];
      if !pending[id].leased {
        MarkMore(l.pending, ids, id);
        SlipMore(l.pending, ids, id);
        leases := leases[id := pending[id].sequence];
        results := results + [pending[id].result];
        pending := pending[id := pending[id].(leased := true)];
        ids := ids + [id];
      }
      i := i + 1;
    }
    LeasedPrefix(l, limit, i, ids);
    slip := Slip(results, leases);
  }

  method CurrentResults(slip: Slip, pending: map<int, Queued>) returns (current: Slip)
    ensures current == CurrentSlip(slip, pending)
  {
    current := slip;
    if |slip.leases| > 0 {
      var results: seq<Result> := [];
      for i := 0 to |slip.results|
        invariant results == FilterCurrent(slip.results[..i], slip.leases, pending)
      {
        var r := slip.results[i];
        FilterAppend(slip.results[..i], [r], slip.leases, pending);
        assert slip.results[..i + 1] == slip.results[..i] + [r];
        assert [r][1..] == [];
        if r.id in pending && pending[r.id].sequence == LeaseOf(slip.leases, r.id) {
          results := results + [r];
        }
      }
      assert slip.results[..|slip.results|] == slip.results;
      current := slip.(results := results);
    }
  }

  method LatestByID(tasks: seq<Task>) returns (byID: map<int, Task>)
    ensures byID == ByID(tasks)
  {
    byID := map[];
    for i := 0 to |tasks|
      invariant byID == ByID(tasks[..i])
    {
      assert tasks[..i + 1][..i] == tasks[..i];
      byID := byID[tasks[i].id := tasks[i]];
    }
    assert tasks[..|tasks|] == tasks;
  }

  function SupersededPrefix(prior: seq<Task>, byID: map<int, Task>): set<int> {
    set t | t in prior && Superseded(t, byID) :: t.id
  }

  // Cancels the runs and drops the results of every task that the new list
  // removes or redefines.
  method Invalidate(l: Lane, tasks: seq<Task>, cancelled: set<nat>)
    returns (pending: map<int, Queued>, lastRun: map<int, nat>, cancelled': set<nat>)
    ensures pending == ApplyTasks(l, tasks).pending && lastRun == ApplyTasks(l, tasks).lastRun
    ensures cancelled' == cancelled + CancelledBy(l, tasks)
  {
    var byID := LatestByID(tasks);
    pending, lastRun, cancelled' := l.pending, l.lastRun, cancelled;
    ghost var gone: set<int> := {};
    for i := 0 to |l.tasks|
      invariant gone == SupersededPrefix(l.tasks[..i], byID)
      invariant pending == Without(l.pending, gone) && lastRun == Without(l.lastRun, gone)
      invariant cancelled' == cancelled + (set id | id in gone && id in l.running :: l.running[id])
    {
      var prior := l.tasks[i];
      assert l.tasks[..i + 1] == l.tasks[..i] + [prior];
      if prior.id !in byID || !SameProbe(prior.definition, byID[prior.id].definition) {
        if prior.id in l.running {
          cancelled' := cancelled' + {l.running[prior.id]};
        }
        pending := pending - {prior.id};
        lastRun := lastRun - {prior.id};
        gone := gone + {prior.id};
      }
    }
    assert l.tasks[..|l.tasks|] == l.tasks;
    assert gone == SupersededIds(l.tasks, tasks);
  }

  // Installs a new task list: superseded work goes, the queue order is pruned.
  method InstallTasks(l: Lane, tasks: seq<Task>, cancelled: set<nat>) returns (l': Lane, cancelled': set<nat>)
    ensures l' == ApplyTasks(l, tasks)
    ensures cancelled' == cancelled + CancelledBy(l, tasks)
  {
    var pending, lastRun;
    pending, lastRun, cancelled' := Invalidate(l, tasks, cancelled);
    var order := PruneOrder(l.order, pending);
    l' := l.(tasks := tasks, pending := pending, order := order, lastRun := lastRun);
  }

  method NextDue(l: Lane) returns (best: Pick)
    ensures best == Best(l, l.tasks)
  {
    best := Nothing;
    for i := 0 to |l.tasks|
      invariant best == Best(l, l.tasks[..i])
    {
      assert l.tasks[..i + 1][..i] == l.tasks[..i];
      var task := l.tasks[i];
      if task.id > 0 && task.id !in l.pending && task.id !in l.running {
        var candidate := 0;
        if task.id in l.lastRun {
          candidate := l.lastRun[task.id] + Interval(task);
        }
        if best.Nothing? || candidate < best.due {
          best := Pick(task, candidate);
        }
      }
    }
    assert l.tasks[..|l.tasks|] == l.tasks;
  }

  method Configure(tasks: seq<Task>, intervalSec: int) returns (configured: seq<Task>)
    ensures configured == WithInterval(tasks, intervalSec)
  {
    configured := [];
    for i := 0 to |tasks|
      invariant configured == WithInterval(tasks[..i], intervalSec)
    {
      var task := tasks[i];
      if task.intervalSec < 1 {
        task := task.(intervalSec := intervalSec);
      }
      configured := configured + [task];
    }
    assert tasks[..|tasks|] == tasks;
  }
}
