// What each operation on a lane keeps: the queue order, the separation of
// held leases, and the agreement between leased marks and held slips.
module LaneLemmas {
  import opened Probes
  import opened Lanes

  // ------------------------------------------------------- sequence lemmas

  lemma {:induction false} PruneAppend(a: seq<int>, b: seq<int>, pending: map<int, Queued>)
    ensures Prune(a + b, pending) == Prune(a, pending) + Prune(b, pending)
  {
    if a == [] {
      assert a + b == b;
    } else {
      assert (a + b)[1..] == a[1..] + b;
      PruneAppend(a[1..], b, pending);
    }
  }

  lemma {:induction false} UnleasedAppend(a: seq<int>, b: seq<int>, pending: map<int, Queued>)
    ensures Unleased(a + b, pending) == Unleased(a, pending) + Unleased(b, pending)
  {
    if a == [] {
      assert a + b == b;
    } else {
      assert (a + b)[1..] == a[1..] + b;
      UnleasedAppend(a[1..], b, pending);
    }
  }

  lemma {:induction false} FilterAppend(a: seq<Result>, b: seq<Result>, leases: map<int, nat>, pending: map<int, Queued>)
    ensures FilterCurrent(a + b, leases, pending) == FilterCurrent(a, leases, pending) + FilterCurrent(b, leases, pending)
  {
    if a == [] {
      assert a + b == b;
    } else {
      assert (a + b)[1..] == a[1..] + b;
      FilterAppend(a[1..], b, leases, pending);
    }
  }

  ghost predicate Ascending(ids: seq<int>, sequence: map<int, Queued>) {
    && (forall i :: 0 <= i < |ids| ==> ids[i] in sequence)
    && (forall i, j :: 0 <= i < j < |ids| ==> sequence[ids[i]].sequence < sequence[ids[j]].sequence)
  }

  lemma {:induction false} PruneAscending(order: seq<int>, pending: map<int, Queued>, kept: map<int, Queued>)
    requires Ascending(order, pending)
    requires forall id :: id in kept ==> id in pending && kept[id] == pending[id]
    ensures Ascending(Prune(order, kept), kept)
  {
    if order != [] {
      PruneAscending(order[1..], pending, kept);
      var rest := Prune(order[1..], kept);
      forall i | 0 <= i < |rest| && order[0] in kept
        ensures kept[order[0]].sequence < kept[rest[i]].sequence
      {
        assert rest[i] in rest;
        var j :| 0 <= j < |order[1..]| && order[1..][j] == rest[i];
        assert order[j + 1] == rest[i];
      }
    }
  }

  lemma {:induction false} UnleasedAscending(order: seq<int>, pending: map<int, Queued>)
    requires Ascending(order, pending)
    ensures Ascending(Unleased(order, pending), pending)
  {
    if order != [] {
      UnleasedAscending(order[1..], pending);
      var rest := Unleased(order[1..], pending);
      forall i | 0 <= i < |rest|
        ensures rest[i] in pending && pending[order[0]].sequence < pending[rest[i]].sequence
      {
        assert rest[i] in rest;
        var j :| 0 <= j < |order[1..]| && order[1..][j] == rest[i];
        assert order[j + 1] == rest[i];
      }
    }
  }

  ghost predicate Rising(results: seq<Result>, leases: map<int, nat>) {
    && (forall i :: 0 <= i < |results| ==> results[i].id in leases)
    && (forall i, j :: 0 <= i < j < |results| ==> leases[results[i].id] < leases[results[j].id])
  }

  lemma {:induction false} FilterRising(results: seq<Result>, leases: map<int, nat>, pending: map<int, Queued>)
    requires Rising(results, leases)
    ensures Rising(FilterCurrent(results, leases, pending), leases)
  {
    if results != [] {
      FilterRising(results[1..], leases, pending);
      var rest := FilterCurrent(results[1..], leases, pending);
      forall i | 0 <= i < |rest|
        ensures rest[i].id in leases && leases[results[0].id] < leases[rest[i].id]
      {
        assert rest[i] in rest;
        var j :| 0 <= j < |results[1..]| && results[1..][j] == rest[i];
        assert results[j + 1] == rest[i];
      }
    }
  }

  lemma {:induction false} FilterLength(results: seq<Result>, leases: map<int, nat>, pending: map<int, Queued>)
    ensures |FilterCurrent(results, leases, pending)| <= |results|
  {
    if results != [] {
      FilterLength(results[1..], leases, pending);
    }
  }

  // ------------------------------------------------------- queueing a result

  lemma QueueKeepsSlip(s: Slip, pending: map<int, Queued>, next: nat, r: Result)
    requires SlipFits(s, pending, next) && r.id !in pending
    ensures SlipFits(s, pending[r.id := Queued(r, next + 1, false)], next + 1)
  {
  }

  lemma QueueKeepsQueue(l: Lane, next: nat, r: Result)
    requires QueueOk(l, next) && r.id !in l.pending && r.id !in l.running
    ensures QueueOk(QueueResult(l, r, next + 1), next + 1)
  {
    var l' := QueueResult(l, r, next + 1);
    var order, pending := l'.order, l'.pending;
    forall i | 0 <= i < |order|
      ensures order[i] in pending
      ensures i < |l.order| ==> pending[order[i]] == l.pending[l.order[i]] && pending[order[i]].sequence <= next
    {
      if i < |l.order| {
        assert order[i] == l.order[i] && l.order[i] in l.pending;
      }
    }
    forall i, j | 0 <= i < j < |order|
      ensures pending[order[i]].sequence < pending[order[j]].sequence
    {
      if j < |l.order| {
        assert l.pending[l.order[i]].sequence < l.pending[l.order[j]].sequence;
      }
    }
    forall id | id in pending
      ensures id in order
    {
      if id == r.id {
        assert order[|l.order|] == id;
      } else {
        assert id in l.order;
      }
    }
  }

  lemma QueueKeeps(l: Lane, held: seq<Report>, kind: Kind, next: nat, r: Result)
    requires LaneOk(l, held, kind, next)
    requires r.id !in l.pending && r.id !in l.running
    ensures LaneOk(QueueResult(l, r, next + 1), held, kind, next + 1)
  {
    var l' := QueueResult(l, r, next + 1);
    QueueKeepsQueue(l, next, r);
    forall k | 0 <= k < |held|
      ensures SlipFits(Part(held[k], kind), l'.pending, next + 1)
    {
      QueueKeepsSlip(Part(held[k], kind), l.pending, next, r);
    }
    forall id | id in l'.pending && l'.pending[id].leased
      ensures Held(held, kind, id, l'.pending[id].sequence)
    {
      assert id in l.pending;
    }
  }

  // The other lane took the next number.
  lemma LaterNumberKeeps(l: Lane, held: seq<Report>, kind: Kind, next: nat)
    requires LaneOk(l, held, kind, next)
    ensures LaneOk(l, held, kind, next + 1)
  {
    forall k | 0 <= k < |held|
      ensures SlipFits(Part(held[k], kind), l.pending, next + 1)
    {
      assert SlipFits(Part(held[k], kind), l.pending, next);
    }
  }

  // ----------------------------------------------------------------- leasing

  lemma LeaseAscending(l: Lane, limit: nat)
    requires Ascending(l.order, l.pending)
    ensures Ascending(LeaseIds(l, limit), l.pending)
  {
    UnleasedAscending(l.order, l.pending);
  }

  lemma LeaseTakesOldest(l: Lane, limit: nat, other: int)
    requires Ascending(l.order, l.pending)
    requires other in l.order && other in l.pending && !l.pending[other].leased
    ensures other in LeaseIds(l, limit) || forall i :: 0 <= i < |LeaseIds(l, limit)| ==>
              l.pending[LeaseIds(l, limit)[i]].sequence < l.pending[other].sequence
  {
    var all := Unleased(l.order, l.pending);
    UnleasedAscending(l.order, l.pending);
    var ids := LeaseIds(l, limit);
    assert other in all;
    var j :| 0 <= j < |all| && all[j] == other;
    if j < |ids| {
      assert ids[j] == other;
    } else {
      forall i | 0 <= i < |ids|
        ensures l.pending[ids[i]].sequence < l.pending[other].sequence
      {
        assert ids[i] == all[i];
      }
    }
  }

  lemma SlipForOk(pending: map<int, Queued>, ids: seq<int>, next: nat)
    requires Ascending(ids, pending)
    requires forall id :: id in pending ==> pending[id].result.id == id && 1 <= pending[id].sequence <= next
    ensures SlipOk(SlipFor(pending, ids), next)
  {
    var s := SlipFor(pending, ids);
    forall i | 0 <= i < |ids|
      ensures s.results[i].id == ids[i] && s.results[i].id in s.leases && s.leases[ids[i]] == pending[ids[i]].sequence
    {
      assert ids[i] in ids;
    }
  }

  lemma LeasedSlipFits(l: Lane, next: nat, limit: nat)
    requires QueueOk(l, next)
    ensures SlipFits(Lease(l, limit).1, Lease(l, limit).0.pending, next)
  {
    assert Ascending(l.order, l.pending);
    LeaseAscending(l, limit);
    var ids := LeaseIds(l, limit);
    SlipForOk(l.pending, ids, next);
    var (l', s) := Lease(l, limit);
    forall id | id in l'.pending && !l'.pending[id].leased
      ensures Below(s, l'.pending[id].sequence)
    {
      assert id in l.order;
      LeaseTakesOldest(l, limit, id);
    }
    forall id | id in l'.pending && Carries(s, id, l'.pending[id].sequence)
      ensures l'.pending[id].leased && l'.pending[id].result in s.results
    {
      var i :| 0 <= i < |ids| && ids[i] == id;
      assert s.results[i] == l.pending[id].result;
    }
  }

  lemma LeaseKeepsQueue(l: Lane, next: nat, limit: nat)
    requires QueueOk(l, next)
    ensures QueueOk(Lease(l, limit).0, next)
  {
  }

  lemma LeaseKeepsSlip(l: Lane, s: Slip, next: nat, limit: nat)
    requires SlipFits(s, l.pending, next)
    ensures SlipFits(s, Lease(l, limit).0.pending, next)
    ensures forall i :: 0 <= i < |LeaseIds(l, limit)| ==> Below(s, l.pending[LeaseIds(l, limit)[i]].sequence)
  {
    var ids := LeaseIds(l, limit);
    forall i | 0 <= i < |ids|
      ensures Below(s, l.pending[ids[i]].sequence)
    {
      var id := ids[i];
      assert id in l.pending && !l.pending[id].leased;
    }
  }

  lemma LeaseKeeps(l: Lane, held: seq<Report>, kind: Kind, next: nat, limit: nat, r: Report)
    requires LaneOk(l, held, kind, next)
    requires Part(r, kind) == Lease(l, limit).1
    ensures LaneOk(Lease(l, limit).0, held + [r], kind, next)
  {
    LeaseKeepsQueue(l, next, limit);
    LeasedSlipFits(l, next, limit);
    var ids := LeaseIds(l, limit);
    var (l', s) := Lease(l, limit);
    var held' := held + [r];
    forall k | 0 <= k < |held'|
      ensures SlipFits(Part(held'[k], kind), l'.pending, next)
    {
      if k < |held| {
        LeaseKeepsSlip(l, Part(held[k], kind), next, limit);
      }
    }
    forall j, k | 0 <= j < k < |held'|
      ensures Before(Part(held'[j], kind), Part(held'[k], kind))
    {
      if k == |held| {
        LeaseKeepsSlip(l, Part(held[j], kind), next, limit);
      } else {
        assert Before(Part(held[j], kind), Part(held[k], kind));
      }
    }
    forall id | id in l'.pending && l'.pending[id].leased
      ensures Held(held', kind, id, l'.pending[id].sequence)
    {
      if id in ids {
        assert Carries(Part(held'[|held|], kind), id, l'.pending[id].sequence);
      } else {
        var k :| 0 <= k < |held| && Carries(Part(held[k], kind), id, l.pending[id].sequence);
        assert held'[k] == held[k];
      }
    }
  }

  // ------------------------------------------- filtering and dropping a report

  lemma CurrentSlipFits(s: Slip, pending: map<int, Queued>, next: nat)
    requires SlipFits(s, pending, next)
    requires forall id :: id in pending ==> pending[id].result.id == id
    ensures SlipFits(CurrentSlip(s, pending), pending, next)
  {
    FilterRising(s.results, s.leases, pending);
  }

  // Reports may change as long as their leases stay and their slips still fit.
  lemma SameLeasesKeep(pending: map<int, Queued>, held: seq<Report>, held': seq<Report>, kind: Kind, next: nat)
    requires HeldOk(pending, held, kind, next)
    requires |held| == |held'|
    requires forall k :: 0 <= k < |held| ==>
               Part(held'[k], kind).leases == Part(held[k], kind).leases && SlipFits(Part(held'[k], kind), pending, next)
    ensures HeldOk(pending, held', kind, next)
  {
    forall j, k | 0 <= j < k < |held'|
      ensures Before(Part(held'[j], kind), Part(held'[k], kind))
    {
      assert Before(Part(held[j], kind), Part(held[k], kind));
    }
    forall id | id in pending && pending[id].leased
      ensures Held(held', kind, id, pending[id].sequence)
    {
      var k :| 0 <= k < |held| && Carries(Part(held[k], kind), id, pending[id].sequence);
      assert Carries(Part(held'[k], kind), id, pending[id].sequence);
    }
  }

  lemma FilterKeeps(l: Lane, a: seq<Report>, r: Report, b: seq<Report>, r': Report, kind: Kind, next: nat)
    requires LaneOk(l, a + [r] + b, kind, next)
    requires Part(r', kind) == CurrentSlip(Part(r, kind), l.pending)
    ensures LaneOk(l, a + [r'] + b, kind, next)
  {
    var held, held' := a + [r] + b, a + [r'] + b;
    assert held[|a|] == r && held'[|a|] == r';
    assert SlipFits(Part(r, kind), l.pending, next);
    CurrentSlipFits(Part(r, kind), l.pending, next);
    forall k | 0 <= k < |held|
      ensures Part(held'[k], kind).leases == Part(held[k], kind).leases && SlipFits(Part(held'[k], kind), l.pending, next)
    {
      if k != |a| {
        assert held'[k] == held[k];
        assert SlipFits(Part(held[k], kind), l.pending, next);
      }
    }
    SameLeasesKeep(l.pending, held, held', kind, next);
  }

  // Taking one report out of hand, while `pending` shrinks to entries that the
  // report does not carry.
  lemma RemoveKeeps(pending: map<int, Queued>, a: seq<Report>, r: Report, b: seq<Report>, kind: Kind, next: nat,
                    pending': map<int, Queued>)
    requires HeldOk(pending, a + [r] + b, kind, next)
    requires forall id :: id in pending' ==> id in pending && pending'[id] == pending[id]
    requires forall id :: id in pending' ==> !Carries(Part(r, kind), id, pending'[id].sequence)
    ensures HeldOk(pending', a + b, kind, next)
  {
    hide SlipOk;
    var held, held' := a + [r] + b, a + b;
    forall k | 0 <= k < |held'|
      ensures SlipFits(Part(held'[k], kind), pending', next)
    {
      assert held'[k] == held[if k < |a| then k else k + 1];
    }
    forall j, k | 0 <= j < k < |held'|
      ensures Before(Part(held'[j], kind), Part(held'[k], kind))
    {
      assert held'[j] == held[if j < |a| then j else j + 1];
      assert held'[k] == held[if k < |a| then k else k + 1];
    }
    forall id | id in pending' && pending'[id].leased
      ensures Held(held', kind, id, pending'[id].sequence)
    {
      var k :| 0 <= k < |held| && Carries(Part(held[k], kind), id, pending[id].sequence);
      assert k != |a|;
      var k' := if k < |a| then k else k - 1;
      assert held'[k'] == held[k];
    }
  }

  lemma DropKeeps(l: Lane, a: seq<Report>, r: Report, b: seq<Report>, kind: Kind, next: nat)
    requires LaneOk(l, a + [r] + b, kind, next)
    requires Part(r, kind).results == []
    ensures LaneOk(l, a + b, kind, next)
  {
    assert (a + [r] + b)[|a|] == r;
    RemoveKeeps(l.pending, a, r, b, kind, next, l.pending);
  }

  lemma AckKeeps(pending: map<int, Queued>, a: seq<Report>, r: Report, b: seq<Report>, kind: Kind, next: nat)
    requires HeldOk(pending, a + [r] + b, kind, next)
    ensures HeldOk(AckPending(pending, Part(r, kind)), a + b, kind, next)
  {
    RemoveKeeps(pending, a, r, b, kind, next, AckPending(pending, Part(r, kind)));
  }

  // ------------------------------------------------ shrinking the pending map

  lemma ShrinkKeepsHeld(pending: map<int, Queued>, held: seq<Report>, kind: Kind, next: nat, pending': map<int, Queued>)
    requires HeldOk(pending, held, kind, next)
    requires forall id :: id in pending' ==> id in pending && pending'[id] == pending[id]
    ensures HeldOk(pending', held, kind, next)
  {
    forall k | 0 <= k < |held|
      ensures SlipFits(Part(held[k], kind), pending', next)
    {
      assert SlipFits(Part(held[k], kind), pending, next);
    }
  }

  lemma ShrinkKeepsQueue(l: Lane, next: nat, pending': map<int, Queued>)
    requires QueueOk(l, next)
    requires forall id :: id in pending' ==> id in l.pending && pending'[id] == l.pending[id]
    ensures QueueOk(l.(pending := pending', order := Prune(l.order, pending')), next)
  {
    PruneAscending(l.order, l.pending, pending');
  }

  lemma ApplyTasksKeeps(l: Lane, held: seq<Report>, kind: Kind, next: nat, tasks: seq<Task>)
    requires LaneOk(l, held, kind, next)
    ensures LaneOk(ApplyTasks(l, tasks), held, kind, next)
  {
    var pending' := ApplyTasks(l, tasks).pending;
    ShrinkKeepsHeld(l.pending, held, kind, next, pending');
    ShrinkKeepsQueue(l, next, pending');
  }
}
