// What stale reads may do (nothing), what online and last-known clients may
// share (nothing), and the scope as an object.
module LiveScopeRuns {
  import opened LiveRecords
  import opened LiveScopes

  // -------------------------------------------------------------- stale reads

  ghost predicate IdsOk(s: Scope) {
    s.pending.Some? ==> s.pending.value.id < s.nextId
  }

  // A read that was superseded, finished or completed, or whose scope is gone.
  ghost predicate Stale(s: Scope, id: nat) {
    IdsOk(s) && id < s.nextId && !IsCurrent(s, id) && (!s.active || !IsPending(s, id))
  }

  lemma StaysStale(server: Server, w: World, step: Step, id: nat)
    requires Enabled(server, w, step) && Stale(w.scope, id)
    ensures Stale(Next(server, w, step).scope, id)
  {
  }

  // A stale read stays stale through every run, and its answer changes nothing
  // and is never reported as an error.
  lemma {:induction false} StaleReadsChangeNothing(server: Server, w: World, steps: seq<Step>, id: nat, snapshot: Live)
    requires Legal(server, w, steps) && Stale(w.scope, id)
    ensures var later := After(server, w, steps);
            Complete(later.scope, id, snapshot) == later.scope && !CanReportError(later.scope, id)
    decreases |steps|
  {
    if steps != [] {
      StaysStale(server, w, steps[0], id);
      StaleReadsChangeNothing(server, Next(server, w, steps[0]), steps[1..], id, snapshot);
    }
  }

  // What makes a read stale: a later read, a full snapshot, its own answer,
  // its end, or the end of the scope.
  lemma Superseded(s: Scope, id: nat, snapshot: Live)
    requires IdsOk(s) && IsCurrent(s, id)
    ensures Stale(BeginRead(s), id) && Stale(TakeSnapshot(s, snapshot), id) && Stale(Complete(s, id, snapshot), id)
    ensures Stale(FinishRead(s, id), id) && Stale(Dispose(s), id)
  {
  }

  // -------------------------------------------------- online or last known

  ghost predicate DisjointSnapshot(step: Step) {
    match step
    case Answer(_, snapshot, _) => Disjoint(snapshot)
    case Push(snapshot, _) => Disjoint(snapshot)
    case CacheSeed(snapshot, _) => Disjoint(snapshot)
    case _ => true
  }

  ghost predicate ShownDisjoint(s: Scope) {
    s.current.Some? ==> Disjoint(s.current.value)
  }

  lemma StepKeepsDisjoint(server: Server, w: World, step: Step)
    requires Enabled(server, w, step) && ShownDisjoint(w.scope) && DisjointSnapshot(step)
    ensures ShownDisjoint(Next(server, w, step).scope)
  {
    hide Apply, Replay, Newer, Disjoint;
    match step
    case Deliver => ApplyKeepsDisjoint(w.scope.current, server.log[w.received]);
    case Answer(id, snapshot, _) =>
      if IsCurrent(w.scope, id) {
        var read := w.scope.pending.value;
        ReplayKeepsDisjoint(snapshot, Newer(read.prior, snapshot.timestamp));
        ReplayKeepsDisjoint(Replay(snapshot, Newer(read.prior, snapshot.timestamp)), read.updates);
      }
    case CacheSeed(snapshot, _) => ReplayKeepsDisjoint(snapshot, Newer(w.scope.initial, snapshot.timestamp));
    case _ =>
  }

  // In every run over snapshots that keep them apart, no client is ever shown
  // both online and last known.
  lemma {:induction false} NeverBoth(server: Server, w: World, steps: seq<Step>)
    requires Legal(server, w, steps) && ShownDisjoint(w.scope)
    requires forall i :: 0 <= i < |steps| ==> DisjointSnapshot(steps[i])
    ensures ShownDisjoint(After(server, w, steps).scope)
    decreases |steps|
  {
    if steps != [] {
      StepKeepsDisjoint(server, w, steps[0]);
      NeverBoth(server, Next(server, w, steps[0]), steps[1..]);
    }
  }

  // ------------------------------------------------------------ the scope object

  class LiveSnapshotScope {
    var active: bool
    var hasSnapshot: bool
    var current: Option<Live>
    var pending: Option<Read>
    var initialUpdates: seq<Patch>
    var nextId: nat

    function View(): Scope
      reads this
    {
      Scope(active, hasSnapshot, current, pending, initialUpdates, nextId)
    }

    constructor ()
      ensures View() == MOUNTED
    {
      active, hasSnapshot, current, pending, initialUpdates, nextId := true, false, None, None, [], 0;
    }

    method BeginRead() returns (request: nat)
      modifies this
      ensures View() == LiveScopes.BeginRead(old(View()))
      ensures IsPending(View(), request)
    {
      request := nextId;
      pending := Some(Read(nextId, initialUpdates, []));
      nextId := nextId + 1;
    }

    method FinishRead(request: nat)
      modifies this
      ensures View() == LiveScopes.FinishRead(old(View()), request)
    {
      if pending.Some? && pending.value.id == request {
        pending := None;
      }
    }

    method Complete(request: nat, snapshot: Live) returns (committed: Option<Live>)
      modifies this
      ensures View() == LiveScopes.Complete(old(View()), request, snapshot)
      ensures committed == if IsCurrent(old(View()), request) then current else None
    {
      if !active || pending.None? || pending.value.id != request {
        return None;
      }
      var prior := Replay(snapshot, Newer(pending.value.prior, snapshot.timestamp));
      current := Some(Replay(prior, pending.value.updates));
      hasSnapshot := true;
      initialUpdates := [];
      pending := None;
      return current;
    }

    method Snapshot(snapshot: Live) returns (committed: Option<Live>)
      modifies this
      ensures View() == TakeSnapshot(old(View()), snapshot)
      ensures committed == if active then current else None
    {
      if !active {
        return None;
      }
      pending := None;
      initialUpdates := [];
      hasSnapshot := true;
      current := Some(snapshot);
      return current;
    }

    method Seed(snapshot: Live) returns (committed: Option<Live>)
      modifies this
      ensures View() == LiveScopes.Seed(old(View()), snapshot)
      ensures committed == if active && !old(hasSnapshot) then current else None
    {
      if !active || hasSnapshot {
        return None;
      }
      current := Some(Replay(snapshot, Newer(initialUpdates, snapshot.timestamp)));
      initialUpdates := [];
      hasSnapshot := true;
      return current;
    }

    method Patch(m: LiveRecords.Patch) returns (patched: Option<Live>)
      modifies this
      ensures View() == Receive(old(View()), m)
      ensures patched == if active then current else None
    {
      if !active {
        return None;
      }
      if !hasSnapshot {
        initialUpdates := initialUpdates + [m];
      }
      if pending.Some? {
        pending := Some(pending.value.(updates := pending.value.updates + [m]));
      }
      current := Apply(current, m);
      return current;
    }

    method Dispose()
      modifies this
      ensures View() == LiveScopes.Dispose(old(View()))
    {
      active := false;
      pending := None;
      initialUpdates := [];
      current := None;
    }
  }
}
