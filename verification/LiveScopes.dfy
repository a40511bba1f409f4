// One mounted scope: full snapshots from HTTP reads, socket pushes and the
// cache, racing with socket patches.
module LiveScopes {
  import opened LiveRecords
  import opened LiveEffects

  datatype Read = Read(id: nat, prior: seq<Patch>, updates: seq<Patch>)

  // Requests are told apart by identity; `nextId` is the next fresh one.
  datatype Scope = Scope(
    active: bool,
    hasSnapshot: bool,
    current: Option<Live>,
    pending: Option<Read>,
    initial: seq<Patch>,
    nextId: nat)

  const MOUNTED := Scope(true, false, None, None, [], 0)

  function BeginRead(s: Scope): Scope {
    s.(pending := Some(Read(s.nextId, s.initial, [])), nextId := s.nextId + 1)
  }

  predicate IsPending(s: Scope, id: nat) {
    s.pending.Some? && s.pending.value.id == id
  }

  predicate IsCurrent(s: Scope, id: nat) {
    s.active && IsPending(s, id)
  }

  predicate CanReportError(s: Scope, id: nat) {
    IsCurrent(s, id) && (!s.hasSnapshot || s.pending.value.updates == [])
  }

  function FinishRead(s: Scope, id: nat): Scope {
    if IsPending(s, id) then s.(pending := None) else s
  }

  function Complete(s: Scope, id: nat, snapshot: Live): Scope {
    if !IsCurrent(s, id) then s
    else
      var read := s.pending.value;
      s.(current := Some(Replay(Replay(snapshot, Newer(read.prior, snapshot.timestamp)), read.updates)),
         hasSnapshot := true, initial := [], pending := None)
  }

  function TakeSnapshot(s: Scope, snapshot: Live): Scope {
    if !s.active then s else s.(current := Some(snapshot), hasSnapshot := true, initial := [], pending := None)
  }

  function Seed(s: Scope, snapshot: Live): Scope {
    if !s.active || s.hasSnapshot then s
    else s.(current := Some(Replay(snapshot, Newer(s.initial, snapshot.timestamp))), hasSnapshot := true, initial := [])
  }

  function Receive(s: Scope, m: Patch): Scope {
    if !s.active then s
    else
      s.(initial := if s.hasSnapshot then s.initial else s.initial + [m],
         pending := if s.pending.None? then None else Some(s.pending.value.(updates := s.pending.value.updates + [m])),
         current := Apply(s.current, m))
  }

  function Dispose(s: Scope): Scope {
    s.(active := false, pending := None, initial := [], current := None)
  }

  // ------------------------------------------------------------------- worlds

  // The server's ordered log of patches, from the state at mounting.
  datatype Server = Server(base: Live, log: seq<Patch>)

  function Truth(server: Server, k: nat): Live
    requires k <= |server.log|
  {
    Replay(server.base, server.log[..k])
  }

  ghost predicate Reflects(snapshot: Live, server: Server, k: nat) {
    k <= |server.log| && forall u: string :: LookAt(snapshot, u) == LookAt(Truth(server, k), u)
  }

  ghost predicate Ordered(log: seq<Patch>) {
    forall i, j :: 0 <= i < j < |log| ==> log[i].timestamp <= log[j].timestamp
  }

  // The scope, how far the socket has delivered, where the pending read began
  // (and whether a snapshot was known then), and the prefix that the last full
  // snapshot reflected with the position from which patches were replayed.
  datatype World = World(scope: Scope, received: nat, begun: nat, informed: bool, known: nat, replayed: nat)

  datatype Step =
    | Deliver
    | Begin
    | Finish(id: nat)
    | Answer(id: nat, snapshot: Live, k: nat)
    | Push(snapshot: Live, k: nat)
    | CacheSeed(snapshot: Live, k: nat)
    | Unmount

  // The patches of a prefix that are newer than the snapshot include all that
  // the snapshot does not reflect.
  ghost predicate Timely(log: seq<Patch>, n: nat, snapshot: Live, k: nat)
    requires n <= |log|
  {
    forall i :: k <= i < n ==> log[i].timestamp > snapshot.timestamp
  }

  // A snapshot reflects some prefix of the log. A read begun with a snapshot
  // at hand reflects no less than what had arrived when it began; otherwise
  // its timestamp tells which of the earlier patches it lacks. A pushed
  // snapshot takes the place of all patches before it.
  ghost predicate Enabled(server: Server, w: World, step: Step) {
    match step
    case Deliver => w.received < |server.log|
    case Answer(id, snapshot, k) =>
      IsCurrent(w.scope, id) ==>
        && Reflects(snapshot, server, k)
        && (if w.informed then w.begun <= k else w.begun <= |server.log| && Timely(server.log, w.begun, snapshot, k))
    case Push(snapshot, k) => Reflects(snapshot, server, k) && w.received <= k
    case CacheSeed(snapshot, k) =>
      w.scope.active && !w.scope.hasSnapshot ==>
        Reflects(snapshot, server, k) && w.received <= |server.log| && Timely(server.log, w.received, snapshot, k)
    case _ => true
  }

  ghost function Next(server: Server, w: World, step: Step): World
    requires Enabled(server, w, step)
  {
    match step
    case Deliver => w.(scope := Receive(w.scope, server.log[w.received]), received := w.received + 1)
    case Begin => w.(scope := BeginRead(w.scope), begun := w.received, informed := w.scope.hasSnapshot)
    case Finish(id) => w.(scope := FinishRead(w.scope, id))
    case Answer(id, snapshot, k) =>
      if !IsCurrent(w.scope, id) then w
      else
        var newer := Newer(w.scope.pending.value.prior, snapshot.timestamp);
        w.(scope := Complete(w.scope, id, snapshot), known := k,
           replayed := if |newer| <= w.begun then w.begun - |newer| else 0)
    case Push(snapshot, k) =>
      if !w.scope.active then w
      else w.(scope := TakeSnapshot(w.scope, snapshot), received := k, known := k, replayed := k)
    case CacheSeed(snapshot, k) =>
      if !w.scope.active || w.scope.hasSnapshot then w
      else
        var newer := Newer(w.scope.initial, snapshot.timestamp);
        w.(scope := Seed(w.scope, snapshot), known := k,
           replayed := if |newer| <= w.received then w.received - |newer| else 0)
    case Unmount => w.(scope := Dispose(w.scope))
  }

  const START := World(MOUNTED, 0, 0, false, 0, 0)

  ghost predicate Legal(server: Server, w: World, steps: seq<Step>)
    decreases |steps|
  {
    steps == [] || (Enabled(server, w, steps[0]) && Legal(server, Next(server, w, steps[0]), steps[1..]))
  }

  ghost function After(server: Server, w: World, steps: seq<Step>): World
    requires Legal(server, w, steps)
    decreases |steps|
  {
    if steps == [] then w else After(server, Next(server, w, steps[0]), steps[1..])
  }

  // --------------------------------------------------------------- invariants

  ghost predicate ReadOk(server: Server, w: World, read: Read) {
    && w.begun <= w.received <= |server.log|
    && read.updates == server.log[w.begun..w.received]
    && read.prior == if w.informed then [] else server.log[..w.begun]
  }

  // What is shown is the last full snapshot with an overlapping part of the
  // log replayed on it.
  ghost predicate ShownOk(server: Server, w: World, shown: Live) {
    && w.replayed <= w.known <= |server.log| && w.replayed <= w.received <= |server.log|
    && forall u :: LookAt(shown, u) == ReplayLook(LookAt(Truth(server, w.known), u), server.log[w.replayed..w.received], u)
  }

  ghost predicate Inv(server: Server, w: World) {
    w.scope.active ==>
      && w.received <= |server.log|
      && w.scope.initial == (if w.scope.hasSnapshot then [] else server.log[..w.received])
      && (w.scope.pending.Some? ==> ReadOk(server, w, w.scope.pending.value))
      && (w.scope.hasSnapshot ==> w.scope.current.Some? && ShownOk(server, w, w.scope.current.value))
  }

  // --------------------------------------------------------------------- steps

  lemma {:induction false} AllNewer(patches: seq<Patch>, timestamp: int)
    requires forall i :: 0 <= i < |patches| ==> patches[i].timestamp > timestamp
    ensures Newer(patches, timestamp) == patches
  {
    if patches != [] {
      AllNewer(patches[1..], timestamp);
      assert [patches[0]] + patches[1..] == patches;
    }
  }

  lemma {:induction false} NewerIsSuffix(patches: seq<Patch>, timestamp: int)
    requires Ordered(patches)
    ensures var j := |patches| - |Newer(patches, timestamp)|;
            && Newer(patches, timestamp) == patches[j..]
            && (forall i :: 0 <= i < j ==> patches[i].timestamp <= timestamp)
  {
    if patches != [] {
      if patches[0].timestamp > timestamp {
        AllNewer(patches, timestamp);
      } else {
        var rest := patches[1..];
        var n := |Newer(rest, timestamp)|;
        NewerIsSuffix(rest, timestamp);
        assert Newer(patches, timestamp) == rest[|rest| - n..] == patches[|patches| - n..];
        forall i | 0 <= i < |patches| - n
          ensures patches[i].timestamp <= timestamp
        {
          if i > 0 {
            assert patches[i] == rest[i - 1];
          }
        }
      }
    }
  }

  lemma ShownDelivers(server: Server, w: World, shown: Live)
    requires ShownOk(server, w, shown) && w.received < |server.log|
    ensures Apply(Some(shown), server.log[w.received]).Some?
    ensures ShownOk(server, w.(received := w.received + 1), Apply(Some(shown), server.log[w.received]).value)
  {
    hide Apply, LookAt, StepLook, Truth;
    var m, replayed := server.log[w.received], server.log[w.replayed..w.received];
    assert server.log[w.replayed..w.received + 1] == replayed + [m];
    ApplyLooks(shown, m, "");
    forall u
      ensures LookAt(Apply(Some(shown), m).value, u)
              == ReplayLook(LookAt(Truth(server, w.known), u), server.log[w.replayed..w.received + 1], u)
    {
      ApplyLooks(shown, m, u);
      assert (replayed + [m])[..|replayed|] == replayed;
    }
  }

  lemma DeliverKeeps(server: Server, w: World)
    requires Inv(server, w) && Enabled(server, w, Deliver)
    ensures Inv(server, Next(server, w, Deliver))
  {
    hide Apply, LookAt, ReplayLook, Truth;
    if w.scope.active {
      var w', m := Next(server, w, Deliver), server.log[w.received];
      assert server.log[..w.received] + [m] == server.log[..w.received + 1];
      if w.scope.pending.Some? {
        assert server.log[w.begun..w.received] + [m] == server.log[w.begun..w.received + 1];
      }
      if w.scope.hasSnapshot {
        ShownDelivers(server, w, w.scope.current.value);
        assert ShownOk(server, w', w'.scope.current.value);
      }
    }
  }

  // A snapshot with a part of the log replayed on it.
  lemma SnapshotShown(server: Server, w: World, snapshot: Live, first: seq<Patch>, second: seq<Patch>)
    requires Reflects(snapshot, server, w.known)
    requires w.replayed <= w.known <= |server.log| && w.replayed <= w.received <= |server.log|
    requires first + second == server.log[w.replayed..w.received]
    ensures ShownOk(server, w, Replay(Replay(snapshot, first), second))
  {
    forall u
      ensures LookAt(Replay(Replay(snapshot, first), second), u)
              == ReplayLook(LookAt(Truth(server, w.known), u), server.log[w.replayed..w.received], u)
    {
      ReplayLooks(snapshot, first, u);
      ReplayLooks(Replay(snapshot, first), second, u);
      ReplayLookAppend(LookAt(snapshot, u), first, second, u);
    }
  }

  // The earlier patches that an answer replays are an end part of the log
  // that reaches back at least to what the snapshot reflects.
  lemma PriorReplayed(log: seq<Patch>, n: nat, snapshot: Live, k: nat) returns (j: nat)
    requires Ordered(log) && n <= |log| && Timely(log, n, snapshot, k)
    ensures j <= n && j <= k && n - j == |Newer(log[..n], snapshot.timestamp)|
    ensures Newer(log[..n], snapshot.timestamp) == log[j..n]
  {
    NewerIsSuffix(log[..n], snapshot.timestamp);
    j := n - |Newer(log[..n], snapshot.timestamp)|;
    assert log[..n][j..] == log[j..n];
    assert k < n ==> log[..n][k] == log[k];
  }

  lemma NothingNewer(timestamp: int)
    ensures Newer([], timestamp) == []
  {
  }

  lemma PartsMeet(log: seq<Patch>, i: nat, j: nat, k: nat)
    requires i <= j <= k <= |log|
    ensures log[i..j] + log[j..k] == log[i..k]
  {
  }

  lemma AnswerReplays(server: Server, w: World, read: Read, snapshot: Live, k: nat) returns (j: nat)
    requires Ordered(server.log) && ReadOk(server, w, read)
    requires if w.informed then w.begun <= k else Timely(server.log, w.begun, snapshot, k)
    ensures var newer := Newer(read.prior, snapshot.timestamp);
            && j <= k && j <= w.begun && |newer| == w.begun - j
            && newer + read.updates == server.log[j..w.received]
  {
    hide Newer, Ordered, Timely;
    if w.informed {
      j := w.begun;
      NothingNewer(snapshot.timestamp);
      assert [] + read.updates == read.updates;
    } else {
      j := PriorReplayed(server.log, w.begun, snapshot, k);
      PartsMeet(server.log, j, w.begun, w.received);
    }
  }

  lemma AnswerKeeps(server: Server, w: World, id: nat, snapshot: Live, k: nat)
    requires Inv(server, w) && Ordered(server.log) && Enabled(server, w, Answer(id, snapshot, k))
    ensures Inv(server, Next(server, w, Answer(id, snapshot, k)))
  {
    hide Replay, LookAt, ReplayLook, Truth, Newer, ReadOk, Timely, Ordered;
    if IsCurrent(w.scope, id) {
      var w', read := Next(server, w, Answer(id, snapshot, k)), w.scope.pending.value;
      AnswerEnabled(server, w, read, id, snapshot, k);
      var j := AnswerReplays(server, w, read, snapshot, k);
      assert w'.replayed == j;
      SnapshotShown(server, w', snapshot, Newer(read.prior, snapshot.timestamp), read.updates);
      assert ShownOk(server, w', w'.scope.current.value);
    }
  }

  lemma AnswerEnabled(server: Server, w: World, read: Read, id: nat, snapshot: Live, k: nat)
    requires Inv(server, w) && IsCurrent(w.scope, id) && read == w.scope.pending.value
    requires Enabled(server, w, Answer(id, snapshot, k))
    ensures ReadOk(server, w, read) && w.begun <= w.received <= |server.log| && Reflects(snapshot, server, k)
    ensures if w.informed then w.begun <= k else Timely(server.log, w.begun, snapshot, k)
  {
  }

  lemma PushKeeps(server: Server, w: World, snapshot: Live, k: nat)
    requires Inv(server, w) && Enabled(server, w, Push(snapshot, k))
    ensures Inv(server, Next(server, w, Push(snapshot, k)))
  {
    if w.scope.active {
      var w' := Next(server, w, Push(snapshot, k));
      assert [] + [] == server.log[k..k];
      SnapshotShown(server, w', snapshot, [], []);
    }
  }

  lemma SeedKeeps(server: Server, w: World, snapshot: Live, k: nat)
    requires Inv(server, w) && Ordered(server.log) && Enabled(server, w, CacheSeed(snapshot, k))
    ensures Inv(server, Next(server, w, CacheSeed(snapshot, k)))
  {
    hide LookAt, ReplayLook, Truth, Newer;
    if w.scope.active && !w.scope.hasSnapshot {
      var w' := Next(server, w, CacheSeed(snapshot, k));
      var newer := Newer(w.scope.initial, snapshot.timestamp);
      var j := PriorReplayed(server.log, w.received, snapshot, k);
      assert newer + [] == server.log[w'.replayed..w'.received];
      SnapshotShown(server, w', snapshot, newer, []);
    }
  }

  lemma StepKeeps(server: Server, w: World, step: Step)
    requires Inv(server, w) && Ordered(server.log) && Enabled(server, w, step)
    ensures Inv(server, Next(server, w, step))
  {
    match step
    case Deliver => DeliverKeeps(server, w);
    case Begin =>
    case Finish(_) =>
    case Answer(id, snapshot, k) => AnswerKeeps(server, w, id, snapshot, k);
    case Push(snapshot, k) => PushKeeps(server, w, snapshot, k);
    case CacheSeed(snapshot, k) => SeedKeeps(server, w, snapshot, k);
    case Unmount =>
  }

  lemma {:induction false} RunKeeps(server: Server, w: World, steps: seq<Step>)
    requires Inv(server, w) && Ordered(server.log) && Legal(server, w, steps)
    ensures Inv(server, After(server, w, steps))
    decreases |steps|
  {
    if steps != [] {
      StepKeeps(server, w, steps[0]);
      RunKeeps(server, Next(server, w, steps[0]), steps[1..]);
    }
  }

  // ------------------------------------------------------------- main results

  // Convergence: at every point of every run at which the socket has delivered
  // at least the prefix that the last full snapshot reflected, what is shown
  // of every client is exactly the fold of everything delivered.
  lemma Converges(server: Server, steps: seq<Step>)
    requires Ordered(server.log) && Legal(server, START, steps)
    ensures var w := After(server, START, steps);
            w.scope.active && w.scope.hasSnapshot && w.known <= w.received ==>
              w.scope.current.Some? && Reflects(w.scope.current.value, server, w.received)
  {
    assert server.log[..0] == [];
    RunKeeps(server, START, steps);
    var w := After(server, START, steps);
    if w.scope.active && w.scope.hasSnapshot && w.known <= w.received {
      ShownConverges(server, w, w.scope.current.value);
    }
  }

  lemma ShownConverges(server: Server, w: World, shown: Live)
    requires ShownOk(server, w, shown) && w.known <= w.received
    ensures Reflects(shown, server, w.received)
  {
    var log := server.log[..w.received];
    assert log[..w.known] == server.log[..w.known] && log[w.replayed..] == server.log[w.replayed..w.received];
    forall u
      ensures LookAt(shown, u) == LookAt(Truth(server, w.received), u)
    {
      ReplayLooks(server.base, server.log[..w.known], u);
      ReplayLooks(server.base, log, u);
      OverlapAbsorbed(LookAt(server.base, u), log, w.replayed, w.known, u);
    }
  }

  // In particular, an accepted HTTP answer that reflects no more than what has
  // arrived by then shows the fold of everything that has arrived.
  lemma AnswerConverges(server: Server, steps: seq<Step>, id: nat, snapshot: Live, k: nat)
    requires Ordered(server.log) && Legal(server, START, steps)
    requires var w := After(server, START, steps);
             IsCurrent(w.scope, id) && k <= w.received && Enabled(server, w, Answer(id, snapshot, k))
    ensures var w := After(server, START, steps);
            var shown := Complete(w.scope, id, snapshot).current;
            shown.Some? && Reflects(shown.value, server, w.received)
  {
    var w := After(server, START, steps);
    assert server.log[..0] == [];
    RunKeeps(server, START, steps);
    AnswerKeeps(server, w, id, snapshot, k);
    var w' := Next(server, w, Answer(id, snapshot, k));
    ShownConverges(server, w', w'.scope.current.value);
  }
}
