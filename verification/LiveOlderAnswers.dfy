// Reads answered by any prefix of the log, older ones included: exactly when
// such an answer still shows what the server has.
module LiveOlderAnswers {
  import opened LiveRecords
  import opened LiveEffects
  import opened LiveScopes

  // ------------------------------------------------------ effects acting alike

  // What an overwrite leaves of an absent client.
  function Fresh(o: Overwrite): Record {
    Over(o, EMPTY)
  }

  function NameOr(name: string, uuid: string): string {
    if name != "" then name else uuid
  }

  // Two effects that no client can tell apart: changes must agree in all that
  // they overwrite and in the name they choose, renewals in what they leave.
  predicate ActAlike(e: Effect, f: Effect, uuid: string) {
    match e
    case Same => f.Same?
    case Gone => f.Gone?
    case Change(o, name) => f == Change(o, name)
    case Renew(o, name) => f.Renew? && Fresh(o) == Fresh(f.o) && o.time == f.o.time && NameOr(name, uuid) == NameOr(f.name, uuid)
  }

  // A look that a snapshot can show of this client.
  predicate Possible(look: Look, uuid: string) {
    look.client.Some? ==> look.client.value.uuid == uuid
  }

  function Showing(look: Look, uuid: string): Live {
    Live(if look.online then [uuid] else [], if look.client.Some? then [look.client.value] else [],
         if look.record.Some? then map[uuid := look.record.value] else map[], map[], 0, 0)
  }

  lemma ShowingLooks(look: Look, uuid: string)
    requires Possible(look, uuid)
    ensures LookAt(Showing(look, uuid), uuid) == look
  {
  }

  lemma AlikeTakes(look: Look, e: Effect, f: Effect, uuid: string)
    requires ActAlike(e, f, uuid)
    ensures Take(look, e, uuid) == Take(look, f, uuid)
  {
    if e.Renew? {
      assert map[] + Fresh(e.o).fields == map[] + Fresh(f.o).fields;
    }
  }

  function OtherCapacity(capacity: Option<Positive>): Option<Positive> {
    if capacity.None? then Some(1.0) else None
  }

  // A name that no client's fields have.
  lemma UnusedKey(keys: set<string>, n: nat) returns (key: string)
    requires forall k :: k in keys ==> |k| <= n
    ensures |key| == n + 1 && key !in keys
  {
    key := seq(n + 1, i => 'x');
  }

  lemma {:induction false} LongestKey(keys: set<string>) returns (n: nat)
    ensures forall k :: k in keys ==> |k| <= n
    decreases |keys|
  {
    if keys == {} {
      n := 0;
    } else {
      var key :| key in keys;
      var m := LongestKey(keys - {key});
      n := if |key| > m then |key| else m;
      assert forall k :: k in keys ==> k == key || k in keys - {key};
    }
  }

  // A client with this record and name, shown online.
  function Known(record: Record, name: string, uuid: string): Look {
    Look(true, Some(record), Some(Client(uuid, name, map[], None, map[], 0)))
  }

  lemma KnownChanged(record: Record, name: string, o: Overwrite, chosen: string, uuid: string)
    ensures var after := Changed(Known(record, name, uuid), o, chosen, uuid);
            && after.record == Some(Over(o, record))
            && after.client.Some? && after.client.value.name == ChosenName(chosen, Some(Client(uuid, name, map[], None, map[], 0)), uuid)
  {
  }

  // Changes that differ are told apart by an absent client or a known one.
  lemma DifferentChanges(o: Overwrite, a: string, p: Overwrite, b: string, uuid: string) returns (look: Look)
    requires o != p || a != b
    ensures Possible(look, uuid) && Changed(look, o, a, uuid) != Changed(look, p, b, uuid)
  {
    hide Changed;
    var record, name := EMPTY, uuid + "x";
    assert name != uuid;
    if o.capacity != p.capacity {
      var overwritten := if o.capacity.Some? then o.capacity.value else if p.capacity.Some? then p.capacity.value else None;
      record := EMPTY.(capacity := OtherCapacity(overwritten));
    } else if o.errors != p.errors && Fresh(o) == Fresh(p) {
      var m :| m in {Cpu, Ram, Swap, Network} && (m in o.errors <==> m !in p.errors) by {
        DifferentErrors(o.errors, p.errors);
      }
      record := EMPTY.(errors := map[m := WarmingUp]);
      assert m in OverErrors(o.errors, record.errors) <==> m !in OverErrors(p.errors, record.errors) by {
        DifferentErrors(o.errors, p.errors);
      }
    } else if o.fields != p.fields {
      assert map[] + o.fields == o.fields && map[] + p.fields == p.fields;
    } else if name == a || name == b {
      name := uuid + "xx";
    }
    look := Known(record, name, uuid);
    KnownChanged(record, name, o, a, uuid);
    KnownChanged(record, name, p, b, uuid);
  }

  // Error overwrites that clear and set the same errors of a new client differ
  // only in what they clear.
  lemma DifferentErrors(o: map<Metric, Option<Reason>>, p: map<Metric, Option<Reason>>)
    requires o != p && OverErrors(o, map[]) == OverErrors(p, map[])
    ensures exists m :: m in {Cpu, Ram, Swap, Network} && (m in o <==> m !in p)
    ensures forall m, r: Reason :: (m in o <==> m !in p) ==>
              (m in OverErrors(o, map[m := r]) <==> m !in OverErrors(p, map[m := r]))
  {
    var both := OverErrors(o, map[]);
    forall m: Metric
      ensures m in {Cpu, Ram, Swap, Network}
      ensures m in both <==> m in o && o[m].Some?
      ensures m in both <==> m in p && p[m].Some?
      ensures m in both ==> o[m] == p[m]
    {
      match m case Cpu => case Ram => case Swap => case Network =>
    }
  }

  // Effects that do not act alike are told apart by some client.
  lemma DifferentEffects(e: Effect, f: Effect, uuid: string) returns (look: Look)
    requires !ActAlike(e, f, uuid)
    ensures Possible(look, uuid) && Take(look, e, uuid) != Take(look, f, uuid)
  {
    look := ABSENT;
    if e.Change? && f.Change? {
      look := DifferentChanges(e.o, e.name, f.o, f.name, uuid);
    } else if e.Change? && f.Renew? {
      look := OldFieldsTell(e.o, e.name, f.o, f.name, uuid);
    } else if e.Renew? && f.Change? {
      look := OldFieldsTell(f.o, f.name, e.o, e.name, uuid);
    } else if (e.Same? && f.Gone?) || (e.Gone? && f.Same?) {
      look := Known(EMPTY, "", uuid);
    }
  }

  // A renewal forgets a field that a change keeps.
  lemma OldFieldsTell(o: Overwrite, a: string, p: Overwrite, b: string, uuid: string) returns (look: Look)
    ensures Possible(look, uuid) && Take(look, Change(o, a), uuid) != Take(look, Renew(p, b), uuid)
  {
    var n := LongestKey(o.fields.Keys + p.fields.Keys);
    var key := UnusedKey(o.fields.Keys + p.fields.Keys, n);
    var record := EMPTY.(fields := map[key := Null]);
    look := Known(record, "", uuid);
    assert key in Over(o, record).fields && key !in Over(p, EMPTY).fields;
    KnownChanged(record, "", o, a, uuid);
  }

  // -------------------------------------------------------------- main results

  // Exactly when two lists of patches do the same to a client, whatever
  // snapshot they are replayed on.
  lemma ReplaysAlikeIff(a: seq<Patch>, b: seq<Patch>, uuid: string)
    ensures (forall value: Live :: LookAt(Replay(value, a), uuid) == LookAt(Replay(value, b), uuid))
            <==> ActAlike(EffectOf(a, uuid), EffectOf(b, uuid), uuid)
  {
    hide LookAt, Take, ActAlike, Replay, EffectOf;
    forall value: Live
      ensures LookAt(Replay(value, a), uuid) == Take(LookAt(value, uuid), EffectOf(a, uuid), uuid)
      ensures LookAt(Replay(value, b), uuid) == Take(LookAt(value, uuid), EffectOf(b, uuid), uuid)
      ensures ActAlike(EffectOf(a, uuid), EffectOf(b, uuid), uuid) ==>
                LookAt(Replay(value, a), uuid) == LookAt(Replay(value, b), uuid)
    {
      ReplayLooks(value, a, uuid);
      ReplayLooks(value, b, uuid);
      ReplayIsEffect(LookAt(value, uuid), a, uuid);
      ReplayIsEffect(LookAt(value, uuid), b, uuid);
      if ActAlike(EffectOf(a, uuid), EffectOf(b, uuid), uuid) {
        AlikeTakes(LookAt(value, uuid), EffectOf(a, uuid), EffectOf(b, uuid), uuid);
      }
    }
    if !ActAlike(EffectOf(a, uuid), EffectOf(b, uuid), uuid) {
      var look := DifferentEffects(EffectOf(a, uuid), EffectOf(b, uuid), uuid);
      ShowingLooks(look, uuid);
      var value := Showing(look, uuid);
      assert LookAt(Replay(value, a), uuid) == Take(look, EffectOf(a, uuid), uuid);
      assert LookAt(Replay(value, b), uuid) == Take(look, EffectOf(b, uuid), uuid);
    }
  }

  // What the answer of a read shows of a client, when the read owns the
  // patches from `begun` on.
  lemma AnswerShows(scope: Scope, read: Read, server: Server, snapshot: Live, k: nat, begun: nat, received: nat, uuid: string)
    requires scope.active && scope.pending == Some(read) && read.prior == []
    requires k <= received && begun <= received <= |server.log| && read.updates == server.log[begun..received]
    requires Reflects(snapshot, server, k)
    ensures var shown := Complete(scope, read.id, snapshot).current;
            && shown.Some?
            && LookAt(shown.value, uuid) == LookAt(Replay(server.base, server.log[..k] + server.log[begun..received]), uuid)
  {
    hide LookAt, ReplayLook, Replay;
    NothingNewer(snapshot.timestamp);
    var rest := server.log[begun..received];
    var prior := Replay(snapshot, []);
    assert prior == snapshot by {
      NothingReplayed(snapshot);
    }
    ReplayLooks(snapshot, rest, uuid);
    ReplayLooks(server.base, server.log[..k], uuid);
    ReplayLookAppend(LookAt(server.base, uuid), server.log[..k], rest, uuid);
    ReplayLooks(server.base, server.log[..k] + rest, uuid);
  }

  lemma NothingReplayed(snapshot: Live)
    ensures Replay(snapshot, []) == snapshot
  {
  }

  // An answer that reflects the first k patches shows the fold of everything
  // that has arrived.
  ghost predicate AnswerShowsAll(scope: Scope, id: nat, server: Server, snapshot: Live, received: nat, uuid: string)
    requires IsCurrent(scope, id) && received <= |server.log|
  {
    LookAt(Complete(scope, id, snapshot).current.value, uuid) == LookAt(Truth(server, received), uuid)
  }

  // Exactly when the current read of a scope that had a snapshot at hand may
  // be answered by the state after the first k patches, older or not: when
  // those followed by the read's own patches act on the client as the whole
  // log does. It then converges for every base, otherwise not for some base.
  lemma AnswerConvergesIff(scope: Scope, read: Read, log: seq<Patch>, k: nat, begun: nat, received: nat, uuid: string)
    requires scope.active && scope.pending == Some(read) && read.prior == []
    requires k <= received && begun <= received <= |log| && read.updates == log[begun..received]
    ensures (forall base: Live, snapshot: Live :: Reflects(snapshot, Server(base, log), k) ==>
               AnswerShowsAll(scope, read.id, Server(base, log), snapshot, received, uuid))
            <==> ActAlike(EffectOf(log[..k] + log[begun..received], uuid), EffectOf(log[..received], uuid), uuid)
  {
    hide LookAt, ActAlike, EffectOf, Complete, Replay;
    var kept := log[..k] + log[begun..received];
    ReplaysAlikeIff(kept, log[..received], uuid);
    if ActAlike(EffectOf(kept, uuid), EffectOf(log[..received], uuid), uuid) {
      forall base: Live, snapshot: Live | Reflects(snapshot, Server(base, log), k)
        ensures AnswerShowsAll(scope, read.id, Server(base, log), snapshot, received, uuid)
      {
        AnswerShows(scope, read, Server(base, log), snapshot, k, begun, received, uuid);
        assert LookAt(Replay(base, kept), uuid) == LookAt(Replay(base, log[..received]), uuid);
      }
    } else {
      var base :| LookAt(Replay(base, kept), uuid) != LookAt(Replay(base, log[..received]), uuid);
      var server := Server(base, log);
      AnswerShows(scope, read, server, Truth(server, k), k, begun, received, uuid);
      assert Reflects(Truth(server, k), server, k) && !AnswerShowsAll(scope, read.id, server, Truth(server, k), received, uuid);
    }
  }

  // The same without looking at the first k patches: whatever the answer
  // shows, it converges iff the read's own patches act on the client as all
  // patches since the answer do.
  lemma GapAbsorbedIff(scope: Scope, read: Read, log: seq<Patch>, k: nat, begun: nat, received: nat, uuid: string)
    requires scope.active && scope.pending == Some(read) && read.prior == []
    requires k <= received && begun <= received <= |log| && read.updates == log[begun..received]
    ensures (forall snapshot: Live ::
               LookAt(Complete(scope, read.id, snapshot).current.value, uuid) == LookAt(Replay(snapshot, log[k..received]), uuid))
            <==> ActAlike(EffectOf(log[begun..received], uuid), EffectOf(log[k..received], uuid), uuid)
  {
    hide LookAt, ActAlike, EffectOf, Replay;
    ReplaysAlikeIff(log[begun..received], log[k..received], uuid);
    forall snapshot: Live
      ensures Complete(scope, read.id, snapshot).current == Some(Replay(snapshot, log[begun..received]))
    {
      NothingNewer(snapshot.timestamp);
      NothingReplayed(snapshot);
    }
  }

  // In every run the current read of a scope that had a snapshot at hand is
  // of this form, so the condition decides for every such read and answer.
  lemma OlderAnswerConvergesIff(server: Server, steps: seq<Step>, id: nat, k: nat, uuid: string)
    requires Ordered(server.log) && Legal(server, START, steps)
    requires var w := After(server, START, steps);
             w.informed && IsCurrent(w.scope, id) && k <= w.received
    ensures var w := After(server, START, steps);
            && w.begun <= w.received <= |server.log|
            && ((forall base: Live, snapshot: Live :: Reflects(snapshot, Server(base, server.log), k) ==>
                   AnswerShowsAll(w.scope, id, Server(base, server.log), snapshot, w.received, uuid))
                <==> ActAlike(EffectOf(server.log[..k] + server.log[w.begun..w.received], uuid),
                              EffectOf(server.log[..w.received], uuid), uuid))
  {
    hide ActAlike, EffectOf, Reflects, AnswerShowsAll, ShownOk;
    assert server.log[..0] == [];
    RunKeeps(server, START, steps);
    var w := After(server, START, steps);
    AnswerConvergesIff(w.scope, w.scope.pending.value, server.log, k, w.begun, w.received, uuid);
  }

  // An answer no older than its read always meets the condition.
  lemma NoOlderIsEnough(log: seq<Patch>, k: nat, begun: nat, received: nat, uuid: string)
    requires begun <= k <= received <= |log|
    ensures ActAlike(EffectOf(log[..k] + log[begun..received], uuid), EffectOf(log[..received], uuid), uuid)
  {
    hide ActAlike, EffectOf, LookAt, ReplayLook, Replay;
    var all, kept := log[..received], log[..k] + log[begun..received];
    assert all[..k] == log[..k] && all[begun..] == log[begun..received];
    forall value: Live
      ensures LookAt(Replay(value, kept), uuid) == LookAt(Replay(value, all), uuid)
    {
      ReplayLooks(value, kept, uuid);
      ReplayLooks(value, all, uuid);
      ReplayLookAppend(LookAt(value, uuid), all[..k], all[begun..], uuid);
      OverlapAbsorbed(LookAt(value, uuid), all, begun, k, uuid);
    }
    ReplaysAlikeIff(kept, all, uuid);
  }

  // ------------------------------------------------------- a failing instance

  const WITH_A := Live(["a"], [Client("a", "A", map[], None, map[], 0)], map["a" := EMPTY], map[], 1, 0)

  // A removal that arrived before the read began is not replayed on an answer
  // that lacks it: the removed client is shown again.
  lemma OlderAnswerRollsBack()
    ensures var removal := Remove("a", 1, false, None);
            var shown := BeginRead(Receive(TakeSnapshot(MOUNTED, WITH_A), removal));
            && !LookAt(shown.current.value, "a").online
            && LookAt(Complete(shown, 0, WITH_A).current.value, "a").online
            && LookAt(Replay(WITH_A, [removal]), "a") == ABSENT
            && !ActAlike(EffectOf([removal][..0] + [removal][1..1], "a"), EffectOf([removal][..1], "a"), "a")
  {
    var removal := Remove("a", 1, false, None);
    assert [removal][..0] == [] && [removal][1..1] == [] && [removal][..1] == [removal];
    NothingReplayed(WITH_A);
    ApplyLooks(WITH_A, removal, "a");
    assert EffectOf([], "a") == Same && EffectOf([removal], "a") == Gone;
  }
}
