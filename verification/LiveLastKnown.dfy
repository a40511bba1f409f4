// What a list of patches does to one client's last-known record, and exactly
// when replaying the list leaves that record as it is.
module LiveLastKnown {
  import opened LiveRecords
  import opened LiveEffects

  // ------------------------------------------------------------- one patch

  // The later of two records; on a tie the one that the removal brings.
  function Later(previous: Option<LastKnown>, explicit: Option<LastKnown>): Option<LastKnown> {
    if explicit.Some? && (previous.None? || explicit.value.time >= previous.value.time) then explicit else previous
  }

  lemma LaterAssociates(a: Option<LastKnown>, b: Option<LastKnown>, c: Option<LastKnown>)
    ensures Later(Later(a, b), c) == Later(a, Later(b, c))
  {
  }

  function Brought(m: Patch): Option<LastKnown>
    requires m.Remove?
  {
    if m.explicit.Some? then NormalizeLast(m.explicit.value, m.client) else None
  }

  function OwnOf(look: Look, uuid: string): Option<LastKnown> {
    OwnLast(look.client, look.record, uuid)
  }

  function OwnOr(look: Look, last: Option<LastKnown>, uuid: string): Option<LastKnown> {
    if OwnOf(look, uuid).Some? then OwnOf(look, uuid) else last
  }

  function StepLast(look: Look, last: Option<LastKnown>, m: Patch, uuid: string): Option<LastKnown> {
    if m.client != uuid then last
    else if m.Update? || !m.offline then None
    else Later(OwnOr(look, last, uuid), Brought(m))
  }

  lemma ApplyLasts(value: Live, m: Patch, uuid: string)
    ensures Apply(Some(value), m).Some?
    ensures Lookup(Apply(Some(value), m).value.lastKnown, uuid)
            == StepLast(LookAt(value, uuid), Lookup(value.lastKnown, uuid), m, uuid)
  {
    hide Find, WithoutClient, MergeRecord, MergeClient, OwnLast, NormalizeLast;
  }

  // ---------------------------------------------------------------- effects

  // What a list of patches does to a client's last-known record: nothing; keep
  // the start's own or previous record unless a later one was brought; keep
  // what the updates made of the start unless a later one was brought; or a
  // record that no longer depends on the start.
  datatype LastEffect =
    | Untouched
    | Kept(brought: Option<LastKnown>)
    | Derived(o: Overwrite, name: string, brought: Option<LastKnown>)
    | Fixed(last: Option<LastKnown>)

  function TakeLast(look: Look, last: Option<LastKnown>, l: LastEffect, uuid: string): Option<LastKnown> {
    match l
    case Untouched => last
    case Kept(brought) => Later(OwnOr(look, last, uuid), brought)
    case Derived(o, name, brought) => Later(OwnOf(Changed(look, o, name, uuid), uuid), brought)
    case Fixed(fixed) => fixed
  }

  // The effect of one more patch, after patches with these effects.
  function LastThen(e: Effect, l: LastEffect, m: Patch, uuid: string): LastEffect {
    if m.client != uuid then l
    else if m.Update? || !m.offline then Fixed(None)
    else
      match e
      case Same => Kept(Brought(m))
      case Change(o, name) => Derived(o, name, Brought(m))
      case Renew(o, name) => Fixed(Later(OwnOf(Changed(ABSENT, o, name, uuid), uuid), Brought(m)))
      case Gone =>
        match l
        case Untouched => Kept(Brought(m))
        case Kept(brought) => Kept(Later(brought, Brought(m)))
        case Derived(o, name, brought) => Derived(o, name, Later(brought, Brought(m)))
        case Fixed(fixed) => Fixed(Later(fixed, Brought(m)))
  }

  function LastOf(patches: seq<Patch>, uuid: string): LastEffect {
    if patches == [] then Untouched
    else
      var front := patches[..|patches| - 1];
      LastThen(EffectOf(front, uuid), LastOf(front, uuid), patches[|patches| - 1], uuid)
  }

  // How the two effects of one list go together.
  predicate Fit(e: Effect, l: LastEffect) {
    match e
    case Same => l == Untouched
    case Gone => !l.Untouched?
    case _ => l == Fixed(None)
  }

  lemma {:induction false} EffectsFit(patches: seq<Patch>, uuid: string)
    ensures Fit(EffectOf(patches, uuid), LastOf(patches, uuid))
  {
    if patches != [] {
      EffectsFit(patches[..|patches| - 1], uuid);
    }
  }

  lemma StepIsLastEffect(look: Look, last: Option<LastKnown>, e: Effect, l: LastEffect, m: Patch, uuid: string)
    requires Fit(e, l)
    ensures StepLast(Take(look, e, uuid), TakeLast(look, last, l, uuid), m, uuid)
            == TakeLast(look, last, LastThen(e, l, m, uuid), uuid)
  {
    hide Changed, NormalizeLast, Later;
    if m.client == uuid && m.Remove? && m.offline && e.Gone? {
      match l
      case Kept(brought) => LaterAssociates(OwnOr(look, last, uuid), brought, Brought(m));
      case Derived(o, name, brought) => LaterAssociates(OwnOf(Changed(look, o, name, uuid), uuid), brought, Brought(m));
      case _ =>
    }
  }

  // A list of patches acts on a client's last-known record as one effect.
  lemma {:induction false} ReplayIsLastEffect(value: Live, patches: seq<Patch>, uuid: string)
    ensures Lookup(Replay(value, patches).lastKnown, uuid)
            == TakeLast(LookAt(value, uuid), Lookup(value.lastKnown, uuid), LastOf(patches, uuid), uuid)
  {
    hide LookAt, StepLast, LastThen, Take;
    if patches != [] {
      var front, last := patches[..|patches| - 1], patches[|patches| - 1];
      ReplayIsLastEffect(value, front, uuid);
      ReplayLooks(value, front, uuid);
      ReplayIsEffect(LookAt(value, uuid), front, uuid);
      EffectsFit(front, uuid);
      ApplyLasts(Replay(value, front), last, uuid);
      StepIsLastEffect(LookAt(value, uuid), Lookup(value.lastKnown, uuid), EffectOf(front, uuid), LastOf(front, uuid), last, uuid);
    }
  }

  // ------------------------------------------------- updates that say everything

  const PLAIN_FIELDS := NULLABLE_METRICS - {"disk"} + OTHER_METRICS + {"message", "sort_order"}
  const DISK_FIELDS := {"disk", "disk_source", "disk_sampled_at"}
  const METRICS := {Cpu, Ram, Swap, Network}

  predicate PossibleDisk(fields: map<string, Value>) {
    && ("disk_source" in fields ==> fields["disk_source"] == Text("directory"))
    && ("disk" in fields ==> fields["disk"].Num? && 0.0 <= fields["disk"].x <= MAX_DISK)
    && ("disk_sampled_at" in fields ==>
          && fields["disk_sampled_at"].Num? && 0.0 < fields["disk_sampled_at"].x <= MAX_SAMPLED_AT
          && fields["disk_sampled_at"].x.Floor as real == fields["disk_sampled_at"].x)
  }

  // The remembered disk fields are settled by these fields: all three are
  // there, or what is there rules out a valid directory measurement.
  predicate SettlesDisk(fields: map<string, Value>) {
    || DISK_FIELDS <= fields.Keys
    || (if DiskAttempted(fields) then !PossibleDisk(fields) else "disk" in fields && fields["disk"] == Null)
  }

  predicate SettlesFields(fields: map<string, Value>) {
    PLAIN_FIELDS <= fields.Keys && SettlesDisk(fields)
  }

  // Updates after which nothing of the start is left in the client's record.
  predicate Settles(o: Overwrite, name: string) {
    name != "" && SettlesFields(o.fields) && o.capacity.Some? && METRICS <= o.errors.Keys
  }

  lemma SettledDisk(base: map<string, Value>, fields: map<string, Value>, key: string)
    requires SettlesDisk(fields) && key in DISK_FIELDS
    ensures Lookup(LastFields(base + fields), key) == Lookup(LastFields(fields), key)
  {
    var all := base + fields;
    if DISK_FIELDS <= fields.Keys {
      assert DiskValid(all) == DiskValid(fields) && DiskAttempted(all) && DiskAttempted(fields);
    } else {
      assert !DiskValid(fields);
      assert !DiskValid(all) by {
        if DiskValid(all) {
          assert PossibleDisk(fields);
        }
      }
    }
  }

  lemma SettledFields(base: map<string, Value>, fields: map<string, Value>)
    requires SettlesFields(fields)
    ensures LastFields(base + fields) == LastFields(fields)
  {
    forall key
      ensures Lookup(LastFields(base + fields), key) == Lookup(LastFields(fields), key)
    {
      if key in DISK_FIELDS {
        SettledDisk(base, fields, key);
      } else if key in PLAIN_FIELDS {
        assert key in fields;
      }
    }
    SameLookups(LastFields(base + fields), LastFields(fields));
  }

  lemma SameLookups(a: map<string, Value>, b: map<string, Value>)
    requires forall key :: Lookup(a, key) == Lookup(b, key)
    ensures a == b
  {
    forall key
      ensures key in a <==> key in b
      ensures key in a ==> a[key] == b[key]
    {
      assert Lookup(a, key) == Lookup(b, key);
    }
  }

  lemma UnsettledDisk(fields: map<string, Value>) returns (base: map<string, Value>)
    requires !SettlesDisk(fields)
    ensures LastFields(base + fields) != LastFields(fields)
  {
    if DiskAttempted(fields) {
      base := map["disk" := Num(0.0), "disk_source" := Text("directory"), "disk_sampled_at" := Num(1.0)];
      assert DiskValid(base + fields) && !DiskValid(fields);
      assert "disk_source" in LastFields(base + fields) && "disk_source" !in LastFields(fields);
    } else if "disk" in fields {
      base := map["disk_source" := Null];
      assert Lookup(LastFields(base + fields), "disk") == Some(Null);
      assert Lookup(LastFields(fields), "disk") != Some(Null);
    } else {
      base := map["disk" := Null];
      assert "disk" in LastFields(base + fields) && "disk" !in LastFields(fields);
    }
  }

  lemma UnsettledFields(fields: map<string, Value>) returns (base: map<string, Value>)
    requires !SettlesFields(fields)
    ensures LastFields(base + fields) != LastFields(fields)
  {
    if PLAIN_FIELDS <= fields.Keys {
      base := UnsettledDisk(fields);
    } else {
      var key :| key in PLAIN_FIELDS && key !in fields;
      base := map[key := if key in NULLABLE_METRICS then Null else if key == "message" then Text("") else Num(0.0)];
      assert (base + fields)[key] == base[key] && KeepsField(key, base[key]);
      assert key in LastFields(base + fields) && key !in LastFields(fields);
    }
  }

  // ------------------------------------------------------ the remembered record

  function FieldsBefore(look: Look): map<string, Value> {
    (if look.client.Some? then look.client.value.fields else map[]) + (if look.record.Some? then look.record.value.fields else map[])
  }

  function RecordBefore(look: Look): Record {
    if look.record.Some? then look.record.value else EMPTY
  }

  predicate Forgettable(o: Overwrite, uuid: string) {
    Blank(uuid) || o.time < 0
  }

  // What an offline removal remembers of a client after updates.
  lemma OwnAfterUpdates(look: Look, o: Overwrite, name: string, uuid: string)
    ensures OwnOf(Changed(look, o, name, uuid), uuid) ==
            if Forgettable(o, uuid) then None
            else Some(LastKnown(ChosenName(name, look.client, uuid), o.time, LastFields(FieldsBefore(look) + o.fields),
                                Over(o, RecordBefore(look)).capacity, Over(o, RecordBefore(look)).errors))
  {
    hide LastFields, OverErrors, Blank;
    var next := Over(o, RecordBefore(look));
    var client := MergeClient(look.client, uuid, name, next, o.time);
    assert client.fields + next.fields == FieldsBefore(look) + o.fields;
  }

  lemma SettledOwn(look: Look, o: Overwrite, name: string, uuid: string)
    requires Settles(o, name)
    ensures OwnOf(Changed(look, o, name, uuid), uuid) == OwnOf(Changed(ABSENT, o, name, uuid), uuid)
  {
    hide LastFields, SettlesFields;
    OwnAfterUpdates(look, o, name, uuid);
    OwnAfterUpdates(ABSENT, o, name, uuid);
    SettledFields(FieldsBefore(look), o.fields);
    SettledFields(FieldsBefore(ABSENT), o.fields);
    forall m: Metric
      ensures m in o.errors
    {
      match m case Cpu => case Ram => case Swap => case Network =>
    }
    assert OverErrors(o.errors, RecordBefore(look).errors) == OverErrors(o.errors, EMPTY.errors);
  }

  // A start at which a client has this record and this name.
  function Starting(record: Record, name: string, uuid: string): Live {
    Live([uuid], [Client(uuid, name, map[], None, map[], 0)], map[uuid := record], map[], 1, 0)
  }

  lemma StartingLooks(record: Record, name: string, uuid: string)
    ensures LookAt(Starting(record, name, uuid), uuid) == Look(true, Some(record), Some(Client(uuid, name, map[], None, map[], 0)))
  {
  }

  // Updates that leave something of the start: two starts are told apart.
  lemma UnsettledOwn(o: Overwrite, name: string, uuid: string) returns (start: Live)
    requires !Settles(o, name) && !Forgettable(o, uuid)
    ensures OwnOf(Changed(LookAt(start, uuid), o, name, uuid), uuid) != OwnOf(Changed(ABSENT, o, name, uuid), uuid)
  {
    hide LastFields, SettlesFields, Blank, Changed, OwnOf;
    var record := EMPTY;
    if !SettlesFields(o.fields) {
      var base := UnsettledFields(o.fields);
      record := EMPTY.(fields := base);
      assert map[] + o.fields == o.fields && map[] + base == base;
    } else if o.capacity.None? {
      record := EMPTY.(capacity := Some(1.0));
    } else if !(METRICS <= o.errors.Keys) {
      var m :| m in METRICS && m !in o.errors;
      record := EMPTY.(errors := map[m := WarmingUp]);
      assert m in OverErrors(o.errors, record.errors) && m !in OverErrors(o.errors, EMPTY.errors);
    }
    var other := uuid + "x";
    assert other != uuid && other != "";
    start := Starting(record, other, uuid);
    StartingLooks(record, other, uuid);
    OwnAfterUpdates(LookAt(start, uuid), o, name, uuid);
    OwnAfterUpdates(ABSENT, o, name, uuid);
    assert map[] + map[] + o.fields == o.fields;
    assert FieldsBefore(LookAt(start, uuid)) == record.fields;
  }

  // --------------------------------------------------- the patches of a client

  function Mine(patches: seq<Patch>, uuid: string): seq<Patch> {
    if patches == [] then []
    else Mine(patches[..|patches| - 1], uuid) + (if patches[|patches| - 1].client == uuid then [patches[|patches| - 1]] else [])
  }

  predicate AllUpdates(patches: seq<Patch>) {
    forall i :: 0 <= i < |patches| ==> patches[i].Update?
  }

  predicate AllOffline(patches: seq<Patch>) {
    forall i :: 0 <= i < |patches| ==> patches[i].Remove? && patches[i].offline
  }

  ghost predicate UpdatesThenOffline(patches: seq<Patch>) {
    exists n :: 0 < n < |patches| && AllUpdates(patches[..n]) && AllOffline(patches[n..])
  }

  lemma OneMore(patches: seq<Patch>, m: Patch)
    ensures AllUpdates(patches + [m]) <==> AllUpdates(patches) && m.Update?
    ensures AllOffline(patches + [m]) <==> AllOffline(patches) && m.Remove? && m.offline
  {
    assert forall i :: 0 <= i < |patches| ==> (patches + [m])[i] == patches[i];
    assert (patches + [m])[|patches|] == m;
  }

  lemma OneMoreOffline(patches: seq<Patch>, m: Patch)
    ensures UpdatesThenOffline(patches + [m]) <==>
            m.Remove? && m.offline && (UpdatesThenOffline(patches) || (patches != [] && AllUpdates(patches)))
  {
    hide AllUpdates, AllOffline;
    var all := patches + [m];
    assert patches[..|patches|] == patches;
    OneMore([], m);
    assert [] + [m] == [m];
    EmptyLists();
    forall n | 0 < n < |all|
      ensures all[..n] == patches[..n]
      ensures AllOffline(all[n..]) <==> AllOffline(patches[n..]) && m.Remove? && m.offline
    {
      assert all[n..] == patches[n..] + [m];
      OneMore(patches[n..], m);
    }
    if patches != [] && AllUpdates(patches) {
      assert all[..|patches|] == patches && patches[|patches|..] == [];
    }
  }

  lemma EmptyLists()
    ensures AllUpdates([]) && AllOffline([]) && !UpdatesThenOffline([])
  {
  }

  // A remembered record depends on the start's own fields exactly when the
  // client's patches are updates followed by offline removals.
  lemma {:induction false} DerivedIff(patches: seq<Patch>, uuid: string)
    ensures EffectOf(patches, uuid).Same? <==> Mine(patches, uuid) == []
    ensures EffectOf(patches, uuid).Change? <==> Mine(patches, uuid) != [] && AllUpdates(Mine(patches, uuid))
    ensures LastOf(patches, uuid).Derived? <==> UpdatesThenOffline(Mine(patches, uuid))
  {
    hide UpdatesThenOffline, AllUpdates;
    EmptyLists();
    if patches != [] {
      var front, m := patches[..|patches| - 1], patches[|patches| - 1];
      DerivedIff(front, uuid);
      EffectsFit(front, uuid);
      OneMore(Mine(front, uuid), m);
      OneMoreOffline(Mine(front, uuid), m);
      assert Mine(patches, uuid) == if m.client == uuid then Mine(front, uuid) + [m] else Mine(front, uuid);
    }
  }

  // -------------------------------------------------------------- main results

  // Replaying the patches on their own result leaves the client's last-known
  // record as it is.
  ghost predicate StaysFrom(value: Live, patches: seq<Patch>, uuid: string) {
    Lookup(Replay(Replay(value, patches), patches).lastKnown, uuid) == Lookup(Replay(value, patches).lastKnown, uuid)
  }

  // The patches alone decide: unless the client's patches are updates followed
  // by offline removals only, nothing is lost. If they are, either a removal
  // brings a record no older than the updates, or the updates leave nothing of
  // the start in the client's record, or there is nothing to remember.
  predicate ReplayStable(patches: seq<Patch>, uuid: string) {
    match LastOf(patches, uuid)
    case Derived(o, name, brought) =>
      Forgettable(o, uuid) || (brought.Some? && brought.value.time >= o.time) || Settles(o, name)
    case _ => true
  }

  lemma StaysMeans(value: Live, patches: seq<Patch>, uuid: string)
    ensures StaysFrom(value, patches, uuid) <==>
            match LastOf(patches, uuid)
            case Derived(o, name, brought) =>
              Later(OwnOf(Changed(LookAt(value, uuid), o, name, uuid), uuid), brought)
              == Later(OwnOf(Changed(ABSENT, o, name, uuid), uuid), brought)
            case _ => true
  {
    hide LookAt, Changed;
    var once, look := Replay(value, patches), LookAt(value, uuid);
    ReplayIsLastEffect(value, patches, uuid);
    ReplayIsLastEffect(once, patches, uuid);
    ReplayLooks(value, patches, uuid);
    ReplayIsEffect(look, patches, uuid);
    EffectsFit(patches, uuid);
  }

  // Exactly when replaying patches leaves a client's last-known record alone,
  // whatever snapshot they started from.
  lemma LastKnownStableIff(patches: seq<Patch>, uuid: string)
    ensures (forall value :: StaysFrom(value, patches, uuid)) <==> ReplayStable(patches, uuid)
  {
    hide StaysFrom, Changed, Settles, Forgettable, LookAt, OwnOf;
    if ReplayStable(patches, uuid) {
      forall value
        ensures StaysFrom(value, patches, uuid)
      {
        StableStays(value, patches, uuid);
      }
    } else {
      var Derived(o, name, brought) := LastOf(patches, uuid);
      var start := UnsettledOwn(o, name, uuid);
      StaysMeans(start, patches, uuid);
      OwnTimes(LookAt(start, uuid), o, name, uuid);
      OwnTimes(ABSENT, o, name, uuid);
    }
  }

  lemma OwnTimes(look: Look, o: Overwrite, name: string, uuid: string)
    ensures var own := OwnOf(Changed(look, o, name, uuid), uuid);
            (own.None? <==> Forgettable(o, uuid)) && (own.Some? ==> own.value.time == o.time)
  {
    OwnAfterUpdates(look, o, name, uuid);
  }

  lemma StableStays(value: Live, patches: seq<Patch>, uuid: string)
    requires ReplayStable(patches, uuid)
    ensures StaysFrom(value, patches, uuid)
  {
    hide StaysFrom, Changed, LookAt, OwnOf, Forgettable, Settles;
    StaysMeans(value, patches, uuid);
    if LastOf(patches, uuid).Derived? {
      var Derived(o, name, brought) := LastOf(patches, uuid);
      OwnTimes(LookAt(value, uuid), o, name, uuid);
      OwnTimes(ABSENT, o, name, uuid);
      if Settles(o, name) {
        SettledOwn(LookAt(value, uuid), o, name, uuid);
      }
    }
  }

  // ------------------------------------------------- overlaps of a longer log

  lemma {:induction false} ReplayAppend(value: Live, a: seq<Patch>, b: seq<Patch>)
    ensures Replay(value, a + b) == Replay(Replay(value, a), b)
    decreases |b|
  {
    if b == [] {
      assert a + b == a;
    } else {
      assert (a + b)[..|a + b| - 1] == a + b[..|b| - 1];
      ReplayAppend(value, a, b[..|b| - 1]);
    }
  }

  // Absorption for last-known records: replaying an overlapping end of the log
  // gives the log's own record wherever the overlap itself is stable.
  lemma LastKnownAbsorbed(value: Live, log: seq<Patch>, j: nat, k: nat, uuid: string)
    requires j <= k <= |log| && ReplayStable(log[j..k], uuid)
    ensures Lookup(Replay(Replay(value, log[..k]), log[j..]).lastKnown, uuid) == Lookup(Replay(value, log).lastKnown, uuid)
  {
    hide ReplayStable, LookAt, LastOf, EffectOf, Replay;
    var overlap, rest := log[j..k], log[k..];
    assert log[..k] == log[..j] + overlap && log[j..] == overlap + rest && log == log[..k] + rest;
    var start := Replay(value, log[..j]);
    var once := Replay(start, overlap);
    var twice := Replay(once, overlap);
    ReplayAppend(value, log[..j], overlap);
    ReplayAppend(once, overlap, rest);
    ReplayAppend(value, log[..k], rest);
    StableStays(start, overlap, uuid);
    ReplayLooks(start, overlap, uuid);
    ReplayLooks(once, overlap, uuid);
    ReplayTwice(LookAt(start, uuid), overlap, uuid);
    ReplayIsLastEffect(once, rest, uuid);
    ReplayIsLastEffect(twice, rest, uuid);
  }

  // ----------------------------------------------------- an unstable instance

  const CPU_ONLY := Payload(map["cpu" := Num(10.0)], Absent, map[])
  const WITH_A := Live(["a"], [Client("a", "A", map["ram" := Num(99.0)], None, map[], 0)],
                       map["a" := Record(map["ram" := Num(99.0)], None, map[], Some(0))], map[], 1, 0)

  // A partial update and an offline removal that brings no record: the removal
  // remembers what the client showed, and when the patches are replayed after
  // it that is less than before.
  lemma LastKnownIsNotStable()
    ensures var patches := [Update("a", "", CPU_ONLY, 1), Remove("a", 2, true, None)];
            && !ReplayStable(patches, "a") && !StaysFrom(WITH_A, patches, "a")
  {
    hide OwnOf, Changed, StaysFrom, Over, LastFields, Reports;
    var update, removal := Update("a", "", CPU_ONLY, 1), Remove("a", 2, true, None);
    var patches, o := [update, removal], OverwriteOf(CPU_ONLY, 1);
    assert patches[..1] == [update] && [update][..0] == [];
    assert EffectOf([], "a") == Same && EffectOf([update], "a") == Change(o, "");
    assert LastOf(patches, "a") == Derived(o, "", None);
    assert "a"[0] == 'a';
    StaysMeans(WITH_A, patches, "a");
    OwnAfterUpdates(LookAt(WITH_A, "a"), o, "", "a");
    OwnAfterUpdates(ABSENT, o, "", "a");
    assert LookAt(WITH_A, "a").client == Some(WITH_A.clients[0]);
    assert "A"[0] == 'A';
  }
}
