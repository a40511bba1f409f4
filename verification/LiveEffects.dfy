// What a list of patches does to one client, independently of where it
// starts: the algebra behind replaying overlapping patches.
module LiveEffects {
  import opened LiveRecords

  // What a snapshot says about one client.
  datatype Look = Look(online: bool, record: Option<Record>, client: Option<Client>)

  function LookAt(value: Live, uuid: string): Look {
    Look(uuid in value.online, Lookup(value.data, uuid), Find(value.clients, uuid))
  }

  function StepLook(look: Look, m: Patch, uuid: string): Look {
    if m.client != uuid then look
    else if m.Remove? then Look(false, None, None)
    else
      var next := MergeRecord(if look.record.Some? then look.record.value else EMPTY, m.data, m.timestamp);
      Look(true, Some(next), Some(MergeClient(look.client, uuid, m.name, next, m.timestamp)))
  }

  function ReplayLook(look: Look, patches: seq<Patch>, uuid: string): Look {
    if patches == [] then look
    else StepLook(ReplayLook(look, patches[..|patches| - 1], uuid), patches[|patches| - 1], uuid)
  }

  // ------------------------------------------------ snapshots, seen by client

  lemma {:induction false} FindAppend(clients: seq<Client>, c: Client, uuid: string)
    ensures Find(clients + [c], uuid) ==
            if Find(clients, uuid).Some? then Find(clients, uuid) else if c.uuid == uuid then Some(c) else None
  {
    if clients == [] {
      assert clients + [c] == [c] && [c][1..] == [];
    } else {
      assert (clients + [c])[1..] == clients[1..] + [c];
      FindAppend(clients[1..], c, uuid);
    }
  }

  lemma FindPrepend(c: Client, clients: seq<Client>, uuid: string)
    ensures Find([c] + clients, uuid) == if c.uuid == uuid then Some(c) else Find(clients, uuid)
  {
    assert ([c] + clients)[1..] == clients;
  }

  lemma {:induction false} FindWithout(clients: seq<Client>, removed: string, uuid: string)
    ensures Find(WithoutClient(clients, removed), uuid) == if uuid == removed then None else Find(clients, uuid)
  {
    if clients != [] {
      var rest := WithoutClient(clients[1..], removed);
      FindWithout(clients[1..], removed, uuid);
      if clients[0].uuid == removed {
        assert WithoutClient(clients, removed) == rest;
      } else {
        assert WithoutClient(clients, removed) == [clients[0]] + rest;
        FindPrepend(clients[0], rest, uuid);
      }
    }
  }

  lemma ApplyLooks(value: Live, m: Patch, uuid: string)
    ensures Apply(Some(value), m).Some?
    ensures LookAt(Apply(Some(value), m).value, uuid) == StepLook(LookAt(value, uuid), m, uuid)
  {
    hide Find, WithoutClient, MergeRecord, ChosenName, NextLast, NormalizeLast;
    FindWithout(value.clients, m.client, uuid);
    if m.Update? {
      var next := MergeRecord(if m.client in value.data then value.data[m.client] else EMPTY, m.data, m.timestamp);
      var client := MergeClient(Find(value.clients, m.client), m.client, m.name, next, m.timestamp);
      FindAppend(WithoutClient(value.clients, m.client), client, uuid);
    }
  }

  lemma {:induction false} ReplayLooks(value: Live, patches: seq<Patch>, uuid: string)
    ensures LookAt(Replay(value, patches), uuid) == ReplayLook(LookAt(value, uuid), patches, uuid)
  {
    if patches != [] {
      var front := patches[..|patches| - 1];
      ReplayLooks(value, front, uuid);
      ApplyLooks(Replay(value, front), patches[|patches| - 1], uuid);
    }
  }

  lemma {:induction false} ReplayLookAppend(look: Look, a: seq<Patch>, b: seq<Patch>, uuid: string)
    ensures ReplayLook(look, a + b, uuid) == ReplayLook(ReplayLook(look, a, uuid), b, uuid)
    decreases |b|
  {
    if b == [] {
      assert a + b == a;
    } else {
      assert (a + b)[..|a + b| - 1] == a + b[..|b| - 1];
      ReplayLookAppend(look, a, b[..|b| - 1], uuid);
    }
  }

  // ------------------------------------------------------------------ effects

  // The part of a record that updates overwrite. An error mapped to None is
  // cleared; fields that no update mentions stay as they are.
  datatype Overwrite = Overwrite(fields: map<string, Value>, capacity: Option<Option<Positive>>,
                                 errors: map<Metric, Option<Reason>>, time: int)

  function Over(o: Overwrite, base: Record): Record {
    Record(base.fields + o.fields,
           if o.capacity.Some? then o.capacity.value else base.capacity,
           OverErrors(o.errors, base.errors),
           Some(o.time))
  }

  function OverErrors(o: map<Metric, Option<Reason>>, base: map<Metric, Reason>): map<Metric, Reason> {
    map m | m in base.Keys + o.Keys && (m in o ==> o[m].Some?) :: if m in o then o[m].value else base[m]
  }

  function OverwriteOf(data: Payload, timestamp: int): Overwrite {
    Overwrite(data.fields,
              if "cpu" in data.fields || data.capacity.Given? then Some(Selected(data.capacity)) else None,
              map m | m in {Cpu, Ram, Swap, Network} && (Reports(data, m) || m in data.errors) ::
                if m in data.errors then Some(data.errors[m]) else None,
              timestamp)
  }

  lemma MergeIsOver(base: Record, data: Payload, timestamp: int)
    ensures MergeRecord(base, data, timestamp) == Over(OverwriteOf(data, timestamp), base)
  {
    var o := OverwriteOf(data, timestamp);
    forall m: Metric
      ensures m in MergedErrors(base.errors, data) <==> m in OverErrors(o.errors, base.errors)
      ensures m in MergedErrors(base.errors, data) ==> MergedErrors(base.errors, data)[m] == OverErrors(o.errors, base.errors)[m]
    {
      assert m in {Cpu, Ram, Swap, Network} by {
        match m case Cpu => case Ram => case Swap => case Network =>
      }
    }
    assert MergedErrors(base.errors, data) == OverErrors(o.errors, base.errors);
  }

  function Compose(first: Overwrite, second: Overwrite): Overwrite {
    Overwrite(first.fields + second.fields,
              if second.capacity.Some? then second.capacity else first.capacity,
              first.errors + second.errors,
              second.time)
  }

  lemma OverCompose(first: Overwrite, second: Overwrite, base: Record)
    ensures Over(Compose(first, second), base) == Over(second, Over(first, base))
  {
    assert base.fields + (first.fields + second.fields) == base.fields + first.fields + second.fields;
    assert OverErrors(first.errors + second.errors, base.errors) == OverErrors(second.errors, OverErrors(first.errors, base.errors));
  }

  lemma OverTwice(o: Overwrite, base: Record)
    ensures Over(o, Over(o, base)) == Over(o, base)
  {
    assert base.fields + o.fields + o.fields == base.fields + o.fields;
    assert OverErrors(o.errors, OverErrors(o.errors, base.errors)) == OverErrors(o.errors, base.errors);
  }

  // The effect of a list of patches on one client: none, a change, a removal,
  // or a removal followed by updates.
  datatype Effect = Same | Change(o: Overwrite, name: string) | Gone | Renew(o: Overwrite, name: string)

  const ABSENT := Look(false, None, None)

  function Changed(look: Look, o: Overwrite, name: string, uuid: string): Look {
    var next := Over(o, if look.record.Some? then look.record.value else EMPTY);
    Look(true, Some(next), Some(MergeClient(look.client, uuid, name, next, o.time)))
  }

  function Take(look: Look, e: Effect, uuid: string): Look {
    match e
    case Same => look
    case Change(o, name) => Changed(look, o, name, uuid)
    case Gone => ABSENT
    case Renew(o, name) => Changed(ABSENT, o, name, uuid)
  }

  function AndThen(e: Effect, m: Patch, uuid: string): Effect {
    if m.client != uuid then e
    else if m.Remove? then Gone
    else
      var o := OverwriteOf(m.data, m.timestamp);
      match e
      case Same => Change(o, m.name)
      case Change(before, name) => Change(Compose(before, o), if m.name != "" then m.name else name)
      case Gone => Renew(o, m.name)
      case Renew(before, name) => Renew(Compose(before, o), if m.name != "" then m.name else name)
  }

  function EffectOf(patches: seq<Patch>, uuid: string): Effect {
    if patches == [] then Same else AndThen(EffectOf(patches[..|patches| - 1], uuid), patches[|patches| - 1], uuid)
  }

  lemma ChangedTwice(look: Look, first: Overwrite, a: string, second: Overwrite, b: string, uuid: string)
    ensures Changed(Changed(look, first, a, uuid), second, b, uuid)
            == Changed(look, Compose(first, second), if b != "" then b else a, uuid)
  {
    hide OverErrors;
    var base := if look.record.Some? then look.record.value else EMPTY;
    OverCompose(first, second, base);
    var fields := if look.client.Some? then look.client.value.fields else map[];
    assert fields + Over(first, base).fields + Over(second, Over(first, base)).fields
           == fields + Over(Compose(first, second), base).fields;
  }

  lemma StepIsEffect(look: Look, e: Effect, m: Patch, uuid: string)
    ensures StepLook(Take(look, e, uuid), m, uuid) == Take(look, AndThen(e, m, uuid), uuid)
  {
    if m.client == uuid && m.Update? {
      var before := Take(look, e, uuid);
      MergeIsOver(if before.record.Some? then before.record.value else EMPTY, m.data, m.timestamp);
      var o := OverwriteOf(m.data, m.timestamp);
      if e.Change? {
        ChangedTwice(look, e.o, e.name, o, m.name, uuid);
      } else if e.Renew? {
        ChangedTwice(ABSENT, e.o, e.name, o, m.name, uuid);
      }
    }
  }

  // A list of patches acts on a client as one effect.
  lemma {:induction false} ReplayIsEffect(look: Look, patches: seq<Patch>, uuid: string)
    ensures ReplayLook(look, patches, uuid) == Take(look, EffectOf(patches, uuid), uuid)
  {
    if patches != [] {
      var front := patches[..|patches| - 1];
      ReplayIsEffect(look, front, uuid);
      StepIsEffect(look, EffectOf(front, uuid), patches[|patches| - 1], uuid);
    }
  }

  lemma ChangedSame(look: Look, o: Overwrite, name: string, uuid: string)
    ensures Changed(Changed(look, o, name, uuid), o, name, uuid) == Changed(look, o, name, uuid)
  {
    var base := if look.record.Some? then look.record.value else EMPTY;
    OverTwice(o, base);
    var fields := if look.client.Some? then look.client.value.fields else map[];
    assert fields + Over(o, base).fields + Over(o, base).fields == fields + Over(o, base).fields;
  }

  // Replaying patches that were already applied changes nothing.
  lemma ReplayTwice(look: Look, patches: seq<Patch>, uuid: string)
    ensures ReplayLook(ReplayLook(look, patches, uuid), patches, uuid) == ReplayLook(look, patches, uuid)
  {
    var e := EffectOf(patches, uuid);
    ReplayIsEffect(look, patches, uuid);
    ReplayIsEffect(Take(look, e, uuid), patches, uuid);
    match e
    case Change(o, name) => ChangedSame(look, o, name, uuid);
    case Renew(o, name) => ChangedSame(ABSENT, o, name, uuid);
    case _ =>
  }

  // Absorption: after a log with prefix of length k, replaying everything from
  // position j <= k on gives the log's own result.
  lemma OverlapAbsorbed(look: Look, log: seq<Patch>, j: nat, k: nat, uuid: string)
    requires j <= k <= |log|
    ensures ReplayLook(ReplayLook(look, log[..k], uuid), log[j..], uuid) == ReplayLook(look, log, uuid)
  {
    var start := ReplayLook(look, log[..j], uuid);
    assert log[..k] == log[..j] + log[j..k] && log[j..] == log[j..k] + log[k..] && log == log[..k] + log[k..];
    ReplayLookAppend(look, log[..j], log[j..k], uuid);
    ReplayLookAppend(ReplayLook(start, log[j..k], uuid), log[j..k], log[k..], uuid);
    ReplayTwice(start, log[j..k], uuid);
    ReplayLookAppend(look, log[..k], log[k..], uuid);
  }
}
