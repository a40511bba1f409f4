// Live records of monitored clients: merging a partial update into a record,
// and the snapshot value with its two patches.
module LiveRecords {

  datatype Option<T> = None | Some(value: T)

  datatype Value = Null | Num(x: real) | Text(s: string)

  datatype Metric = Cpu | Ram | Swap | Network

  datatype Reason = CollectionFailed | ScopeUnavailable | WarmingUp

  type Positive = x: real | x > 0.0 witness 1.0

  // ---------------------------------------------------------------- records

  // A record as shown: its plain fields, and the availability fields, which
  // are only ever present with valid values.
  datatype Record = Record(fields: map<string, Value>, capacity: Option<Positive>, errors: map<Metric, Reason>, time: Option<int>)

  const EMPTY := Record(map[], None, map[], None)

  // The data of an update. A capacity may be present and still not valid.
  datatype Capacity = Absent | Given(x: real)

  datatype Payload = Payload(fields: map<string, Value>, capacity: Capacity, errors: map<Metric, Reason>)

  function Selected(capacity: Capacity): Option<Positive> {
    if capacity.Given? && capacity.x > 0.0 then Some(capacity.x) else None
  }

  function FieldsOf(metric: Metric): set<string> {
    match metric
    case Cpu => {"cpu"}
    case Ram => {"ram", "ram_total"}
    case Swap => {"swap", "swap_total"}
    case Network => {"net_in", "net_out", "net_total_up", "net_total_down"}
  }

  predicate Reports(data: Payload, metric: Metric) {
    exists field :: field in FieldsOf(metric) && field in data.fields
  }

  // A reported metric without an error clears the error it had.
  function MergedErrors(base: map<Metric, Reason>, data: Payload): map<Metric, Reason> {
    map m | m in base.Keys + data.errors.Keys && (Reports(data, m) ==> m in data.errors) ::
      if m in data.errors then data.errors[m] else base[m]
  }

  function MergeRecord(base: Record, data: Payload, timestamp: int): Record {
    Record(base.fields + data.fields,
           if "cpu" in data.fields || data.capacity.Given? then Selected(data.capacity) else base.capacity,
           MergedErrors(base.errors, data),
           Some(timestamp))
  }

  // ---------------------------------------------------------- last-known records

  datatype LastKnown = LastKnown(name: string, time: int, fields: map<string, Value>, capacity: Option<Positive>, errors: map<Metric, Reason>)

  // What is offered as a last-known record; any part may be missing.
  datatype Candidate = Candidate(uuid: string, name: Option<string>, time: Option<int>,
                                 fields: map<string, Value>, capacity: Option<Positive>, errors: map<Metric, Reason>)

  const NULLABLE_METRICS := {"cpu", "ram", "ram_total", "swap", "swap_total", "net_in", "net_out", "net_total_up",
                             "net_total_down", "disk", "disk_total", "load", "temp", "uptime"}
  const OTHER_METRICS := {"gpu", "process_count", "connections", "connections_udp"}
  const MAX_DISK := 1_000_000_000_000_000.0
  const MAX_SAMPLED_AT := 8_640_000_000_000_000.0

  predicate KeepsField(key: string, value: Value) {
    || (key in NULLABLE_METRICS && !value.Text?)
    || (key in OTHER_METRICS && value.Num?)
    || (key == "message" && value.Text?)
    || (key == "sort_order" && value.Num?)
  }

  predicate DiskAttempted(fields: map<string, Value>) {
    "disk_source" in fields || "disk_sampled_at" in fields
  }

  predicate DiskValid(fields: map<string, Value>) {
    && "disk_source" in fields && fields["disk_source"] == Text("directory")
    && "disk" in fields && fields["disk"].Num? && 0.0 <= fields["disk"].x <= MAX_DISK
    && "disk_sampled_at" in fields && fields["disk_sampled_at"].Num?
    && 0.0 < fields["disk_sampled_at"].x <= MAX_SAMPLED_AT
    && fields["disk_sampled_at"].x.Floor as real == fields["disk_sampled_at"].x
  }

  function LastFields(fields: map<string, Value>): map<string, Value> {
    var kept := map key | key in fields && KeepsField(key, fields[key]) :: fields[key];
    if DiskValid(fields) then
      kept["disk_source" := fields["disk_source"]]["disk_sampled_at" := fields["disk_sampled_at"]]
    else if DiskAttempted(fields) then kept["disk" := Null]
    else kept
  }

  predicate Blank(text: string) {
    forall i :: 0 <= i < |text| ==> text[i] in {' ', '\t', '\n', '\r'}
  }

  function NormalizeLast(c: Candidate, uuid: string): Option<LastKnown> {
    if c.uuid != uuid || Blank(uuid) || c.name.None? || c.time.None? || c.time.value < 0 then None
    else Some(LastKnown(c.name.value, c.time.value, LastFields(c.fields), c.capacity, c.errors))
  }

  // ---------------------------------------------------------------- snapshots

  datatype Client = Client(uuid: string, name: string, fields: map<string, Value>, capacity: Option<Positive>,
                           errors: map<Metric, Reason>, time: int)

  datatype Live = Live(online: seq<string>, clients: seq<Client>, data: map<string, Record>,
                       lastKnown: map<string, LastKnown>, count: int, timestamp: int)

  const NOTHING := Live([], [], map[], map[], 0, 0)

  datatype Patch =
    | Update(client: string, name: string, data: Payload, timestamp: int)
    | Remove(client: string, timestamp: int, offline: bool, explicit: Option<Candidate>)

  function Find(clients: seq<Client>, uuid: string): (found: Option<Client>)
    ensures found.Some? ==> found.value in clients && found.value.uuid == uuid
    ensures found.None? ==> forall c :: c in clients ==> c.uuid != uuid
  {
    if clients == [] then None else if clients[0].uuid == uuid then Some(clients[0]) else Find(clients[1..], uuid)
  }

  function WithoutClient(clients: seq<Client>, uuid: string): (rest: seq<Client>)
    ensures forall c :: c in rest <==> c in clients && c.uuid != uuid
  {
    if clients == [] then []
    else (if clients[0].uuid != uuid then [clients[0]] else []) + WithoutClient(clients[1..], uuid)
  }

  function WithoutName(online: seq<string>, uuid: string): (rest: seq<string>)
    ensures forall u :: u in rest <==> u in online && u != uuid
  {
    if online == [] then []
    else (if online[0] != uuid then [online[0]] else []) + WithoutName(online[1..], uuid)
  }

  function Lookup<T>(m: map<string, T>, uuid: string): Option<T> {
    if uuid in m then Some(m[uuid]) else None
  }

  // An empty name keeps the previous one; without one the identifier serves.
  function ChosenName(name: string, previous: Option<Client>, uuid: string): string {
    if name != "" then name else if previous.Some? && previous.value.name != "" then previous.value.name else uuid
  }

  function MergeClient(previous: Option<Client>, uuid: string, name: string, next: Record, timestamp: int): Client {
    Client(uuid, ChosenName(name, previous, uuid),
           (if previous.Some? then previous.value.fields else map[]) + next.fields, next.capacity, next.errors, timestamp)
  }

  function ApplyUpdate(current: Option<Live>, m: Patch): Live
    requires m.Update?
  {
    var base := if current.Some? then current.value else NOTHING;
    var next := MergeRecord(if m.client in base.data then base.data[m.client] else EMPTY, m.data, m.timestamp);
    var online := if m.client in base.online then base.online else base.online + [m.client];
    var client := MergeClient(Find(base.clients, m.client), m.client, m.name, next, m.timestamp);
    Live(online, WithoutClient(base.clients, m.client) + [client], base.data[m.client := next],
         base.lastKnown - {m.client}, |online|, m.timestamp)
  }

  // The last-known record that a client's own data amount to.
  function OwnLast(client: Option<Client>, removed: Option<Record>, uuid: string): Option<LastKnown> {
    if client.None? then None
    else
      var c := client.value;
      var r := if removed.Some? then removed.value else EMPTY;
      NormalizeLast(Candidate(uuid, Some(c.name), Some(c.time), c.fields + r.fields,
                              if r.capacity.Some? then r.capacity else c.capacity,
                              if r.errors != map[] then r.errors else c.errors), uuid)
  }

  function NextLast(base: Live, m: Patch): Option<LastKnown>
    requires m.Remove?
  {
    if !m.offline then None
    else
      var explicit := if m.explicit.Some? then NormalizeLast(m.explicit.value, m.client) else None;
      var own := OwnLast(Find(base.clients, m.client), Lookup(base.data, m.client), m.client);
      var previous := if own.Some? then own else Lookup(base.lastKnown, m.client);
      if explicit.Some? && (previous.None? || explicit.value.time >= previous.value.time) then explicit else previous
  }

  function ApplyRemove(current: Option<Live>, m: Patch): Option<Live>
    requires m.Remove?
  {
    var explicit := if m.offline && m.explicit.Some? then NormalizeLast(m.explicit.value, m.client) else None;
    if current.None? && explicit.None? then None
    else
      var base := if current.Some? then current.value else NOTHING;
      var online := WithoutName(base.online, m.client);
      var last := NextLast(base, m);
      Some(Live(online, WithoutClient(base.clients, m.client), base.data - {m.client},
                if last.Some? then base.lastKnown[m.client := last.value] else base.lastKnown - {m.client},
                |online|, m.timestamp))
  }

  function Apply(current: Option<Live>, m: Patch): Option<Live> {
    if m.Update? then Some(ApplyUpdate(current, m)) else ApplyRemove(current, m)
  }

  // merge: a missing result keeps the value so far.
  function Replay(value: Live, patches: seq<Patch>): Live {
    if patches == [] then value
    else
      var before := Replay(value, patches[..|patches| - 1]);
      var after := Apply(Some(before), patches[|patches| - 1]);
      if after.Some? then after.value else before
  }

  // The patches of a failed earlier read that are newer than the snapshot.
  function Newer(patches: seq<Patch>, timestamp: int): (kept: seq<Patch>)
    ensures |kept| <= |patches|
    ensures forall m :: m in kept <==> m in patches && m.timestamp > timestamp
  {
    if patches == [] then []
    else (if patches[0].timestamp > timestamp then [patches[0]] else []) + Newer(patches[1..], timestamp)
  }

  // ------------------------------------------------------ online or last known

  ghost predicate Disjoint(value: Live) {
    forall u :: u in value.lastKnown ==> u !in value.online
  }

  lemma ApplyKeepsDisjoint(current: Option<Live>, m: Patch)
    requires current.Some? ==> Disjoint(current.value)
    ensures Apply(current, m).Some? ==> Disjoint(Apply(current, m).value)
  {
  }

  lemma {:induction false} ReplayKeepsDisjoint(value: Live, patches: seq<Patch>)
    requires Disjoint(value)
    ensures Disjoint(Replay(value, patches))
  {
    if patches != [] {
      ReplayKeepsDisjoint(value, patches[..|patches| - 1]);
      ApplyKeepsDisjoint(Some(Replay(value, patches[..|patches| - 1])), patches[|patches| - 1]);
    }
  }
}
