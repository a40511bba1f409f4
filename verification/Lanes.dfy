// One lane of the result queue: the pending results of one kind of probe,
// the order in which they were queued, and the slips (result lists with their
// lease maps) by which reports carry them.
module Lanes {
  import opened Probes

  datatype Kind = PingKind | WebsiteKind

  datatype Queued = Queued(result: Result, sequence: nat, leased: bool)

  // One report's share of a lane. Go's nil map and empty map are both `map[]`.
  datatype Slip = Slip(results: seq<Result>, leases: map<int, nat>)

  datatype Report = Report(sample: nat, ping: Slip, website: Slip)

  datatype Lane = Lane(
    tasks: seq<Task>,
    pending: map<int, Queued>,
    order: seq<int>,
    running: map<int, nat>,
    lastRun: map<int, nat>)

  const EMPTY_LANE := Lane([], map[], [], map[], map[])

  function Part(report: Report, kind: Kind): Slip {
    match kind case PingKind => report.ping case WebsiteKind => report.website
  }

  // ---------------------------------------------------------------- queueing

  function QueueResult(l: Lane, result: Result, sequence: nat): Lane {
    if result.id in l.pending then l
    else l.(pending := l.pending[result.id := Queued(result, sequence, false)], order := l.order + [result.id])
  }

  function Prune(order: seq<int>, pending: map<int, Queued>): (kept: seq<int>)
    ensures forall id :: id in kept <==> id in order && id in pending
  {
    if order == [] then []
    else (if order[0] in pending then [order[0]] else []) + Prune(order[1..], pending)
  }

  // ----------------------------------------------------------------- leasing

  function Unleased(order: seq<int>, pending: map<int, Queued>): (ids: seq<int>)
    ensures forall id :: id in ids <==> id in order && id in pending && !pending[id].leased
  {
    if order == [] then []
    else (if order[0] in pending && !pending[order[0]].leased then [order[0]] else []) + Unleased(order[1..], pending)
  }

  function MarkLeased(pending: map<int, Queued>, ids: seq<int>): map<int, Queued> {
    map id | id in pending :: if id in ids then pending[id].(leased := true) else pending[id]
  }

  function SlipFor(pending: map<int, Queued>, ids: seq<int>): Slip
    requires forall i :: 0 <= i < |ids| ==> ids[i] in pending
  {
    Slip(seq(|ids|, i requires 0 <= i < |ids| => pending[ids[i]].result),
         map id | id in ids :: pending[id].sequence)
  }

  function LeaseIds(l: Lane, limit: nat): (ids: seq<int>)
    ensures |ids| <= limit
    ensures forall i :: 0 <= i < |ids| ==> ids[i] in l.pending && !l.pending[ids[i]].leased
  {
    var all := Unleased(l.order, l.pending);
    all[..if limit < |all| then limit else |all|]
  }

  function Lease(l: Lane, limit: nat): (Lane, Slip) {
    var ids := LeaseIds(l, limit);
    (l.(pending := MarkLeased(l.pending, ids)), SlipFor(l.pending, ids))
  }

  // --------------------------------------------------------------- currency

  // A missing map key reads as zero, which is no sequence number.
  function LeaseOf(leases: map<int, nat>, id: int): nat {
    if id in leases then leases[id] else 0
  }

  predicate IsCurrent(r: Result, leases: map<int, nat>, pending: map<int, Queued>) {
    r.id in pending && pending[r.id].sequence == LeaseOf(leases, r.id)
  }

  function FilterCurrent(results: seq<Result>, leases: map<int, nat>, pending: map<int, Queued>): (kept: seq<Result>)
    ensures forall r :: r in kept <==> r in results && IsCurrent(r, leases, pending)
  {
    if results == [] then []
    else (if IsCurrent(results[0], leases, pending) then [results[0]] else [])
         + FilterCurrent(results[1..], leases, pending)
  }

  function CurrentSlip(s: Slip, pending: map<int, Queued>): Slip {
    if s.leases == map[] then s else s.(results := FilterCurrent(s.results, s.leases, pending))
  }

  // --------------------------------------------------------- acknowledgement

  predicate Carries(s: Slip, id: int, sequence: nat) {
    id in s.leases && s.leases[id] == sequence
  }

  function AckPending(pending: map<int, Queued>, s: Slip): map<int, Queued> {
    map id | id in pending && !Carries(s, id, pending[id].sequence) :: pending[id]
  }

  // ------------------------------------------------------------------ policy

  // Later entries of a policy overwrite earlier ones with the same ID.
  function ByID(tasks: seq<Task>): (byID: map<int, Task>)
    ensures forall id :: id in byID ==> byID[id] in tasks && byID[id].id == id
    ensures forall t :: t in tasks ==> t.id in byID
  {
    if tasks == [] then map[]
    else ByID(tasks[..|tasks| - 1])[tasks[|tasks| - 1].id := tasks[|tasks| - 1]]
  }

  predicate Superseded(prior: Task, byID: map<int, Task>) {
    prior.id !in byID || !SameProbe(prior.definition, byID[prior.id].definition)
  }

  function SupersededIds(prior: seq<Task>, tasks: seq<Task>): set<int> {
    var byID := ByID(tasks);
    set t | t in prior && Superseded(t, byID) :: t.id
  }

  function Without<V>(m: map<int, V>, ids: set<int>): map<int, V> {
    m - ids
  }

  function ApplyTasks(l: Lane, tasks: seq<Task>): Lane {
    var gone := SupersededIds(l.tasks, tasks);
    var pending := Without(l.pending, gone);
    l.(tasks := tasks, pending := pending, order := Prune(l.order, pending), lastRun := Without(l.lastRun, gone))
  }

  function CancelledBy(l: Lane, tasks: seq<Task>): set<nat> {
    var gone := SupersededIds(l.tasks, tasks);
    set id | id in gone && id in l.running :: l.running[id]
  }

  // --------------------------------------------------------------- invariant

  // The queue: `order` lists exactly the pending IDs, oldest sequence number
  // first, and no ID is both pending and running.
  ghost predicate QueueOk(l: Lane, next: nat) {
    && (forall i :: 0 <= i < |l.order| ==> l.order[i] in l.pending)
    && (forall id :: id in l.pending ==> id in l.order)
    && (forall i, j :: 0 <= i < j < |l.order| ==> l.pending[l.order[i]].sequence < l.pending[l.order[j]].sequence)
    && (forall id :: id in l.pending ==>
          l.pending[id].result.id == id && 1 <= l.pending[id].sequence <= next && id !in l.running)
  }

  ghost predicate SlipOk(s: Slip, next: nat) {
    && (forall i :: 0 <= i < |s.results| ==> s.results[i].id in s.leases)
    && (forall i, j :: 0 <= i < j < |s.results| ==> s.leases[s.results[i].id] < s.leases[s.results[j].id])
    && (forall id :: id in s.leases ==> 1 <= s.leases[id] <= next)
  }

  ghost predicate Below(s: Slip, sequence: nat) {
    forall id :: id in s.leases ==> s.leases[id] < sequence
  }

  ghost predicate Before(a: Slip, b: Slip) {
    forall id :: id in b.leases ==> Below(a, b.leases[id])
  }

  // What one held slip owes the queue.
  ghost predicate SlipFits(s: Slip, pending: map<int, Queued>, next: nat) {
    && SlipOk(s, next)
    && (forall id :: id in pending && !pending[id].leased ==> Below(s, pending[id].sequence))
    && (forall id :: id in pending && Carries(s, id, pending[id].sequence) ==>
          pending[id].leased && pending[id].result in s.results)
  }

  ghost predicate Held(held: seq<Report>, kind: Kind, id: int, sequence: nat) {
    exists k :: 0 <= k < |held| && Carries(Part(held[k], kind), id, sequence)
  }

  ghost predicate HeldOk(pending: map<int, Queued>, held: seq<Report>, kind: Kind, next: nat) {
    && (forall k :: 0 <= k < |held| ==> SlipFits(Part(held[k], kind), pending, next))
    && (forall j, k :: 0 <= j < k < |held| ==> Before(Part(held[j], kind), Part(held[k], kind)))
    && (forall id :: id in pending && pending[id].leased ==> Held(held, kind, id, pending[id].sequence))
  }

  ghost predicate LaneOk(l: Lane, held: seq<Report>, kind: Kind, next: nat) {
    QueueOk(l, next) && HeldOk(l.pending, held, kind, next)
  }
}
