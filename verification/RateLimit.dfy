// Fixed-window rate limiting by key, with stored counters that expire.
module RateLimit {

  datatype Option<T> = None | Some(value: T)

  datatype Bucket = Bucket(count: nat, resetAt: int)

  datatype Limit = Limit(max: int, windowMs: int)

  type Storage = map<string, Bucket>

  const MAX_BUCKETS := 5000

  predicate IsLimit(limit: Limit) {
    limit.max > 0 && limit.windowMs >= 1000
  }

  // The counter of a key that still counts at a time.
  function Active(storage: Storage, key: string, now: int): Option<Bucket> {
    if key in storage && storage[key].resetAt > now then Some(storage[key]) else None
  }

  function Counted(current: Option<Bucket>, limit: Limit, now: int): Bucket {
    if current.Some? then current.value.(count := current.value.count + 1) else Bucket(1, now + limit.windowMs)
  }

  predicate Allowed(bucket: Bucket, limit: Limit) {
    bucket.count <= limit.max
  }

  function Swept(storage: Storage, now: int): Storage {
    map key | key in storage && storage[key].resetAt > now :: storage[key]
  }

  // ------------------------------------------------------- the requests of a key

  ghost predicate Rising(times: seq<int>) {
    forall i, j :: 0 <= i < j < |times| ==> times[i] <= times[j]
  }

  function Unexpired(bucket: Option<Bucket>, now: int): Option<Bucket> {
    if bucket.Some? && bucket.value.resetAt > now then bucket else None
  }

  // The counter after requests of one key at these times.
  function After(times: seq<int>, limit: Limit): (bucket: Option<Bucket>)
    ensures bucket.None? <==> times == []
  {
    if times == [] then None
    else
      var before, now := After(times[..|times| - 1], limit), times[|times| - 1];
      Some(Counted(Unexpired(before, now), limit, now))
  }

  // Windows: one starts with the first request, and with every request that
  // comes when the last one is over.
  function Start(times: seq<int>, windowMs: int): int
    requires times != []
  {
    var now := times[|times| - 1];
    if |times| == 1 then now
    else
      var before := Start(times[..|times| - 1], windowMs);
      if now >= before + windowMs then now else before
  }

  function StartAt(times: seq<int>, i: nat, windowMs: int): int
    requires i < |times|
  {
    Start(times[..i + 1], windowMs)
  }

  // The requests that fall into the window of the last one.
  ghost function SameWindow(times: seq<int>, windowMs: int): set<nat>
    requires times != []
  {
    set i: nat | i < |times| && StartAt(times, i, windowMs) == Start(times, windowMs)
  }

  lemma {:induction false} StartsRise(times: seq<int>, windowMs: int, i: nat)
    requires Rising(times) && windowMs > 0 && i < |times|
    ensures StartAt(times, i, windowMs) <= Start(times, windowMs) <= times[|times| - 1]
  {
    var front := times[..|times| - 1];
    if i == |times| - 1 {
      assert times[..i + 1] == times;
      if i > 0 {
        StartsRise(front, windowMs, 0);
        assert front[|front| - 1] == times[|times| - 2];
      }
    } else {
      StartsRise(front, windowMs, i);
      assert front[..i + 1] == times[..i + 1];
      assert front[|front| - 1] == times[|times| - 2];
    }
  }

  lemma WindowOpens(times: seq<int>, w: int)
    requires Rising(times) && w > 0 && |times| > 1
    requires times[|times| - 1] >= Start(times[..|times| - 1], w) + w
    ensures SameWindow(times, w) == {|times| - 1}
  {
    var n: nat := |times| - 1;
    var front := times[..n];
    assert times[..n + 1] == times;
    forall i: nat | i < n
      ensures StartAt(times, i, w) < Start(times, w)
    {
      StartsRise(front, w, i);
      assert front[..i + 1] == times[..i + 1];
    }
  }

  lemma WindowGrows(times: seq<int>, w: int)
    requires |times| > 1 && times[|times| - 1] < Start(times[..|times| - 1], w) + w
    ensures SameWindow(times, w) == SameWindow(times[..|times| - 1], w) + {|times| - 1}
  {
    var n: nat := |times| - 1;
    var front := times[..n];
    assert times[..n + 1] == times;
    forall i: nat | i < n
      ensures StartAt(times, i, w) == StartAt(front, i, w)
    {
      assert front[..i + 1] == times[..i + 1];
    }
  }

  lemma WindowOfOne(times: seq<int>, w: int)
    requires |times| == 1
    ensures SameWindow(times, w) == {0}
  {
    assert times[..1] == times;
  }

  // A window admits exactly its first `max` requests: the counter is the
  // number of requests that fell into the window so far.
  lemma {:induction false} CountsWindow(times: seq<int>, limit: Limit)
    requires Rising(times) && IsLimit(limit) && times != []
    ensures After(times, limit).value.resetAt == Start(times, limit.windowMs) + limit.windowMs
    ensures After(times, limit).value.count == |SameWindow(times, limit.windowMs)|
  {
    hide SameWindow;
    var n := |times| - 1;
    var front, w := times[..n], limit.windowMs;
    if n == 0 {
      WindowOfOne(times, w);
    } else {
      CountsWindow(front, limit);
      if times[n] >= Start(front, w) + w {
        WindowOpens(times, w);
      } else {
        WindowGrows(times, w);
        LastIsNew(front, w);
      }
    }
  }

  lemma LastIsNew(front: seq<int>, w: int)
    requires front != []
    ensures |front| !in SameWindow(front, w)
  {
  }

  // ------------------------------------------------------- twice the limit

  // The requests admitted at times from `from`, before `from` plus a window.
  function AdmittedIn(times: seq<int>, limit: Limit, from: int): nat {
    if times == [] then 0
    else
      AdmittedIn(times[..|times| - 1], limit, from)
      + if from <= times[|times| - 1] < from + limit.windowMs && Allowed(After(times, limit).value, limit) then 1 else 0
  }

  function Min(a: int, b: int): int {
    if a < b then a else b
  }

  lemma {:induction false} AdmittedSoFar(times: seq<int>, limit: Limit, from: int)
    requires Rising(times) && IsLimit(limit) && times != []
    ensures var admitted, bucket := AdmittedIn(times, limit, from), After(times, limit).value;
            var start := bucket.resetAt - limit.windowMs;
            && start <= times[|times| - 1]
            && (times[|times| - 1] < from ==> admitted == 0)
            && (start < from ==> admitted <= Min(bucket.count, limit.max))
            && (from <= start < from + limit.windowMs ==> admitted <= limit.max + Min(bucket.count, limit.max))
            && admitted <= 2 * limit.max
  {
    var front := times[..|times| - 1];
    if front == [] {
      assert AdmittedIn(front, limit, from) == 0;
    } else {
      AdmittedSoFar(front, limit, from);
      assert front[|front| - 1] == times[|times| - 2];
    }
  }

  // No interval of one window's length admits more than twice the limit.
  lemma AtMostTwice(times: seq<int>, limit: Limit, from: int)
    requires Rising(times) && IsLimit(limit)
    ensures AdmittedIn(times, limit, from) <= 2 * limit.max
  {
    if times != [] {
      AdmittedSoFar(times, limit, from);
    }
  }

  // ---------------------------------------------------------------- whole runs

  datatype Event = Hit(key: string, now: int) | Sweep(now: int)

  ghost predicate InOrder(events: seq<Event>) {
    forall i, j :: 0 <= i < j < |events| ==> events[i].now <= events[j].now
  }

  function Step(storage: Storage, event: Event, limits: string -> Limit): Storage {
    match event
    case Hit(key, now) => storage[key := Counted(Active(storage, key, now), limits(key), now)]
    case Sweep(now) => Swept(storage, now)
  }

  function Run(events: seq<Event>, limits: string -> Limit): Storage {
    if events == [] then map[] else Step(Run(events[..|events| - 1], limits), events[|events| - 1], limits)
  }

  function TimesOf(events: seq<Event>, key: string): seq<int> {
    if events == [] then []
    else
      var before, last := TimesOf(events[..|events| - 1], key), events[|events| - 1];
      if last.Hit? && last.key == key then before + [last.now] else before
  }

  lemma {:induction false} TimesRise(events: seq<Event>, key: string)
    requires InOrder(events)
    ensures Rising(TimesOf(events, key))
    ensures forall t :: t in TimesOf(events, key) ==> events != [] && t <= events[|events| - 1].now
  {
    if events != [] {
      var front := events[..|events| - 1];
      TimesRise(front, key);
      if front != [] {
        assert front[|front| - 1] == events[|events| - 2];
      }
      var before := TimesOf(front, key);
      forall i | 0 <= i < |before|
        ensures before[i] <= events[|events| - 1].now
      {
        assert before[i] in before;
      }
    }
  }

  lemma OwnStep(storage: Storage, key: string, at: int, limits: string -> Limit, now: int)
    ensures Active(Step(storage, Hit(key, at), limits), key, now)
            == Unexpired(Some(Counted(Active(storage, key, at), limits(key), at)), now)
  {
  }

  lemma OtherStep(storage: Storage, event: Event, limits: string -> Limit, key: string, now: int)
    requires !(event.Hit? && event.key == key) && event.now <= now
    ensures Active(Step(storage, event, limits), key, now) == Active(storage, key, now)
  {
  }

  lemma OneMore(times: seq<int>, at: int, limit: Limit)
    ensures After(times + [at], limit) == Some(Counted(Unexpired(After(times, limit), at), limit, at))
  {
    assert (times + [at])[..|times|] == times;
  }

  lemma FrontInOrder(events: seq<Event>)
    requires InOrder(events) && events != []
    ensures InOrder(events[..|events| - 1])
    ensures |events| > 1 ==> events[..|events| - 1][|events| - 2].now <= events[|events| - 1].now
  {
  }

  // Sweeps and other keys are invisible: at any later time a key's counter is
  // what its own requests alone make it.
  lemma {:induction false} KeysAreIndependent(events: seq<Event>, limits: string -> Limit, key: string, now: int)
    requires InOrder(events) && (events != [] ==> events[|events| - 1].now <= now)
    ensures Active(Run(events, limits), key, now) == Unexpired(After(TimesOf(events, key), limits(key)), now)
  {
    if events != [] {
      hide InOrder, Step, Counted, Active, Unexpired, After;
      var front, last := events[..|events| - 1], events[|events| - 1];
      FrontInOrder(events);
      if last.Hit? && last.key == key {
        KeysAreIndependent(front, limits, key, last.now);
        OneMore(TimesOf(front, key), last.now, limits(key));
        OwnStep(Run(front, limits), key, last.now, limits, now);
      } else {
        KeysAreIndependent(front, limits, key, now);
        OtherStep(Run(front, limits), last, limits, key, now);
      }
    }
  }

  // Whatever was swept and whoever else asked: a request is admitted iff it is
  // among the first `max` of its key's window, and no interval of a window's
  // length admits more than twice that.
  lemma LimitsHold(events: seq<Event>, limits: string -> Limit, key: string, now: int, from: int)
    requires InOrder(events + [Hit(key, now)]) && IsLimit(limits(key))
    ensures var times := TimesOf(events, key) + [now];
            && (Allowed(Run(events + [Hit(key, now)], limits)[key], limits(key))
                <==> |SameWindow(times, limits(key).windowMs)| <= limits(key).max)
            && AdmittedIn(times, limits(key), from) <= 2 * limits(key).max
  {
    var all := events + [Hit(key, now)];
    assert all[..|events|] == events;
    assert forall i :: 0 <= i < |events| ==> all[i] == events[i];
    var times := TimesOf(events, key) + [now];
    assert TimesOf(all, key) == times;
    TimesRise(all, key);
    KeysAreIndependent(events, limits, key, now);
    assert times[..|times| - 1] == TimesOf(events, key);
    assert Run(all, limits)[key] == After(times, limits(key)).value;
    CountsWindow(times, limits(key));
    AtMostTwice(times, limits(key), from);
  }

  // ------------------------------------------------------------- the object

  datatype Request = Request(headerTooLarge: bool, parsed: bool, bodyTooLarge: bool, bucket: string, ip: string,
                             max: Option<int>, windowMs: Option<int>)

  datatype Answer = TooLarge | BadRequest | Answer(allowed: bool, retryAfter: int, limit: int, remaining: int, reset: int)

  const SWEEP_EVERY := 256
  const ENFORCE_EVERY := 1024

  function Slice(text: string, length: nat): string {
    if |text| > length then text[..length] else text
  }

  function KeyOf(r: Request): string {
    "rate-limit:" + Slice(r.bucket, 96) + ":" + Slice(r.ip, 128)
  }

  predicate IsAccepted(r: Request) {
    && !r.headerTooLarge && r.parsed && !r.bodyTooLarge && r.bucket != "" && r.ip != ""
    && r.max.Some? && r.windowMs.Some? && IsLimit(Limit(r.max.value, r.windowMs.value))
  }

  function LimitOf(r: Request): Limit
    requires r.max.Some? && r.windowMs.Some?
  {
    Limit(r.max.value, r.windowMs.value)
  }

  function CeilSeconds(ms: int): int {
    (ms + 999) / 1000
  }

  // From `now` on, every key counts as it did.
  ghost predicate SameActive(a: Storage, b: Storage, now: int) {
    forall key, later :: later >= now ==> Active(a, key, later) == Active(b, key, later)
  }

  lemma SweepingIsInvisible(storage: Storage, now: int)
    ensures SameActive(storage, Swept(storage, now), now)
  {
  }

  // Sweeping before or after a key is counted comes to the same.
  lemma SweptTwice(storage: Storage, counted: Storage, swept: Storage, key: string, state: Bucket, now: int)
    requires counted == storage[key := state]
    requires swept == counted || swept == Swept(storage, now)[key := state]
    ensures Swept(swept, now) == Swept(counted, now)
    ensures SameActive(counted, swept, now) && SameActive(counted, Swept(counted, now), now)
  {
  }

  lemma SweptAgain(storage: Storage, now: int)
    ensures Swept(Swept(storage, now), now) == Swept(storage, now)
  {
  }

  // Only old buckets were dropped: none that is newer than one kept.
  ghost predicate OldestDropped(before: Storage, after: Storage) {
    && (forall key :: key in after ==> key in before && after[key] == before[key])
    && (forall dropped, kept :: dropped in before && dropped !in after && kept in after ==>
          before[dropped].resetAt <= before[kept].resetAt)
  }

  // What the limit on buckets makes of a storage: nothing up to the limit; over
  // it, expired buckets go, and of the others exactly the overflow.
  ghost predicate Enforced(before: Storage, now: int, after: Storage) {
    var active := Swept(before, now);
    if |before| <= MAX_BUCKETS then after == before
    else if |active| <= MAX_BUCKETS then after == active
    else OldestDropped(active, after) && |after| == MAX_BUCKETS
  }

  method Oldest(storage: Storage) returns (oldest: string)
    requires storage != map[]
    ensures oldest in storage && forall key :: key in storage ==> storage[oldest].resetAt <= storage[key].resetAt
  {
    oldest :| oldest in storage;
    var rest := storage.Keys - {oldest};
    while rest != {}
      invariant rest <= storage.Keys && oldest in storage
      invariant forall key :: key in storage && key !in rest ==> storage[oldest].resetAt <= storage[key].resetAt
      decreases |rest|
    {
      var key :| key in rest;
      if storage[key].resetAt < storage[oldest].resetAt {
        oldest := key;
      }
      rest := rest - {key};
    }
  }

  // A clean-up that is invisible while the active buckets fit, and otherwise
  // drops exactly the overflow, oldest first.
  ghost predicate Cleaned(before: Storage, now: int, after: Storage) {
    if |Swept(before, now)| <= MAX_BUCKETS then SameActive(before, after, now)
    else OldestDropped(Swept(before, now), after) && |after| == MAX_BUCKETS
  }

  // What becomes of the counted buckets.
  ghost predicate Kept(counted: Storage, sweepCounter: nat, now: int, after: Storage) {
    if sweepCounter % ENFORCE_EVERY == 0 then Cleaned(counted, now, after) else SameActive(counted, after, now)
  }

  lemma {:induction false} NoLarger(a: set<string>, b: set<string>)
    requires a <= b
    ensures |a| <= |b|
  {
    if a != {} {
      var key :| key in a;
      NoLarger(a - {key}, b - {key});
    }
  }

  // Enforcing the limit cleans up what was counted, swept before or not.
  lemma EnforcedIsCleaned(counted: Storage, swept: Storage, now: int, after: Storage)
    requires Swept(swept, now) == Swept(counted, now) && SameActive(counted, swept, now)
    requires SameActive(counted, Swept(counted, now), now)
    requires Enforced(swept, now, after)
    ensures Cleaned(counted, now, after)
  {
    hide SameActive, OldestDropped;
    NoLarger(Swept(swept, now).Keys, swept.Keys);
  }

  // One request: refused ones change nothing; the answer to any other follows
  // the key's own counter, with the least whole seconds to wait.
  ghost predicate Checked(before: Storage, sweeps: nat, r: Request, now: int, answer: Answer, after: Storage, sweeps': nat) {
    && (answer.TooLarge? <==> r.headerTooLarge || (r.parsed && r.bodyTooLarge))
    && (!IsAccepted(r) ==> !answer.Answer? && after == before && sweeps' == sweeps)
    && (IsAccepted(r) ==>
          var limit := LimitOf(r);
          var bucket := Counted(Active(before, KeyOf(r), now), limit, now);
          && answer.Answer? && answer.allowed == Allowed(bucket, limit) && answer.limit == limit.max
          && answer.remaining == (if bucket.count < limit.max then limit.max - bucket.count else 0)
          && answer.retryAfter >= 1 && 1000 * answer.retryAfter >= bucket.resetAt - now > 1000 * (answer.retryAfter - 1)
          && answer.reset == CeilSeconds(bucket.resetAt)
          && sweeps' == sweeps + 1
          && Kept(Step(before, Hit(KeyOf(r), now), _ => limit), sweeps', now, after))
  }

  // ---------------------------------------------------- requests and clean-ups

  // What the object goes through: a request with its answer, or a clean-up.
  datatype Call = Check(r: Request, now: int, answer: Answer) | Clean(now: int)

  datatype Moment = Moment(storage: Storage, sweeps: nat)

  ghost predicate Happens(m: Moment, call: Call, m': Moment) {
    match call
    case Check(r, now, answer) => Checked(m.storage, m.sweeps, r, now, answer, m'.storage, m'.sweeps)
    case Clean(now) => m'.sweeps == m.sweeps && Cleaned(m.storage, now, m'.storage)
  }

  // No active bucket has to be dropped in this call.
  predicate Fits(m: Moment, call: Call) {
    match call
    case Check(r, now, _) =>
      IsAccepted(r) && (m.sweeps + 1) % ENFORCE_EVERY == 0 ==>
        |Swept(Step(m.storage, Hit(KeyOf(r), now), _ => LimitOf(r)), now)| <= MAX_BUCKETS
    case Clean(now) => |Swept(m.storage, now)| <= MAX_BUCKETS
  }

  // A life of the object from an empty storage: calls in order of time, one
  // limit to a key, and the active buckets fit.
  ghost predicate Life(moments: seq<Moment>, calls: seq<Call>, limits: string -> Limit) {
    && |moments| == |calls| + 1 && moments[0] == Moment(map[], 0)
    && (forall i :: 0 <= i < |calls| ==> Happens(moments[i], calls[i], moments[i + 1]) && Fits(moments[i], calls[i]))
    && (forall i, j :: 0 <= i < j < |calls| ==> calls[i].now <= calls[j].now)
    && (forall i :: 0 <= i < |calls| && IsHit(calls[i]) ==> limits(KeyOf(calls[i].r)) == LimitOf(calls[i].r))
  }

  predicate IsHit(call: Call) {
    call.Check? && IsAccepted(call.r)
  }

  function Hits(calls: seq<Call>): seq<Event> {
    if calls == [] then []
    else
      var last := calls[|calls| - 1];
      Hits(calls[..|calls| - 1]) + (if IsHit(last) then [Hit(KeyOf(last.r), last.now)] else [])
  }

  lemma {:induction false} HitsInOrder(calls: seq<Call>)
    requires forall i, j :: 0 <= i < j < |calls| ==> calls[i].now <= calls[j].now
    ensures InOrder(Hits(calls))
    ensures forall i :: 0 <= i < |Hits(calls)| ==> calls != [] && Hits(calls)[i].now <= calls[|calls| - 1].now
  {
    if calls != [] {
      HitsInOrder(calls[..|calls| - 1]);
    }
  }

  // Counting commutes with whatever was swept before.
  lemma SameStep(a: Storage, b: Storage, key: string, limit: Limit, limits: string -> Limit, at: int)
    requires SameActive(a, b, at) && limits(key) == limit
    ensures SameActive(Step(a, Hit(key, at), limits), Step(b, Hit(key, at), _ => limit), at)
  {
    assert Active(a, key, at) == Active(b, key, at);
    var bucket := Counted(Active(a, key, at), limit, at);
    var a', b' := a[key := bucket], b[key := bucket];
    assert Step(a, Hit(key, at), limits) == a' && Step(b, Hit(key, at), _ => limit) == b';
    forall k, later | later >= at
      ensures Active(a', k, later) == Active(b', k, later)
    {
      assert Active(a, k, later) == Active(b, k, later);
    }
  }

  lemma SameLater(a: Storage, b: Storage, c: Storage, early: int, late: int)
    requires SameActive(a, b, early) && SameActive(b, c, late) && early <= late
    ensures SameActive(a, c, late)
  {
    forall key, later | later >= late
      ensures Active(a, key, later) == Active(c, key, later)
    {
      assert Active(a, key, later) == Active(b, key, later);
    }
  }

  // The buckets of the object count as those of its counted requests alone.
  lemma {:induction false} LifeIsRun(moments: seq<Moment>, calls: seq<Call>, limits: string -> Limit, i: nat)
    requires Life(moments, calls, limits) && i < |calls|
    ensures SameActive(Run(Hits(calls[..i]), limits), moments[i].storage, calls[i].now)
  {
    hide Happens, Fits, SameActive, Step, Counted, Swept;
    if i == 0 {
      assert calls[..0] == [];
      SameAsItself(map[], calls[0].now);
    } else {
      var call, front := calls[i - 1], calls[..i - 1];
      LifeIsRun(moments, calls, limits, i - 1);
      assert calls[..i][..i - 1] == front;
      assert Happens(moments[i - 1], call, moments[i - 1 + 1]) && Fits(moments[i - 1], call);
      assert IsHit(call) ==> limits(KeyOf(call.r)) == LimitOf(call.r);
      CallKeeps(Run(Hits(front), limits), moments[i - 1], call, moments[i], limits);
      if IsHit(call) {
        assert Hits(calls[..i]) == Hits(front) + [Hit(KeyOf(call.r), call.now)];
        assert Hits(calls[..i])[..|Hits(front)|] == Hits(front);
      } else {
        assert Hits(calls[..i]) == Hits(front);
      }
      var counted := Run(Hits(calls[..i]), limits);
      SameAsItself(moments[i].storage, calls[i].now);
      SameLater(counted, moments[i].storage, moments[i].storage, call.now, calls[i].now);
    }
  }

  lemma SameAsItself(storage: Storage, now: int)
    ensures SameActive(storage, storage, now)
  {
  }

  lemma CallKeeps(counted: Storage, m: Moment, call: Call, m': Moment, limits: string -> Limit)
    requires SameActive(counted, m.storage, call.now) && Happens(m, call, m') && Fits(m, call)
    requires IsHit(call) ==> limits(KeyOf(call.r)) == LimitOf(call.r)
    ensures SameActive(if IsHit(call) then Step(counted, Hit(KeyOf(call.r), call.now), limits) else counted, m'.storage, call.now)
  {
    hide SameActive, Step, Counted, Allowed;
    var now := call.now;
    if IsHit(call) {
      var limit, key := LimitOf(call.r), KeyOf(call.r);
      SameStep(counted, m.storage, key, limit, limits, now);
      var stepped := Step(m.storage, Hit(key, now), _ => limit);
      assert SameActive(stepped, m'.storage, now);
      SameLater(Step(counted, Hit(key, now), limits), stepped, m'.storage, now, now);
    } else if call.Clean? {
      SameLater(counted, m.storage, m'.storage, now, now);
    }
  }

  // In every life of the object, whatever it sweeps and cleans up and whoever
  // else asks: a request is allowed iff it is among the first of its key's
  // window, and no interval of a window's length admits more than twice that.
  lemma LifeLimits(moments: seq<Moment>, calls: seq<Call>, limits: string -> Limit, i: nat, from: int)
    requires Life(moments, calls, limits) && i < |calls| && IsHit(calls[i])
    ensures var key, limit := KeyOf(calls[i].r), LimitOf(calls[i].r);
            var times := TimesOf(Hits(calls[..i]), key) + [calls[i].now];
            && calls[i].answer.Answer?
            && (calls[i].answer.allowed <==> |SameWindow(times, limit.windowMs)| <= limit.max)
            && AdmittedIn(times, limit, from) <= 2 * limit.max
  {
    hide SameWindow, AdmittedIn, Counted, Kept, Swept, CeilSeconds, Fits, SameActive, TimesOf;
    var key, now := KeyOf(calls[i].r), calls[i].now;
    var events := Hits(calls[..i]);
    LifeIsRun(moments, calls, limits, i);
    assert Happens(moments[i], calls[i], moments[i + 1]);
    assert limits(key) == LimitOf(calls[i].r);
    SameCount(Run(events, limits), moments[i].storage, key, now);
    HitsAndOne(calls, i);
    LimitsHold(events, limits, key, now, from);
    RunCounts(events, limits, key, now);
  }

  lemma SameCount(a: Storage, b: Storage, key: string, now: int)
    requires SameActive(a, b, now)
    ensures Active(a, key, now) == Active(b, key, now)
  {
  }

  lemma HitsAndOne(calls: seq<Call>, i: nat)
    requires i < |calls| && IsHit(calls[i])
    requires forall i, j :: 0 <= i < j < |calls| ==> calls[i].now <= calls[j].now
    ensures InOrder(Hits(calls[..i]) + [Hit(KeyOf(calls[i].r), calls[i].now)])
  {
    assert calls[..i + 1][..i] == calls[..i];
    HitsInOrder(calls[..i + 1]);
    assert Hits(calls[..i + 1]) == Hits(calls[..i]) + [Hit(KeyOf(calls[i].r), calls[i].now)];
  }

  lemma RunCounts(events: seq<Event>, limits: string -> Limit, key: string, now: int)
    ensures Run(events + [Hit(key, now)], limits)
            == Run(events, limits)[key := Counted(Active(Run(events, limits), key, now), limits(key), now)]
  {
    assert (events + [Hit(key, now)])[..|events|] == events;
  }

  class RateLimitDO {
    var storage: Storage
    var sweepCounter: nat

    constructor ()
      ensures storage == map[] && sweepCounter == 0
    {
      storage, sweepCounter := map[], 0;
    }

    method CleanupExpiredBuckets(now: int)
      modifies this`storage
      ensures storage == Swept(old(storage), now)
      ensures SameActive(old(storage), storage, now)
    {
      SweepingIsInvisible(storage, now);
      storage := map key | key in storage && !(storage[key].resetAt <= now) :: storage[key];
    }

    // Expired buckets go, and only when that is not enough the oldest others.
    method EnforceBucketLimit(now: int)
      modifies this`storage
      ensures Enforced(old(storage), now, storage) && |storage| <= MAX_BUCKETS
    {
      if |storage| <= MAX_BUCKETS {
        return;
      }
      CleanupExpiredBuckets(now);
      ghost var active := storage;
      while |storage| > MAX_BUCKETS
        invariant OldestDropped(active, storage)
        invariant if |active| <= MAX_BUCKETS then storage == active else |storage| >= MAX_BUCKETS
        decreases |storage|
      {
        var oldest := Oldest(storage);
        storage := storage - {oldest};
      }
    }

    // Counts one request of a key, with the sweeps that are due.
    method CountRequest(key: string, limit: Limit, now: int) returns (state: Bucket)
      modifies this
      ensures sweepCounter == old(sweepCounter) + 1
      ensures state == Counted(Active(old(storage), key, now), limit, now)
      ensures Kept(Step(old(storage), Hit(key, now), _ => limit), sweepCounter, now, storage)
    {
      hide SameActive, OldestDropped, Enforced, Cleaned;
      sweepCounter := sweepCounter + 1;
      if sweepCounter % SWEEP_EVERY == 0 {
        CleanupExpiredBuckets(now);
      }
      state := Bucket(0, now + limit.windowMs);
      if key in storage && !(storage[key].resetAt <= now) {
        state := storage[key];
      }
      state := state.(count := state.count + 1);
      assert state == Counted(Active(old(storage), key, now), limit, now);
      storage := storage[key := state];
      ghost var counted := Step(old(storage), Hit(key, now), _ => limit);
      SweptTwice(old(storage), counted, storage, key, state, now);
      if sweepCounter % ENFORCE_EVERY == 0 {
        ghost var swept := storage;
        EnforceBucketLimit(now);
        EnforcedIsCleaned(counted, swept, now, storage);
      }
    }

    method CheckRateLimit(r: Request, now: int) returns (answer: Answer)
      modifies this
      ensures Checked(old(storage), old(sweepCounter), r, now, answer, storage, sweepCounter)
    {
      if r.headerTooLarge {
        return TooLarge;
      }
      if !r.parsed {
        return BadRequest;
      }
      if r.bodyTooLarge {
        return TooLarge;
      }
      var bucket, ip := Slice(r.bucket, 96), Slice(r.ip, 128);
      if bucket == "" || ip == "" || r.max.None? || r.max.value <= 0 || r.windowMs.None? || r.windowMs.value < 1000 {
        return BadRequest;
      }
      var limit := Limit(r.max.value, r.windowMs.value);
      var state := CountRequest("rate-limit:" + bucket + ":" + ip, limit, now);
      var seconds := CeilSeconds(state.resetAt - now);
      var retryAfter := if seconds > 1 then seconds else 1;
      var remaining := if limit.max - state.count > 0 then limit.max - state.count else 0;
      answer := Answer(state.count <= limit.max, retryAfter, limit.max, remaining, CeilSeconds(state.resetAt));
    }

    // The periodic clean-up.
    method Alarm(now: int)
      modifies this`storage
      ensures Cleaned(old(storage), now, storage) && |storage| <= MAX_BUCKETS
    {
      CleanupExpiredBuckets(now);
      SweptAgain(old(storage), now);
      SweepingIsInvisible(old(storage), now);
      EnforceBucketLimit(now);
      EnforcedIsCleaned(old(storage), Swept(old(storage), now), now, storage);
    }
  }
}
