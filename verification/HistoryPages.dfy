// Collecting a range of history records page by page, newest first, by cursor.
module HistoryPages {

  datatype Option<T> = None | Some(value: T)

  // A record; its time may be unreadable, its number and ordinal missing.
  datatype Row = Row(time: Option<int>, id: Option<nat>, ordinal: Option<nat>, value: int)

  datatype Identity = Identity(time: Option<int>, id: Option<nat>, ordinal: Option<nat>)

  // A parsed cursor. One without a number stands before all records of its time.
  datatype Position = TimeOnly(time: int) | Exact(time: int, id: nat, ordinal: nat)

  datatype Response = Malformed | Page(rows: seq<Row>, hasMore: bool, next: Option<Position>)

  datatype Reason = BadRange | BadCursor | BadResponse | TooMany

  datatype Outcome = Rows(rows: seq<Row>) | Failed(reason: Reason)

  const MAX_PAGES := 32

  function IdentityOf(row: Row): Identity {
    Identity(row.time, row.id, row.ordinal)
  }

  function Or(o: Option<int>, otherwise: int): int {
    if o.Some? then o.value else otherwise
  }

  function Number(o: Option<nat>): nat {
    if o.Some? then o.value else 0
  }

  // The order of the result: by time, number and ordinal, missing ones as zero.
  predicate Less(a: Row, b: Row) {
    || Or(a.time, 0) < Or(b.time, 0)
    || (Or(a.time, 0) == Or(b.time, 0)
        && (Number(a.id) < Number(b.id) || (Number(a.id) == Number(b.id) && Number(a.ordinal) < Number(b.ordinal))))
  }

  // Where a cursor lies before another one in the descending walk.
  predicate Advances(next: Position, from: Position) {
    || next.time < from.time
    || (next.time == from.time && next.Exact?
        && (from.TimeOnly? || next.id < from.id || (next.id == from.id && next.ordinal < from.ordinal)))
  }

  predicate InRange(row: Row, start: int, end: int) {
    row.time.Some? && start <= row.time.value <= end
  }

  // Setting a key of an insertion-ordered table.
  function Put(records: seq<Row>, row: Row): (after: seq<Row>)
    ensures forall r :: r in after ==> r in records || r == row
  {
    if records == [] then [row]
    else if IdentityOf(records[0]) == IdentityOf(row) then [row] + records[1..]
    else [records[0]] + Put(records[1..], row)
  }

  function Insert(row: Row, sorted: seq<Row>): seq<Row> {
    if sorted == [] || !Less(sorted[0], row) then [row] + sorted else [sorted[0]] + Insert(row, sorted[1..])
  }

  // A stable sort.
  function Sort(rows: seq<Row>): seq<Row> {
    if rows == [] then [] else Insert(rows[0], Sort(rows[1..]))
  }

  // ---------------------------------------------------------------- any server

  ghost predicate Unique(rows: seq<Row>) {
    forall i, j :: 0 <= i < j < |rows| ==> IdentityOf(rows[i]) != IdentityOf(rows[j])
  }

  ghost predicate Sorted(rows: seq<Row>) {
    forall i, j :: 0 <= i < j < |rows| ==> !Less(rows[j], rows[i])
  }

  ghost predicate AllInRange(rows: seq<Row>, start: int, end: int) {
    forall r :: r in rows ==> InRange(r, start, end)
  }

  lemma {:induction false} PutKeepsUnique(records: seq<Row>, row: Row)
    requires Unique(records)
    ensures Unique(Put(records, row))
    ensures forall i :: 0 <= i < |Put(records, row)| ==>
              IdentityOf(Put(records, row)[i]) == IdentityOf(row) || exists j :: 0 <= j < |records| && Put(records, row)[i] == records[j]
  {
    if records != [] && IdentityOf(records[0]) != IdentityOf(row) {
      var rest := records[1..];
      PutKeepsUnique(rest, row);
      var after := Put(rest, row);
      assert Put(records, row) == [records[0]] + after;
      forall i | 0 <= i < |after|
        ensures IdentityOf(after[i]) != IdentityOf(records[0])
      {
        if IdentityOf(after[i]) != IdentityOf(row) {
          var j :| 0 <= j < |rest| && after[i] == rest[j];
          assert rest[j] == records[j + 1];
        }
      }
    }
  }

  lemma LessIsOrder(a: Row, b: Row, c: Row)
    ensures !Less(b, a) && !Less(c, b) ==> !Less(c, a)
    ensures Less(a, b) ==> !Less(b, a)
  {
  }

  lemma {:induction false} InsertSorts(row: Row, sorted: seq<Row>)
    requires Sorted(sorted)
    ensures Sorted(Insert(row, sorted)) && multiset(Insert(row, sorted)) == multiset(sorted) + multiset{row}
  {
    hide Less;
    if sorted == [] {
    } else if !Less(sorted[0], row) {
      assert multiset([row] + sorted) == multiset{row} + multiset(sorted);
      forall j | 0 < j < |sorted|
        ensures !Less(sorted[j], row)
      {
        LessIsOrder(row, sorted[0], sorted[j]);
      }
    } else {
      var rest := sorted[1..];
      InsertSorts(row, rest);
      LessIsOrder(sorted[0], row, row);
      assert sorted == [sorted[0]] + rest;
      var after := Insert(row, rest);
      forall j | 0 <= j < |after|
        ensures !Less(after[j], sorted[0])
      {
        assert after[j] in multiset(after);
        if after[j] != row {
          assert after[j] in multiset(rest);
          var k :| 0 <= k < |rest| && rest[k] == after[j];
          assert rest[k] == sorted[k + 1];
        }
      }
    }
  }

  lemma {:induction false} SortSorts(rows: seq<Row>)
    ensures Sorted(Sort(rows)) && multiset(Sort(rows)) == multiset(rows)
  {
    if rows != [] {
      SortSorts(rows[1..]);
      InsertSorts(rows[0], Sort(rows[1..]));
      assert rows == [rows[0]] + rows[1..];
    }
  }

  lemma {:induction false} InsertUnique(row: Row, sorted: seq<Row>)
    requires Unique(sorted) && forall r :: r in sorted ==> IdentityOf(r) != IdentityOf(row)
    ensures Unique(Insert(row, sorted))
    ensures forall r :: r in Insert(row, sorted) ==> r in sorted || r == row
  {
    if sorted != [] && Less(sorted[0], row) {
      var rest := sorted[1..];
      InsertUnique(row, rest);
      var after := Insert(row, rest);
      forall i | 0 <= i < |after|
        ensures IdentityOf(after[i]) != IdentityOf(sorted[0])
      {
        assert after[i] in after;
        if after[i] != row {
          var j :| 0 <= j < |rest| && rest[j] == after[i];
          assert rest[j] == sorted[j + 1];
        }
      }
    }
  }

  lemma {:induction false} SortUnique(rows: seq<Row>)
    requires Unique(rows)
    ensures Unique(Sort(rows))
    ensures forall r :: r in Sort(rows) ==> r in rows
  {
    if rows != [] {
      var rest := rows[1..];
      SortUnique(rest);
      forall r | r in Sort(rest)
        ensures IdentityOf(r) != IdentityOf(rows[0])
      {
        var j :| 0 <= j < |rest| && rest[j] == r;
        assert rest[j] == rows[j + 1];
      }
      InsertUnique(rows[0], Sort(rest));
    }
  }

  // ------------------------------------------------------- a server that pages

  ghost predicate NewestFirst(rows: seq<Row>) {
    forall i, j :: 0 <= i < j < |rows| ==> Less(rows[j], rows[i])
  }

  // The history, newest first; every record can be pointed at by a cursor.
  ghost predicate Descending(history: seq<Row>) {
    && (forall i :: 0 <= i < |history| ==> history[i].time.Some? && history[i].id.Some?)
    && NewestFirst(history)
  }

  // The record comes after the cursor in the descending walk.
  predicate Below(row: Row, p: Position)
    requires row.time.Some? && row.id.Some?
  {
    || row.time.value < p.time
    || (row.time.value == p.time
        && (p.TimeOnly? || row.id.value < p.id || (row.id.value == p.id && Number(row.ordinal) < p.ordinal)))
  }

  function PositionOf(row: Row): Position
    requires row.time.Some? && row.id.Some?
  {
    Exact(row.time.value, row.id.value, Number(row.ordinal))
  }

  function Rest(history: seq<Row>, p: Position): seq<Row>
    requires forall i :: 0 <= i < |history| ==> history[i].time.Some? && history[i].id.Some?
  {
    if history == [] || Below(history[0], p) then history else Rest(history[1..], p)
  }

  // Each answer is a beginning of what lies below the cursor, not empty unless
  // nothing is left; the next cursor is its last record.
  ghost predicate Answers(response: Response, history: seq<Row>, p: Position)
    requires Descending(history)
  {
    var rest := Rest(history, p);
    && response.Page?
    && response.rows <= rest
    && (rest != [] ==> response.rows != [])
    && response.hasMore == (|response.rows| < |rest|)
    && (response.hasMore ==> response.rows != [] && (RestIs(history, p); response.next == Some(PositionOf(response.rows[|response.rows| - 1]))))
  }

  ghost predicate Serves(fetch: Position -> Response, history: seq<Row>) {
    Descending(history) && forall p :: Answers(fetch(p), history, p)
  }

  lemma {:induction false} RestIs(history: seq<Row>, p: Position)
    requires Descending(history)
    ensures |Rest(history, p)| <= |history| && Rest(history, p) == history[|history| - |Rest(history, p)|..]
    ensures forall i :: 0 <= i < |history| ==> (Below(history[i], p) <==> i >= |history| - |Rest(history, p)|)
  {
    if history != [] {
      if Below(history[0], p) {
        assert forall i :: 1 <= i < |history| ==> Less(history[i], history[0]);
      } else {
        RestIs(history[1..], p);
        assert forall i :: 1 <= i < |history| ==> history[i] == history[1..][i - 1];
      }
    }
  }

  lemma BelowIsLess(row: Row, base: Row)
    requires row.time.Some? && row.id.Some? && base.time.Some? && base.id.Some?
    ensures Below(row, PositionOf(base)) <==> Less(row, base)
    ensures !Less(base, base)
  {
  }

  lemma BelowAdvances(row: Row, p: Position)
    requires row.time.Some? && row.id.Some?
    ensures Below(row, p) ==> Advances(PositionOf(row), p)
  {
  }

  // Going on from the last record of a page leaves what the page left.
  lemma RestAfter(history: seq<Row>, p: Position, rows: seq<Row>)
    requires Descending(history) && rows != [] && rows <= Rest(history, p)
    ensures rows[|rows| - 1].time.Some? && rows[|rows| - 1].id.Some?
    ensures Rest(history, PositionOf(rows[|rows| - 1])) == Rest(history, p)[|rows|..]
    ensures Advances(PositionOf(rows[|rows| - 1]), p)
  {
    hide Less, Below, Advances, Rest, PositionOf;
    RestIs(history, p);
    var at := |history| - |Rest(history, p)| + |rows| - 1;
    assert rows[|rows| - 1] == Rest(history, p)[|rows| - 1] == history[at];
    var next := PositionOf(history[at]);
    BelowAdvances(history[at], p);
    RestIs(history, next);
    BelowIsLess(history[at], history[at]);
    if at + 1 < |history| {
      BelowIsLess(history[at + 1], history[at]);
    }
    assert |history| - |Rest(history, next)| == at + 1;
  }

  function Wanted(rows: seq<Row>, start: int, end: int): seq<Row> {
    if rows == [] then []
    else Wanted(rows[..|rows| - 1], start, end) + (if InRange(rows[|rows| - 1], start, end) then [rows[|rows| - 1]] else [])
  }

  function Reverse(rows: seq<Row>): seq<Row> {
    if rows == [] then [] else Reverse(rows[1..]) + [rows[0]]
  }

  // ------------------------------------------------------------------- a page

  function PutAll(records: seq<Row>, rows: seq<Row>, start: int, end: int): seq<Row> {
    if rows == [] then records
    else
      var before, row := PutAll(records, rows[..|rows| - 1], start, end), rows[|rows| - 1];
      if InRange(row, start, end) then Put(before, row) else before
  }

  method AddPage(records: seq<Row>, rows: seq<Row>, start: int, end: int) returns (after: seq<Row>)
    ensures after == PutAll(records, rows, start, end)
  {
    after := records;
    for i := 0 to |rows|
      invariant after == PutAll(records, rows[..i], start, end)
    {
      assert rows[..i + 1][..i] == rows[..i];
      if rows[i].time.Some? && rows[i].time.value >= start && rows[i].time.value <= end {
        after := Put(after, rows[i]);
      }
    }
    assert rows[..|rows|] == rows;
  }

  lemma {:induction false} PutAllKeeps(records: seq<Row>, rows: seq<Row>, start: int, end: int)
    requires Unique(records) && AllInRange(records, start, end)
    ensures Unique(PutAll(records, rows, start, end)) && AllInRange(PutAll(records, rows, start, end), start, end)
  {
    if rows != [] {
      PutAllKeeps(records, rows[..|rows| - 1], start, end);
      PutKeepsUnique(PutAll(records, rows[..|rows| - 1], start, end), rows[|rows| - 1]);
    }
  }

  lemma {:induction false} PutNew(records: seq<Row>, row: Row)
    requires forall r :: r in records ==> IdentityOf(r) != IdentityOf(row)
    ensures Put(records, row) == records + [row]
  {
    if records != [] {
      PutNew(records[1..], row);
    }
  }

  lemma {:induction false} WantedAreRows(rows: seq<Row>, start: int, end: int)
    ensures forall r :: r in Wanted(rows, start, end) ==> r in rows
  {
    if rows != [] {
      WantedAreRows(rows[..|rows| - 1], start, end);
    }
  }

  // Records of a descending history are all new to the table.
  lemma {:induction false} PutAllWanted(history: seq<Row>, n: nat, m: nat, start: int, end: int)
    requires Descending(history) && n <= m <= |history|
    ensures PutAll(Wanted(history[..n], start, end), history[n..m], start, end) == Wanted(history[..m], start, end)
    decreases m - n
  {
    if n < m {
      PutAllWanted(history, n, m - 1, start, end);
      assert history[n..m][..m - 1 - n] == history[n..m - 1] && history[..m][..m - 1] == history[..m - 1];
      var before := Wanted(history[..m - 1], start, end);
      WantedAreRows(history[..m - 1], start, end);
      forall r | r in before
        ensures IdentityOf(r) != IdentityOf(history[m - 1])
      {
        var i :| 0 <= i < m - 1 && history[i] == r;
        assert Less(history[m - 1], history[i]);
      }
      PutNew(before, history[m - 1]);
    }
  }

  lemma {:induction false} NothingWanted(rows: seq<Row>, n: nat, start: int, end: int)
    requires n <= |rows| && forall i :: n <= i < |rows| ==> !InRange(rows[i], start, end)
    ensures Wanted(rows, start, end) == Wanted(rows[..n], start, end)
  {
    if n < |rows| {
      var front := rows[..|rows| - 1];
      NothingWanted(front, n, start, end);
      assert front[..n] == rows[..n];
    } else {
      assert rows[..n] == rows;
    }
  }

  // ---------------------------------------------------------------- sorting back

  lemma {:induction false} InsertLast(row: Row, sorted: seq<Row>)
    requires forall r :: r in sorted ==> Less(r, row)
    ensures Insert(row, sorted) == sorted + [row]
  {
    if sorted != [] {
      InsertLast(row, sorted[1..]);
    }
  }

  lemma {:induction false} SortReverses(rows: seq<Row>)
    requires NewestFirst(rows)
    ensures Sort(rows) == Reverse(rows)
    ensures forall r :: r in Sort(rows) ==> r in rows
  {
    if rows != [] {
      var rest := rows[1..];
      SortReverses(rest);
      forall r | r in Sort(rest)
        ensures Less(r, rows[0])
      {
        var j :| 0 <= j < |rest| && rest[j] == r;
        assert rest[j] == rows[j + 1];
      }
      InsertLast(rows[0], Sort(rest));
    }
  }

  lemma OldestLast(rows: seq<Row>, row: Row)
    requires NewestFirst(rows) && forall i :: 0 <= i < |rows| ==> Less(row, rows[i])
    ensures NewestFirst(rows + [row]) && NewestFirst(rows + [])
  {
    assert rows + [] == rows;
  }

  lemma {:induction false} WantedDescends(rows: seq<Row>, start: int, end: int)
    requires NewestFirst(rows)
    ensures NewestFirst(Wanted(rows, start, end))
  {
    if rows != [] {
      var front := rows[..|rows| - 1];
      assert forall i :: 0 <= i < |front| ==> front[i] == rows[i];
      WantedDescends(front, start, end);
      WantedAreRows(front, start, end);
      var wanted := Wanted(front, start, end);
      forall i | 0 <= i < |wanted|
        ensures Less(rows[|rows| - 1], wanted[i])
      {
        assert wanted[i] in wanted;
        var k :| 0 <= k < |front| && front[k] == wanted[i];
        assert rows[k] == front[k];
      }
      OldestLast(wanted, rows[|rows| - 1]);
    }
  }

  // ---------------------------------------------------------------- the collection

  function PageLimit(maxPages: Option<int>): nat
  {
    var wanted := if maxPages.Some? then maxPages.value else MAX_PAGES;
    var atLeastOne := if wanted < 1 then 1 else wanted;
    if atLeastOne < MAX_PAGES then atLeastOne else MAX_PAGES
  }

  predicate ValidRange(start: Option<int>, end: Option<int>) {
    start.Some? && end.Some? && start.value <= end.value
  }

  ghost predicate Falling(asked: seq<Position>) {
    forall i, j :: 0 <= i < j < |asked| ==> Advances(asked[j], asked[i])
  }

  ghost predicate BeyondAll(position: Position, asked: seq<Position>) {
    forall i :: 0 <= i < |asked| ==> Advances(position, asked[i])
  }

  lemma FallingOn(position: Position, asked: seq<Position>)
    requires Falling(asked) && BeyondAll(position, asked)
    ensures Falling(asked + [position])
  {
  }

  lemma BeyondNext(next: Position, position: Position, asked: seq<Position>)
    requires |asked| > 0 && asked[|asked| - 1] == position && BeyondAll(position, asked[..|asked| - 1]) && Advances(next, position)
    ensures BeyondAll(next, asked)
  {
    forall i | 0 <= i < |asked| - 1
      ensures Advances(next, asked[i])
    {
      assert Advances(position, asked[..|asked| - 1][i]);
    }
  }

  // How far a walk over a paging server has come: n records seen and kept, the
  // rest still below the position.
  ghost predicate Seen(history: seq<Row>, first: Position, position: Position, records: seq<Row>, n: nat, start: int, end: int)
  {
    && Descending(history)
    && n <= |Rest(history, first)|
    && Rest(history, position) == Rest(history, first)[n..]
    && records == Wanted(Rest(history, first)[..n], start, end)
  }

  lemma SeenNothing(fetch: Position -> Response, history: seq<Row>, first: Position, start: int, end: int)
    requires Serves(fetch, history)
    ensures Seen(history, first, first, [], 0, start, end)
  {
    assert Rest(history, first)[0..] == Rest(history, first) && Rest(history, first)[..0] == [];
  }

  lemma RestDescends(history: seq<Row>, p: Position)
    requires Descending(history)
    ensures Descending(Rest(history, p))
  {
    RestIs(history, p);
  }

  // One page of a paging server.
  lemma PageSeen(fetch: Position -> Response, history: seq<Row>, first: Position, position: Position, records: seq<Row>, n: nat,
                 start: int, end: int)
    requires Serves(fetch, history) && Seen(history, first, position, records, n, start, end)
    ensures fetch(position).Page?
    ensures var page := fetch(position);
            var after := PutAll(records, page.rows, start, end);
            && n + |page.rows| <= |Rest(history, first)|
            && after == Wanted(Rest(history, first)[..n + |page.rows|], start, end)
            && (!page.hasMore ==> after == Wanted(Rest(history, first), start, end))
            && (page.hasMore ==>
                  && page.next.Some? && Advances(page.next.value, position)
                  && Seen(history, first, page.next.value, after, n + |page.rows|, start, end))
  {
    hide Wanted, PutAll, Less, Advances, Below;
    var all, page := Rest(history, first), fetch(position);
    assert Answers(page, history, position);
    RestDescends(history, first);
    var m := n + |page.rows|;
    assert page.rows == Rest(history, position)[..|page.rows|] == all[n..m];
    PutAllWanted(all, n, m, start, end);
    assert all[..|all|] == all;
    if page.hasMore {
      RestAfter(history, position, page.rows);
      assert all[n..][|page.rows|..] == all[m..];
    }
  }

  lemma BelowStart(history: seq<Row>, first: Position, position: Position, records: seq<Row>, n: nat, start: int, end: int)
    requires Seen(history, first, position, records, n, start, end) && position.time < start
    ensures records == Wanted(Rest(history, first), start, end)
  {
    var all := Rest(history, first);
    RestIs(history, position);
    forall i | n <= i < |all|
      ensures !InRange(all[i], start, end)
    {
      assert all[i] == Rest(history, position)[i - n];
      assert Rest(history, position)[i - n] == history[|history| - |Rest(history, position)| + i - n];
    }
    NothingWanted(all, n, start, end);
  }

  // What is collected from a paging server, oldest first.
  ghost function Collected(history: seq<Row>, first: Position, start: int, end: int): seq<Row>
    requires Descending(history)
  {
    Reverse(Wanted(Rest(history, first), start, end))
  }

  lemma SortedIsCollected(history: seq<Row>, first: Position, start: int, end: int)
    requires Descending(history)
    ensures Sort(Wanted(Rest(history, first), start, end)) == Collected(history, first, start, end)
  {
    RestDescends(history, first);
    WantedDescends(Rest(history, first), start, end);
    SortReverses(Wanted(Rest(history, first), start, end));
  }

  lemma PageDone(fetch: Position -> Response, history: seq<Row>, first: Position, position: Position, records: seq<Row>, n: nat,
                 start: int, end: int)
    requires Serves(fetch, history) && Seen(history, first, position, records, n, start, end)
    ensures fetch(position).Page?
    ensures var page := fetch(position);
            var after := PutAll(records, page.rows, start, end);
            if !page.hasMore then Sort(after) == Collected(history, first, start, end)
            else
              && page.next.Some? && Advances(page.next.value, position)
              && Seen(history, first, page.next.value, after, n + |page.rows|, start, end)
              && (page.next.value.time < start ==> Sort(after) == Collected(history, first, start, end))
  {
    hide Seen, Wanted, PutAll, Rest, Sort, Collected, Advances, Answers;
    var page := fetch(position);
    PageSeen(fetch, history, first, position, records, n, start, end);
    SortedIsCollected(history, first, start, end);
    if page.hasMore && page.next.value.time < start {
      BelowStart(history, first, page.next.value, PutAll(records, page.rows, start, end), n + |page.rows|, start, end);
    }
  }

  lemma Finished(records: seq<Row>, start: int, end: int)
    requires Unique(records) && AllInRange(records, start, end)
    ensures Sorted(Sort(records)) && Unique(Sort(records)) && AllInRange(Sort(records), start, end)
  {
    SortSorts(records);
    SortUnique(records);
  }

  ghost predicate Proper(outcome: Outcome, from: int, to: int) {
    outcome.Rows? ==> Sorted(outcome.rows) && Unique(outcome.rows) && AllInRange(outcome.rows, from, to)
  }

  ghost predicate Exactly(outcome: Outcome, history: seq<Row>, first: Position, from: int, to: int)
    requires Descending(history)
  {
    if outcome.Rows? then outcome.rows == Collected(history, first, from, to) else outcome.reason == TooMany
  }

  method WalkPages(fetch: Position -> Response, from: int, to: int, first: Position, limit: nat, ghost history: seq<Row>)
    returns (outcome: Outcome, ghost asked: seq<Position>)
    ensures |asked| <= limit && Falling(asked)
    ensures Proper(outcome, from, to)
    ensures Serves(fetch, history) ==> Exactly(outcome, history, first, from, to) && (outcome.Failed? ==> |asked| == limit)
  {
    var records: seq<Row> := [];
    var position := first;
    ghost var n: nat, serves := 0, Serves(fetch, history);
    asked := [];
    assert Unique(records) && AllInRange(records, from, to) && Falling(asked) && BeyondAll(position, asked);
    hide Serves, Seen, Wanted, Rest, Sort, PutAll, Collected, Unique, Sorted, AllInRange, Less, Falling, BeyondAll, Advances, InRange;
    if serves {
      SeenNothing(fetch, history, position, from, to);
    }
    for page := 0 to limit
      invariant |asked| == page && Falling(asked)
      invariant BeyondAll(position, asked)
      invariant Unique(records) && AllInRange(records, from, to)
      invariant serves ==> Seen(history, first, position, records, n, from, to)
    {
      var response := fetch(position);
      FallingOn(position, asked);
      asked := asked + [position];
      if serves {
        PageDone(fetch, history, first, position, records, n, from, to);
      }
      if response.Malformed? {
        return Failed(BadResponse), asked;
      }
      PutAllKeeps(records, response.rows, from, to);
      records := AddPage(records, response.rows, from, to);
      Finished(records, from, to);
      if !response.hasMore {
        return Rows(Sort(records)), asked;
      }
      if response.next.None? || !Advances(response.next.value, position) {
        return Failed(BadCursor), asked;
      }
      n := n + |response.rows|;
      BeyondNext(response.next.value, position, asked);
      if response.next.value.time < from {
        return Rows(Sort(records)), asked;
      }
      position := response.next.value;
    }
    return Failed(TooMany), asked;
  }

  // From any server: at most 32 pages under falling cursors, and a result that
  // is sorted, without duplicates and within the range. From a paging server:
  // exactly the records of the range, or a failure that says there are too
  // many pages; never a silent truncation.
  method CollectCursorHistory(fetch: Position -> Response, start: Option<int>, end: Option<int>, cursor: Option<Position>,
                              maxPages: Option<int>, ghost history: seq<Row>)
    returns (outcome: Outcome, ghost asked: seq<Position>)
    ensures |asked| <= PageLimit(maxPages) <= MAX_PAGES && Falling(asked)
    ensures outcome.Rows? ==> ValidRange(start, end) && cursor.Some? && Proper(outcome, start.value, end.value)
    ensures ValidRange(start, end) && cursor.Some? && Serves(fetch, history) ==>
              && Exactly(outcome, history, cursor.value, start.value, end.value)
              && (outcome.Failed? ==> |asked| == PageLimit(maxPages))
  {
    if start.None? || end.None? || start.value > end.value {
      return Failed(BadRange), [];
    }
    if cursor.None? {
      return Failed(BadCursor), [];
    }
    outcome, asked := WalkPages(fetch, start.value, end.value, cursor.value, PageLimit(maxPages), history);
  }
}
