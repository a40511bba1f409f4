// Counting the processors of a CPU list such as "0-3,8,2-5".
module CpuSet {

  datatype Option<T> = None | Some(value: T)

  datatype Range = Range(first: int, last: int)

  const MAX_CPU := 1_048_575

  // One comma-separated part: its ends as parsed, None where that failed.
  type Part = seq<Option<int>>

  function Span(first: int, last: int): (span: set<int>)
    ensures forall cpu :: cpu in span <==> first <= cpu <= last
    decreases last - first + 1
  {
    if first <= last then Span(first, last - 1) + {last} else {}
  }

  function Processors(r: Range): set<int> {
    Span(r.first, r.last)
  }

  function Union(ranges: seq<Range>): set<int> {
    if ranges == [] then {} else Union(ranges[..|ranges| - 1]) + Processors(ranges[|ranges| - 1])
  }

  // ------------------------------------------------------------------ parsing

  predicate InBounds(end: Option<int>, least: int) {
    end.Some? && least <= end.value <= MAX_CPU
  }

  predicate IsRange(part: Part) {
    && 1 <= |part| <= 2 && InBounds(part[0], 0)
    && (|part| == 2 ==> InBounds(part[1], part[0].value))
  }

  function RangeOf(part: Part): Range
    requires IsRange(part)
  {
    Range(part[0].value, if |part| == 2 then part[1].value else part[0].value)
  }

  ghost predicate AllRanges(parts: seq<Part>) {
    forall i :: 0 <= i < |parts| ==> IsRange(parts[i])
  }

  ghost predicate AreRanges(ranges: seq<Range>, parts: seq<Part>) {
    && |ranges| == |parts| && AllRanges(parts)
    && forall i :: 0 <= i < |parts| ==> ranges[i] == RangeOf(parts[i])
  }

  // ------------------------------------------------------------------ sorting

  function Insert(r: Range, sorted: seq<Range>): seq<Range> {
    if sorted == [] || r.first <= sorted[0].first then [r] + sorted else [sorted[0]] + Insert(r, sorted[1..])
  }

  function Sort(ranges: seq<Range>): seq<Range> {
    if ranges == [] then [] else Insert(ranges[|ranges| - 1], Sort(ranges[..|ranges| - 1]))
  }

  ghost predicate Sorted(ranges: seq<Range>) {
    forall i, j :: 0 <= i < j < |ranges| ==> ranges[i].first <= ranges[j].first
  }

  lemma {:induction false} UnionPrepend(r: Range, ranges: seq<Range>)
    ensures Union([r] + ranges) == Processors(r) + Union(ranges)
  {
    if ranges == [] {
      assert [r] + ranges == [r] && [r][..0] == [];
    } else {
      assert ([r] + ranges)[..|ranges|] == [r] + ranges[..|ranges| - 1];
      UnionPrepend(r, ranges[..|ranges| - 1]);
    }
  }

  lemma {:induction false} InsertUnion(r: Range, sorted: seq<Range>)
    ensures Union(Insert(r, sorted)) == Union(sorted) + Processors(r)
    ensures forall x :: x in Insert(r, sorted) <==> x == r || x in sorted
  {
    hide Union, Processors;
    if sorted == [] || r.first <= sorted[0].first {
      UnionPrepend(r, sorted);
    } else {
      var rest := sorted[1..];
      InsertUnion(r, rest);
      UnionPrepend(sorted[0], rest);
      UnionPrepend(sorted[0], Insert(r, rest));
      assert sorted == [sorted[0]] + rest;
    }
  }

  lemma {:induction false} InsertSorts(r: Range, sorted: seq<Range>)
    requires Sorted(sorted)
    ensures Sorted(Insert(r, sorted))
  {
    if sorted != [] && sorted[0].first < r.first {
      var rest := sorted[1..];
      InsertSorts(r, rest);
      InsertUnion(r, rest);
      var after := Insert(r, rest);
      forall j | 0 <= j < |after|
        ensures sorted[0].first <= after[j].first
      {
        assert after[j] in after;
        if after[j] != r {
          var k :| 0 <= k < |rest| && rest[k] == after[j];
          assert rest[k] == sorted[k + 1];
        }
      }
    }
  }

  // Sorting changes the order only: the union stays.
  lemma {:induction false} SortKeeps(ranges: seq<Range>)
    ensures Sorted(Sort(ranges)) && Union(Sort(ranges)) == Union(ranges)
    ensures forall x :: x in Sort(ranges) <==> x in ranges
  {
    hide Processors;
    if ranges != [] {
      var front := ranges[..|ranges| - 1];
      SortKeeps(front);
      InsertSorts(ranges[|ranges| - 1], Sort(front));
      InsertUnion(ranges[|ranges| - 1], Sort(front));
      assert ranges == front + [ranges[|ranges| - 1]];
    }
  }

  // ----------------------------------------------------------------- counting

  lemma {:induction false} SpanSize(first: int, last: int)
    requires first <= last + 1
    ensures |Span(first, last)| == last - first + 1
    decreases last - first + 1
  {
    if first <= last {
      SpanSize(first, last - 1);
      assert last !in Span(first, last - 1);
    }
  }

  // The sweep has counted the union of the ranges seen, which ends at `end`.
  ghost predicate Swept(seen: set<int>, sorted: seq<Range>, i: nat, count: int, end: int) {
    && count == |seen|
    && (forall cpu :: cpu in seen ==> cpu <= end)
    && (end >= 0 ==> exists first :: first <= end && Reaches(seen, first, end, sorted, i))
    && (end < 0 ==> end == -1 && seen == {})
  }

  // All processors from `first` to `end` are seen, and no later range starts
  // before `first`.
  ghost predicate Reaches(seen: set<int>, first: int, end: int, sorted: seq<Range>, i: nat) {
    && (forall cpu :: first <= cpu <= end ==> cpu in seen)
    && (forall j :: i <= j < |sorted| ==> first <= sorted[j].first)
  }

  lemma SweepSkips(seen: set<int>, sorted: seq<Range>, i: nat, count: int, end: int)
    requires Sorted(sorted) && i < |sorted| && 0 <= sorted[i].first <= sorted[i].last <= end
    requires Swept(seen, sorted, i, count, end)
    ensures Swept(seen + Processors(sorted[i]), sorted, i + 1, count, end)
  {
    var first :| first <= end && Reaches(seen, first, end, sorted, i);
    assert seen + Processors(sorted[i]) == seen;
    assert Reaches(seen, first, end, sorted, i + 1);
  }

  // What a range adds beyond `end`.
  lemma NewOnes(seen: set<int>, r: Range, first: int, end: int)
    requires forall cpu :: cpu in seen ==> cpu <= end
    requires forall cpu :: first <= cpu <= end ==> cpu in seen
    requires end < r.last && r.first <= r.last && (first <= r.first || end < r.first)
    ensures var from := if r.first <= end then end + 1 else r.first;
            && seen + Processors(r) == seen + Span(from, r.last)
            && |seen + Processors(r)| == |seen| + (r.last - from + 1)
  {
    var from := if r.first <= end then end + 1 else r.first;
    var added := Span(from, r.last);
    SpanSize(from, r.last);
    assert seen !! added;
    assert |seen + added| == |seen| + |added|;
    forall cpu | cpu in Processors(r)
      ensures cpu in seen + added
    {
    }
    assert seen + Processors(r) == seen + added;
  }

  lemma SweepAdds(seen: set<int>, sorted: seq<Range>, i: nat, count: int, end: int)
    requires Sorted(sorted) && i < |sorted| && 0 <= sorted[i].first <= sorted[i].last && end < sorted[i].last
    requires Swept(seen, sorted, i, count, end)
    ensures var r := sorted[i];
            var from := if r.first <= end then end + 1 else r.first;
            Swept(seen + Processors(r), sorted, i + 1, count + (r.last - from + 1), r.last)
  {
    hide Span;
    var r := sorted[i];
    if end >= 0 {
      var first :| first <= end && Reaches(seen, first, end, sorted, i);
      NewOnes(seen, r, first, end);
    } else {
      NewOnes(seen, r, 0, end);
    }
    assert Reaches(seen + Processors(r), r.first, r.last, sorted, i + 1);
  }

  method ParseRanges(parts: seq<Part>) returns (ranges: seq<Range>, ok: bool)
    ensures ok <==> AllRanges(parts)
    ensures ok ==> AreRanges(ranges, parts)
  {
    ranges := [];
    for i := 0 to |parts|
      invariant AreRanges(ranges, parts[..i])
    {
      var ends := parts[i];
      assert parts[..i + 1] == parts[..i] + [ends];
      if |ends| < 1 || |ends| > 2 || ends[0].None? || ends[0].value < 0 || ends[0].value > MAX_CPU {
        assert !IsRange(parts[i]);
        return ranges, false;
      }
      var first, last := ends[0].value, ends[0].value;
      if |ends| == 2 {
        if ends[1].None? || ends[1].value < first || ends[1].value > MAX_CPU {
          assert !IsRange(parts[i]);
          return ranges, false;
        }
        last := ends[1].value;
      }
      ranges := ranges + [Range(first, last)];
    }
    assert parts[..|parts|] == parts;
    ok := true;
  }

  // The sweep over the sorted ranges.
  method CountUnion(sorted: seq<Range>) returns (count: int)
    requires Sorted(sorted) && forall i :: 0 <= i < |sorted| ==> 0 <= sorted[i].first <= sorted[i].last
    ensures count == |Union(sorted)| && (sorted != [] ==> count > 0)
  {
    hide Swept, Union, Sorted;
    var end := -1;
    count := 0;
    NothingSwept(sorted);
    for i := 0 to |sorted|
      invariant Swept(Union(sorted[..i]), sorted, i, count, end)
      invariant count >= 0 && (i > 0 ==> count > 0)
    {
      UnionNext(sorted, i);
      var item := sorted[i];
      if item.last <= end {
        SweepSkips(Union(sorted[..i]), sorted, i, count, end);
        SweptSomething(Union(sorted[..i]), sorted, i, count, end);
        continue;
      }
      SweepAdds(Union(sorted[..i]), sorted, i, count, end);
      var first := item.first;
      if first <= end {
        first := end + 1;
      }
      count := count + (item.last - first + 1);
      end := item.last;
    }
    AllSwept(sorted, count, end);
  }

  lemma NothingSwept(sorted: seq<Range>)
    ensures Swept(Union(sorted[..0]), sorted, 0, 0, -1)
  {
  }

  lemma UnionNext(sorted: seq<Range>, i: nat)
    requires i < |sorted|
    ensures Union(sorted[..i + 1]) == Union(sorted[..i]) + Processors(sorted[i])
  {
    assert sorted[..i + 1][..i] == sorted[..i];
  }

  lemma SweptSomething(seen: set<int>, sorted: seq<Range>, i: nat, count: int, end: int)
    requires Swept(seen, sorted, i, count, end) && end >= 0
    ensures count > 0
  {
    var first :| first <= end && Reaches(seen, first, end, sorted, i);
    assert end in seen;
  }

  lemma AllSwept(sorted: seq<Range>, count: int, end: int)
    requires Swept(Union(sorted[..|sorted|]), sorted, |sorted|, count, end)
    ensures count == |Union(sorted)|
  {
    assert sorted[..|sorted|] == sorted;
  }

  // The list is valid exactly when every part is a range within bounds; the
  // count is then the size of the union, whatever the order and overlap.
  method CpuSetCount(parts: seq<Part>) returns (count: int, ok: bool, ghost ranges: seq<Range>)
    ensures ok <==> AllRanges(parts) && parts != []
    ensures ok ==> AreRanges(ranges, parts) && count == |Union(ranges)|
    ensures !ok ==> count == 0
  {
    var found, valid := ParseRanges(parts);
    ranges := found;
    if !valid {
      return 0, false, found;
    }
    var sorted := Sort(found);
    SortKeeps(found);
    forall i | 0 <= i < |sorted|
      ensures 0 <= sorted[i].first <= sorted[i].last
    {
      assert sorted[i] in found;
    }
    count := CountUnion(sorted);
    ok := count > 0;
    assert found != [] ==> found[0] in sorted;
  }
}
