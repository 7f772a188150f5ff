/** storage/repository.py, interval helpers: the coverage rows of one session, the rows of
    one manifest, and the next chunk of sequence numbers to request. Rows are kept in
    start order, the order in which every query reads them. */
module Coverage {
  import opened Ranges
  import opened Chunks
  import opened Wrappers
  import M = Models

  const CHUNK_SIZE: nat := 1000

  /** `_coverage_for`: the rows that meet lo..hi. */
  function RowsMeeting(rows: seq<Interval>, lo: int, hi: int): (out: seq<Interval>)
    ensures forall r :: r in out <==> r in rows && r.hi >= lo && r.lo <= hi
  {
    if rows == [] then []
    else
      assert rows == [rows[0]] + rows[1..];
      if rows[0].hi >= lo && rows[0].lo <= hi
      then [rows[0]] + RowsMeeting(rows[1..], lo, hi)
      else RowsMeeting(rows[1..], lo, hi)
  }

  /** The rows a DELETE with the same condition leaves. */
  function RowsClearOf(rows: seq<Interval>, lo: int, hi: int): (out: seq<Interval>)
    ensures forall r :: r in out <==> r in rows && !(r.hi >= lo && r.lo <= hi)
  {
    if rows == [] then []
    else
      assert rows == [rows[0]] + rows[1..];
      if rows[0].hi >= lo && rows[0].lo <= hi
      then RowsClearOf(rows[1..], lo, hi)
      else [rows[0]] + RowsClearOf(rows[1..], lo, hi)
  }

  lemma {:induction false} RowsMeetingFacts(rows: seq<Interval>, lo: int, hi: int)
    requires Canonical(rows)
    ensures Canonical(RowsMeeting(rows, lo, hi))
    ensures forall x | HeadAbove(rows, x) :: HeadAbove(RowsMeeting(rows, lo, hi), x)
    ensures Span(lo, hi) - Elems(RowsMeeting(rows, lo, hi)) == Span(lo, hi) - Elems(rows)
    decreases |rows|
  {
    if rows != [] {
      RowsMeetingFacts(rows[1..], lo, hi);
      if rows[0].hi >= lo && rows[0].lo <= hi {
        CanonicalCons(rows[0], RowsMeeting(rows[1..], lo, hi));
        ElemsCons(rows[0], RowsMeeting(rows[1..], lo, hi));
      } else {
        assert Span(lo, hi) * Span(rows[0].lo, rows[0].hi) == {};
        forall x | HeadAbove(rows, x)
          ensures HeadAbove(RowsMeeting(rows[1..], lo, hi), x)
        {
          assert HeadAbove(rows[1..], x);
        }
      }
    }
  }

  lemma {:induction false} RowsClearOfFacts(rows: seq<Interval>, lo: int, hi: int)
    requires Canonical(rows)
    ensures Canonical(RowsClearOf(rows, lo, hi))
    ensures forall x | HeadAbove(rows, x) :: HeadAbove(RowsClearOf(rows, lo, hi), x)
    decreases |rows|
  {
    if rows != [] {
      RowsClearOfFacts(rows[1..], lo, hi);
      if rows[0].hi >= lo && rows[0].lo <= hi {
        forall x | HeadAbove(rows, x)
          ensures HeadAbove(RowsClearOf(rows[1..], lo, hi), x)
        {
          assert HeadAbove(rows[1..], x);
        }
      } else {
        CanonicalCons(rows[0], RowsClearOf(rows[1..], lo, hi));
      }
    }
  }

  /** The two conditions split the rows, so nothing denoted is lost or added. */
  lemma {:induction false} RowsSplit(rows: seq<Interval>, lo: int, hi: int)
    ensures Elems(rows) == Elems(RowsClearOf(rows, lo, hi)) + Elems(RowsMeeting(rows, lo, hi))
    decreases |rows|
  {
    if rows != [] {
      RowsSplit(rows[1..], lo, hi);
      if rows[0].hi >= lo && rows[0].lo <= hi {
        ElemsCons(rows[0], RowsMeeting(rows[1..], lo, hi));
      } else {
        ElemsCons(rows[0], RowsClearOf(rows[1..], lo, hi));
      }
    }
  }

  /** An INSERT, read back in start order. */
  function RowInserted(rows: seq<Interval>, r: Interval): seq<Interval> {
    if rows == [] || r.lo < rows[0].lo then [r] + rows else [rows[0]] + RowInserted(rows[1..], r)
  }

  lemma {:induction false} RowInsertedFacts(rows: seq<Interval>, r: Interval)
    requires Canonical(rows) && r.lo <= r.hi
    requires forall q | q in rows :: q.hi < r.lo - 1 || q.lo > r.hi + 1
    ensures Canonical(RowInserted(rows, r))
    ensures Elems(RowInserted(rows, r)) == Elems(rows) + Span(r.lo, r.hi)
    ensures forall x | HeadAbove(rows, x) && x + 1 < r.lo :: HeadAbove(RowInserted(rows, r), x)
    decreases |rows|
  {
    if rows == [] || r.lo < rows[0].lo {
      assert rows != [] ==> rows[0] in rows;
      CanonicalCons(r, rows);
      ElemsCons(r, rows);
    } else {
      assert forall q | q in rows[1..] :: q in rows;
      RowInsertedFacts(rows[1..], r);
      assert rows[0] in rows;
      CanonicalCons(rows[0], RowInserted(rows[1..], r));
      ElemsCons(rows[0], RowInserted(rows[1..], r));
    }
  }

  /** The uncovered runs of start..next-1 are in the list, and nothing at or after next. */
  ghost predicate UncoveredBelow(missing: seq<Interval>, start: int, next: int, covered: set<int>) {
    && Canonical(missing)
    && Elems(missing) == Span(start, next - 1) - covered
    && EndsBelow(missing, next)
  }

  lemma UncoveredStep(missing: seq<Interval>, start: int, current: int, stop: int, covered: set<int>)
    requires UncoveredBelow(missing, start, current, covered)
    requires start <= current <= stop && EndsBelow(missing, current - 1)
    requires forall x | current <= x < stop :: x !in covered
    ensures UncoveredBelow(Extended(missing, current, stop - 1), start, stop, covered)
  {
    assert Span(start, stop - 1) - covered == (Span(start, current - 1) - covered) + Span(current, stop - 1);
    if current < stop {
      M.ElemsLast(missing, Interval(current, stop - 1));
      M.CanonicalLast(missing, Interval(current, stop - 1));
    }
  }

  lemma CoveredStep(missing: seq<Interval>, start: int, current: int, next: int, covered: set<int>)
    requires UncoveredBelow(missing, start, current, covered) && current <= next
    requires forall x | start <= x && current <= x < next :: x in covered
    ensures UncoveredBelow(missing, start, next, covered)
  {
    assert Span(start, next - 1) - covered == Span(start, current - 1) - covered;
  }

  lemma RowsAscend(rows: seq<Interval>)
    requires Canonical(rows)
    ensures forall i, j | 0 <= i <= j < |rows| :: rows[i].lo <= rows[j].lo && rows[i].hi <= rows[j].hi
    ensures forall i | 0 <= i < |rows| :: rows[i].lo <= rows[i].hi
  {
    CanonicalPairwise(rows);
    forall i, j | 0 <= i <= j < |rows|
      ensures rows[i].lo <= rows[j].lo && rows[i].hi <= rows[j].hi && rows[i].lo <= rows[i].hi
    {
      if i < j { assert rows[i].hi + 1 < rows[j].lo; }
    }
  }

  /** Numbers past every row before the k-th and below the k-th row are not covered. */
  lemma UncoveredBetween(rows: seq<Interval>, k: nat, lo: int, hi: int)
    requires Canonical(rows) && k <= |rows|
    requires forall i | 0 <= i < k :: rows[i].hi < lo
    requires k < |rows| && lo <= hi ==> hi < rows[k].lo
    ensures forall x | lo <= x <= hi :: x !in Elems(rows)
  {
    RowsAscend(rows);
    forall x | lo <= x <= hi
      ensures x !in Elems(rows)
    {
      InElems(rows, x);
    }
  }

  lemma RowCovers(rows: seq<Interval>, k: nat)
    requires k < |rows|
    ensures forall x | rows[k].lo <= x <= rows[k].hi :: x in Elems(rows)
  {
    forall x | rows[k].lo <= x <= rows[k].hi
      ensures x in Elems(rows)
    {
      InElems(rows, x);
    }
  }

  /** State of the subtraction loop before its k-th row. */
  ghost predicate Subtracting(missing: seq<Interval>, start: int, current: int, covered: seq<Interval>, k: int) {
    && 0 <= k <= |covered| && start <= current
    && UncoveredBelow(missing, start, current, Elems(covered))
    && EndsBelow(missing, current - 1)
    && forall i | 0 <= i < k :: covered[i].hi < current
  }

  /** The gap before the k-th row is uncovered. */
  lemma RowGap(missing: seq<Interval>, start: int, current: int, covered: seq<Interval>, k: int, stop: int)
    requires Canonical(covered) && Subtracting(missing, start, current, covered, k) && k < |covered|
    requires stop == Max(current, covered[k].lo)
    ensures UncoveredBelow(Extended(missing, current, stop - 1), start, stop, Elems(covered))
  {
    UncoveredBetween(covered, k, current, stop - 1);
    UncoveredStep(missing, start, current, stop, Elems(covered));
  }

  lemma RowSubtracted(missing: seq<Interval>, start: int, end: int, current: int, covered: seq<Interval>, k: int)
    requires Canonical(covered) && Subtracting(missing, start, current, covered, k)
    requires current <= end && k < |covered|
    requires current <= covered[k].hi && covered[k].lo <= end
    ensures covered[k].hi < end ==>
              Subtracting(Extended(missing, current, covered[k].lo - 1), start, covered[k].hi + 1, covered, k + 1)
    ensures covered[k].hi >= end ==>
              UncoveredBelow(Extended(missing, current, covered[k].lo - 1), start, end + 1, Elems(covered))
  {
    var out := Extended(missing, current, covered[k].lo - 1);
    RowsBehind(covered, k);
    GapBefore(missing, start, current, covered, k, out);
    RowPassed(out, start, end, Max(current, covered[k].lo), covered, k);
  }

  lemma GapBefore(missing: seq<Interval>, start: int, current: int, covered: seq<Interval>, k: int, out: seq<Interval>)
    requires Canonical(covered) && Subtracting(missing, start, current, covered, k) && k < |covered|
    requires out == Extended(missing, current, covered[k].lo - 1)
    ensures UncoveredBelow(out, start, Max(current, covered[k].lo), Elems(covered)) && start <= current
  {
    var stop := Max(current, covered[k].lo);
    assert out == Extended(missing, current, stop - 1);
    RowGap(missing, start, current, covered, k, stop);
  }

  lemma RowPassed(out: seq<Interval>, start: int, end: int, stop: int, covered: seq<Interval>, k: int)
    requires 0 <= k < |covered| && start <= stop
    requires UncoveredBelow(out, start, stop, Elems(covered))
    requires covered[k].lo <= stop <= Min(end, covered[k].hi)
    ensures UncoveredBelow(out, start, Min(end, covered[k].hi) + 1, Elems(covered))
    ensures EndsBelow(out, covered[k].hi)
  {
    RowCovers(covered, k);
    CoveredStep(out, start, stop, Min(end, covered[k].hi) + 1, Elems(covered));
  }

  lemma RowsBehind(rows: seq<Interval>, k: int)
    requires Canonical(rows) && 0 <= k < |rows|
    ensures forall i | 0 <= i <= k :: rows[i].hi < rows[k].hi + 1
    ensures rows[k].lo <= rows[k].hi
  {
    RowsAscend(rows);
  }

  lemma RestUncovered(missing: seq<Interval>, start: int, end: int, current: int, covered: seq<Interval>, k: int)
    requires Canonical(covered) && Subtracting(missing, start, current, covered, k)
    requires current <= end && (k < |covered| ==> end < covered[k].lo)
    ensures UncoveredBelow(Extended(missing, current, end), start, end + 1, Elems(covered))
  {
    UncoveredBetween(covered, k, current, end);
    UncoveredStep(missing, start, current, end + 1, Elems(covered));
  }

  /** `_subtract_coverage`: the maximal runs of start..end that the rows leave uncovered. */
  method SubtractCoverage(start: int, end: int, covered: seq<Interval>) returns (missing: seq<Interval>)
    requires Canonical(covered) && start <= end
    ensures missing == Canon(Span(start, end) - Elems(covered))
  {
    var current := start;
    missing := [];
    var k := 0;
    while k < |covered|
      invariant current <= end
      invariant Subtracting(missing, start, current, covered, k)
      decreases |covered| - k
    {
      var covStart, covEnd := covered[k].lo, covered[k].hi;
      if covEnd < current {
        k := k + 1;
        continue;
      }
      if covStart > end {
        break;
      }
      RowSubtracted(missing, start, end, current, covered, k);
      ghost var next := Extended(missing, current, covStart - 1);
      if covStart > current {
        missing := missing + [Interval(current, Min(end, covStart - 1))];
      }
      assert missing == next;
      current := Max(current, covEnd + 1);
      k := k + 1;
      if current > end {
        break;
      }
    }
    if current <= end {
      RestUncovered(missing, start, end, current, covered, k);
      missing := missing + [Interval(current, end)];
    }
    CanonOf(missing, Span(start, end) - Elems(covered));
  }

  lemma RowsSeparated(rows: seq<Interval>, q: Interval, r: Interval)
    requires Canonical(rows) && q in rows && r in rows
    ensures q == r || q.hi + 1 < r.lo || r.hi + 1 < q.lo
    ensures q.lo <= q.hi
  {
    CanonicalPairwise(rows);
    var i :| 0 <= i < |rows| && rows[i] == q;
    var j :| 0 <= j < |rows| && rows[j] == r;
    if i < j {
      assert rows[i].hi + 1 < rows[j].lo;
    } else if j < i {
      assert rows[j].hi + 1 < rows[i].lo;
    }
  }

  predicate StartsOne(rows: seq<Interval>, x: int) { exists r :: r in rows && r.lo == x }

  predicate EndsOne(rows: seq<Interval>, x: int) { exists r :: r in rows && r.hi == x }

  /** What is not touched by start..end stays clear of the merged interval. */
  lemma ClearOfMerged(rows: seq<Interval>, start: int, end: int, mergedStart: int, mergedEnd: int)
    requires Canonical(rows) && start <= end
    requires mergedStart == start || StartsOne(RowsMeeting(rows, start - 1, end + 1), mergedStart)
    requires mergedEnd == end || EndsOne(RowsMeeting(rows, start - 1, end + 1), mergedEnd)
    ensures forall q | q in RowsClearOf(rows, start - 1, end + 1) ::
              q.hi < mergedStart - 1 || q.lo > mergedEnd + 1
  {
    var meeting := RowsMeeting(rows, start - 1, end + 1);
    forall q | q in RowsClearOf(rows, start - 1, end + 1)
      ensures q.hi < mergedStart - 1 || q.lo > mergedEnd + 1
    {
      RowsSeparated(rows, q, q);
      if q.hi < start - 1 && mergedStart != start {
        var r :| r in meeting && r.lo == mergedStart;
        RowsSeparated(rows, q, r);
      }
      if q.lo > end + 1 && mergedEnd != end {
        var r :| r in meeting && r.hi == mergedEnd;
        RowsSeparated(rows, q, r);
      }
    }
  }

  lemma MergedTable(rows: seq<Interval>, start: int, end: int, mergedStart: int, mergedEnd: int)
    requires Canonical(rows) && start <= end && mergedStart <= start && end <= mergedEnd
    requires mergedStart == start || StartsOne(RowsMeeting(rows, start - 1, end + 1), mergedStart)
    requires mergedEnd == end || EndsOne(RowsMeeting(rows, start - 1, end + 1), mergedEnd)
    requires Span(mergedStart, mergedEnd) == Span(start, end) + Elems(RowsMeeting(rows, start - 1, end + 1))
    ensures RowInserted(RowsClearOf(rows, start - 1, end + 1), Interval(mergedStart, mergedEnd))
         == Canon(Elems(rows) + Span(start, end))
  {
    var kept := RowsClearOf(rows, start - 1, end + 1);
    RowsClearOfFacts(rows, start - 1, end + 1);
    RowsSplit(rows, start - 1, end + 1);
    ClearOfMerged(rows, start, end, mergedStart, mergedEnd);
    RowInsertedFacts(kept, Interval(mergedStart, mergedEnd));
    assert Elems(kept) + Span(mergedStart, mergedEnd) == Elems(rows) + Span(start, end);
    CanonOf(RowInserted(kept, Interval(mergedStart, mergedEnd)), Elems(rows) + Span(start, end));
  }

  /** State of the min/max loop over the touching rows. */
  ghost predicate Absorbing(meeting: seq<Interval>, k: int, start: int, end: int, mergedStart: int, mergedEnd: int) {
    && 0 <= k <= |meeting| && mergedStart <= start && end <= mergedEnd
    && Span(mergedStart, mergedEnd) == Span(start, end) + Elems(meeting[..k])
    && (mergedStart == start || StartsOne(meeting, mergedStart))
    && (mergedEnd == end || EndsOne(meeting, mergedEnd))
  }

  lemma AbsorbRow(meeting: seq<Interval>, k: int, start: int, end: int, mergedStart: int, mergedEnd: int)
    requires Absorbing(meeting, k, start, end, mergedStart, mergedEnd) && k < |meeting| && start <= end
    requires meeting[k].lo <= meeting[k].hi && meeting[k].hi >= start - 1 && meeting[k].lo <= end + 1
    ensures Absorbing(meeting, k + 1, start, end, Min(mergedStart, meeting[k].lo), Max(mergedEnd, meeting[k].hi))
  {
    var r := meeting[k];
    assert r in meeting;
    assert meeting[..k + 1] == meeting[..k] + [r];
    M.ElemsLast(meeting[..k], r);
    assert Span(mergedStart, mergedEnd) + Span(r.lo, r.hi)
        == Span(Min(mergedStart, r.lo), Max(mergedEnd, r.hi));
  }

  /** `_merge_coverage` on the rows of one session: DELETE what touches start..end, INSERT the
      merged interval. The table becomes the canonical rows of the enlarged coverage. */
  method MergeCoverage(rows: seq<Interval>, start: int, end: int) returns (table: seq<Interval>)
    requires Canonical(rows) && start <= end
    ensures table == Canon(Elems(rows) + Span(start, end))
  {
    var meeting := RowsMeeting(rows, start - 1, end + 1);
    var mergedStart, mergedEnd := start, end;
    assert meeting[..0] == [];
    for k := 0 to |meeting|
      invariant Absorbing(meeting, k, start, end, mergedStart, mergedEnd)
    {
      assert meeting[k] in meeting;
      RowsSeparated(rows, meeting[k], meeting[k]);
      AbsorbRow(meeting, k, start, end, mergedStart, mergedEnd);
      mergedStart := Min(mergedStart, meeting[k].lo);
      mergedEnd := Max(mergedEnd, meeting[k].hi);
    }
    assert meeting[..|meeting|] == meeting;
    MergedTable(rows, start, end, mergedStart, mergedEnd);
    table := rows;
    if meeting != [] {
      table := RowsClearOf(rows, start - 1, end + 1);
    } else {
      NothingMeets(rows, start - 1, end + 1);
    }
    table := RowInserted(table, Interval(mergedStart, mergedEnd));
  }

  lemma {:induction false} NothingMeets(rows: seq<Interval>, lo: int, hi: int)
    requires RowsMeeting(rows, lo, hi) == []
    ensures RowsClearOf(rows, lo, hi) == rows
    decreases |rows|
  {
    if rows != [] {
      NothingMeets(rows[1..], lo, hi);
    }
  }

  /** `sorted(set(values))`. */
  function SortedKeys(values: seq<int>): (keys: seq<int>)
    ensures forall x :: x in keys <==> x in values
  {
    if values == [] then []
    else
      assert values == [values[0]] + values[1..];
      M.InsertKey(values[0], SortedKeys(values[1..]))
  }

  lemma {:induction false} SortedKeysAscend(values: seq<int>)
    ensures M.AscendingKeys(SortedKeys(values))
    decreases |values|
  {
    if values != [] {
      SortedKeysAscend(values[1..]);
      M.InsertKeyAscends(values[0], SortedKeys(values[1..]));
    }
  }

  ghost function Members(values: seq<int>): set<int> {
    set x | x in values
  }

  lemma MembersAppend(values: seq<int>, k: nat)
    requires k < |values|
    ensures Members(values[..k + 1]) == Members(values[..k]) + {values[k]}
  {
    assert values[..k + 1] == values[..k] + [values[k]];
  }

  /** State of the run-collecting loop: closed runs plus the open one. */
  ghost predicate Collecting(output: seq<Interval>, start: int, previous: int, ordered: seq<int>, k: int) {
    && 1 <= k <= |ordered| && start <= previous && previous == ordered[k - 1]
    && Canonical(output) && EndsBelow(output, start - 1)
    && Elems(output) + Span(start, previous) == Members(ordered[..k])
  }

  lemma CollectValue(output: seq<Interval>, start: int, previous: int, ordered: seq<int>, k: int)
    requires Collecting(output, start, previous, ordered, k) && k < |ordered| && M.AscendingKeys(ordered)
    ensures ordered[k] == previous + 1 ==> Collecting(output, start, ordered[k], ordered, k + 1)
    ensures ordered[k] != previous + 1 ==>
              Collecting(output + [Interval(start, previous)], ordered[k], ordered[k], ordered, k + 1)
  {
    MembersAppend(ordered, k);
    if ordered[k] == previous + 1 {
      assert Span(start, previous + 1) == Span(start, previous) + {previous + 1};
    } else {
      assert Span(ordered[k], ordered[k]) == {ordered[k]};
      M.ElemsLast(output, Interval(start, previous));
      M.CanonicalLast(output, Interval(start, previous));
    }
  }

  /** `_contiguous`: the maximal runs of the values. */
  method Contiguous(values: seq<int>) returns (output: seq<Interval>)
    ensures output == Canon(Members(values))
  {
    if values == [] {
      CanonOf([], Members(values));
      return [];
    }
    var ordered := SortedKeys(values);
    SortedKeysAscend(values);
    assert values[0] in ordered;
    output := [];
    var start, previous := ordered[0], ordered[0];
    MembersAppend(ordered, 0);
    assert Span(start, previous) == {ordered[0]};
    for k := 1 to |ordered|
      invariant Collecting(output, start, previous, ordered, k)
    {
      CollectValue(output, start, previous, ordered, k);
      var value := ordered[k];
      if value == previous + 1 {
        previous := value;
        continue;
      }
      output := output + [Interval(start, previous)];
      start, previous := value, value;
    }
    assert ordered[..|ordered|] == ordered;
    M.ElemsLast(output, Interval(start, previous));
    M.CanonicalLast(output, Interval(start, previous));
    output := output + [Interval(start, previous)];
    CanonOf(output, Members(values));
  }

  /** The head run of a set decides its first chunk. */
  lemma FirstChunkOfRun(s: set<int>, r: Interval)
    requires r.lo <= r.hi && Span(r.lo, r.hi) <= s && r.hi + 1 !in s
    requires forall x | x in s :: r.lo <= x
    ensures FirstChunk(s, CHUNK_SIZE) == Some(Interval(r.lo, Min(r.hi, r.lo + CHUNK_SIZE - 1)))
  {
    HeadRunOf(s, r);
    assert r.lo in s;
    ChunksTail(s, CHUNK_SIZE);
  }

  /** Elements of a canonical list by position: before, in, or after the k-th interval. */
  lemma {:induction false} ElemsAround(rows: seq<Interval>, k: nat)
    requires Canonical(rows) && k < |rows|
    ensures Elems(rows) == Elems(rows[..k]) + Span(rows[k].lo, rows[k].hi) + Elems(rows[k + 1..])
    ensures rows[k].lo <= rows[k].hi
    ensures AllBelow(Elems(rows[..k]), rows[k].lo - 1)
    ensures AllAbove(Elems(rows[k + 1..]), rows[k].hi + 1)
    decreases k
  {
    if k == 0 {
      CanonicalBounds(rows[1..], rows[0].hi);
    } else {
      var rest := rows[1..];
      ElemsAround(rest, k - 1);
      assert rest[k..] == rows[k + 1..];
      assert rows[..k] == [rows[0]] + rest[..k - 1];
      ElemsCons(rows[0], rest[..k - 1]);
      HeadIsFirstRun(rows);
      assert rest[k - 1].lo in Elems(rest);
    }
  }

  /** The first chunk of some wanted numbers none of which precede the row lo..hi, when the
      wanted part of that row starts with the run r. */
  lemma FirstChunkInRow(wanted: set<int>, lo: int, hi: int, r: Interval)
    requires forall x | x in wanted :: lo <= x && x != hi + 1
    requires lo <= r.lo <= r.hi <= hi && Span(r.lo, r.hi) <= wanted
    requires forall x | x in wanted && x <= hi :: r.lo <= x && x != r.hi + 1
    ensures FirstChunk(wanted, CHUNK_SIZE) == Some(Interval(r.lo, Min(r.hi, r.lo + CHUNK_SIZE - 1)))
  {
    FirstChunkOfRun(wanted, r);
  }

  /** What is wanted lies in or beyond the k-th row, across a gap. */
  lemma WantedFromRow(rows: seq<Interval>, k: nat, wanted: set<int>)
    requires Canonical(rows) && k < |rows|
    requires wanted <= Elems(rows) && wanted !! Elems(rows[..k])
    ensures forall x | x in wanted :: rows[k].lo <= x && x != rows[k].hi + 1
    ensures forall x | x in wanted && x <= rows[k].hi :: x in Span(rows[k].lo, rows[k].hi)
    ensures Span(rows[k].lo, rows[k].hi) <= Elems(rows)
  {
    ElemsAround(rows, k);
    var before, here, beyond := Elems(rows[..k]), Span(rows[k].lo, rows[k].hi), Elems(rows[k + 1..]);
    forall x | x in wanted
      ensures rows[k].lo <= x && x != rows[k].hi + 1 && (x <= rows[k].hi ==> x in here)
    {
      assert x !in before;
      assert x in here || x in beyond;
    }
  }

  lemma CoveredThrough(manifest: seq<Interval>, k: nat, covered: set<int>)
    requires k < |manifest| && Elems(manifest[..k]) <= covered
    requires Canon(Span(manifest[k].lo, manifest[k].hi) - covered) == []
    ensures Elems(manifest[..k + 1]) <= covered
  {
    var row := manifest[k];
    assert Span(row.lo, row.hi) - covered == Elems([]) == {};
    assert manifest[..k + 1] == manifest[..k] + [row];
    M.ElemsLast(manifest[..k], row);
    forall x | x in Span(row.lo, row.hi)
      ensures x in covered
    {
      assert x !in Span(row.lo, row.hi) - covered;
    }
  }

  /** The first uncovered run of a row. */
  lemma HeadOfPart(row: set<int>, covered: set<int>, missing: seq<Interval>)
    requires missing == Canon(row - covered) && missing != []
    ensures missing[0].lo <= missing[0].hi && missing[0].lo in row && missing[0].hi in row
    ensures Span(missing[0].lo, missing[0].hi) <= row - covered
    ensures forall x | x in row && x !in covered :: missing[0].lo <= x && x != missing[0].hi + 1
  {
    HeadIsFirstRun(missing);
    RunIsMaximal(missing, missing[0]);
    forall x | x in row && x !in covered
      ensures missing[0].lo <= x && x != missing[0].hi + 1
    {
      assert x in Elems(missing);
    }
  }

  lemma WantedApart(before: set<int>, all: set<int>, covered: set<int>, wanted: set<int>)
    requires before <= covered && wanted == all - covered
    ensures wanted !! before && wanted <= all
  {
  }

  lemma FirstMissingIn(manifest: seq<Interval>, k: nat, covered: set<int>, missing: seq<Interval>, wanted: set<int>)
    requires Canonical(manifest) && k < |manifest|
    requires Elems(manifest[..k]) <= covered
    requires missing == Canon(Span(manifest[k].lo, manifest[k].hi) - covered) && missing != []
    requires wanted == Elems(manifest) - covered
    ensures FirstChunk(wanted, CHUNK_SIZE)
         == Some(Interval(missing[0].lo, Min(missing[0].hi, missing[0].lo + CHUNK_SIZE - 1)))
  {
    var row := manifest[k];
    WantedApart(Elems(manifest[..k]), Elems(manifest), covered, wanted);
    WantedFromRow(manifest, k, wanted);
    HeadOfPart(Span(row.lo, row.hi), covered, missing);
    FirstUncoveredRun(row, Elems(manifest), covered, wanted, missing[0]);
  }

  lemma FirstUncoveredRun(row: Interval, manifest: set<int>, covered: set<int>, wanted: set<int>, r: Interval)
    requires wanted == manifest - covered && Span(row.lo, row.hi) <= manifest
    requires forall x | x in wanted :: row.lo <= x && x != row.hi + 1
    requires r.lo <= r.hi && r.lo in Span(row.lo, row.hi) && r.hi in Span(row.lo, row.hi)
    requires Span(r.lo, r.hi) <= Span(row.lo, row.hi) - covered
    requires forall x | x in Span(row.lo, row.hi) && x !in covered :: r.lo <= x && x != r.hi + 1
    ensures FirstChunk(wanted, CHUNK_SIZE) == Some(Interval(r.lo, Min(r.hi, r.lo + CHUNK_SIZE - 1)))
  {
    FirstChunkInRow(wanted, row.lo, row.hi, r);
  }

  /** `_first_missing_chunk`: the first request of the plan for the uncovered manifest numbers;
      none exactly when the manifest is covered. */
  method FirstMissingChunk(manifest: seq<Interval>, coverage: seq<Interval>) returns (out: Option<Interval>)
    requires Canonical(manifest) && Canonical(coverage)
    ensures out == FirstChunk(Elems(manifest) - Elems(coverage), CHUNK_SIZE)
    ensures out.None? <==> Elems(manifest) <= Elems(coverage)
  {
    FirstChunkFacts(Elems(manifest) - Elems(coverage), CHUNK_SIZE);
    for k := 0 to |manifest|
      invariant Elems(manifest[..k]) <= Elems(coverage)
    {
      var start, end := manifest[k].lo, manifest[k].hi;
      ElemsAround(manifest, k);
      var rows := RowsMeeting(coverage, start, end);
      RowsMeetingFacts(coverage, start, end);
      var missing := SubtractCoverage(start, end, rows);
      if missing != [] {
        FirstMissingIn(manifest, k, Elems(coverage), missing, Elems(manifest) - Elems(coverage));
        return Some(Interval(missing[0].lo, Min(missing[0].hi, missing[0].lo + CHUNK_SIZE - 1)));
      }
      CoveredThrough(manifest, k, Elems(coverage));
    }
    assert manifest[..|manifest|] == manifest;
    return None;
  }

  /** The manifest numbers after a finished request; all of them before the first one. */
  ghost function After(s: set<int>, prior: Option<int>): set<int> {
    if prior.None? then s else set x | x in s && prior.value < x
  }

  lemma NextAfterIn(manifest: seq<Interval>, k: nat, prior: int, first: int, rest: set<int>)
    requires Canonical(manifest) && k < |manifest|
    requires AllBelow(Elems(manifest[..k]), prior + 1)
    requires first == Max(manifest[k].lo, prior + 1) && first <= manifest[k].hi
    requires rest == After(Elems(manifest), Some(prior))
    ensures FirstChunk(rest, CHUNK_SIZE) == Some(Interval(first, Min(manifest[k].hi, first + CHUNK_SIZE - 1)))
  {
    var row := manifest[k];
    WantedFromRow(manifest, k, rest);
    FirstChunkInRow(rest, row.lo, row.hi, Interval(first, row.hi));
  }

  /** `_next_manifest_chunk_after`: the first request of the plan for the manifest numbers
      that follow `prior`; none exactly when there are none. */
  method NextManifestChunkAfter(manifest: seq<Interval>, prior: Option<int>) returns (out: Option<Interval>)
    requires Canonical(manifest)
    ensures out == FirstChunk(After(Elems(manifest), prior), CHUNK_SIZE)
    ensures out.None? <==> After(Elems(manifest), prior) == {}
  {
    FirstChunkFacts(After(Elems(manifest), prior), CHUNK_SIZE);
    if manifest == [] {
      return None;
    }
    if prior.None? {
      HeadIsFirstRun(manifest);
      FirstChunkOfRun(Elems(manifest), manifest[0]);
      return Some(Interval(manifest[0].lo, Min(manifest[0].hi, manifest[0].lo + CHUNK_SIZE - 1)));
    }
    for k := 0 to |manifest|
      invariant AllBelow(Elems(manifest[..k]), prior.value + 1)
    {
      var start, end := manifest[k].lo, manifest[k].hi;
      ElemsAround(manifest, k);
      if prior.value < start {
        NextAfterIn(manifest, k, prior.value, start, After(Elems(manifest), prior));
        return Some(Interval(start, Min(end, start + CHUNK_SIZE - 1)));
      }
      if start <= prior.value < end {
        var next := prior.value + 1;
        NextAfterIn(manifest, k, prior.value, next, After(Elems(manifest), prior));
        return Some(Interval(next, Min(end, next + CHUNK_SIZE - 1)));
      }
      assert manifest[..k + 1] == manifest[..k] + [manifest[k]];
      M.ElemsLast(manifest[..k], manifest[k]);
    }
    assert manifest[..|manifest|] == manifest;
    return None;
  }

  /** What subtracting the coverage rows from each manifest range in turn produces. */
  ghost function MissingRangeByRange(manifest: seq<Interval>, coverage: seq<Interval>): seq<Interval> {
    if manifest == [] then []
    else Canon(Span(manifest[0].lo, manifest[0].hi) - Elems(RowsMeeting(coverage, manifest[0].lo, manifest[0].hi)))
         + MissingRangeByRange(manifest[1..], coverage)
  }

  /** The interval form refines the simple one: over a normalized manifest, range-by-range
      subtraction of merged rows lists exactly the maximal runs of the uncovered numbers,
      which is what `missing_intervals` computes from an explicit set. */
  lemma {:induction false} RangeByRangeIsWhole(manifest: seq<Interval>, coverage: seq<Interval>)
    requires Canonical(manifest) && Canonical(coverage)
    ensures MissingRangeByRange(manifest, coverage) == Canon(Elems(manifest) - Elems(coverage))
    decreases |manifest|
  {
    var covered := Elems(coverage);
    if manifest == [] {
      CanonOf([], Elems(manifest) - covered);
    } else {
      var row, rest := manifest[0], Elems(manifest[1..]) - covered;
      RangeByRangeIsWhole(manifest[1..], coverage);
      RowsMeetingFacts(coverage, row.lo, row.hi);
      CanonicalBounds(manifest[1..], row.hi);
      var here := Span(row.lo, row.hi) - covered;
      CanonicalAppend(Canon(here), Canon(rest), row.hi);
      ElemsAppend(Canon(here), Canon(rest));
      assert Elems(manifest) - covered == here + rest;
      CanonOf(Canon(here) + Canon(rest), Elems(manifest) - covered);
    }
  }

  lemma {:induction false} CanonicalAppend(a: seq<Interval>, b: seq<Interval>, gap: int)
    requires Canonical(a) && Canonical(b)
    requires AllBelow(Elems(a), gap + 1) && AllAbove(Elems(b), gap + 1)
    ensures Canonical(a + b)
    decreases |a|
  {
    if a == [] {
      assert a + b == b;
    } else {
      CanonicalAppend(a[1..], b, gap);
      assert (a + b)[1..] == a[1..] + b;
      HeadIsFirstRun(a);
      if b != [] { HeadIsFirstRun(b); }
    }
  }
}
