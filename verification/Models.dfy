/** cloud/models.py: validated ranges, their normal form, and bounded sample responses. */
module Models {
  import opened Ranges
  import opened Chunks
  import opened Wrappers

  const MAX_SIGNED_INT: int := 0x7FFF_FFFF_FFFF_FFFF
  const MAX_RANGES: nat := 10_000
  const MAX_PLAN: nat := 10_000
  const MAX_CHUNK: nat := 1000

  /** A decoded JSON value where an integer is expected. */
  datatype RawInt = Number(value: int) | NotAnInteger

  datatype RawPair = Pair(start: RawInt, end: RawInt) | NotAPair

  datatype RawRanges = Pairs(items: seq<RawPair>) | NotAList

  predicate IsExactInt(v: RawInt) {
    v.Number? && 0 <= v.value <= MAX_SIGNED_INT
  }

  predicate ValidPair(p: RawPair) {
    p.Pair? && IsExactInt(p.start) && IsExactInt(p.end) && p.start.value <= p.end.value
  }

  function IntervalOf(p: RawPair): Interval
    requires p.Pair? && p.start.Number? && p.end.Number?
  {
    Interval(p.start.value, p.end.value)
  }

  predicate ValidRanges(raw: RawRanges) {
    raw.Pairs? && |raw.items| <= MAX_RANGES && forall p | p in raw.items :: ValidPair(p)
  }

  /** The ranges a validated manifest carries: nonempty and inside the signed 64-bit range. */
  predicate ParsedRanges(rs: seq<Interval>) {
    forall r | r in rs :: 0 <= r.lo <= r.hi <= MAX_SIGNED_INT
  }

  /** Which arrays are valid, in numbers: at most ten thousand ordered pairs of signed 64-bit
      integers that are not negative. */
  lemma ValidMeans(raw: RawRanges)
    ensures ValidRanges(raw) <==>
            && raw.Pairs? && |raw.items| <= 10_000
            && forall p | p in raw.items ::
                 && p.Pair? && p.start.Number? && p.end.Number?
                 && 0 <= p.start.value <= p.end.value < 0x8000_0000_0000_0000
  {
  }

  /** `_ranges`: accepts exactly the valid arrays and keeps every pair in order. */
  method ParseRanges(raw: RawRanges) returns (out: Result<seq<Interval>>)
    ensures out.Ok? <==> ValidRanges(raw)
    ensures out.Ok? ==> |out.value| == |raw.items| && ParsedRanges(out.value)
    ensures out.Ok? ==> forall i | 0 <= i < |raw.items| ::
               ValidPair(raw.items[i]) && out.value[i] == IntervalOf(raw.items[i])
    ensures out.Err? ==> out.error == SchemaError
  {
    if raw.NotAList? || |raw.items| > MAX_RANGES {
      return Err(SchemaError);
    }
    var result: seq<Interval> := [];
    for k := 0 to |raw.items|
      invariant |result| == k
      invariant forall i | 0 <= i < k :: ValidPair(raw.items[i]) && result[i] == IntervalOf(raw.items[i])
    {
      var p := raw.items[k];
      assert p in raw.items;
      if !p.Pair? || !IsExactInt(p.start) || !IsExactInt(p.end) || p.start.value > p.end.value {
        return Err(SchemaError);
      }
      result := result + [Interval(p.start.value, p.end.value)];
    }
    return Ok(result);
  }

  /** Python's order on pairs: by start, then by end. */
  predicate Before(a: Interval, b: Interval) {
    a.lo < b.lo || (a.lo == b.lo && a.hi <= b.hi)
  }

  function InsertSorted(r: Interval, rs: seq<Interval>): seq<Interval> {
    if rs == [] || Before(r, rs[0]) then [r] + rs else [rs[0]] + InsertSorted(r, rs[1..])
  }

  /** The library's `sorted`. */
  function Sorted(rs: seq<Interval>): seq<Interval> {
    if rs == [] then [] else InsertSorted(rs[0], Sorted(rs[1..]))
  }

  predicate Ascending(rs: seq<Interval>) {
    forall i, j | 0 <= i < j < |rs| :: rs[i].lo <= rs[j].lo
  }

  lemma {:induction false} InsertSortedFacts(r: Interval, rs: seq<Interval>)
    ensures Elems(InsertSorted(r, rs)) == Span(r.lo, r.hi) + Elems(rs)
    ensures forall x :: x in InsertSorted(r, rs) <==> x == r || x in rs
    ensures |InsertSorted(r, rs)| == |rs| + 1
    decreases |rs|
  {
    if rs == [] || Before(r, rs[0]) {
      ElemsCons(r, rs);
    } else {
      InsertSortedFacts(r, rs[1..]);
      ElemsCons(rs[0], InsertSorted(r, rs[1..]));
      assert rs == [rs[0]] + rs[1..];
    }
  }

  lemma {:induction false} InsertSortedAscends(r: Interval, rs: seq<Interval>)
    requires Ascending(rs)
    ensures Ascending(InsertSorted(r, rs))
    decreases |rs|
  {
    if rs != [] && !Before(r, rs[0]) {
      var rest := InsertSorted(r, rs[1..]);
      InsertSortedAscends(r, rs[1..]);
      InsertSortedFacts(r, rs[1..]);
      forall j | 0 <= j < |rest|
        ensures rs[0].lo <= rest[j].lo
      {
        assert rest[j] in rest;
        if rest[j] != r {
          var i :| 0 <= i < |rs[1..]| && rs[1..][i] == rest[j];
          assert rs[i + 1] == rest[j];
        }
      }
    }
  }

  /** `Sorted` rearranges: same members, same length, ascending starts. */
  lemma {:induction false} SortedFacts(rs: seq<Interval>)
    ensures Ascending(Sorted(rs))
    ensures forall x :: x in Sorted(rs) <==> x in rs
    ensures |Sorted(rs)| == |rs|
    ensures Elems(Sorted(rs)) == Elems(rs)
    decreases |rs|
  {
    if rs != [] {
      SortedFacts(rs[1..]);
      InsertSortedFacts(rs[0], Sorted(rs[1..]));
      InsertSortedAscends(rs[0], Sorted(rs[1..]));
      assert rs == [rs[0]] + rs[1..];
    }
  }

  /** Replacing the last of a list of intervals by a wider one. */
  lemma ElemsLast(init: seq<Interval>, last: Interval)
    ensures Elems(init + [last]) == Elems(init) + Span(last.lo, last.hi)
  {
    ElemsAppend(init, [last]);
    ElemsCons(last, []);
    assert [last] + [] == [last];
  }

  lemma {:induction false} CanonicalLast(init: seq<Interval>, last: Interval)
    requires Canonical(init) && last.lo <= last.hi
    requires init == [] || init[|init| - 1].hi + 1 < last.lo
    ensures Canonical(init + [last])
    decreases |init|
  {
    if init == [] {
      assert init + [last] == [last];
    } else {
      CanonicalLast(init[1..], last);
      assert (init + [last])[1..] == init[1..] + [last];
    }
  }

  /** One step of the merge: widen the last interval or append a new one. */
  function Absorb(merged: seq<Interval>, r: Interval): seq<Interval> {
    if merged != [] && r.lo <= merged[|merged| - 1].hi + 1 then
      var last := merged[|merged| - 1];
      merged[..|merged| - 1] + [Interval(last.lo, Max(r.hi, last.hi))]
    else
      merged + [r]
  }

  lemma AbsorbElems(merged: seq<Interval>, r: Interval)
    requires merged != [] ==> merged[|merged| - 1].lo <= r.lo
    ensures Elems(Absorb(merged, r)) == Elems(merged) + Span(r.lo, r.hi)
  {
    if merged != [] && r.lo <= merged[|merged| - 1].hi + 1 {
      WidenElems(merged, merged[..|merged| - 1], merged[|merged| - 1], r);
    } else {
      ElemsLast(merged, r);
    }
  }

  lemma WidenElems(merged: seq<Interval>, init: seq<Interval>, last: Interval, r: Interval)
    requires merged != [] && init == merged[..|merged| - 1] && last == merged[|merged| - 1]
    requires last.lo <= r.lo <= last.hi + 1
    ensures Elems(init + [Interval(last.lo, Max(r.hi, last.hi))]) == Elems(merged) + Span(r.lo, r.hi)
  {
    assert merged == init + [last];
    ElemsLast(init, last);
    ElemsLast(init, Interval(last.lo, Max(r.hi, last.hi)));
    SpansJoin(last.lo, last.hi, r.lo, r.hi);
  }

  lemma SpansJoin(lo: int, hi: int, lo2: int, hi2: int)
    requires lo <= lo2 <= hi + 1
    ensures Span(lo, hi) + Span(lo2, hi2) == Span(lo, Max(hi2, hi))
  {
  }

  /** Ascending starts, and every nonempty row ends well before all later rows start. */
  predicate Separated(rs: seq<Interval>) {
    Ascending(rs) && forall i, j | 0 <= i < j < |rs| && rs[i].lo <= rs[i].hi :: rs[i].hi + 1 < rs[j].lo
  }

  lemma AbsorbSeparated(merged: seq<Interval>, r: Interval)
    requires Separated(merged)
    requires merged != [] ==> merged[|merged| - 1].lo <= r.lo
    ensures Separated(Absorb(merged, r))
    ensures AllNonempty(merged) && r.lo <= r.hi ==> AllNonempty(Absorb(merged, r))
    ensures Absorb(merged, r) != [] && Absorb(merged, r)[|Absorb(merged, r)| - 1].lo <= r.lo
  {
    if merged != [] {
      assert merged[|merged| - 1] in merged;
    }
  }

  /** What the merge loop makes of sorted ranges. */
  function Merged(sorted: seq<Interval>): seq<Interval> {
    if sorted == [] then [] else Absorb(Merged(sorted[..|sorted| - 1]), sorted[|sorted| - 1])
  }

  /** A row of valid sequence numbers that does not end before it starts. */
  predicate ValidRow(r: Interval) {
    0 <= r.lo <= r.hi <= MAX_SIGNED_INT
  }

  predicate ValidRows(rs: seq<Interval>) {
    forall i | 0 <= i < |rs| :: ValidRow(rs[i])
  }

  /** The normal form, for any ranges: rows that end before they start may stay in it. */
  function Normalized(ranges: seq<Interval>): seq<Interval> {
    Merged(Sorted(ranges))
  }

  /** The rows that denote something. */
  function Kept(rs: seq<Interval>): seq<Interval> {
    if rs == [] then [] else if rs[0].lo <= rs[0].hi then [rs[0]] + Kept(rs[1..]) else Kept(rs[1..])
  }

  /** Everything kept starts beyond x if every row does. */
  lemma {:induction false} KeptAbove(rs: seq<Interval>, x: int)
    requires forall i | 0 <= i < |rs| :: x + 1 < rs[i].lo
    ensures HeadAbove(Kept(rs), x)
    decreases |rs|
  {
    if rs != [] {
      KeptAbove(rs[1..], x);
    }
  }

  lemma SeparatedTail(rs: seq<Interval>)
    requires Separated(rs) && rs != []
    ensures Separated(rs[1..]) && rs == [rs[0]] + rs[1..]
  {
  }

  lemma {:induction false} KeptCanonical(rs: seq<Interval>)
    requires Separated(rs)
    ensures Canonical(Kept(rs))
    decreases |rs|
  {
    if rs != [] {
      SeparatedTail(rs);
      KeptCanonical(rs[1..]);
      if rs[0].lo <= rs[0].hi {
        KeptAbove(rs[1..], rs[0].hi);
        CanonicalCons(rs[0], Kept(rs[1..]));
      }
    }
  }

  lemma {:induction false} KeptElems(rs: seq<Interval>)
    ensures Elems(Kept(rs)) == Elems(rs)
    decreases |rs|
  {
    if rs != [] {
      KeptElems(rs[1..]);
      if rs[0].lo <= rs[0].hi {
        ElemsCons(rs[0], Kept(rs[1..]));
      } else {
        assert Span(rs[0].lo, rs[0].hi) == {};
      }
    }
  }

  lemma {:induction false} KeptAll(rs: seq<Interval>)
    requires AllNonempty(rs)
    ensures Kept(rs) == rs
    decreases |rs|
  {
    if rs != [] {
      assert rs == [rs[0]] + rs[1..];
      KeptAll(rs[1..]);
    }
  }

  /** `normalize_ranges`, for any input: the union is kept, and without the rows that denote
      nothing the result is the one canonical list of that union. */
  method NormalizeRanges(ranges: seq<Interval>) returns (merged: seq<Interval>)
    ensures merged == Normalized(ranges)
    ensures Separated(merged) && Elems(merged) == Elems(ranges)
    ensures Kept(merged) == Canon(Elems(ranges))
    ensures AllNonempty(ranges) ==> merged == Canon(Elems(ranges))
  {
    var sorted := Sorted(ranges);
    merged := [];
    for k := 0 to |sorted|
      invariant merged == Merged(sorted[..k])
    {
      var r := sorted[k];
      MergedNext(sorted, k);
      ghost var next := Absorb(merged, r);
      if merged != [] && r.lo <= merged[|merged| - 1].hi + 1 {
        var last := merged[|merged| - 1];
        merged := merged[|merged| - 1 := Interval(last.lo, Max(r.hi, last.hi))];
      } else {
        merged := merged + [r];
      }
      assert merged == next;
    }
    assert sorted[..|sorted|] == sorted;
    NormalizedFacts(ranges);
  }

  lemma MergedNext(sorted: seq<Interval>, k: nat)
    requires k < |sorted|
    ensures Merged(sorted[..k + 1]) == Absorb(Merged(sorted[..k]), sorted[k])
  {
    assert sorted[..k + 1][..k] == sorted[..k];
  }

  /** What the normal form means. */
  lemma NormalizedFacts(ranges: seq<Interval>)
    ensures Separated(Normalized(ranges)) && Elems(Normalized(ranges)) == Elems(ranges)
    ensures Kept(Normalized(ranges)) == Canon(Elems(ranges))
    ensures AllNonempty(Normalized(ranges)) ==> Normalized(ranges) == Canon(Elems(ranges))
    ensures AllNonempty(ranges) ==> AllNonempty(Normalized(ranges))
  {
    var merged := Normalized(ranges);
    SortedFacts(ranges);
    MergedFacts(Sorted(ranges));
    KeptCanonical(merged);
    KeptElems(merged);
    if AllNonempty(merged) { KeptAll(merged); }
    CanonOf(Kept(merged), Elems(ranges));
  }

  lemma LastRange(sorted: seq<Interval>)
    requires Ascending(sorted) && sorted != []
    ensures var init, r := sorted[..|sorted| - 1], sorted[|sorted| - 1];
            && Ascending(init) && Elems(sorted) == Elems(init) + Span(r.lo, r.hi)
            && (init != [] ==> init[|init| - 1].lo <= r.lo)
            && (AllNonempty(sorted) ==> AllNonempty(init) && r.lo <= r.hi)
  {
    var init, r := sorted[..|sorted| - 1], sorted[|sorted| - 1];
    assert sorted == init + [r];
    ElemsLast(init, r);
    assert r in sorted;
  }

  lemma {:induction false} MergedFacts(sorted: seq<Interval>)
    requires Ascending(sorted)
    ensures Separated(Merged(sorted)) && Elems(Merged(sorted)) == Elems(sorted)
    ensures AllNonempty(sorted) ==> AllNonempty(Merged(sorted))
    ensures sorted != [] ==> Merged(sorted) != [] && Merged(sorted)[|Merged(sorted)| - 1].lo <= sorted[|sorted| - 1].lo
    decreases |sorted|
  {
    if sorted != [] {
      var init, r := sorted[..|sorted| - 1], sorted[|sorted| - 1];
      LastRange(sorted);
      MergedFacts(init);
      AbsorbElems(Merged(init), r);
      AbsorbSeparated(Merged(init), r);
    }
  }

  /** Normalizing twice changes nothing, and a canonical list is its own normal form. */
  lemma NormalFormIsStable(rs: seq<Interval>)
    requires AllNonempty(Normalized(rs))
    ensures Normalized(Normalized(rs)) == Normalized(rs)
    ensures Canonical(rs) ==> Normalized(rs) == rs
  {
    NormalizedFacts(rs);
    NormalizedFacts(Normalized(rs));
    if Canonical(rs) {
      CanonOf(rs, Elems(rs));
    }
  }

  lemma EmptyRun(r: Interval, rest: seq<Interval>, size: nat)
    requires size >= 1 && r.hi < r.lo
    ensures ChunkRun(r.lo, r.hi, size) + rest == rest
  {
  }

  /** Rows that denote nothing are cut into no pieces. */
  lemma {:induction false} KeptPlan(rs: seq<Interval>, size: nat)
    requires size >= 1
    ensures ChunkAll(Kept(rs), size) == ChunkAll(rs, size)
    decreases |rs|
  {
    if rs != [] {
      var r, rest := rs[0], rs[1..];
      KeptPlan(rest, size);
      if r.lo <= r.hi {
        ChunkAllCons(r, Kept(rest), size);
      } else {
        EmptyRun(r, ChunkAll(rest, size), size);
      }
    }
  }

  /** `bounded_chunks`: the whole request plan, or BoundsError exactly when the chunk size is
      out of range or the plan is longer than the limit. */
  method BoundedChunks(ranges: seq<Interval>, size: int) returns (out: Result<seq<Interval>>)
    ensures !(1 <= size <= 1000) ==> out == Err(BoundsError)
    ensures 1 <= size <= 1000 ==>
              var plan := Plan(Elems(ranges), size);
              out == if |plan| > 10_000 then Err(BoundsError) else Ok(plan)
  {
    if !(1 <= size <= MAX_CHUNK) {
      return Err(BoundsError);
    }
    var normal := NormalizeRanges(ranges);
    KeptPlan(normal, size);
    var within, plan := PlanAllRuns(normal, size);
    return if within then Ok(plan) else Err(BoundsError);
  }

  /** The outer loop: cut the rows one after the other, giving up when the plan is full. */
  method PlanAllRuns(normal: seq<Interval>, size: nat) returns (within: bool, result: seq<Interval>)
    requires size >= 1
    ensures within <==> |ChunkAll(normal, size)| <= MAX_PLAN
    ensures within ==> result == ChunkAll(normal, size)
  {
    result := [];
    ghost var plan := ChunkAll(normal, size);
    assert normal[0..] == normal;
    for k := 0 to |normal|
      invariant |result| <= MAX_PLAN
      invariant plan == result + ChunkAll(normal[k..], size)
    {
      assert normal[k..] == [normal[k]] + normal[k + 1..];
      ChunkAllCons(normal[k], normal[k + 1..], size);
      ghost var rest := ChunkAll(normal[k + 1..], size);
      within, result := PlanOneRun(result, normal[k].lo, normal[k].hi, size, rest);
      if !within {
        return;
      }
    }
    within := true;
    assert plan == result;
  }

  /** The inner loop: cut one run, giving up when the plan is full. */
  method PlanOneRun(planned: seq<Interval>, lo: int, hi: int, size: nat, ghost rest: seq<Interval>)
    returns (within: bool, result: seq<Interval>)
    requires size >= 1 && |planned| <= MAX_PLAN
    ensures within ==> |result| <= MAX_PLAN && planned + (ChunkRun(lo, hi, size) + rest) == result + rest
    ensures !within ==> |planned + (ChunkRun(lo, hi, size) + rest)| > MAX_PLAN
  {
    var first := lo;
    result := planned;
    while first <= hi
      invariant |result| <= MAX_PLAN
      invariant planned + (ChunkRun(lo, hi, size) + rest) == result + (ChunkRun(first, hi, size) + rest)
      decreases hi - first
    {
      PlanStep(result, first, hi, size, rest);
      if |result| >= MAX_PLAN {
        return false, result;
      }
      var end := Min(hi, first + size - 1);
      result := result + [Interval(first, end)];
      first := end + 1;
    }
    assert ChunkRun(first, hi, size) + rest == rest;
    return true, result;
  }

  /** Moving the first piece of a run from what remains to what is planned. */
  lemma PlanStep(done: seq<Interval>, first: int, last: int, size: nat, rest: seq<Interval>)
    requires size >= 1 && first <= last
    ensures done + (ChunkRun(first, last, size) + rest)
         == (done + [Interval(first, Min(last, first + size - 1))])
            + (ChunkRun(Min(last, first + size - 1) + 1, last, size) + rest)
  {
    var end := Min(last, first + size - 1);
    assert ChunkRun(end + 1, last, size) == ChunkRun(first + size, last, size);
    assert ChunkRun(first, last, size) == [Interval(first, end)] + ChunkRun(end + 1, last, size);
  }

  // ---- Sample responses -------------------------------------------------------------

  /** An identified row: its sequence number and the content hash of its raw object. */
  datatype SampleRow = SampleRow(sequence: int, hash: int)

  /** One entry of the response mapping; a row without a valid sequence number does not parse. */
  datatype RawRow = Row(row: SampleRow) | BadRow

  datatype RawChunk = Entries(page: Option<RawInt>, items: seq<RawRow>) | NotAMapping

  predicate DistinctSequences(rows: seq<SampleRow>) {
    forall i, j | 0 <= i < j < |rows| :: rows[i].sequence != rows[j].sequence
  }

  predicate RowsInside(rows: seq<SampleRow>, start: int, end: int) {
    forall i | 0 <= i < |rows| :: start <= rows[i].sequence <= end
  }

  predicate GoodRow(r: RawRow, start: int, end: int) {
    r.Row? && IsExactInt(Number(r.row.sequence)) && start <= r.row.sequence <= end
  }

  /** Every row parses, lies in start..end, and no sequence repeats. */
  predicate GoodRows(items: seq<RawRow>, start: int, end: int) {
    && (forall i | 0 <= i < |items| :: GoodRow(items[i], start, end))
    && forall i, j | 0 <= i < j < |items| :: items[i].row.sequence != items[j].row.sequence
  }

  predicate GoodChunk(data: RawChunk, start: int, end: int) {
    && IsExactInt(Number(start)) && IsExactInt(Number(end))
    && start <= end && end - start < MAX_CHUNK
    && data.Entries?
    && (data.page.Some? ==> data.page.value == Number(1))
    && |data.items| <= MAX_CHUNK
    && GoodRows(data.items, start, end)
  }

  /** Which responses are accepted, in numbers. */
  lemma GoodMeans(data: RawChunk, start: int, end: int)
    ensures GoodChunk(data, start, end) <==>
            && 0 <= start <= end < 0x8000_0000_0000_0000 && end - start <= 999
            && data.Entries? && |data.items| <= 1000 && (data.page == None || data.page == Some(Number(1)))
            && (forall r | r in data.items :: r.Row? && start <= r.row.sequence <= end)
            && forall i, j | 0 <= i < j < |data.items| :: data.items[i].row.sequence != data.items[j].row.sequence
  {
  }

  predicate SortedRows(rows: seq<SampleRow>) {
    forall i, j | 0 <= i < j < |rows| :: rows[i].sequence < rows[j].sequence
  }

  predicate AscendingKeys(xs: seq<int>) {
    forall i, j | 0 <= i < j < |xs| :: xs[i] < xs[j]
  }

  /** Add a key to an ascending list of distinct keys. */
  function InsertKey(x: int, xs: seq<int>): (out: seq<int>)
    ensures forall y :: y in out <==> y == x || y in xs
  {
    if xs == [] || x < xs[0] then [x] + xs
    else if x == xs[0] then xs
    else
      assert xs == [xs[0]] + xs[1..];
      [xs[0]] + InsertKey(x, xs[1..])
  }

  lemma AscendingTail(xs: seq<int>)
    requires AscendingKeys(xs) && xs != []
    ensures AscendingKeys(xs[1..]) && forall y | y in xs[1..] :: xs[0] < y
  {
  }

  lemma AscendingCons(x: int, xs: seq<int>)
    requires AscendingKeys(xs) && forall y | y in xs :: x < y
    ensures AscendingKeys([x] + xs)
  {
    forall j | 0 <= j < |xs| ensures x < xs[j] { assert xs[j] in xs; }
  }

  lemma {:induction false} InsertKeyAscends(x: int, xs: seq<int>)
    requires AscendingKeys(xs)
    ensures AscendingKeys(InsertKey(x, xs))
    decreases |xs|
  {
    if xs == [] {
      AscendingCons(x, xs);
    } else {
      AscendingTail(xs);
      if x > xs[0] {
        InsertKeyAscends(x, xs[1..]);
        AscendingCons(xs[0], InsertKey(x, xs[1..]));
      } else if x < xs[0] {
        assert forall y | y in xs :: y == xs[0] || y in xs[1..];
        AscendingCons(x, xs);
      }
    }
  }

  lemma {:induction false} InsertKeyLength(x: int, xs: seq<int>)
    requires AscendingKeys(xs)
    ensures |InsertKey(x, xs)| == |xs| + if x in xs then 0 else 1
    decreases |xs|
  {
    if xs != [] {
      AscendingTail(xs);
      assert xs == [xs[0]] + xs[1..];
      if x > xs[0] {
        InsertKeyLength(x, xs[1..]);
      }
    }
  }

  /** `parse_sample_chunk`: accepts exactly the bounded, in-range, duplicate-free responses
      and returns every row once, in ascending sequence order. */
  method ParseSampleChunk(data: RawChunk, start: int, end: int) returns (out: Result<seq<SampleRow>>)
    ensures out.Ok? <==> GoodChunk(data, start, end)
    ensures out.Ok? ==> SortedRows(out.value) && RowsInside(out.value, start, end)
    ensures out.Ok? ==> |out.value| == |data.items| && forall r :: r in out.value <==> Row(r) in data.items
  {
    if !IsExactInt(Number(start)) || !IsExactInt(Number(end)) {
      return Err(SchemaError);
    }
    if end < start || end - start >= MAX_CHUNK {
      return Err(BoundsError);
    }
    if data.NotAMapping? {
      return Err(SchemaError);
    }
    if data.page.Some? {
      if !IsExactInt(data.page.value) || data.page.value.value < 1 {
        return Err(SchemaError);
      }
      if data.page.value.value != 1 {
        return Err(ConflictError);
      }
    }
    if |data.items| > MAX_CHUNK {
      return Err(SchemaError);
    }
    var rows, error := CollectAll(data.items, start, end);
    if error.Some? {
      return Err(error.value);
    }
    return Ok(rows);
  }

  /** The row loop: fills a dict keyed by sequence, then lists it by ascending key. */
  method CollectAll(items: seq<RawRow>, start: int, end: int)
    returns (result: seq<SampleRow>, error: Option<Error>)
    ensures error.None? <==> GoodRows(items, start, end)
    ensures error.None? ==> SortedRows(result) && RowsInside(result, start, end)
    ensures error.None? ==> |result| == |items| && forall r :: r in result <==> Row(r) in items
  {
    var rows: map<int, SampleRow> := map[];
    var keys: seq<int> := [];
    for k := 0 to |items|
      invariant CollectedRows(items[..k], start, end, rows, keys)
    {
      var item := items[k];
      if item.BadRow? || !IsExactInt(Number(item.row.sequence)) {
        return [], Some(SchemaError);
      }
      if !(start <= item.row.sequence <= end) {
        return [], Some(ConflictError);
      }
      if item.row.sequence in rows {
        ClashingRow(items, k, start, end, rows, keys);
        return [], Some(ConflictError);
      }
      CollectRow(items[..k], start, end, rows, keys, item);
      assert items[..k + 1] == items[..k] + [item];
      rows := rows[item.row.sequence := item.row];
      keys := InsertKey(item.row.sequence, keys);
    }
    assert items[..|items|] == items;
    forall i | 0 <= i < |keys|
      ensures keys[i] in rows
    {
      assert keys[i] in keys;
    }
    result := seq(|keys|, i requires 0 <= i < |keys| => rows[keys[i]]);
    ListedRows(items, start, end, rows, keys, result);
    return result, None;
  }

  lemma ListedRows(items: seq<RawRow>, start: int, end: int, rows: map<int, SampleRow>, keys: seq<int>,
                   result: seq<SampleRow>)
    requires CollectedRows(items, start, end, rows, keys)
    requires |result| == |keys| && forall i | 0 <= i < |keys| :: keys[i] in rows && result[i] == rows[keys[i]]
    ensures SortedRows(result) && RowsInside(result, start, end)
    ensures |result| == |items| && forall r :: r in result <==> Row(r) in items
  {
    forall r | Row(r) in items
      ensures r in result
    {
      var i :| 0 <= i < |items| && items[i] == Row(r);
      assert r.sequence in keys;
      var j :| 0 <= j < |keys| && keys[j] == r.sequence;
      assert result[j] == r;
    }
    assert forall i | 0 <= i < |keys| :: keys[i] in keys;
  }

  /** What the dict of rows and its sorted keys hold after some entries were accepted. */
  ghost predicate CollectedRows(items: seq<RawRow>, start: int, end: int,
                                rows: map<int, SampleRow>, keys: seq<int>)
  {
    && GoodRows(items, start, end)
    && AscendingKeys(keys) && |keys| == |items|
    && (forall x :: x in keys <==> x in rows)
    && (forall x | x in rows :: rows[x].sequence == x && start <= x <= end && Row(rows[x]) in items)
    && (forall i | 0 <= i < |items| :: items[i].row.sequence in rows && rows[items[i].row.sequence] == items[i].row)
  }

  lemma CollectRow(items: seq<RawRow>, start: int, end: int, rows: map<int, SampleRow>, keys: seq<int>, item: RawRow)
    requires CollectedRows(items, start, end, rows, keys)
    requires GoodRow(item, start, end) && item.row.sequence !in rows
    ensures CollectedRows(items + [item], start, end, rows[item.row.sequence := item.row],
                          InsertKey(item.row.sequence, keys))
  {
    InsertKeyAscends(item.row.sequence, keys);
    InsertKeyLength(item.row.sequence, keys);
  }

  lemma ClashingRow(items: seq<RawRow>, k: nat, start: int, end: int, rows: map<int, SampleRow>, keys: seq<int>)
    requires k < |items| && CollectedRows(items[..k], start, end, rows, keys)
    requires items[k].Row? && items[k].row.sequence in rows
    ensures !GoodRows(items, start, end)
  {
    var r := Row(rows[items[k].row.sequence]);
    var i :| 0 <= i < k && items[..k][i] == r;
    assert items[i] == r;
  }
}
