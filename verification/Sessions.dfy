/** cloud/sessions.py: counting, missing intervals and lazy chunk plans. */
module Sessions {
  import opened Ranges
  import opened Chunks
  import opened Models
  import opened Wrappers
  import opened Sequences

  const MAX_KEYS: nat := 10_000

  /** What rows that denote nothing add to a sum of lengths: zero or less. */
  function Deficit(rs: seq<Interval>): (d: int)
    ensures d <= 0
    ensures AllNonempty(rs) ==> d == 0
  {
    if rs == [] then 0
    else
      assert rs == [rs[0]] + rs[1..];
      (if rs[0].hi < rs[0].lo then rs[0].hi - rs[0].lo + 1 else 0) + Deficit(rs[1..])
  }

  lemma {:induction false} KeptLength(rs: seq<Interval>)
    ensures TotalLength(rs) == TotalLength(Kept(rs)) + Deficit(rs)
    decreases |rs|
  {
    if rs != [] {
      KeptLength(rs[1..]);
      if rs[0].lo <= rs[0].hi {
        assert Kept(rs)[1..] == Kept(rs[1..]);
      }
    }
  }

  /** `expected_count`: the cardinality of the union, without expanding it; a row of the normal
      form that ends more than one before it starts takes its deficit off. */
  method ExpectedCount(ranges: seq<Interval>) returns (count: int)
    ensures count == |Elems(ranges)| + Deficit(Normalized(ranges))
    ensures AllNonempty(ranges) ==> count == |Elems(ranges)|
  {
    var normal := NormalizeRanges(ranges);
    count := 0;
    for k := 0 to |normal|
      invariant count == TotalLength(normal[..k])
    {
      TotalLengthStep(normal, k);
      count := count + normal[k].hi - normal[k].lo + 1;
    }
    assert normal[..|normal|] == normal;
    KeptLength(normal);
    TotalLengthIsCardinality(Kept(normal));
    NormalizedFacts(ranges);
  }

  /** The sequence numbers named by the valid entries of a list. */
  ghost function Named(present: seq<RawInt>): set<int> {
    set i | 0 <= i < |present| && present[i].Number? :: present[i].value
  }

  /** Ascending members of `seen` that lie in start..end. */
  function KeysBetween(seen: seq<int>, start: int, end: int): (out: seq<int>)
    ensures forall y :: y in out <==> y in seen && start <= y <= end
  {
    if seen == [] then []
    else
      assert seen == [seen[0]] + seen[1..];
      var rest := KeysBetween(seen[1..], start, end);
      if start <= seen[0] <= end then [seen[0]] + rest else rest
  }

  lemma {:induction false} KeysBetweenAscend(seen: seq<int>, start: int, end: int)
    requires AscendingKeys(seen)
    ensures AscendingKeys(KeysBetween(seen, start, end))
    decreases |seen|
  {
    if seen != [] {
      KeysBetweenAscend(seen[1..], start, end);
      var rest := KeysBetween(seen[1..], start, end);
      forall j | 0 <= j < |rest|
        ensures seen[0] < rest[j]
      {
        assert rest[j] in rest;
        var i :| 0 <= i < |seen[1..]| && seen[1..][i] == rest[j];
        assert seen[i + 1] == rest[j];
      }
    }
  }

  lemma {:induction false} KeysAreNamed(seen: seq<int>, all: set<int>)
    requires AscendingKeys(seen)
    requires forall y :: y in seen <==> y in all
    ensures |all| == |seen|
    decreases |seen|
  {
    if seen == [] {
      assert forall y :: y !in all;
      assert all == {};
    } else {
      var last := seen[|seen| - 1];
      var init := seen[..|seen| - 1];
      assert seen == init + [last];
      assert last !in init;
      KeysAreNamed(init, all - {last});
    }
  }

  lemma KeysCount(seen: seq<int>, all: set<int>)
    requires AscendingKeys(seen)
    requires forall y :: y in seen ==> y in all
    ensures |seen| <= |all|
  {
    var some := set y | y in seen;
    KeysAreNamed(seen, some);
    assert all == some + (all - some);
  }

  lemma NamedStep(present: seq<RawInt>, k: nat)
    requires k < |present| && present[k].Number?
    ensures Named(present[..k + 1]) == Named(present[..k]) + {present[k].value}
    ensures Named(present[..k + 1]) <= Named(present)
  {
    var now, next := present[..k], present[..k + 1];
    forall y | y in Named(now) ensures y in Named(next) {
      var i :| 0 <= i < |now| && now[i].Number? && now[i].value == y;
      assert next[i].value == y;
    }
    assert next[k].value in Named(next);
    forall y | y in Named(next) ensures y in Named(present) {
      var i :| 0 <= i < |next| && next[i].Number? && next[i].value == y;
      assert present[i].value == y;
    }
  }

  /** `missing_intervals`: the maximal runs of the expected numbers that are not present.
      It raises exactly when an entry is not a valid sequence or more than 10,000 distinct
      keys are named. */
  method MissingIntervals(expected: seq<Interval>, present: seq<RawInt>) returns (out: Result<seq<Interval>>)
    ensures out.Ok? <==> (forall i | 0 <= i < |present| :: IsExactInt(present[i])) && |Named(present)| <= 10_000
    ensures out.Ok? ==> out.value == Canon(Elems(expected) - Named(present))
    ensures out == Err(BoundsError) ==> |Named(present)| > 10_000
    ensures out == Err(SchemaError) ==> exists i | 0 <= i < |present| :: !IsExactInt(present[i])
  {
    var normal := NormalizeRanges(expected);
    var seen: seq<int> := [];
    ghost var all := Named(present);
    for k := 0 to |present|
      invariant AscendingKeys(seen)
      invariant forall i | 0 <= i < k :: IsExactInt(present[i])
      invariant forall y :: y in seen <==> y in Named(present[..k])
      invariant |seen| <= MAX_KEYS
    {
      if !IsExactInt(present[k]) {
        return Err(SchemaError);
      }
      InsertKeyAscends(present[k].value, seen);
      NamedStep(present, k);
      seen := InsertKey(present[k].value, seen);
      if |seen| > MAX_KEYS {
        KeysCount(seen, all);
        return Err(BoundsError);
      }
    }
    assert present[..|present|] == present;
    KeysAreNamed(seen, all);
    var output := MissingRuns(normal, seen, all);
    CanonOf(output, Elems(expected) - all);
    return Ok(output);
  }

  /** The output so far ends well before the row and all that follow. */
  predicate EndsBefore(output: seq<Interval>, normal: seq<Interval>, k: nat) {
    forall j | k <= j < |normal| :: EndsBelow(output, normal[j].lo - 1)
  }

  lemma RowDone(normal: seq<Interval>, k: nat, before: seq<Interval>, output: seq<Interval>, all: set<int>)
    requires Separated(normal) && k < |normal| && Canonical(before) && EndsBefore(before, normal, k)
    requires normal[k].lo <= normal[k].hi ==>
               RunsBelow(output, Elems(before), normal[k].lo, normal[k].hi + 1, all)
    requires normal[k].hi < normal[k].lo ==> output == before
    ensures Canonical(output) && EndsBefore(output, normal, k + 1)
    ensures Elems(output) == Elems(before) + (Span(normal[k].lo, normal[k].hi) - all)
  {
    if normal[k].hi < normal[k].lo {
      assert Span(normal[k].lo, normal[k].hi) == {};
    }
  }

  /** The outer loop, over the normal form. */
  method MissingRuns(normal: seq<Interval>, seen: seq<int>, ghost all: set<int>) returns (output: seq<Interval>)
    requires Separated(normal) && AscendingKeys(seen)
    requires forall y :: y in seen <==> y in all
    ensures Canonical(output) && Elems(output) == Elems(normal) - all
  {
    output := [];
    for k := 0 to |normal|
      invariant Canonical(output) && EndsBefore(output, normal, k)
      invariant Elems(output) == Elems(normal[..k]) - all
    {
      var keys := KeysBetween(seen, normal[k].lo, normal[k].hi);
      KeysBetweenAscend(seen, normal[k].lo, normal[k].hi);
      ghost var before := output;
      // A row that ends before it starts has no keys and nothing missing.
      if normal[k].lo <= normal[k].hi {
        output := MissingInOne(normal[k].lo, normal[k].hi, keys, all, output);
      }
      RowDone(normal, k, before, output, all);
      assert normal[..k + 1] == normal[..k] + [normal[k]];
      ElemsLast(normal[..k], normal[k]);
    }
    assert normal[..|normal|] == normal;
  }

  /** The inner loop: append the runs missing inside start..end. */
  method MissingInOne(start: int, end: int, keys: seq<int>, ghost all: set<int>, before: seq<Interval>)
    returns (output: seq<Interval>)
    requires start <= end && AscendingKeys(keys)
    requires forall y :: y in keys <==> y in all && start <= y <= end
    requires Canonical(before) && EndsBelow(before, start - 1)
    ensures RunsBelow(output, Elems(before), start, end + 1, all)
  {
    var current := start;
    output := before;
    for m := 0 to |keys|
      invariant current == if m == 0 then start else keys[m - 1] + 1
      invariant RunsBelow(output, Elems(before), start, current, all)
      invariant EndsBelow(output, current - 1)
    {
      var value := keys[m];
      BeforeKey(keys, m, output, Elems(before), start, end, current, all);
      ghost var next := Extended(output, current, value - 1);
      if value > current {
        output := output + [Interval(current, value - 1)];
      }
      assert output == next;
      current := value + 1;
    }
    AfterKeys(keys, output, Elems(before), start, end, current, all);
    if current <= end {
      output := output + [Interval(current, end)];
    }
  }

  lemma BeforeKey(keys: seq<int>, m: nat, output: seq<Interval>, earlier: set<int>,
                  start: int, end: int, current: int, all: set<int>)
    requires m < |keys| && AscendingKeys(keys)
    requires forall y :: y in keys <==> y in all && start <= y <= end
    requires current == if m == 0 then start else keys[m - 1] + 1
    requires RunsBelow(output, earlier, start, current, all)
    requires EndsBelow(output, current - 1)
    ensures start <= current <= keys[m]
    ensures RunsBelow(Extended(output, current, keys[m] - 1), earlier, start, keys[m] + 1, all)
    ensures EndsBelow(Extended(output, current, keys[m] - 1), keys[m])
  {
    assert keys[m] in keys;
    assert m > 0 ==> keys[m - 1] in keys;
    NoKeyBetween(keys, m, current, keys[m] - 1);
    NextRun(output, earlier, start, current, keys[m], all);
    SkipPresent(Extended(output, current, keys[m] - 1), earlier, start, keys[m], all);
  }

  lemma AfterKeys(keys: seq<int>, output: seq<Interval>, earlier: set<int>,
                  start: int, end: int, current: int, all: set<int>)
    requires AscendingKeys(keys) && start <= end
    requires forall y :: y in keys <==> y in all && start <= y <= end
    requires current == if keys == [] then start else keys[|keys| - 1] + 1
    requires RunsBelow(output, earlier, start, current, all)
    requires EndsBelow(output, current - 1)
    ensures RunsBelow(Extended(output, current, end), earlier, start, end + 1, all)
  {
    assert keys != [] ==> keys[|keys| - 1] in keys;
    NoKeyBetween(keys, |keys|, current, end);
    NextRun(output, earlier, start, current, end + 1, all);
  }

  /** The runs found so far are those missing from start up to just below `next`. */
  ghost predicate RunsBelow(output: seq<Interval>, earlier: set<int>, start: int, next: int, all: set<int>) {
    && Canonical(output)
    && Elems(output) == earlier + (Span(start, next - 1) - all)
    && EndsBelow(output, next)
  }

  lemma NextRun(output: seq<Interval>, earlier: set<int>, start: int, lo: int, next: int, all: set<int>)
    requires RunsBelow(output, earlier, start, lo, all) && start <= lo <= next
    requires EndsBelow(output, lo - 1)
    requires forall x | lo <= x < next :: x !in all
    ensures RunsBelow(Extended(output, lo, next - 1), earlier, start, next, all)
  {
    assert Span(start, next - 1) - all == (Span(start, lo - 1) - all) + Span(lo, next - 1);
    if lo < next {
      ElemsLast(output, Interval(lo, next - 1));
      CanonicalLast(output, Interval(lo, next - 1));
    }
  }

  lemma SkipPresent(output: seq<Interval>, earlier: set<int>, start: int, value: int, all: set<int>)
    requires RunsBelow(output, earlier, start, value, all) && value in all && start <= value
    ensures RunsBelow(output, earlier, start, value + 1, all)
  {
    assert Span(start, value) - all == Span(start, value - 1) - all;
  }

  lemma NoKeyBetween(keys: seq<int>, m: nat, lo: int, hi: int)
    requires AscendingKeys(keys) && m <= |keys|
    requires m > 0 ==> keys[m - 1] < lo
    requires m < |keys| ==> hi < keys[m]
    ensures forall x | x in keys :: !(lo <= x <= hi)
  {
    forall x | x in keys
      ensures !(lo <= x <= hi)
    {
      var i :| 0 <= i < |keys| && keys[i] == x;
      if i < m {
        assert keys[i] <= keys[m - 1];
      } else {
        assert keys[m] <= keys[i];
      }
    }
  }

  predicate FirstBad(rs: seq<Interval>, k: nat) {
    k < |rs| && !ValidRow(rs[k]) && forall i | 0 <= i < k :: ValidRow(rs[i])
  }

  /** `chunk_intervals` run to its end: the chunks yielded, and the error that ended it early
      if any. It yields the request plan of the union, up to the first row of the normal form
      that ends before it starts or leaves the valid sequence numbers. */
  method ChunkIntervals(intervals: seq<Interval>, size: int)
    returns (yielded: seq<Interval>, error: Option<Error>)
    ensures !(1 <= size <= 1000) ==> yielded == [] && error == Some(BoundsError)
    ensures 1 <= size <= 1000 ==>
              var normal := Normalized(intervals);
              if ValidRows(normal) then error == None && yielded == Plan(Elems(intervals), size)
              else error == Some(SchemaError)
                   && exists k: nat :: FirstBad(normal, k) && yielded == ChunkAll(normal[..k], size)
  {
    if !(1 <= size <= MAX_CHUNK) {
      return [], Some(BoundsError);
    }
    var normal := NormalizeRanges(intervals);
    KeptPlan(normal, size);
    var bad;
    yielded, bad := YieldAll(normal, size);
    if bad.Some? {
      assert FirstBad(normal, bad.value);
      return yielded, Some(SchemaError);
    }
    return yielded, None;
  }

  /** The outer loop, up to the first row it refuses. */
  method YieldAll(normal: seq<Interval>, size: nat) returns (yielded: seq<Interval>, bad: Option<nat>)
    requires size >= 1
    ensures bad.None? ==> ValidRows(normal) && yielded == ChunkAll(normal, size)
    ensures bad.Some? ==> FirstBad(normal, bad.value) && yielded == ChunkAll(normal[..bad.value], size)
  {
    yielded := [];
    for k := 0 to |normal|
      invariant yielded == ChunkAll(normal[..k], size)
      invariant forall i | 0 <= i < k :: ValidRow(normal[i])
    {
      var start, end := normal[k].lo, normal[k].hi;
      if !IsExactInt(Number(start)) || !IsExactInt(Number(end)) || end > MAX_SIGNED_INT || end < start {
        return yielded, Some(k);
      }
      yielded := YieldRun(yielded, start, end, size);
      NextRow(normal, k, size);
    }
    assert normal[..|normal|] == normal;
    return yielded, None;
  }

  /** The inner loop: yield the pieces of one row. */
  method YieldRun(before: seq<Interval>, lo: int, hi: int, size: nat) returns (yielded: seq<Interval>)
    requires size >= 1
    ensures yielded == before + ChunkRun(lo, hi, size)
  {
    var start := lo;
    yielded := before;
    while start <= hi
      invariant before + ChunkRun(lo, hi, size) == yielded + ChunkRun(start, hi, size)
      decreases hi - start
    {
      var last := Min(hi, start + size - 1);
      PieceYielded(yielded, start, hi, size);
      yielded := yielded + [Interval(start, last)];
      start := last + 1;
    }
  }

  lemma PieceYielded(yielded: seq<Interval>, start: int, end: int, size: nat)
    requires size >= 1 && start <= end
    ensures var last := Min(end, start + size - 1);
            yielded + ChunkRun(start, end, size) == yielded + [Interval(start, last)] + ChunkRun(last + 1, end, size)
  {
    if end < start + size {
      assert ChunkRun(start + size, end, size) == [] == ChunkRun(end + 1, end, size);
    }
  }

  lemma NextRow(rs: seq<Interval>, k: nat, size: nat)
    requires size >= 1 && k < |rs|
    ensures ChunkAll(rs[..k + 1], size) == ChunkAll(rs[..k], size) + ChunkRun(rs[k].lo, rs[k].hi, size)
  {
    assert rs[..k + 1] == rs[..k] + [rs[k]];
    ChunkAllLast(rs[..k], rs[k], size);
  }

  lemma {:induction false} ChunkAllLast(rs: seq<Interval>, r: Interval, size: nat)
    requires size >= 1
    ensures ChunkAll(rs + [r], size) == ChunkAll(rs, size) + ChunkRun(r.lo, r.hi, size)
    decreases |rs|
  {
    if rs == [] {
      assert rs + [r] == [r] && [r][1..] == [];
    } else {
      ChunkAllLast(rs[1..], r, size);
      assert (rs + [r])[0] == rs[0] && (rs + [r])[1..] == rs[1..] + [r];
      Joined(ChunkRun(rs[0].lo, rs[0].hi, size), ChunkAll(rs[1..], size), ChunkRun(r.lo, r.hi, size));
    }
  }
}
