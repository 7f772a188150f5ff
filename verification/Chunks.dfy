/** Tiling a set of sequence numbers with bounded request chunks. */
module Chunks {
  import opened Ranges
  import opened Wrappers

  /** Greedy pieces of one run. */
  function ChunkRun(lo: int, hi: int, size: nat): seq<Interval>
    requires size >= 1
    decreases hi - lo + 1
  {
    if hi < lo then [] else [Interval(lo, Min(hi, lo + size - 1))] + ChunkRun(lo + size, hi, size)
  }

  function ChunkAll(rs: seq<Interval>, size: nat): seq<Interval>
    requires size >= 1
  {
    if rs == [] then [] else ChunkRun(rs[0].lo, rs[0].hi, size) + ChunkAll(rs[1..], size)
  }

  /** The request plan for a set: greedy pieces of each of its maximal runs. */
  ghost function Plan(s: set<int>, size: nat): seq<Interval>
    requires size >= 1
  {
    ChunkAll(Canon(s), size)
  }

  /** The next request for a set of wanted numbers. */
  ghost function FirstChunk(s: set<int>, size: nat): Option<Interval>
    requires size >= 1
  {
    var cs := Plan(s, size);
    if cs == [] then None else Some(cs[0])
  }

  /** Ascending, nonempty, pairwise disjoint pieces of at most `size` numbers. */
  predicate Tiles(cs: seq<Interval>, size: nat) {
    && (forall i | 0 <= i < |cs| :: cs[i].lo <= cs[i].hi <= cs[i].lo + size - 1)
    && forall i, j | 0 <= i < j < |cs| :: cs[i].hi < cs[j].lo
  }

  lemma TilesAppend(a: seq<Interval>, b: seq<Interval>, size: nat, middle: int)
    requires Tiles(a, size) && Tiles(b, size)
    requires AllBelow(Elems(a), middle + 1) && AllAbove(Elems(b), middle)
    ensures Tiles(a + b, size)
  {
    var cs := a + b;
    forall i, j | 0 <= i < j < |cs|
      ensures cs[i].hi < cs[j].lo
    {
      if i < |a| <= j {
        InElems(a, a[i].hi);
        InElems(b, b[j - |a|].lo);
      }
    }
  }

  lemma {:induction false} ChunkRunTiles(lo: int, hi: int, size: nat)
    requires size >= 1
    ensures Tiles(ChunkRun(lo, hi, size), size)
    ensures Elems(ChunkRun(lo, hi, size)) == Span(lo, hi)
    decreases hi - lo + 1
  {
    if lo <= hi {
      var end := Min(hi, lo + size - 1);
      var head, rest := Interval(lo, end), ChunkRun(lo + size, hi, size);
      ChunkRunTiles(lo + size, hi, size);
      ElemsCons(head, rest);
      ElemsCons(head, []);
      assert [head] + [] == [head];
      TilesAppend([head], rest, size, end);
      assert Span(lo, hi) == Span(lo, end) + Span(lo + size, hi);
    }
  }

  lemma {:induction false} ChunkAllTiles(rs: seq<Interval>, size: nat)
    requires size >= 1 && Canonical(rs)
    ensures Tiles(ChunkAll(rs, size), size)
    ensures Elems(ChunkAll(rs, size)) == Elems(rs)
    decreases |rs|
  {
    if rs != [] {
      HeadIsFirstRun(rs);
      ChunkRunTiles(rs[0].lo, rs[0].hi, size);
      ChunkAllTiles(rs[1..], size);
      ElemsAppend(ChunkRun(rs[0].lo, rs[0].hi, size), ChunkAll(rs[1..], size));
      TilesAppend(ChunkRun(rs[0].lo, rs[0].hi, size), ChunkAll(rs[1..], size), size, rs[0].hi);
    }
  }

  /** The plan tiles the set exactly: every number once, nothing else, no piece too long. */
  lemma ChunksTile(s: set<int>, size: nat)
    requires size >= 1
    ensures Tiles(Plan(s, size), size)
    ensures Elems(Plan(s, size)) == s
  {
    ChunkAllTiles(Canon(s), size);
  }

  /** What a canonical list leaves to request after its first piece. */
  function AfterHead(rs: seq<Interval>, size: nat): seq<Interval>
    requires size >= 1 && rs != []
  {
    if rs[0].hi <= rs[0].lo + size - 1 then rs[1..]
    else [Interval(rs[0].lo + size, rs[0].hi)] + rs[1..]
  }

  lemma AfterHeadIsCanonical(rs: seq<Interval>, size: nat)
    requires size >= 1 && rs != [] && Canonical(rs)
    ensures Canonical(AfterHead(rs, size))
    ensures Elems(AfterHead(rs, size)) == Elems(rs) - Span(rs[0].lo, Min(rs[0].hi, rs[0].lo + size - 1))
  {
    HeadIsFirstRun(rs);
    if rs[0].hi > rs[0].lo + size - 1 {
      var run := Interval(rs[0].lo + size, rs[0].hi);
      CanonicalCons(run, rs[1..]);
      ElemsCons(run, rs[1..]);
    }
  }

  lemma ChunkAllCons(r: Interval, rest: seq<Interval>, size: nat)
    requires size >= 1
    ensures ChunkAll([r] + rest, size) == ChunkRun(r.lo, r.hi, size) + ChunkAll(rest, size)
  {
    assert ([r] + rest)[1..] == rest;
  }

  lemma ChunkAllHead(rs: seq<Interval>, size: nat)
    requires size >= 1 && rs != [] && Canonical(rs)
    ensures ChunkAll(rs, size)
         == [Interval(rs[0].lo, Min(rs[0].hi, rs[0].lo + size - 1))] + ChunkAll(AfterHead(rs, size), size)
  {
    HeadIsFirstRun(rs);
    var head := Interval(rs[0].lo, Min(rs[0].hi, rs[0].lo + size - 1));
    var tail := ChunkRun(rs[0].lo + size, rs[0].hi, size);
    var rest := ChunkAll(rs[1..], size);
    assert ChunkAll(rs, size) == ([head] + tail) + rest;
    assert ([head] + tail) + rest == [head] + (tail + rest);
    assert ChunkAll(AfterHead(rs, size), size) == tail + rest by {
      if rs[0].hi <= rs[0].lo + size - 1 {
        assert tail == [] && tail + rest == rest;
      } else {
        ChunkAllCons(Interval(rs[0].lo + size, rs[0].hi), rs[1..], size);
      }
    }
  }

  lemma CanonicalPlanTail(rs: seq<Interval>, size: nat, head: Interval)
    requires size >= 1 && rs != [] && Canonical(rs)
    requires head == Interval(rs[0].lo, Min(rs[0].hi, rs[0].lo + size - 1))
    ensures ChunkAll(rs, size) == [head] + Plan(Elems(rs) - Span(head.lo, head.hi), size)
  {
    ChunkAllHead(rs, size);
    AfterHeadIsCanonical(rs, size);
    CanonOf(AfterHead(rs, size), Elems(rs) - Span(head.lo, head.hi));
  }

  /** After its first chunk is served, the plan of what is left is the rest of the plan. */
  lemma ChunksTail(s: set<int>, size: nat)
    requires size >= 1 && s != {}
    ensures Plan(s, size) != []
    ensures Plan(s, size)[0] == Interval(Canon(s)[0].lo, Min(Canon(s)[0].hi, Canon(s)[0].lo + size - 1))
    ensures Plan(s, size)[1..] == Plan(s - Span(Plan(s, size)[0].lo, Plan(s, size)[0].hi), size)
  {
    var rs := Canon(s);
    CanonicalPlanTail(rs, size, Interval(rs[0].lo, Min(rs[0].hi, rs[0].lo + size - 1)));
  }

  /** The first chunk starts at the least wanted number and stays inside its run. */
  lemma FirstChunkFacts(s: set<int>, size: nat)
    requires size >= 1
    ensures FirstChunk(s, size).None? <==> s == {}
    ensures FirstChunk(s, size).Some? ==>
              var c := FirstChunk(s, size).value;
              && c.lo <= c.hi < c.lo + size && c.lo in s && Span(c.lo, c.hi) <= s
              && (forall x | x in s :: c.lo <= x)
              && (c.hi + 1 !in s || c.hi == c.lo + size - 1)
  {
    if s == {} {
      CanonOf([], s);
    } else {
      ChunksTail(s, size);
      ChunksTile(s, size);
      HeadIsFirstRun(Canon(s));
    }
  }

  /** Two chunk starts are `size` apart, or some number outside the set separates them. */
  predicate Apart(s: set<int>, a: int, b: int, size: nat) {
    a + size <= b || exists x | a < x < b :: x !in s
  }

  lemma {:induction false} ChunkStartsApart(s: set<int>, size: nat, cs: seq<Interval>, i: nat, j: nat)
    requires size >= 1 && cs == Plan(s, size) && i < j < |cs|
    ensures Apart(s, cs[i].lo, cs[j].lo, size)
    decreases i
  {
    ChunksTile(s, size);
    SomeChunkMakesNonempty(s, size);
    var left := s - Span(cs[0].lo, cs[0].hi);
    assert cs[1..] == Plan(left, size) by { ChunksTail(s, size); }
    assert cs[0].hi < cs[j].lo;
    if i == 0 {
      FirstChunkFacts(s, size);
      if cs[0].hi + 1 !in s {
        InElems(cs, cs[j].lo);
        assert cs[0].lo < cs[0].hi + 1 < cs[j].lo;
      }
    } else {
      ChunkStartsApart(left, size, cs[1..], i - 1, j - 1);
      assert cs[0].hi < cs[i].lo;
      if x :| cs[i].lo < x < cs[j].lo && x !in left {
        assert x !in s;
      }
    }
  }

  lemma SomeChunkMakesNonempty(s: set<int>, size: nat)
    requires size >= 1 && Plan(s, size) != []
    ensures s != {}
  {
    if s == {} { CanonOf([], s); }
  }

  /** A sequence of distinct naturals below n has at most n entries. */
  lemma {:induction false} Pigeonhole(f: seq<nat>, n: nat)
    requires forall i | 0 <= i < |f| :: f[i] < n
    requires forall i, j | 0 <= i < j < |f| :: f[i] != f[j]
    ensures |f| <= n
    decreases n
  {
    if f != [] {
      assert f[0] < n;
      if k :| 0 <= k < |f| && f[k] == n - 1 {
        Pigeonhole(f[..k] + f[k + 1..], n - 1);
      } else {
        Pigeonhole(f, n - 1);
      }
    }
  }

  /** No family of intervals inside the set, each of at most `size` numbers, that covers
      the set is smaller than the plan. */
  lemma ChunksAreFewest(s: set<int>, size: nat, tiling: seq<Interval>)
    requires size >= 1
    requires forall t | t in tiling :: Span(t.lo, t.hi) <= s && t.hi - t.lo < size
    requires Elems(tiling) == s
    ensures |Plan(s, size)| <= |tiling|
  {
    var cs := Plan(s, size);
    ChunksTile(s, size);
    forall i | 0 <= i < |cs|
      ensures exists k: nat :: k < |tiling| && tiling[k].lo <= cs[i].lo <= tiling[k].hi
    {
      InElems(cs, cs[i].lo);
      InElems(tiling, cs[i].lo);
    }
    var f := seq(|cs|, i requires 0 <= i < |cs| =>
      var k: nat :| k < |tiling| && tiling[k].lo <= cs[i].lo <= tiling[k].hi; k);
    forall i, j | 0 <= i < j < |f|
      ensures f[i] != f[j]
    {
      assert tiling[f[i]] in tiling;
      ChunkStartsApart(s, size, cs, i, j);
      var t := tiling[f[i]];
      assert forall x | t.lo <= x <= t.hi :: x in Span(t.lo, t.hi);
      assert cs[i].lo < cs[j].lo;
    }
    Pigeonhole(f, |tiling|);
  }
}
