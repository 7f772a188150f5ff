/** Inclusive sequence-number intervals and their canonical form.

    Every interval routine of the archive (normalizing a manifest, merging coverage,
    finding runs of present or missing rows) is specified by one function, `Canon`: the
    unique sorted list of pairwise separated intervals that denotes a given set of
    sequence numbers. */
module Ranges {

  /** The inclusive interval lo..hi; it denotes nothing when hi < lo. */
  datatype Interval = Interval(lo: int, hi: int)

  /** The set lo..hi of sequence numbers. */
  ghost function Span(lo: int, hi: int): (s: set<int>)
    ensures forall x: int :: x in s <==> lo <= x <= hi
  {
    set x: int {:trigger Between(lo, x, hi)} | lo <= x <= hi && Between(lo, x, hi)
  }

  predicate Between(lo: int, x: int, hi: int) {
    lo <= x <= hi
  }

  /** The sequence numbers an interval list denotes. */
  ghost function Elems(rs: seq<Interval>): set<int> {
    if rs == [] then {} else Span(rs[0].lo, rs[0].hi) + Elems(rs[1..])
  }

  /** A number is denoted exactly when some interval of the list holds it. */
  lemma {:induction false} InElems(rs: seq<Interval>, x: int)
    ensures x in Elems(rs) <==> exists i | 0 <= i < |rs| :: rs[i].lo <= x <= rs[i].hi
    decreases |rs|
  {
    if rs != [] {
      InElems(rs[1..], x);
      if x in Elems(rs[1..]) {
        var i :| 0 <= i < |rs[1..]| && rs[1..][i].lo <= x <= rs[1..][i].hi;
        assert rs[i + 1].lo <= x <= rs[i + 1].hi;
      }
      if i :| 0 <= i < |rs| && rs[i].lo <= x <= rs[i].hi {
        assert i > 0 ==> rs[1..][i - 1] == rs[i];
      }
    }
  }

  ghost predicate AllBelow(s: set<int>, bound: int) {
    forall x | x in s :: x < bound
  }

  ghost predicate AllAbove(s: set<int>, bound: int) {
    forall x | x in s :: bound < x
  }

  predicate AllNonempty(rs: seq<Interval>) {
    forall r | r in rs :: r.lo <= r.hi
  }

  /** Nonempty intervals in ascending order, each separated from the next. */
  predicate Canonical(rs: seq<Interval>) {
    rs == [] || (rs[0].lo <= rs[0].hi && HeadAbove(rs[1..], rs[0].hi) && Canonical(rs[1..]))
  }

  /** The list starts beyond x, and not adjacent to it. */
  predicate HeadAbove(rs: seq<Interval>, x: int) {
    rs != [] ==> x + 1 < rs[0].lo
  }

  predicate EndsBelow(rs: seq<Interval>, x: int) {
    rs != [] ==> rs[|rs| - 1].hi < x
  }

  /** The list extended by lo..hi when that is not empty. */
  function Extended(rs: seq<Interval>, lo: int, hi: int): seq<Interval> {
    if lo <= hi then rs + [Interval(lo, hi)] else rs
  }

  /** Canonical lists are the sorted lists of nonempty, pairwise disjoint, pairwise
      non-adjacent intervals. */
  lemma {:induction false} CanonicalPairwise(rs: seq<Interval>)
    ensures Canonical(rs) <==>
            && (forall i | 0 <= i < |rs| :: rs[i].lo <= rs[i].hi)
            && (forall i, j | 0 <= i < j < |rs| :: rs[i].hi + 1 < rs[j].lo)
    decreases |rs|
  {
    if rs != [] {
      var rest := rs[1..];
      CanonicalPairwise(rest);
      assert forall i | 0 <= i < |rest| :: rest[i] == rs[i + 1];
      if Canonical(rs) {
        forall i, j | 0 <= i < j < |rs|
          ensures rs[i].hi + 1 < rs[j].lo
        {
          if i > 0 {
            assert rest[i - 1].hi + 1 < rest[j - 1].lo;
          } else if j > 1 {
            assert rest[0].hi + 1 < rest[j - 1].lo;
          }
        }
        forall i | 0 <= i < |rs|
          ensures rs[i].lo <= rs[i].hi
        {
          assert i > 0 ==> rest[i - 1].lo <= rest[i - 1].hi;
        }
      }
      if (forall i | 0 <= i < |rs| :: rs[i].lo <= rs[i].hi)
         && (forall i, j | 0 <= i < j < |rs| :: rs[i].hi + 1 < rs[j].lo) {
        assert rs[0].lo <= rs[0].hi;
        assert rest != [] ==> rs[0].hi + 1 < rs[1].lo;
      }
    }
  }

  lemma CanonicalNonempty(rs: seq<Interval>)
    requires Canonical(rs)
    ensures AllNonempty(rs)
  {
    CanonicalPairwise(rs);
  }

  lemma {:induction false} ElemsAppend(a: seq<Interval>, b: seq<Interval>)
    ensures Elems(a + b) == Elems(a) + Elems(b)
    decreases |a|
  {
    if a == [] {
      assert a + b == b;
    } else {
      ElemsAppend(a[1..], b);
      assert (a + b)[1..] == a[1..] + b;
    }
  }

  lemma ElemsCons(r: Interval, rest: seq<Interval>)
    ensures Elems([r] + rest) == Span(r.lo, r.hi) + Elems(rest)
  {
    assert ([r] + rest)[1..] == rest;
  }

  /** Everything a canonical list denotes lies between its first start and last end. */
  lemma {:induction false} CanonicalBounds(rs: seq<Interval>, x: int)
    requires Canonical(rs) && HeadAbove(rs, x)
    ensures forall y | y in Elems(rs) :: x + 1 < y
    decreases |rs|
  {
    if rs != [] {
      CanonicalBounds(rs[1..], rs[0].hi);
    }
  }

  lemma CanonicalCons(r: Interval, rest: seq<Interval>)
    requires r.lo <= r.hi && Canonical(rest) && HeadAbove(rest, r.hi)
    ensures Canonical([r] + rest)
  {
    assert ([r] + rest)[1..] == rest;
  }

  /** The first interval of a canonical list is the first maximal run of its set. */
  lemma HeadIsFirstRun(rs: seq<Interval>)
    requires Canonical(rs) && rs != []
    ensures Canonical(rs[1..]) && rs[0].lo <= rs[0].hi
    ensures rs[0].lo in Elems(rs) && rs[0].hi in Elems(rs) && rs[0].hi + 1 !in Elems(rs)
    ensures forall x | x in Elems(rs) :: rs[0].lo <= x
    ensures forall x | x in Elems(rs[1..]) :: rs[0].hi + 1 < x
  {
    CanonicalBounds(rs[1..], rs[0].hi);
    assert rs[0].lo in Span(rs[0].lo, rs[0].hi);
    assert rs[0].hi in Span(rs[0].lo, rs[0].hi);
  }

  /** A canonical list is determined by the set it denotes. */
  lemma {:induction false} CanonicalUnique(a: seq<Interval>, b: seq<Interval>)
    requires Canonical(a) && Canonical(b)
    requires Elems(a) == Elems(b)
    ensures a == b
    decreases |a|
  {
    if a != [] { HeadIsFirstRun(a); }
    if b != [] { HeadIsFirstRun(b); }
    if a != [] && b != [] {
      assert a[0] == b[0];
      assert Elems(a[1..]) == Elems(b[1..]) by {
        forall x: int ensures x in Elems(a[1..]) <==> x in Elems(b[1..]) {
          assert x in Elems(a[1..]) <==> x in Elems(a) && a[0].hi < x;
          assert x in Elems(b[1..]) <==> x in Elems(b) && b[0].hi < x;
        }
      }
      CanonicalUnique(a[1..], b[1..]);
      assert a == [a[0]] + a[1..] && b == [b[0]] + b[1..];
    }
  }

  function Min(a: int, b: int): int { if a <= b then a else b }

  function Max(a: int, b: int): int { if a <= b then b else a }

  /** Insert one interval into a canonical list, absorbing what it touches. */
  function Insert(rs: seq<Interval>, lo: int, hi: int): (out: seq<Interval>)
    requires Canonical(rs) && lo <= hi
    ensures Canonical(out)
    ensures Elems(out) == Elems(rs) + Span(lo, hi)
    ensures out != [] && out[0].lo == if rs == [] then lo else Min(lo, rs[0].lo)
    decreases |rs|
  {
    if rs == [] then
      ElemsCons(Interval(lo, hi), []);
      assert [Interval(lo, hi)] == [Interval(lo, hi)] + [];
      [Interval(lo, hi)]
    else
      if rs[0].hi + 1 < lo then
        var rest := Insert(rs[1..], lo, hi);
        CanonicalCons(rs[0], rest);
        ElemsCons(rs[0], rest);
        [rs[0]] + rest
      else if hi + 1 < rs[0].lo then
        CanonicalCons(Interval(lo, hi), rs);
        ElemsCons(Interval(lo, hi), rs);
        [Interval(lo, hi)] + rs
      else
        assert Span(rs[0].lo, rs[0].hi) + Span(lo, hi) == Span(Min(lo, rs[0].lo), Max(hi, rs[0].hi));
        Insert(rs[1..], Min(lo, rs[0].lo), Max(hi, rs[0].hi))
  }

  lemma SomeElement(s: set<int>)
    ensures s == {} || exists x: int :: x in s
  {
    if forall x: int :: x !in s {
      assert s == {};
    }
  }

  /** Every finite set has a canonical list: insert its members one by one. */
  lemma {:induction false} CanonExists(s: set<int>) returns (rs: seq<Interval>)
    ensures Canonical(rs) && Elems(rs) == s
    decreases |s|
  {
    if s == {} {
      rs := [];
    } else {
      SomeElement(s);
      var x :| x in s;
      rs := CanonExists(s - {x});
      assert s == (s - {x}) + Span(x, x);
      rs := Insert(rs, x, x);
    }
  }

  ghost predicate Denotes(rs: seq<Interval>, s: set<int>) {
    Canonical(rs) && Elems(rs) == s
  }

  /** The canonical list of a set: its maximal runs in ascending order. */
  ghost function Canon(s: set<int>): (rs: seq<Interval>)
    ensures Canonical(rs) && Elems(rs) == s
  {
    assert exists rs :: Denotes(rs, s) by {
      var rs := CanonExists(s);
      assert Denotes(rs, s);
    }
    var rs :| Denotes(rs, s);
    rs
  }

  /** `Canon` inverts `Elems`: any canonical list is the `Canon` of what it denotes. */
  lemma CanonOf(rs: seq<Interval>, s: set<int>)
    requires Canonical(rs) && Elems(rs) == s
    ensures rs == Canon(s)
  {
    CanonicalUnique(rs, Canon(s));
  }

  /** The intervals of Canon(s) are exactly the maximal runs of s. */
  lemma CanonIsMaximalRuns(s: set<int>, r: Interval)
    ensures r in Canon(s) <==>
            && r.lo <= r.hi && Span(r.lo, r.hi) <= s
            && r.lo - 1 !in s && r.hi + 1 !in s
  {
    var rs := Canon(s);
    if r in rs {
      RunIsMaximal(rs, r);
    }
    if r.lo <= r.hi && Span(r.lo, r.hi) <= s && r.lo - 1 !in s && r.hi + 1 !in s {
      assert r.lo in Elems(rs);
      InElems(rs, r.lo);
      var i :| 0 <= i < |rs| && rs[i].lo <= r.lo <= rs[i].hi;
      var q := rs[i];
      RunIsMaximal(rs, q);
      assert q.lo < r.lo ==> r.lo - 1 in Span(q.lo, q.hi);
      assert q.hi < r.hi ==> q.hi + 1 in Span(r.lo, r.hi);
      assert r.hi < q.hi ==> r.hi + 1 in Span(q.lo, q.hi);
      assert q == r;
    }
  }

  /** The first maximal run is recognized by its start, its contents and its stop. */
  lemma HeadRunOf(s: set<int>, r: Interval)
    requires r.lo <= r.hi && Span(r.lo, r.hi) <= s && r.hi + 1 !in s
    requires forall x | x in s :: r.lo <= x
    ensures Canon(s) != [] && Canon(s)[0] == r
  {
    assert r.lo in s;
    var rs := Canon(s);
    HeadIsFirstRun(rs);
    RunIsMaximal(rs, rs[0]);
    assert r.hi + 1 !in Span(rs[0].lo, rs[0].hi) && rs[0].hi + 1 !in Span(r.lo, r.hi);
  }

  lemma RunIsMaximal(rs: seq<Interval>, r: Interval)
    requires Canonical(rs) && r in rs
    ensures r.lo <= r.hi && Span(r.lo, r.hi) <= Elems(rs)
    ensures r.lo - 1 !in Elems(rs) && r.hi + 1 !in Elems(rs)
  {
    var i :| 0 <= i < |rs| && rs[i] == r;
    forall x | x in Span(r.lo, r.hi)
      ensures x in Elems(rs)
    {
      InElems(rs, x);
    }
    InElems(rs, r.lo - 1);
    InElems(rs, r.hi + 1);
    CanonicalPairwise(rs);
    forall j | 0 <= j < |rs|
      ensures !(rs[j].lo <= r.lo - 1 <= rs[j].hi) && !(rs[j].lo <= r.hi + 1 <= rs[j].hi)
    {
      if j < i {
        assert rs[j].hi + 1 < rs[i].lo;
      } else if i < j {
        assert rs[i].hi + 1 < rs[j].lo;
      }
    }
  }

  /** Number of sequence numbers, by interval arithmetic. */
  function TotalLength(rs: seq<Interval>): int {
    if rs == [] then 0 else rs[0].hi - rs[0].lo + 1 + TotalLength(rs[1..])
  }

  lemma {:induction false} SpanSize(lo: int, hi: int)
    requires lo - 1 <= hi
    ensures |Span(lo, hi)| == hi - lo + 1
    decreases hi - lo + 1
  {
    if lo - 1 == hi {
      assert Span(lo, hi) == {};
    } else {
      SpanSize(lo, hi - 1);
      assert Span(lo, hi) == Span(lo, hi - 1) + {hi};
    }
  }

  /** On a canonical list interval arithmetic counts the denoted set. */
  lemma {:induction false} TotalLengthIsCardinality(rs: seq<Interval>)
    requires Canonical(rs)
    ensures TotalLength(rs) == |Elems(rs)|
    decreases |rs|
  {
    if rs != [] {
      CanonicalBounds(rs[1..], rs[0].hi);
      TotalLengthIsCardinality(rs[1..]);
      SpanSize(rs[0].lo, rs[0].hi);
      assert Span(rs[0].lo, rs[0].hi) !! Elems(rs[1..]);
    }
  }

  lemma {:induction false} TotalLengthAppend(a: seq<Interval>, b: seq<Interval>)
    ensures TotalLength(a + b) == TotalLength(a) + TotalLength(b)
    decreases |a|
  {
    if a == [] {
      assert a + b == b;
    } else {
      TotalLengthAppend(a[1..], b);
      assert (a + b)[1..] == a[1..] + b;
    }
  }

  lemma TotalLengthStep(rs: seq<Interval>, k: nat)
    requires k < |rs|
    ensures TotalLength(rs[..k + 1]) == TotalLength(rs[..k]) + rs[k].hi - rs[k].lo + 1
  {
    assert rs[..k + 1] == rs[..k] + [rs[k]];
    TotalLengthAppend(rs[..k], [rs[k]]);
    assert [rs[k]][1..] == [];
  }
}
