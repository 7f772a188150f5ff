/** What the archive tables keep through every sample commit: coverage rows denote the stored
    samples, sample rows agree with their versions, counts and gaps are exact. */
module ArchiveInvariant {
  import opened Ranges
  import opened Coverage
  import opened Ledger
  import opened Wrappers
  import M = Models

  /** The coverage rows of a session are canonical and denote exactly its stored sequences. */
  ghost predicate CoverageExact(a: Archive, session: SessionId) {
    Canonical(CoverageOf(a, session)) && Elems(CoverageOf(a, session)) == Stored(a, session)
  }

  /** Every sample row has versions and says what they imply; every version has a row. */
  ghost predicate SamplesAgree(a: Archive) {
    && (forall k | k in a.samples :: VersionsOf(a.versions, k) != {} && a.samples[k] == StatusOf(a.versions, k))
    && (forall v | v in a.versions :: SampleKey(v.session, v.sequence) in a.samples)
  }

  ghost predicate ArchiveOk(a: Archive) {
    SamplesAgree(a) && forall session: SessionId :: CoverageExact(a, session)
  }

  /** A sample is `single` with that version selected when it has exactly one version, and
      `conflict` with none selected when it has several. */
  lemma StatusMeaning(versions: set<VersionId>, key: SampleKey)
    requires VersionsOf(versions, key) != {}
    ensures |VersionsOf(versions, key)| == 1 <==> !StatusOf(versions, key).conflict
    ensures |VersionsOf(versions, key)| >= 2 <==> StatusOf(versions, key).conflict
    ensures StatusOf(versions, key).conflict ==> StatusOf(versions, key).selected == None
    ensures !StatusOf(versions, key).conflict ==>
              && StatusOf(versions, key).selected.Some?
              && VersionsOf(versions, key) == {StatusOf(versions, key).selected.value}
  {
    var vs := VersionsOf(versions, key);
    if v :| vs == {v} {
      assert |vs| == 1;
    } else {
      SomeVersion(vs);
      var u :| u in vs;
      var rest := vs - {u};
      assert vs == rest + {u} && vs != {u};
      assert rest != {};
      assert |rest| == |vs| - 1;
    }
  }

  lemma SomeVersion(vs: set<VersionId>)
    ensures vs == {} || exists v :: v in vs
  {
    if forall v :: v !in vs {
      assert vs == {};
    }
  }

  lemma InStored(a: Archive, session: SessionId, x: int)
    ensures x in Stored(a, session) <==> SampleKey(session, x) in a.samples
  {
    if SampleKey(session, x) in a.samples {
      assert SampleKey(session, x).sequence == x;
    }
  }

  ghost function Sequences(rows: seq<M.SampleRow>): set<int> {
    set r | r in rows :: r.sequence
  }

  lemma StoredAfterRows(a: Archive, session: SessionId, rows: seq<M.SampleRow>, other: SessionId)
    ensures Stored(RowsStored(a, session, rows), other)
         == Stored(a, other) + if other == session then Sequences(rows) else {}
  {
    var b := RowsStored(a, session, rows);
    forall x: int
      ensures x in Stored(b, other) <==> x in Stored(a, other) + if other == session then Sequences(rows) else {}
    {
      InStored(a, other, x);
      InStored(b, other, x);
      if other == session && x in Sequences(rows) {
        var r :| r in rows && r.sequence == x;
        assert SampleKey(session, r.sequence) in RowKeys(session, rows);
      }
    }
  }

  lemma RowsStoredKeepsSamples(a: Archive, session: SessionId, rows: seq<M.SampleRow>)
    requires SamplesAgree(a)
    ensures SamplesAgree(RowsStored(a, session, rows))
  {
    var b := RowsStored(a, session, rows);
    var keys := RowKeys(session, rows);
    forall k | k in b.samples
      ensures VersionsOf(b.versions, k) != {} && b.samples[k] == StatusOf(b.versions, k)
    {
      if k in keys {
        var r :| r in rows && SampleKey(session, r.sequence) == k;
        assert RowVersion(session, r) in RowVersions(session, rows);
        assert RowVersion(session, r) in VersionsOf(b.versions, k);
      } else {
        forall v | v in VersionsOf(b.versions, k)
          ensures v in a.versions
        {
          RowVersionKey(session, rows, v);
        }
        assert VersionsOf(b.versions, k) == VersionsOf(a.versions, k);
      }
    }
    forall v | v in b.versions
      ensures SampleKey(v.session, v.sequence) in b.samples
    {
      RowVersionKey(session, rows, v);
    }
  }

  lemma RowVersionKey(session: SessionId, rows: seq<M.SampleRow>, v: VersionId)
    ensures v in RowVersions(session, rows) ==> SampleKey(v.session, v.sequence) in RowKeys(session, rows)
  {
    if v in RowVersions(session, rows) {
      var r :| r in rows && RowVersion(session, r) == v;
      assert SampleKey(session, r.sequence) in RowKeys(session, rows);
    }
  }

  lemma RowsInRange(rows: seq<M.SampleRow>, range: Interval)
    requires ValidRows(rows, range)
    ensures Sequences(rows) <= Span(range.lo, range.hi)
  {
  }

  /** The coverage of every session stays exact: whatever was stored lies in the range, and
      the rows present in the range are merged. */
  lemma AbsorbedCoverage(a: Archive, mid: ManifestId, range: Interval, rows: seq<M.SampleRow>, other: SessionId)
    requires ValidRows(rows, range) && CoverageExact(a, other)
    ensures CoverageExact(Absorbed(a, mid, range, rows), other)
    ensures Stored(Absorbed(a, mid, range, rows), other)
         == Stored(a, other) + if other == mid.session then Sequences(rows) else {}
  {
    var b := RowsStored(a, mid.session, rows);
    var c := Absorbed(a, mid, range, rows);
    StoredAfterRows(a, mid.session, rows, other);
    RowsInRange(rows, range);
    assert Stored(c, other) == Stored(b, other);
    if other == mid.session {
      var present := Stored(b, other) * Span(range.lo, range.hi);
      assert Sequences(rows) <= present;
      assert Elems(CoverageOf(b, other)) + present == Stored(b, other);
    }
  }

  /** ArchiveOk is kept by every commit of a valid response. */
  lemma AbsorbedKeepsArchive(a: Archive, mid: ManifestId, range: Interval, rows: seq<M.SampleRow>)
    requires ArchiveOk(a) && ValidRows(rows, range)
    ensures ArchiveOk(Absorbed(a, mid, range, rows))
  {
    var c := Absorbed(a, mid, range, rows);
    RowsStoredKeepsSamples(a, mid.session, rows);
    forall session: SessionId
      ensures CoverageExact(c, session)
    {
      AbsorbedCoverage(a, mid, range, rows, session);
    }
  }

  /** Versions are append-only and a conflict, once seen, stays. */
  lemma VersionsGrow(a: Archive, mid: ManifestId, range: Interval, rows: seq<M.SampleRow>)
    requires ArchiveOk(a) && ValidRows(rows, range)
    ensures a.versions <= Absorbed(a, mid, range, rows).versions
    ensures a.samples.Keys <= Absorbed(a, mid, range, rows).samples.Keys
    ensures forall k | k in a.samples && a.samples[k].conflict :: Absorbed(a, mid, range, rows).samples[k].conflict
  {
    var c := RowsStored(a, mid.session, rows);
    RowsStoredKeepsSamples(a, mid.session, rows);
    forall k | k in a.samples && a.samples[k].conflict
      ensures c.samples[k].conflict
    {
      StatusMeaning(a.versions, k);
      StatusMeaning(c.versions, k);
      var now, before := VersionsOf(c.versions, k), VersionsOf(a.versions, k);
      assert now == before + (now - before);
    }
  }

  /** Coverage only grows. */
  lemma CoverageGrows(a: Archive, mid: ManifestId, range: Interval, rows: seq<M.SampleRow>, session: SessionId)
    requires CoverageExact(a, session) && ValidRows(rows, range)
    ensures Elems(CoverageOf(a, session)) <= Elems(CoverageOf(Absorbed(a, mid, range, rows), session))
  {
    AbsorbedCoverage(a, mid, range, rows, session);
  }

  /** `committed` counts exactly the versions the commit adds. */
  lemma CommittedCountsVersions(a: Archive, mid: ManifestId, range: Interval, rows: seq<M.SampleRow>)
    ensures |Absorbed(a, mid, range, rows).versions| == |a.versions| + CommitCounts(a, mid, range, rows).committed
  {
    var added := RowVersions(mid.session, rows);
    assert Absorbed(a, mid, range, rows).versions == a.versions + (added - a.versions);
  }

  /** Conservation at a commit: missing rows plus the samples present in the requested range
      make up the whole range, and the missing runs are the requested numbers not stored. */
  lemma MissingPlusPresent(a: Archive, mid: ManifestId, range: Interval, rows: seq<M.SampleRow>)
    requires ArchiveOk(a) && ValidRows(rows, range) && range.lo <= range.hi
    ensures var c := Absorbed(a, mid, range, rows);
            && MissingIn(c, mid.session, range) == Canon(Span(range.lo, range.hi) - Stored(c, mid.session))
            && CommitCounts(a, mid, range, rows).missing + |Stored(c, mid.session) * Span(range.lo, range.hi)|
               == range.hi - range.lo + 1
  {
    assert CoverageExact(a, mid.session);
    AbsorbedCoverage(a, mid, range, rows, mid.session);
    LengthsAddUp(range, Stored(Absorbed(a, mid, range, rows), mid.session));
  }

  lemma LengthsAddUp(range: Interval, have: set<int>)
    requires range.lo <= range.hi
    ensures TotalLength(Canon(Span(range.lo, range.hi) - have)) + |have * Span(range.lo, range.hi)|
             == range.hi - range.lo + 1
  {
    var asked := Span(range.lo, range.hi);
    TotalLengthIsCardinality(Canon(asked - have));
    SpanSize(range.lo, range.hi);
    assert asked == (asked - have) + (have * asked);
  }

  lemma GapOpenIff(gaps: map<GapKey, bool>, mid: ManifestId, range: Interval, missing: seq<Interval>, gap: GapKey)
    requires gap.session == mid.session && gap.manifest == mid && Meets(gap.range, range)
    ensures var after := GapsRefreshed(gaps, mid, range, missing);
            (gap in after && after[gap]) <==> gap.range in missing
  {
    if gap.range in missing {
      assert GapKey(mid.session, mid, gap.range) in GapKeys(mid, missing);
    }
  }

  lemma AbsorbedGaps(a: Archive, mid: ManifestId, range: Interval, rows: seq<M.SampleRow>, c: Archive)
    requires ArchiveOk(a) && ValidRows(rows, range) && range.lo <= range.hi
    requires c == Absorbed(a, mid, range, rows)
    ensures c.gaps == GapsRefreshed(a.gaps, mid, range, Canon(Span(range.lo, range.hi) - Stored(c, mid.session)))
  {
    MissingPlusPresent(a, mid, range, rows);
  }

  /** After a commit the open gaps of its session and manifest that meet the request are
      exactly the maximal runs of requested but absent sequences. */
  lemma GapsAreMissingRuns(a: Archive, mid: ManifestId, range: Interval, rows: seq<M.SampleRow>, gap: GapKey,
                           c: Archive, absent: set<int>)
    requires ArchiveOk(a) && ValidRows(rows, range) && range.lo <= range.hi
    requires gap.session == mid.session && gap.manifest == mid
    requires gap.range.lo <= range.hi && range.lo <= gap.range.hi
    requires c == Absorbed(a, mid, range, rows)
    requires absent == Span(range.lo, range.hi) - Stored(c, mid.session)
    ensures (gap in c.gaps && c.gaps[gap]) <==>
            && gap.range.lo <= gap.range.hi && Span(gap.range.lo, gap.range.hi) <= absent
            && gap.range.lo - 1 !in absent && gap.range.hi + 1 !in absent
  {
    AbsorbedGaps(a, mid, range, rows, c);
    GapOpenIff(a.gaps, mid, range, Canon(absent), gap);
    CanonIsMaximalRuns(absent, gap.range);
  }

  lemma OpenedGapMeets(mid: ManifestId, range: Interval, covered: set<int>, gap: GapKey)
    requires gap in GapKeys(mid, Canon(Span(range.lo, range.hi) - covered))
    ensures gap.session == mid.session && gap.manifest == mid && Meets(gap.range, range)
  {
    var missing := Canon(Span(range.lo, range.hi) - covered);
    var r :| r in missing && gap == GapKey(mid.session, mid, r);
    RunIsMaximal(missing, r);
    assert r.lo in Span(r.lo, r.hi);
    assert r.lo in Span(range.lo, range.hi);
  }

  /** Gap rows that another session or manifest owns, or that do not meet the request, keep
      their state. */
  lemma OtherGapsKept(a: Archive, mid: ManifestId, range: Interval, rows: seq<M.SampleRow>, gap: GapKey)
    requires gap in a.gaps
    requires gap.session != mid.session || gap.manifest != mid || gap.range.hi < range.lo || range.hi < gap.range.lo
    ensures gap in Absorbed(a, mid, range, rows).gaps
    ensures Absorbed(a, mid, range, rows).gaps[gap] == a.gaps[gap]
  {
    var merged := RangeMerged(RowsStored(a, mid.session, rows), mid.session, range);
    var covered := Elems(CoverageOf(merged, mid.session));
    if gap in GapKeys(mid, Canon(Span(range.lo, range.hi) - covered)) {
      OpenedGapMeets(mid, range, covered, gap);
    }
  }
}
