/** storage/repository.py, `ArchiveRepository`: the tables as fields and the `async_*` writers as
    methods that change them row by row. Each is proved to perform one atomic step of the ledger. */
module Repository {
  import opened Ranges
  import opened Chunks
  import opened Coverage
  import opened Ledger
  import opened ArchiveInvariant
  import opened LedgerInvariant
  import opened LedgerRuns
  import opened LedgerFaults
  import opened LedgerPayloads
  import opened LedgerSchedule
  import opened Wrappers
  import M = Models

  // ---- Storing rows one at a time --------------------------------------------------------

  predicate FreshSequence(done: seq<M.SampleRow>, row: M.SampleRow) {
    forall r | r in done :: r.sequence != row.sequence
  }

  lemma RowVersionsAppend(session: SessionId, done: seq<M.SampleRow>, row: M.SampleRow)
    ensures RowVersions(session, done + [row]) == RowVersions(session, done) + {RowVersion(session, row)}
    ensures RowKeys(session, done + [row]) == RowKeys(session, done) + {SampleKey(session, row.sequence)}
  {
    assert row in done + [row];
    assert forall r | r in done :: r in done + [row];
  }

  /** A row leaves the versions of every other sequence alone. */
  lemma OtherVersionsKept(versions: set<VersionId>, v: VersionId, key: SampleKey)
    requires v.session != key.session || v.sequence != key.sequence
    ensures VersionsOf(versions + {v}, key) == VersionsOf(versions, key)
    ensures StatusOf(versions + {v}, key) == StatusOf(versions, key)
  {
    assert VersionsOf(versions + {v}, key) == VersionsOf(versions, key);
  }

  lemma KeyOfRow(session: SessionId, done: seq<M.SampleRow>, row: M.SampleRow, k: SampleKey)
    requires FreshSequence(done, row) && k in RowKeys(session, done)
    ensures k != SampleKey(session, row.sequence) && k.session == session
  {
    var r :| r in done && SampleKey(session, r.sequence) == k;
  }

  /** The tables after one more row. */
  lemma RowStep(a: Archive, session: SessionId, done: seq<M.SampleRow>, row: M.SampleRow, b: Archive, c: Archive)
    requires FreshSequence(done, row)
    requires b == RowsStored(a, session, done) && c == RowsStored(a, session, done + [row])
    ensures c.versions == b.versions + {RowVersion(session, row)}
    ensures var key := SampleKey(session, row.sequence); c.samples == b.samples[key := StatusOf(c.versions, key)]
  {
    RowVersionsAppend(session, done, row);
    var v, key := RowVersion(session, row), SampleKey(session, row.sequence);
    assert c.versions == b.versions + {v};
    forall k | k in c.samples.Keys
      ensures c.samples[k] == if k == key then StatusOf(c.versions, key) else b.samples[k]
    {
      if k in RowKeys(session, done) {
        KeyOfRow(session, done, row, k);
        OtherVersionsKept(b.versions, v, k);
      }
    }
  }

  lemma NewVersionCount(a: Archive, session: SessionId, done: seq<M.SampleRow>, row: M.SampleRow)
    requires FreshSequence(done, row)
    ensures var v := RowVersion(session, row);
            |RowVersions(session, done + [row]) - a.versions|
            == |RowVersions(session, done) - a.versions| + if v in a.versions + RowVersions(session, done) then 0 else 1
  {
    var v, before := RowVersion(session, row), RowVersions(session, done);
    RowVersionsAppend(session, done, row);
    forall r | r in done
      ensures RowVersion(session, r) != v
    {
    }
    assert v !in before;
    assert RowVersions(session, done + [row]) - a.versions
        == (before - a.versions) + (if v in a.versions then {} else {v});
  }

  lemma ConflictCount(session: SessionId, done: seq<M.SampleRow>, row: M.SampleRow, before: set<VersionId>,
                      after: set<VersionId>)
    requires FreshSequence(done, row) && after == before + {RowVersion(session, row)}
    ensures var key := SampleKey(session, row.sequence);
            |ConflictRows(after, session, done + [row])|
            == |ConflictRows(before, session, done)| + if StatusOf(after, key).conflict then 1 else 0
  {
    var key := SampleKey(session, row.sequence);
    var was, extra := ConflictRows(before, session, done), if StatusOf(after, key).conflict then {key} else {};
    forall k
      ensures k in ConflictRows(after, session, done + [row]) <==> k in was + extra
    {
      ConflictRowIff(session, done, row, before, after, k);
    }
    assert ConflictRows(after, session, done + [row]) == was + extra;
    if key in was {
      KeyOfRow(session, done, row, key);
    }
  }

  lemma ConflictRowIff(session: SessionId, done: seq<M.SampleRow>, row: M.SampleRow,
                       before: set<VersionId>, after: set<VersionId>, k: SampleKey)
    requires FreshSequence(done, row) && after == before + {RowVersion(session, row)}
    ensures k in ConflictRows(before, session, done) ==> k in RowKeys(session, done)
    ensures k in ConflictRows(after, session, done + [row]) <==>
            || k in ConflictRows(before, session, done)
            || (k == SampleKey(session, row.sequence) && StatusOf(after, k).conflict)
  {
    var key := SampleKey(session, row.sequence);
    forall r | r in done
      ensures StatusOf(after, SampleKey(session, r.sequence)) == StatusOf(before, SampleKey(session, r.sequence))
    {
      OtherVersionsKept(before, RowVersion(session, row), SampleKey(session, r.sequence));
    }
    assert row in done + [row];
    assert forall r :: r in done + [row] <==> r in done || r == row;
  }

  /** The result of storing a response depends only on which rows it holds. */
  lemma RowOrderIrrelevant(a: Archive, session: SessionId, xs: seq<M.SampleRow>, ys: seq<M.SampleRow>,
                           versions: set<VersionId>)
    requires forall r :: r in xs <==> r in ys
    ensures RowsStored(a, session, xs) == RowsStored(a, session, ys)
    ensures RowVersions(session, xs) == RowVersions(session, ys)
    ensures ConflictRows(versions, session, xs) == ConflictRows(versions, session, ys)
  {
    assert RowVersions(session, xs) == RowVersions(session, ys);
    assert RowKeys(session, xs) == RowKeys(session, ys);
  }

  lemma NoRowsStored(a: Archive, session: SessionId)
    ensures RowsStored(a, session, []) == a
  {
    assert RowVersions(session, []) == {} && RowKeys(session, []) == {};
    assert RowsStored(a, session, []).samples == a.samples;
  }

  /** The rows as a dict keyed by sequence, listed by ascending key. */
  ghost predicate Listed(rows: seq<M.SampleRow>, byKey: map<int, M.SampleRow>) {
    && (forall r | r in rows :: r.sequence in byKey && byKey[r.sequence] == r)
    && (forall x | x in byKey :: byKey[x] in rows && byKey[x].sequence == x)
  }

  lemma ListedAt(rows: seq<M.SampleRow>, byKey: map<int, M.SampleRow>, x: int)
    requires Listed(rows, byKey) && x in byKey
    ensures byKey[x] in rows && byKey[x].sequence == x
  {
  }

  lemma DictStep(rows: seq<M.SampleRow>, k: nat, byKey: map<int, M.SampleRow>)
    requires k < |rows| && Listed(rows[..k], byKey) && rows[k].sequence !in byKey
    ensures Listed(rows[..k + 1], byKey[rows[k].sequence := rows[k]])
  {
    assert rows[..k + 1] == rows[..k] + [rows[k]];
  }

  lemma DistinctStep(rows: seq<M.SampleRow>, k: nat, byKey: map<int, M.SampleRow>)
    requires k < |rows| && Listed(rows[..k], byKey) && M.DistinctSequences(rows[..k])
    ensures M.DistinctSequences(rows[..k + 1]) <==> rows[k].sequence !in byKey
  {
    var now := rows[..k + 1];
    if rows[k].sequence in byKey {
      var r := byKey[rows[k].sequence];
      var j :| 0 <= j < k && rows[..k][j] == r;
      assert now[j].sequence == now[k].sequence;
    } else {
      forall i, j | 0 <= i < j < |now|
        ensures now[i].sequence != now[j].sequence
      {
        assert now[i] == rows[..k][i];
        if j < k {
          assert now[j] == rows[..k][j];
        }
      }
    }
  }

  lemma KeysAreListed(rows: seq<M.SampleRow>, byKey: map<int, M.SampleRow>, keys: seq<int>)
    requires Listed(rows, byKey)
    requires keys == SortedKeys(seq(|rows|, i requires 0 <= i < |rows| => rows[i].sequence))
    ensures forall x :: x in keys <==> x in byKey
  {
    var values := seq(|rows|, i requires 0 <= i < |rows| => rows[i].sequence);
    forall x
      ensures x in values <==> x in byKey
    {
      if x in values {
        var i :| 0 <= i < |rows| && values[i] == x;
        assert rows[i] in rows;
      }
      if x in byKey {
        var i :| 0 <= i < |rows| && rows[i] == byKey[x];
        assert values[i] == x;
      }
    }
  }

  /** The two tables a response changes, with the counts so far. */
  datatype Tally = Tally(samples: map<SampleKey, Sample>, versions: set<VersionId>, newlySeen: nat, conflicts: nat)

  ghost function StoredOne(t: Tally, session: SessionId, row: M.SampleRow): Tally {
    var key, version := SampleKey(session, row.sequence), RowVersion(session, row);
    var status := StatusOf(t.versions + {version}, key);
    Tally(t.samples[key := status], t.versions + {version},
          if version in t.versions then t.newlySeen else t.newlySeen + 1,
          if status.conflict then t.conflicts + 1 else t.conflicts)
  }

  ghost function StoredInOrder(t: Tally, session: SessionId, rows: seq<M.SampleRow>): Tally {
    if rows == [] then t
    else StoredOne(StoredInOrder(t, session, rows[..|rows| - 1]), session, rows[|rows| - 1])
  }

  /** The tables and counts of a response with these rows. */
  ghost predicate Storing(a: Archive, session: SessionId, rows: seq<M.SampleRow>, t: Tally) {
    && RowsStored(a, session, rows) == a.(samples := t.samples, versions := t.versions)
    && t.newlySeen == |RowVersions(session, rows) - a.versions|
    && t.conflicts == |ConflictRows(t.versions, session, rows)|
  }

  lemma StoringVersions(a: Archive, session: SessionId, rows: seq<M.SampleRow>, t: Tally)
    requires Storing(a, session, rows, t)
    ensures forall v: VersionId :: v in t.versions <==>
              v in a.versions || exists r :: r in rows && v == VersionId(session, r.sequence, r.hash)
  {
    forall v: VersionId
      ensures v in t.versions <==>
              v in a.versions || exists r :: r in rows && v == VersionId(session, r.sequence, r.hash)
    {
      StoredVersions(a, ManifestId(session, 0), Interval(0, 0), rows, v);
    }
  }

  lemma StoringNothing(a: Archive, session: SessionId)
    ensures Storing(a, session, [], Tally(a.samples, a.versions, 0, 0))
  {
    NoRowsStored(a, session);
    assert RowVersions(session, []) == {};
    assert ConflictRows(a.versions, session, []) == {};
  }

  lemma StoringStep(a: Archive, session: SessionId, done: seq<M.SampleRow>, row: M.SampleRow, t: Tally,
                    rows: seq<M.SampleRow>, next: Tally)
    requires Storing(a, session, done, t) && FreshSequence(done, row)
    requires rows == done + [row] && next == StoredOne(t, session, row)
    ensures Storing(a, session, rows, next)
  {
    RowStep(a, session, done, row, RowsStored(a, session, done), RowsStored(a, session, done + [row]));
    NewVersionCount(a, session, done, row);
    ConflictCount(session, done, row, t.versions, t.versions + {RowVersion(session, row)});
  }

  lemma SortedPrefix(rows: seq<M.SampleRow>)
    requires M.SortedRows(rows) && rows != []
    ensures M.SortedRows(rows[..|rows| - 1]) && FreshSequence(rows[..|rows| - 1], rows[|rows| - 1])
    ensures rows == rows[..|rows| - 1] + [rows[|rows| - 1]]
  {
  }

  lemma LastStored(start: Tally, session: SessionId, rows: seq<M.SampleRow>, before: Tally, end: Tally)
    requires rows != [] && before == StoredInOrder(start, session, rows[..|rows| - 1])
    requires end == StoredInOrder(start, session, rows)
    ensures end == StoredOne(before, session, rows[|rows| - 1])
  {
  }

  /** Storing rows of distinct sequences one by one is storing the response. */
  lemma {:induction false} StoredInOrderMeans(a: Archive, session: SessionId, rows: seq<M.SampleRow>, start: Tally,
                                              end: Tally)
    requires M.SortedRows(rows) && start == Tally(a.samples, a.versions, 0, 0)
             && end == StoredInOrder(start, session, rows)
    ensures Storing(a, session, rows, end)
    decreases |rows|
  {
    if rows == [] {
      StoringNothing(a, session);
    } else {
      SortedPrefix(rows);
      var before := StoredInOrder(start, session, rows[..|rows| - 1]);
      StoredInOrderMeans(a, session, rows[..|rows| - 1], start, before);
      LastStored(start, session, rows, before, end);
      StoringStep(a, session, rows[..|rows| - 1], rows[|rows| - 1], before, rows, end);
    }
  }

  lemma StoringOrder(a: Archive, session: SessionId, xs: seq<M.SampleRow>, ys: seq<M.SampleRow>, t: Tally)
    requires Storing(a, session, xs, t) && forall r :: r in xs <==> r in ys
    ensures Storing(a, session, ys, t)
  {
    RowOrderIrrelevant(a, session, xs, ys, t.versions);
  }

  lemma OrderedRows(rows: seq<M.SampleRow>, byKey: map<int, M.SampleRow>, keys: seq<int>, ordered: seq<M.SampleRow>)
    requires Listed(rows, byKey) && (forall x :: x in keys <==> x in byKey)
    requires |ordered| == |keys| && forall i | 0 <= i < |keys| :: keys[i] in byKey && ordered[i] == byKey[keys[i]]
    ensures forall r :: r in ordered <==> r in rows
    ensures M.AscendingKeys(keys) ==> M.SortedRows(ordered)
  {
    forall r
      ensures r in ordered <==> r in rows
    {
      if r in rows {
        assert r.sequence in keys;
        var i :| 0 <= i < |keys| && keys[i] == r.sequence;
        assert ordered[i] == r;
      }
      if r in ordered {
        var i :| 0 <= i < |ordered| && ordered[i] == r;
        ListedAt(rows, byKey, keys[i]);
      }
    }
  }

  lemma RepeatedRow(rows: seq<M.SampleRow>, k: nat)
    requires k <= |rows| && !M.DistinctSequences(rows[..k])
    ensures !M.DistinctSequences(rows)
  {
    var i, j :| 0 <= i < j < k && rows[..k][i].sequence == rows[..k][j].sequence;
    assert rows[i].sequence == rows[j].sequence;
  }

  /** The dict's rows by ascending key. */
  method Ordered(rows: seq<M.SampleRow>, byKey: map<int, M.SampleRow>) returns (ordered: seq<M.SampleRow>)
    requires Listed(rows, byKey)
    ensures forall r :: r in ordered <==> r in rows
    ensures M.SortedRows(ordered)
  {
    var keys := SortedKeys(seq(|rows|, i requires 0 <= i < |rows| => rows[i].sequence));
    SortedKeysAscend(seq(|rows|, i requires 0 <= i < |rows| => rows[i].sequence));
    KeysAreListed(rows, byKey, keys);
    ordered := seq(|keys|, i requires 0 <= i < |keys| => byKey[keys[i]]);
    OrderedRows(rows, byKey, keys, ordered);
  }

  // ---- Merging runs and refreshing gaps ----------------------------------------------------

  lemma MergedRun(covered: set<int>, runs: seq<Interval>, k: nat)
    requires k < |runs|
    ensures covered + Elems(runs[..k + 1]) == covered + Elems(runs[..k]) + Span(runs[k].lo, runs[k].hi)
  {
    assert runs[..k + 1] == runs[..k] + [runs[k]];
    M.ElemsLast(runs[..k], runs[k]);
  }

  /** The coverage table once the first k runs are merged. */
  ghost predicate Merged(a: Archive, session: SessionId, runs: seq<Interval>, k: nat,
                         coverage: map<SessionId, seq<Interval>>) {
    && k <= |runs|
    && coverage == if k == 0 then a.coverage
                   else a.coverage[session := Canon(Elems(CoverageOf(a, session)) + Elems(runs[..k]))]
  }

  lemma MergedStep(a: Archive, session: SessionId, runs: seq<Interval>, k: nat, coverage: map<SessionId, seq<Interval>>)
    requires Merged(a, session, runs, k, coverage) && k < |runs| && Canonical(CoverageOf(a, session))
    ensures var rows := if session in coverage then coverage[session] else [];
            && Canonical(rows)
            && Merged(a, session, runs, k + 1,
                      coverage[session := Canon(Elems(rows) + Span(runs[k].lo, runs[k].hi))])
  {
    var covered, rows := Elems(CoverageOf(a, session)), if session in coverage then coverage[session] else [];
    MergedRun(covered, runs, k);
    assert Elems(rows) == covered + Elems(runs[..k]) by {
      assert Elems(runs[..0]) == {};
    }
    var table := Canon(covered + Elems(runs[..k + 1]));
    assert coverage[session := table] == a.coverage[session := table];
  }

  lemma MergedAll(a: Archive, session: SessionId, range: Interval, present: seq<int>, runs: seq<Interval>,
                  coverage: map<SessionId, seq<Interval>>)
    requires runs == Canon(Members(present)) && Merged(a, session, runs, |runs|, coverage)
    requires Members(present) == Stored(a, session) * Span(range.lo, range.hi)
    ensures RangeMerged(a, session, range) == a.(coverage := coverage)
  {
    assert runs[..|runs|] == runs;
    if runs == [] {
      assert Elems(runs) == {};
    }
    if Members(present) == {} {
      CanonOf([], {});
    }
  }

  lemma GapStep(gaps: map<GapKey, bool>, mid: ManifestId, range: Interval, missing: seq<Interval>, k: nat)
    requires k < |missing|
    ensures GapsRefreshed(gaps, mid, range, missing[..k + 1])
         == GapsRefreshed(gaps, mid, range, missing[..k])[GapKey(mid.session, mid, missing[k]) := true]
  {
    var next := missing[..k + 1];
    assert next == missing[..k] + [missing[k]];
    assert forall r :: r in next <==> r in missing[..k] || r == missing[k];
    assert GapKeys(mid, next) == GapKeys(mid, missing[..k]) + {GapKey(mid.session, mid, missing[k])};
  }

  lemma NoGapsRefreshed(gaps: map<GapKey, bool>, mid: ManifestId, range: Interval)
    ensures GapsRefreshed(gaps, mid, range, [])
         == map k | k in gaps :: gaps[k] && !(k.session == mid.session && k.manifest == mid && Meets(k.range, range))
  {
    assert GapKeys(mid, []) == {};
  }

  /** Recording the first k items makes these two tables of s. */
  ghost predicate Discovered(s: Ledger, items: seq<IndexItem>, k: nat, account: AccountId, now: int,
                             sessions: map<SessionId, Session>, work: seq<Work>)
  {
    k <= |items| && DiscoverItems(s, items[..k], account, now) == s.(sessions := sessions, work := work)
  }

  lemma DiscoverStep(s: Ledger, items: seq<IndexItem>, k: nat, account: AccountId, now: int,
                     sessions: map<SessionId, Session>, work: seq<Work>)
    requires k < |items| && Discovered(s, items, k, account, now, sessions, work)
    ensures Discovered(s, items, k + 1, account, now, UpsertSession(sessions, items[k], account),
                       Enqueue(work, NewManifestWork(items[k].session, 50, now, now)))
  {
    assert items[..k + 1][..k] == items[..k];
  }

  lemma DiscoveredAll(s: Ledger, items: seq<IndexItem>, account: AccountId, now: int,
                      sessions: map<SessionId, Session>, work: seq<Work>)
    requires Discovered(s, items, |items|, account, now, sessions, work)
    ensures DiscoverItems(s, items, account, now) == s.(sessions := sessions, work := work)
  {
    assert items[..|items|] == items;
  }

  ghost predicate NewSessions(was: map<SessionId, Session>, now: map<SessionId, Session>, count: int) {
    was.Keys <= now.Keys && count == |now.Keys - was.Keys|
  }

  lemma UpsertKeys(before: map<SessionId, Session>, item: IndexItem, account: AccountId)
    ensures UpsertSession(before, item, account).Keys == before.Keys + {item.session}
  {
  }

  lemma NewSessionCount(was: map<SessionId, Session>, before: map<SessionId, Session>, after: map<SessionId, Session>,
                        key: SessionId, count: int)
    requires NewSessions(was, before, count) && after.Keys == before.Keys + {key}
    ensures NewSessions(was, after, if key in before then count else count + 1)
  {
    KeyCount(was.Keys, before.Keys, after.Keys, key);
  }

  lemma KeyCount(was: set<SessionId>, before: set<SessionId>, after: set<SessionId>, key: SessionId)
    requires was <= before && after == before + {key}
    ensures |after - was| == |before - was| + if key in before then 0 else 1
  {
    assert after - was == (before - was) + if key in before then {} else {key};
  }

  // ---- The repository -------------------------------------------------------------------------

  /** The claimed unit as its worker holds it. */
  datatype SyncWork = SyncWork(id: nat, kind: Kind, session: SessionId, manifest: Option<ManifestId>,
                               range: Option<Interval>)

  function RecordOf(work: seq<Work>, i: nat): SyncWork
    requires i < |work|
  {
    SyncWork(i, work[i].kind, work[i].session, work[i].manifest, work[i].range)
  }

  /** A record that was handed out by a claim: it repeats its row, if that row exists. */
  predicate Handed(work: seq<Work>, record: SyncWork) {
    record.id < |work| ==> record == RecordOf(work, record.id)
  }

  lemma ValidNormalForm(ranges: seq<Interval>)
    requires M.ValidRows(M.Normalized(ranges))
    ensures M.Normalized(ranges) == Canon(Elems(ranges))
  {
    M.NormalizedFacts(ranges);
  }

  lemma ManifestUnitFits(s: Ledger, i: nat, metadata: int)
    requires Inv(s) && i < |s.work|
    ensures s.work[i].session in s.sessions
    ensures Canonical(CoverageOf(s.archive, s.work[i].session))
    ensures var mid := ManifestId(s.work[i].session, metadata); mid in s.manifests ==> Canonical(s.manifests[mid])
  {
    assert RowOk(s, s.work[i]);
    assert CoverageExact(s.archive, s.work[i].session);
  }

  /** The archive tables, counts and missing runs after a response is absorbed. */
  ghost predicate ResponseAbsorbed(a: Archive, mid: ManifestId, range: Interval, rows: seq<M.SampleRow>,
                            after: Archive, counts: Counts, missing: seq<Interval>)
  {
    && after == Absorbed(a, mid, range, rows)
    && counts == CommitCounts(a, mid, range, rows)
    && missing == MissingIn(after, mid.session, range)
  }

  lemma AbsorbedKeepsCanon(after: Archive, counts: Counts, missing: seq<Interval>,
                           a: Archive, mid: ManifestId, range: Interval, rows: seq<M.SampleRow>)
    requires ResponseAbsorbed(a, mid, range, rows, after, counts, missing) && Canonical(CoverageOf(a, mid.session))
    ensures Canonical(CoverageOf(after, mid.session)) && missing == MissingIn(after, mid.session, range)
  {
  }

  lemma AbsorbedInParts(a: Archive, mid: ManifestId, range: Interval, rows: seq<M.SampleRow>,
                        stored: Archive, merged: Archive, after: Archive, missing: seq<Interval>, counts: Counts)
    requires Canonical(CoverageOf(a, mid.session))
    requires stored == a.(samples := stored.samples, versions := stored.versions)
    requires counts.committed >= 0 && counts.conflicts >= 0
    requires Storing(a, mid.session, rows, Tally(stored.samples, stored.versions, counts.committed, counts.conflicts))
    requires merged == RangeMerged(stored, mid.session, range)
    requires missing == MissingIn(merged, mid.session, range) && counts.missing == TotalLength(missing)
    requires after == merged.(gaps := GapsRefreshed(a.gaps, mid, range, missing))
    ensures ResponseAbsorbed(a, mid, range, rows, after, counts, missing)
  {
    assert stored == RowsStored(a, mid.session, rows);
    assert after == Absorbed(a, mid, range, rows);
  }

  /** What a sample commit relies on: a bounded range and canonical interval tables. */
  ghost predicate CommitFits(s: Ledger, i: nat)
    requires RangeUnit(s, i)
  {
    && s.work[i].range.value.lo <= s.work[i].range.value.hi
    && Canonical(s.manifests[s.work[i].manifest.value])
    && Canonical(CoverageOf(s.archive, s.work[i].session))
  }

  lemma RangeUnitFits(s: Ledger, i: nat)
    requires Inv(s) && i < |s.work| && s.work[i].manifest.Some? && s.work[i].range.Some?
    ensures RangeUnit(s, i) && CommitFits(s, i)
    ensures s.work[i].range.value.hi - s.work[i].range.value.lo < CHUNK_SIZE
  {
    assert RowOk(s, s.work[i]);
    assert CoverageExact(s.archive, s.work[i].session);
  }

  /** What a commit does to the work table and the sessions once the unit is marked done. */
  ghost predicate ChainContinued(work: seq<Work>, sessions: map<SessionId, Session>, after: Archive, kind: Kind,
                                 mid: ManifestId, range: Interval, manifest: seq<Interval>, now: int,
                                 nextWork: seq<Work>, nextSessions: map<SessionId, Session>)
  {
    && mid.session in sessions
    && nextWork == EnqueueSome(work, CommitFollowUp(after, kind, mid, range, manifest, now))
    && nextSessions == if EndsAudit(after, kind, mid, range, manifest)
                       then sessions[mid.session := sessions[mid.session].(lastAudit := Some(now))] else sessions
  }

  lemma CommittedInParts(s: Ledger, i: nat, rows: seq<M.SampleRow>, now: int, absorbed: Ledger, counts: Counts,
                         missing: seq<Interval>, t: Ledger)
    requires RangeUnit(s, i) && absorbed == s.(archive := absorbed.archive)
    requires ResponseAbsorbed(s.archive, s.work[i].manifest.value, s.work[i].range.value, rows, absorbed.archive,
                              counts, missing)
    requires t == absorbed.(receipts := absorbed.receipts + [Receipt(i, s.work[i].range.value, counts, now)],
                            work := t.work, sessions := t.sessions)
    requires ChainContinued(absorbed.work[i := absorbed.work[i].(state := Done)], absorbed.sessions, absorbed.archive,
                            s.work[i].kind, s.work[i].manifest.value, s.work[i].range.value,
                            absorbed.manifests[s.work[i].manifest.value], now, t.work, t.sessions)
    ensures t == SamplesCommitted(s, i, rows, now)
  {
  }

  /** `async_commit_sample_work` with the checks it makes on the record itself. */
  ghost function CommitCall(s: Ledger, record: SyncWork, rows: seq<M.SampleRow>, fault: Fault, now: int)
    : (Ledger, Result<Counts>)
    requires Inv(s) && Handed(s.work, record)
  {
    if record.range.None? || record.manifest.None? then (s, Err(ValueError))
    else if record.range.value.hi - record.range.value.lo >= CHUNK_SIZE then (s, Err(ValueError))
    else if record.id >= |s.work| then (s, Err(RuntimeError))
    else
      RangeUnitFits(s, record.id);
      CommitSamples(s, record.id, rows, fault, now)
  }

  /** The calls that rely on the invariant keep it. */
  lemma CommitCallKeepsInv(s: Ledger, record: SyncWork, rows: seq<M.SampleRow>, fault: Fault, now: int, t: Ledger)
    requires Inv(s) && Handed(s.work, record) && t == CommitCall(s, record, rows, fault, now).0
    ensures Inv(t)
  {
    if t != s {
      RangeUnitFits(s, record.id);
      CommitKeepsInv(s, record.id, rows, now);
    }
  }

  lemma CompleteCallKeepsInv(s: Ledger, i: nat, metadata: int, ranges: seq<Interval>, fault: Fault, now: int, t: Ledger)
    requires Inv(s) && i < |s.work| && s.work[i].kind == ManifestWork && s.work[i].session in s.sessions
    requires t == CompleteManifest(s, i, s.work[i].session, metadata, ranges, fault, now).0
    ensures Inv(t)
  {
    if t != s {
      CompletionKeepsInv(s, i, metadata, ranges, now);
    }
  }

  /** What a commit call stores: an answered call of a claimed unit adds the payloads of exactly its
      rows, and any other call that is answered adds none. */
  lemma CommitCallStores(s: Ledger, record: SyncWork, rows: seq<M.SampleRow>, fault: Fault, now: int, t: Ledger,
                         counts: Counts, v: VersionId)
    requires Inv(s) && Handed(s.work, record) && (t, Ok(counts)) == CommitCall(s, record, rows, fault, now)
    ensures record.id < |s.work|
    ensures v in t.archive.versions <==>
            || v in s.archive.versions
            || (s.work[record.id].state == Running
                && exists r :: r in rows && v == VersionId(record.session, r.sequence, r.hash))
  {
    RangeUnitFits(s, record.id);
    CommitArchive(s, record.id, rows, fault, now);
    var w := s.work[record.id];
    StoredVersions(s.archive, w.manifest.value, w.range.value, rows, v);
  }

  /** What a completion call schedules: if it takes effect, the numbers not stored yet are asked
      for; with none of those the manifest is audited, at most once a week. */
  lemma CompleteCallSchedules(s: Ledger, i: nat, metadata: int, ranges: seq<Interval>, fault: Fault, now: int,
                              mid: ManifestId, t: Ledger, manifest: set<int>, unstored: set<int>)
    requires Inv(s) && i < |s.work| && s.work[i].session in s.sessions
    requires mid == ManifestId(s.work[i].session, metadata)
    requires t == CompleteManifest(s, i, mid.session, metadata, ranges, fault, now).0 && t != s
    requires mid in t.manifests && manifest == Elems(t.manifests[mid])
    requires unstored == Unstored(s.archive, mid.session, manifest)
    ensures if unstored != {} then Schedules(s.work, t.work, SampleWork, mid, unstored, 60, now, now)
            else NoneAdded(s.work, t.work, SampleWork, mid)
    ensures if unstored == {} && manifest != {} && AuditWanted(s.sessions[mid.session].lastAudit, now)
            then Schedules(s.work, t.work, AuditWork, mid, manifest, 200, now, now)
            else NoneAdded(s.work, t.work, AuditWork, mid)
  {
    CompletionSchedules(s, i, metadata, ranges, now, mid, t, manifest, unstored);
  }

  lemma DoneUnitAnswer(s: Ledger, i: nat, receipt: Option<Receipt>, rows: seq<M.SampleRow>, fault: Fault, now: int)
    requires Inv(s) && RangeUnit(s, i) && s.work[i].state == Done
    requires s.work[i].range.value.hi - s.work[i].range.value.lo < CHUNK_SIZE
    requires receipt.None? <==> forall r | r in s.receipts :: r.work != i
    requires receipt.Some? ==> IsLatestReceipt(s.receipts, i, receipt.value)
    ensures receipt.Some?
    ensures CommitSamples(s, i, rows, fault, now) == (s, Ok(receipt.value.counts))
  {
    assert ReceiptOk(s.receipts, s.work, i);
    OneReceipt(s.receipts, i);
    RepeatedAnswer(s, i, receipt.value, rows, fault, now);
  }

  class ArchiveRepository {
    var sessions: map<SessionId, Session>
    var manifests: map<ManifestId, seq<Interval>>
    var samples: map<SampleKey, Sample>
    var versions: set<VersionId>
    var coverage: map<SessionId, seq<Interval>>
    var gaps: map<GapKey, bool>
    var work: seq<Work>
    var receipts: seq<Receipt>
    var runs: seq<RunStatus>
    var pages: map<PageKey, int>

    function Tables(): Archive
      reads this`samples, this`versions, this`coverage, this`gaps
    {
      Archive(samples, versions, coverage, gaps)
    }

    function State(): Ledger
      reads this
    {
      Ledger(sessions, manifests, Tables(), work, receipts, runs, pages)
    }

    constructor ()
      ensures State() == EMPTY && Inv(State())
    {
      sessions, manifests, samples, versions := map[], map[], map[], {};
      coverage, gaps, work, receipts, runs, pages := map[], map[], [], [], [], map[];
      new;
      EmptyInv();
    }

    /** ROLLBACK to the tables BEGIN saw. */
    method Rollback(begun: Ledger)
      requires begun.runs == runs && begun.pages == pages
      modifies this`samples, this`versions, this`coverage, this`gaps, this`work, this`sessions, this`receipts,
               this`manifests
      ensures State() == begun
    {
      sessions, manifests, work, receipts := begun.sessions, begun.manifests, begun.work, begun.receipts;
      samples, versions := begun.archive.samples, begun.archive.versions;
      coverage, gaps := begun.archive.coverage, begun.archive.gaps;
    }

    /** `_enqueue_work`: inserts unless the unique index over active units refuses. */
    method EnqueueWork(w: Work) returns (inserted: bool)
      modifies this`work
      ensures work == Enqueue(old(work), w)
      ensures inserted <==> work != old(work)
    {
      if exists i | 0 <= i < |work| :: Active(work[i]) && SameKey(work[i], w) {
        return false;
      }
      work := work + [w];
      return true;
    }

    /** `async_recover_interrupted_work`: two UPDATE statements; the first one's row count is returned. */
    method AsyncRecoverInterruptedWork(now: int) returns (recovered: nat)
      modifies this`work, this`runs
      ensures State() == Recover(old(State()), now)
      ensures recovered == |set i | 0 <= i < |old(work)| && old(work)[i].state == Running|
      ensures forall i | 0 <= i < |work| :: work[i].state != Running
    {
      var rows, open := work, runs;
      recovered := |set i | 0 <= i < |rows| && rows[i].state == Running|;
      work := seq(|rows|, i requires 0 <= i < |rows| => Interrupted(rows[i], now));
      runs := seq(|open|, i requires 0 <= i < |open| => RecoveredRun(open[i]));
    }

    /** `async_claim_work`: the first due unit of the account in queue order becomes running. */
    method AsyncClaimWork(account: AccountId, now: int) returns (claimed: Option<SyncWork>)
      modifies this`work
      ensures claimed.None? ==> State() == old(State()) && forall i: nat :: !Due(old(State()), account, now, i)
      ensures claimed.Some? ==>
                && NextDue(old(State()), account, now, claimed.value.id)
                && State() == Claimed(old(State()), claimed.value.id)
                && claimed.value == RecordOf(work, claimed.value.id)
    {
      var next: Option<nat> := None;
      for i := 0 to |work|
        invariant next.None? ==> forall j | 0 <= j < i :: !DueRow(sessions, work[j], account, now)
        invariant next.Some? ==> next.value < i && DueRow(sessions, work[next.value], account, now)
        invariant next.Some? ==>
                    forall j | 0 <= j < i && DueRow(sessions, work[j], account, now) ::
                        NoLater(work[next.value], work[j])
      {
        if DueRow(sessions, work[i], account, now) && (next.None? || !NoLater(work[next.value], work[i])) {
          next := Some(i);
        }
      }
      if next.None? {
        return None;
      }
      work := work[next.value := work[next.value].(state := Running, attempts := work[next.value].attempts + 1)];
      return Some(RecordOf(work, next.value));
    }

    /** `async_fail_work`. */
    method AsyncFailWork(id: nat, retryDelay: int, now: int)
      modifies this`work
      ensures State() == FailWork(old(State()), id, retryDelay, now)
    {
      if id >= |work| || work[id].state == Done {
        return;
      }
      var state := if work[id].attempts >= MAX_WORK_ATTEMPTS then Failed else Ready;
      work := work[id := work[id].(state := state, notBefore := now + Max(0, retryDelay))];
    }

    // ---- Discovery ------------------------------------------------------------------------

    /** One item of an index page: upsert its session, enqueue its manifest unit. */
    method RecordItem(item: IndexItem, account: AccountId, now: int) returns (inserted: bool)
      modifies this`sessions, this`work
      ensures sessions == UpsertSession(old(sessions), item, account)
      ensures work == Enqueue(old(work), NewManifestWork(item.session, 50, now, now))
      ensures inserted <==> item.session !in old(sessions)
    {
      inserted := item.session !in sessions;
      if inserted {
        sessions := sessions[item.session := Session(account, item.indexId, false, None)];
      } else {
        var existing := sessions[item.session];
        var conflict := existing.indexConflict;
        if existing.indexId.Some? && item.indexId.Some? && existing.indexId != item.indexId {
          conflict := true;
        }
        sessions := sessions[item.session := existing.(indexConflict := conflict)];
      }
      var _ := EnqueueWork(NewManifestWork(item.session, 50, now, now));
    }

    /** The k-th item of a page, after the first k made the tables what they are. */
    method RecordNextItem(items: seq<IndexItem>, k: nat, account: AccountId, now: int, count: nat, ghost was: Ledger)
      returns (inserted: nat)
      requires k < |items| && Discovered(was, items, k, account, now, sessions, work)
      requires NewSessions(was.sessions, sessions, count)
      modifies this`sessions, this`work
      ensures Discovered(was, items, k + 1, account, now, sessions, work)
      ensures NewSessions(was.sessions, sessions, inserted)
    {
      ghost var before := sessions;
      UpsertKeys(sessions, items[k], account);
      DiscoverStep(was, items, k, account, now, sessions, work);
      var isNew := RecordItem(items[k], account, now);
      NewSessionCount(was.sessions, before, sessions, items[k].session, count);
      inserted := if isNew then count + 1 else count;
    }

    /** The items of a page, in order; counts the sessions not known before. */
    method RecordItems(items: seq<IndexItem>, account: AccountId, now: int) returns (inserted: nat)
      modifies this`sessions, this`work
      ensures State() == DiscoverItems(old(State()), items, account, now)
      ensures inserted == |sessions.Keys - old(sessions).Keys|
    {
      ghost var was := State();
      inserted := 0;
      for k := 0 to |items|
        invariant Discovered(was, items, k, account, now, sessions, work)
        invariant NewSessions(was.sessions, sessions, inserted)
      {
        inserted := RecordNextItem(items, k, account, now, inserted, was);
      }
      DiscoveredAll(was, items, account, now, sessions, work);
    }

    /** `async_record_discovery_page`. */
    method AsyncRecordDiscoveryPage(run: nat, page: int, digest: int, items: seq<IndexItem>, account: AccountId,
                                    now: int)
      returns (out: Result<nat>)
      modifies this`sessions, this`work, this`pages
      ensures (State(), out) == DiscoverPage(old(State()), run, page, digest, items, account, now)
    {
      if run >= |runs| || runs[run] != RunRunning {
        return Err(RuntimeError);
      }
      if PageKey(run, page) in pages {
        return if pages[PageKey(run, page)] != digest then Err(RuntimeError) else Ok(0);
      }
      pages := pages[PageKey(run, page) := digest];
      var inserted := RecordItems(items, account, now);
      return Ok(inserted);
    }

    // ---- Manifests --------------------------------------------------------------------------

    /** `async_complete_manifest`. A fault raised before COMMIT rolls every table back. */
    method AsyncCompleteManifest(record: SyncWork, metadata: int, ranges: seq<Interval>, fault: Fault, now: int)
      returns (out: Result<ManifestRecord>)
      requires Inv(State()) && Handed(work, record)
      modifies this`manifests, this`work
      ensures record.id < |old(work)| ==> record.session in sessions
      ensures (State(), out) == CompleteManifest(old(State()), record.id, record.session, metadata, ranges, fault, now)
    {
      if record.id >= |work| {
        return Err(RuntimeError);
      }
      ManifestUnitFits(State(), record.id, metadata);
      out := CompleteManifestUnit(record, ManifestId(record.session, metadata), ranges, fault, now);
    }

    method CompleteManifestUnit(record: SyncWork, mid: ManifestId, ranges: seq<Interval>, fault: Fault, now: int)
      returns (out: Result<ManifestRecord>)
      requires record.id < |work| && record == RecordOf(work, record.id)
      requires mid.session == record.session && mid.session in sessions
      requires Canonical(CoverageOf(Tables(), mid.session)) && (mid in manifests ==> Canonical(manifests[mid]))
      modifies this`manifests, this`work
      ensures (State(), out) == CompleteManifest(old(State()), record.id, record.session, mid.metadata, ranges,
                                                 fault, now)
    {
      var normalized := M.NormalizeRanges(ranges);
      if work[record.id].state == Done {
        return if mid in manifests then Ok(ManifestRecord(mid, false, normalized)) else Err(RuntimeError);
      }
      if work[record.id].state != Running {
        return Err(RuntimeError);
      }
      var savedManifests, savedWork := manifests, work;
      var changed := mid !in manifests;
      if changed {
        // INSERT INTO manifest_ranges raises at the first row its columns cannot hold.
        if exists i | 0 <= i < |normalized| :: !M.ValidRow(normalized[i]) {
          return Err(StorageError);
        }
        ValidNormalForm(ranges);
        manifests := manifests[mid := normalized];
      }
      FinishManifest(record.id, mid, now);
      if fault == BeforeCommit {
        manifests, work := savedManifests, savedWork;
        return Err(InjectedFault);
      }
      return if fault == AfterCommit then Err(InjectedFault) else Ok(ManifestRecord(mid, changed, normalized));
    }

    /** Mark the unit done, then schedule the first missing or audit chunk and the next check. */
    method FinishManifest(id: nat, mid: ManifestId, now: int)
      requires id < |work| && mid in manifests && mid.session in sessions
      requires Canonical(manifests[mid]) && Canonical(CoverageOf(Tables(), mid.session))
      modifies this`work
      ensures work == Enqueue(EnqueueSome(old(work)[id := old(work)[id].(state := Done)],
                                          ManifestFollowUp(Tables(), mid, manifests[mid],
                                                           sessions[mid.session].lastAudit, now)),
                              NewManifestWork(mid.session, 150, now + MANIFEST_RECHECK_US, now))
    {
      work := work[id := work[id].(state := Done)];
      var rows := if mid.session in coverage then coverage[mid.session] else [];
      var missing := FirstMissingChunk(manifests[mid], rows);
      if missing.Some? {
        var _ := EnqueueWork(NewRangeWork(SampleWork, mid, missing.value, 60, now, now));
      } else if AuditDue(sessions[mid.session].lastAudit, now) {
        var audit := NextManifestChunkAfter(manifests[mid], None);
        if audit.Some? {
          var _ := EnqueueWork(NewRangeWork(AuditWork, mid, audit.value, 200, now, now));
        }
      }
      var _ := EnqueueWork(NewManifestWork(mid.session, 150, now + MANIFEST_RECHECK_US, now));
    }

    // ---- Sample commits -----------------------------------------------------------------------

    /** One row: insert its sample and version unless known, then write what its versions imply. */
    method StoreRow(session: SessionId, row: M.SampleRow) returns (isNew: bool, conflict: bool)
      modifies this`samples, this`versions
      ensures versions == old(versions) + {VersionId(session, row.sequence, row.hash)}
      ensures var key := SampleKey(session, row.sequence); samples == old(samples)[key := StatusOf(versions, key)]
      ensures isNew <==> VersionId(session, row.sequence, row.hash) !in old(versions)
      ensures conflict <==> StatusOf(versions, SampleKey(session, row.sequence)).conflict
    {
      var key, version := SampleKey(session, row.sequence), RowVersion(session, row);
      if key !in samples {
        samples := samples[key := Sample(None, false)];
      }
      isNew := version !in versions;
      if isNew {
        versions := versions + {version};
      }
      var stored := set v | v in versions && v.session == session && v.sequence == row.sequence;
      assert stored == VersionsOf(versions, key) && version in stored;
      StatusMeaning(versions, key);
      if |stored| == 1 {
        var selected :| selected in stored;
        samples := samples[key := Sample(Some(selected), false)];
        conflict := false;
      } else {
        samples := samples[key := Sample(None, true)];
        conflict := true;
      }
    }

    /** The rows in ascending sequence order. */
    method StoreRows(session: SessionId, rows: seq<M.SampleRow>, byKey: map<int, M.SampleRow>)
      returns (newlySeen: nat, conflicts: nat)
      requires Listed(rows, byKey)
      modifies this`samples, this`versions
      ensures Storing(old(Tables()), session, rows, Tally(samples, versions, newlySeen, conflicts))
      ensures forall v: VersionId :: v in versions <==>
                v in old(versions) || exists r :: r in rows && v == VersionId(session, r.sequence, r.hash)
    {
      var ordered := Ordered(rows, byKey);
      ghost var a := Tables();
      newlySeen, conflicts := StoreOrdered(session, ordered);
      StoredInOrderMeans(a, session, ordered, Tally(a.samples, a.versions, 0, 0),
                         Tally(samples, versions, newlySeen, conflicts));
      StoringOrder(a, session, ordered, rows, Tally(samples, versions, newlySeen, conflicts));
      StoringVersions(a, session, rows, Tally(samples, versions, newlySeen, conflicts));
    }

    method StoreOrdered(session: SessionId, ordered: seq<M.SampleRow>) returns (newlySeen: nat, conflicts: nat)
      modifies this`samples, this`versions
      ensures Tally(samples, versions, newlySeen, conflicts)
           == StoredInOrder(Tally(old(samples), old(versions), 0, 0), session, ordered)
    {
      ghost var start := Tally(samples, versions, 0, 0);
      newlySeen, conflicts := 0, 0;
      for k := 0 to |ordered|
        invariant Tally(samples, versions, newlySeen, conflicts) == StoredInOrder(start, session, ordered[..k])
      {
        assert ordered[..k + 1][..k] == ordered[..k];
        var isNew, conflict := StoreRow(session, ordered[k]);
        newlySeen := if isNew then newlySeen + 1 else newlySeen;
        conflicts := if conflict then conflicts + 1 else conflicts;
      }
      assert ordered[..|ordered|] == ordered;
    }

    /** The row dict, or nothing when a row is out of range or repeats a sequence. */
    method CollectRows(rows: seq<M.SampleRow>, range: Interval) returns (byKey: Option<map<int, M.SampleRow>>)
      ensures byKey.Some? <==> ValidRows(rows, range)
      ensures byKey.Some? ==> Listed(rows, byKey.value)
    {
      var dict: map<int, M.SampleRow> := map[];
      for k := 0 to |rows|
        invariant Listed(rows[..k], dict) && M.DistinctSequences(rows[..k])
        invariant forall i | 0 <= i < k :: range.lo <= rows[i].sequence <= range.hi
      {
        var row := rows[k];
        if !(range.lo <= row.sequence <= range.hi) {
          return None;
        }
        DistinctStep(rows, k, dict);
        if row.sequence in dict {
          RepeatedRow(rows, k + 1);
          return None;
        }
        DictStep(rows, k, dict);
        dict := dict[row.sequence := row];
      }
      assert rows[..|rows|] == rows;
      return Some(dict);
    }

    /** Merge the runs of samples present in the requested range into the session's coverage. */
    method MergePresent(session: SessionId, range: Interval)
      requires Canonical(CoverageOf(Tables(), session))
      modifies this`coverage
      ensures Tables() == RangeMerged(old(Tables()), session, range)
    {
      ghost var a := Tables();
      var present := PresentIn(session, range);
      var runs := Contiguous(present);
      CanonicalNonempty(runs);
      for k := 0 to |runs|
        invariant Merged(a, session, runs, k, coverage)
      {
        MergedStep(a, session, runs, k, coverage);
        var rows := if session in coverage then coverage[session] else [];
        assert runs[k] in runs;
        var table := MergeCoverage(rows, runs[k].lo, runs[k].hi);
        coverage := coverage[session := table];
      }
      MergedAll(a, session, range, present, runs, coverage);
    }

    /** The sequences of the range that have a sample row, ascending. */
    method PresentIn(session: SessionId, range: Interval) returns (present: seq<int>)
      ensures Members(present) == Stored(Tables(), session) * Span(range.lo, range.hi)
    {
      present := [];
      var x := range.lo;
      while x <= range.hi
        invariant forall y :: y in present <==> range.lo <= y < x && y <= range.hi && SampleKey(session, y) in samples
        decreases range.hi - x
      {
        if SampleKey(session, x) in samples {
          present := present + [x];
        }
        x := x + 1;
      }
      forall y: int
        ensures y in Members(present) <==> y in Stored(Tables(), session) * Span(range.lo, range.hi)
      {
        InStored(Tables(), session, y);
      }
    }

    /** Resolve the gap rows that meet the request, then (re)open one per missing run. */
    method RefreshGaps(mid: ManifestId, range: Interval, missing: seq<Interval>) returns (missingRows: int)
      modifies this`gaps
      ensures gaps == GapsRefreshed(old(gaps), mid, range, missing)
      ensures missingRows == TotalLength(missing)
    {
      ghost var was := gaps;
      NoGapsRefreshed(gaps, mid, range);
      var rows := gaps;
      gaps := map k | k in rows :: rows[k] && !(k.session == mid.session && k.manifest == mid && Meets(k.range, range));
      missingRows := 0;
      assert missing[..0] == [];
      for k := 0 to |missing|
        invariant gaps == GapsRefreshed(was, mid, range, missing[..k])
        invariant missingRows == TotalLength(missing[..k])
      {
        GapStep(was, mid, range, missing, k);
        TotalLengthStep(missing, k);
        missingRows := missingRows + missing[k].hi - missing[k].lo + 1;
        gaps := gaps[GapKey(mid.session, mid, missing[k]) := true];
      }
      assert missing[..|missing|] == missing;
    }

    /** All archive tables of one response: versions, samples, coverage, gaps. */
    method AbsorbRows(mid: ManifestId, range: Interval, rows: seq<M.SampleRow>, byKey: map<int, M.SampleRow>)
      returns (counts: Counts, missing: seq<Interval>)
      requires Listed(rows, byKey) && range.lo <= range.hi
      requires Canonical(CoverageOf(Tables(), mid.session))
      modifies this`samples, this`versions, this`coverage, this`gaps
      ensures ResponseAbsorbed(old(Tables()), mid, range, rows, Tables(), counts, missing)
    {
      ghost var a := Tables();
      var newlySeen, conflicts := StoreRows(mid.session, rows, byKey);
      ghost var stored := Tables();
      MergePresent(mid.session, range);
      ghost var merged := Tables();
      missing := MissingNow(mid.session, range);
      var missingRows := RefreshGaps(mid, range, missing);
      counts := Counts(newlySeen, conflicts, missingRows);
      AbsorbedInParts(a, mid, range, rows, stored, merged, Tables(), missing, counts);
    }

    /** The requested numbers that the coverage rows meeting the request leave out. */
    method MissingNow(session: SessionId, range: Interval) returns (missing: seq<Interval>)
      requires range.lo <= range.hi && Canonical(CoverageOf(Tables(), session))
      ensures missing == MissingIn(Tables(), session, range)
    {
      var rows := if session in coverage then coverage[session] else [];
      RowsMeetingFacts(rows, range.lo, range.hi);
      missing := SubtractCoverage(range.lo, range.hi, RowsMeeting(rows, range.lo, range.hi));
    }

    /** After a commit: retry the first missing run, else continue the sample or audit chain, or
        stamp the session when its audit chain ends. */
    method ScheduleNext(kind: Kind, mid: ManifestId, range: Interval, missing: seq<Interval>, now: int)
      requires kind != ManifestWork && mid in manifests && mid.session in sessions
      requires Canonical(manifests[mid]) && Canonical(CoverageOf(Tables(), mid.session))
      requires missing == MissingIn(Tables(), mid.session, range)
      modifies this`work, this`sessions
      ensures ChainContinued(old(work), old(sessions), Tables(), kind, mid, range, manifests[mid], now, work, sessions)
    {
      if missing != [] {
        var retry := Interval(missing[0].lo, Min(missing[0].hi, missing[0].lo + CHUNK_SIZE - 1));
        var priority := if kind == SampleWork then 80 else 210;
        var _ := EnqueueWork(NewRangeWork(kind, mid, retry, priority, now + MISSING_RETRY_US, now));
      } else if kind == SampleWork {
        var next := FirstMissingChunk(manifests[mid], if mid.session in coverage then coverage[mid.session] else []);
        if next.Some? {
          var _ := EnqueueWork(NewRangeWork(SampleWork, mid, next.value, 60, now, now));
        }
      } else {
        var next := NextManifestChunkAfter(manifests[mid], Some(range.hi));
        if next.Some? {
          var _ := EnqueueWork(NewRangeWork(AuditWork, mid, next.value, 210, now, now));
        } else {
          sessions := sessions[mid.session := sessions[mid.session].(lastAudit := Some(now))];
        }
      }
    }

    /** Write the receipt, mark the unit done, schedule what follows. */
    method FinishUnit(id: nat, kind: Kind, mid: ManifestId, range: Interval, counts: Counts, missing: seq<Interval>,
                      now: int, ghost was: Ledger)
      requires was == State()
      requires id < |work| && kind != ManifestWork && mid in manifests && mid.session in sessions
      requires Canonical(manifests[mid]) && Canonical(CoverageOf(Tables(), mid.session))
      requires missing == MissingIn(Tables(), mid.session, range)
      modifies this`work, this`sessions, this`receipts
      ensures State() == was.(receipts := was.receipts + [Receipt(id, range, counts, now)], work := work,
                              sessions := sessions)
      ensures ChainContinued(was.work[id := was.work[id].(state := Done)], was.sessions, was.archive, kind, mid, range,
                             was.manifests[mid], now, work, sessions)
    {
      receipts := receipts + [Receipt(id, range, counts, now)];
      work := work[id := work[id].(state := Done)];
      ScheduleNext(kind, mid, range, missing, now);
    }

    /** The writes of one commit, on a unit whose rows are valid. */
    method CommitRows(id: nat, kind: Kind, mid: ManifestId, range: Interval, rows: seq<M.SampleRow>,
                      byKey: map<int, M.SampleRow>, now: int, ghost was: Ledger) returns (counts: Counts)
      requires was == State() && RangeUnit(was, id) && Listed(rows, byKey) && CommitFits(was, id)
      requires kind == was.work[id].kind && mid == was.work[id].manifest.value && range == was.work[id].range.value
      modifies this`samples, this`versions, this`coverage, this`gaps, this`work, this`sessions, this`receipts
      ensures State() == SamplesCommitted(was, id, rows, now)
      ensures counts == CommitCounts(was.archive, mid, range, rows)
    {
      var missing;
      counts, missing := AbsorbRows(mid, range, rows, byKey);
      ghost var absorbed := State();
      AbsorbedKeepsCanon(absorbed.archive, counts, missing, was.archive, mid, range, rows);
      FinishUnit(id, kind, mid, range, counts, missing, now, absorbed);
      CommittedInParts(was, id, rows, now, absorbed, counts, missing, State());
    }

    /** SELECT ... ORDER BY committed_at_us DESC LIMIT 1. */
    method LatestReceipt(id: nat) returns (receipt: Option<Receipt>)
      ensures receipt.None? <==> forall r | r in receipts :: r.work != id
      ensures receipt.Some? ==> IsLatestReceipt(receipts, id, receipt.value)
    {
      receipt := None;
      for k := 0 to |receipts|
        invariant receipt.None? <==> forall r | r in receipts[..k] :: r.work != id
        invariant receipt.Some? ==> IsLatestReceipt(receipts[..k], id, receipt.value)
      {
        assert receipts[..k + 1] == receipts[..k] + [receipts[k]];
        if receipts[k].work == id && (receipt.None? || receipts[k].at > receipt.value.at) {
          receipt := Some(receipts[k]);
        }
      }
      assert receipts[..|receipts|] == receipts;
    }

    /** `async_commit_sample_work`: its transaction, on a unit whose record names a bounded range.
        A fault raised before COMMIT rolls every table back. */
    method CommitUnit(id: nat, range: Interval, rows: seq<M.SampleRow>, fault: Fault, now: int)
      returns (out: Result<Counts>)
      requires RangeUnit(State(), id) && CommitFits(State(), id) && range == work[id].range.value
      requires range.hi - range.lo < CHUNK_SIZE && work[id].state != Done
      modifies this`samples, this`versions, this`coverage, this`gaps, this`work, this`sessions, this`receipts,
               this`manifests
      ensures (State(), out) == CommitSamples(old(State()), id, rows, fault, now)
    {
      if work[id].state != Running {
        return Err(RuntimeError);
      }
      var byKey := CollectRows(rows, range);
      if byKey.None? {
        return Err(ValueError);
      }
      var begun := State();
      var counts := CommitRows(id, work[id].kind, work[id].manifest.value, range, rows, byKey.value, now, begun);
      if fault == BeforeCommit {
        Rollback(begun);
        return Err(InjectedFault);
      }
      return if fault == AfterCommit then Err(InjectedFault) else Ok(counts);
    }

    /** `async_commit_sample_work`. */
    method AsyncCommitSampleWork(record: SyncWork, rows: seq<M.SampleRow>, fault: Fault, now: int)
      returns (out: Result<Counts>)
      requires Inv(State()) && Handed(work, record)
      modifies this`samples, this`versions, this`coverage, this`gaps, this`work, this`sessions, this`receipts,
               this`manifests
      ensures (State(), out) == CommitCall(old(State()), record, rows, fault, now)
    {
      if record.range.None? || record.manifest.None? {
        return Err(ValueError);
      }
      if record.range.value.hi - record.range.value.lo >= CHUNK_SIZE {
        return Err(ValueError);
      }
      if record.id >= |work| {
        return Err(RuntimeError);
      }
      RangeUnitFits(State(), record.id);
      if work[record.id].state != Done {
        out := CommitUnit(record.id, record.range.value, rows, fault, now);
        return;
      }
      var receipt := LatestReceipt(record.id);
      DoneUnitAnswer(State(), record.id, receipt, rows, fault, now);
      return if receipt.None? then Err(RuntimeError) else Ok(receipt.value.counts);
    }
  }
}
