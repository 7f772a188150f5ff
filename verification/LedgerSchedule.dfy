/** What each step schedules and which unit runs next, in numbers: the first request of what is
    wanted, its priority and its time, the weekly audit, the hourly retry and the claim order. */
module LedgerSchedule {
  import opened Ranges
  import opened Chunks
  import opened Coverage
  import opened Ledger
  import opened ArchiveInvariant
  import opened LedgerInvariant
  import opened LedgerRuns
  import opened Wrappers
  import M = Models

  const HOUR_US: int := 60 * 60 * 1_000_000
  const WEEK_US: int := 7 * 24 * 60 * 60 * 1_000_000

  /** The first request of the wanted numbers: it starts at the least of them, asks for wanted
      numbers only, and is as long as that and the limit of 1000 allow. */
  ghost predicate FirstRequest(range: Interval, wanted: set<int>) {
    && range.lo in wanted && (forall x | x in wanted :: range.lo <= x)
    && range.lo <= range.hi < range.lo + 1000
    && (forall x | range.lo <= x <= range.hi :: x in wanted)
    && (range.hi + 1 in wanted ==> range.hi == range.lo + 999)
  }

  predicate UnitOf(w: Work, kind: Kind, mid: ManifestId) {
    w.kind == kind && w.session == mid.session && w.manifest == Some(mid) && w.range.Some?
  }

  predicate Waiting(w: Work, priority: int, at: int, now: int) {
    w.state == Ready && w.attempts == 0 && w.priority == priority && w.notBefore == at && w.createdAt == now
  }

  /** Unit j asks for the first request of the wanted numbers and is open; if the step added it,
      it waits with this priority and time; and the step added no other unit of its kind. */
  ghost predicate Asks(work: seq<Work>, later: seq<Work>, j: nat, kind: Kind, mid: ManifestId, wanted: set<int>,
                       priority: int, at: int, now: int)
  {
    && j < |later| && UnitOf(later[j], kind, mid) && later[j].state in {Ready, Running}
    && FirstRequest(later[j].range.value, wanted)
    && (j >= |work| ==> Waiting(later[j], priority, at, now))
    && (forall k | |work| <= k < |later| && UnitOf(later[k], kind, mid) :: k == j)
  }

  ghost predicate Schedules(work: seq<Work>, later: seq<Work>, kind: Kind, mid: ManifestId, wanted: set<int>,
                            priority: int, at: int, now: int)
  {
    exists j: nat :: Asks(work, later, j, kind, mid, wanted, priority, at, now)
  }

  /** No unit of the manifest and kind was added. */
  predicate NoneAdded(work: seq<Work>, later: seq<Work>, kind: Kind, mid: ManifestId) {
    forall k | |work| <= k < |later| :: !UnitOf(later[k], kind, mid)
  }

  lemma ChunkIsFirstRequest(wanted: set<int>, chunk: Interval)
    requires FirstChunk(wanted, CHUNK_SIZE) == Some(chunk)
    ensures FirstRequest(chunk, wanted)
  {
    FirstChunkFacts(wanted, CHUNK_SIZE);
    forall x | chunk.lo <= x <= chunk.hi
      ensures x in wanted
    {
      assert x in Span(chunk.lo, chunk.hi);
    }
  }

  lemma RetryIsFirstRequest(wanted: set<int>, retry: Interval)
    requires Canon(wanted) != []
    requires retry == Interval(Canon(wanted)[0].lo, Min(Canon(wanted)[0].hi, Canon(wanted)[0].lo + CHUNK_SIZE - 1))
    ensures FirstRequest(retry, wanted)
  {
    var runs := Canon(wanted);
    HeadIsFirstRun(runs);
    RunIsMaximal(runs, runs[0]);
    forall x | retry.lo <= x <= retry.hi
      ensures x in wanted
    {
      assert x in Span(runs[0].lo, runs[0].hi);
    }
  }

  /** Two first requests of the same numbers are the same request. */
  lemma FirstRequestUnique(r: Interval, q: Interval, wanted: set<int>)
    requires FirstRequest(r, wanted) && FirstRequest(q, wanted)
    ensures r == q
  {
    assert r.hi < q.hi ==> r.hi + 1 in wanted;
    assert q.hi < r.hi ==> q.hi + 1 in wanted;
  }

  lemma EnqueueSchedules(work: seq<Work>, w: Work, later: seq<Work>, mid: ManifestId, wanted: set<int>, at: int,
                         now: int)
    requires later == Enqueue(work, w) && UnitOf(w, w.kind, mid) && FirstRequest(w.range.value, wanted)
    requires Waiting(w, w.priority, at, now)
    ensures Schedules(work, later, w.kind, mid, wanted, w.priority, at, now)
    ensures forall kind | kind != w.kind :: NoneAdded(work, later, kind, mid)
    ensures |work| <= |later| <= |work| + 1 && later[..|work|] == work
  {
    if i: nat :| i < |work| && Active(work[i]) && SameKey(work[i], w) {
      assert Asks(work, later, i, w.kind, mid, wanted, w.priority, at, now);
    } else {
      assert Asks(work, later, |work|, w.kind, mid, wanted, w.priority, at, now);
    }
  }

  /** Adding a manifest unit disturbs none of this. */
  lemma RecheckDisturbsNothing(work: seq<Work>, middle: seq<Work>, recheck: Work, later: seq<Work>, kind: Kind,
                               mid: ManifestId, wanted: set<int>, priority: int, at: int, now: int)
    requires later == Enqueue(middle, recheck) && recheck.kind == ManifestWork && kind != ManifestWork
    requires |work| <= |middle|
    ensures Schedules(work, middle, kind, mid, wanted, priority, at, now) ==>
              Schedules(work, later, kind, mid, wanted, priority, at, now)
    ensures NoneAdded(work, middle, kind, mid) ==> NoneAdded(work, later, kind, mid)
  {
    if j: nat :| Asks(work, middle, j, kind, mid, wanted, priority, at, now) {
      assert Asks(work, later, j, kind, mid, wanted, priority, at, now);
    }
  }

  /** The numbers with no sample stored. */
  ghost function Unstored(a: Archive, session: SessionId, wanted: set<int>): set<int> {
    set x | x in wanted && SampleKey(session, x) !in a.samples
  }

  lemma UnstoredIsUncovered(a: Archive, session: SessionId, wanted: set<int>)
    requires CoverageExact(a, session)
    ensures Unstored(a, session, wanted) == wanted - Elems(CoverageOf(a, session))
  {
    forall x | x in wanted
      ensures x in Unstored(a, session, wanted) <==> x !in Elems(CoverageOf(a, session))
    {
      InStored(a, session, x);
    }
  }

  // ---- A manifest check ------------------------------------------------------------------------

  predicate AuditWanted(stamp: Option<int>, now: int) {
    stamp == None || stamp.value + WEEK_US <= now
  }

  /** What a manifest check schedules. Numbers not stored yet are asked for first. A manifest with
      nothing to ask for is audited from its least number when its session was never stamped or
      was stamped a week ago or longer; a later stamp, and an empty manifest, leave it alone. */
  lemma CompletionSchedules(s: Ledger, i: nat, metadata: int, ranges: seq<Interval>, now: int, mid: ManifestId,
                            t: Ledger, manifest: set<int>, unstored: set<int>)
    requires Inv(s) && i < |s.work| && s.work[i].session in s.sessions
    requires mid == ManifestId(s.work[i].session, metadata)
    requires t == ManifestCompleted(s, i, metadata, ranges, now)
    requires manifest == Elems(t.manifests[mid]) && unstored == Unstored(s.archive, mid.session, manifest)
    ensures if unstored != {} then Schedules(s.work, t.work, SampleWork, mid, unstored, 60, now, now)
            else NoneAdded(s.work, t.work, SampleWork, mid)
    ensures if unstored == {} && manifest != {} && AuditWanted(s.sessions[mid.session].lastAudit, now)
            then Schedules(s.work, t.work, AuditWork, mid, manifest, 200, now, now)
            else NoneAdded(s.work, t.work, AuditWork, mid)
  {
    var finished := s.work[i := s.work[i].(state := Done)];
    var next := ManifestFollowUp(s.archive, mid, t.manifests[mid], s.sessions[mid.session].lastAudit, now);
    var middle := EnqueueSome(finished, next);
    var recheck := NewManifestWork(mid.session, 150, now + MANIFEST_RECHECK_US, now);
    UnstoredIsUncovered(s.archive, mid.session, manifest);
    FirstChunkFacts(unstored, CHUNK_SIZE);
    FirstChunkFacts(manifest, CHUNK_SIZE);
    if unstored != {} {
      ChunkIsFirstRequest(unstored, next.value.range.value);
      EnqueueSchedules(finished, next.value, middle, mid, unstored, now, now);
    } else if next.Some? {
      ChunkIsFirstRequest(manifest, next.value.range.value);
      EnqueueSchedules(finished, next.value, middle, mid, manifest, now, now);
    }
    assert |finished| == |s.work|;
    RecheckDisturbsNothing(finished, middle, recheck, t.work, SampleWork, mid, unstored, 60, now, now);
    RecheckDisturbsNothing(finished, middle, recheck, t.work, AuditWork, mid, manifest, 200, now, now);
    SameLength(finished, s.work, t.work, SampleWork, mid, unstored, 60, now, now);
    SameLength(finished, s.work, t.work, AuditWork, mid, manifest, 200, now, now);
  }

  lemma SameLength(finished: seq<Work>, work: seq<Work>, later: seq<Work>, kind: Kind, mid: ManifestId,
                   wanted: set<int>, priority: int, at: int, now: int)
    requires |finished| == |work|
    ensures Schedules(finished, later, kind, mid, wanted, priority, at, now) ==>
              Schedules(work, later, kind, mid, wanted, priority, at, now)
    ensures NoneAdded(finished, later, kind, mid) ==> NoneAdded(work, later, kind, mid)
  {
    if j: nat :| Asks(finished, later, j, kind, mid, wanted, priority, at, now) {
      assert Asks(work, later, j, kind, mid, wanted, priority, at, now);
    }
  }

  /** A completed manifest unit is replaced: the last unit of the table is a new check of the
      session six hours from now, and besides it at most one unit was added. */
  lemma CompletionRechecks(s: Ledger, i: nat, metadata: int, ranges: seq<Interval>, now: int, t: Ledger)
    requires Inv(s) && i < |s.work| && s.work[i].session in s.sessions
    requires s.work[i].kind == ManifestWork && s.work[i].state == Running
    requires t == ManifestCompleted(s, i, metadata, ranges, now)
    ensures |s.work| < |t.work| <= |s.work| + 2
    ensures t.work[|t.work| - 1] ==
            Work(ManifestWork, s.work[i].session, None, None, 150, Ready, 0, now + 6 * HOUR_US, now)
    ensures forall k | 0 <= k < |s.work| ::
              t.work[k] == if k == i then s.work[i].(state := Done) else s.work[k]
  {
    var mid := ManifestId(s.work[i].session, metadata);
    var finished := s.work[i := s.work[i].(state := Done)];
    var next := ManifestFollowUp(s.archive, mid, t.manifests[mid], s.sessions[mid.session].lastAudit, now);
    var middle := EnqueueSome(finished, next);
    var recheck := NewManifestWork(mid.session, 150, now + MANIFEST_RECHECK_US, now);
    assert RowOk(s, s.work[i]);
    forall k | 0 <= k < |middle|
      ensures !(Active(middle[k]) && SameKey(middle[k], recheck))
    {
      if k < |s.work| && k != i {
        assert middle[k] == s.work[k];
        assert SameKey(s.work[k], recheck) ==> SameKey(s.work[k], s.work[i]) && SameKey(s.work[i], s.work[k]);
      }
    }
    assert t.work == middle + [recheck];
  }

  /** A manifest is stored once, as the union of the ranges of its first check. */
  lemma ManifestStored(s: Ledger, i: nat, metadata: int, ranges: seq<Interval>, now: int)
    requires i < |s.work| && s.work[i].session in s.sessions
    ensures var mid := ManifestId(s.work[i].session, metadata);
            ManifestCompleted(s, i, metadata, ranges, now).manifests ==
            if mid in s.manifests then s.manifests else s.manifests[mid := Canon(Elems(ranges))]
  {
  }

  // ---- A commit ----------------------------------------------------------------------------------

  /** What a commit schedules. Requested numbers still not stored are asked for again an hour
      later. After a complete answer a sample unit is followed by the first request of the
      manifest numbers not stored, and an audit unit by the first request of the manifest
      numbers beyond its own. */
  lemma CommitSchedules(s: Ledger, i: nat, rows: seq<M.SampleRow>, now: int, w: Work, mid: ManifestId, t: Ledger,
                        absent: set<int>, wanted: set<int>)
    requires Inv(s) && RangeUnit(s, i) && ValidRows(rows, s.work[i].range.value)
    requires w == s.work[i] && mid == w.manifest.value && t == SamplesCommitted(s, i, rows, now)
    requires absent == Unstored(t.archive, mid.session, Span(w.range.value.lo, w.range.value.hi))
    requires wanted == Remaining(t.archive, w.kind, mid, w.range.value, s.manifests[mid])
    ensures absent != {} ==>
              Schedules(s.work, t.work, w.kind, mid, absent, if w.kind == SampleWork then 80 else 210,
                        now + HOUR_US, now)
    ensures absent == {} && wanted != {} ==>
              Schedules(s.work, t.work, w.kind, mid, wanted, if w.kind == SampleWork then 60 else 210, now, now)
    ensures absent == {} && wanted == {} ==> |t.work| == |s.work|
  {
    var finished := s.work[i := w.(state := Done)];
    var next := CommitFollowUp(t.archive, w.kind, mid, w.range.value, s.manifests[mid], now);
    AbsorbedKeepsArchive(s.archive, mid, w.range.value, rows);
    assert CoverageExact(t.archive, mid.session);
    FollowUpAsks(t.archive, w.kind, mid, w.range.value, s.manifests[mid], now, next, absent, wanted);
    if next.Some? {
      var what := if absent != {} then absent else wanted;
      EnqueueSchedules(finished, next.value, t.work, mid, what, next.value.notBefore, now);
      SameLength(finished, s.work, t.work, w.kind, mid, what, next.value.priority, next.value.notBefore, now);
    }
  }

  /** The numbers a unit's chain still has to ask for after a complete answer. */
  ghost function Remaining(a: Archive, kind: Kind, mid: ManifestId, range: Interval, ranges: seq<Interval>): set<int> {
    if kind == SampleWork then Unstored(a, mid.session, Elems(ranges))
    else set x | x in Elems(ranges) && range.hi < x
  }

  lemma FollowUpAsks(a: Archive, kind: Kind, mid: ManifestId, range: Interval, ranges: seq<Interval>, now: int,
                     next: Option<Work>, absent: set<int>, wanted: set<int>)
    requires CoverageExact(a, mid.session) && kind != ManifestWork
    requires next == CommitFollowUp(a, kind, mid, range, ranges, now)
    requires absent == Unstored(a, mid.session, Span(range.lo, range.hi))
    requires wanted == Remaining(a, kind, mid, range, ranges)
    ensures next == None <==> absent == {} && wanted == {}
    ensures next.Some? ==>
              && UnitOf(next.value, kind, mid)
              && FirstRequest(next.value.range.value, if absent != {} then absent else wanted)
              && Waiting(next.value, if kind != SampleWork then 210 else if absent != {} then 80 else 60,
                         if absent != {} then now + HOUR_US else now, now)
  {
    UnstoredIsUncovered(a, mid.session, Span(range.lo, range.hi));
    UnstoredIsUncovered(a, mid.session, Elems(ranges));
    FirstChunkFacts(wanted, CHUNK_SIZE);
    if absent != {} {
      assert Elems(Canon(absent)) == absent;
      RetryIsFirstRequest(absent, next.value.range.value);
    } else {
      CanonOf([], {});
      if next.Some? {
        ChunkIsFirstRequest(wanted, next.value.range.value);
      }
    }
  }

  /** Exactly the audit commit that leaves nothing of its manifest to audit stamps its session,
      with the time of the commit; no other commit touches a session. */
  lemma CommitStampsIff(s: Ledger, i: nat, rows: seq<M.SampleRow>, now: int, w: Work, mid: ManifestId, t: Ledger,
                        manifest: set<int>, session: SessionId)
    requires Inv(s) && RangeUnit(s, i) && ValidRows(rows, s.work[i].range.value)
    requires w == s.work[i] && mid == w.manifest.value && t == SamplesCommitted(s, i, rows, now)
    requires manifest == Elems(s.manifests[mid]) && session in s.sessions
    ensures session in t.sessions
    ensures t.sessions[session] ==
            if session == w.session && w.kind == AuditWork && (forall x | x in manifest :: x <= w.range.value.hi)
            then s.sessions[session].(lastAudit := Some(now)) else s.sessions[session]
  {
    EndsAuditIff(t.archive, w.kind, mid, w.range.value, s.manifests[mid], manifest);
    if w.kind == AuditWork {
      AuditFindsNothingMissing(s, i, rows);
    }
    CommittedSessions(s, i, rows, now);
  }

  lemma CommittedSessions(s: Ledger, i: nat, rows: seq<M.SampleRow>, now: int)
    requires RangeUnit(s, i)
    ensures var w, t := s.work[i], SamplesCommitted(s, i, rows, now);
            var mid := w.manifest.value;
            t.sessions == if EndsAudit(t.archive, w.kind, mid, w.range.value, s.manifests[mid])
                          then s.sessions[w.session := s.sessions[w.session].(lastAudit := Some(now))] else s.sessions
  {
  }

  lemma EndsAuditIff(a: Archive, kind: Kind, mid: ManifestId, range: Interval, ranges: seq<Interval>,
                     manifest: set<int>)
    requires manifest == Elems(ranges)
    ensures EndsAudit(a, kind, mid, range, ranges) <==>
            && kind == AuditWork && MissingIn(a, mid.session, range) == []
            && forall x | x in manifest :: x <= range.hi
  {
    NothingBeyond(manifest, range.hi);
  }

  lemma NothingBeyond(manifest: set<int>, hi: int)
    ensures FirstChunk(After(manifest, Some(hi)), CHUNK_SIZE) == None <==> forall x | x in manifest :: x <= hi
  {
    var beyond := After(manifest, Some(hi));
    FirstChunkFacts(beyond, CHUNK_SIZE);
    if x :| x in manifest && hi < x {
      assert x in beyond;
    } else {
      assert beyond == {};
    }
  }

  /** A commit finishes its unit, files one receipt for it and leaves every other unit alone. */
  lemma CommitFiles(s: Ledger, i: nat, rows: seq<M.SampleRow>, now: int, t: Ledger)
    requires RangeUnit(s, i) && t == SamplesCommitted(s, i, rows, now)
    ensures |s.work| <= |t.work| <= |s.work| + 1
    ensures forall k | 0 <= k < |s.work| ::
              t.work[k] == if k == i then s.work[i].(state := Done) else s.work[k]
    ensures |t.receipts| == |s.receipts| + 1 && t.receipts[..|s.receipts|] == s.receipts
    ensures t.receipts[|s.receipts|].work == i && t.receipts[|s.receipts|].at == now
    ensures Some(t.receipts[|s.receipts|].request) == s.work[i].range
  {
  }
}
