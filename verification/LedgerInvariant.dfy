/** The ledger invariant: work units, receipts, audit chains and the archive tables agree
    after every step, in any order, with any clock values, responses and faults. */
module LedgerInvariant {
  import opened Ranges
  import opened Chunks
  import opened Coverage
  import opened Ledger
  import opened ArchiveInvariant
  import opened Wrappers
  import M = Models

  // ---- The invariant, part by part ---------------------------------------------------

  /** A range unit is bounded and lies inside a stored manifest of its session; an audit is
      scheduled only for a manifest that coverage already contains. */
  ghost predicate RangeRowOk(manifests: map<ManifestId, seq<Interval>>, a: Archive, w: Work) {
    && w.manifest.Some? && w.range.Some?
    && w.manifest.value in manifests && w.manifest.value.session == w.session
    && w.range.value.lo <= w.range.value.hi < w.range.value.lo + CHUNK_SIZE
    && Span(w.range.value.lo, w.range.value.hi) <= Elems(manifests[w.manifest.value])
    && (w.kind == AuditWork ==> Elems(manifests[w.manifest.value]) <= Elems(CoverageOf(a, w.session)))
  }

  ghost predicate RowOk(s: Ledger, w: Work) {
    && w.session in s.sessions
    && (w.state == Failed ==> w.attempts >= MAX_WORK_ATTEMPTS)
    && (w.kind == ManifestWork ==> w.manifest == None && w.range == None)
    && (w.kind != ManifestWork ==> RangeRowOk(s.manifests, s.archive, w))
  }

  ghost predicate RowsOk(s: Ledger) {
    forall i | 0 <= i < |s.work| :: RowOk(s, s.work[i])
  }

  /** At most one active unit per kind, session, manifest and range. */
  predicate KeysUnique(work: seq<Work>) {
    forall i, j | 0 <= i < j < |work| && Active(work[i]) && Active(work[j]) :: !SameKey(work[i], work[j])
  }

  predicate ManifestUnit(w: Work, session: SessionId) {
    w.kind == ManifestWork && w.session == session && w.manifest == None && w.range == None
  }

  /** The session has an active manifest unit or a failed one. */
  predicate Scheduled(work: seq<Work>, session: SessionId) {
    exists i | 0 <= i < |work| :: ManifestUnit(work[i], session) && (Active(work[i]) || work[i].state == Failed)
  }

  ghost predicate ManifestsOk(s: Ledger) {
    forall mid | mid in s.manifests :: mid.session in s.sessions && Canonical(s.manifests[mid])
  }

  function ReceiptsFor(receipts: seq<Receipt>, i: nat): nat {
    if receipts == [] then 0
    else ReceiptsFor(receipts[..|receipts| - 1], i) + if receipts[|receipts| - 1].work == i then 1 else 0
  }

  function TotalCommitted(receipts: seq<Receipt>): nat {
    if receipts == [] then 0
    else TotalCommitted(receipts[..|receipts| - 1]) + receipts[|receipts| - 1].counts.committed
  }

  /** A sample or audit unit is done exactly when it has exactly one receipt; nothing else has any. */
  predicate ReceiptOk(receipts: seq<Receipt>, work: seq<Work>, i: nat)
    requires i < |work|
  {
    ReceiptsFor(receipts, i) == if work[i].kind != ManifestWork && work[i].state == Done then 1 else 0
  }

  predicate ReceiptsOk(s: Ledger) {
    && (forall i: nat | i < |s.work| :: ReceiptOk(s.receipts, s.work, i))
    && (forall r | r in s.receipts :: r.work < |s.work|)
    && TotalCommitted(s.receipts) == |s.archive.versions|
  }

  /** A finished audit request of this manifest contained x. */
  predicate Audited(work: seq<Work>, mid: ManifestId, x: int) {
    exists j | 0 <= j < |work| :: FinishedAudit(work[j], mid, x)
  }

  predicate FinishedAudit(w: Work, mid: ManifestId, x: int) {
    w.kind == AuditWork && w.state == Done && w.manifest == Some(mid) && w.range.Some?
    && w.range.value.lo <= x <= w.range.value.hi
  }

  /** Every manifest number below an audit unit's start has been audited. */
  ghost predicate ChainOk(work: seq<Work>, manifests: map<ManifestId, seq<Interval>>, w: Work) {
    w.kind == AuditWork && w.manifest.Some? && w.range.Some? && w.manifest.value in manifests ==>
      forall x | x in Elems(manifests[w.manifest.value]) && x < w.range.value.lo :: Audited(work, w.manifest.value, x)
  }

  ghost predicate ChainsOk(s: Ledger) {
    forall i | 0 <= i < |s.work| :: ChainOk(s.work, s.manifests, s.work[i])
  }

  ghost predicate FullyAudited(s: Ledger, mid: ManifestId) {
    mid in s.manifests && forall x | x in Elems(s.manifests[mid]) :: Audited(s.work, mid, x)
  }

  /** A session is stamped as audited only if some manifest of it is fully audited. */
  ghost predicate StampOk(s: Ledger, session: SessionId)
    requires session in s.sessions
  {
    s.sessions[session].lastAudit.Some? ==> exists mid: ManifestId :: mid.session == session && FullyAudited(s, mid)
  }

  ghost predicate StampsOk(s: Ledger) {
    forall session | session in s.sessions :: StampOk(s, session)
  }

  ghost predicate SessionsScheduled(s: Ledger, excused: set<SessionId>) {
    forall session | session in s.sessions && session !in excused :: Scheduled(s.work, session)
  }

  /** The invariant, except that some sessions may be between two manifest units. */
  ghost predicate InvBut(s: Ledger, excused: set<SessionId>) {
    && ArchiveOk(s.archive)
    && RowsOk(s) && KeysUnique(s.work) && SessionsScheduled(s, excused) && ManifestsOk(s)
    && ReceiptsOk(s) && ChainsOk(s) && StampsOk(s)
  }

  ghost predicate Inv(s: Ledger) {
    InvBut(s, {})
  }

  lemma EmptyInv()
    ensures Inv(EMPTY)
  {
    forall session: SessionId
      ensures CoverageExact(EMPTY.archive, session)
    {
      assert Stored(EMPTY.archive, session) == {};
    }
  }

  // ---- What no step ever undoes -------------------------------------------------------

  /** One unit over time: its key never changes, done and failed are final, attempts never fall. */
  predicate UnitAdvances(w: Work, v: Work) {
    && SameKey(w, v) && w.attempts <= v.attempts
    && (w.state == Done ==> v.state == Done)
    && (w.state == Failed ==> v.state == Failed)
  }

  predicate WorkAdvances(work: seq<Work>, later: seq<Work>) {
    |work| <= |later| && forall i | 0 <= i < |work| :: UnitAdvances(work[i], later[i])
  }

  lemma AuditedStays(work: seq<Work>, later: seq<Work>, mid: ManifestId, x: int)
    requires WorkAdvances(work, later) && Audited(work, mid, x)
    ensures Audited(later, mid, x)
  {
    var j :| 0 <= j < |work| && FinishedAudit(work[j], mid, x);
    assert UnitAdvances(work[j], later[j]);
    assert FinishedAudit(later[j], mid, x);
  }

  predicate SameManifests(m: map<ManifestId, seq<Interval>>, later: map<ManifestId, seq<Interval>>) {
    forall mid | mid in m :: mid in later && later[mid] == m[mid]
  }

  ghost predicate CoverageAdvances(a: Archive, b: Archive) {
    forall session: SessionId :: Elems(CoverageOf(a, session)) <= Elems(CoverageOf(b, session))
  }

  lemma RowStays(s: Ledger, t: Ledger, w: Work)
    requires RowOk(s, w)
    requires s.sessions.Keys <= t.sessions.Keys && SameManifests(s.manifests, t.manifests)
    requires CoverageAdvances(s.archive, t.archive)
    ensures RowOk(t, w)
  {
  }

  lemma ChainStays(s: Ledger, t: Ledger, w: Work)
    requires ChainOk(s.work, s.manifests, w)
    requires w.manifest.Some? ==> w.manifest.value in s.manifests
    requires WorkAdvances(s.work, t.work) && SameManifests(s.manifests, t.manifests)
    ensures ChainOk(t.work, t.manifests, w)
  {
    if w.kind == AuditWork && w.manifest.Some? && w.range.Some? && w.manifest.value in t.manifests {
      forall x | x in Elems(t.manifests[w.manifest.value]) && x < w.range.value.lo
        ensures Audited(t.work, w.manifest.value, x)
      {
        AuditedStays(s.work, t.work, w.manifest.value, x);
      }
    }
  }

  lemma StampStays(s: Ledger, t: Ledger, session: SessionId)
    requires session in s.sessions && session in t.sessions && StampOk(s, session)
    requires t.sessions[session].lastAudit == s.sessions[session].lastAudit
    requires WorkAdvances(s.work, t.work) && SameManifests(s.manifests, t.manifests)
    ensures StampOk(t, session)
  {
    if t.sessions[session].lastAudit.Some? {
      var mid: ManifestId :| mid.session == session && FullyAudited(s, mid);
      forall x | x in Elems(t.manifests[mid])
        ensures Audited(t.work, mid, x)
      {
        AuditedStays(s.work, t.work, mid, x);
      }
      assert FullyAudited(t, mid);
    }
  }

  // ---- Enqueue ------------------------------------------------------------------------

  lemma EnqueueFacts(work: seq<Work>, w: Work)
    requires KeysUnique(work) && Active(w)
    ensures KeysUnique(Enqueue(work, w))
    ensures WorkAdvances(work, Enqueue(work, w))
    ensures exists i | 0 <= i < |Enqueue(work, w)| :: Active(Enqueue(work, w)[i]) && SameKey(Enqueue(work, w)[i], w)
    ensures Enqueue(work, w) == work || Enqueue(work, w) == work + [w]
  {
    var out := Enqueue(work, w);
    if out != work {
      assert Active(out[|work|]) && SameKey(out[|work|], w);
    }
  }

  lemma ScheduledStays(work: seq<Work>, w: Work, session: SessionId)
    requires Scheduled(work, session)
    ensures Scheduled(Enqueue(work, w), session)
  {
    var i :| 0 <= i < |work| && ManifestUnit(work[i], session) && (Active(work[i]) || work[i].state == Failed);
    assert Enqueue(work, w)[i] == work[i];
  }

  lemma EnqueuedManifestSchedules(work: seq<Work>, w: Work, session: SessionId)
    requires KeysUnique(work) && Active(w) && ManifestUnit(w, session)
    ensures Scheduled(Enqueue(work, w), session)
  {
    EnqueueFacts(work, w);
    var out := Enqueue(work, w);
    var i :| 0 <= i < |out| && Active(out[i]) && SameKey(out[i], w);
    assert ManifestUnit(out[i], session);
  }

  // ---- Receipts -----------------------------------------------------------------------

  lemma ReceiptsAppend(receipts: seq<Receipt>, r: Receipt, i: nat)
    ensures ReceiptsFor(receipts + [r], i) == ReceiptsFor(receipts, i) + if r.work == i then 1 else 0
    ensures TotalCommitted(receipts + [r]) == TotalCommitted(receipts) + r.counts.committed
  {
    assert (receipts + [r])[..|receipts|] == receipts;
  }

  lemma {:induction false} NoReceiptBeyond(receipts: seq<Receipt>, i: nat)
    requires forall r | r in receipts :: r.work < i
    ensures ReceiptsFor(receipts, i) == 0
    decreases |receipts|
  {
    if receipts != [] {
      NoReceiptBeyond(receipts[..|receipts| - 1], i);
      assert receipts[|receipts| - 1] in receipts;
    }
  }

  lemma {:induction false} OneReceipt(receipts: seq<Receipt>, i: nat)
    ensures ReceiptsFor(receipts, i) == 0 ==> forall r | r in receipts :: r.work != i
    ensures ReceiptsFor(receipts, i) > 0 ==> exists r | r in receipts :: r.work == i
    ensures ReceiptsFor(receipts, i) == 1 ==>
              forall q, r | q in receipts && r in receipts && q.work == i && r.work == i :: q == r
    decreases |receipts|
  {
    if receipts != [] {
      var init, last := receipts[..|receipts| - 1], receipts[|receipts| - 1];
      OneReceipt(init, i);
      assert receipts == init + [last];
    }
  }

  /** Stamps survive any step that advances work and keeps manifests and stamps. */
  lemma StampsStay(s: Ledger, t: Ledger)
    requires StampsOk(s) && WorkAdvances(s.work, t.work) && SameManifests(s.manifests, t.manifests)
    requires t.sessions == s.sessions
    ensures StampsOk(t)
  {
    forall session | session in t.sessions
      ensures StampOk(t, session)
    {
      assert StampOk(s, session);
      StampStays(s, t, session);
    }
  }

  // ---- Steps that only reschedule units: claim, fail, recover ---------------------------

  predicate Rescheduled(w: Work, v: Work) {
    && UnitAdvances(w, v)
    && (v.state == Done <==> w.state == Done)
    && (v.state == Failed ==> v.attempts >= MAX_WORK_ATTEMPTS)
    && (Active(v) ==> Active(w))
    && (Active(w) ==> Active(v) || v.state == Failed)
  }

  predicate OnlyRescheduled(s: Ledger, t: Ledger) {
    && t == s.(work := t.work, runs := t.runs)
    && |t.work| == |s.work|
    && forall i | 0 <= i < |s.work| :: Rescheduled(s.work[i], t.work[i])
  }

  lemma RescheduleKeepsInv(s: Ledger, t: Ledger)
    requires Inv(s) && OnlyRescheduled(s, t)
    ensures Inv(t)
  {
    assert WorkAdvances(s.work, t.work);
    forall i | 0 <= i < |t.work|
      ensures RowOk(t, t.work[i]) && ChainOk(t.work, t.manifests, t.work[i])
    {
      assert Rescheduled(s.work[i], t.work[i]);
      assert RowOk(s, s.work[i]);
      ChainStays(s, t, s.work[i]);
    }
    forall session | session in t.sessions
      ensures Scheduled(t.work, session) && StampOk(t, session)
    {
      assert Scheduled(s.work, session);
      var i :| 0 <= i < |s.work| && ManifestUnit(s.work[i], session)
          && (Active(s.work[i]) || s.work[i].state == Failed);
      assert Rescheduled(s.work[i], t.work[i]);
      assert ManifestUnit(t.work[i], session);
      assert StampOk(s, session);
      StampStays(s, t, session);
    }
    forall i: nat | i < |t.work|
      ensures ReceiptOk(t.receipts, t.work, i)
    {
      assert Rescheduled(s.work[i], t.work[i]);
      assert ReceiptOk(s.receipts, s.work, i);
    }
    forall i, j | 0 <= i < j < |t.work| && Active(t.work[i]) && Active(t.work[j])
      ensures !SameKey(t.work[i], t.work[j])
    {
      assert Rescheduled(s.work[i], t.work[i]) && Rescheduled(s.work[j], t.work[j]);
      assert !SameKey(s.work[i], s.work[j]);
    }
  }

  lemma ClaimReschedules(s: Ledger, i: nat)
    requires RowsOk(s) && i < |s.work| && s.work[i].state == Ready
    ensures OnlyRescheduled(s, Claimed(s, i))
  {
    forall j | 0 <= j < |s.work|
      ensures Rescheduled(s.work[j], Claimed(s, i).work[j])
    {
      assert RowOk(s, s.work[j]);
    }
  }

  lemma FailReschedules(s: Ledger, i: nat, delay: int, now: int)
    requires RowsOk(s)
    ensures OnlyRescheduled(s, FailWork(s, i, delay, now))
  {
    if i < |s.work| {
      assert RowOk(s, s.work[i]);
    }
    forall j | 0 <= j < |s.work|
      ensures Rescheduled(s.work[j], FailWork(s, i, delay, now).work[j])
    {
      assert RowOk(s, s.work[j]);
    }
  }

  lemma RecoverReschedules(s: Ledger, now: int)
    requires RowsOk(s)
    ensures OnlyRescheduled(s, Recover(s, now))
  {
    forall j | 0 <= j < |s.work|
      ensures Rescheduled(s.work[j], Recover(s, now).work[j])
    {
      assert RowOk(s, s.work[j]);
    }
  }

  // ---- Adding a unit or a session -------------------------------------------------------

  lemma AppendedRows(s: Ledger, t: Ledger, w: Work)
    requires RowsOk(s) && ChainsOk(s) && ManifestsOk(s)
    requires t == s.(work := s.work + [w]) && RowOk(s, w) && ChainOk(s.work, s.manifests, w)
    ensures RowsOk(t) && ChainsOk(t)
  {
    forall i | 0 <= i < |t.work|
      ensures RowOk(t, t.work[i]) && ChainOk(t.work, t.manifests, t.work[i])
    {
      if i < |s.work| {
        assert RowOk(s, s.work[i]) && ChainOk(s.work, s.manifests, s.work[i]);
      }
      RowStays(s, t, t.work[i]);
      ChainStays(s, t, t.work[i]);
    }
  }

  lemma AppendedReceipts(s: Ledger, t: Ledger, w: Work)
    requires ReceiptsOk(s) && w.state == Ready
    requires t == s.(work := s.work + [w])
    ensures ReceiptsOk(t)
  {
    NoReceiptBeyond(s.receipts, |s.work|);
    forall i: nat | i < |t.work|
      ensures ReceiptOk(t.receipts, t.work, i)
    {
      assert i < |s.work| ==> ReceiptOk(s.receipts, s.work, i);
    }
  }

  /** Adding one unit that fits the tables keeps the invariant, and adding a manifest unit
      puts its session back on schedule. */
  lemma EnqueueKeepsInv(s: Ledger, w: Work, excused: set<SessionId>)
    requires InvBut(s, excused) && w.state == Ready && RowOk(s, w) && ChainOk(s.work, s.manifests, w)
    ensures InvBut(s.(work := Enqueue(s.work, w)), if w.kind == ManifestWork then excused - {w.session} else excused)
  {
    var t := s.(work := Enqueue(s.work, w));
    var left := if w.kind == ManifestWork then excused - {w.session} else excused;
    EnqueueFacts(s.work, w);
    if w.kind == ManifestWork {
      EnqueuedManifestSchedules(s.work, w, w.session);
    }
    forall session | session in t.sessions && session !in left
      ensures Scheduled(t.work, session)
    {
      if session !in excused {
        assert Scheduled(s.work, session);
        ScheduledStays(s.work, w, session);
      }
    }
    if t.work != s.work {
      AppendedRows(s, t, w);
      AppendedReceipts(s, t, w);
      forall session | session in t.sessions
        ensures StampOk(t, session)
      {
        assert StampOk(s, session);
        StampStays(s, t, session);
      }
    }
  }

  /** A session upsert changes no other table; a new session still awaits its manifest unit. */
  lemma UpsertKeepsInv(s: Ledger, item: IndexItem, account: AccountId)
    requires Inv(s)
    ensures InvBut(s.(sessions := UpsertSession(s.sessions, item, account)), {item.session})
  {
    var t := s.(sessions := UpsertSession(s.sessions, item, account));
    forall i | 0 <= i < |t.work|
      ensures RowOk(t, t.work[i])
    {
      assert RowOk(s, s.work[i]);
      RowStays(s, t, s.work[i]);
    }
    assert ChainsOk(t);
    forall session | session in t.sessions
      ensures StampOk(t, session)
    {
      if session in s.sessions {
        assert StampOk(s, session);
        StampStays(s, t, session);
      }
    }
  }

  lemma {:induction false} DiscoverKeepsInv(s: Ledger, items: seq<IndexItem>, account: AccountId, now: int)
    requires Inv(s)
    ensures Inv(DiscoverItems(s, items, account, now))
    decreases |items|
  {
    if items != [] {
      var item := items[|items| - 1];
      var before := DiscoverItems(s, items[..|items| - 1], account, now);
      DiscoverKeepsInv(s, items[..|items| - 1], account, now);
      UpsertKeepsInv(before, item, account);
      EnqueueKeepsInv(before.(sessions := UpsertSession(before.sessions, item, account)),
                      NewManifestWork(item.session, 50, now, now), {item.session});
      assert {item.session} - {item.session} == {};
    }
  }

  // ---- Completing a manifest unit ---------------------------------------------------------

  /** Recording a manifest: stored ranges never change, so nothing already known is affected. */
  lemma ManifestRecorded(s: Ledger, mid: ManifestId, ranges: seq<Interval>)
    requires Inv(s) && mid.session in s.sessions && mid !in s.manifests && Canonical(ranges)
    ensures Inv(s.(manifests := s.manifests[mid := ranges]))
  {
    var t := s.(manifests := s.manifests[mid := ranges]);
    RecordedRows(s, t);
    StampsStay(s, t);
  }

  lemma RecordedRows(s: Ledger, t: Ledger)
    requires RowsOk(s) && ChainsOk(s) && ManifestsOk(s)
    requires t == s.(manifests := t.manifests) && SameManifests(s.manifests, t.manifests)
    ensures RowsOk(t) && ChainsOk(t)
  {
    forall i | 0 <= i < |t.work|
      ensures RowOk(t, t.work[i]) && ChainOk(t.work, t.manifests, t.work[i])
    {
      assert RowOk(s, s.work[i]) && ChainOk(s.work, s.manifests, s.work[i]);
      RowStays(s, t, s.work[i]);
      ChainStays(s, t, s.work[i]);
    }
  }

  /** Marking a running manifest unit done leaves only its own session unscheduled. */
  lemma ManifestUnitDone(s: Ledger, i: nat)
    requires Inv(s) && i < |s.work| && s.work[i].kind == ManifestWork && s.work[i].state == Running
    ensures InvBut(s.(work := s.work[i := s.work[i].(state := Done)]), {s.work[i].session})
  {
    var t := s.(work := s.work[i := s.work[i].(state := Done)]);
    DoneRows(s, t, i);
    StampsStay(s, t);
    forall session | session in t.sessions && session != s.work[i].session
      ensures Scheduled(t.work, session)
    {
      assert Scheduled(s.work, session);
      var j :| 0 <= j < |s.work| && ManifestUnit(s.work[j], session)
          && (Active(s.work[j]) || s.work[j].state == Failed);
      assert t.work[j] == s.work[j];
    }
    forall j: nat | j < |t.work|
      ensures ReceiptOk(t.receipts, t.work, j)
    {
      assert ReceiptOk(s.receipts, s.work, j);
    }
  }

  lemma DoneRows(s: Ledger, t: Ledger, i: nat)
    requires RowsOk(s) && ChainsOk(s) && KeysUnique(s.work)
    requires i < |s.work| && s.work[i].state == Running
    requires t == s.(work := s.work[i := s.work[i].(state := Done)])
    ensures RowsOk(t) && ChainsOk(t) && KeysUnique(t.work) && WorkAdvances(s.work, t.work)
  {
    forall j | 0 <= j < |t.work|
      ensures RowOk(t, t.work[j]) && ChainOk(t.work, t.manifests, t.work[j])
    {
      assert RowOk(s, s.work[j]) && ChainOk(s.work, s.manifests, s.work[j]);
      ChainStays(s, t, s.work[j]);
    }
  }

  /** A chunk of wanted manifest numbers is a legal range for a unit of that manifest. */
  lemma ChunkFits(manifest: set<int>, wanted: set<int>, chunk: Interval)
    requires wanted <= manifest && FirstChunk(wanted, CHUNK_SIZE) == Some(chunk)
    ensures chunk.lo <= chunk.hi < chunk.lo + CHUNK_SIZE && Span(chunk.lo, chunk.hi) <= manifest
    ensures forall x | x in wanted :: chunk.lo <= x
  {
    FirstChunkFacts(wanted, CHUNK_SIZE);
  }

  /** What a manifest check schedules fits the tables: missing chunks lie in the manifest, and
      an audit starts at its first number and only when coverage holds all of it. */
  lemma ManifestFollowUpFits(s: Ledger, mid: ManifestId, lastAudit: Option<int>, now: int, w: Work)
    requires ManifestsOk(s) && mid in s.manifests
    requires ManifestFollowUp(s.archive, mid, s.manifests[mid], lastAudit, now) == Some(w)
    ensures w.state == Ready && w.kind != ManifestWork && RowOk(s, w) && ChainOk(s.work, s.manifests, w)
  {
    var ranges := s.manifests[mid];
    var wanted := Wanted(s.archive, mid.session, ranges);
    FirstChunkFacts(wanted, CHUNK_SIZE);
    if FirstChunk(wanted, CHUNK_SIZE).Some? {
      ChunkFits(Elems(ranges), wanted, w.range.value);
    } else {
      ChunkFits(Elems(ranges), After(Elems(ranges), None), w.range.value);
      assert Elems(ranges) <= Elems(CoverageOf(s.archive, mid.session)) by {
        forall x | x in Elems(ranges) ensures x in Elems(CoverageOf(s.archive, mid.session)) { assert x !in wanted; }
      }
    }
  }

  lemma CompletionKeepsInv(s: Ledger, i: nat, metadata: int, ranges: seq<Interval>, now: int)
    requires Inv(s) && i < |s.work| && s.work[i].kind == ManifestWork && s.work[i].state == Running
    requires s.work[i].session in s.sessions
    ensures Inv(ManifestCompleted(s, i, metadata, ranges, now))
  {
    var w := s.work[i];
    var mid := ManifestId(w.session, metadata);
    var s1 := if mid in s.manifests then s else s.(manifests := s.manifests[mid := Canon(Elems(ranges))]);
    if mid !in s.manifests {
      ManifestRecorded(s, mid, Canon(Elems(ranges)));
    }
    var s2 := s1.(work := s1.work[i := w.(state := Done)]);
    ManifestUnitDone(s1, i);
    var followUp := ManifestFollowUp(s2.archive, mid, s2.manifests[mid], s2.sessions[w.session].lastAudit, now);
    var s3 := s2.(work := EnqueueSome(s2.work, followUp));
    if followUp.Some? {
      ManifestFollowUpFits(s2, mid, s2.sessions[w.session].lastAudit, now, followUp.value);
      EnqueueKeepsInv(s2, followUp.value, {w.session});
    }
    var last := NewManifestWork(w.session, 150, now + MANIFEST_RECHECK_US, now);
    EnqueueKeepsInv(s3, last, {w.session});
    assert {w.session} - {w.session} == {};
    assert ManifestCompleted(s, i, metadata, ranges, now) == s3.(work := Enqueue(s3.work, last));
  }

  // ---- Committing a sample or audit unit ----------------------------------------------------

  /** An audit unit never finds a missing row, so it never takes the retry branch. */
  lemma AuditFindsNothingMissing(s: Ledger, i: nat, rows: seq<M.SampleRow>)
    requires Inv(s) && RangeUnit(s, i) && s.work[i].kind == AuditWork
    requires ValidRows(rows, s.work[i].range.value)
    ensures var w := s.work[i];
            MissingIn(Absorbed(s.archive, w.manifest.value, w.range.value, rows), w.session, w.range.value) == []
  {
    var w := s.work[i];
    var mid, range := w.manifest.value, w.range.value;
    var after := Absorbed(s.archive, mid, range, rows);
    assert RowOk(s, w);
    CoverageGrows(s.archive, mid, range, rows, w.session);
    assert Span(range.lo, range.hi) - Elems(CoverageOf(after, w.session)) == {};
    CanonOf([], {});
  }

  /** The tables after a commit but before the next unit is scheduled. */
  ghost function RangeUnitDone(s: Ledger, i: nat, rows: seq<M.SampleRow>, now: int): Ledger
    requires RangeUnit(s, i)
  {
    var w := s.work[i];
    SamplesCommitted(s, i, rows, now).(work := s.work[i := w.(state := Done)])
  }

  lemma DoneReceipts(s: Ledger, i: nat, rows: seq<M.SampleRow>, now: int)
    requires Inv(s) && RangeUnit(s, i) && s.work[i].state == Running
    ensures ReceiptsOk(RangeUnitDone(s, i, rows, now))
  {
    var t := RangeUnitDone(s, i, rows, now);
    var w := s.work[i];
    var r := t.receipts[|s.receipts|];
    CommittedCountsVersions(s.archive, w.manifest.value, w.range.value, rows);
    ReceiptsAppend(s.receipts, r, 0);
    forall j: nat | j < |t.work|
      ensures ReceiptOk(t.receipts, t.work, j)
    {
      ReceiptsAppend(s.receipts, r, j);
      assert ReceiptOk(s.receipts, s.work, j);
    }
    forall q | q in t.receipts
      ensures q.work < |t.work|
    {
      assert q in s.receipts || q == r;
    }
  }

  lemma DoneRangeRows(s: Ledger, i: nat, rows: seq<M.SampleRow>, now: int)
    requires Inv(s) && RangeUnit(s, i) && s.work[i].state == Running
    requires ValidRows(rows, s.work[i].range.value)
    ensures var t := RangeUnitDone(s, i, rows, now);
            && RowsOk(t) && ChainsOk(t) && KeysUnique(t.work) && WorkAdvances(s.work, t.work)
            && CoverageAdvances(s.archive, t.archive)
  {
    var t := RangeUnitDone(s, i, rows, now);
    var w := s.work[i];
    var u := s.(work := t.work);
    DoneRows(s, u, i);
    forall session: SessionId
      ensures Elems(CoverageOf(s.archive, session)) <= Elems(CoverageOf(t.archive, session))
    {
      assert CoverageExact(s.archive, session);
      CoverageGrows(s.archive, w.manifest.value, w.range.value, rows, session);
    }
    forall j | 0 <= j < |t.work|
      ensures RowOk(t, t.work[j])
    {
      assert RowOk(u, u.work[j]);
      RowStays(u, t, u.work[j]);
    }
  }

  /** Below an audit unit's end everything of the manifest is audited once it is done. */
  lemma AuditedThrough(work: seq<Work>, manifests: map<ManifestId, seq<Interval>>, i: nat, later: seq<Work>, x: int)
    requires i < |work| && work[i].kind == AuditWork && work[i].manifest.Some? && work[i].range.Some?
    requires work[i].manifest.value in manifests && ChainOk(work, manifests, work[i])
    requires work[i].state == Running && later == work[i := work[i].(state := Done)]
    requires x in Elems(manifests[work[i].manifest.value]) && x <= work[i].range.value.hi
    ensures Audited(later, work[i].manifest.value, x)
  {
    var w := work[i];
    if x < w.range.value.lo {
      AuditedStays(work, later, w.manifest.value, x);
    } else {
      assert FinishedAudit(later[i], w.manifest.value, x);
    }
  }

  /** The stamp is written only when the finished audit requests cover the whole manifest. */
  lemma StampMeansFullyAudited(s: Ledger, i: nat, rows: seq<M.SampleRow>, now: int)
    requires Inv(s) && RangeUnit(s, i) && s.work[i].state == Running
    requires ValidRows(rows, s.work[i].range.value)
    requires RangeUnitDone(s, i, rows, now).sessions != s.sessions
    ensures s.work[i].kind == AuditWork
    ensures FullyAudited(RangeUnitDone(s, i, rows, now), s.work[i].manifest.value)
  {
    var w, t := s.work[i], RangeUnitDone(s, i, rows, now);
    var mid := w.manifest.value;
    FirstChunkFacts(After(Elems(s.manifests[mid]), Some(w.range.value.hi)), CHUNK_SIZE);
    assert ChainOk(s.work, s.manifests, w);
    forall x | x in Elems(t.manifests[mid])
      ensures Audited(t.work, mid, x)
    {
      assert x !in After(Elems(s.manifests[mid]), Some(w.range.value.hi));
      AuditedThrough(s.work, s.manifests, i, t.work, x);
    }
  }

  lemma DoneStamps(s: Ledger, i: nat, rows: seq<M.SampleRow>, now: int)
    requires Inv(s) && RangeUnit(s, i) && s.work[i].state == Running
    requires ValidRows(rows, s.work[i].range.value)
    ensures StampsOk(RangeUnitDone(s, i, rows, now))
  {
    var t, w := RangeUnitDone(s, i, rows, now), s.work[i];
    DoneRangeRows(s, i, rows, now);
    if t.sessions != s.sessions {
      StampMeansFullyAudited(s, i, rows, now);
    }
    forall session | session in t.sessions
      ensures StampOk(t, session)
    {
      assert StampOk(s, session);
      if t.sessions[session].lastAudit == s.sessions[session].lastAudit {
        StampStays(s, t, session);
      } else {
        assert session == w.session && w.manifest.value.session == session;
      }
    }
  }

  lemma DoneKeepsInv(s: Ledger, i: nat, rows: seq<M.SampleRow>, now: int)
    requires Inv(s) && RangeUnit(s, i) && s.work[i].state == Running
    requires ValidRows(rows, s.work[i].range.value)
    ensures Inv(RangeUnitDone(s, i, rows, now))
  {
    DoneArchive(s, i, rows, now);
    DoneReceipts(s, i, rows, now);
    DoneRangeRows(s, i, rows, now);
    DoneStamps(s, i, rows, now);
    DoneManifests(s, i, rows, now);
  }

  lemma DoneArchive(s: Ledger, i: nat, rows: seq<M.SampleRow>, now: int)
    requires ArchiveOk(s.archive) && RangeUnit(s, i) && ValidRows(rows, s.work[i].range.value)
    ensures ArchiveOk(RangeUnitDone(s, i, rows, now).archive)
  {
    AbsorbedKeepsArchive(s.archive, s.work[i].manifest.value, s.work[i].range.value, rows);
  }

  lemma DoneManifests(s: Ledger, i: nat, rows: seq<M.SampleRow>, now: int)
    requires ManifestsOk(s) && SessionsScheduled(s, {}) && RangeUnit(s, i)
    ensures ManifestsOk(RangeUnitDone(s, i, rows, now)) && SessionsScheduled(RangeUnitDone(s, i, rows, now), {})
  {
    StillScheduled(s, RangeUnitDone(s, i, rows, now), i);
  }

  lemma StillScheduled(s: Ledger, t: Ledger, i: nat)
    requires SessionsScheduled(s, {}) && t.sessions.Keys == s.sessions.Keys
    requires i < |s.work| && s.work[i].kind != ManifestWork && t.work == s.work[i := s.work[i].(state := Done)]
    ensures SessionsScheduled(t, {})
  {
    forall session | session in t.sessions
      ensures Scheduled(t.work, session)
    {
      assert Scheduled(s.work, session);
      var j :| 0 <= j < |s.work| && ManifestUnit(s.work[j], session)
          && (Active(s.work[j]) || s.work[j].state == Failed);
      assert t.work[j] == s.work[j];
    }
  }

  /** A retry asks for a piece of the first missing run of the request. */
  lemma RetryFits(range: Interval, covered: set<int>, missing: seq<Interval>, retry: Interval)
    requires missing == Canon(Span(range.lo, range.hi) - covered) && missing != []
    requires retry == Interval(missing[0].lo, Min(missing[0].hi, missing[0].lo + CHUNK_SIZE - 1))
    ensures retry.lo <= retry.hi < retry.lo + CHUNK_SIZE
    ensures Span(retry.lo, retry.hi) <= Span(range.lo, range.hi)
  {
    HeadIsFirstRun(missing);
    RunIsMaximal(missing, missing[0]);
    forall x | x in Span(retry.lo, retry.hi)
      ensures x in Span(range.lo, range.hi)
    {
      assert x in Span(missing[0].lo, missing[0].hi);
    }
  }

  /** The next audit unit starts where everything below is audited. */
  lemma NextAuditChain(work: seq<Work>, manifests: map<ManifestId, seq<Interval>>, i: nat, later: seq<Work>, w: Work)
    requires i < |work| && work[i].kind == AuditWork && work[i].manifest.Some? && work[i].range.Some?
    requires work[i].manifest.value in manifests && ChainOk(work, manifests, work[i])
    requires work[i].state == Running && later == work[i := work[i].(state := Done)]
    requires w.manifest == work[i].manifest && w.range.Some?
    requires forall x | x in After(Elems(manifests[work[i].manifest.value]), Some(work[i].range.value.hi)) ::
               w.range.value.lo <= x
    ensures ChainOk(later, manifests, w)
  {
    var mid := work[i].manifest.value;
    forall x | x in Elems(manifests[mid]) && x < w.range.value.lo
      ensures Audited(later, mid, x)
    {
      assert x !in After(Elems(manifests[mid]), Some(work[i].range.value.hi));
      AuditedThrough(work, manifests, i, later, x);
    }
  }

  lemma AuditFollowUpFits(s: Ledger, t: Ledger, i: nat, w: Work, next: Interval)
    requires ChainsOk(s) && RangeUnit(s, i) && s.work[i].state == Running && s.work[i].kind == AuditWork
    requires RowsOk(t) && t.manifests == s.manifests && t.work == s.work[i := s.work[i].(state := Done)]
    requires FirstChunk(After(Elems(s.manifests[s.work[i].manifest.value]), Some(s.work[i].range.value.hi)), CHUNK_SIZE)
          == Some(next)
    requires w.kind == AuditWork && w.manifest == s.work[i].manifest && w.range == Some(next)
    requires w.session == s.work[i].session && w.state == Ready
    ensures RowOk(t, w) && ChainOk(t.work, t.manifests, w)
  {
    var u := s.work[i];
    var manifest := Elems(s.manifests[u.manifest.value]);
    assert RowOk(t, t.work[i]);
    ChunkFits(manifest, After(manifest, Some(u.range.value.hi)), next);
    assert ChainOk(s.work, s.manifests, u);
    NextAuditChain(s.work, s.manifests, i, t.work, w);
  }

  lemma SampleFollowUpFits(t: Ledger, i: nat, w: Work)
    requires RowsOk(t) && i < |t.work| && t.work[i].kind == SampleWork && t.work[i].range.Some?
    requires t.work[i].manifest.Some? && t.work[i].manifest.value in t.manifests && w.range.Some?
    requires var mid, range := t.work[i].manifest.value, t.work[i].range.value;
             var covered := Elems(CoverageOf(t.archive, t.work[i].session));
             var missing := Canon(Span(range.lo, range.hi) - covered);
             if missing != []
             then w.range.value == Interval(missing[0].lo, Min(missing[0].hi, missing[0].lo + CHUNK_SIZE - 1))
             else FirstChunk(Elems(t.manifests[mid]) - covered, CHUNK_SIZE) == w.range
    requires w.kind == SampleWork && w.manifest == t.work[i].manifest && w.session == t.work[i].session
             && w.state == Ready
    ensures RowOk(t, w)
  {
    var mid, range := t.work[i].manifest.value, t.work[i].range.value;
    var manifest, covered := Elems(t.manifests[mid]), Elems(CoverageOf(t.archive, t.work[i].session));
    var missing := Canon(Span(range.lo, range.hi) - covered);
    assert RowOk(t, t.work[i]);
    if missing != [] {
      RetryFits(range, covered, missing, w.range.value);
    } else {
      ChunkFits(manifest, manifest - covered, w.range.value);
    }
  }

  /** What a commit schedules fits the tables it leaves. */
  lemma CommitFollowUpFits(s: Ledger, t: Ledger, i: nat, now: int, w: Work)
    requires ChainsOk(s) && RangeUnit(s, i) && s.work[i].state == Running
    requires RowsOk(t) && t.manifests == s.manifests && t.work == s.work[i := s.work[i].(state := Done)]
    requires s.work[i].kind == AuditWork ==>
               MissingIn(t.archive, s.work[i].session, s.work[i].range.value) == []
    requires CommitFollowUp(t.archive, s.work[i].kind, s.work[i].manifest.value, s.work[i].range.value,
                            s.manifests[s.work[i].manifest.value], now) == Some(w)
    ensures w.state == Ready && w.kind == s.work[i].kind
    ensures RowOk(t, w) && ChainOk(t.work, t.manifests, w)
  {
    if s.work[i].kind == AuditWork {
      AuditFollowUpFits(s, t, i, w, w.range.value);
    } else {
      SampleFollowUpFits(t, i, w);
    }
  }

  lemma CommitKeepsInv(s: Ledger, i: nat, rows: seq<M.SampleRow>, now: int)
    requires Inv(s) && RangeUnit(s, i) && s.work[i].state == Running
    requires ValidRows(rows, s.work[i].range.value)
    ensures Inv(SamplesCommitted(s, i, rows, now))
  {
    var t := RangeUnitDone(s, i, rows, now);
    DoneKeepsInv(s, i, rows, now);
    if s.work[i].kind == AuditWork {
      AuditFindsNothingMissing(s, i, rows);
    }
    ScheduledKeepsInv(s, t, i, rows, now);
  }

  lemma ScheduledKeepsInv(s: Ledger, t: Ledger, i: nat, rows: seq<M.SampleRow>, now: int)
    requires ChainsOk(s) && RangeUnit(s, i) && s.work[i].state == Running
    requires t == RangeUnitDone(s, i, rows, now) && Inv(t)
    requires s.work[i].kind == AuditWork ==>
               MissingIn(t.archive, s.work[i].session, s.work[i].range.value) == []
    ensures Inv(SamplesCommitted(s, i, rows, now))
  {
    var u := s.work[i];
    var next := CommitFollowUp(t.archive, u.kind, u.manifest.value, u.range.value, s.manifests[u.manifest.value], now);
    if next.Some? {
      CommitFollowUpFits(s, t, i, now, next.value);
      EnqueueKeepsInv(t, next.value, {});
    }
    assert SamplesCommitted(s, i, rows, now) == t.(work := EnqueueSome(t.work, next));
  }
}
