/** storage/repository.py, the reconciliation ledger: its tables as values, and each
    `async_*` writer as one atomic step on them.

    A table with a primary key is a map or a set; `work` and `receipts` are sequences, where
    the position of a row is its (fresh) identity. Identities that the source derives by
    hashing are the tuples that were hashed. */
module Ledger {
  import opened Ranges
  import opened Chunks
  import opened Coverage
  import opened Wrappers
  import M = Models

  type SessionId = nat
  type AccountId = nat

  const MANIFEST_RECHECK_US: int := 6 * 60 * 60 * 1_000_000
  const FULL_AUDIT_INTERVAL_US: int := 7 * 24 * 60 * 60 * 1_000_000
  const MISSING_RETRY_US: int := 60 * 60 * 1_000_000
  const MAX_WORK_ATTEMPTS: nat := 8

  datatype ManifestId = ManifestId(session: SessionId, metadata: int)
  datatype VersionId = VersionId(session: SessionId, sequence: int, payload: int)
  datatype SampleKey = SampleKey(session: SessionId, sequence: int)
  datatype GapKey = GapKey(session: SessionId, manifest: ManifestId, range: Interval)

  datatype Session = Session(account: AccountId, indexId: Option<int>, indexConflict: bool, lastAudit: Option<int>)
  datatype Sample = Sample(selected: Option<VersionId>, conflict: bool)

  datatype Kind = ManifestWork | SampleWork | AuditWork
  datatype State = Ready | Running | Done | Failed
  datatype Work = Work(
    kind: Kind, session: SessionId, manifest: Option<ManifestId>, range: Option<Interval>,
    priority: int, state: State, attempts: nat, notBefore: int, createdAt: int)

  datatype Counts = Counts(committed: nat, conflicts: nat, missing: int)
  datatype Receipt = Receipt(work: nat, request: Interval, counts: Counts, at: int)

  /** Tables a sample commit reads and writes besides the ledger of work. */
  datatype Archive = Archive(
    samples: map<SampleKey, Sample>,
    versions: set<VersionId>,
    coverage: map<SessionId, seq<Interval>>,
    gaps: map<GapKey, bool>)

  datatype RunStatus = RunRunning | RunComplete | RunPartial
  datatype PageKey = PageKey(run: nat, page: int)

  datatype Ledger = Ledger(
    sessions: map<SessionId, Session>,
    manifests: map<ManifestId, seq<Interval>>,
    archive: Archive,
    work: seq<Work>,
    receipts: seq<Receipt>,
    runs: seq<RunStatus>,
    pages: map<PageKey, int>)

  const EMPTY: Ledger := Ledger(map[], map[], Archive(map[], {}, map[], map[]), [], [], [], map[])

  /** Where the repository's fault hook raises: before COMMIT, after it, or not at all. */
  datatype Fault = NoFault | BeforeCommit | AfterCommit

  // ---- Work units -------------------------------------------------------------------

  predicate Active(w: Work) {
    w.state == Ready || w.state == Running
  }

  /** The key of the unique index over active units. */
  predicate SameKey(a: Work, b: Work) {
    a.kind == b.kind && a.session == b.session && a.manifest == b.manifest && a.range == b.range
  }

  /** `_enqueue_work`: the unique index turns a duplicate active unit into a no-op. */
  function Enqueue(work: seq<Work>, w: Work): seq<Work> {
    if exists i | 0 <= i < |work| :: Active(work[i]) && SameKey(work[i], w) then work else work + [w]
  }

  function NewManifestWork(session: SessionId, priority: int, notBefore: int, now: int): Work {
    Work(ManifestWork, session, None, None, priority, Ready, 0, notBefore, now)
  }

  function NewRangeWork(kind: Kind, manifest: ManifestId, range: Interval, priority: int, notBefore: int,
                        now: int): Work {
    Work(kind, manifest.session, Some(manifest), Some(range), priority, Ready, 0, notBefore, now)
  }

  predicate DueRow(sessions: map<SessionId, Session>, w: Work, account: AccountId, now: int) {
    w.state == Ready && w.notBefore <= now && w.session in sessions && sessions[w.session].account == account
  }

  predicate Due(s: Ledger, account: AccountId, now: int, i: nat) {
    i < |s.work| && DueRow(s.sessions, s.work[i], account, now)
  }

  /** ORDER BY priority, not_before_us, created_at_us. */
  predicate NoLater(a: Work, b: Work) {
    || a.priority < b.priority
    || (a.priority == b.priority && a.notBefore < b.notBefore)
    || (a.priority == b.priority && a.notBefore == b.notBefore && a.createdAt <= b.createdAt)
  }

  /** A row the claim query may return first. */
  predicate NextDue(s: Ledger, account: AccountId, now: int, i: nat) {
    && Due(s, account, now, i)
    && forall j: nat | j < |s.work| && Due(s, account, now, j) :: NoLater(s.work[i], s.work[j])
  }

  function Claimed(s: Ledger, i: nat): Ledger
    requires i < |s.work|
  {
    s.(work := s.work[i := s.work[i].(state := Running, attempts := s.work[i].attempts + 1)])
  }

  function FailedOnce(w: Work, delay: int, now: int): Work {
    w.(state := if w.attempts >= MAX_WORK_ATTEMPTS then Failed else Ready, notBefore := now + Max(0, delay))
  }

  /** `async_fail_work`. */
  function FailWork(s: Ledger, i: nat, delay: int, now: int): Ledger {
    if i >= |s.work| || s.work[i].state == Done then s
    else s.(work := s.work[i := FailedOnce(s.work[i], delay, now)])
  }

  function Interrupted(w: Work, now: int): Work {
    if w.state == Running then w.(state := Ready, notBefore := now) else w
  }

  function RecoveredRun(r: RunStatus): RunStatus {
    if r == RunRunning then RunPartial else r
  }

  /** `async_recover_interrupted_work`. */
  function Recover(s: Ledger, now: int): Ledger {
    s.(work := seq(|s.work|, i requires 0 <= i < |s.work| => Interrupted(s.work[i], now)),
       runs := seq(|s.runs|, i requires 0 <= i < |s.runs| => RecoveredRun(s.runs[i])))
  }

  // ---- Discovery --------------------------------------------------------------------

  datatype IndexItem = IndexItem(session: SessionId, indexId: Option<int>)

  /** The upsert of one session: a differing index id is kept out and marks a conflict. */
  function UpsertSession(sessions: map<SessionId, Session>, item: IndexItem, account: AccountId)
    : map<SessionId, Session>
  {
    if item.session !in sessions then
      sessions[item.session := Session(account, item.indexId, false, None)]
    else
      var known := sessions[item.session];
      var clash := known.indexId.Some? && item.indexId.Some? && known.indexId != item.indexId;
      sessions[item.session := known.(indexConflict := known.indexConflict || clash)]
  }

  function DiscoverItems(s: Ledger, items: seq<IndexItem>, account: AccountId, now: int): Ledger
    decreases |items|
  {
    if items == [] then s
    else
      var before := DiscoverItems(s, items[..|items| - 1], account, now);
      var item := items[|items| - 1];
      before.(sessions := UpsertSession(before.sessions, item, account),
              work := Enqueue(before.work, NewManifestWork(item.session, 50, now, now)))
  }

  /** `async_record_discovery_page`: sessions counted as inserted are those not yet known. */
  function DiscoverPage(s: Ledger, run: nat, page: int, digest: int, items: seq<IndexItem>, account: AccountId,
                        now: int)
    : (Ledger, Result<nat>)
  {
    if run >= |s.runs| || s.runs[run] != RunRunning then (s, Err(RuntimeError))
    else if PageKey(run, page) in s.pages then
      if s.pages[PageKey(run, page)] != digest then (s, Err(RuntimeError)) else (s, Ok(0))
    else
      var t := DiscoverItems(s.(pages := s.pages[PageKey(run, page) := digest]), items, account, now);
      (t, Ok(|t.sessions.Keys - s.sessions.Keys|))
  }

  // ---- Manifests --------------------------------------------------------------------

  function CoverageOf(a: Archive, session: SessionId): seq<Interval> {
    if session in a.coverage then a.coverage[session] else []
  }

  /** Manifest numbers the session's coverage rows do not contain. */
  ghost function Wanted(a: Archive, session: SessionId, ranges: seq<Interval>): set<int> {
    Elems(ranges) - Elems(CoverageOf(a, session))
  }

  predicate AuditDue(lastAudit: Option<int>, now: int) {
    lastAudit.None? || lastAudit.value + FULL_AUDIT_INTERVAL_US <= now
  }

  /** The unit a fresh manifest check schedules, if any: the first missing chunk, or the
      first audit chunk of a covered manifest whose audit is due. */
  ghost function ManifestFollowUp(a: Archive, mid: ManifestId, ranges: seq<Interval>, lastAudit: Option<int>, now: int)
    : Option<Work>
  {
    var missing := FirstChunk(Wanted(a, mid.session, ranges), CHUNK_SIZE);
    if missing.Some? then Some(NewRangeWork(SampleWork, mid, missing.value, 60, now, now))
    else if AuditDue(lastAudit, now) then
      var audit := FirstChunk(After(Elems(ranges), None), CHUNK_SIZE);
      if audit.Some? then Some(NewRangeWork(AuditWork, mid, audit.value, 200, now, now)) else None
    else None
  }

  function EnqueueSome(work: seq<Work>, w: Option<Work>): seq<Work> {
    if w.Some? then Enqueue(work, w.value) else work
  }

  /** The tables after a running manifest unit is completed. */
  ghost function ManifestCompleted(s: Ledger, i: nat, metadata: int, ranges: seq<Interval>, now: int): Ledger
    requires i < |s.work| && s.work[i].session in s.sessions
  {
    var w := s.work[i];
    var mid := ManifestId(w.session, metadata);
    var manifests := if mid in s.manifests then s.manifests else s.manifests[mid := Canon(Elems(ranges))];
    var finished := s.work[i := w.(state := Done)];
    var followUp := ManifestFollowUp(s.archive, mid, manifests[mid], s.sessions[w.session].lastAudit, now);
    s.(manifests := manifests,
       work := Enqueue(EnqueueSome(finished, followUp),
                       NewManifestWork(w.session, 150, now + MANIFEST_RECHECK_US, now)))
  }

  datatype ManifestRecord = ManifestRecord(manifest: ManifestId, changed: bool, ranges: seq<Interval>)

  /** `async_complete_manifest`, with the point at which the fault hook raises. */
  ghost function CompleteManifest(s: Ledger, i: nat, session: SessionId, metadata: int, ranges: seq<Interval>,
                                  fault: Fault, now: int): (Ledger, Result<ManifestRecord>)
    requires i < |s.work| ==> s.work[i].session == session && session in s.sessions
  {
    var mid := ManifestId(session, metadata);
    if i >= |s.work| then (s, Err(RuntimeError))
    else if s.work[i].state == Done then
      (s, if mid in s.manifests then Ok(ManifestRecord(mid, false, M.Normalized(ranges))) else Err(RuntimeError))
    else if s.work[i].state != Running then (s, Err(RuntimeError))
    else if mid !in s.manifests && !M.ValidRows(M.Normalized(ranges)) then (s, Err(StorageError))
    else if fault == BeforeCommit then (s, Err(InjectedFault))
    else (ManifestCompleted(s, i, metadata, ranges, now),
          if fault == AfterCommit then Err(InjectedFault)
          else Ok(ManifestRecord(mid, mid !in s.manifests, M.Normalized(ranges))))
  }

  // ---- Sample commits ---------------------------------------------------------------

  predicate ValidRows(rows: seq<M.SampleRow>, range: Interval) {
    M.RowsInside(rows, range.lo, range.hi) && M.DistinctSequences(rows)
  }

  function RowVersion(session: SessionId, row: M.SampleRow): VersionId {
    VersionId(session, row.sequence, row.hash)
  }

  ghost function RowVersions(session: SessionId, rows: seq<M.SampleRow>): set<VersionId> {
    set r | r in rows :: RowVersion(session, r)
  }

  ghost function RowKeys(session: SessionId, rows: seq<M.SampleRow>): set<SampleKey> {
    set r | r in rows :: SampleKey(session, r.sequence)
  }

  ghost function VersionsOf(versions: set<VersionId>, key: SampleKey): set<VersionId> {
    set v | v in versions && v.session == key.session && v.sequence == key.sequence
  }

  /** What a sample row must say, given the stored versions of its sequence. */
  ghost function StatusOf(versions: set<VersionId>, key: SampleKey): Sample {
    var vs := VersionsOf(versions, key);
    if exists v :: vs == {v} then var v :| vs == {v}; Sample(Some(v), false) else Sample(None, true)
  }

  ghost function Stored(a: Archive, session: SessionId): set<int> {
    set k | k in a.samples && k.session == session :: k.sequence
  }

  /** Versions and sample rows after a response is stored. */
  ghost function RowsStored(a: Archive, session: SessionId, rows: seq<M.SampleRow>): Archive {
    var versions := a.versions + RowVersions(session, rows);
    var keys := RowKeys(session, rows);
    a.(versions := versions,
       samples := map k | k in a.samples.Keys + keys :: if k in keys then StatusOf(versions, k) else a.samples[k])
  }

  /** Coverage after the rows present in the requested range are merged in. */
  ghost function RangeMerged(a: Archive, session: SessionId, range: Interval): Archive {
    var present := Stored(a, session) * Span(range.lo, range.hi);
    if present == {} then a
    else a.(coverage := a.coverage[session := Canon(Elems(CoverageOf(a, session)) + present)])
  }

  ghost function MissingIn(a: Archive, session: SessionId, range: Interval): seq<Interval> {
    Canon(Span(range.lo, range.hi) - Elems(CoverageOf(a, session)))
  }

  predicate Meets(a: Interval, b: Interval) {
    a.hi >= b.lo && a.lo <= b.hi
  }

  ghost function GapKeys(mid: ManifestId, missing: seq<Interval>): set<GapKey> {
    set r | r in missing :: GapKey(mid.session, mid, r)
  }

  /** Gap rows of this session and manifest that meet the request are resolved; then every
      missing run is (re)opened. */
  ghost function GapsRefreshed(gaps: map<GapKey, bool>, mid: ManifestId, range: Interval, missing: seq<Interval>)
    : map<GapKey, bool>
  {
    var open := GapKeys(mid, missing);
    map k | k in gaps.Keys + open ::
      if k in open then true
      else gaps[k] && !(k.session == mid.session && k.manifest == mid && Meets(k.range, range))
  }

  /** Everything a commit does to the archive tables. */
  ghost function Absorbed(a: Archive, mid: ManifestId, range: Interval, rows: seq<M.SampleRow>): Archive {
    var merged := RangeMerged(RowsStored(a, mid.session, rows), mid.session, range);
    merged.(gaps := GapsRefreshed(a.gaps, mid, range, MissingIn(merged, mid.session, range)))
  }

  ghost function ConflictRows(versions: set<VersionId>, session: SessionId, rows: seq<M.SampleRow>): set<SampleKey> {
    set r | r in rows && StatusOf(versions, SampleKey(session, r.sequence)).conflict :: SampleKey(session, r.sequence)
  }

  ghost function CommitCounts(a: Archive, mid: ManifestId, range: Interval, rows: seq<M.SampleRow>): Counts {
    var after := Absorbed(a, mid, range, rows);
    Counts(|RowVersions(mid.session, rows) - a.versions|,
           |ConflictRows(after.versions, mid.session, rows)|,
           TotalLength(MissingIn(after, mid.session, range)))
  }

  /** The unit scheduled after a commit: retry the first missing run, else continue the
      sample chain or the audit chain. */
  ghost function CommitFollowUp(after: Archive, kind: Kind, mid: ManifestId, range: Interval, ranges: seq<Interval>,
                                now: int)
    : Option<Work>
  {
    var missing := MissingIn(after, mid.session, range);
    if missing != [] then
      var retry := Interval(missing[0].lo, Min(missing[0].hi, missing[0].lo + CHUNK_SIZE - 1));
      Some(NewRangeWork(kind, mid, retry, if kind == SampleWork then 80 else 210, now + MISSING_RETRY_US, now))
    else
      var next := if kind == SampleWork then FirstChunk(Wanted(after, mid.session, ranges), CHUNK_SIZE)
                  else FirstChunk(After(Elems(ranges), Some(range.hi)), CHUNK_SIZE);
      var priority := if kind == SampleWork then 60 else 210;
      if next.Some? then Some(NewRangeWork(kind, mid, next.value, priority, now, now)) else None
  }

  /** A commit stamps the session when it ends an audit chain with nothing missing. */
  ghost predicate EndsAudit(after: Archive, kind: Kind, mid: ManifestId, range: Interval, ranges: seq<Interval>) {
    && kind == AuditWork
    && MissingIn(after, mid.session, range) == []
    && FirstChunk(After(Elems(ranges), Some(range.hi)), CHUNK_SIZE) == None
  }

  /** A unit a sample commit can be called with: bounded, of one manifest. */
  predicate RangeUnit(s: Ledger, i: nat) {
    && i < |s.work|
    && s.work[i].kind != ManifestWork && s.work[i].manifest.Some? && s.work[i].range.Some?
    && s.work[i].manifest.value in s.manifests && s.work[i].manifest.value.session == s.work[i].session
    && s.work[i].session in s.sessions
  }

  /** The tables after a running sample or audit unit is committed. */
  ghost function SamplesCommitted(s: Ledger, i: nat, rows: seq<M.SampleRow>, now: int): Ledger
    requires RangeUnit(s, i)
  {
    var w := s.work[i];
    var mid, range := w.manifest.value, w.range.value;
    var after := Absorbed(s.archive, mid, range, rows);
    var finished := s.work[i := w.(state := Done)];
    var session := s.sessions[w.session];
    s.(archive := after,
       work := EnqueueSome(finished, CommitFollowUp(after, w.kind, mid, range, s.manifests[mid], now)),
       receipts := s.receipts + [Receipt(i, range, CommitCounts(s.archive, mid, range, rows), now)],
       sessions := if EndsAudit(after, w.kind, mid, range, s.manifests[mid])
                   then s.sessions[w.session := session.(lastAudit := Some(now))] else s.sessions)
  }

  /** The receipt the retry path returns: the latest of the unit's receipts. */
  ghost predicate IsLatestReceipt(receipts: seq<Receipt>, i: nat, r: Receipt) {
    r in receipts && r.work == i && forall q | q in receipts && q.work == i :: q.at <= r.at
  }

  /** `async_commit_sample_work` on a unit whose claim carries a bounded range. */
  ghost function CommitSamples(s: Ledger, i: nat, rows: seq<M.SampleRow>, fault: Fault, now: int)
    : (Ledger, Result<Counts>)
    requires RangeUnit(s, i)
  {
    var w := s.work[i];
    if w.range.value.hi - w.range.value.lo >= CHUNK_SIZE then (s, Err(ValueError))
    else if w.state == Done then
      (s, if exists r :: IsLatestReceipt(s.receipts, i, r)
          then var r :| IsLatestReceipt(s.receipts, i, r); Ok(r.counts) else Err(RuntimeError))
    else if w.state != Running then (s, Err(RuntimeError))
    else if !ValidRows(rows, w.range.value) then (s, Err(ValueError))
    else if fault == BeforeCommit then (s, Err(InjectedFault))
    else (SamplesCommitted(s, i, rows, now),
          if fault == AfterCommit then Err(InjectedFault)
          else Ok(CommitCounts(s.archive, w.manifest.value, w.range.value, rows)))
  }
}
