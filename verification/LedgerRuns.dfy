/** Whole runs of the ledger: any sequence of writer steps, in any order, from the empty archive. */
module LedgerRuns {
  import opened Ranges
  import opened Chunks
  import opened Coverage
  import opened Ledger
  import opened ArchiveInvariant
  import opened LedgerInvariant
  import opened Wrappers
  import M = Models

  /** One transaction of one writer, with its clock reading, its input and its fault point. The
      workers hand a claimed unit to the writer of its kind, so a manifest completion is only
      ever called with a manifest unit. */
  datatype Step =
    | BeginDiscovery
    | FinishDiscovery(run: nat, complete: bool)
    | Discover(run: nat, page: int, digest: int, items: seq<IndexItem>, account: AccountId, now: int)
    | Claim(account: AccountId, choice: nat, now: int)
    | Fail(unit: nat, delay: int, now: int)
    | Interrupt(now: int)
    | Complete(unit: nat, metadata: int, ranges: seq<Interval>, fault: Fault, now: int)
    | Commit(unit: nat, rows: seq<M.SampleRow>, fault: Fault, now: int)

  /** The tables after a step; a step whose call raises or finds nothing to do changes nothing. */
  ghost function Apply(s: Ledger, step: Step): Ledger {
    match step
    case BeginDiscovery => s.(runs := s.runs + [RunRunning])
    case FinishDiscovery(run, complete) =>
      if run < |s.runs| && s.runs[run] == RunRunning
      then s.(runs := s.runs[run := if complete then RunComplete else RunPartial]) else s
    case Discover(run, page, digest, items, account, now) =>
      DiscoverPage(s, run, page, digest, items, account, now).0
    case Claim(account, choice, now) =>
      if NextDue(s, account, now, choice) then Claimed(s, choice) else s
    case Fail(unit, delay, now) => FailWork(s, unit, delay, now)
    case Interrupt(now) => Recover(s, now)
    case Complete(unit, metadata, ranges, fault, now) =>
      if unit < |s.work| && s.work[unit].kind == ManifestWork && s.work[unit].session in s.sessions
      then CompleteManifest(s, unit, s.work[unit].session, metadata, ranges, fault, now).0 else s
    case Commit(unit, rows, fault, now) =>
      if RangeUnit(s, unit) then CommitSamples(s, unit, rows, fault, now).0 else s
  }

  ghost function Run(s: Ledger, steps: seq<Step>): Ledger
    decreases |steps|
  {
    if steps == [] then s else Apply(Run(s, steps[..|steps| - 1]), steps[|steps| - 1])
  }

  /** Changing only discovery runs or pages affects nothing the invariant speaks of. */
  lemma BookkeepingKeepsInv(s: Ledger, t: Ledger)
    requires Inv(s) && t == s.(runs := t.runs, pages := t.pages)
    ensures Inv(t)
  {
    assert OnlyRescheduled(s, t.(pages := s.pages)) by {
      forall i | 0 <= i < |s.work| ensures Rescheduled(s.work[i], s.work[i]) { assert RowOk(s, s.work[i]); }
    }
    RescheduleKeepsInv(s, t.(pages := s.pages));
    assert RowsOk(t) by {
      forall i | 0 <= i < |t.work|
        ensures RowOk(t, t.work[i])
      {
        assert RowOk(s, s.work[i]);
        RowStays(s, t, s.work[i]);
      }
    }
    StampsStay(s, t);
  }

  lemma NothingReschedules(s: Ledger)
    requires RowsOk(s)
    ensures OnlyRescheduled(s, s)
  {
    forall k | 0 <= k < |s.work| ensures Rescheduled(s.work[k], s.work[k]) { assert RowOk(s, s.work[k]); }
  }

  /** Claims, failures and interruptions only reschedule. */
  lemma OthersReschedule(s: Ledger, step: Step)
    requires Inv(s) && (step.Claim? || step.Fail? || step.Interrupt?)
    ensures OnlyRescheduled(s, Apply(s, step))
  {
    NothingReschedules(s);
    match step
    case Claim(account, choice, now) =>
      if NextDue(s, account, now, choice) { ClaimReschedules(s, choice); }
    case Fail(unit, delay, now) => FailReschedules(s, unit, delay, now);
    case Interrupt(now) => RecoverReschedules(s, now);
  }

  /** A manifest completion that changes the tables is one of a running unit. */
  lemma CompleteDone(s: Ledger, step: Step)
    requires step.Complete? && Apply(s, step) != s
    ensures step.unit < |s.work| && s.work[step.unit].kind == ManifestWork && s.work[step.unit].session in s.sessions
    ensures s.work[step.unit].state == Running
    ensures Apply(s, step) == ManifestCompleted(s, step.unit, step.metadata, step.ranges, step.now)
  {
  }

  /** A commit that changes the tables is one of a running unit with valid rows. */
  lemma CommitChanges(t: Ledger, i: nat, rows: seq<M.SampleRow>, fault: Fault, now: int, u: Ledger)
    requires RangeUnit(t, i) && u == CommitSamples(t, i, rows, fault, now).0 && u != t
    ensures t.work[i].state == Running && ValidRows(rows, t.work[i].range.value)
    ensures u == SamplesCommitted(t, i, rows, now)
  {
  }

  lemma CommitDone(t: Ledger, step: Step)
    requires step.Commit? && RangeUnit(t, step.unit) && Apply(t, step) != t
    ensures t.work[step.unit].state == Running && ValidRows(step.rows, t.work[step.unit].range.value)
    ensures Apply(t, step) == SamplesCommitted(t, step.unit, step.rows, step.now)
  {
    CommitChanges(t, step.unit, step.rows, step.fault, step.now, Apply(t, step));
  }

  lemma BookStepKeepsInv(s: Ledger, step: Step)
    requires Inv(s) && (step.BeginDiscovery? || step.FinishDiscovery? || step.Discover?)
    ensures Inv(Apply(s, step))
  {
    if !step.Discover? {
      BookkeepingKeepsInv(s, Apply(s, step));
    } else if step.run < |s.runs| && s.runs[step.run] == RunRunning && PageKey(step.run, step.page) !in s.pages {
      var t := s.(pages := s.pages[PageKey(step.run, step.page) := step.digest]);
      BookkeepingKeepsInv(s, t);
      DiscoverKeepsInv(t, step.items, step.account, step.now);
    }
  }

  /** Every step keeps the invariant. */
  lemma ApplyKeepsInv(s: Ledger, step: Step)
    requires Inv(s)
    ensures Inv(Apply(s, step))
  {
    if step.Claim? || step.Fail? || step.Interrupt? {
      OthersReschedule(s, step);
      RescheduleKeepsInv(s, Apply(s, step));
    } else if step.Complete? {
      CompleteKeepsInv(s, step, Apply(s, step));
    } else if step.Commit? {
      CommitStepKeepsInv(s, step, Apply(s, step));
    } else {
      BookStepKeepsInv(s, step);
    }
  }

  lemma CompleteKeepsInv(s: Ledger, step: Step, t: Ledger)
    requires Inv(s) && step.Complete? && t == Apply(s, step)
    ensures Inv(t)
  {
    if t != s {
      CompleteDone(s, step);
      CompletionKeepsInv(s, step.unit, step.metadata, step.ranges, step.now);
    }
  }

  lemma CommitStepKeepsInv(s: Ledger, step: Step, t: Ledger)
    requires Inv(s) && step.Commit? && t == Apply(s, step)
    ensures Inv(t)
  {
    if t != s {
      CommitDone(s, step);
      CommitKeepsInv(s, step.unit, step.rows, step.now);
    }
  }

  /** Every reachable state of the archive satisfies the invariant. */
  lemma {:induction false} ReachableInv(steps: seq<Step>)
    ensures Inv(Run(EMPTY, steps))
    decreases |steps|
  {
    if steps == [] {
      EmptyInv();
    } else {
      ReachableInv(steps[..|steps| - 1]);
      ApplyKeepsInv(Run(EMPTY, steps[..|steps| - 1]), steps[|steps| - 1]);
    }
  }

  // ---- What the invariant says, claim by claim -----------------------------------------

  /** In every reachable state a session's coverage rows are sorted, disjoint and non-adjacent
      and denote exactly the sequences stored as samples. */
  lemma ReachableCoverage(steps: seq<Step>, session: SessionId)
    ensures var a := Run(EMPTY, steps).archive;
            CoverageOf(a, session) == Canon(Stored(a, session))
  {
    ReachableInv(steps);
    var a := Run(EMPTY, steps).archive;
    assert CoverageExact(a, session);
    CanonOf(CoverageOf(a, session), Stored(a, session));
  }

  /** In every reachable state a stamped session has a manifest every number of which lies in
      a finished audit request. */
  lemma ReachableStamps(steps: seq<Step>, session: SessionId)
    requires session in Run(EMPTY, steps).sessions && Run(EMPTY, steps).sessions[session].lastAudit.Some?
    ensures exists mid: ManifestId :: mid.session == session && FullyAudited(Run(EMPTY, steps), mid)
  {
    ReachableInv(steps);
    assert StampOk(Run(EMPTY, steps), session);
  }

  /** In every reachable state a sample row is `single` with its version selected when it has
      exactly one version, and `conflict` with none selected when it has two or more. */
  lemma ReachableSamples(steps: seq<Step>, key: SampleKey)
    requires key in Run(EMPTY, steps).archive.samples
    ensures var a := Run(EMPTY, steps).archive;
            var vs := VersionsOf(a.versions, key);
            && |vs| >= 1
            && (!a.samples[key].conflict <==> |vs| == 1)
            && (!a.samples[key].conflict ==> a.samples[key].selected.Some? && vs == {a.samples[key].selected.value})
            && (a.samples[key].conflict ==> a.samples[key].selected == None)
  {
    ReachableInv(steps);
    StatusMeaning(Run(EMPTY, steps).archive.versions, key);
  }

  /** Receipt conservation in every reachable state. */
  lemma ReachableReceipts(steps: seq<Step>, i: nat)
    requires i < |Run(EMPTY, steps).work|
    ensures var s := Run(EMPTY, steps);
            && (s.work[i].kind != ManifestWork ==>
                  (s.work[i].state == Done <==> ReceiptsFor(s.receipts, i) == 1) && ReceiptsFor(s.receipts, i) <= 1)
            && TotalCommitted(s.receipts) == |s.archive.versions|
  {
    ReachableInv(steps);
    assert ReceiptOk(Run(EMPTY, steps).receipts, Run(EMPTY, steps).work, i);
  }

  predicate ActiveManifest(s: Ledger, i: nat, session: SessionId) {
    i < |s.work| && ManifestUnit(s.work[i], session) && Active(s.work[i])
  }

  /** Every discovered session has exactly one active manifest unit, or a failed one; and a
      failed unit has used up its attempts. */
  lemma ReachableSchedule(steps: seq<Step>, session: SessionId)
    requires session in Run(EMPTY, steps).sessions
    ensures var s := Run(EMPTY, steps);
            && (|| (exists i: nat :: ActiveManifest(s, i, session))
                || (exists i: nat :: i < |s.work| && ManifestUnit(s.work[i], session) && s.work[i].state == Failed))
            && (forall i: nat, j: nat | ActiveManifest(s, i, session) && ActiveManifest(s, j, session) :: i == j)
  {
    ReachableInv(steps);
    var s := Run(EMPTY, steps);
    assert Scheduled(s.work, session);
    var i: nat :| i < |s.work| && ManifestUnit(s.work[i], session) && (Active(s.work[i]) || s.work[i].state == Failed);
    assert Active(s.work[i]) ==> ActiveManifest(s, i, session);
    forall i: nat, j: nat | ActiveManifest(s, i, session) && ActiveManifest(s, j, session)
      ensures i == j
    {
      assert SameKey(s.work[i], s.work[j]) && SameKey(s.work[j], s.work[i]);
    }
  }

  /** In every reachable state: one active unit per key, a failed unit has at least the maximum
      number of attempts, and every range unit is bounded and inside its manifest. */
  lemma ReachableUnits(steps: seq<Step>, i: nat, j: nat)
    requires i < |Run(EMPTY, steps).work| && j < |Run(EMPTY, steps).work|
    ensures var s := Run(EMPTY, steps);
            && (Active(s.work[i]) && Active(s.work[j]) && SameKey(s.work[i], s.work[j]) ==> i == j)
            && (s.work[i].state == Failed ==> s.work[i].attempts >= MAX_WORK_ATTEMPTS)
            && (s.work[i].kind != ManifestWork ==> RangeRowOk(s.manifests, s.archive, s.work[i]))
  {
    ReachableInv(steps);
    var s := Run(EMPTY, steps);
    assert RowOk(s, s.work[i]);
    assert SameKey(s.work[i], s.work[j]) ==> SameKey(s.work[j], s.work[i]);
  }

  // ---- What no run undoes ---------------------------------------------------------------

  predicate SamplesAdvance(a: Archive, b: Archive) {
    && a.versions <= b.versions
    && forall k | k in a.samples :: k in b.samples && (a.samples[k].conflict ==> b.samples[k].conflict)
  }

  predicate SessionsAdvance(s: map<SessionId, Session>, t: map<SessionId, Session>) {
    forall k | k in s :: k in t && t[k].account == s[k].account && t[k].indexId == s[k].indexId
                         && (s[k].indexConflict ==> t[k].indexConflict)
                         && (s[k].lastAudit.Some? ==> t[k].lastAudit.Some?)
  }

  predicate ReceiptsAdvance(r: seq<Receipt>, q: seq<Receipt>) {
    |r| <= |q| && forall i | 0 <= i < |r| :: q[i] == r[i]
  }

  /** Units keep their key, done and failed are final, attempts never fall; versions, samples,
      conflicts, coverage, manifests, receipts and audit stamps are only added to. */
  ghost predicate Advances(s: Ledger, t: Ledger) {
    && WorkAdvances(s.work, t.work) && SamplesAdvance(s.archive, t.archive)
    && CoverageAdvances(s.archive, t.archive) && SameManifests(s.manifests, t.manifests)
    && SessionsAdvance(s.sessions, t.sessions) && ReceiptsAdvance(s.receipts, t.receipts)
  }

  lemma AdvancesTransitive(s: Ledger, t: Ledger, u: Ledger)
    requires Advances(s, t) && Advances(t, u)
    ensures Advances(s, u)
  {
    forall i | 0 <= i < |s.work|
      ensures UnitAdvances(s.work[i], u.work[i])
    {
      assert UnitAdvances(s.work[i], t.work[i]) && UnitAdvances(t.work[i], u.work[i]);
    }
  }

  lemma EnqueueAdvances(work: seq<Work>, w: Work)
    ensures WorkAdvances(work, Enqueue(work, w))
  {
  }

  lemma WorkAdvancesTransitive(a: seq<Work>, b: seq<Work>, c: seq<Work>)
    requires WorkAdvances(a, b) && WorkAdvances(b, c)
    ensures WorkAdvances(a, c)
  {
    forall i | 0 <= i < |a|
      ensures UnitAdvances(a[i], c[i])
    {
      assert UnitAdvances(a[i], b[i]) && UnitAdvances(b[i], c[i]);
    }
  }

  lemma {:induction false} DiscoverAdvances(s: Ledger, items: seq<IndexItem>, account: AccountId, now: int)
    ensures Advances(s, DiscoverItems(s, items, account, now))
    decreases |items|
  {
    if items != [] {
      var before := DiscoverItems(s, items[..|items| - 1], account, now);
      DiscoverAdvances(s, items[..|items| - 1], account, now);
      AdvancesTransitive(s, before, DiscoverItems(s, items, account, now));
    }
  }

  lemma CompletionAdvances(s: Ledger, i: nat, metadata: int, ranges: seq<Interval>, now: int)
    requires i < |s.work| && s.work[i].state == Running && s.work[i].session in s.sessions
    ensures Advances(s, ManifestCompleted(s, i, metadata, ranges, now))
  {
    var t := ManifestCompleted(s, i, metadata, ranges, now);
    var w := s.work[i];
    var mid := ManifestId(w.session, metadata);
    var finished := s.work[i := w.(state := Done)];
    var followUp := ManifestFollowUp(s.archive, mid, t.manifests[mid], s.sessions[w.session].lastAudit, now);
    assert WorkAdvances(s.work, finished);
    if followUp.Some? { EnqueueAdvances(finished, followUp.value); }
    WorkAdvancesTransitive(s.work, finished, EnqueueSome(finished, followUp));
    EnqueueAdvances(EnqueueSome(finished, followUp), NewManifestWork(w.session, 150, now + MANIFEST_RECHECK_US, now));
    WorkAdvancesTransitive(s.work, EnqueueSome(finished, followUp), t.work);
  }

  lemma FinishedAdvances(work: seq<Work>, i: nat, next: Option<Work>)
    requires i < |work| && work[i].state == Running
    ensures WorkAdvances(work, EnqueueSome(work[i := work[i].(state := Done)], next))
  {
    var finished := work[i := work[i].(state := Done)];
    assert WorkAdvances(work, finished);
    if next.Some? {
      EnqueueAdvances(finished, next.value);
      WorkAdvancesTransitive(work, finished, Enqueue(finished, next.value));
    }
  }

  lemma CommitAdvancesWork(s: Ledger, i: nat, rows: seq<M.SampleRow>, now: int)
    requires RangeUnit(s, i) && s.work[i].state == Running
    ensures WorkAdvances(s.work, SamplesCommitted(s, i, rows, now).work)
  {
    var t, w := SamplesCommitted(s, i, rows, now), s.work[i];
    FinishedAdvances(s.work, i, CommitFollowUp(t.archive, w.kind, w.manifest.value, w.range.value,
                                               s.manifests[w.manifest.value], now));
  }

  lemma CommitAdvancesArchive(s: Ledger, i: nat, rows: seq<M.SampleRow>, now: int)
    requires Inv(s) && RangeUnit(s, i) && s.work[i].state == Running
    requires ValidRows(rows, s.work[i].range.value)
    ensures SamplesAdvance(s.archive, SamplesCommitted(s, i, rows, now).archive)
    ensures CoverageAdvances(s.archive, SamplesCommitted(s, i, rows, now).archive)
  {
    VersionsGrow(s.archive, s.work[i].manifest.value, s.work[i].range.value, rows);
    DoneRangeRows(s, i, rows, now);
  }

  lemma CommitAdvances(s: Ledger, i: nat, rows: seq<M.SampleRow>, now: int)
    requires Inv(s) && RangeUnit(s, i) && s.work[i].state == Running
    requires ValidRows(rows, s.work[i].range.value)
    ensures Advances(s, SamplesCommitted(s, i, rows, now))
  {
    CommitAdvancesWork(s, i, rows, now);
    CommitAdvancesArchive(s, i, rows, now);
    CommitAdvancesRest(s, i, rows, now);
  }

  lemma CommitAdvancesRest(s: Ledger, i: nat, rows: seq<M.SampleRow>, now: int)
    requires RangeUnit(s, i)
    ensures var t := SamplesCommitted(s, i, rows, now);
            && SameManifests(s.manifests, t.manifests) && SessionsAdvance(s.sessions, t.sessions)
            && ReceiptsAdvance(s.receipts, t.receipts)
  {
  }

  lemma OthersAdvance(s: Ledger, t: Ledger)
    requires t == s.(work := t.work, runs := t.runs, pages := t.pages)
    requires WorkAdvances(s.work, t.work)
    ensures Advances(s, t)
  {
  }

  lemma RescheduleAdvances(s: Ledger, t: Ledger)
    requires OnlyRescheduled(s, t)
    ensures Advances(s, t)
  {
    forall i | 0 <= i < |s.work|
      ensures UnitAdvances(s.work[i], t.work[i])
    {
      assert Rescheduled(s.work[i], t.work[i]);
    }
    OthersAdvance(s, t);
  }

  lemma PageAdvances(s: Ledger, run: nat, page: int, digest: int, items: seq<IndexItem>, account: AccountId, now: int)
    ensures Advances(s, DiscoverPage(s, run, page, digest, items, account, now).0)
  {
    OthersAdvance(s, s);
    if run < |s.runs| && s.runs[run] == RunRunning && PageKey(run, page) !in s.pages {
      var t := s.(pages := s.pages[PageKey(run, page) := digest]);
      DiscoverAdvances(t, items, account, now);
      OthersAdvance(s, t);
      AdvancesTransitive(s, t, DiscoverItems(t, items, account, now));
    }
  }

  lemma ApplyAdvances(s: Ledger, step: Step)
    requires Inv(s)
    ensures Advances(s, Apply(s, step))
  {
    if step.Claim? || step.Fail? || step.Interrupt? {
      OthersReschedule(s, step);
      RescheduleAdvances(s, Apply(s, step));
    } else if step.Complete? {
      CompleteAdvances(s, step, Apply(s, step));
    } else if step.Commit? {
      CommitStepAdvances(s, step, Apply(s, step));
    } else if step.Discover? {
      PageAdvances(s, step.run, step.page, step.digest, step.items, step.account, step.now);
    } else {
      OthersAdvance(s, Apply(s, step));
    }
  }

  lemma CompleteAdvances(s: Ledger, step: Step, t: Ledger)
    requires step.Complete? && t == Apply(s, step)
    ensures Advances(s, t)
  {
    if t == s {
      OthersAdvance(s, s);
    } else {
      CompleteDone(s, step);
      CompletionAdvances(s, step.unit, step.metadata, step.ranges, step.now);
    }
  }

  lemma CommitStepAdvances(s: Ledger, step: Step, t: Ledger)
    requires Inv(s) && step.Commit? && t == Apply(s, step)
    ensures Advances(s, t)
  {
    if t == s {
      OthersAdvance(s, s);
    } else {
      CommitDone(s, step);
      CommitAdvances(s, step.unit, step.rows, step.now);
    }
  }

  /** Over any run from any state satisfying the invariant nothing is undone. */
  lemma {:induction false} RunAdvances(s: Ledger, steps: seq<Step>)
    requires Inv(s)
    ensures Inv(Run(s, steps)) && Advances(s, Run(s, steps))
    decreases |steps|
  {
    if steps == [] {
      forall i | 0 <= i < |s.work| ensures UnitAdvances(s.work[i], s.work[i]) {}
    } else {
      var before := Run(s, steps[..|steps| - 1]);
      RunAdvances(s, steps[..|steps| - 1]);
      ApplyKeepsInv(before, steps[|steps| - 1]);
      ApplyAdvances(before, steps[|steps| - 1]);
      AdvancesTransitive(s, before, Run(s, steps));
    }
  }

  function Stamp(s: Ledger, session: SessionId): Option<int> {
    if session in s.sessions then s.sessions[session].lastAudit else None
  }

  /** Only a commit can write an audit stamp. */
  lemma OnlyCommitsStamp(s: Ledger, step: Step, session: SessionId)
    requires session in s.sessions && !step.Commit?
    ensures Stamp(Apply(s, step), session) == Stamp(s, session)
  {
    match step
    case BeginDiscovery =>
    case FinishDiscovery(run, complete) =>
    case Discover(run, page, digest, items, account, now) =>
      DiscoverKeepsStamps(s.(pages := s.pages[PageKey(run, page) := digest]), items, account, now, session);
    case Claim(account, choice, now) =>
    case Fail(unit, delay, now) =>
    case Interrupt(now) =>
    case Complete(unit, metadata, ranges, fault, now) =>
  }

  /** A step writes a session's audit stamp only by finishing an audit unit of a manifest of
      that session all of whose numbers then lie in finished audit requests. */
  lemma StampWritten(s: Ledger, step: Step, session: SessionId)
    requires Inv(s) && session in s.sessions
    requires Stamp(Apply(s, step), session) != Stamp(s, session)
    ensures step.Commit? && RangeUnit(s, step.unit) && s.work[step.unit].kind == AuditWork
    ensures s.work[step.unit].session == session
    ensures FullyAudited(Apply(s, step), s.work[step.unit].manifest.value)
  {
    if !step.Commit? {
      OnlyCommitsStamp(s, step, session);
    } else {
      CommitStamps(s, step.unit, step.rows, step.now, Apply(s, step), session);
    }
  }

  lemma CommitStamps(s: Ledger, unit: nat, rows: seq<M.SampleRow>, now: int, t: Ledger, session: SessionId)
    requires Inv(s) && session in s.sessions
    requires RangeUnit(s, unit) && s.work[unit].state == Running && ValidRows(rows, s.work[unit].range.value)
    requires t == SamplesCommitted(s, unit, rows, now)
    requires Stamp(t, session) != Stamp(s, session)
    ensures s.work[unit].kind == AuditWork && s.work[unit].session == session
    ensures FullyAudited(t, s.work[unit].manifest.value)
  {
    var mid := s.work[unit].manifest.value;
    var done := RangeUnitDone(s, unit, rows, now);
    assert done.sessions == t.sessions;
    StampMeansFullyAudited(s, unit, rows, now);
    FinalAuditStays(done, t, mid);
  }

  lemma FinalAuditStays(s: Ledger, t: Ledger, mid: ManifestId)
    requires FullyAudited(s, mid) && t.manifests == s.manifests
    requires |s.work| <= |t.work| && forall i | 0 <= i < |s.work| :: t.work[i] == s.work[i]
    ensures FullyAudited(t, mid)
  {
    forall x | x in Elems(t.manifests[mid])
      ensures Audited(t.work, mid, x)
    {
      assert Audited(s.work, mid, x);
      var j :| 0 <= j < |s.work| && FinishedAudit(s.work[j], mid, x);
      assert FinishedAudit(t.work[j], mid, x);
    }
  }

  lemma {:induction false} DiscoverKeepsStamps(s: Ledger, items: seq<IndexItem>, account: AccountId, now: int,
                                               session: SessionId)
    requires session in s.sessions
    ensures session in DiscoverItems(s, items, account, now).sessions
    ensures DiscoverItems(s, items, account, now).sessions[session].lastAudit == s.sessions[session].lastAudit
    decreases |items|
  {
    if items != [] {
      DiscoverKeepsStamps(s, items[..|items| - 1], account, now, session);
    }
  }
}
