/** Progress of a manifest's sample chain.

    When the source answers every request of the chain in full and nothing else touches the
    session, the sample units scheduled for the manifest are the request plan of its uncovered
    numbers, in order, and the last one leaves the manifest covered. Without that assumption
    the uncovered numbers fall exactly when a commit stores a new manifest number. */
module LedgerChain {
  import opened Ranges
  import opened Chunks
  import opened Coverage
  import opened Ledger
  import opened ArchiveInvariant
  import opened LedgerInvariant
  import opened LedgerRuns
  import opened LedgerFaults
  import opened Wrappers
  import M = Models

  // ---- The uncovered numbers fall ----------------------------------------------------------

  /** A commit takes from a manifest's uncovered numbers exactly the rows it stores, if the
      manifest is of its session. */
  lemma CommitTakesRows(a: Archive, own: ManifestId, range: Interval, rows: seq<M.SampleRow>, session: SessionId,
                        manifest: seq<Interval>)
    requires CoverageExact(a, session) && ValidRows(rows, range)
    ensures Wanted(Absorbed(a, own, range, rows), session, manifest)
         == Wanted(a, session, manifest) - if session == own.session then Sequences(rows) else {}
  {
    AbsorbedCoverage(a, own, range, rows, session);
  }

  /** The uncovered numbers of a manifest never grow at a commit, and fall exactly when the
      commit stores a manifest number that was not stored before. */
  lemma CommitShrinksWanted(s: Ledger, i: nat, rows: seq<M.SampleRow>, now: int, mid: ManifestId, t: Ledger)
    requires Inv(s) && RangeUnit(s, i) && ValidRows(rows, s.work[i].range.value) && mid in s.manifests
    requires t == SamplesCommitted(s, i, rows, now)
    ensures |Wanted(t.archive, mid.session, t.manifests[mid])| <= |Wanted(s.archive, mid.session, s.manifests[mid])|
    ensures |Wanted(t.archive, mid.session, t.manifests[mid])| < |Wanted(s.archive, mid.session, s.manifests[mid])| <==>
            exists x: int :: NewFor(s, mid, x) && mid.session == s.work[i].session && x in Sequences(rows)
  {
    var w := s.work[i];
    var before := Wanted(s.archive, mid.session, s.manifests[mid]);
    var taken := if mid.session == w.session then Sequences(rows) else {};
    assert CoverageExact(s.archive, mid.session);
    CommitTakesRows(s.archive, w.manifest.value, w.range.value, rows, mid.session, s.manifests[mid]);
    FallsIffTaken(before, taken);
    NewIsWanted(s, mid, before);
  }

  lemma NewIsWanted(s: Ledger, mid: ManifestId, wanted: set<int>)
    requires mid in s.manifests && CoverageExact(s.archive, mid.session)
    requires wanted == Wanted(s.archive, mid.session, s.manifests[mid])
    ensures forall x: int :: x in wanted <==> NewFor(s, mid, x)
  {
    forall x: int
      ensures x in wanted <==> NewFor(s, mid, x)
    {
      InStored(s.archive, mid.session, x);
    }
  }

  /** x is a manifest number with no sample stored yet. */
  ghost predicate NewFor(s: Ledger, mid: ManifestId, x: int) {
    mid in s.manifests && x in Elems(s.manifests[mid]) && SampleKey(mid.session, x) !in s.archive.samples
  }

  lemma FallsIffTaken(s: set<int>, taken: set<int>)
    ensures |s - taken| <= |s|
    ensures |s - taken| < |s| <==> exists x: int :: x in s && x in taken
  {
    var both := s * taken;
    assert s == (s - taken) + both;
    SomeElement(both);
  }

  // ---- The chain of a manifest --------------------------------------------------------------

  predicate SampleOf(w: Work, mid: ManifestId) {
    w.kind == SampleWork && w.manifest == Some(mid) && w.range.Some?
  }

  /** The ranges of a manifest's sample units, in the order they were scheduled. */
  function SampleRanges(work: seq<Work>, mid: ManifestId): seq<Interval> {
    if work == [] then []
    else
      var last := work[|work| - 1];
      SampleRanges(work[..|work| - 1], mid) + if SampleOf(last, mid) then [last.range.value] else []
  }

  predicate SameKeys(work: seq<Work>, later: seq<Work>) {
    |work| == |later| && forall j | 0 <= j < |work| :: SameKey(work[j], later[j])
  }

  lemma {:induction false} SameKeysSameRanges(work: seq<Work>, later: seq<Work>, mid: ManifestId)
    requires SameKeys(work, later)
    ensures SampleRanges(work, mid) == SampleRanges(later, mid)
    decreases |work|
  {
    if work != [] {
      SameKeysSameRanges(work[..|work| - 1], later[..|later| - 1], mid);
      assert SameKey(work[|work| - 1], later[|work| - 1]);
    }
  }

  /** Only other manifests' units were added, and this manifest's units were at most rescheduled. */
  predicate ChainUntouched(work: seq<Work>, later: seq<Work>, mid: ManifestId) {
    && |work| <= |later|
    && (forall j | 0 <= j < |work| ::
          SameKey(work[j], later[j]) && (SampleOf(work[j], mid) ==> Rescheduled(work[j], later[j])))
    && (forall j | |work| <= j < |later| :: !SampleOf(later[j], mid))
  }

  lemma {:induction false} UntouchedRanges(work: seq<Work>, later: seq<Work>, mid: ManifestId)
    requires ChainUntouched(work, later, mid)
    ensures SampleRanges(later, mid) == SampleRanges(work, mid)
    decreases |later|
  {
    if |later| == |work| {
      SameKeysSameRanges(work, later, mid);
    } else {
      UntouchedRanges(work, later[..|later| - 1], mid);
    }
  }

  lemma UntouchedTrans(a: seq<Work>, b: seq<Work>, c: seq<Work>, mid: ManifestId)
    requires ChainUntouched(a, b, mid) && ChainUntouched(b, c, mid)
    ensures ChainUntouched(a, c, mid)
  {
    forall j | 0 <= j < |a|
      ensures SameKey(a[j], c[j]) && (SampleOf(a[j], mid) ==> Rescheduled(a[j], c[j]))
    {
      assert SameKey(a[j], b[j]) && SameKey(b[j], c[j]);
    }
    forall j | |a| <= j < |c|
      ensures !SampleOf(c[j], mid)
    {
      assert j < |b| ==> SameKey(b[j], c[j]);
    }
  }

  predicate IdleExcept(work: seq<Work>, mid: ManifestId, last: nat) {
    forall j | 0 <= j < |work| && j != last && SampleOf(work[j], mid) :: !Active(work[j])
  }

  /** A chain of sample units of one manifest: what was uncovered when it began, the ranges
      scheduled for the manifest before it, and the number of units the table then had. */
  datatype Chain = Chain(mid: ManifestId, base: seq<Interval>, wanted: set<int>, floor: nat)

  /** The chain has served `k - 1` requests of its plan, unit `last` is the k-th; once that one
      is done, the plan is exhausted and the manifest covered. */
  ghost predicate ChainAt(s: Ledger, c: Chain, k: nat, last: nat) {
    var mid, plan := c.mid, Plan(c.wanted, CHUNK_SIZE);
    && mid in s.manifests
    && 1 <= k <= |plan| && c.floor <= last < |s.work|
    && SampleRanges(s.work, mid) == c.base + plan[..k]
    && IdleExcept(s.work, mid, last)
    && SampleOf(s.work[last], mid) && s.work[last].range.value == plan[k - 1]
    && Standing(s, mid, plan, k, s.work[last].state == Done)
  }

  /** What is still uncovered: the rest of the plan from the open request on, or nothing. */
  ghost predicate Standing(s: Ledger, mid: ManifestId, plan: seq<Interval>, k: nat, done: bool)
    requires mid in s.manifests && 1 <= k <= |plan|
  {
    var left := Wanted(s.archive, mid.session, s.manifests[mid]);
    if done then k == |plan| && left == {} else left != {} && Plan(left, CHUNK_SIZE) == plan[k - 1..]
  }

  /** A step of somebody else: it leaves the chain's units, manifest and coverage alone. */
  ghost predicate Elsewhere(s: Ledger, t: Ledger, mid: ManifestId) {
    && ChainUntouched(s.work, t.work, mid)
    && mid in s.manifests && mid in t.manifests && t.manifests[mid] == s.manifests[mid]
    && CoverageOf(t.archive, mid.session) == CoverageOf(s.archive, mid.session)
  }

  lemma UntouchedIdle(work: seq<Work>, later: seq<Work>, mid: ManifestId, last: nat)
    requires ChainUntouched(work, later, mid) && IdleExcept(work, mid, last)
    ensures IdleExcept(later, mid, last)
  {
    forall j | 0 <= j < |later| && j != last && SampleOf(later[j], mid)
      ensures !Active(later[j])
    {
      assert j < |work| && SameKey(work[j], later[j]);
    }
  }

  lemma ElsewhereKeepsChain(s: Ledger, t: Ledger, c: Chain, k: nat, last: nat)
    requires ChainAt(s, c, k, last) && Elsewhere(s, t, c.mid)
    ensures ChainAt(t, c, k, last)
  {
    UntouchedRanges(s.work, t.work, c.mid);
    UntouchedIdle(s.work, t.work, c.mid, last);
    assert Rescheduled(s.work[last], t.work[last]);
  }

  /** The condition under which the chain is promised: the session's manifest is not checked
      again, and range units of the session that are committed are this manifest's sample
      units, with an answer naming every requested number. */
  ghost predicate QuietStep(s: Ledger, step: Step, mid: ManifestId) {
    && (step.Complete? && step.unit < |s.work| ==> s.work[step.unit].session != mid.session)
    && (step.Commit? && step.unit < |s.work| && s.work[step.unit].session == mid.session ==>
          && SampleOf(s.work[step.unit], mid)
          && Span(s.work[step.unit].range.value.lo, s.work[step.unit].range.value.hi) <= Sequences(step.rows))
  }

  ghost predicate QuietRun(s: Ledger, steps: seq<Step>, mid: ManifestId)
    decreases |steps|
  {
    steps == [] || (QuietRun(s, steps[..|steps| - 1], mid)
                    && QuietStep(Run(s, steps[..|steps| - 1]), steps[|steps| - 1], mid))
  }

  // ---- Other steps leave the chain alone ------------------------------------------------------

  lemma RescheduleElsewhere(s: Ledger, t: Ledger, mid: ManifestId)
    requires OnlyRescheduled(s, t) && mid in s.manifests
    ensures Elsewhere(s, t, mid)
  {
    forall j | 0 <= j < |s.work|
      ensures SameKey(s.work[j], t.work[j]) && Rescheduled(s.work[j], t.work[j])
    {
    }
  }

  lemma EnqueueUntouched(work: seq<Work>, w: Work, mid: ManifestId)
    requires !SampleOf(w, mid) && forall j | 0 <= j < |work| :: Rescheduled(work[j], work[j])
    ensures ChainUntouched(work, Enqueue(work, w), mid)
  {
    var out := Enqueue(work, w);
    forall j | 0 <= j < |work|
      ensures SameKey(work[j], out[j]) && Rescheduled(work[j], out[j])
    {
      assert Rescheduled(work[j], work[j]);
    }
  }

  lemma RowsReschedule(s: Ledger)
    requires RowsOk(s)
    ensures forall j | 0 <= j < |s.work| :: Rescheduled(s.work[j], s.work[j])
  {
    forall j | 0 <= j < |s.work| ensures Rescheduled(s.work[j], s.work[j]) { assert RowOk(s, s.work[j]); }
  }

  lemma {:induction false} DiscoverElsewhere(s: Ledger, items: seq<IndexItem>, account: AccountId, now: int,
                                             mid: ManifestId)
    requires Inv(s) && mid in s.manifests
    ensures Elsewhere(s, DiscoverItems(s, items, account, now), mid)
    decreases |items|
  {
    if items == [] {
      RowsReschedule(s);
    } else {
      var before := DiscoverItems(s, items[..|items| - 1], account, now);
      DiscoverElsewhere(s, items[..|items| - 1], account, now, mid);
      DiscoverKeepsInv(s, items[..|items| - 1], account, now);
      RowsReschedule(before);
      var w := NewManifestWork(items[|items| - 1].session, 50, now, now);
      EnqueueUntouched(before.work, w, mid);
      UntouchedTrans(s.work, before.work, Enqueue(before.work, w), mid);
    }
  }

  /** Finishing a unit that is not of this manifest and scheduling others leaves it alone. */
  lemma FinishUntouched(s: Ledger, i: nat, first: Option<Work>, mid: ManifestId)
    requires RowsOk(s) && i < |s.work| && !SampleOf(s.work[i], mid)
    requires first.Some? ==> first.value.state == Ready && !SampleOf(first.value, mid)
    ensures ChainUntouched(s.work, EnqueueSome(s.work[i := s.work[i].(state := Done)], first), mid)
  {
    RowsReschedule(s);
    var finished := s.work[i := s.work[i].(state := Done)];
    forall j | 0 <= j < |finished|
      ensures Rescheduled(finished[j], finished[j])
    {
      assert Rescheduled(s.work[j], s.work[j]);
    }
    if first.Some? {
      EnqueueUntouched(finished, first.value, mid);
      UntouchedTrans(s.work, finished, Enqueue(finished, first.value), mid);
    }
  }

  lemma CompleteElsewhere(s: Ledger, i: nat, metadata: int, ranges: seq<Interval>, now: int, mid: ManifestId)
    requires Inv(s) && mid in s.manifests
    requires i < |s.work| && s.work[i].kind == ManifestWork && s.work[i].session in s.sessions
    requires s.work[i].session != mid.session
    ensures Elsewhere(s, ManifestCompleted(s, i, metadata, ranges, now), mid)
  {
    var t := ManifestCompleted(s, i, metadata, ranges, now);
    var other := ManifestId(s.work[i].session, metadata);
    var followUp := ManifestFollowUp(s.archive, other, t.manifests[other], s.sessions[other.session].lastAudit, now);
    var finished := EnqueueSome(s.work[i := s.work[i].(state := Done)], followUp);
    FinishUntouched(s, i, followUp, mid);
    var last := NewManifestWork(other.session, 150, now + MANIFEST_RECHECK_US, now);
    FinishedReschedule(s, i, followUp);
    EnqueueUntouched(finished, last, mid);
    UntouchedTrans(s.work, finished, t.work, mid);
  }

  lemma FinishedReschedule(s: Ledger, i: nat, first: Option<Work>)
    requires RowsOk(s) && i < |s.work|
    requires first.Some? ==> first.value.state == Ready
    ensures var out := EnqueueSome(s.work[i := s.work[i].(state := Done)], first);
            forall j | 0 <= j < |out| :: Rescheduled(out[j], out[j])
  {
    RowsReschedule(s);
    var out := EnqueueSome(s.work[i := s.work[i].(state := Done)], first);
    forall j | 0 <= j < |out|
      ensures Rescheduled(out[j], out[j])
    {
      assert j < |s.work| ==> Rescheduled(s.work[j], s.work[j]);
    }
  }

  lemma CommitElsewhere(s: Ledger, i: nat, rows: seq<M.SampleRow>, now: int, mid: ManifestId)
    requires Inv(s) && mid in s.manifests && RangeUnit(s, i) && s.work[i].session != mid.session
    ensures Elsewhere(s, SamplesCommitted(s, i, rows, now), mid)
  {
    var t := SamplesCommitted(s, i, rows, now);
    FinishUntouched(s, i, NextUnit(t, s, i, now), mid);
    OtherCoverageKept(s.archive, s.work[i].manifest.value, s.work[i].range.value, rows, mid.session);
  }

  lemma OtherCoverageKept(a: Archive, own: ManifestId, range: Interval, rows: seq<M.SampleRow>, session: SessionId)
    requires session != own.session
    ensures CoverageOf(Absorbed(a, own, range, rows), session) == CoverageOf(a, session)
  {
  }

  // ---- The chain's own commit -----------------------------------------------------------------

  lemma FullRowsFillRange(rows: seq<M.SampleRow>, range: Interval)
    requires ValidRows(rows, range) && Span(range.lo, range.hi) <= Sequences(rows)
    ensures Sequences(rows) == Span(range.lo, range.hi)
  {
    RowsInRange(rows, range);
  }

  /** A full answer covers its range, so the next unit continues the chain. */
  lemma FullAnswerFollowUp(s: Ledger, i: nat, rows: seq<M.SampleRow>, now: int, t: Ledger, mid: ManifestId)
    requires Inv(s) && RangeUnit(s, i) && SampleOf(s.work[i], mid) && mid in s.manifests
    requires ValidRows(rows, s.work[i].range.value)
    requires Span(s.work[i].range.value.lo, s.work[i].range.value.hi) <= Sequences(rows)
    requires t == SamplesCommitted(s, i, rows, now)
    ensures var left := Wanted(s.archive, mid.session, s.manifests[mid])
                        - Span(s.work[i].range.value.lo, s.work[i].range.value.hi);
            && Wanted(t.archive, mid.session, t.manifests[mid]) == left
            && NextUnit(t, s, i, now)
               == match FirstChunk(left, CHUNK_SIZE)
                  case None => None
                  case Some(chunk) => Some(NewRangeWork(SampleWork, mid, chunk, 60, now, now))
  {
    var range := s.work[i].range.value;
    FullRowsFillRange(rows, range);
    assert CoverageExact(s.archive, mid.session);
    CommitTakesRows(s.archive, mid, range, rows, mid.session, s.manifests[mid]);
    AbsorbedCoverage(s.archive, mid, range, rows, mid.session);
    assert Span(range.lo, range.hi) - Elems(CoverageOf(t.archive, mid.session)) == {};
    CanonOf([], {});
  }

  /** The open request is the first of the plan for what is left, so serving it in full leaves
      the rest of the plan. */
  lemma PlanAdvances(wanted: set<int>, left: set<int>, k: nat, range: Interval)
    requires 1 <= k <= |Plan(wanted, CHUNK_SIZE)| && left != {}
    requires Plan(left, CHUNK_SIZE) == Plan(wanted, CHUNK_SIZE)[k - 1..]
    requires range == Plan(wanted, CHUNK_SIZE)[k - 1]
    ensures Plan(left - Span(range.lo, range.hi), CHUNK_SIZE) == Plan(wanted, CHUNK_SIZE)[k..]
    ensures left - Span(range.lo, range.hi) == {} <==> k == |Plan(wanted, CHUNK_SIZE)|
    ensures k < |Plan(wanted, CHUNK_SIZE)| ==>
              FirstChunk(left - Span(range.lo, range.hi), CHUNK_SIZE) == Some(Plan(wanted, CHUNK_SIZE)[k])
  {
    ChunksTail(left, CHUNK_SIZE);
    var rest := left - Span(range.lo, range.hi);
    assert Plan(left, CHUNK_SIZE)[1..] == Plan(wanted, CHUNK_SIZE)[k..];
    FirstChunkFacts(rest, CHUNK_SIZE);
  }

  lemma AppendedRange(work: seq<Work>, w: Work, mid: ManifestId)
    requires SampleOf(w, mid)
    ensures SampleRanges(work + [w], mid) == SampleRanges(work, mid) + [w.range.value]
  {
    assert (work + [w])[..|work|] == work;
  }

  lemma FinishedIdle(work: seq<Work>, finished: seq<Work>, mid: ManifestId, last: nat)
    requires last < |work| && finished == work[last := work[last].(state := Done)] && IdleExcept(work, mid, last)
    ensures SampleRanges(finished, mid) == SampleRanges(work, mid)
    ensures forall j | 0 <= j < |finished| && SampleOf(finished[j], mid) :: !Active(finished[j])
  {
    SameKeysSameRanges(work, finished, mid);
  }

  /** The next unit of the chain is new: no other sample unit of the manifest is active. */
  lemma NextIsAppended(work: seq<Work>, w: Work, mid: ManifestId)
    requires SampleOf(w, mid)
    requires forall j | 0 <= j < |work| && SampleOf(work[j], mid) :: !Active(work[j])
    ensures Enqueue(work, w) == work + [w]
    ensures SampleRanges(work + [w], mid) == SampleRanges(work, mid) + [w.range.value]
    ensures IdleExcept(work + [w], mid, |work|)
  {
    AppendedRange(work, w, mid);
    forall i | 0 <= i < |work|
      ensures !(Active(work[i]) && SameKey(work[i], w))
    {
      assert SameKey(work[i], w) ==> SampleOf(work[i], mid);
    }
  }

  lemma ChainServed(s: Ledger, t: Ledger, c: Chain, k: nat, last: nat, left: set<int>, next: Option<Work>, now: int)
    requires ChainAt(s, c, k, last) && s.work[last].state != Done
    requires left == Wanted(s.archive, c.mid.session, s.manifests[c.mid])
                     - Span(s.work[last].range.value.lo, s.work[last].range.value.hi)
    requires c.mid in t.manifests && Wanted(t.archive, c.mid.session, t.manifests[c.mid]) == left
    requires t.work == EnqueueSome(s.work[last := s.work[last].(state := Done)], next)
    requires next == match FirstChunk(left, CHUNK_SIZE)
                     case None => None
                     case Some(chunk) => Some(NewRangeWork(SampleWork, c.mid, chunk, 60, now, now))
    ensures ChainSomewhere(t, c)
  {
    var plan := Plan(c.wanted, CHUNK_SIZE);
    var before := Wanted(s.archive, c.mid.session, s.manifests[c.mid]);
    var finished := s.work[last := s.work[last].(state := Done)];
    PlanAdvances(c.wanted, before, k, s.work[last].range.value);
    FinishedIdle(s.work, finished, c.mid, last);
    if k < |plan| {
      NextIsAppended(finished, next.value, c.mid);
      assert c.base + plan[..k] + [plan[k]] == c.base + plan[..k + 1];
      assert ChainAt(t, c, k + 1, |finished|);
    } else {
      FirstChunkFacts(left, CHUNK_SIZE);
      assert ChainAt(t, c, k, last);
    }
  }

  ghost predicate ChainSomewhere(s: Ledger, c: Chain) {
    exists k: nat, last: nat :: ChainAt(s, c, k, last)
  }

  lemma OwnCommit(s: Ledger, i: nat, rows: seq<M.SampleRow>, now: int, c: Chain)
    requires Inv(s) && ChainSomewhere(s, c)
    requires RangeUnit(s, i) && s.work[i].state == Running && SampleOf(s.work[i], c.mid)
    requires ValidRows(rows, s.work[i].range.value)
    requires Span(s.work[i].range.value.lo, s.work[i].range.value.hi) <= Sequences(rows)
    ensures ChainSomewhere(SamplesCommitted(s, i, rows, now), c)
  {
    var k: nat, last: nat :| ChainAt(s, c, k, last);
    assert i == last;
    var t := SamplesCommitted(s, i, rows, now);
    var left := Wanted(s.archive, c.mid.session, s.manifests[c.mid])
                - Span(s.work[i].range.value.lo, s.work[i].range.value.hi);
    FullAnswerFollowUp(s, i, rows, now, t, c.mid);
    ChainServed(s, t, c, k, last, left, NextUnit(t, s, i, now), now);
  }

  lemma StepElsewhere(s: Ledger, step: Step, mid: ManifestId)
    requires Inv(s) && mid in s.manifests && QuietStep(s, step, mid)
    requires step.Commit? && step.unit < |s.work| ==> s.work[step.unit].session != mid.session
    ensures Elsewhere(s, Apply(s, step), mid)
  {
    if step.Claim? || step.Fail? || step.Interrupt? {
      OthersReschedule(s, step);
      RescheduleElsewhere(s, Apply(s, step), mid);
    } else if step.Discover? {
      PageElsewhere(s, step.run, step.page, step.digest, step.items, step.account, step.now, mid);
    } else if step.Commit? {
      CommitStepElsewhere(s, step, mid, Apply(s, step));
    } else if step.Complete? {
      CompleteStepElsewhere(s, step, mid, Apply(s, step));
    } else {
      RowsReschedule(s);
    }
  }

  lemma CommitStepElsewhere(s: Ledger, step: Step, mid: ManifestId, t: Ledger)
    requires Inv(s) && mid in s.manifests && step.Commit? && t == Apply(s, step)
    requires step.unit < |s.work| ==> s.work[step.unit].session != mid.session
    ensures Elsewhere(s, t, mid)
  {
    RowsReschedule(s);
    if t != s {
      CommitDone(s, step);
      CommitElsewhere(s, step.unit, step.rows, step.now, mid);
    }
  }

  lemma CompleteStepElsewhere(s: Ledger, step: Step, mid: ManifestId, t: Ledger)
    requires Inv(s) && mid in s.manifests && step.Complete? && t == Apply(s, step)
    requires step.unit < |s.work| ==> s.work[step.unit].session != mid.session
    ensures Elsewhere(s, t, mid)
  {
    RowsReschedule(s);
    if t != s {
      CompleteDone(s, step);
      CompleteElsewhere(s, step.unit, step.metadata, step.ranges, step.now, mid);
    }
  }

  lemma PageElsewhere(s: Ledger, run: nat, page: int, digest: int, items: seq<IndexItem>, account: AccountId,
                      now: int, mid: ManifestId)
    requires Inv(s) && mid in s.manifests
    ensures Elsewhere(s, DiscoverPage(s, run, page, digest, items, account, now).0, mid)
  {
    RowsReschedule(s);
    if run < |s.runs| && s.runs[run] == RunRunning && PageKey(run, page) !in s.pages {
      var t := s.(pages := s.pages[PageKey(run, page) := digest]);
      BookkeepingKeepsInv(s, t);
      DiscoverElsewhere(t, items, account, now, mid);
    }
  }

  lemma StepKeepsChain(s: Ledger, step: Step, c: Chain)
    requires Inv(s) && ChainSomewhere(s, c) && QuietStep(s, step, c.mid)
    ensures ChainSomewhere(Apply(s, step), c)
  {
    if step.Commit? && step.unit < |s.work| && s.work[step.unit].session == c.mid.session {
      if Apply(s, step) != s {
        CommitDone(s, step);
        OwnCommit(s, step.unit, step.rows, step.now, c);
      }
    } else {
      var k: nat, last: nat :| ChainAt(s, c, k, last);
      StepElsewhere(s, step, c.mid);
      ElsewhereKeepsChain(s, Apply(s, step), c, k, last);
    }
  }

  lemma {:induction false} RunKeepsChain(s: Ledger, steps: seq<Step>, c: Chain)
    requires Inv(s) && ChainSomewhere(s, c) && QuietRun(s, steps, c.mid)
    ensures Inv(Run(s, steps)) && ChainSomewhere(Run(s, steps), c)
    decreases |steps|
  {
    if steps != [] {
      RunKeepsChain(s, steps[..|steps| - 1], c);
      var before := Run(s, steps[..|steps| - 1]);
      ApplyKeepsInv(before, steps[|steps| - 1]);
      StepKeepsChain(before, steps[|steps| - 1], c);
    }
  }

  // ---- The start of a chain -------------------------------------------------------------------

  predicate NoneActive(work: seq<Work>, mid: ManifestId) {
    forall j | 0 <= j < |work| && SampleOf(work[j], mid) :: !Active(work[j])
  }

  /** A manifest check that finds uncovered numbers schedules the first request of their plan. */
  lemma CompletionStartsChain(s: Ledger, i: nat, metadata: int, ranges: seq<Interval>, now: int, mid: ManifestId,
                              t: Ledger)
    requires Inv(s) && i < |s.work| && s.work[i].kind == ManifestWork && s.work[i].session in s.sessions
    requires mid == ManifestId(s.work[i].session, metadata) && NoneActive(s.work, mid)
    requires t == ManifestCompleted(s, i, metadata, ranges, now)
    ensures var wanted := Wanted(s.archive, mid.session, t.manifests[mid]);
            && (wanted != {} ==> ChainSomewhere(t, Chain(mid, SampleRanges(s.work, mid), wanted, |s.work|)))
            && (wanted == {} ==> SampleRanges(t.work, mid) == SampleRanges(s.work, mid))
  {
    var wanted := Wanted(s.archive, mid.session, t.manifests[mid]);
    var followUp := ManifestFollowUp(s.archive, mid, t.manifests[mid], s.sessions[mid.session].lastAudit, now);
    FirstChunkFacts(wanted, CHUNK_SIZE);
    FinishedReschedule(s, i, followUp);
    if wanted == {} {
      NothingStarted(s, i, now, mid, t, followUp);
    } else {
      ChainStarted(s, i, now, mid, t, followUp.value, wanted);
    }
  }

  ghost predicate Rechecked(s: Ledger, i: nat, now: int, mid: ManifestId, t: Ledger, followUp: Option<Work>)
    requires i < |s.work|
  {
    && t.work == Enqueue(EnqueueSome(s.work[i := s.work[i].(state := Done)], followUp),
                         NewManifestWork(mid.session, 150, now + MANIFEST_RECHECK_US, now))
    && var out := EnqueueSome(s.work[i := s.work[i].(state := Done)], followUp);
       forall j | 0 <= j < |out| :: Rescheduled(out[j], out[j])
  }

  lemma NothingStarted(s: Ledger, i: nat, now: int, mid: ManifestId, t: Ledger, followUp: Option<Work>)
    requires RowsOk(s) && i < |s.work| && s.work[i].kind == ManifestWork
    requires Rechecked(s, i, now, mid, t, followUp)
    requires followUp.Some? ==> followUp.value.state == Ready && !SampleOf(followUp.value, mid)
    ensures SampleRanges(t.work, mid) == SampleRanges(s.work, mid)
  {
    var scheduled := EnqueueSome(s.work[i := s.work[i].(state := Done)], followUp);
    FinishUntouched(s, i, followUp, mid);
    UntouchedRanges(s.work, scheduled, mid);
    EnqueueUntouched(scheduled, NewManifestWork(mid.session, 150, now + MANIFEST_RECHECK_US, now), mid);
    UntouchedRanges(scheduled, t.work, mid);
  }

  lemma ChainStarted(s: Ledger, i: nat, now: int, mid: ManifestId, t: Ledger, first: Work, wanted: set<int>)
    requires i < |s.work| && s.work[i].kind == ManifestWork && NoneActive(s.work, mid)
    requires Rechecked(s, i, now, mid, t, Some(first))
    requires SampleOf(first, mid) && first.state == Ready && FirstChunk(wanted, CHUNK_SIZE) == first.range
             && wanted != {}
    requires mid in t.manifests && wanted == Wanted(t.archive, mid.session, t.manifests[mid])
    ensures ChainSomewhere(t, Chain(mid, SampleRanges(s.work, mid), wanted, |s.work|))
  {
    var finished := s.work[i := s.work[i].(state := Done)];
    var recheck := NewManifestWork(mid.session, 150, now + MANIFEST_RECHECK_US, now);
    SameKeysSameRanges(s.work, finished, mid);
    NextIsAppended(finished, first, mid);
    EnqueueUntouched(finished + [first], recheck, mid);
    UntouchedRanges(finished + [first], t.work, mid);
    UntouchedIdle(finished + [first], t.work, mid, |finished|);
    assert t.work[|finished|] == first;
    FirstRequest(t, Chain(mid, SampleRanges(s.work, mid), wanted, |s.work|), |finished|);
  }

  lemma FirstRequest(t: Ledger, c: Chain, last: nat)
    requires c.mid in t.manifests && c.floor <= last < |t.work| && c.wanted != {}
    requires c.wanted == Wanted(t.archive, c.mid.session, t.manifests[c.mid])
    requires SampleOf(t.work[last], c.mid) && t.work[last].state != Done && IdleExcept(t.work, c.mid, last)
    requires FirstChunk(c.wanted, CHUNK_SIZE) == t.work[last].range
    requires SampleRanges(t.work, c.mid) == c.base + [t.work[last].range.value]
    ensures ChainSomewhere(t, c)
  {
    var plan := Plan(c.wanted, CHUNK_SIZE);
    assert plan[..1] == [plan[0]] && plan[0..] == plan;
    assert ChainAt(t, c, 1, last);
  }

  /** Where a chain stands: a prefix of the plan, and all of it once no unit of it is open. */
  lemma ChainEnds(t: Ledger, c: Chain)
    requires ChainSomewhere(t, c)
    ensures c.mid in t.manifests
    ensures exists k: nat :: 1 <= k <= |Plan(c.wanted, CHUNK_SIZE)|
                             && SampleRanges(t.work, c.mid) == c.base + Plan(c.wanted, CHUNK_SIZE)[..k]
    ensures (forall j | c.floor <= j < |t.work| && SampleOf(t.work[j], c.mid) :: t.work[j].state == Done) ==>
              && SampleRanges(t.work, c.mid) == c.base + Plan(c.wanted, CHUNK_SIZE)
              && Elems(t.manifests[c.mid]) <= Elems(CoverageOf(t.archive, c.mid.session))
  {
    var k: nat, last: nat :| ChainAt(t, c, k, last);
    var plan := Plan(c.wanted, CHUNK_SIZE);
    assert plan[..|plan|] == plan;
    if t.work[last].state == Done {
      NothingWanted(t.archive, c.mid.session, t.manifests[c.mid]);
    }
  }

  lemma NothingWanted(a: Archive, session: SessionId, ranges: seq<Interval>)
    requires Wanted(a, session, ranges) == {}
    ensures Elems(ranges) <= Elems(CoverageOf(a, session))
  {
    forall x | x in Elems(ranges)
      ensures x in Elems(CoverageOf(a, session))
    {
      assert x !in Wanted(a, session, ranges);
    }
  }

  /** The main result. After a manifest check of a session nothing else touches, and as long
      as the source answers every request in full, the sample units scheduled for the manifest
      are a prefix of the plan for its initially uncovered numbers, in order; as soon as none
      of them is open or failed they are the whole plan and the manifest is covered. */
  lemma FullAnswersServeThePlan(s: Ledger, i: nat, metadata: int, ranges: seq<Interval>, now: int, steps: seq<Step>,
                                mid: ManifestId, start: Ledger, wanted: set<int>, t: Ledger)
    requires Inv(s) && i < |s.work| && s.work[i].kind == ManifestWork && s.work[i].state == Running
    requires s.work[i].session in s.sessions
    requires mid == ManifestId(s.work[i].session, metadata) && NoneActive(s.work, mid)
    requires start == ManifestCompleted(s, i, metadata, ranges, now) && QuietRun(start, steps, mid)
    requires wanted == Wanted(s.archive, mid.session, start.manifests[mid]) && wanted != {}
    requires t == Run(start, steps)
    ensures mid in t.manifests && t.manifests[mid] == start.manifests[mid]
    ensures exists k: nat :: 1 <= k <= |Plan(wanted, CHUNK_SIZE)|
                             && SampleRanges(t.work, mid) == SampleRanges(s.work, mid) + Plan(wanted, CHUNK_SIZE)[..k]
    ensures (forall j | |s.work| <= j < |t.work| && SampleOf(t.work[j], mid) :: t.work[j].state == Done) ==>
              && SampleRanges(t.work, mid) == SampleRanges(s.work, mid) + Plan(wanted, CHUNK_SIZE)
              && Elems(t.manifests[mid]) <= Elems(CoverageOf(t.archive, mid.session))
  {
    var c := Chain(mid, SampleRanges(s.work, mid), wanted, |s.work|);
    CompletionKeepsInv(s, i, metadata, ranges, now);
    CompletionStartsChain(s, i, metadata, ranges, now, mid, start);
    RunKeepsChain(start, steps, c);
    RunAdvances(start, steps);
    ChainEnds(t, c);
  }
}
