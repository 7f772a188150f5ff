/** Why serving work units need not make progress: a source that answers nothing is asked for
    the same run again and again, each time by a new unit with no attempts used. */
module LedgerStall {
  import opened Ranges
  import opened Chunks
  import opened Coverage
  import opened Ledger
  import opened ArchiveInvariant
  import opened LedgerInvariant
  import opened LedgerRuns
  import opened LedgerFaults
  import opened LedgerChain
  import opened Wrappers
  import M = Models

  // ---- One empty answer ---------------------------------------------------------------------

  /** An empty answer to a sample unit none of whose numbers is stored takes nothing from any
      manifest, and schedules a unit for the same range's first piece. */
  lemma EmptyAnswerRetries(s: Ledger, i: nat, now: int, t: Ledger)
    requires Inv(s) && RangeUnit(s, i) && s.work[i].kind == SampleWork
    requires Span(s.work[i].range.value.lo, s.work[i].range.value.hi) !! Stored(s.archive, s.work[i].session)
    requires t == SamplesCommitted(s, i, [], now)
    ensures forall mid | mid in s.manifests ::
              Wanted(t.archive, mid.session, s.manifests[mid]) == Wanted(s.archive, mid.session, s.manifests[mid])
    ensures NextUnit(t, s, i, now)
         == Some(NewRangeWork(SampleWork, s.work[i].manifest.value, s.work[i].range.value, 80,
                              now + MISSING_RETRY_US, now))
  {
    var w := s.work[i];
    var mid, range := w.manifest.value, w.range.value;
    assert Sequences([]) == {};
    forall other | other in s.manifests
      ensures Wanted(t.archive, other.session, s.manifests[other])
               == Wanted(s.archive, other.session, s.manifests[other])
    {
      assert CoverageExact(s.archive, other.session);
      CommitTakesRows(s.archive, mid, range, [], other.session, s.manifests[other]);
    }
    assert RowOk(s, w) && CoverageExact(s.archive, w.session);
    AbsorbedCoverage(s.archive, mid, range, [], w.session);
    WholeRangeMissing(range, Elems(CoverageOf(t.archive, w.session)));
  }

  lemma WholeRangeMissing(range: Interval, covered: set<int>)
    requires range.lo <= range.hi && Span(range.lo, range.hi) !! covered
    ensures Canon(Span(range.lo, range.hi) - covered) == [range]
  {
    ElemsCons(range, []);
    assert [range] + [] == [range];
    assert Span(range.lo, range.hi) - covered == Span(range.lo, range.hi);
    CanonicalCons(range, []);
    CanonOf([range], Span(range.lo, range.hi) - covered);
  }

  // ---- Any number of them ---------------------------------------------------------------------

  const MANIFEST: ManifestId := ManifestId(0, 0)
  const HEAD: Interval := Interval(0, 0)
  const TWO_RUNS: seq<Interval> := [Interval(0, 0), Interval(2, 2)]

  /** One session is found and its manifest of two runs is recorded. */
  const SETUP: seq<Step> :=
    [BeginDiscovery] + [Discover(0, 1, 0, [IndexItem(0, None)], 0, 0)] + [Claim(0, 0, 0)]
    + [Complete(0, 0, TWO_RUNS, NoFault, 0)]

  /** The unit that is open after n empty answers. */
  function Open(n: nat): nat {
    if n == 0 then 1 else n + 2
  }

  /** When it is due: every retry waits an hour. */
  function DueAt(n: nat): int {
    if n == 0 then 0 else DueAt(n - 1) + MISSING_RETRY_US
  }

  /** n times the open unit is claimed when it is due and answered with nothing. */
  function EmptyAnswers(n: nat): seq<Step> {
    if n == 0 then []
    else
      var k, at := Open(n - 1), DueAt(n - 1);
      EmptyAnswers(n - 1) + [Claim(0, k, at)] + [Commit(k, [], NoFault, at)]
  }

  /** The tables of the run: nothing is ever stored. */
  predicate Bare(s: Ledger) {
    && s.sessions == map[0 := Session(0, None, false, None)] && s.manifests == map[MANIFEST := TWO_RUNS]
    && s.archive.samples == map[]
  }

  /** Unit k asks for the first run and is due at this time; every other unit is done or is a
      manifest check that comes later in the queue. */
  predicate StuckAt(work: seq<Work>, k: nat, at: int) {
    && k < |work| && SampleOf(work[k], MANIFEST) && work[k].session == 0 && work[k].range.value == HEAD
    && work[k].state == Ready && work[k].notBefore == at && work[k].priority <= 80
    && forall j | 0 <= j < |work| && j != k :: Later(work[j])
  }

  predicate Later(w: Work) {
    w.state == Done || (w.kind == ManifestWork && w.priority == 150)
  }

  predicate Stuck(s: Ledger, k: nat, at: int) {
    Bare(s) && StuckAt(s.work, k, at)
  }

  lemma StuckIsNext(s: Ledger, k: nat, at: int)
    requires Stuck(s, k, at)
    ensures NextDue(s, 0, at, k)
  {
  }

  lemma NothingStored(a: Archive)
    requires a.samples == map[]
    ensures Stored(a, 0) == {}
  {
  }

  lemma EmptyAnswerStoresNothing(a: Archive, mid: ManifestId, range: Interval)
    requires a.samples == map[]
    ensures Absorbed(a, mid, range, []).samples == map[]
  {
    assert RowKeys(mid.session, []) == {};
  }

  lemma StaysBare(s: Ledger, k: nat, at: int, t: Ledger)
    requires Bare(s) && RangeUnit(s, k) && s.work[k].kind == SampleWork && t == SamplesCommitted(s, k, [], at)
    ensures Bare(t) && |t.receipts| == |s.receipts| + 1
  {
    EmptyAnswerStoresNothing(s.archive, s.work[k].manifest.value, s.work[k].range.value);
  }

  /** The retry joins the queue as the new open unit. */
  lemma RetryIsOpen(work: seq<Work>, k: nat, at: int, finished: seq<Work>, retry: Work)
    requires StuckAt(work, k, at)
    requires finished == work[k := work[k].(state := Done, attempts := work[k].attempts + 1)]
    requires retry == NewRangeWork(SampleWork, MANIFEST, HEAD, 80, at + MISSING_RETRY_US, at)
    ensures Enqueue(finished, retry) == finished + [retry]
    ensures StuckAt(finished + [retry], |work|, at + MISSING_RETRY_US)
  {
    forall j | 0 <= j < |finished| ensures Later(finished[j]) { assert j != k ==> Later(work[j]); }
  }

  lemma ClaimedFits(s: Ledger, k: nat, at: int, claimed: Ledger)
    requires Inv(s) && Stuck(s, k, at) && claimed == Claimed(s, k)
    ensures Inv(claimed) && RangeUnit(claimed, k)
    ensures Span(HEAD.lo, HEAD.hi) !! Stored(claimed.archive, 0)
  {
    ClaimReschedules(s, k);
    RescheduleKeepsInv(s, claimed);
    NothingStored(s.archive);
    assert RowOk(claimed, claimed.work[k]);
  }

  lemma WorkAfter(s: Ledger, k: nat, at: int, t: Ledger)
    requires RangeUnit(s, k) && t == SamplesCommitted(s, k, [], at)
    ensures t.work == EnqueueSome(s.work[k := s.work[k].(state := Done)], NextUnit(t, s, k, at))
  {
  }

  lemma StuckAgain(s: Ledger, k: nat, at: int, claimed: Ledger, t: Ledger, retry: Work)
    requires StuckAt(s.work, k, at) && claimed == Claimed(s, k) && Bare(t)
    requires retry == NewRangeWork(SampleWork, MANIFEST, HEAD, 80, at + MISSING_RETRY_US, at)
    requires t.work == Enqueue(claimed.work[k := claimed.work[k].(state := Done)], retry)
    ensures Stuck(t, |s.work|, at + MISSING_RETRY_US) && |t.work| == |s.work| + 1
  {
    RetryIsOpen(s.work, k, at, claimed.work[k := claimed.work[k].(state := Done)], retry);
  }

  lemma EmptyCommit(s: Ledger, k: nat, at: int)
    requires RangeUnit(s, k) && s.work[k].state == Running && s.work[k].range.value == HEAD
    ensures CommitSamples(s, k, [], NoFault, at).0 == SamplesCommitted(s, k, [], at)
  {
    assert ValidRows([], HEAD);
  }

  lemma CommitsEmpty(s: Ledger, k: nat, at: int, t: Ledger)
    requires RangeUnit(s, k) && s.work[k].state == Running && s.work[k].range.value == HEAD
    requires t == Apply(s, Commit(k, [], NoFault, at))
    ensures t == SamplesCommitted(s, k, [], at)
  {
    EmptyCommit(s, k, at);
  }

  lemma OneEmptyAnswer(s: Ledger, k: nat, at: int, t: Ledger, next: nat, due: int)
    requires Inv(s) && Stuck(s, k, at)
    requires t == Apply(Apply(s, Claim(0, k, at)), Commit(k, [], NoFault, at))
    requires next == |s.work| && due == at + MISSING_RETRY_US
    ensures Stuck(t, next, due) && |t.work| == next + 1 && |t.receipts| == |s.receipts| + 1
  {
    StuckIsNext(s, k, at);
    ClaimedFits(s, k, at, Claimed(s, k));
    AnswerClaimed(s, k, at, Claimed(s, k), t);
  }

  lemma AnswerClaimed(s: Ledger, k: nat, at: int, claimed: Ledger, t: Ledger)
    requires Stuck(s, k, at) && claimed == Claimed(s, k) && Inv(claimed) && RangeUnit(claimed, k)
    requires Span(HEAD.lo, HEAD.hi) !! Stored(claimed.archive, 0)
    requires t == Apply(claimed, Commit(k, [], NoFault, at))
    ensures Stuck(t, |s.work|, at + MISSING_RETRY_US)
    ensures |t.work| == |s.work| + 1 && |t.receipts| == |s.receipts| + 1
  {
    CommitsEmpty(claimed, k, at, t);
    EmptyAnswerRetries(claimed, k, at, t);
    WorkAfter(claimed, k, at, t);
    StaysBare(claimed, k, at, t);
    StuckAgain(s, k, at, claimed, t, NextUnit(t, claimed, k, at).value);
  }

  lemma RunOne(s: Ledger, steps: seq<Step>, step: Step)
    ensures Run(s, steps + [step]) == Apply(Run(s, steps), step)
  {
    assert (steps + [step])[..|steps|] == steps;
  }

  lemma TwoRunsCanonical()
    ensures Elems(TWO_RUNS) == {0, 2} && Canon(Elems(TWO_RUNS)) == TWO_RUNS
    ensures FirstChunk({0, 2}, CHUNK_SIZE) == Some(HEAD)
  {
    ElemsCons(Interval(0, 0), [Interval(2, 2)]);
    ElemsCons(Interval(2, 2), []);
    assert [Interval(0, 0)] + [Interval(2, 2)] == TWO_RUNS && [Interval(2, 2)] + [] == [Interval(2, 2)];
    assert Elems(TWO_RUNS) == {0, 2};
    CanonicalCons(Interval(2, 2), []);
    CanonicalCons(Interval(0, 0), [Interval(2, 2)]);
    CanonOf(TWO_RUNS, {0, 2});
    FirstChunkOfRun({0, 2}, HEAD);
  }

  const CHECK: Work := NewManifestWork(0, 50, 0, 0)

  /** The tables before the manifest is recorded. */
  const CHECKING: Ledger :=
    EMPTY.(runs := [RunRunning], pages := map[PageKey(0, 1) := 0], sessions := map[0 := Session(0, None, false, None)],
           work := [CHECK.(state := Running, attempts := 1)])

  const BEGUN: Ledger := EMPTY.(runs := [RunRunning])

  const LISTED: Ledger :=
    BEGUN.(pages := map[PageKey(0, 1) := 0], sessions := map[0 := Session(0, None, false, None)], work := [CHECK])

  lemma PageLists()
    ensures Apply(BEGUN, Discover(0, 1, 0, [IndexItem(0, None)], 0, 0)) == LISTED
  {
    var found := BEGUN.(pages := map[PageKey(0, 1) := 0]);
    assert [IndexItem(0, None)][..0] == [];
    assert DiscoverItems(found, [IndexItem(0, None)][..0], 0, 0) == found;
    assert DiscoverItems(found, [IndexItem(0, None)], 0, 0) == LISTED;
  }

  lemma CheckIsClaimed()
    ensures Apply(LISTED, Claim(0, 0, 0)) == CHECKING
  {
    assert NextDue(LISTED, 0, 0, 0);
  }

  lemma SetupRuns(t: Ledger)
    requires t == Apply(CHECKING, Complete(0, 0, TWO_RUNS, NoFault, 0))
    ensures Run(EMPTY, SETUP) == t
  {
    var discover := Discover(0, 1, 0, [IndexItem(0, None)], 0, 0);
    RunOne(EMPTY, [], BeginDiscovery);
    RunOne(EMPTY, [] + [BeginDiscovery], discover);
    RunOne(EMPTY, [] + [BeginDiscovery] + [discover], Claim(0, 0, 0));
    RunOne(EMPTY, [] + [BeginDiscovery] + [discover] + [Claim(0, 0, 0)], Complete(0, 0, TWO_RUNS, NoFault, 0));
    assert [] + [BeginDiscovery] == [BeginDiscovery];
    PageLists();
    CheckIsClaimed();
  }

  lemma SetupSticks()
    ensures Stuck(Run(EMPTY, SETUP), 1, 0) && |Run(EMPTY, SETUP).work| == 3 && Run(EMPTY, SETUP).receipts == []
  {
    var t := Apply(CHECKING, Complete(0, 0, TWO_RUNS, NoFault, 0));
    SetupRuns(t);
    CheckSticks(CHECKING, t);
  }

  lemma CheckSticks(s: Ledger, t: Ledger)
    requires s == CHECKING && t == Apply(s, Complete(0, 0, TWO_RUNS, NoFault, 0))
    ensures Stuck(t, 1, 0) && |t.work| == 3 && t.receipts == []
  {
    CheckCompletes(s, t);
    TwoRunsCanonical();
    CheckSchedules(s, t);
  }

  lemma CheckCompletes(s: Ledger, t: Ledger)
    requires s == CHECKING && t == Apply(s, Complete(0, 0, TWO_RUNS, NoFault, 0))
    ensures t == ManifestCompleted(s, 0, 0, TWO_RUNS, 0)
  {
    TwoRunsValid();
  }

  lemma CheckSchedules(s: Ledger, t: Ledger)
    requires s == CHECKING && t == ManifestCompleted(s, 0, 0, TWO_RUNS, 0)
    requires Elems(TWO_RUNS) == {0, 2} && Canon(Elems(TWO_RUNS)) == TWO_RUNS
    requires FirstChunk({0, 2}, CHUNK_SIZE) == Some(HEAD)
    ensures Stuck(t, 1, 0) && |t.work| == 3 && t.receipts == []
  {
    assert Wanted(s.archive, 0, TWO_RUNS) == {0, 2};
    var done := CHECK.(state := Done, attempts := 1);
    var sample := NewRangeWork(SampleWork, MANIFEST, HEAD, 60, 0, 0);
    var recheck := NewManifestWork(0, 150, MANIFEST_RECHECK_US, 0);
    assert ManifestFollowUp(s.archive, MANIFEST, TWO_RUNS, None, 0) == Some(sample);
    assert s.work[0 := s.work[0].(state := Done)] == [done];
    ThreeUnits(done, sample, recheck);
    assert t.work == [done, sample, recheck];
  }

  lemma ThreeUnits(done: Work, sample: Work, recheck: Work)
    requires done.state == Done && sample.kind == SampleWork && recheck.kind == ManifestWork
    ensures Enqueue(Enqueue([done], sample), recheck) == [done, sample, recheck]
  {
  }

  lemma TwoRunsValid()
    ensures M.ValidRows(M.Normalized(TWO_RUNS))
  {
    TwoRunsCanonical();
    M.NormalizedFacts(TWO_RUNS);
  }

  predicate StuckAfter(s: Ledger, n: nat) {
    Stuck(s, Open(n), DueAt(n)) && |s.work| == n + 3 && |s.receipts| == n
  }

  lemma NextStuck(n: nat, before: Ledger, s: Ledger)
    requires Inv(before) && StuckAfter(before, n)
    requires s == Apply(Apply(before, Claim(0, Open(n), DueAt(n))), Commit(Open(n), [], NoFault, DueAt(n)))
    ensures StuckAfter(s, n + 1)
  {
    OneEmptyAnswer(before, Open(n), DueAt(n), s, Open(n + 1), DueAt(n + 1));
  }

  lemma AnswersNext(s: Ledger, n: nat)
    ensures Run(s, EmptyAnswers(n + 1))
         == Apply(Apply(Run(s, EmptyAnswers(n)), Claim(0, Open(n), DueAt(n))), Commit(Open(n), [], NoFault, DueAt(n)))
  {
    RunOne(s, EmptyAnswers(n), Claim(0, Open(n), DueAt(n)));
    RunOne(s, EmptyAnswers(n) + [Claim(0, Open(n), DueAt(n))], Commit(Open(n), [], NoFault, DueAt(n)));
  }

  lemma {:induction false} StaysStuck(s: Ledger, n: nat)
    requires Inv(s) && StuckAfter(s, 0)
    ensures StuckAfter(Run(s, EmptyAnswers(n)), n)
    decreases n
  {
    if n > 0 {
      StaysStuck(s, n - 1);
      RunAdvances(s, EmptyAnswers(n - 1));
      AnswersNext(s, n - 1);
      NextStuck(n - 1, Run(s, EmptyAnswers(n - 1)), Run(s, EmptyAnswers(n)));
    }
  }

  /** A concrete run, of any length, from the empty archive: after n commits of empty answers
      both numbers of a manifest of two runs are still uncovered, and the open unit asks for the
      first run again. */
  lemma EmptyAnswersStall(n: nat)
    ensures var s := Run(Run(EMPTY, SETUP), EmptyAnswers(n));
            && |s.receipts| == n && MANIFEST in s.manifests
            && Wanted(s.archive, 0, s.manifests[MANIFEST]) == {0, 2}
            && Open(n) < |s.work| && s.work[Open(n)].state == Ready && s.work[Open(n)].kind == SampleWork
            && s.work[Open(n)].range == Some(Interval(0, 0))
  {
    ReachableInv(SETUP);
    SetupSticks();
    StallsFrom(Run(EMPTY, SETUP), n, Run(Run(EMPTY, SETUP), EmptyAnswers(n)));
  }

  lemma StallsFrom(start: Ledger, n: nat, s: Ledger)
    requires Inv(start) && StuckAfter(start, 0) && s == Run(start, EmptyAnswers(n))
    ensures StuckAfter(s, n) && MANIFEST in s.manifests && Wanted(s.archive, 0, s.manifests[MANIFEST]) == {0, 2}
  {
    StaysStuck(start, n);
    RunAdvances(start, EmptyAnswers(n));
    TwoRunsCanonical();
    NothingCovered(s);
  }

  lemma NothingCovered(s: Ledger)
    requires ArchiveOk(s.archive) && s.archive.samples == map[]
    ensures Elems(CoverageOf(s.archive, 0)) == {}
  {
    NothingStored(s.archive);
    assert CoverageExact(s.archive, 0);
  }
}
