/** Which payloads the archive holds: over any run the stored versions are the committed rows,
    a sample is in conflict exactly when two payloads were committed for it, and the counts of
    a commit are numbers of rows of its response. */
module LedgerPayloads {
  import opened Ledger
  import opened Ranges
  import opened ArchiveInvariant
  import opened LedgerInvariant
  import opened LedgerRuns
  import opened Wrappers
  import M = Models

  /** The response brings this payload for this sequence. */
  predicate Brings(rows: seq<M.SampleRow>, sequence: int, hash: int) {
    exists r :: r in rows && r.sequence == sequence && r.hash == hash
  }

  /** A commit stores the session, sequence and payload hash of every row of its response, and
      no other version. */
  lemma StoredVersions(a: Archive, mid: ManifestId, range: Interval, rows: seq<M.SampleRow>, v: VersionId)
    ensures v in Absorbed(a, mid, range, rows).versions <==>
            v in a.versions || exists r :: r in rows && v == VersionId(mid.session, r.sequence, r.hash)
  {
    if r :| r in rows && v == VersionId(mid.session, r.sequence, r.hash) {
      assert v in RowVersions(mid.session, rows);
    }
  }

  // ---- Over whole runs -----------------------------------------------------------------------

  /** The step is a transaction that stores this payload: the first commit of a claimed unit of
      the session, with every row inside the request and no sequence twice. */
  predicate Commits(s: Ledger, step: Step, session: SessionId, sequence: int, hash: int) {
    && step.Commit? && step.fault != BeforeCommit
    && RangeUnit(s, step.unit) && s.work[step.unit].state == Running && s.work[step.unit].session == session
    && Answers(s.work[step.unit].range.value, step.rows)
    && Brings(step.rows, sequence, hash)
  }

  /** A response the writer accepts for a request of at most 1000 sequences. */
  predicate Answers(range: Interval, rows: seq<M.SampleRow>) {
    && range.hi - range.lo < 1000
    && (forall k | 0 <= k < |rows| :: range.lo <= rows[k].sequence <= range.hi)
    && (forall j, k | 0 <= j < k < |rows| :: rows[j].sequence != rows[k].sequence)
  }

  /** Some transaction of the run stored this payload. */
  ghost predicate Committed(s: Ledger, steps: seq<Step>, session: SessionId, sequence: int, hash: int)
    decreases |steps|
  {
    && steps != []
    && var earlier := steps[..|steps| - 1];
       || Committed(s, earlier, session, sequence, hash)
       || Commits(Run(s, earlier), steps[|steps| - 1], session, sequence, hash)
  }

  lemma {:induction false} DiscoveryKeepsArchive(s: Ledger, items: seq<IndexItem>, account: AccountId, now: int)
    ensures DiscoverItems(s, items, account, now).archive == s.archive
    decreases |items|
  {
    if items != [] {
      DiscoveryKeepsArchive(s, items[..|items| - 1], account, now);
    }
  }

  /** Only a commit writes the archive tables. */
  lemma OthersKeepArchive(s: Ledger, step: Step)
    requires !step.Commit?
    ensures Apply(s, step).archive == s.archive
  {
    if step.Discover? {
      DiscoveryKeepsArchive(s.(pages := s.pages[PageKey(step.run, step.page) := step.digest]), step.items,
                            step.account, step.now);
    }
  }

  lemma AnswersAreValid(range: Interval, rows: seq<M.SampleRow>)
    ensures Answers(range, rows) <==> range.hi - range.lo < 1000 && ValidRows(rows, range)
  {
  }

  /** A commit call changes the archive to the absorbed tables when it is an answer to a claimed
      unit, and not at all otherwise. */
  lemma CommitArchive(s: Ledger, i: nat, rows: seq<M.SampleRow>, fault: Fault, now: int)
    requires RangeUnit(s, i)
    ensures var w := s.work[i];
            CommitSamples(s, i, rows, fault, now).0.archive ==
            if w.state == Running && fault != BeforeCommit && Answers(w.range.value, rows)
            then Absorbed(s.archive, w.manifest.value, w.range.value, rows) else s.archive
  {
    AnswersAreValid(s.work[i].range.value, rows);
  }

  lemma StepVersions(s: Ledger, step: Step, t: Ledger, v: VersionId)
    requires t == Apply(s, step)
    ensures v in t.archive.versions <==>
            v in s.archive.versions || Commits(s, step, v.session, v.sequence, v.payload)
  {
    if !step.Commit? {
      OthersKeepArchive(s, step);
    } else if RangeUnit(s, step.unit) {
      var w := s.work[step.unit];
      CommitArchive(s, step.unit, step.rows, step.fault, step.now);
      StoredVersions(s.archive, w.manifest.value, w.range.value, step.rows, v);
      assert Brings(step.rows, v.sequence, v.payload) <==>
             exists r :: r in step.rows && r.sequence == v.sequence && r.hash == v.payload;
    }
  }

  /** Append-only version set, exactly: in every reachable state the stored versions are the
      payloads some transaction of the run committed. */
  lemma {:induction false} VersionsAreCommitted(s: Ledger, steps: seq<Step>, v: VersionId)
    requires s == EMPTY
    ensures v in Run(s, steps).archive.versions <==> Committed(s, steps, v.session, v.sequence, v.payload)
    decreases |steps|
  {
    if steps != [] {
      var earlier := steps[..|steps| - 1];
      VersionsAreCommitted(s, earlier, v);
      StepVersions(Run(s, earlier), steps[|steps| - 1], Run(s, steps), v);
    }
  }

  /** The payload hashes the run committed for one sequence. */
  ghost function Payloads(s: Ledger, steps: seq<Step>, session: SessionId, sequence: int): iset<int> {
    iset h: int | Committed(s, steps, session, sequence, h)
  }

  /** In every reachable state a sequence has a sample exactly when some payload was committed
      for it; the sample is in conflict, with none selected, exactly when two different payloads
      were; and else it selects the one payload that was. */
  lemma ConflictIffTwoPayloads(steps: seq<Step>, s: Ledger, a: Archive, key: SampleKey, payloads: iset<int>)
    requires s == EMPTY && a == Run(s, steps).archive
    requires payloads == Payloads(s, steps, key.session, key.sequence)
    ensures key in a.samples <==> exists h :: h in payloads
    ensures key in a.samples ==>
              && (a.samples[key].conflict <==> exists g, h :: g != h && g in payloads && h in payloads)
              && (a.samples[key].conflict ==> a.samples[key].selected == None)
              && (forall h | !a.samples[key].conflict && h in payloads ::
                    a.samples[key].selected == Some(VersionId(key.session, key.sequence, h)))
  {
    forall h: int
      ensures h in payloads <==> Holds(a, key, h)
    {
      VersionsAreCommitted(s, steps, VersionId(key.session, key.sequence, h));
    }
    ReachableInv(steps);
    SampleFollowsPayloads(a, key, payloads);
  }

  predicate Holds(a: Archive, key: SampleKey, hash: int) {
    VersionId(key.session, key.sequence, hash) in a.versions
  }

  lemma SampleFollowsPayloads(a: Archive, key: SampleKey, held: iset<int>)
    requires SamplesAgree(a) && forall h: int :: h in held <==> Holds(a, key, h)
    ensures key in a.samples <==> exists h :: h in held
    ensures key in a.samples ==>
              && (a.samples[key].conflict <==> exists g, h :: g != h && g in held && h in held)
              && (a.samples[key].conflict ==> a.samples[key].selected == None)
              && (forall h | !a.samples[key].conflict && h in held ::
                    a.samples[key].selected == Some(VersionId(key.session, key.sequence, h)))
  {
    var vs := VersionsOf(a.versions, key);
    forall v: VersionId
      ensures v in vs <==> v == VersionId(key.session, key.sequence, v.payload) && Holds(a, key, v.payload)
    {
    }
    if key in a.samples {
      SomeVersion(vs);
      var v :| v in vs;
      assert v.payload in held;
      PayloadsOf(a, key, vs);
    }
  }

  /** Several versions of one sequence differ in their payloads. */
  lemma PayloadsOf(a: Archive, key: SampleKey, vs: set<VersionId>)
    requires vs == VersionsOf(a.versions, key) && vs != {}
    requires forall v: VersionId ::
               v in vs <==> v == VersionId(key.session, key.sequence, v.payload) && Holds(a, key, v.payload)
    ensures StatusOf(a.versions, key).conflict <==> exists g, h :: g != h && Holds(a, key, g) && Holds(a, key, h)
    ensures StatusOf(a.versions, key).conflict ==> StatusOf(a.versions, key).selected == None
    ensures forall h | !StatusOf(a.versions, key).conflict && Holds(a, key, h) ::
              StatusOf(a.versions, key).selected == Some(VersionId(key.session, key.sequence, h))
  {
    StatusMeaning(a.versions, key);
    if StatusOf(a.versions, key).conflict {
      SomeVersion(vs);
      var u :| u in vs;
      SomeVersion(vs - {u});
      assert vs == {u} ==> |vs| == 1;
      var w :| w in vs && w != u;
      assert u.payload != w.payload && Holds(a, key, u.payload) && Holds(a, key, w.payload);
    } else {
      forall h | Holds(a, key, h)
        ensures StatusOf(a.versions, key).selected == Some(VersionId(key.session, key.sequence, h))
      {
        assert VersionId(key.session, key.sequence, h) in vs;
      }
    }
  }

  // ---- The counts of a commit ------------------------------------------------------------------

  lemma {:induction false} SameSize<T>(xs: set<T>, f: T -> int, ys: set<int>)
    requires forall x | x in xs :: f(x) in ys
    requires forall y | y in ys :: exists x :: x in xs && f(x) == y
    requires forall x, z | x in xs && z in xs && f(x) == f(z) :: x == z
    ensures |xs| == |ys|
  {
    if ys == {} {
      assert forall x :: x !in xs;
      assert xs == {};
    } else {
      SomeElement(ys);
      var y :| y in ys;
      var x :| x in xs && f(x) == y;
      SameSize(xs - {x}, f, ys - {y});
      assert xs == (xs - {x}) + {x} && ys == (ys - {y}) + {y};
    }
  }

  /** Sequences of the response whose payload the archive does not hold yet. */
  ghost function NewSequences(a: Archive, session: SessionId, rows: seq<M.SampleRow>): set<int> {
    set r | r in rows && VersionId(session, r.sequence, r.hash) !in a.versions :: r.sequence
  }

  /** The archive or the response holds this payload for the sequence. */
  predicate Known(a: Archive, session: SessionId, rows: seq<M.SampleRow>, sequence: int, hash: int) {
    VersionId(session, sequence, hash) in a.versions || Brings(rows, sequence, hash)
  }

  ghost predicate TwoKnown(a: Archive, session: SessionId, rows: seq<M.SampleRow>, sequence: int) {
    exists g, h :: g != h && Known(a, session, rows, sequence, g) && Known(a, session, rows, sequence, h)
  }

  /** Sequences of the response for which two different payloads are then known. */
  ghost function ContestedSequences(a: Archive, session: SessionId, rows: seq<M.SampleRow>): set<int> {
    set r | r in rows && TwoKnown(a, session, rows, r.sequence) :: r.sequence
  }

  /** Counts of a commit: `committed` is the number of rows with a payload not held before, and
      `conflicts` the number of rows whose sequence has two payloads, counting what the archive
      held and what the response brings. */
  lemma CountsAreRows(a: Archive, mid: ManifestId, range: Interval, rows: seq<M.SampleRow>)
    requires Answers(range, rows)
    ensures CommitCounts(a, mid, range, rows).committed == |NewSequences(a, mid.session, rows)|
    ensures CommitCounts(a, mid, range, rows).conflicts == |ContestedSequences(a, mid.session, rows)|
  {
    CommittedRows(a, mid.session, rows);
    ConflictRowsCount(Absorbed(a, mid, range, rows), a, mid, range, rows);
  }

  lemma CommittedRows(a: Archive, session: SessionId, rows: seq<M.SampleRow>)
    requires forall j, k | 0 <= j < k < |rows| :: rows[j].sequence != rows[k].sequence
    ensures |RowVersions(session, rows) - a.versions| == |NewSequences(a, session, rows)|
  {
    var added, sequences := RowVersions(session, rows) - a.versions, NewSequences(a, session, rows);
    forall v | v in added
      ensures v.sequence in sequences
    {
      var r :| r in rows && RowVersion(session, r) == v;
      assert r.sequence in sequences;
    }
    forall x | x in sequences
      ensures exists v :: v in added && v.sequence == x
    {
      var r :| r in rows && VersionId(session, r.sequence, r.hash) !in a.versions && r.sequence == x;
      assert RowVersion(session, r) in added;
    }
    SameSize(added, (v: VersionId) => v.sequence, sequences);
  }

  lemma KnownIsHeld(c: Archive, a: Archive, mid: ManifestId, range: Interval, rows: seq<M.SampleRow>, sequence: int,
                    hash: int)
    requires c == Absorbed(a, mid, range, rows)
    ensures Holds(c, SampleKey(mid.session, sequence), hash) <==> Known(a, mid.session, rows, sequence, hash)
  {
    StoredVersions(a, mid, range, rows, VersionId(mid.session, sequence, hash));
  }

  lemma ContestedIffConflict(c: Archive, a: Archive, mid: ManifestId, range: Interval, rows: seq<M.SampleRow>,
                             r: M.SampleRow)
    requires c == Absorbed(a, mid, range, rows) && r in rows
    ensures StatusOf(c.versions, SampleKey(mid.session, r.sequence)).conflict <==>
            TwoKnown(a, mid.session, rows, r.sequence)
  {
    var key := SampleKey(mid.session, r.sequence);
    forall h: int
      ensures Holds(c, key, h) <==> Known(a, mid.session, rows, r.sequence, h)
    {
      KnownIsHeld(c, a, mid, range, rows, r.sequence, h);
    }
    assert VersionId(mid.session, r.sequence, r.hash) in c.versions by {
      StoredVersions(a, mid, range, rows, VersionId(mid.session, r.sequence, r.hash));
    }
    assert VersionId(mid.session, r.sequence, r.hash) in VersionsOf(c.versions, key);
    PayloadsOf(c, key, VersionsOf(c.versions, key));
  }

  lemma ConflictRowsCount(c: Archive, a: Archive, mid: ManifestId, range: Interval, rows: seq<M.SampleRow>)
    requires c == Absorbed(a, mid, range, rows)
    ensures |ConflictRows(c.versions, mid.session, rows)| == |ContestedSequences(a, mid.session, rows)|
  {
    var keys, sequences := ConflictRows(c.versions, mid.session, rows), ContestedSequences(a, mid.session, rows);
    forall r | r in rows
      ensures StatusOf(c.versions, SampleKey(mid.session, r.sequence)).conflict <==>
              TwoKnown(a, mid.session, rows, r.sequence)
    {
      ContestedIffConflict(c, a, mid, range, rows, r);
    }
    forall x | x in sequences
      ensures exists k :: k in keys && k.sequence == x
    {
      assert SampleKey(mid.session, x) in keys;
    }
    SameSize(keys, (k: SampleKey) => k.sequence, sequences);
  }

  // ---- How a commit answers ----------------------------------------------------------------------

  predicate Finished(s: Ledger, i: nat) {
    i < |s.work| && s.work[i].state == Done
  }

  /** A commit of a bounded unit that is not done, by cases: a unit nobody claimed, a response that
      is none for its request, and a fault raise their errors; and the tables change exactly when
      an answer to a claimed unit is not stopped before the transaction ends. */
  lemma CommitAnswers(s: Ledger, i: nat, rows: seq<M.SampleRow>, fault: Fault, now: int, t: Ledger,
                      answer: Result<Counts>)
    requires RangeUnit(s, i) && !Finished(s, i) && s.work[i].range.value.hi - s.work[i].range.value.lo < 1000
    requires (t, answer) == CommitSamples(s, i, rows, fault, now)
    ensures t != s <==> s.work[i].state == Running && Answers(s.work[i].range.value, rows) && fault != BeforeCommit
    ensures s.work[i].state != Running ==> answer == Err(RuntimeError)
    ensures s.work[i].state == Running && !Answers(s.work[i].range.value, rows) ==> answer == Err(ValueError)
    ensures s.work[i].state == Running && Answers(s.work[i].range.value, rows) ==>
              && (fault != NoFault <==> answer == Err(InjectedFault))
              && (fault == NoFault <==> answer.Ok?)
  {
    AnswersAreValid(s.work[i].range.value, rows);
    if s.work[i].state == Running && Answers(s.work[i].range.value, rows) && fault != BeforeCommit {
      assert t == SamplesCommitted(s, i, rows, now);
      assert |t.receipts| == |s.receipts| + 1;
    }
  }
}
