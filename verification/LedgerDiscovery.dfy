/** Discovery pages and manifest checks that arrive more than once, and what a page records. */
module LedgerDiscovery {
  import opened Ranges
  import opened Ledger
  import opened LedgerInvariant
  import opened LedgerRuns
  import opened Wrappers
  import M = Models

  // ---- What a page records -----------------------------------------------------------------------

  predicate Mentions(items: seq<IndexItem>, session: SessionId) {
    exists k :: 0 <= k < |items| && items[k].session == session
  }

  ghost function Mentioned(items: seq<IndexItem>): set<SessionId> {
    set item | item in items :: item.session
  }

  /** Some item gives the session an index id other than this one. */
  predicate Disagrees(items: seq<IndexItem>, session: SessionId, id: Option<int>) {
    exists k :: 0 <= k < |items| && Disputes(items[k], session, id)
  }

  predicate Disputes(item: IndexItem, session: SessionId, id: Option<int>) {
    item.session == session && item.indexId.Some? && id.Some? && item.indexId != id
  }

  predicate FirstMention(items: seq<IndexItem>, k: int) {
    0 <= k < |items| && forall j | 0 <= j < k :: items[j].session != items[k].session
  }

  /** A page adds exactly the sessions it mentions. A known session keeps its account, its index
      id and its stamp; a new one takes the index id of its first item. An index conflict is
      recorded exactly when one was before or an item disagrees with the id kept. */
  lemma {:induction false} PageRecords(s: Ledger, items: seq<IndexItem>, account: AccountId, now: int, t: Ledger,
                                       x: SessionId)
    requires t == DiscoverItems(s, items, account, now)
    ensures x in t.sessions <==> x in s.sessions || Mentions(items, x)
    ensures x in s.sessions ==>
              t.sessions[x] == s.sessions[x].(indexConflict := s.sessions[x].indexConflict
                                                               || Disagrees(items, x, s.sessions[x].indexId))
    ensures x in t.sessions && x !in s.sessions ==>
              && t.sessions[x].account == account && t.sessions[x].lastAudit == None
              && (forall k | FirstMention(items, k) && items[k].session == x ::
                    t.sessions[x].indexId == items[k].indexId)
              && t.sessions[x].indexConflict == Disagrees(items, x, t.sessions[x].indexId)
    decreases |items|
  {
    if items != [] {
      var init, last := items[..|items| - 1], items[|items| - 1];
      var before := DiscoverItems(s, init, account, now);
      PageRecords(s, init, account, now, before, x);
      LastItem(items, init, last, x);
      assert t.sessions == UpsertSession(before.sessions, last, account);
    }
  }

  /** What holds of some item holds of an earlier one or of the last. */
  lemma LastItem(items: seq<IndexItem>, init: seq<IndexItem>, last: IndexItem, x: SessionId)
    requires items == init + [last]
    ensures Mentions(items, x) <==> Mentions(init, x) || last.session == x
    ensures forall id :: Disagrees(items, x, id) <==> Disagrees(init, x, id) || Disputes(last, x, id)
    ensures forall k | FirstMention(items, k) && k < |init| :: FirstMention(init, k)
    ensures FirstMention(items, |init|) && last.session == x ==> !Mentions(init, x)
  {
    if Mentions(init, x) {
      var k :| 0 <= k < |init| && init[k].session == x;
      assert items[k].session == x;
    }
    if last.session == x {
      assert items[|init|].session == x;
    }
    forall k | FirstMention(items, k) && k < |init|
      ensures FirstMention(init, k)
    {
      forall j | 0 <= j < k
        ensures init[j].session != init[k].session
      {
        assert items[j].session != items[k].session;
      }
    }
    forall id
      ensures Disagrees(items, x, id) <==> Disagrees(init, x, id) || Disputes(last, x, id)
    {
      if Disagrees(init, x, id) {
        var k :| 0 <= k < |init| && Disputes(init[k], x, id);
        assert Disputes(items[k], x, id);
      }
      if Disputes(last, x, id) {
        assert Disputes(items[|init|], x, id);
      }
    }
  }

  predicate NewCheck(w: Work, session: SessionId, now: int) {
    w == Work(ManifestWork, session, None, None, 50, Ready, 0, now, now)
  }

  /** A page schedules a manifest check, due at once, for each session it mentions that has none
      open, and no other work. */
  lemma {:induction false} PageSchedules(s: Ledger, items: seq<IndexItem>, account: AccountId, now: int, t: Ledger,
                                         x: SessionId)
    requires t == DiscoverItems(s, items, account, now)
    ensures s.work <= t.work && t == s.(sessions := t.sessions, work := t.work)
    ensures Mentions(items, x) ==> exists j: nat :: ActiveManifest(t, j, x)
    ensures forall j | |s.work| <= j < |t.work| ::
              NewCheck(t.work[j], t.work[j].session, now) && Mentions(items, t.work[j].session)
    decreases |items|
  {
    if items != [] {
      var init, last := items[..|items| - 1], items[|items| - 1];
      var before := DiscoverItems(s, init, account, now);
      PageSchedules(s, init, account, now, before, x);
      CheckQueued(before, last, now, t, x);
      forall j | |s.work| <= j < |t.work|
        ensures Mentions(items, t.work[j].session)
      {
        LastItem(items, init, last, t.work[j].session);
      }
      LastItem(items, init, last, x);
    }
  }

  lemma CheckQueued(before: Ledger, last: IndexItem, now: int, t: Ledger, x: SessionId)
    requires t.work == Enqueue(before.work, NewManifestWork(last.session, 50, now, now))
    ensures before.work <= t.work
    ensures forall j | |before.work| <= j < |t.work| :: NewCheck(t.work[j], last.session, now)
    ensures last.session == x || (exists j: nat :: ActiveManifest(before, j, x)) ==>
              exists j: nat :: ActiveManifest(t, j, x)
  {
    if j: nat :| ActiveManifest(before, j, x) {
      assert ActiveManifest(t, j, x);
    } else if last.session == x {
      forall j: nat | j < |before.work| && Active(before.work[j])
        ensures !SameKey(before.work[j], NewManifestWork(x, 50, now, now))
      {
        assert !ActiveManifest(before, j, x);
      }
      assert ActiveManifest(t, |before.work|, x);
    }
  }

  // ---- Pages received again ------------------------------------------------------------------------

  predicate Open(s: Ledger, run: nat) {
    run < |s.runs| && s.runs[run] == RunRunning
  }

  /** A page is accepted exactly while its run is open and, if the page was recorded before, with
      the recorded digest. A refused page and a page recorded before change nothing; a new one
      counts the sessions that were not known. */
  lemma PageAnswers(s: Ledger, run: nat, page: int, digest: int, items: seq<IndexItem>, account: AccountId, now: int,
                    t: Ledger, answer: Result<nat>)
    requires (t, answer) == DiscoverPage(s, run, page, digest, items, account, now)
    ensures answer.Ok? <==>
            Open(s, run) && (PageKey(run, page) in s.pages ==> s.pages[PageKey(run, page)] == digest)
    ensures answer.Err? ==> t == s && answer == Err(RuntimeError)
    ensures answer.Ok? && PageKey(run, page) in s.pages ==> t == s && answer == Ok(0)
    ensures answer.Ok? && PageKey(run, page) !in s.pages ==>
              && t.pages == s.pages[PageKey(run, page) := digest]
              && answer == Ok(|Mentioned(items) - s.sessions.Keys|)
  {
    if Open(s, run) && PageKey(run, page) !in s.pages {
      var recorded := s.(pages := s.pages[PageKey(run, page) := digest]);
      PageSchedules(recorded, items, account, now, t, 0);
      forall x: SessionId
        ensures x in t.sessions.Keys - s.sessions.Keys <==> x in Mentioned(items) - s.sessions.Keys
      {
        PageRecords(recorded, items, account, now, t, x);
        MentionedIff(items, x);
      }
      assert t.sessions.Keys - s.sessions.Keys == Mentioned(items) - s.sessions.Keys;
    }
  }

  lemma MentionedIff(items: seq<IndexItem>, x: SessionId)
    ensures x in Mentioned(items) <==> Mentions(items, x)
  {
    if Mentions(items, x) {
      var k :| 0 <= k < |items| && items[k].session == x;
      assert items[k] in items;
    }
  }

  /** A page accepted once is accepted again without effect for as long as its run is open, and
      refused with any other digest, whatever happened in between. */
  lemma {:induction false} PageStays(s: Ledger, steps: seq<Step>, run: nat, page: int)
    requires PageKey(run, page) in s.pages
    ensures PageKey(run, page) in Run(s, steps).pages
    ensures Run(s, steps).pages[PageKey(run, page)] == s.pages[PageKey(run, page)]
    decreases |steps|
  {
    if steps != [] {
      PageStays(s, steps[..|steps| - 1], run, page);
      StepKeepsPage(Run(s, steps[..|steps| - 1]), steps[|steps| - 1], PageKey(run, page));
    }
  }

  lemma StepKeepsPage(s: Ledger, step: Step, key: PageKey)
    requires key in s.pages
    ensures key in Apply(s, step).pages && Apply(s, step).pages[key] == s.pages[key]
  {
    if step.Discover? {
      var recorded := s.(pages := s.pages[PageKey(step.run, step.page) := step.digest]);
      PageSchedules(recorded, step.items, step.account, step.now,
                    DiscoverItems(recorded, step.items, step.account, step.now), 0);
    }
  }

  lemma PageAgain(s: Ledger, run: nat, page: int, digest: int, items: seq<IndexItem>, account: AccountId, now: int,
                  t: Ledger, answer: Result<nat>, steps: seq<Step>, u: Ledger, digest': int, items': seq<IndexItem>,
                  now': int)
    requires (t, answer) == DiscoverPage(s, run, page, digest, items, account, now) && answer.Ok?
    requires u == Run(t, steps)
    ensures DiscoverPage(u, run, page, digest', items', account, now') ==
            (u, if Open(u, run) && digest' == digest then Ok(0) else Err(RuntimeError))
  {
    PageAnswers(s, run, page, digest, items, account, now, t, answer);
    PageStays(t, steps, run, page);
  }

  /** Closing an open run makes it complete or partial, as told, and closing a closed one does
      nothing. */
  lemma RunCloses(s: Ledger, run: nat, complete: bool, t: Ledger)
    requires t == Apply(s, FinishDiscovery(run, complete))
    ensures Open(s, run) ==> t == s.(runs := s.runs[run := if complete then RunComplete else RunPartial])
    ensures !Open(s, run) ==> t == s
  {
  }

  /** A closed run keeps its outcome and takes no page, whatever happens later. */
  lemma {:induction false} ClosedRunStays(s: Ledger, steps: seq<Step>, run: nat)
    requires run < |s.runs| && s.runs[run] != RunRunning
    ensures run < |Run(s, steps).runs| && Run(s, steps).runs[run] == s.runs[run]
    ensures forall page, digest, items, account, now ::
              DiscoverPage(Run(s, steps), run, page, digest, items, account, now)
              == (Run(s, steps), Err(RuntimeError))
    decreases |steps|
  {
    if steps != [] {
      ClosedRunStays(s, steps[..|steps| - 1], run);
      StepKeepsClosed(Run(s, steps[..|steps| - 1]), steps[|steps| - 1], run);
    }
  }

  lemma StepKeepsClosed(s: Ledger, step: Step, run: nat)
    requires run < |s.runs| && s.runs[run] != RunRunning
    ensures run < |Apply(s, step).runs| && Apply(s, step).runs[run] == s.runs[run]
  {
    if step.Discover? {
      PageKeepsRuns(s, step.run, step.page, step.digest, step.items, step.account, step.now);
    } else if step.Interrupt? {
      RestartKeepsClosed(s, step.now, run);
    } else if step.Claim? || step.Fail? {
      assert Apply(s, step).runs == s.runs;
    } else if step.Complete? && Apply(s, step) != s {
      CompleteDone(s, step);
    } else if step.Commit? && Apply(s, step) != s {
      CommitDone(s, step);
    }
  }

  lemma RestartKeepsClosed(s: Ledger, now: int, run: nat)
    requires run < |s.runs| && s.runs[run] != RunRunning
    ensures run < |Recover(s, now).runs| && Recover(s, now).runs[run] == s.runs[run]
  {
  }

  lemma PageKeepsRuns(s: Ledger, run: nat, page: int, digest: int, items: seq<IndexItem>, account: AccountId, now: int)
    ensures DiscoverPage(s, run, page, digest, items, account, now).0.runs == s.runs
  {
    var recorded := s.(pages := s.pages[PageKey(run, page) := digest]);
    PageSchedules(recorded, items, account, now, DiscoverItems(recorded, items, account, now), 0);
  }

  // ---- Manifest checks received again ----------------------------------------------------------------

  /** A manifest is reported changed exactly by the completion that stores it. */
  lemma ChangedOnce(s: Ledger, i: nat, session: SessionId, metadata: int, ranges: seq<Interval>, now: int,
                    record: ManifestRecord, t: Ledger)
    requires i < |s.work| ==> s.work[i].session == session && session in s.sessions
    requires CompleteManifest(s, i, session, metadata, ranges, NoFault, now) == (t, Ok(record))
    ensures record.manifest == ManifestId(session, metadata) && record.manifest in t.manifests
    ensures record.changed <==> record.manifest !in s.manifests
    ensures record.manifest in s.manifests ==> t.manifests[record.manifest] == s.manifests[record.manifest]
  {
  }

  lemma CompletedUnit(s: Ledger, i: nat, session: SessionId, metadata: int, ranges: seq<Interval>, fault: Fault,
                      now: int, t: Ledger)
    requires i < |s.work| && s.work[i].session == session && session in s.sessions
    requires t == CompleteManifest(s, i, session, metadata, ranges, fault, now).0 && t != s
    ensures s.work[i].state == Running && t == ManifestCompleted(s, i, metadata, ranges, now)
    ensures ManifestId(session, metadata) in t.manifests
  {
  }

  lemma CompletedIsDone(s: Ledger, i: nat, metadata: int, ranges: seq<Interval>, now: int)
    requires i < |s.work| && s.work[i].session in s.sessions
    ensures i < |ManifestCompleted(s, i, metadata, ranges, now).work|
    ensures ManifestCompleted(s, i, metadata, ranges, now).work[i].state == Done
  {
  }

  /** A completion that took effect, even one whose acknowledgement was lost, answers every
      repetition with its manifest, unchanged, and without effect, whatever happened since. */
  lemma CompletionAgain(s: Ledger, i: nat, session: SessionId, metadata: int, ranges: seq<Interval>, fault: Fault,
                        now: int, t: Ledger, steps: seq<Step>, u: Ledger, ranges': seq<Interval>, fault': Fault,
                        now': int)
    requires Inv(s) && i < |s.work| && s.work[i].kind == ManifestWork
    requires s.work[i].session == session && session in s.sessions
    requires t == CompleteManifest(s, i, session, metadata, ranges, fault, now).0 && t != s
    requires u == Run(t, steps)
    ensures i < |u.work| && u.work[i].session == session && session in u.sessions
    ensures CompleteManifest(u, i, session, metadata, ranges', fault', now') ==
            (u, Ok(ManifestRecord(ManifestId(session, metadata), false, M.Normalized(ranges'))))
  {
    CompletedUnit(s, i, session, metadata, ranges, fault, now, t);
    CompletedIsDone(s, i, metadata, ranges, now);
    CompletionKeepsInv(s, i, metadata, ranges, now);
    CompletionAdvances(s, i, metadata, ranges, now);
    RunAdvances(t, steps);
    StillDone(s, t, u, i, session, ManifestId(session, metadata));
    DoneAnswers(u, i, session, metadata, ranges', fault', now');
  }

  lemma StillDone(s: Ledger, t: Ledger, u: Ledger, i: nat, session: SessionId, mid: ManifestId)
    requires Advances(s, t) && Advances(t, u)
    requires i < |s.work| && s.work[i].session == session && session in s.sessions
    requires t.work[i].state == Done && mid in t.manifests
    ensures i < |u.work| && u.work[i].session == session && session in u.sessions
    ensures u.work[i].state == Done && mid in u.manifests
  {
    assert UnitAdvances(s.work[i], t.work[i]) && UnitAdvances(t.work[i], u.work[i]);
  }

  lemma DoneAnswers(u: Ledger, i: nat, session: SessionId, metadata: int, ranges: seq<Interval>, fault: Fault, now: int)
    requires i < |u.work| && u.work[i].session == session && session in u.sessions
    requires u.work[i].state == Done && ManifestId(session, metadata) in u.manifests
    ensures CompleteManifest(u, i, session, metadata, ranges, fault, now) ==
            (u, Ok(ManifestRecord(ManifestId(session, metadata), false, M.Normalized(ranges))))
  {
  }

  lemma ManifestStays(s: Ledger, steps: seq<Step>, mid: ManifestId)
    requires Inv(s) && mid in s.manifests
    ensures mid in Run(s, steps).manifests && Run(s, steps).manifests[mid] == s.manifests[mid]
  {
    RunAdvances(s, steps);
  }

  /** Once stored, a manifest never changes, and no later completion reports it as changed. */
  lemma UnchangedAfterwards(s: Ledger, steps: seq<Step>, u: Ledger, i: nat, mid: ManifestId, ranges: seq<Interval>,
                            now: int, record: ManifestRecord, v: Ledger)
    requires Inv(s) && mid in s.manifests && u == Run(s, steps)
    requires i < |u.work| ==> u.work[i].session == mid.session && mid.session in u.sessions
    requires CompleteManifest(u, i, mid.session, mid.metadata, ranges, NoFault, now) == (v, Ok(record))
    ensures record.manifest == mid && !record.changed
    ensures mid in v.manifests && v.manifests[mid] == s.manifests[mid]
  {
    ManifestStays(s, steps, mid);
    ChangedOnce(u, i, mid.session, mid.metadata, ranges, now, record, v);
  }

  /** A completion of a unit that is not done, by cases: a unit nobody claimed and a fault raise
      their errors, and so do new ranges the store refuses; otherwise it takes effect unless it is
      stopped before the transaction ends. */
  lemma CompletionAnswers(s: Ledger, i: nat, session: SessionId, metadata: int, ranges: seq<Interval>, fault: Fault,
                          now: int, t: Ledger, answer: Result<ManifestRecord>)
    requires i < |s.work| && s.work[i].session == session && session in s.sessions && s.work[i].state != Done
    requires (t, answer) == CompleteManifest(s, i, session, metadata, ranges, fault, now)
    ensures var storable := ManifestId(session, metadata) in s.manifests || M.ValidRows(M.Normalized(ranges));
            && (t != s <==> s.work[i].state == Running && storable && fault != BeforeCommit)
            && (s.work[i].state != Running ==> answer == Err(RuntimeError))
            && (s.work[i].state == Running && !storable ==> answer == Err(StorageError))
            && (s.work[i].state == Running && storable ==>
                  (fault != NoFault <==> answer == Err(InjectedFault)) && (fault == NoFault <==> answer.Ok?))
  {
    CompletedIsDone(s, i, metadata, ranges, now);
  }
}
