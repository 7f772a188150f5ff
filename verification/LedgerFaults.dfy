/** Crashes, lost acknowledgements and retries of one sample or audit unit.

    Whatever mixture of claims, failures, interruption recoveries and commits with the same
    response is applied to a unit, the tables end up either as they were, or as one clean
    commit leaves them. */
module LedgerFaults {
  import opened Ranges
  import opened Coverage
  import opened Ledger
  import opened ArchiveInvariant
  import opened LedgerInvariant
  import opened LedgerRuns
  import opened Wrappers
  import M = Models

  /** A step an attempt at this unit may consist of: any rescheduling of any unit, or a commit
      of this unit with the given response, faulty or not. */
  predicate Attempt(step: Step, i: nat, rows: seq<M.SampleRow>) {
    || step.Claim? || step.Fail? || step.Interrupt?
    || (step.Commit? && step.unit == i && step.rows == rows)
  }

  predicate Attempts(steps: seq<Step>, i: nat, rows: seq<M.SampleRow>) {
    forall k | 0 <= k < |steps| :: Attempt(steps[k], i, rows)
  }

  /** The unit a commit schedules exists, and nobody has finished it. */
  predicate FollowUpWaits(work: seq<Work>, next: Option<Work>) {
    next.Some? ==> exists j | 0 <= j < |work| :: SameKey(next.value, work[j]) && work[j].state != Done
  }

  ghost function NextUnit(c: Ledger, s: Ledger, i: nat, now: int): Option<Work>
    requires RangeUnit(s, i)
  {
    CommitFollowUp(c.archive, s.work[i].kind, s.work[i].manifest.value, s.work[i].range.value,
                   s.manifests[s.work[i].manifest.value], now)
  }

  /** The samples, versions, coverage, gaps, stamps and receipts are those of one clean commit. */
  ghost predicate LikeCommit(s: Ledger, t: Ledger, i: nat, rows: seq<M.SampleRow>, now: int)
    requires RangeUnit(s, i)
  {
    var c := SamplesCommitted(s, i, rows, now);
    && t.archive == c.archive && t.manifests == c.manifests && t.sessions == c.sessions
    && t.receipts == c.receipts && t.pages == c.pages
    && i < |t.work| && t.work[i].state == Done && SameKey(s.work[i], t.work[i])
    && FollowUpWaits(t.work, NextUnit(c, s, i, now))
  }

  /** Either nothing but scheduling happened and the unit is not done, or the unit is done and
      the tables are those of one clean commit at some time. */
  ghost predicate AllOrNothing(s: Ledger, t: Ledger, i: nat, rows: seq<M.SampleRow>)
    requires RangeUnit(s, i)
  {
    || (OnlyRescheduled(s, t) && t.work[i].state != Done)
    || exists now: int :: LikeCommit(s, t, i, rows, now)
  }

  lemma ReschedulesCompose(s: Ledger, t: Ledger, u: Ledger)
    requires OnlyRescheduled(s, t) && OnlyRescheduled(t, u)
    ensures OnlyRescheduled(s, u)
  {
    forall k | 0 <= k < |s.work|
      ensures Rescheduled(s.work[k], u.work[k])
    {
      assert Rescheduled(s.work[k], t.work[k]) && Rescheduled(t.work[k], u.work[k]);
    }
  }

  lemma FollowUpStays(s: Ledger, t: Ledger, next: Option<Work>)
    requires OnlyRescheduled(s, t) && FollowUpWaits(s.work, next)
    ensures FollowUpWaits(t.work, next)
  {
    if next.Some? {
      var j :| 0 <= j < |s.work| && SameKey(next.value, s.work[j]) && s.work[j].state != Done;
      assert Rescheduled(s.work[j], t.work[j]);
      assert SameKey(next.value, t.work[j]);
    }
  }

  /** Rescheduling after a commit leaves the tables like the commit. */
  lemma RescheduledCommit(s: Ledger, t: Ledger, u: Ledger, i: nat, rows: seq<M.SampleRow>, now: int)
    requires RangeUnit(s, i) && LikeCommit(s, t, i, rows, now) && OnlyRescheduled(t, u)
    ensures LikeCommit(s, u, i, rows, now)
  {
    assert Rescheduled(t.work[i], u.work[i]);
    FollowUpStays(t, u, NextUnit(SamplesCommitted(s, i, rows, now), s, i, now));
  }

  lemma EnqueuedWaits(work: seq<Work>, next: Option<Work>)
    requires next.Some? ==> Active(next.value)
    ensures FollowUpWaits(EnqueueSome(work, next), next)
  {
    if next.Some? {
      var out := Enqueue(work, next.value);
      if out == work + [next.value] {
        assert SameKey(next.value, out[|work|]);
      } else {
        var j :| 0 <= j < |work| && Active(work[j]) && SameKey(work[j], next.value);
        assert SameKey(next.value, out[j]);
      }
    }
  }

  /** A commit after rescheduling does what a commit at once would have done. */
  lemma CommitAfterRescheduling(s: Ledger, t: Ledger, i: nat, rows: seq<M.SampleRow>, now: int)
    requires RangeUnit(s, i) && OnlyRescheduled(s, t) && RangeUnit(t, i)
    ensures LikeCommit(s, SamplesCommitted(t, i, rows, now), i, rows, now)
  {
    assert Rescheduled(s.work[i], t.work[i]);
    var u := SamplesCommitted(t, i, rows, now);
    var next := NextUnit(SamplesCommitted(s, i, rows, now), s, i, now);
    EnqueuedWaits(t.work[i := t.work[i].(state := Done)], next);
  }

  lemma {:induction false} FaultsLeaveAllOrNothing(s: Ledger, steps: seq<Step>, i: nat, rows: seq<M.SampleRow>)
    requires Inv(s) && RangeUnit(s, i) && s.work[i].state != Done && Attempts(steps, i, rows)
    ensures Inv(Run(s, steps)) && AllOrNothing(s, Run(s, steps), i, rows)
    ensures RangeUnit(Run(s, steps), i)
    decreases |steps|
  {
    if steps == [] {
      NothingReschedules(s);
    } else {
      var t, step := Run(s, steps[..|steps| - 1]), steps[|steps| - 1];
      FaultsLeaveAllOrNothing(s, steps[..|steps| - 1], i, rows);
      ApplyKeepsInv(t, step);
      assert Attempt(step, i, rows);
      OneAttempt(s, t, step, i, rows);
    }
  }

  lemma StillRangeUnit(s: Ledger, t: Ledger, i: nat)
    requires RangeUnit(s, i) && i < |t.work| && SameKey(s.work[i], t.work[i])
    requires t.manifests == s.manifests && s.sessions.Keys <= t.sessions.Keys
    ensures RangeUnit(t, i)
  {
  }

  lemma OneAttempt(s: Ledger, t: Ledger, step: Step, i: nat, rows: seq<M.SampleRow>)
    requires Inv(t) && RangeUnit(s, i) && RangeUnit(t, i)
    requires AllOrNothing(s, t, i, rows) && Attempt(step, i, rows)
    ensures AllOrNothing(s, Apply(t, step), i, rows) && RangeUnit(Apply(t, step), i)
  {
    if !step.Commit? {
      RescheduleOnce(s, t, step, i, rows, Apply(t, step));
    } else if Apply(t, step) != t {
      CommitDone(t, step);
      CommitOnce(s, t, i, rows, step.now, Apply(t, step));
    }
  }

  lemma RescheduleOnce(s: Ledger, t: Ledger, step: Step, i: nat, rows: seq<M.SampleRow>, u: Ledger)
    requires Inv(t) && RangeUnit(s, i) && RangeUnit(t, i) && AllOrNothing(s, t, i, rows)
    requires (step.Claim? || step.Fail? || step.Interrupt?) && u == Apply(t, step)
    ensures AllOrNothing(s, u, i, rows) && RangeUnit(u, i)
  {
    OthersReschedule(t, step);
    assert Rescheduled(t.work[i], u.work[i]);
    StillRangeUnit(t, u, i);
    if OnlyRescheduled(s, t) && t.work[i].state != Done {
      ReschedulesCompose(s, t, u);
    } else {
      var now: int :| LikeCommit(s, t, i, rows, now);
      RescheduledCommit(s, t, u, i, rows, now);
    }
  }

  lemma CommitOnce(s: Ledger, t: Ledger, i: nat, rows: seq<M.SampleRow>, now: int, u: Ledger)
    requires RangeUnit(s, i) && RangeUnit(t, i) && t.work[i].state != Done
    requires AllOrNothing(s, t, i, rows) && u == SamplesCommitted(t, i, rows, now)
    ensures AllOrNothing(s, u, i, rows) && RangeUnit(u, i)
  {
    CommitAfterRescheduling(s, t, i, rows, now);
    StillRangeUnit(t, u, i);
  }

  /** Once done, the unit has one receipt, and every later commit is answered from it. */
  lemma RepeatedAnswer(s: Ledger, i: nat, r: Receipt, rows: seq<M.SampleRow>, fault: Fault, now: int)
    requires Inv(s) && RangeUnit(s, i) && s.work[i].state == Done
    requires r in s.receipts && r.work == i
    requires s.work[i].range.value.hi - s.work[i].range.value.lo < CHUNK_SIZE
    ensures CommitSamples(s, i, rows, fault, now) == (s, Ok(r.counts))
  {
    assert ReceiptOk(s.receipts, s.work, i);
    OneReceipt(s.receipts, i);
    assert IsLatestReceipt(s.receipts, i, r);
  }

  /** Every commit that is answered at all, in any state the attempts reach, is answered with
      the counts of the one clean commit; and once the unit is done every commit is answered. */
  lemma EveryAnswerIsTheSame(s: Ledger, steps: seq<Step>, i: nat, rows: seq<M.SampleRow>, fault: Fault, now: int)
    requires Inv(s) && RangeUnit(s, i) && s.work[i].state != Done && Attempts(steps, i, rows)
    requires RangeUnit(Run(s, steps), i)
    ensures var answer := CommitSamples(Run(s, steps), i, rows, fault, now).1;
            && (answer.Ok? ==>
                answer.value == CommitCounts(s.archive, s.work[i].manifest.value, s.work[i].range.value, rows))
            && (Run(s, steps).work[i].state == Done ==> answer.Ok?)
  {
    var t := Run(s, steps);
    FaultsLeaveAllOrNothing(s, steps, i, rows);
    AnswerFrom(s, t, i, rows, fault, now);
  }

  lemma AnswerFrom(s: Ledger, t: Ledger, i: nat, rows: seq<M.SampleRow>, fault: Fault, now: int)
    requires Inv(t) && RangeUnit(s, i) && RangeUnit(t, i) && AllOrNothing(s, t, i, rows)
    ensures var answer := CommitSamples(t, i, rows, fault, now).1;
            && (answer.Ok? ==>
                answer.value == CommitCounts(s.archive, s.work[i].manifest.value, s.work[i].range.value, rows))
            && (t.work[i].state == Done ==> answer.Ok?)
  {
    if OnlyRescheduled(s, t) && t.work[i].state != Done {
      FirstAnswer(s, t, i, rows, fault, now);
    } else {
      var at: int :| LikeCommit(s, t, i, rows, at);
      LaterAnswer(s, t, i, rows, fault, now, at);
    }
  }

  lemma FirstAnswer(s: Ledger, t: Ledger, i: nat, rows: seq<M.SampleRow>, fault: Fault, now: int)
    requires RangeUnit(s, i) && RangeUnit(t, i) && OnlyRescheduled(s, t) && t.work[i].state != Done
    ensures var answer := CommitSamples(t, i, rows, fault, now).1;
            answer.Ok? ==>
                answer.value == CommitCounts(s.archive, s.work[i].manifest.value, s.work[i].range.value, rows)
  {
    assert Rescheduled(s.work[i], t.work[i]);
  }

  lemma LaterAnswer(s: Ledger, t: Ledger, i: nat, rows: seq<M.SampleRow>, fault: Fault, now: int, at: int)
    requires Inv(t) && RangeUnit(s, i) && RangeUnit(t, i) && LikeCommit(s, t, i, rows, at)
    ensures CommitSamples(t, i, rows, fault, now).1
         == Ok(CommitCounts(s.archive, s.work[i].manifest.value, s.work[i].range.value, rows))
  {
    assert RowOk(t, t.work[i]);
    var r := SamplesCommitted(s, i, rows, at).receipts[|s.receipts|];
    assert r in t.receipts;
    RepeatedAnswer(t, i, r, rows, fault, now);
  }
}
