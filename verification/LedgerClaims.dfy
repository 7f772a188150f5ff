/** Claims and attempts: which unit a claim takes, what an attempt count counts, and what ends
    or repeats an attempt. */
module LedgerClaims {
  import opened Ranges
  import opened Ledger
  import opened LedgerInvariant
  import opened LedgerRuns
  import opened Wrappers
  import M = Models

  // ---- The claim order -------------------------------------------------------------------------

  /** Strictly earlier by priority, then by the time it is due, then by its age. */
  predicate Earlier(a: Work, b: Work) {
    if a.priority != b.priority then a.priority < b.priority
    else if a.notBefore != b.notBefore then a.notBefore < b.notBefore
    else a.createdAt < b.createdAt
  }

  predicate Eligible(s: Ledger, account: AccountId, now: int, j: nat) {
    && j < |s.work| && s.work[j].state == Ready && s.work[j].notBefore <= now
    && s.work[j].session in s.sessions && s.sessions[s.work[j].session].account == account
  }

  /** A claim takes a unit exactly when it is eligible and no eligible unit is earlier, and then
      it counts one attempt and changes nothing else. */
  lemma ClaimTakesFirst(s: Ledger, account: AccountId, choice: nat, now: int, t: Ledger)
    requires t == Apply(s, Claim(account, choice, now))
    ensures t != s <==>
            && Eligible(s, account, now, choice)
            && forall j: nat | Eligible(s, account, now, j) :: !Earlier(s.work[j], s.work[choice])
    ensures t != s ==>
              t == s.(work := s.work[choice := s.work[choice].(state := Running,
                                                               attempts := s.work[choice].attempts + 1)])
  {
    forall j: nat
      ensures Eligible(s, account, now, j) <==> Due(s, account, now, j)
    {
    }
    if NextDue(s, account, now, choice) {
      assert t.work[choice].state == Running;
    }
  }

  /** While any unit is eligible, some claim takes one. */
  lemma {:induction false} SomeUnitIsClaimed(s: Ledger, account: AccountId, now: int, n: nat) returns (choice: nat)
    requires n <= |s.work| && exists j: nat :: j < n && Eligible(s, account, now, j)
    ensures choice < n && Eligible(s, account, now, choice)
    ensures forall j: nat | j < n && Eligible(s, account, now, j) :: !Earlier(s.work[j], s.work[choice])
  {
    if exists j: nat :: j < n - 1 && Eligible(s, account, now, j) {
      choice := SomeUnitIsClaimed(s, account, now, n - 1);
      if Eligible(s, account, now, n - 1) && Earlier(s.work[n - 1], s.work[choice]) {
        choice := n - 1;
      }
    } else {
      choice := n - 1;
    }
  }

  /** So a claim can fail only when no unit is eligible. */
  lemma ClaimSucceedsIff(s: Ledger, account: AccountId, now: int)
    ensures (exists choice: nat :: Apply(s, Claim(account, choice, now)) != s) <==>
            exists j: nat :: Eligible(s, account, now, j)
  {
    if j: nat :| Eligible(s, account, now, j) {
      var choice := SomeUnitIsClaimed(s, account, now, |s.work|);
      ClaimTakesFirst(s, account, choice, now, Apply(s, Claim(account, choice, now)));
    }
    if choice: nat :| Apply(s, Claim(account, choice, now)) != s {
      ClaimTakesFirst(s, account, choice, now, Apply(s, Claim(account, choice, now)));
    }
  }

  // ---- Attempts --------------------------------------------------------------------------------

  /** The step starts an attempt of unit i: it takes it from ready to running. */
  ghost predicate Starts(s: Ledger, step: Step, i: nat) {
    var t := Apply(s, step);
    i < |s.work| && i < |t.work| && s.work[i].state == Ready && t.work[i].state == Running
  }

  /** The number of attempts of unit i that a run starts. */
  ghost function AttemptsStarted(s: Ledger, steps: seq<Step>, i: nat): nat
    decreases |steps|
  {
    if steps == [] then 0
    else
      var earlier := steps[..|steps| - 1];
      AttemptsStarted(s, earlier, i) + if Starts(Run(s, earlier), steps[|steps| - 1], i) then 1 else 0
  }

  /** Nothing was started: counts stay, new units have none, and whatever runs was running. */
  predicate NothingStarted(work: seq<Work>, later: seq<Work>) {
    && |work| <= |later|
    && (forall k | 0 <= k < |work| ::
          later[k].attempts == work[k].attempts && (later[k].state == Running ==> work[k].state == Running))
    && (forall k | |work| <= k < |later| :: later[k].attempts == 0 && later[k].state != Running)
  }

  lemma EnqueueStartsNothing(work: seq<Work>, middle: seq<Work>, w: Work)
    requires NothingStarted(work, middle) && w.attempts == 0 && w.state == Ready
    ensures NothingStarted(work, Enqueue(middle, w))
  {
  }

  lemma {:induction false} DiscoveryStartsNothing(s: Ledger, items: seq<IndexItem>, account: AccountId, now: int)
    ensures NothingStarted(s.work, DiscoverItems(s, items, account, now).work)
    decreases |items|
  {
    if items != [] {
      DiscoveryStartsNothing(s, items[..|items| - 1], account, now);
      EnqueueStartsNothing(s.work, DiscoverItems(s, items[..|items| - 1], account, now).work,
                           NewManifestWork(items[|items| - 1].session, 50, now, now));
    }
  }

  lemma CompletionStartsNothing(s: Ledger, i: nat, metadata: int, ranges: seq<Interval>, now: int)
    requires i < |s.work| && s.work[i].session in s.sessions
    ensures NothingStarted(s.work, ManifestCompleted(s, i, metadata, ranges, now).work)
  {
    var t := ManifestCompleted(s, i, metadata, ranges, now);
    var mid := ManifestId(s.work[i].session, metadata);
    var next := ManifestFollowUp(s.archive, mid, t.manifests[mid], s.sessions[mid.session].lastAudit, now);
    var finished := s.work[i := s.work[i].(state := Done)];
    if next.Some? {
      EnqueueStartsNothing(s.work, finished, next.value);
    }
    EnqueueStartsNothing(s.work, EnqueueSome(finished, next),
                         NewManifestWork(mid.session, 150, now + MANIFEST_RECHECK_US, now));
  }

  lemma CommitStartsNothing(s: Ledger, i: nat, rows: seq<M.SampleRow>, now: int)
    requires RangeUnit(s, i)
    ensures NothingStarted(s.work, SamplesCommitted(s, i, rows, now).work)
  {
    var t, w := SamplesCommitted(s, i, rows, now), s.work[i];
    var next := CommitFollowUp(t.archive, w.kind, w.manifest.value, w.range.value, s.manifests[w.manifest.value], now);
    if next.Some? {
      EnqueueStartsNothing(s.work, s.work[i := w.(state := Done)], next.value);
    }
  }

  /** Only a claim starts an attempt. */
  lemma OthersStartNothing(s: Ledger, step: Step, t: Ledger)
    requires t == Apply(s, step) && !step.Claim?
    ensures NothingStarted(s.work, t.work)
  {
    if step.Discover? {
      DiscoveryStartsNothing(s.(pages := s.pages[PageKey(step.run, step.page) := step.digest]), step.items,
                             step.account, step.now);
    } else if step.Complete? && t != s {
      CompleteDone(s, step);
      CompletionStartsNothing(s, step.unit, step.metadata, step.ranges, step.now);
    } else if step.Commit? && t != s {
      CommitDone(s, step);
      CommitStartsNothing(s, step.unit, step.rows, step.now);
    }
  }

  lemma StepAttempts(s: Ledger, step: Step, t: Ledger, i: nat)
    requires t == Apply(s, step)
    ensures |s.work| <= |t.work|
    ensures i < |s.work| ==> t.work[i].attempts == s.work[i].attempts + if Starts(s, step, i) then 1 else 0
    ensures |s.work| <= i < |t.work| ==> t.work[i].attempts == 0
  {
    if !step.Claim? {
      OthersStartNothing(s, step, t);
    }
  }

  /** In every reachable state a unit's attempt count is the number of times it was taken from
      ready to running. */
  lemma {:induction false} AttemptsAreStarts(s: Ledger, steps: seq<Step>, i: nat)
    requires s == EMPTY
    ensures var t := Run(s, steps);
            AttemptsStarted(s, steps, i) == if i < |t.work| then t.work[i].attempts else 0
    decreases |steps|
  {
    if steps != [] {
      var earlier := steps[..|steps| - 1];
      AttemptsAreStarts(s, earlier, i);
      StepAttempts(Run(s, earlier), steps[|steps| - 1], Run(s, steps), i);
    }
  }

  /** A reported failure ends a unit that is not done exactly when eight or more attempts of it
      were started; otherwise the unit waits, from now on or after the delay. */
  lemma EighthFailureEnds(s: Ledger, steps: seq<Step>, i: nat, delay: int, now: int, t: Ledger, u: Ledger)
    requires s == EMPTY && t == Run(s, steps) && u == Apply(t, Fail(i, delay, now))
    requires i < |t.work| && t.work[i].state != Done
    ensures |u.work| == |t.work|
    ensures u.work[i].state == if AttemptsStarted(s, steps, i) >= 8 then Failed else Ready
    ensures u.work[i].notBefore == now + if delay > 0 then delay else 0
    ensures u == t.(work := t.work[i := t.work[i].(state := u.work[i].state, notBefore := u.work[i].notBefore)])
  {
    AttemptsAreStarts(s, steps, i);
  }

  /** A failure reported for a done unit, or for no unit, changes nothing. */
  lemma LateFailureIsIgnored(t: Ledger, i: nat, delay: int, now: int)
    requires i < |t.work| ==> t.work[i].state == Done
    ensures Apply(t, Fail(i, delay, now)) == t
  {
  }

  /** After a restart nothing runs: what ran waits from now on, a running discovery is partial,
      and the attempts that were started still count. */
  lemma RestartFreesUnits(s: Ledger, now: int, t: Ledger, i: nat)
    requires t == Apply(s, Interrupt(now)) && i < |s.work|
    ensures |t.work| == |s.work| && t == s.(work := t.work, runs := t.runs)
    ensures s.work[i].state == Running ==> t.work[i] == s.work[i].(state := Ready, notBefore := now)
    ensures s.work[i].state != Running ==> t.work[i] == s.work[i]
    ensures |t.runs| == |s.runs|
    ensures forall r | 0 <= r < |t.runs| ::
              t.runs[r] != RunRunning && (s.runs[r] != RunRunning ==> t.runs[r] == s.runs[r])
    ensures forall r | 0 <= r < |t.runs| && s.runs[r] == RunRunning :: t.runs[r] == RunPartial
  {
  }
}
