/** Exact conservation of event ordinals through the capture pipeline. */
module CaptureInvariant {
  import opened Capture
  import opened Wrappers
  import opened Sequences

  // ---- Counting records ------------------------------------------------------------------------

  function LossRecs(ls: seq<Loss>): multiset<Rec> {
    if ls == [] then multiset{} else LossRecs(ls[..|ls| - 1]) + multiset{ls[|ls| - 1].rec}
  }

  /** The records that were built with the ordinals issued so far. */
  function Built(issued: seq<Option<Rec>>): multiset<Rec> {
    if issued == [] then multiset{}
    else
      var last := issued[|issued| - 1];
      Built(issued[..|issued| - 1]) + if last.Some? then multiset{last.value} else multiset{}
  }

  /** The record built with an ordinal carries it. */
  predicate Numbered(issued: seq<Option<Rec>>) {
    forall o | 0 <= o < |issued| && issued[o].Some? :: issued[o].value.ordinal == o
  }

  lemma {:induction false} BuiltOnce(issued: seq<Option<Rec>>, r: Rec)
    requires Numbered(issued)
    ensures Built(issued)[r] == if r.ordinal < |issued| && issued[r.ordinal] == Some(r) then 1 else 0
    decreases |issued|
  {
    if issued != [] {
      BuiltOnce(issued[..|issued| - 1], r);
    }
  }

  lemma LossOne(a: seq<Loss>, l: Loss)
    ensures LossRecs(a + [l]) == LossRecs(a) + multiset{l.rec}
  {
    assert (a + [l])[..|a|] == a;
  }

  lemma BuiltOne(issued: seq<Option<Rec>>, r: Option<Rec>)
    ensures Built(issued + [r]) == Built(issued) + if r.Some? then multiset{r.value} else multiset{}
  {
    assert (issued + [r])[..|issued|] == issued;
  }

  lemma Removed(a: seq<Rec>, i: nat)
    requires i < |a|
    ensures multiset(a) == multiset(Remove(a, i)) + multiset{a[i]}
  {
    assert a == a[..i] + [a[i]] + a[i + 1..];
  }

  lemma Split(a: seq<Rec>, n: nat)
    requires n <= |a|
    ensures multiset(a) == multiset(a[..n]) + multiset(a[n..])
  {
    assert a == a[..n] + a[n..];
  }

  // ---- The partition -----------------------------------------------------------------------------

  /** Where records are: committed, in the writer's batch, queued, pending, coalesced away,
      dropped on overflow. */
  function Held(s: Pipeline): multiset<Rec> {
    multiset(s.committed) + multiset(BatchOf(s.phase)) + multiset(s.queue) + multiset(s.pending)
    + multiset(s.coalesced) + LossRecs(s.lost)
  }

  /** Every record built so far is held in exactly one place. */
  predicate Partition(s: Pipeline) {
    |s.issued| == s.ordinal && Numbered(s.issued) && Held(s) == Built(s.issued)
  }

  // ---- Loss accumulators ------------------------------------------------------------------------

  function AllGaps(s: Pipeline): seq<Gap> {
    s.saved + InHand(s.phase) + s.gaps
  }

  function CountIn(lost: seq<Loss>, id: nat): nat {
    if lost == [] then 0 else CountIn(lost[..|lost| - 1], id) + if lost[|lost| - 1].gap == id then 1 else 0
  }

  /** The gap counts its losses, and its interval contains the receipt time of each. */
  predicate GapExact(lost: seq<Loss>, g: Gap) {
    && CountIn(lost, g.id) == g.count && g.count >= 1 && g.first <= g.last
    && forall l | l in lost && l.gap == g.id ::
         g.first <= l.rec.receivedUs <= g.last && LossKeyOf(l.rec) == g.key
  }

  predicate AllExact(lost: seq<Loss>, gaps: seq<Gap>) {
    forall i | 0 <= i < |gaps| :: GapExact(lost, gaps[i])
  }

  predicate DistinctIds(gaps: seq<Gap>) {
    forall i, j | 0 <= i < j < |gaps| :: gaps[i].id != gaps[j].id
  }

  predicate IdsBelow(gaps: seq<Gap>, n: nat) {
    forall i | 0 <= i < |gaps| :: gaps[i].id < n
  }

  predicate HasId(gaps: seq<Gap>, id: nat) {
    exists i | 0 <= i < |gaps| :: gaps[i].id == id
  }

  predicate AllCounted(lost: seq<Loss>, gaps: seq<Gap>) {
    forall l | l in lost :: HasId(gaps, l.gap)
  }

  function TotalCount(gaps: seq<Gap>): nat {
    if gaps == [] then 0 else TotalCount(gaps[..|gaps| - 1]) + gaps[|gaps| - 1].count
  }

  predicate GapsOk(lost: seq<Loss>, gaps: seq<Gap>, nextGap: nat) {
    && AllExact(lost, gaps) && DistinctIds(gaps) && IdsBelow(gaps, nextGap) && AllCounted(lost, gaps)
    && TotalCount(gaps) == |lost|
  }

  lemma CountOne(lost: seq<Loss>, l: Loss, id: nat)
    ensures CountIn(lost + [l], id) == CountIn(lost, id) + if l.gap == id then 1 else 0
  {
    assert (lost + [l])[..|lost|] == lost;
  }

  lemma {:induction false} NoneCounted(lost: seq<Loss>, gaps: seq<Gap>, id: nat)
    requires AllCounted(lost, gaps) && IdsBelow(gaps, id)
    ensures CountIn(lost, id) == 0 && forall l | l in lost :: l.gap != id
    decreases |lost|
  {
    if lost != [] {
      var init := lost[..|lost| - 1];
      assert lost == init + [lost[|lost| - 1]];
      assert lost[|lost| - 1] in lost;
      assert AllCounted(init, gaps);
      NoneCounted(init, gaps, id);
    }
  }

  lemma {:induction false} TotalAppend(a: seq<Gap>, b: seq<Gap>)
    ensures TotalCount(a + b) == TotalCount(a) + TotalCount(b)
    decreases |b|
  {
    if b == [] {
      assert a + b == a;
    } else {
      TotalAppend(a, b[..|b| - 1]);
      assert (a + b)[..|a + b| - 1] == a + b[..|b| - 1];
    }
  }

  lemma TotalOne(a: seq<Gap>, g: Gap)
    ensures TotalCount(a + [g]) == TotalCount(a) + g.count
  {
    assert (a + [g])[..|a|] == a;
  }

  lemma TotalUpdate(a: seq<Gap>, i: nat, g: Gap)
    requires i < |a|
    ensures TotalCount(a[i := g]) == TotalCount(a) - a[i].count + g.count
  {
    var rest := a[i + 1..];
    assert a == a[..i] + [a[i]] + rest && a[i := g] == a[..i] + [g] + rest;
    TotalAppend(a[..i] + [a[i]], rest);
    TotalAppend(a[..i] + [g], rest);
    TotalOne(a[..i], a[i]);
    TotalOne(a[..i], g);
  }

  /** A loss opens a gap of its own. */
  lemma LossOpens(lost: seq<Loss>, gaps: seq<Gap>, nextGap: nat, r: Rec, g: Gap)
    requires GapsOk(lost, gaps, nextGap)
    requires g == Gap(nextGap, LossKeyOf(r), r.receivedUs, r.receivedUs, 1)
    ensures GapsOk(lost + [Loss(r, nextGap)], gaps + [g], nextGap + 1)
  {
    var l, all := Loss(r, nextGap), gaps + [g];
    TotalOne(gaps, g);
    NoneCounted(lost, gaps, nextGap);
    forall i | 0 <= i < |all|
      ensures GapExact(lost + [l], all[i])
    {
      CountOne(lost, l, all[i].id);
      if i < |gaps| { assert GapExact(lost, gaps[i]); }
    }
    forall k | k in lost + [l]
      ensures HasId(all, k.gap)
    {
      if k in lost {
        var i :| 0 <= i < |gaps| && gaps[i].id == k.gap;
        assert all[i].id == k.gap;
      } else {
        assert all[|gaps|].id == k.gap;
      }
    }
  }

  /** A loss joins the i-th gap. */
  lemma LossJoins(lost: seq<Loss>, gaps: seq<Gap>, nextGap: nat, r: Rec, i: nat)
    requires GapsOk(lost, gaps, nextGap) && i < |gaps| && gaps[i].key == LossKeyOf(r)
    ensures GapsOk(lost + [Loss(r, gaps[i].id)], gaps[i := Widened(gaps[i], r.receivedUs)], nextGap)
  {
    var l, all := Loss(r, gaps[i].id), gaps[i := Widened(gaps[i], r.receivedUs)];
    TotalUpdate(gaps, i, Widened(gaps[i], r.receivedUs));
    forall j | 0 <= j < |all|
      ensures GapExact(lost + [l], all[j])
    {
      CountOne(lost, l, all[j].id);
      assert GapExact(lost, gaps[j]);
    }
    forall k | k in lost + [l]
      ensures HasId(all, k.gap)
    {
      if k in lost {
        var j :| 0 <= j < |gaps| && gaps[j].id == k.gap;
        assert all[j].id == k.gap;
      } else {
        assert all[i].id == k.gap;
      }
    }
  }

  // ---- Control ------------------------------------------------------------------------------------

  predicate DistinctKeys(pending: seq<Rec>) {
    forall i, j | 0 <= i < j < |pending| :: pending[i].key != pending[j].key
  }

  function KeySet(pending: seq<Rec>): set<StreamKey> {
    set r | r in pending :: r.key
  }

  /** Timers run exactly for the streams with a pending record; nothing is pending once stopping;
      a returned writer left nothing behind; a waiting writer cannot miss work. */
  predicate Control(s: Pipeline) {
    && s.timers == KeySet(s.pending) && DistinctKeys(s.pending)
    && (s.stopping ==> s.pending == [])
    && |s.queue| <= MAX_QUEUE_ITEMS
    && (s.phase.Committing? ==> 1 <= |s.phase.batch| <= WRITE_BATCH_SIZE)
    && (s.phase.Returned? ==> s.stopping && s.queue == [] && s.gaps == [])
    && (s.phase.Waiting? && !s.event ==> s.queue == [] && s.gaps == [] && !s.stopping)
    && (s.phase.Raised? ==> s.failed)
    && (s.clean ==> s.phase.Returned? && !s.failed)
    && s.coalescedCount == |s.coalesced| && s.dropped == |s.lost| + s.rejected
  }

  predicate Inv(s: Pipeline) {
    && Control(s)
    && (!s.failed ==> Partition(s) && GapsOk(s.lost, AllGaps(s), s.nextGap))
  }

  // ---- Dropping and enqueueing ------------------------------------------------------------------

  /** A drop keeps every gap exact, whatever gaps were taken or saved earlier. */
  lemma NoteKeepsGaps(lost: seq<Loss>, earlier: seq<Gap>, gaps: seq<Gap>, nextGap: nat, r: Rec)
    requires GapsOk(lost, earlier + gaps, nextGap)
    ensures var n := NoteIn(gaps, nextGap, r); GapsOk(lost + [Loss(r, n.id)], earlier + n.gaps, n.nextGap)
  {
    var i := GapIndex(gaps, LossKeyOf(r));
    if i.Some? {
      JoinedLater(lost, earlier, gaps, nextGap, r, i.value);
    } else {
      OpenedLater(lost, earlier, gaps, nextGap, r);
    }
  }

  lemma JoinedLater(lost: seq<Loss>, earlier: seq<Gap>, gaps: seq<Gap>, nextGap: nat, r: Rec, i: nat)
    requires GapsOk(lost, earlier + gaps, nextGap) && i < |gaps| && gaps[i].key == LossKeyOf(r)
    ensures GapsOk(lost + [Loss(r, gaps[i].id)], earlier + gaps[i := Widened(gaps[i], r.receivedUs)], nextGap)
  {
    var w := Widened(gaps[i], r.receivedUs);
    LossJoins(lost, earlier + gaps, nextGap, r, |earlier| + i);
    assert (earlier + gaps)[|earlier| + i := w] == earlier + gaps[i := w];
  }

  lemma OpenedLater(lost: seq<Loss>, earlier: seq<Gap>, gaps: seq<Gap>, nextGap: nat, r: Rec)
    requires GapsOk(lost, earlier + gaps, nextGap)
    ensures GapsOk(lost + [Loss(r, nextGap)],
                   earlier + (gaps + [Gap(nextGap, LossKeyOf(r), r.receivedUs, r.receivedUs, 1)]), nextGap + 1)
  {
    var g := Gap(nextGap, LossKeyOf(r), r.receivedUs, r.receivedUs, 1);
    LossOpens(lost, earlier + gaps, nextGap, r, g);
    assert (earlier + gaps) + [g] == earlier + (gaps + [g]);
  }

  predicate HasRegular(rs: seq<Rec>) {
    exists i | 0 <= i < |rs| :: rs[i].cls == Regular
  }

  /** The position of what a full queue gives up, counting the incoming record as the last. */
  function VictimIndex(queue: seq<Rec>, r: Rec): (i: nat)
    requires queue != []
    ensures i <= |queue|
  {
    var i := FirstRegular(queue);
    if i.Some? then i.value else if r.cls == Regular then |queue| else 0
  }

  /** The class-aware policy: exactly one of the queued records and the incoming one goes, the
      others keep their order; it is the first regular one if there is any, else the oldest. */
  lemma OverflowPolicy(queue: seq<Rec>, r: Rec, victim: Rec, kept: seq<Rec>)
    requires queue != [] && (victim, kept) == Overflow(queue, r)
    ensures var i := VictimIndex(queue, r);
            && victim == (queue + [r])[i] && kept == Remove(queue + [r], i)
            && (forall j | 0 <= j < i :: (queue + [r])[j].cls != Regular)
            && (victim.cls == Regular <==> HasRegular(queue + [r]))
            && (victim.cls != Regular ==> i == 0)
  {
    var all, i := queue + [r], VictimIndex(queue, r);
    assert victim == all[i] && kept == Remove(all, i);
    assert victim.cls != Regular ==> forall j | 0 <= j < |all| :: all[j].cls != Regular;
  }

  lemma OverflowKeepsAll(queue: seq<Rec>, r: Rec, victim: Rec, kept: seq<Rec>)
    requires queue != [] && (victim, kept) == Overflow(queue, r)
    ensures multiset(kept) + multiset{victim} == multiset(queue) + multiset{r}
    ensures |kept| == |queue|
  {
    OverflowPolicy(queue, r, victim, kept);
    Removed(queue + [r], VictimIndex(queue, r));
  }

  /** An issued record that is held nowhere yet is about to be placed. */
  predicate InTransit(s: Pipeline, r: Rec) {
    |s.issued| == s.ordinal && Numbered(s.issued) && Held(s) + multiset{r} == Built(s.issued)
  }

  lemma EnqueueKeepsGaps(s: Pipeline, r: Rec)
    requires GapsOk(s.lost, AllGaps(s), s.nextGap)
    ensures var t := Enqueue(s, r); GapsOk(t.lost, AllGaps(t), t.nextGap)
  {
    if !s.stopping && !s.failed && |s.queue| >= MAX_QUEUE_ITEMS {
      NoteKeepsGaps(s.lost, s.saved + InHand(s.phase), s.gaps, s.nextGap, Overflow(s.queue, r).0);
    }
  }

  lemma QueuedInstead(others: multiset<Rec>, queue: multiset<Rec>, kept: multiset<Rec>, victim: multiset<Rec>,
                      r: multiset<Rec>, rest: multiset<Rec>, lost: multiset<Rec>)
    requires kept + victim == queue + r
    ensures others + kept + rest + (lost + victim) == others + queue + rest + lost + r
  {
    var before, after := others + queue + rest + lost + r, others + kept + rest + (lost + victim);
    forall x: Rec
      ensures after[x] == before[x]
    {
      assert (kept + victim)[x] == (queue + r)[x];
    }
  }

  lemma HeldSplit(s: Pipeline)
    ensures Held(s) == (multiset(s.committed) + multiset(BatchOf(s.phase))) + multiset(s.queue)
                       + (multiset(s.pending) + multiset(s.coalesced)) + LossRecs(s.lost)
  {
  }

  lemma DropKeepsHeld(s: Pipeline, r: Rec, victim: Rec, queue: seq<Rec>, t: Pipeline)
    requires |s.queue| >= MAX_QUEUE_ITEMS && (victim, queue) == Overflow(s.queue, r)
    requires t == NoteDrop(s, victim).(queue := queue, event := t.event)
    ensures Held(t) == Held(s) + multiset{r}
  {
    OverflowKeepsAll(s.queue, r, victim, queue);
    LossOne(s.lost, t.lost[|s.lost|]);
    HeldSplit(s);
    HeldSplit(t);
    QueuedInstead(multiset(s.committed) + multiset(BatchOf(s.phase)), multiset(s.queue), multiset(queue),
                  multiset{victim}, multiset{r}, multiset(s.pending) + multiset(s.coalesced), LossRecs(s.lost));
  }

  lemma EnqueueKeepsPartition(s: Pipeline, r: Rec)
    requires InTransit(s, r) && !s.stopping && !s.failed
    ensures Partition(Enqueue(s, r))
  {
    if |s.queue| >= MAX_QUEUE_ITEMS {
      var (victim, queue) := Overflow(s.queue, r);
      DropKeepsHeld(s, r, victim, queue, Enqueue(s, r));
    }
  }

  lemma EnqueueKeepsControl(s: Pipeline, r: Rec)
    requires Control(s)
    ensures Control(Enqueue(s, r))
  {
    if !s.stopping && !s.failed && |s.queue| >= MAX_QUEUE_ITEMS {
      var (victim, queue) := Overflow(s.queue, r);
      OverflowKeepsAll(s.queue, r, victim, queue);
    }
  }

  /** Enqueueing places the record in transit and keeps everything else. */
  lemma EnqueueKeeps(s: Pipeline, r: Rec)
    requires Control(s) && !s.failed && !s.stopping && InTransit(s, r) && GapsOk(s.lost, AllGaps(s), s.nextGap)
    ensures Inv(Enqueue(s, r))
  {
    EnqueueKeepsControl(s, r);
    EnqueueKeepsPartition(s, r);
    EnqueueKeepsGaps(s, r);
  }

  // ---- Flushing and offering ------------------------------------------------------------------

  lemma FlushedPending(pending: seq<Rec>, i: nat)
    requires DistinctKeys(pending) && i < |pending|
    ensures DistinctKeys(Remove(pending, i)) && KeySet(Remove(pending, i)) == KeySet(pending) - {pending[i].key}
  {
    var rest := Remove(pending, i);
    forall k
      ensures k in KeySet(rest) <==> k in KeySet(pending) - {pending[i].key}
    {
      if k in KeySet(pending) && k != pending[i].key {
        var j :| 0 <= j < |pending| && pending[j].key == k;
        assert rest[if j < i then j else j - 1] == pending[j];
      }
      if k in KeySet(rest) {
        var j :| 0 <= j < |rest| && rest[j].key == k;
        assert rest[j] == pending[if j < i then j else j + 1];
      }
    }
  }

  lemma NotPending(pending: seq<Rec>, key: StreamKey)
    requires PendingIndex(pending, key).None?
    ensures key !in KeySet(pending)
  {
  }

  /** Taking a pending record out puts it in transit. */
  lemma TakenFromPending(s: Pipeline, i: nat, t: Pipeline)
    requires i < |s.pending| && Partition(s)
    requires t == s.(pending := Remove(s.pending, i), timers := t.timers, lastEmitted := t.lastEmitted)
    ensures InTransit(t, s.pending[i])
  {
    Removed(s.pending, i);
    HeldSplit(s);
    HeldSplit(t);
    TakenOut(multiset(s.committed) + multiset(BatchOf(s.phase)) + multiset(s.queue), multiset(s.pending),
             multiset(t.pending), multiset{s.pending[i]}, multiset(s.coalesced), LossRecs(s.lost));
  }

  lemma TakenOut(a: multiset<Rec>, whole: multiset<Rec>, rest: multiset<Rec>, one: multiset<Rec>, b: multiset<Rec>,
                 c: multiset<Rec>)
    requires whole == rest + one
    ensures a + (rest + b) + c + one == a + (whole + b) + c
  {
  }

  lemma FlushKeeps(s: Pipeline, key: StreamKey)
    requires Inv(s)
    ensures Inv(Flush(s, key))
  {
    var i := PendingIndex(s.pending, key);
    if i.None? {
      NotPending(s.pending, key);
      assert s.timers - {key} == s.timers;
    } else {
      FlushSome(s, key, i.value);
    }
  }

  lemma FlushSome(s: Pipeline, key: StreamKey, i: nat)
    requires Inv(s) && PendingIndex(s.pending, key) == Option.Some(i)
    ensures Inv(Flush(s, key))
  {
    var r := s.pending[i];
    var t := s.(timers := s.timers - {key}, pending := Remove(s.pending, i),
                lastEmitted := s.lastEmitted[key := r.monoNs]);
    FlushedPending(s.pending, i);
    assert !s.stopping;
    if s.failed {
      assert Control(t);
    } else {
      TakenFromPending(s, i, t);
      EnqueueKeeps(t, r);
    }
  }

  /** A new record is in transit; a burned ordinal is not held anywhere and need not be. */
  lemma Issued(s: Pipeline, r: Option<Rec>)
    requires Inv(s) && (r.Some? ==> r.value.ordinal == s.ordinal)
    ensures Control(Issue(s, r))
    ensures !s.failed ==> GapsOk(s.lost, AllGaps(Issue(s, r)), s.nextGap)
    ensures !s.failed && r.Some? ==> InTransit(Issue(s, r), r.value)
    ensures !s.failed && r.None? ==> Partition(Issue(s, r))
  {
    if !s.failed {
      IssuedHeld(s, r);
    }
  }

  lemma IssuedHeld(s: Pipeline, r: Option<Rec>)
    requires Partition(s) && (r.Some? ==> r.value.ordinal == s.ordinal)
    ensures r.Some? ==> InTransit(Issue(s, r), r.value)
    ensures r.None? ==> Partition(Issue(s, r))
  {
    BuiltOne(s.issued, r);
    assert Held(Issue(s, r)) == Held(s);
  }

  /** A pending record that is superseded counts as coalesced; the newest one stays pending. */
  lemma Superseded(s: Pipeline, r: Rec, i: nat, t: Pipeline)
    requires i < |s.pending| && InTransit(s, r)
    requires t == s.(pending := s.pending[i := r], coalesced := s.coalesced + [s.pending[i]],
                     coalescedCount := t.coalescedCount, timers := t.timers)
    ensures Partition(t)
  {
    Removed(s.pending, i);
    Removed(t.pending, i);
    assert Remove(s.pending, i) == Remove(t.pending, i);
    HeldSplit(s);
    HeldSplit(t);
    Exchanged(multiset(s.committed) + multiset(BatchOf(s.phase)) + multiset(s.queue), multiset(Remove(s.pending, i)),
              multiset{s.pending[i]}, multiset{r}, multiset(s.coalesced), LossRecs(s.lost));
  }

  lemma Exchanged(a: multiset<Rec>, rest: multiset<Rec>, was: multiset<Rec>, now: multiset<Rec>, b: multiset<Rec>,
                  c: multiset<Rec>)
    ensures a + ((rest + now) + (b + was)) + c == a + ((rest + was) + b) + c + now
  {
  }

  lemma FirstPending(s: Pipeline, r: Rec, t: Pipeline)
    requires InTransit(s, r) && t == s.(pending := s.pending + [r], timers := t.timers)
    ensures Partition(t)
  {
    HeldSplit(s);
    HeldSplit(t);
    TakenOut(multiset(s.committed) + multiset(BatchOf(s.phase)) + multiset(s.queue), multiset(t.pending),
             multiset(s.pending), multiset{r}, multiset(s.coalesced), LossRecs(s.lost));
  }

  lemma OfferKeepsControl(s: Pipeline, r: Rec)
    requires Control(s) && !s.failed && !s.stopping
    ensures Control(Offer(s, r))
  {
    if DueNow(s, r) {
      EnqueueKeepsControl(s.(lastEmitted := s.lastEmitted[r.key := r.monoNs]), r);
    } else {
      var i := PendingIndex(s.pending, r.key);
      if i.Some? {
        KeptPending(s.pending, i.value, r);
      } else {
        assert KeySet(s.pending + [r]) == KeySet(s.pending) + {r.key};
      }
    }
  }

  lemma KeptPending(pending: seq<Rec>, i: nat, r: Rec)
    requires DistinctKeys(pending) && i < |pending| && pending[i].key == r.key
    ensures DistinctKeys(pending[i := r]) && KeySet(pending[i := r]) == KeySet(pending) && r.key in KeySet(pending)
  {
    var next := pending[i := r];
    forall k
      ensures k in KeySet(next) <==> k in KeySet(pending)
    {
      if k in KeySet(pending) {
        var j :| 0 <= j < |pending| && pending[j].key == k;
        assert next[j].key == k;
      }
      if k in KeySet(next) {
        var j :| 0 <= j < |next| && next[j].key == k;
        assert pending[j].key == k;
      }
    }
  }

  lemma HoldBackKeeps(s: Pipeline, r: Rec, t: Pipeline)
    requires InTransit(s, r) && t == HoldBack(s, r)
    ensures Partition(t) && AllGaps(t) == AllGaps(s)
  {
    var i := PendingIndex(s.pending, r.key);
    if i.Some? {
      Superseded(s, r, i.value, t);
    } else {
      assert s.coalesced + [] == s.coalesced;
      FirstPending(s, r, t);
    }
  }

  /** Offering a regular record places it: emitted or held back. */
  lemma OfferKeeps(s: Pipeline, r: Rec)
    requires Control(s) && !s.failed && !s.stopping && InTransit(s, r) && GapsOk(s.lost, AllGaps(s), s.nextGap)
    ensures Inv(Offer(s, r))
  {
    if DueNow(s, r) {
      EnqueueKeeps(s.(lastEmitted := s.lastEmitted[r.key := r.monoNs]), r);
    } else {
      OfferKeepsControl(s, r);
      HoldBackKeeps(s, r, HoldBack(s, r));
    }
  }

  lemma IssueThenDrop(s: Pipeline, issued: Option<Rec>, r: Rec)
    ensures NoteDrop(Issue(s, issued), r) == Issue(NoteDrop(s, r), issued)
  {
  }

  lemma IssueThenEnqueue(s: Pipeline, issued: Option<Rec>, r: Rec)
    ensures Enqueue(Issue(s, issued), r) == Issue(Enqueue(s, r), issued)
    ensures Enqueue(s, r).stopping == s.stopping && Enqueue(s, r).failed == s.failed
             && Enqueue(s, r).ordinal == s.ordinal
  {
    if |s.queue| >= MAX_QUEUE_ITEMS {
      IssueThenDrop(s, issued, Overflow(s.queue, r).0);
    }
  }

  lemma IssueThenEmit(s: Pipeline, issued: Option<Rec>, r: Rec)
    ensures Emit(Issue(s, issued), r) == Issue(Emit(s, r), issued)
    ensures Emit(s, r).stopping == s.stopping && Emit(s, r).failed == s.failed && Emit(s, r).ordinal == s.ordinal
  {
    IssueThenEnqueue(s.(lastEmitted := s.lastEmitted[r.key := r.monoNs]), issued, r);
  }

  lemma IssueThenFlushSome(s: Pipeline, r: Rec, key: StreamKey, i: nat, p: Rec)
    requires PendingIndex(s.pending, key) == Option.Some(i) && p == s.pending[i]
    ensures Flush(Issue(s, Option.Some(r)), key) == Issue(Flush(s, key), Option.Some(r))
    ensures Flush(s, key).stopping == s.stopping && Flush(s, key).failed == s.failed
    ensures Flush(s, key).ordinal == s.ordinal
  {
    IssueThenEmit(s.(timers := s.timers - {key}, pending := Remove(s.pending, i)), Option.Some(r), p);
  }

  /** Flushing a stream does not depend on the ordinal counter. */
  lemma IssueThenFlush(s: Pipeline, r: Rec, key: StreamKey)
    ensures Flush(Issue(s, Option.Some(r)), key) == Issue(Flush(s, key), Option.Some(r))
    ensures Flush(s, key).stopping == s.stopping && Flush(s, key).failed == s.failed
    ensures Flush(s, key).ordinal == s.ordinal
  {
    var i := PendingIndex(s.pending, key);
    if i.Some? {
      IssueThenFlushSome(s, r, key, i.value, s.pending[i.value]);
    }
  }

  lemma SignatureKeeps(s: Pipeline, signatures: map<StreamKey, int>)
    requires Inv(s)
    ensures Inv(s.(signatures := signatures))
  {
    var t := s.(signatures := signatures);
    assert AllGaps(t) == AllGaps(s) && Held(t) == Held(s);
  }

  lemma BurnKeeps(s: Pipeline, t: Pipeline)
    requires Inv(s) && t == Issue(s, Option.None).(dropped := s.dropped + 1, rejected := s.rejected + 1)
    ensures Inv(t)
  {
    Issued(s, Option.None);
    assert AllGaps(t) == AllGaps(s) && Held(t) == Held(s);
  }

  lemma RegularKeeps(s: Pipeline, r: Rec)
    requires Inv(s) && !s.failed && !s.stopping && r.ordinal == s.ordinal
    ensures Inv(Offer(Issue(s, Option.Some(r)), r))
  {
    Issued(s, Option.Some(r));
    OfferKeeps(Issue(s, Option.Some(r)), r);
  }

  lemma RejectKeeps(s: Pipeline, t: Pipeline)
    requires Inv(s) && t == s.(dropped := s.dropped + 1, rejected := s.rejected + 1)
    ensures Inv(t)
  {
    assert AllGaps(t) == AllGaps(s) && Held(t) == Held(s);
  }

  lemma OnBleKeeps(s: Pipeline, key: StreamKey, signature: int, at: Arrival, readable: bool)
    requires Inv(s)
    ensures Inv(OnBle(s, key, signature, at, readable))
  {
    if !s.stopping && !s.failed {
      if readable {
        SignatureKeeps(s, s.signatures[key := signature]);
        ReadableKeeps(s, key, signature, at, s.(signatures := s.signatures[key := signature]));
      } else {
        RejectKeeps(s, OnBle(s, key, signature, at, readable));
      }
    }
  }

  lemma ReadableKeeps(s: Pipeline, key: StreamKey, signature: int, at: Arrival, t: Pipeline)
    requires !s.stopping && !s.failed && t == s.(signatures := s.signatures[key := signature]) && Inv(t)
    ensures Inv(OnBle(s, key, signature, at, true))
  {
    var r := RecordAt(s.ordinal, key, ClassOf(s, key, signature), at);
    if r.None? {
      BurnKeeps(t, OnBle(s, key, signature, at, true));
    } else if ClassOf(s, key, signature) == Regular {
      RegularKeeps(t, r.value);
    } else {
      TransitionKeeps(t, r.value, key);
    }
  }

  /** A transition flushes the stream's pending record before it is enqueued itself. */
  lemma TransitionKeeps(s: Pipeline, r: Rec, key: StreamKey)
    requires Inv(s) && !s.failed && !s.stopping && r.ordinal == s.ordinal
    ensures Inv(Enqueue(Flush(Issue(s, Option.Some(r)), key), r))
  {
    IssueThenFlush(s, r, key);
    FlushKeeps(s, key);
    Issued(Flush(s, key), Option.Some(r));
    EnqueueKeeps(Issue(Flush(s, key), Option.Some(r)), r);
  }

  lemma OnPredictionKeeps(s: Pipeline, serial: int, at: Arrival)
    requires Inv(s)
    ensures Inv(OnPrediction(s, serial, at))
  {
    if !s.stopping && !s.failed {
      var r := RecordAt(s.ordinal, StreamKey(Probe, serial, 0), Prediction, at);
      Issued(s, r);
      if r.Some? { EnqueueKeeps(Issue(s, r), r.value); }
    }
  }

  // ---- Writer and shutdown ----------------------------------------------------------------------

  /** The writer is between two awaits, holding no batch and no gap. */
  predicate EmptyHanded(s: Pipeline) {
    BatchOf(s.phase) == [] && !Ended(s.phase) && !s.phase.Waiting?
  }

  lemma TakeBatchKeepsHeld(s: Pipeline, t: Pipeline)
    requires EmptyHanded(s) && t == TakeBatch(s)
    ensures Held(t) == Held(s)
  {
    var n := if |s.queue| < WRITE_BATCH_SIZE then |s.queue| else WRITE_BATCH_SIZE;
    Split(s.queue, n);
    HeldSplit(s);
    HeldSplit(t);
    BatchTaken(multiset(s.committed), multiset(s.queue), multiset(s.queue[..n]), multiset(s.queue[n..]),
               multiset(s.pending) + multiset(s.coalesced), LossRecs(s.lost));
    assert s.queue[..0] == [];
  }

  lemma BatchTaken(a: multiset<Rec>, whole: multiset<Rec>, batch: multiset<Rec>, rest: multiset<Rec>,
                   b: multiset<Rec>, c: multiset<Rec>)
    requires whole == batch + rest
    ensures (a + batch) + rest + b + c == (a + multiset{}) + whole + b + c
  {
  }

  lemma TakeBatchKeepsControl(s: Pipeline, t: Pipeline)
    requires Control(s) && EmptyHanded(s) && t == TakeBatch(s)
    ensures Control(t) && InHand(t.phase) == []
  {
  }

  /** Taking a batch when the gaps in hand are all saved. */
  lemma TakeBatchKeeps(s: Pipeline, saved: seq<Gap>, t: Pipeline)
    requires Inv(s) && EmptyHanded(s) && t == TakeBatch(s.(saved := saved)) && saved == s.saved + InHand(s.phase)
    ensures Inv(t)
  {
    var u := s.(saved := saved);
    assert Held(u) == Held(s);
    TakeBatchKeepsHeld(u, t);
    TakeBatchKeepsControl(u, t);
    NoneInHand(saved, InHand(t.phase), t.gaps);
  }

  lemma NoneInHand(saved: seq<Gap>, hand: seq<Gap>, gaps: seq<Gap>)
    requires hand == []
    ensures saved + hand + gaps == saved + gaps
  {
  }

  lemma GapsTaken(s: Pipeline, t: Pipeline)
    requires Inv(s) && s.phase == Top && s.gaps != [] && t == s.(phase := SavingGap(s.gaps[0], s.gaps[1..]), gaps := [])
    ensures Inv(t)
  {
    assert [s.gaps[0]] + s.gaps[1..] == s.gaps;
    assert AllGaps(t) == AllGaps(s);
    assert Held(t) == Held(s);
  }

  lemma WriterTopKeeps(s: Pipeline)
    requires Inv(s)
    ensures Inv(WriterTop(s))
  {
    if s.phase == Top {
      if s.queue == [] && s.gaps == [] {
        WriterIdles(s, WriterTop(s));
      } else if s.gaps != [] {
        GapsTaken(s, WriterTop(s));
      } else {
        assert s.saved + InHand(s.phase) == s.saved;
        TakeBatchKeeps(s, s.saved, WriterTop(s));
      }
    }
  }

  lemma WriterIdles(s: Pipeline, t: Pipeline)
    requires Inv(s) && s.phase == Top && s.queue == [] && s.gaps == []
    requires t == if s.stopping then s.(phase := Returned) else s.(phase := Waiting, event := false)
    ensures Inv(t)
  {
    assert AllGaps(t) == AllGaps(s);
  }

  lemma GapSavedKeeps(s: Pipeline)
    requires Inv(s)
    ensures Inv(GapSaved(s))
  {
    if s.phase.SavingGap? {
      if s.phase.rest != [] {
        NextGap(s, s.phase.gap, s.phase.rest, GapSaved(s));
      } else {
        LastGap(s, s.phase.gap, GapSaved(s));
      }
    }
  }

  lemma LastGap(s: Pipeline, g: Gap, t: Pipeline)
    requires Inv(s) && s.phase == SavingGap(g, []) && t == TakeBatch(s.(saved := s.saved + [g]))
    ensures Inv(t)
  {
    assert s.saved + InHand(s.phase) == s.saved + [g];
    TakeBatchKeeps(s, s.saved + [g], t);
  }

  lemma NextGap(s: Pipeline, g: Gap, rest: seq<Gap>, t: Pipeline)
    requires Inv(s) && s.phase == SavingGap(g, rest) && rest != []
    requires t == s.(saved := s.saved + [g], phase := SavingGap(rest[0], rest[1..]))
    ensures Inv(t)
  {
    SamePlaces(s, g, rest, t);
    assert Held(t) == Held(s);
    assert Control(t);
  }

  lemma SamePlaces(s: Pipeline, g: Gap, rest: seq<Gap>, t: Pipeline)
    requires s.phase == SavingGap(g, rest) && rest != []
    requires t == s.(saved := s.saved + [g], phase := SavingGap(rest[0], rest[1..]))
    ensures AllGaps(t) == AllGaps(s)
  {
    assert [rest[0]] + rest[1..] == rest;
  }

  /** A step that only moves control keeps the books. */
  lemma BooksKept(s: Pipeline, t: Pipeline)
    requires Inv(s) && Control(t) && (!t.failed ==> !s.failed)
    requires t == s.(phase := t.phase, event := t.event, failed := t.failed, clean := t.clean)
    requires InHand(t.phase) == InHand(s.phase) && BatchOf(t.phase) == BatchOf(s.phase)
    ensures Inv(t)
  {
    assert AllGaps(t) == AllGaps(s) && Held(t) == Held(s);
  }

  lemma WriterRaisesKeeps(s: Pipeline)
    requires Inv(s)
    ensures Inv(WriterRaises(s))
  {
  }

  lemma WriterCancelledKeeps(s: Pipeline)
    requires Inv(s)
    ensures Inv(WriterCancelled(s))
  {
    if !Ended(s.phase) {
      CancelledControl(s, WriterCancelled(s));
      BooksKept(s, WriterCancelled(s));
    }
  }

  lemma CancelledControl(s: Pipeline, t: Pipeline)
    requires Control(s) && !Ended(s.phase) && t == s.(phase := Cancelled(InHand(s.phase), BatchOf(s.phase)))
    ensures Control(t)
  {
  }

  lemma StopTimesOutKeeps(s: Pipeline)
    requires Inv(s)
    ensures Inv(StopTimesOut(s))
  {
    WriterCancelledKeeps(s);
  }

  lemma StopFinishesKeeps(s: Pipeline)
    requires Inv(s)
    ensures Inv(StopFinishes(s))
  {
    BooksKept(s, StopFinishes(s));
  }

  lemma WakeKeeps(s: Pipeline)
    requires Inv(s)
    ensures Inv(Wake(s))
  {
    BooksKept(s, Wake(s));
  }

  lemma CommittedHeld(s: Pipeline, batch: seq<Rec>, t: Pipeline)
    requires s.phase == Committing(batch) && t == s.(committed := s.committed + batch, phase := Top)
    ensures Held(t) == Held(s) && AllGaps(t) == AllGaps(s)
  {
    assert multiset(t.committed) == multiset(s.committed) + multiset(batch);
  }

  lemma BatchCommittedKeeps(s: Pipeline)
    requires Inv(s)
    ensures Inv(BatchCommitted(s))
  {
    if s.phase.Committing? {
      CommittedHeld(s, s.phase.batch, BatchCommitted(s));
      assert Control(BatchCommitted(s));
    }
  }

  lemma {:induction false} FlushAllKeeps(s: Pipeline)
    requires Inv(s)
    ensures Inv(FlushAll(s)) && FlushAll(s).pending == []
    decreases |s.pending|
  {
    if s.pending != [] {
      FlushKeeps(s, s.pending[0].key);
      FlushKeepsRest(s, s.pending[0].key);
      FlushAllKeeps(Flush(s, s.pending[0].key));
    }
  }

  lemma StopBeginsKeeps(s: Pipeline)
    requires Inv(s)
    ensures Inv(StopBegins(s))
  {
    FlushAllKeeps(s);
  }

  lemma CallbackKeeps(s: Pipeline, e: Event)
    requires Inv(s) && (e.Ble? || e.Predicted? || e.Timer?)
    ensures Inv(Apply(s, e))
  {
    match e
    case Ble(key, signature, at, readable) => OnBleKeeps(s, key, signature, at, readable);
    case Predicted(serial, at) => OnPredictionKeeps(s, serial, at);
    case Timer(key) => FlushKeeps(s, key);
  }

  lemma StopKeeps(s: Pipeline, e: Event)
    requires Inv(s) && (e.BeginStop? || e.TimeOutStop? || e.FinishStop?)
    ensures Inv(Apply(s, e))
  {
    match e
    case BeginStop => StopBeginsKeeps(s);
    case TimeOutStop => StopTimesOutKeeps(s);
    case FinishStop => StopFinishesKeeps(s);
  }

  /** Every callback, timer firing, writer step and shutdown step keeps the invariant. */
  lemma ApplyKeeps(s: Pipeline, e: Event)
    requires Inv(s)
    ensures Inv(Apply(s, e))
  {
    if e.Ble? || e.Predicted? || e.Timer? {
      CallbackKeeps(s, e);
    } else if e.BeginStop? || e.TimeOutStop? || e.FinishStop? {
      StopKeeps(s, e);
    } else {
      WriterKeeps(s, e);
    }
  }

  lemma WriterKeeps(s: Pipeline, e: Event)
    requires Inv(s)
    requires e.RunWriter? || e.WakeWriter? || e.SaveGap? || e.CommitBatch? || e.RaiseInWriter? || e.CancelWriter?
    ensures Inv(Apply(s, e))
  {
    match e
    case RunWriter => WriterTopKeeps(s);
    case WakeWriter => WakeKeeps(s);
    case SaveGap => GapSavedKeeps(s);
    case CommitBatch => BatchCommittedKeeps(s);
    case RaiseInWriter => WriterRaisesKeeps(s);
    case CancelWriter => WriterCancelledKeeps(s);
  }

  lemma {:induction false} ReachableInv(events: seq<Event>)
    ensures Inv(Run(events))
    decreases |events|
  {
    if events != [] {
      ReachableInv(events[..|events| - 1]);
      ApplyKeeps(Run(events[..|events| - 1]), events[|events| - 1]);
    }
  }

  // ---- The claims ----------------------------------------------------------------------------------

  /** In how many places a record is held. */
  function Places(s: Pipeline, r: Rec): nat {
    multiset(s.committed)[r] + multiset(BatchOf(s.phase))[r] + multiset(s.queue)[r] + multiset(s.pending)[r]
    + multiset(s.coalesced)[r] + LossRecs(s.lost)[r]
  }

  /** The record is what its ordinal was issued for. */
  predicate IsIssued(s: Pipeline, r: Rec) {
    r.ordinal < |s.issued| && s.issued[r.ordinal] == Option.Some(r)
  }

  /** While capture has not failed, every ordinal issued was either burned by a failed
      construction or belongs to one record that is in exactly one place: committed, in the
      writer's batch, queued, pending, coalesced away or dropped; and nothing else is anywhere. */
  lemma OrdinalsArePartitioned(events: seq<Event>, r: Rec)
    requires !Run(events).failed
    ensures var s := Run(events);
            && |s.issued| == s.ordinal
            && (forall o | 0 <= o < s.ordinal && s.issued[o].Some? :: s.issued[o].value.ordinal == o)
            && Places(s, r) == if IsIssued(s, r) then 1 else 0
  {
    ReachableInv(events);
    BuiltOnce(Run(events).issued, r);
  }

  /** A run marked clean: nothing is left in flight; every built record is committed,
      coalesced or counted in a saved gap; the saved counts sum to the overflow drops, and each
      saved gap counts exactly its losses, all received within its interval. */
  lemma CleanRunsLoseNothingSilently(events: seq<Event>, r: Rec)
    requires Run(events).clean
    ensures var s := Run(events);
            && s.queue == [] && s.pending == [] && s.timers == {} && s.gaps == [] && InHand(s.phase) == []
                && BatchOf(s.phase) == []
            && multiset(s.committed)[r] + multiset(s.coalesced)[r] + LossRecs(s.lost)[r]
                == (if IsIssued(s, r) then 1 else 0)
            && AllExact(s.lost, s.saved) && DistinctIds(s.saved) && AllCounted(s.lost, s.saved)
            && TotalCount(s.saved) == |s.lost| == s.dropped - s.rejected
  {
    ReachableInv(events);
    OrdinalsArePartitioned(events, r);
    var s := Run(events);
    assert AllGaps(s) == s.saved;
  }

  /** A writer that waits cannot have missed work: what arrives sets its event. */
  lemma NoLostWakeup(events: seq<Event>)
    requires Run(events).phase.Waiting? && !Run(events).event
    ensures Run(events).queue == [] && Run(events).gaps == [] && !Run(events).stopping
  {
    ReachableInv(events);
  }

  // ---- When the six places hold every ordinal ------------------------------------------------------

  /** The six places alone hold every issued ordinal. */
  predicate EveryOrdinalHeld(s: Pipeline) {
    forall o: nat | o < s.ordinal :: HeldOnce(s, o)
  }

  predicate HeldOnce(s: Pipeline, o: nat) {
    o < |s.issued| && s.issued[o].Some? && Places(s, s.issued[o].value) == 1
  }

  /** The event hands a running capture an observation it takes an ordinal for. */
  predicate Accepts(s: Pipeline, e: Event) {
    !s.stopping && !s.failed && (e.Predicted? || (e.Ble? && e.readable))
  }

  /** Every accepted observation's readings are finite. */
  predicate FiniteReadings(events: seq<Event>) {
    events == [] ||
      (FiniteReadings(events[..|events| - 1])
       && (Accepts(Run(events[..|events| - 1]), events[|events| - 1]) ==> FiniteArrival(events[|events| - 1].at)))
  }

  predicate Burns(s: Pipeline, e: Event) {
    Accepts(s, e) && !FiniteArrival(e.at)
  }

  predicate NoneBurned(issued: seq<Option<Rec>>) {
    forall o | 0 <= o < |issued| :: issued[o].Some?
  }

  lemma {:induction false} FlushAllIssuesNothing(s: Pipeline)
    ensures FlushAll(s).issued == s.issued
    decreases |s.pending|
  {
    if s.pending != [] {
      FlushKeepsRest(s, s.pending[0].key);
      FlushAllIssuesNothing(Flush(s, s.pending[0].key));
    }
  }

  /** At most one more ordinal is issued, and it is burned as told. */
  predicate IssuesNext(issued: seq<Option<Rec>>, next: seq<Option<Rec>>, burns: bool) {
    || (next == issued && !burns)
    || (|next| == |issued| + 1 && next == issued + [next[|issued|]] && (burns <==> next[|issued|].None?))
  }

  lemma PlacingIssuesNothing(s: Pipeline, r: Rec, key: StreamKey)
    ensures Enqueue(s, r).issued == s.issued && Offer(s, r).issued == s.issued && Flush(s, key).issued == s.issued
  {
  }

  lemma OnBleIssues(s: Pipeline, e: Event)
    requires e.Ble?
    ensures IssuesNext(s.issued, Apply(s, e).issued, Burns(s, e))
  {
    if Accepts(s, e) {
      var r := RecordAt(s.ordinal, e.key, ClassOf(s, e.key, e.signature), e.at);
      ReadableIssues(s, e.key, e.signature, e.at, r);
      assert Apply(s, e) == OnBle(s, e.key, e.signature, e.at, true);
    }
  }

  lemma ReadableIssues(s: Pipeline, key: StreamKey, signature: int, at: Arrival, r: Option<Rec>)
    requires !s.stopping && !s.failed && r == RecordAt(s.ordinal, key, ClassOf(s, key, signature), at)
    ensures OnBle(s, key, signature, at, true).issued == s.issued + [r]
  {
    if r.Some? {
      var u := Issue(s.(signatures := s.signatures[key := signature]), r);
      PlacingIssuesNothing(u, r.value, key);
      PlacingIssuesNothing(Flush(u, key), r.value, key);
    }
  }

  lemma OnPredictionIssues(s: Pipeline, e: Event)
    requires e.Predicted?
    ensures IssuesNext(s.issued, Apply(s, e).issued, Burns(s, e))
  {
    if Accepts(s, e) {
      var r := RecordAt(s.ordinal, StreamKey(Probe, e.serial, 0), Prediction, e.at);
      if r.Some? { PlacingIssuesNothing(Issue(s, r), r.value, r.value.key); }
    }
  }

  lemma ApplyIssues(s: Pipeline, e: Event)
    ensures IssuesNext(s.issued, Apply(s, e).issued, Burns(s, e))
  {
    if e.Ble? {
      OnBleIssues(s, e);
    } else if e.Predicted? {
      OnPredictionIssues(s, e);
    } else if e.Timer? {
      PlacingIssuesNothing(s, Rec(0, e.key, Regular, 0, 0), e.key);
    } else {
      OthersIssueNothing(s, e);
    }
  }

  lemma BatchIssuesNothing(s: Pipeline)
    ensures TakeBatch(s).issued == s.issued && BatchCommitted(s).issued == s.issued
  {
  }

  lemma WriterTopIssuesNothing(s: Pipeline)
    ensures WriterTop(s).issued == s.issued
  {
    BatchIssuesNothing(s);
  }

  lemma GapSavedIssuesNothing(s: Pipeline)
    ensures GapSaved(s).issued == s.issued
  {
    if s.phase.SavingGap? {
      BatchIssuesNothing(s.(saved := s.saved + [s.phase.gap]));
    }
  }

  lemma WriterEndIssuesNothing(s: Pipeline)
    ensures Wake(s).issued == s.issued && WriterRaises(s).issued == s.issued && WriterCancelled(s).issued == s.issued
  {
  }

  lemma StopIssuesNothing(s: Pipeline)
    ensures StopBegins(s).issued == s.issued && StopTimesOut(s).issued == s.issued && StopFinishes(s).issued == s.issued
  {
    FlushAllIssuesNothing(s);
  }

  lemma OthersIssueNothing(s: Pipeline, e: Event)
    requires !e.Ble? && !e.Predicted? && !e.Timer?
    ensures Apply(s, e).issued == s.issued
  {
    BatchIssuesNothing(s);
    WriterTopIssuesNothing(s);
    GapSavedIssuesNothing(s);
    WriterEndIssuesNothing(s);
    StopIssuesNothing(s);
    match e
    case RunWriter => assert Apply(s, e) == WriterTop(s);
    case WakeWriter => assert Apply(s, e) == Wake(s);
    case SaveGap => assert Apply(s, e) == GapSaved(s);
    case CommitBatch => assert Apply(s, e) == BatchCommitted(s);
    case RaiseInWriter => assert Apply(s, e) == WriterRaises(s);
    case CancelWriter => assert Apply(s, e) == WriterCancelled(s);
    case BeginStop => assert Apply(s, e) == StopBegins(s);
    case TimeOutStop => assert Apply(s, e) == StopTimesOut(s);
    case FinishStop => assert Apply(s, e) == StopFinishes(s);
  }

  lemma {:induction false} BurnedByReadings(events: seq<Event>)
    ensures NoneBurned(Run(events).issued) <==> FiniteReadings(events)
    decreases |events|
  {
    if events != [] {
      var s, e := Run(events[..|events| - 1]), events[|events| - 1];
      BurnedByReadings(events[..|events| - 1]);
      ApplyIssues(s, e);
      BurnedStep(s.issued, Run(events).issued, Burns(s, e));
    }
  }

  lemma BurnedStep(issued: seq<Option<Rec>>, next: seq<Option<Rec>>, burns: bool)
    requires IssuesNext(issued, next, burns)
    ensures NoneBurned(next) <==> NoneBurned(issued) && !burns
  {
    if next != issued && NoneBurned(next) {
      forall o | 0 <= o < |issued|
        ensures issued[o].Some?
      {
        assert next[o] == issued[o];
      }
    }
  }

  /** While capture has not failed, every issued ordinal is in one of the six places exactly
      when every accepted observation came with finite readings. */
  lemma AllHeldIffReadingsFinite(events: seq<Event>)
    requires !Run(events).failed
    ensures EveryOrdinalHeld(Run(events)) <==> FiniteReadings(events)
  {
    var s := Run(events);
    BurnedByReadings(events);
    ReachableInv(events);
    forall o: nat | o < s.ordinal
      ensures HeldOnce(s, o) <==> s.issued[o].Some?
    {
      if s.issued[o].Some? {
        OrdinalsArePartitioned(events, s.issued[o].value);
      }
    }
    if FiniteReadings(events) {
      forall o: nat | o < s.ordinal ensures HeldOnce(s, o) { assert s.issued[o].Some?; }
    }
    if EveryOrdinalHeld(s) {
      forall o: nat | o < |s.issued| ensures s.issued[o].Some? { assert HeldOnce(s, o); }
    }
  }

  predicate AllFinite(events: seq<Event>) {
    forall i | 0 <= i < |events| && (events[i].Ble? || events[i].Predicted?) :: FiniteArrival(events[i].at)
  }

  lemma {:induction false} AllFiniteReadings(events: seq<Event>)
    requires AllFinite(events)
    ensures FiniteReadings(events)
    decreases |events|
  {
    if events != [] {
      AllFiniteReadings(events[..|events| - 1]);
    }
  }

  /** With finite readings the ordinals issued so far are partitioned: each is in exactly one
      place as long as capture has not failed, through any interleaving. */
  lemma FiniteReadingsLoseNothing(events: seq<Event>)
    requires AllFinite(events) && !Run(events).failed
    ensures EveryOrdinalHeld(Run(events))
  {
    AllFiniteReadings(events);
    AllHeldIffReadingsFinite(events);
  }

  /** One observation whose wall-clock reading is not a number: its ordinal is held nowhere. */
  lemma NonFiniteReadingLosesAnOrdinal(key: StreamKey, monotonic: Reading)
    ensures var s := Run([Ble(key, 0, Arrival(NonFinite, monotonic), true)]);
            s.ordinal == 1 && !s.failed && !EveryOrdinalHeld(s) && forall r: Rec :: Places(s, r) == 0
  {
    var events := [Ble(key, 0, Arrival(NonFinite, monotonic), true)];
    assert events[..0] == [];
    assert Run(events[..0]) == IDLE;
    assert !HeldOnce(Run(events), 0);
  }
}
