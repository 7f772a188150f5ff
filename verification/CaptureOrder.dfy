/** Which records may wait, and the order in which the records of a stream are sent.

    Only regular records wait, and the newest of a stream replaces the one before it. A regular
    record that finds its stream due while an older one is still pending is sent before it; the
    records of every stream stay in order exactly as long as that does not happen. */
module CaptureOrder {
  import opened Capture
  import opened CaptureInvariant
  import opened CapturePolicy
  import opened Wrappers
  import opened Sequences

  // ---- Records that wait -------------------------------------------------------------------------

  /** Pending and coalesced records are regular and numbered below n, and a pending record is newer
      than every coalesced one of its stream. */
  predicate WaitingOk(pending: seq<Rec>, coalesced: seq<Rec>, n: nat) {
    && (forall p | p in pending :: p.cls == Regular && p.ordinal < n)
    && (forall c | c in coalesced :: c.cls == Regular && c.ordinal < n)
    && (forall c, p | c in coalesced && p in pending && c.key == p.key :: c.ordinal < p.ordinal)
  }

  /** Committed, being committed, or queued. */
  function Sent(s: Pipeline): seq<Rec> {
    s.committed + BatchOf(s.phase) + s.queue
  }

  /** Two records of one stream, both from its advertisements. */
  predicate Peers(a: Rec, b: Rec) {
    a.key == b.key && a.cls != Prediction && b.cls != Prediction
  }

  /** Numbered below n, and every stream's records in the order they were received. */
  predicate InOrder(sent: seq<Rec>, n: nat) {
    && (forall r | r in sent :: r.ordinal < n)
    && (forall j, k | 0 <= j < k < |sent| && Peers(sent[j], sent[k]) :: sent[j].ordinal < sent[k].ordinal)
  }

  /** Nothing sent is newer than a pending record of its stream. */
  predicate Ahead(sent: seq<Rec>, pending: seq<Rec>) {
    forall q, p | q in sent && p in pending && Peers(q, p) :: q.ordinal < p.ordinal
  }

  predicate Ordered(s: Pipeline) {
    InOrder(Sent(s), s.ordinal) && Ahead(Sent(s), s.pending)
  }

  /** The observation leaves at once although an older record of its stream is still pending. */
  predicate Overtakes(s: Pipeline, e: Event) {
    && e.Ble? && Observes(s, e, e.key) && FiniteArrival(e.at)
    && e.key in s.signatures && s.signatures[e.key] == e.signature
    && e.key in KeySet(s.pending)
    && MayLeave(s, e.key, RecordAt(s.ordinal, e.key, Regular, e.at).value.monoNs)
    && (|s.queue| < 256 || HasRegular(s.queue))
  }

  // ---- Sequences ---------------------------------------------------------------------------------

  lemma OneMore(sent: seq<Rec>, r: Rec, n: nat, pending: seq<Rec>)
    requires InOrder(sent, n) && r.ordinal < n && forall q | q in sent && Peers(q, r) :: q.ordinal < r.ordinal
    ensures InOrder(sent + [r], n)
    ensures Ahead(sent, pending) && (forall p | p in pending && Peers(r, p) :: r.ordinal < p.ordinal) ==>
              Ahead(sent + [r], pending)
  {
  }

  lemma SomeLess(sent: seq<Rec>, a: nat, b: nat, n: nat, pending: seq<Rec>)
    requires a <= b <= |sent|
    ensures InOrder(sent, n) ==> InOrder(sent[..a] + sent[b..], n)
    ensures Ahead(sent, pending) ==> Ahead(sent[..a] + sent[b..], pending)
  {
    var rest := sent[..a] + sent[b..];
    forall j | 0 <= j < |rest|
      ensures rest[j] == sent[if j < a then j else j + (b - a)]
    {
    }
  }

  lemma Sooner(sent: seq<Rec>, n: nat, m: nat)
    requires InOrder(sent, n) && n <= m
    ensures InOrder(sent, m)
  {
  }

  // ---- What each callback does to the order ------------------------------------------------------

  lemma QueueFrame(s: Pipeline, r: Rec, t: Pipeline)
    requires t == Enqueue(s, r)
    ensures t.pending == s.pending && t.coalesced == s.coalesced && t.ordinal == s.ordinal
    ensures t.stopping == s.stopping && t.failed == s.failed
    ensures t.committed == s.committed && t.phase == s.phase
  {
  }

  /** One record of a sequence is missing, or none. */
  predicate Without(all: seq<Rec>, rest: seq<Rec>) {
    rest == all || exists i :: 0 <= i < |all| && rest == all[..i] + all[i + 1..]
  }

  lemma WithoutBehind(base: seq<Rec>, all: seq<Rec>, rest: seq<Rec>, i: nat)
    requires i < |all| && rest == Remove(all, i)
    ensures Without(base + all, base + rest)
  {
    var k := |base| + i;
    assert (base + all)[..k] + (base + all)[k + 1..] == base + rest;
  }

  lemma QueueLoses(s: Pipeline, r: Rec, queue: seq<Rec>)
    requires queue == Enqueue(s, r).queue
    ensures exists i :: 0 <= i <= |s.queue| && (queue == Remove(s.queue + [r], i) || queue == s.queue + [r])
  {
    if s.stopping || s.failed {
      assert Remove(s.queue + [r], |s.queue|) == s.queue;
    } else if |s.queue| >= MAX_QUEUE_ITEMS {
      var (victim, kept) := Overflow(s.queue, r);
      OverflowPolicy(s.queue, r, victim, kept);
    } else {
      assert queue == s.queue + [r] && 0 <= 0 <= |s.queue|;
    }
  }

  lemma SentWithout(s: Pipeline, r: Rec, t: Pipeline)
    requires t == Enqueue(s, r)
    ensures Without(Sent(s) + [r], Sent(t))
  {
    var base := s.committed + BatchOf(s.phase);
    QueueFrame(s, r, t);
    QueueLoses(s, r, t.queue);
    assert Sent(s) + [r] == base + (s.queue + [r]) && Sent(t) == base + t.queue;
    if t.queue != s.queue + [r] {
      var i :| 0 <= i <= |s.queue| && t.queue == Remove(s.queue + [r], i);
      WithoutBehind(base, s.queue + [r], t.queue, i);
    }
  }

  lemma QueueSends(s: Pipeline, r: Rec, t: Pipeline, n: nat, pending: seq<Rec>)
    requires t == Enqueue(s, r)
    requires InOrder(Sent(s) + [r], n) && Ahead(Sent(s) + [r], pending)
    ensures InOrder(Sent(t), n) && Ahead(Sent(t), pending)
  {
    var all := Sent(s) + [r];
    SentWithout(s, r, t);
    if Sent(t) != all {
      var i :| 0 <= i < |all| && Sent(t) == all[..i] + all[i + 1..];
      SomeLess(all, i, i + 1, n, pending);
    }
  }

  /** Sending a record newer than all its peers and older than the pending ones. */
  lemma SendKeepsOrder(s: Pipeline, r: Rec, t: Pipeline)
    requires t == Enqueue(s, r) && InOrder(Sent(s), s.ordinal) && Ahead(Sent(s), s.pending) && r.ordinal < s.ordinal
    requires forall q | q in Sent(s) && Peers(q, r) :: q.ordinal < r.ordinal
    requires forall p | p in s.pending && Peers(r, p) :: r.ordinal < p.ordinal
    ensures Ordered(t)
  {
    OneMore(Sent(s), r, s.ordinal, s.pending);
    QueueFrame(s, r, t);
    QueueSends(s, r, t, s.ordinal, s.pending);
  }

  lemma RemovedOnly(pending: seq<Rec>, i: nat)
    requires DistinctKeys(pending) && i < |pending|
    ensures forall p | p in Remove(pending, i) :: p in pending && p.key != pending[i].key
  {
    var rest := Remove(pending, i);
    forall p | p in rest
      ensures p in pending && p.key != pending[i].key
    {
      var j :| 0 <= j < |rest| && rest[j] == p;
      var k := if j < i then j else j + 1;
      assert pending[k] == p;
    }
  }

  lemma FlushWaits(s: Pipeline, key: StreamKey, t: Pipeline)
    requires t == Flush(s, key) && DistinctKeys(s.pending)
    ensures t.ordinal == s.ordinal && t.stopping == s.stopping && t.failed == s.failed
    ensures t.coalesced == s.coalesced && DistinctKeys(t.pending)
    ensures forall p | p in t.pending :: p in s.pending && p.key != key
  {
    var i := PendingIndex(s.pending, key);
    if i.Some? {
      var p := s.pending[i.value];
      var u := s.(timers := s.timers - {key}, pending := Remove(s.pending, i.value),
                  lastEmitted := s.lastEmitted[p.key := p.monoNs]);
      RemovedOnly(s.pending, i.value);
      FlushedPending(s.pending, i.value);
      QueueFrame(u, p, t);
    }
  }

  lemma FlushKeepsOrder(s: Pipeline, key: StreamKey, t: Pipeline)
    requires t == Flush(s, key) && DistinctKeys(s.pending) && Ordered(s)
    requires WaitingOk(s.pending, s.coalesced, s.ordinal)
    ensures Ordered(t) && WaitingOk(t.pending, t.coalesced, t.ordinal)
  {
    FlushWaits(s, key, t);
    var i := PendingIndex(s.pending, key);
    if i.Some? {
      PendingIsSent(s, key, i.value, s.pending[i.value], t);
    }
  }

  lemma PendingIsSent(s: Pipeline, key: StreamKey, i: nat, p: Rec, t: Pipeline)
    requires PendingIndex(s.pending, key) == Some(i) && p == s.pending[i] && t == Flush(s, key)
    requires DistinctKeys(s.pending) && Ordered(s) && p.cls == Regular && p.ordinal < s.ordinal
    ensures Ordered(t)
  {
    var u := s.(timers := s.timers - {key}, pending := Remove(s.pending, i),
                lastEmitted := s.lastEmitted[p.key := p.monoNs]);
    RemovedOnly(s.pending, i);
    SentBefore(s, i, u);
    SendKeepsOrder(u, p, t);
  }

  lemma SentBefore(s: Pipeline, i: nat, u: Pipeline)
    requires i < |s.pending| && Ordered(s)
    requires u.committed == s.committed && u.phase == s.phase && u.queue == s.queue && u.ordinal == s.ordinal
    requires forall p | p in u.pending :: p in s.pending
    ensures Ordered(u)
    ensures forall q | q in Sent(u) && Peers(q, s.pending[i]) :: q.ordinal < s.pending[i].ordinal
  {
    assert Sent(u) == Sent(s) && s.pending[i] in s.pending;
  }

  lemma {:induction false} FlushAllKeepsOrder(s: Pipeline)
    requires DistinctKeys(s.pending) && Ordered(s) && WaitingOk(s.pending, s.coalesced, s.ordinal)
    ensures Ordered(FlushAll(s)) && FlushAll(s).pending == []
    ensures WaitingOk([], FlushAll(s).coalesced, FlushAll(s).ordinal)
    decreases |s.pending|
  {
    if s.pending != [] {
      var key := s.pending[0].key;
      FlushKeepsRest(s, key);
      FlushWaits(s, key, Flush(s, key));
      FlushKeepsOrder(s, key, Flush(s, key));
      FlushAllKeepsOrder(Flush(s, key));
    }
  }

  /** The newest regular record of a stream takes the place of the pending one. */
  lemma NewestWaits(pending: seq<Rec>, coalesced: seq<Rec>, r: Rec, n: nat, k: Kept)
    requires WaitingOk(pending, coalesced, n) && DistinctKeys(pending)
    requires r.cls == Regular && r.ordinal == n && k == KeepIn(pending, r)
    ensures WaitingOk(k.pending, coalesced + k.superseded, n + 1)
    ensures forall p | p in k.pending :: p == r || (p in pending && p.key != r.key)
  {
    var i := PendingIndex(pending, r.key);
    if i.Some? {
      KeptOthers(pending, r, i.value);
    }
  }

  lemma KeptOthers(pending: seq<Rec>, r: Rec, i: nat)
    requires DistinctKeys(pending) && i < |pending| && pending[i].key == r.key
    ensures forall p | p in pending[i := r] :: p == r || (p in pending && p.key != r.key)
  {
    var later := pending[i := r];
    forall p | p in later
      ensures p == r || (p in pending && p.key != r.key)
    {
      var j :| 0 <= j < |later| && later[j] == p;
      assert j == i || pending[j] == p;
    }
  }

  /** A regular record is queued when the queue has room or a regular record to give up. */
  lemma RegularIsQueued(s: Pipeline, r: Rec, t: Pipeline)
    requires t == Enqueue(s, r) && !s.stopping && !s.failed && r.cls == Regular && |s.queue| <= 256
    ensures |s.queue| < 256 || HasRegular(s.queue) ==> r in t.queue
    ensures !(|s.queue| < 256 || HasRegular(s.queue)) ==> t.queue == s.queue
  {
    if |s.queue| >= MAX_QUEUE_ITEMS {
      var (victim, kept) := Overflow(s.queue, r);
      assert FirstRegular(s.queue).Some? <==> HasRegular(s.queue);
    }
  }

  /** A record just built, in a state with everything else numbered below it. */
  predicate Newest(s: Pipeline, r: Rec) {
    && !s.stopping && !s.failed && s.ordinal == r.ordinal + 1
    && InOrder(Sent(s), r.ordinal) && Ahead(Sent(s), s.pending)
    && WaitingOk(s.pending, s.coalesced, r.ordinal) && DistinctKeys(s.pending) && |s.queue| <= 256
  }

  lemma NotAhead(s: Pipeline, r: Rec, p: Rec)
    requires r in s.queue && p in s.pending && Peers(r, p) && p.ordinal < r.ordinal
    ensures !Ordered(s)
  {
    assert r in Sent(s);
  }

  /** A due record is sent; the order breaks exactly when that overtakes a pending one. */
  lemma EmitOrder(s: Pipeline, r: Rec, t: Pipeline)
    requires Newest(s, r) && r.cls == Regular && t == Emit(s, r)
    ensures Ordered(t) <==> !(r.key in KeySet(s.pending) && (|s.queue| < 256 || HasRegular(s.queue)))
  {
    var u := s.(lastEmitted := s.lastEmitted[r.key := r.monoNs]);
    assert Sent(u) == Sent(s);
    Sooner(Sent(u), r.ordinal, u.ordinal);
    QueueFrame(u, r, t);
    RegularIsQueued(u, r, t);
    if r.key !in KeySet(s.pending) {
      SendKeepsOrder(u, r, t);
    } else if |s.queue| < 256 || HasRegular(s.queue) {
      var p :| p in s.pending && p.key == r.key;
      NotAhead(t, r, p);
    } else {
      assert Sent(t) == Sent(u);
    }
  }

  lemma HoldBackOrder(s: Pipeline, r: Rec, t: Pipeline)
    requires Newest(s, r) && r.cls == Regular && t == HoldBack(s, r)
    ensures Ordered(t)
  {
    NewestWaits(s.pending, s.coalesced, r, r.ordinal, KeepIn(s.pending, r));
    Sooner(Sent(s), r.ordinal, t.ordinal);
    assert Sent(t) == Sent(s);
  }

  lemma OfferOrder(s: Pipeline, r: Rec, t: Pipeline)
    requires Newest(s, r) && r.cls == Regular && t == Offer(s, r)
    ensures Ordered(t) <==> !(&& MayLeave(s, r.key, r.monoNs) && r.key in KeySet(s.pending)
                              && (|s.queue| < 256 || HasRegular(s.queue)))
  {
    if DueNow(s, r) {
      EmitOrder(s, r, t);
    } else {
      HoldBackOrder(s, r, t);
    }
  }

  lemma FlushKeepsNewest(s: Pipeline, r: Rec, t: Pipeline)
    requires Newest(s, r) && t == Flush(s, r.key)
    ensures Ordered(t) && t.ordinal == s.ordinal
    ensures !t.stopping && !t.failed
    ensures forall p | p in t.pending :: p.key != r.key
    ensures InOrder(Sent(t), r.ordinal)
  {
    var u := s.(ordinal := r.ordinal);
    Sooner(Sent(s), r.ordinal, s.ordinal);
    FlushWaits(s, r.key, t);
    FlushKeepsOrder(s, r.key, t);
    assert Sent(u) == Sent(s) && Ordered(u);
    FlushKeepsOrder(u, r.key, Flush(u, r.key));
    FlushIgnoresOrdinal(s, r.key, r.ordinal);
  }

  lemma FlushIgnoresOrdinal(s: Pipeline, key: StreamKey, n: nat)
    ensures Flush(s.(ordinal := n), key) == Flush(s, key).(ordinal := n)
    ensures Sent(Flush(s, key).(ordinal := n)) == Sent(Flush(s, key))
  {
    var i := PendingIndex(s.pending, key);
    if i.Some? {
      var p := s.pending[i.value];
      var u := s.(timers := s.timers - {key}, pending := Remove(s.pending, i.value),
                  lastEmitted := s.lastEmitted[p.key := p.monoNs]);
      QueueIgnoresOrdinal(u, p, n);
    }
  }

  lemma QueueIgnoresOrdinal(s: Pipeline, r: Rec, n: nat)
    ensures Enqueue(s.(ordinal := n), r) == Enqueue(s, r).(ordinal := n)
  {
  }

  lemma TransitionOrder(s: Pipeline, r: Rec, t: Pipeline)
    requires Newest(s, r) && t == Enqueue(Flush(s, r.key), r)
    ensures Ordered(t)
  {
    var u := Flush(s, r.key);
    FlushKeepsNewest(s, r, u);
    QueueFrame(u, r, t);
    SendKeepsOrder(u, r, t);
  }

  lemma PredictionOrder(s: Pipeline, r: Rec, t: Pipeline)
    requires Newest(s, r) && r.cls == Prediction && t == Enqueue(s, r)
    ensures Ordered(t)
  {
    QueueFrame(s, r, t);
    Sooner(Sent(s), r.ordinal, s.ordinal);
    SendKeepsOrder(s, r, t);
  }

  // ---- Every step --------------------------------------------------------------------------------

  /** The records are where the run invariant puts them, in stream order. */
  predicate Tidy(s: Pipeline) {
    Control(s) && WaitingOk(s.pending, s.coalesced, s.ordinal)
  }

  lemma IssuedNewest(s: Pipeline, signatures: map<StreamKey, int>, r: Rec, u: Pipeline)
    requires Tidy(s) && Ordered(s) && !s.stopping && !s.failed && r.ordinal == s.ordinal
    requires u == Issue(s.(signatures := signatures), Some(r))
    ensures Newest(u, r)
  {
    assert Sent(u) == Sent(s);
  }

  lemma SameOrder(s: Pipeline, t: Pipeline)
    requires Tidy(s) && Ordered(s)
    requires t.committed == s.committed && t.phase == s.phase && t.queue == s.queue && t.pending == s.pending
    requires t.coalesced == s.coalesced && s.ordinal <= t.ordinal
    ensures Ordered(t)
  {
    assert Sent(t) == Sent(s);
    Sooner(Sent(s), s.ordinal, t.ordinal);
  }

  lemma TakenOrder(s: Pipeline, e: Event, t: Pipeline)
    requires Tidy(s) && Ordered(s) && e.Ble? && Observes(s, e, e.key) && t == Apply(s, e)
    ensures Ordered(t) <==> !Overtakes(s, e)
  {
    var r := RecordAt(s.ordinal, e.key, ClassOf(s, e.key, e.signature), e.at);
    var u := Issue(s.(signatures := s.signatures[e.key := e.signature]), r);
    if r.None? {
      SameOrder(s, t);
    } else {
      IssuedNewest(s, s.signatures[e.key := e.signature], r.value, u);
      if r.value.cls == Regular {
        assert t == Offer(u, r.value);
        OfferOrder(u, r.value, t);
      } else {
        assert t == Enqueue(Flush(u, e.key), r.value);
        TransitionOrder(u, r.value, t);
      }
    }
  }

  lemma PredictedOrder(s: Pipeline, e: Event, t: Pipeline)
    requires Tidy(s) && Ordered(s) && e.Predicted? && t == Apply(s, e)
    ensures Ordered(t)
  {
    var r := RecordAt(s.ordinal, StreamKey(Probe, e.serial, 0), Prediction, e.at);
    if s.stopping || s.failed || r.None? {
      SameOrder(s, t);
    } else {
      var u := Issue(s, r);
      assert s.(signatures := s.signatures) == s;
      IssuedNewest(s, s.signatures, r.value, u);
      PredictionOrder(u, r.value, t);
    }
  }

  lemma StopOrder(s: Pipeline, t: Pipeline)
    requires Tidy(s) && Ordered(s) && t == StopBegins(s)
    ensures Ordered(t)
  {
    FlushAllKeepsOrder(s);
    assert Sent(t) == Sent(FlushAll(s));
  }

  predicate WriterAwaits(e: Event) {
    e.RunWriter? || e.WakeWriter? || e.SaveGap? || e.CommitBatch? || e.CancelWriter?
  }

  /** The writer sends from the front of the queue in batches and commits them in order; records
      leave that sequence only when a batch cannot be written. */
  lemma WriterSendsInOrder(s: Pipeline, e: Event, t: Pipeline)
    requires WriterAwaits(e) && Control(s) && t == Apply(s, e)
    ensures Sent(t) == Sent(s) && s.committed <= t.committed
    ensures t.pending == s.pending && t.coalesced == s.coalesced && t.ordinal == s.ordinal
  {
    if e.RunWriter? {
      TopSends(s, t);
    } else if e.SaveGap? {
      SaveSends(s, t);
    } else if e.CommitBatch? {
      CommitSends(s, t);
    } else {
      RestSends(s, e, t);
    }
  }

  lemma MovedSends(s: Pipeline, t: Pipeline)
    requires t == s.(phase := t.phase, event := t.event, gaps := t.gaps) && BatchOf(t.phase) == BatchOf(s.phase)
    ensures Sent(t) == Sent(s) && s.committed <= t.committed
    ensures t.pending == s.pending && t.coalesced == s.coalesced && t.ordinal == s.ordinal
  {
  }

  lemma TopMoves(s: Pipeline, t: Pipeline)
    requires t == WriterTop(s) && (s.phase != Top || s.queue == [] || s.gaps != [])
    ensures t == s.(phase := t.phase, event := t.event, gaps := t.gaps)
    ensures BatchOf(t.phase) == BatchOf(s.phase)
  {
  }

  lemma TopSends(s: Pipeline, t: Pipeline)
    requires t == WriterTop(s)
    ensures Sent(t) == Sent(s) && s.committed <= t.committed
    ensures t.pending == s.pending && t.coalesced == s.coalesced && t.ordinal == s.ordinal
  {
    if s.phase != Top || s.queue == [] || s.gaps != [] {
      TopMoves(s, t);
      MovedSends(s, t);
    } else {
      TopTakes(s, t);
    }
  }

  lemma TopTakes(s: Pipeline, t: Pipeline)
    requires t == WriterTop(s) && s.phase == Top && s.queue != [] && s.gaps == []
    ensures Sent(t) == Sent(s) && t.committed == s.committed
    ensures t.pending == s.pending && t.coalesced == s.coalesced && t.ordinal == s.ordinal
  {
    assert t == TakeBatch(s);
    BatchSends(s, t);
  }

  lemma SaveSends(s: Pipeline, t: Pipeline)
    requires t == GapSaved(s)
    ensures Sent(t) == Sent(s) && s.committed <= t.committed
    ensures t.pending == s.pending && t.coalesced == s.coalesced && t.ordinal == s.ordinal
  {
    if s.phase.SavingGap? && s.phase.rest == [] { BatchSends(s.(saved := s.saved + [s.phase.gap]), t); }
  }

  lemma CommitSends(s: Pipeline, t: Pipeline)
    requires t == BatchCommitted(s)
    ensures Sent(t) == Sent(s) && s.committed <= t.committed
    ensures t.pending == s.pending && t.coalesced == s.coalesced && t.ordinal == s.ordinal
  {
  }

  lemma RestSends(s: Pipeline, e: Event, t: Pipeline)
    requires (e.WakeWriter? || e.CancelWriter?) && t == Apply(s, e)
    ensures Sent(t) == Sent(s) && s.committed <= t.committed
    ensures t.pending == s.pending && t.coalesced == s.coalesced && t.ordinal == s.ordinal
  {
  }

  lemma BatchSends(s: Pipeline, t: Pipeline)
    requires BatchOf(s.phase) == [] && t == TakeBatch(s)
    ensures Sent(t) == Sent(s) && t.committed == s.committed
    ensures t.pending == s.pending && t.coalesced == s.coalesced && t.ordinal == s.ordinal
    ensures s.queue != [] ==>
              t.phase.Committing? && s.queue == t.phase.batch + t.queue
              && (|t.phase.batch| == 50 || t.queue == [])
  {
    if s.queue == [] {
      assert s.queue[0..] == [];
    }
  }

  lemma RaiseOrder(s: Pipeline, t: Pipeline)
    requires Tidy(s) && Ordered(s) && t == WriterRaises(s)
    ensures Ordered(t)
  {
    if t != s {
      var a := |s.committed|;
      var b := a + |BatchOf(s.phase)|;
      SomeLess(Sent(s), a, b, s.ordinal, s.pending);
      assert Sent(s)[..a] + Sent(s)[b..] == Sent(t);
    }
  }

  lemma OtherOrder(s: Pipeline, e: Event, t: Pipeline)
    requires Tidy(s) && Ordered(s) && t == Apply(s, e) && !e.Ble? && !e.Predicted?
    ensures Ordered(t)
  {
    match e
    case Timer(key) => FlushKeepsOrder(s, key, Flush(s, key));
    case BeginStop => StopOrder(s, t);
    case TimeOutStop => CancelOrder(s, t);
    case FinishStop => SameOrder(s, t);
    case RaiseInWriter => RaiseOrder(s, t);
    case RunWriter => WriterSendsInOrder(s, e, t);
    case WakeWriter => WriterSendsInOrder(s, e, t);
    case SaveGap => WriterSendsInOrder(s, e, t);
    case CommitBatch => WriterSendsInOrder(s, e, t);
    case CancelWriter => WriterSendsInOrder(s, e, t);
  }

  lemma CancelOrder(s: Pipeline, t: Pipeline)
    requires Tidy(s) && Ordered(s) && t == StopTimesOut(s)
    ensures Ordered(t)
  {
    assert Sent(t) == Sent(s);
  }

  // ---- Whole runs --------------------------------------------------------------------------------

  lemma EmitWaits(s: Pipeline, r: Rec, t: Pipeline)
    requires t == Emit(s, r)
    ensures t.pending == s.pending && t.coalesced == s.coalesced && t.ordinal == s.ordinal
  {
    QueueFrame(s.(lastEmitted := s.lastEmitted[r.key := r.monoNs]), r, t);
  }

  lemma TakenWaits(s: Pipeline, e: Event, t: Pipeline)
    requires Tidy(s) && e.Ble? && Observes(s, e, e.key) && t == Apply(s, e)
    ensures WaitingOk(t.pending, t.coalesced, t.ordinal)
  {
    var r := RecordAt(s.ordinal, e.key, ClassOf(s, e.key, e.signature), e.at);
    var u := Issue(s.(signatures := s.signatures[e.key := e.signature]), r);
    if r.Some? && r.value.cls != Regular {
      assert t == Enqueue(Flush(u, e.key), r.value);
      FlushWaits(u, e.key, Flush(u, e.key));
      QueueFrame(Flush(u, e.key), r.value, t);
    } else if r.Some? {
      assert t == Offer(u, r.value);
      NewestWaits(s.pending, s.coalesced, r.value, s.ordinal, KeepIn(s.pending, r.value));
      EmitWaits(u, r.value, Emit(u, r.value));
    }
  }

  lemma {:induction false} FlushAllWaits(s: Pipeline)
    requires DistinctKeys(s.pending)
    ensures FlushAll(s).pending == [] && FlushAll(s).coalesced == s.coalesced && FlushAll(s).ordinal == s.ordinal
    decreases |s.pending|
  {
    if s.pending != [] {
      FlushKeepsRest(s, s.pending[0].key);
      FlushWaits(s, s.pending[0].key, Flush(s, s.pending[0].key));
      FlushAllWaits(Flush(s, s.pending[0].key));
    }
  }

  lemma PredictedWaits(s: Pipeline, e: Event, t: Pipeline)
    requires Tidy(s) && e.Predicted? && t == Apply(s, e)
    ensures WaitingOk(t.pending, t.coalesced, t.ordinal)
  {
    var r := RecordAt(s.ordinal, StreamKey(Probe, e.serial, 0), Prediction, e.at);
    if r.Some? { QueueFrame(Issue(s, r), r.value, Enqueue(Issue(s, r), r.value)); }
  }

  lemma StepWaits(s: Pipeline, e: Event, t: Pipeline)
    requires Tidy(s) && t == Apply(s, e)
    ensures WaitingOk(t.pending, t.coalesced, t.ordinal)
  {
    if e.Ble? {
      if Observes(s, e, e.key) { TakenWaits(s, e, t); }
    } else if e.Predicted? {
      PredictedWaits(s, e, t);
    } else if e.Timer? {
      FlushWaits(s, e.key, Flush(s, e.key));
    } else if e.BeginStop? {
      FlushAllWaits(s);
    } else if WriterAwaits(e) {
      WriterSendsInOrder(s, e, t);
    }
  }

  /** In every reachable state: only regular records are pending or coalesced, and a pending
      record is newer than every coalesced one of its stream. */
  lemma {:induction false} OnlyRegularsWait(events: seq<Event>)
    ensures forall r | r in Run(events).pending || r in Run(events).coalesced :: r.cls == Regular
    ensures forall c, p | c in Run(events).coalesced && p in Run(events).pending && c.key == p.key ::
              c.ordinal < p.ordinal
    ensures Tidy(Run(events))
    decreases |events|
  {
    ReachableInv(events);
    if events != [] {
      OnlyRegularsWait(events[..|events| - 1]);
      StepWaits(Run(events[..|events| - 1]), events[|events| - 1], Run(events));
    }
  }

  /** Exactly the steps that overtake a pending record break the order of its stream. */
  lemma OrderKeptIff(s: Pipeline, e: Event, t: Pipeline)
    requires Tidy(s) && Ordered(s) && t == Apply(s, e)
    ensures Ordered(t) <==> !Overtakes(s, e)
  {
    if e.Ble? {
      if Observes(s, e, e.key) { TakenOrder(s, e, t); } else { SameOrder(s, t); }
    } else if e.Predicted? {
      PredictedOrder(s, e, t);
    } else {
      OtherOrder(s, e, t);
    }
  }

  /** No observation of the run overtakes a pending record. */
  predicate NoneOvertakes(events: seq<Event>)
    decreases |events|
  {
    events == [] ||
      (NoneOvertakes(events[..|events| - 1])
       && !Overtakes(Run(events[..|events| - 1]), events[|events| - 1]))
  }

  /** Without overtaking every stream's records are sent in the order they were received. */
  lemma {:induction false} StreamsStayInOrder(events: seq<Event>)
    requires NoneOvertakes(events)
    ensures Ordered(Run(events))
    decreases |events|
  {
    if events != [] {
      StreamsStayInOrder(events[..|events| - 1]);
      OnlyRegularsWait(events[..|events| - 1]);
      OrderKeptIff(Run(events[..|events| - 1]), events[|events| - 1], Run(events));
    }
  }

  /** What overtaking leads to: once the timer of the stream fires, the older record is queued
      behind the newer one. */
  lemma OvertakenIsSentLate(s: Pipeline, e: Event, p: Rec, t: Pipeline, u: Pipeline)
    requires Tidy(s) && Overtakes(s, e) && |s.queue| <= 254 && p in s.pending && p.key == e.key
    requires t == Apply(s, e) && u == Apply(t, Timer(e.key))
    ensures |u.queue| == |s.queue| + 2 && u.queue[|s.queue| + 1] == p
    ensures u.queue[|s.queue|].ordinal == s.ordinal && u.queue[|s.queue|].key == p.key && p.ordinal < s.ordinal
  {
    var r := RecordAt(s.ordinal, e.key, Regular, e.at);
    var v := Issue(s.(signatures := s.signatures[e.key := e.signature]), r);
    assert t == Offer(v, r.value);
    assert t.pending == s.pending && t.queue == s.queue + [r.value];
    var i := PendingIndex(t.pending, e.key);
    var j :| 0 <= j < |t.pending| && t.pending[j] == p;
    assert i.Some? && !(i.value < j) && !(j < i.value);
    assert e.key in t.timers;
  }


  /** An advertisement received at this monotonic time. */
  function Advert(key: StreamKey, seconds: real): Event {
    Ble(key, 0, Arrival(Finite(0.0), Finite(seconds)), true)
  }

  lemma RunOn(events: seq<Event>, e: Event)
    ensures Run(events + [e]) == Apply(Run(events), e)
  {
    assert (events + [e])[..|events|] == events;
  }

  /** Four advertisements of one stream, the last three half a second apart: the last overtakes
      the third, because a second has passed and the timer has not fired. */
  lemma OvertakingHappens(key: StreamKey, none: seq<Event>, one: seq<Event>, two: seq<Event>, three: seq<Event>)
    requires none == [] && one == none + [Advert(key, 0.0)]
    requires two == one + [Advert(key, 0.0)] && three == two + [Advert(key, 0.5)]
    ensures Overtakes(Run(three), Advert(key, 1.0))
  {
    RunOn(none, Advert(key, 0.0));
    RunOn(one, Advert(key, 0.0));
    RunOn(two, Advert(key, 0.5));
    ThirdWaits(key, Run(none), Run(one));
  }

  lemma ThirdWaits(key: StreamKey, s: Pipeline, s1: Pipeline)
    requires s == IDLE && s1 == Apply(s, Advert(key, 0.0))
    ensures Overtakes(Apply(Apply(s1, Advert(key, 0.0)), Advert(key, 0.5)), Advert(key, 1.0))
  {
    assert s1.signatures == map[key := 0] && s1.lastEmitted == map[] && s1.pending == [];
    var s2 := Apply(s1, Advert(key, 0.0));
    assert s2.lastEmitted == map[key := 0] && s2.pending == [];
    var s3 := Apply(s2, Advert(key, 0.5));
    assert |s3.pending| == 1 && s3.pending[0].key == key;
    assert s3.pending[0] in s3.pending;
  }
}
