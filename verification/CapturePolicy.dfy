/** The capture policy, observation by observation: which class a record gets, when a regular one
    may leave at once, and what a full queue does. */
module CapturePolicy {
  import opened Capture
  import opened CaptureInvariant
  import opened Wrappers
  import opened Sequences

  // ---- The class of a record ---------------------------------------------------------------------

  /** Capture takes a readable observation of this stream. */
  predicate Observes(s: Pipeline, e: Event, key: StreamKey) {
    e.Ble? && e.key == key && e.readable && !s.stopping && !s.failed
  }

  /** The signature of the latest observation of a stream that the run took. */
  function LatestSignature(events: seq<Event>, key: StreamKey): Option<int>
    decreases |events|
  {
    if events == [] then None
    else
      var earlier, e := events[..|events| - 1], events[|events| - 1];
      if Observes(Run(earlier), e, key) then Some(e.signature) else LatestSignature(earlier, key)
  }

  /** The signatures and the count of refused observations are the same. */
  predicate SameStatus(s: Pipeline, t: Pipeline) {
    t.signatures == s.signatures && t.rejected == s.rejected
  }

  lemma QueueingKeepsStatus(s: Pipeline, r: Rec)
    ensures SameStatus(s, Enqueue(s, r)) && SameStatus(s, Emit(s, r))
  {
  }

  lemma PlacingKeepsStatus(s: Pipeline, r: Rec, key: StreamKey)
    ensures SameStatus(s, Enqueue(s, r)) && SameStatus(s, Offer(s, r))
    ensures SameStatus(s, Flush(s, key))
  {
    QueueingKeepsStatus(s, r);
    var i := PendingIndex(s.pending, key);
    if i.Some? {
      QueueingKeepsStatus(s.(timers := s.timers - {key}, pending := Remove(s.pending, i.value)),
                          s.pending[i.value]);
    }
  }

  lemma {:induction false} FlushAllKeepsStatus(s: Pipeline)
    ensures SameStatus(s, FlushAll(s))
    decreases |s.pending|
  {
    if s.pending != [] {
      FlushKeepsRest(s, s.pending[0].key);
      PlacingKeepsStatus(s, s.pending[0], s.pending[0].key);
      FlushAllKeepsStatus(Flush(s, s.pending[0].key));
    }
  }

  lemma BatchKeepsStatus(s: Pipeline)
    ensures SameStatus(s, TakeBatch(s)) && SameStatus(s, BatchCommitted(s))
  {
  }

  lemma TopKeepsStatus(s: Pipeline)
    ensures SameStatus(s, WriterTop(s))
  {
    BatchKeepsStatus(s);
  }

  lemma SaveKeepsStatus(s: Pipeline)
    ensures SameStatus(s, GapSaved(s))
  {
    if s.phase.SavingGap? {
      BatchKeepsStatus(s.(saved := s.saved + [s.phase.gap]));
    }
  }

  lemma EndKeepsStatus(s: Pipeline)
    ensures SameStatus(s, Wake(s)) && SameStatus(s, WriterRaises(s))
    ensures SameStatus(s, WriterCancelled(s))
  {
  }

  lemma StopKeepsStatus(s: Pipeline)
    ensures SameStatus(s, StopBegins(s)) && SameStatus(s, StopTimesOut(s))
    ensures SameStatus(s, StopFinishes(s))
  {
    FlushAllKeepsStatus(s);
  }

  lemma PredictionKeepsStatus(s: Pipeline, serial: int, at: Arrival)
    ensures SameStatus(s, OnPrediction(s, serial, at))
  {
    var r := RecordAt(s.ordinal, StreamKey(Probe, serial, 0), Prediction, at);
    if r.Some? { QueueingKeepsStatus(Issue(s, r), r.value); }
  }

  lemma OthersKeepStatus(s: Pipeline, e: Event)
    requires !e.Ble?
    ensures SameStatus(s, Apply(s, e))
  {
    StopKeepsStatus(s);
    BatchKeepsStatus(s);
    TopKeepsStatus(s);
    SaveKeepsStatus(s);
    EndKeepsStatus(s);
    match e
    case Predicted(serial, at) => PredictionKeepsStatus(s, serial, at);
    case Timer(key) => PlacingKeepsStatus(s, Rec(0, key, Regular, 0, 0), key);
    case BeginStop => assert Apply(s, e) == StopBegins(s);
    case TimeOutStop => assert Apply(s, e) == StopTimesOut(s);
    case FinishStop => assert Apply(s, e) == StopFinishes(s);
    case RunWriter => assert Apply(s, e) == WriterTop(s);
    case WakeWriter => assert Apply(s, e) == Wake(s);
    case SaveGap => assert Apply(s, e) == GapSaved(s);
    case CommitBatch => assert Apply(s, e) == BatchCommitted(s);
    case RaiseInWriter => assert Apply(s, e) == WriterRaises(s);
    case CancelWriter => assert Apply(s, e) == WriterCancelled(s);
  }

  lemma TakenSignature(s: Pipeline, e: Event)
    requires e.Ble? && Observes(s, e, e.key)
    ensures Apply(s, e).signatures == s.signatures[e.key := e.signature]
    ensures Apply(s, e).rejected == s.rejected + if FiniteArrival(e.at) then 0 else 1
  {
    var r := RecordAt(s.ordinal, e.key, ClassOf(s, e.key, e.signature), e.at);
    if r.Some? {
      var t := Issue(s.(signatures := s.signatures[e.key := e.signature]), r);
      PlacingKeepsStatus(t, r.value, e.key);
      PlacingKeepsStatus(Flush(t, e.key), r.value, e.key);
    }
  }

  /** The signatures kept are those of the latest observations taken. */
  lemma {:induction false} SignaturesAreLatest(events: seq<Event>, key: StreamKey)
    ensures LatestSignature(events, key) ==
            if key in Run(events).signatures then Some(Run(events).signatures[key]) else None
    decreases |events|
  {
    if events != [] {
      var s, e := Run(events[..|events| - 1]), events[|events| - 1];
      SignaturesAreLatest(events[..|events| - 1], key);
      if !e.Ble? {
        OthersKeepStatus(s, e);
      } else if Observes(s, e, e.key) {
        TakenSignature(s, e);
      }
    }
  }

  /** An observation that capture takes gets a record exactly when its readings are finite. The
      record's class is regular when the latest earlier observation taken of its stream had the
      same signature, and transition when it had another one or there was none. */
  lemma ClassFollowsSignature(events: seq<Event>, e: Event, s: Pipeline, t: Pipeline)
    requires s == Run(events) && t == Apply(s, e) && e.Ble? && Observes(s, e, e.key)
    ensures |t.issued| == |s.issued| + 1 && t.issued[..|s.issued|] == s.issued
    ensures t.issued[|s.issued|].Some? <==> e.at.epoch.Finite? && e.at.monotonic.Finite?
    ensures t.issued[|s.issued|].Some? ==>
              var r := t.issued[|s.issued|].value;
              && r.key == e.key && r.ordinal == |s.issued|
              && r.cls == if LatestSignature(events, e.key) == Some(e.signature) then Regular else Transition
  {
    SignaturesAreLatest(events, e.key);
    ReachableInv(events);
    var r := RecordAt(s.ordinal, e.key, ClassOf(s, e.key, e.signature), e.at);
    ReadableIssues(s, e.key, e.signature, e.at, r);
    assert t == OnBle(s, e.key, e.signature, e.at, true);
  }

  /** The record of a reading: times rounded toward zero to whole micro- and nanoseconds, and the
      monotonic one not below zero. */
  lemma RecordedTimes(ordinal: nat, key: StreamKey, cls: CaptureClass, at: Arrival)
    requires FiniteArrival(at)
    ensures var r := RecordAt(ordinal, key, cls, at);
            && r.Some? && r.value.ordinal == ordinal && r.value.key == key && r.value.cls == cls
            && Rounds(r.value.receivedUs, at.epoch.seconds * 1_000_000.0)
            && (at.monotonic.seconds >= 0.0 ==> Rounds(r.value.monoNs, at.monotonic.seconds * 1_000_000_000.0))
            && (at.monotonic.seconds <= 0.0 ==> r.value.monoNs == 0)
  {
  }

  /** n is x without its fraction. */
  predicate Rounds(n: int, x: real) {
    if x >= 0.0 then n >= 0 && n as real <= x < n as real + 1.0 else n <= 0 && n as real - 1.0 < x <= n as real
  }

  // ---- Queueing ----------------------------------------------------------------------------------

  /** An open queue with room takes the record at its end; a full one of 256 loses one record, in
      one accumulator's count; and a closed one takes nothing. */
  lemma QueueTakes(s: Pipeline, r: Rec, t: Pipeline)
    requires t == Enqueue(s, r) && |s.queue| <= 256
    ensures s.stopping || s.failed ==> t == s
    ensures !s.stopping && !s.failed && |s.queue| < 256 ==>
              t == s.(queue := s.queue + [r], event := true)
    ensures !s.stopping && !s.failed && |s.queue| == 256 ==>
              |t.queue| == 256 && |t.lost| == |s.lost| + 1 && t.lost[..|s.lost|] == s.lost
    ensures !s.stopping && !s.failed && r.cls != Regular ==> t.queue != [] && t.queue[|t.queue| - 1] == r && t.event
  {
    if !s.stopping && !s.failed && |s.queue| == 256 {
      var (victim, queue) := Overflow(s.queue, r);
      OverflowKeepsAll(s.queue, r, victim, queue);
    }
  }

  /** A transition or a prediction is queued by the callback that brought it, after the pending
      record of its stream, if any. */
  lemma ChangesAreQueuedAtOnce(events: seq<Event>, e: Event, s: Pipeline, t: Pipeline, r: Rec)
    requires s == Run(events) && t == Apply(s, e) && Accepts(s, e) && FiniteArrival(e.at)
    requires e.Ble? ==> LatestSignature(events, e.key) != Some(e.signature)
    requires t.issued == s.issued + [Some(r)]
    ensures t.queue != [] && t.queue[|t.queue| - 1] == r && t.event
    ensures e.Ble? ==> e.key !in KeySet(t.pending)
  {
    ReachableInv(events);
    if e.Ble? {
      SignaturesAreLatest(events, e.key);
      TransitionQueued(s, e, t, r);
    } else {
      var issued := RecordAt(s.ordinal, StreamKey(Probe, e.serial, 0), Prediction, e.at);
      PlacingIssuesNothing(Issue(s, issued), issued.value, issued.value.key);
      assert t.issued[|s.issued|] == issued;
      QueueTakes(Issue(s, issued), r, t);
    }
  }

  lemma TransitionQueued(s: Pipeline, e: Event, t: Pipeline, r: Rec)
    requires Inv(s) && e.Ble? && Accepts(s, e) && FiniteArrival(e.at)
    requires e.key in s.signatures ==> s.signatures[e.key] != e.signature
    requires t == Apply(s, e) && t.issued == s.issued + [Some(r)]
    ensures t.queue != [] && t.queue[|t.queue| - 1] == r && t.event
    ensures e.key !in KeySet(t.pending)
  {
    var issued := RecordAt(s.ordinal, e.key, Transition, e.at);
    ReadableIssues(s, e.key, e.signature, e.at, issued);
    assert t == OnBle(s, e.key, e.signature, e.at, true);
    assert t.issued[|s.issued|] == issued;
    var u := Issue(s.(signatures := s.signatures[e.key := e.signature]), issued);
    FlushEmpties(u, e.key);
    QueueTakes(Flush(u, e.key), r, t);
  }

  lemma FlushEmpties(s: Pipeline, key: StreamKey)
    requires Control(s)
    ensures key !in KeySet(Flush(s, key).pending) && key !in Flush(s, key).timers
    ensures Flush(s, key).stopping == s.stopping && Flush(s, key).failed == s.failed
    ensures |Flush(s, key).queue| <= 256
  {
    var i := PendingIndex(s.pending, key);
    if i.None? {
      NotPending(s.pending, key);
    } else {
      FlushedPending(s.pending, i.value);
      EnqueueBounded(s.(timers := s.timers - {key}, pending := Remove(s.pending, i.value),
                        lastEmitted := s.lastEmitted[s.pending[i.value].key := s.pending[i.value].monoNs]),
                     s.pending[i.value]);
    }
  }

  lemma EnqueueBounded(s: Pipeline, r: Rec)
    requires |s.queue| <= 256
    ensures |Enqueue(s, r).queue| <= 256
    ensures Enqueue(s, r).pending == s.pending && Enqueue(s, r).timers == s.timers
    ensures Enqueue(s, r).stopping == s.stopping && Enqueue(s, r).failed == s.failed
  {
    QueueTakes(s, r, Enqueue(s, r));
  }

  // ---- Regular records ---------------------------------------------------------------------------

  /** A regular record may leave: its stream never emitted one, or a second ago or longer. */
  predicate MayLeave(s: Pipeline, key: StreamKey, monoNs: nat) {
    key in s.lastEmitted ==> monoNs - s.lastEmitted[key] >= 1_000_000_000
  }

  /** A regular record leaves at once when its stream emitted none within the last second, and
      that starts a new second. Otherwise nothing is queued: it is the stream's only pending
      record, its timer runs, and the record it replaces is the one coalesced. */
  lemma RegularsAreSpaced(s: Pipeline, r: Rec, t: Pipeline)
    requires Control(s) && !s.stopping && !s.failed && t == Offer(s, r)
    ensures MayLeave(s, r.key, r.monoNs) ==>
              && t.lastEmitted == s.lastEmitted[r.key := r.monoNs] && t.pending == s.pending
              && t.coalesced == s.coalesced && t.queue == Enqueue(s, r).queue && t.lost == Enqueue(s, r).lost
    ensures !MayLeave(s, r.key, r.monoNs) ==>
              && t.queue == s.queue && t.lost == s.lost && t.lastEmitted == s.lastEmitted
              && r in t.pending && r.key in t.timers
              && (forall p | p in t.pending && p.key == r.key :: p == r)
              && (forall p: Rec | p.key != r.key :: p in t.pending <==> p in s.pending)
              && (r.key in KeySet(s.pending) ==> |t.coalesced| == |s.coalesced| + 1)
              && (forall p | p in s.pending && p.key == r.key :: t.coalesced == s.coalesced + [p])
              && (r.key !in KeySet(s.pending) ==> t.coalesced == s.coalesced)
  {
    if !MayLeave(s, r.key, r.monoNs) {
      var i := PendingIndex(s.pending, r.key);
      if i.Some? {
        Replaced(s.pending, i.value, r);
      } else {
        NotPending(s.pending, r.key);
        forall p | p in s.pending ensures p.key != r.key { assert p.key in KeySet(s.pending); }
      }
    }
  }

  lemma Replaced(pending: seq<Rec>, i: nat, r: Rec)
    requires DistinctKeys(pending) && i < |pending| && pending[i].key == r.key
    ensures forall p | p in pending && p.key == r.key :: p == pending[i]
    ensures forall p | p in pending[i := r] && p.key == r.key :: p == r
    ensures forall p: Rec | p.key != r.key :: p in pending[i := r] <==> p in pending
    ensures r in pending[i := r] && r.key in KeySet(pending)
  {
    forall p | p in pending && p.key == r.key
      ensures p == pending[i]
    {
      var j :| 0 <= j < |pending| && pending[j] == p;
      assert !(j < i) && !(i < j);
    }
    var later := pending[i := r];
    forall j | 0 <= j < |later| && j != i
      ensures later[j].key != r.key
    {
      assert later[j] == pending[j];
    }
    forall p: Rec | p.key != r.key
      ensures p in later <==> p in pending
    {
      if p in pending {
        var j :| 0 <= j < |pending| && pending[j] == p;
        assert later[j] == p;
      }
    }
    assert later[i] == r && pending[i] in pending;
  }

  /** A timer or a change emits the pending record of its stream and starts its second anew. */
  lemma FlushEmits(s: Pipeline, key: StreamKey, p: Rec, t: Pipeline)
    requires Control(s) && p in s.pending && p.key == key && t == Flush(s, key)
    ensures t.lastEmitted == s.lastEmitted[key := p.monoNs] && t.coalesced == s.coalesced
    ensures t.queue == Enqueue(s, p).queue && t.lost == Enqueue(s, p).lost
  {
    var j :| 0 <= j < |s.pending| && s.pending[j] == p;
    var i := PendingIndex(s.pending, key);
    assert i.Some? && !(j < i.value) && !(i.value < j);
  }

  /** A stop queues the pending records in the order in which their streams began to wait. */
  lemma {:induction false} StopQueuesPending(s: Pipeline, u: Pipeline)
    requires !s.stopping && !s.failed && |s.queue| + |s.pending| <= 256 && u == FlushAll(s)
    ensures u.queue == s.queue + s.pending && u.lost == s.lost && u.pending == []
    decreases |s.pending|
  {
    if s.pending == [] {
      NothingIsFlushed(s);
    } else {
      var t := Flush(s, s.pending[0].key);
      FirstIsFlushed(s, t);
      FirstIsQueued(s, t);
      StopQueuesPending(t, u);
      OneByOne(s.queue, s.pending, t.queue, t.pending);
    }
  }

  lemma OneByOne(queue: seq<Rec>, pending: seq<Rec>, longer: seq<Rec>, rest: seq<Rec>)
    requires pending != [] && longer == queue + [pending[0]] && rest == pending[1..]
    ensures longer + rest == queue + pending
  {
  }

  lemma NothingIsFlushed(s: Pipeline)
    requires s.pending == []
    ensures FlushAll(s) == s
  {
  }

  lemma FirstIsFlushed(s: Pipeline, t: Pipeline)
    requires s.pending != [] && t == Flush(s, s.pending[0].key)
    ensures FlushAll(s) == FlushAll(t)
  {
  }

  lemma FirstIsQueued(s: Pipeline, t: Pipeline)
    requires !s.stopping && !s.failed && s.pending != [] && |s.queue| < 256 && t == Flush(s, s.pending[0].key)
    ensures t.queue == s.queue + [s.pending[0]] && t.pending == s.pending[1..] && t.lost == s.lost
    ensures !t.stopping && !t.failed
  {
    assert PendingIndex(s.pending, s.pending[0].key) == Some(0);
    assert Remove(s.pending, 0) == s.pending[1..];
  }

  /** In every reachable state the queue holds at most 256 records and a batch 1 to 50. */
  lemma Bounded(events: seq<Event>)
    ensures |Run(events).queue| <= 256
    ensures Run(events).phase.Committing? ==> 1 <= |Run(events).phase.batch| <= 50
  {
    ReachableInv(events);
  }

  // ---- The health counters -----------------------------------------------------------------------

  /** A running capture refuses the observation: its data or its readings cannot be used. */
  predicate Refuses(s: Pipeline, e: Event) {
    e.Ble? && !s.stopping && !s.failed && (!e.readable || !FiniteArrival(e.at))
  }

  function Refusals(events: seq<Event>): nat
    decreases |events|
  {
    if events == [] then 0
    else
      Refusals(events[..|events| - 1])
      + if Refuses(Run(events[..|events| - 1]), events[|events| - 1]) then 1 else 0
  }

  lemma {:induction false} RefusalsAreCounted(events: seq<Event>)
    ensures Run(events).rejected == Refusals(events)
    decreases |events|
  {
    if events != [] {
      var s, e := Run(events[..|events| - 1]), events[|events| - 1];
      RefusalsAreCounted(events[..|events| - 1]);
      if !e.Ble? {
        OthersKeepStatus(s, e);
      } else if Observes(s, e, e.key) {
        TakenSignature(s, e);
      }
    }
  }

  /** In every reachable state the dropped count is the number of records lost on overflow and of
      observations refused, and the coalesced count the number of records replaced. */
  lemma CountersAreExact(events: seq<Event>)
    ensures Run(events).dropped == |Run(events).lost| + Refusals(events)
    ensures Run(events).coalescedCount == |Run(events).coalesced|
  {
    ReachableInv(events);
    RefusalsAreCounted(events);
  }
}
