/** Which runs can still end clean: exactly those that have not failed and whose writer has not
    been cancelled. */
module CaptureDrain {
  import opened Capture
  import opened CaptureInvariant
  import opened CaptureOrder
  import opened Wrappers
  import opened Sequences

  function RunFrom(s: Pipeline, events: seq<Event>): Pipeline
    decreases |events|
  {
    if events == [] then s else RunFrom(Apply(s, events[0]), events[1..])
  }

  lemma {:induction false} RunContinues(events: seq<Event>, more: seq<Event>, s: Pipeline)
    requires s == Run(events)
    ensures Run(events + more) == RunFrom(s, more)
    decreases |more|
  {
    if more == [] {
      assert events + more == events;
    } else {
      RunOn(events, more[0]);
      RunContinues(events + [more[0]], more[1..], Apply(s, more[0]));
      assert events + [more[0]] + more[1..] == events + more;
    }
  }

  // ---- Failure and cancellation are final ----------------------------------------------------------

  predicate Doomed(s: Pipeline) {
    s.failed || s.phase.Raised? || s.phase.Cancelled?
  }

  lemma QueueKeepsEnd(s: Pipeline, r: Rec, t: Pipeline)
    requires t == Enqueue(s, r)
    ensures t.failed == s.failed && t.phase == s.phase && t.clean == s.clean
  {
  }

  lemma FlushKeepsEnd(s: Pipeline, key: StreamKey, t: Pipeline)
    requires t == Flush(s, key)
    ensures t.failed == s.failed && t.phase == s.phase && t.clean == s.clean
  {
    var i := PendingIndex(s.pending, key);
    if i.Some? {
      var p := s.pending[i.value];
      QueueKeepsEnd(s.(timers := s.timers - {key}, pending := Remove(s.pending, i.value),
                       lastEmitted := s.lastEmitted[p.key := p.monoNs]), p, t);
    }
  }

  lemma {:induction false} FlushAllKeepsEnd(s: Pipeline)
    ensures FlushAll(s).failed == s.failed && FlushAll(s).phase == s.phase && FlushAll(s).clean == s.clean
    decreases |s.pending|
  {
    if s.pending != [] {
      FlushKeepsRest(s, s.pending[0].key);
      FlushKeepsEnd(s, s.pending[0].key, Flush(s, s.pending[0].key));
      FlushAllKeepsEnd(Flush(s, s.pending[0].key));
    }
  }

  lemma OfferKeepsEnd(s: Pipeline, r: Rec, t: Pipeline)
    requires t == Offer(s, r)
    ensures t.failed == s.failed && t.phase == s.phase && t.clean == s.clean
  {
    if DueNow(s, r) { QueueKeepsEnd(s.(lastEmitted := s.lastEmitted[r.key := r.monoNs]), r, t); }
  }

  lemma BleKeepsEnd(s: Pipeline, e: Event, t: Pipeline)
    requires e.Ble? && t == Apply(s, e)
    ensures t.failed == s.failed && t.phase == s.phase && t.clean == s.clean
  {
    var r := RecordAt(s.ordinal, e.key, ClassOf(s, e.key, e.signature), e.at);
    var u := Issue(s.(signatures := s.signatures[e.key := e.signature]), r);
    if !s.stopping && !s.failed && e.readable && r.Some? {
      if r.value.cls == Regular {
        OfferKeepsEnd(u, r.value, Offer(u, r.value));
      } else {
        FlushKeepsEnd(u, e.key, Flush(u, e.key));
        QueueKeepsEnd(Flush(u, e.key), r.value, t);
      }
    }
  }

  lemma CallbackKeepsEnd(s: Pipeline, e: Event, t: Pipeline)
    requires (e.Ble? || e.Predicted? || e.Timer? || e.BeginStop?) && t == Apply(s, e)
    ensures t.failed == s.failed && t.phase == s.phase && t.clean == s.clean
  {
    match e
    case Ble(_, _, _, _) => BleKeepsEnd(s, e, t);
    case Predicted(serial, at) =>
      var r := RecordAt(s.ordinal, StreamKey(Probe, serial, 0), Prediction, at);
      if r.Some? { QueueKeepsEnd(Issue(s, r), r.value, Enqueue(Issue(s, r), r.value)); }
    case Timer(key) => FlushKeepsEnd(s, key, Flush(s, key));
    case BeginStop => FlushAllKeepsEnd(s);
  }

  lemma DoomStays(s: Pipeline, e: Event, t: Pipeline)
    requires Inv(s) && Doomed(s) && t == Apply(s, e)
    ensures Doomed(t)
  {
    if e.Ble? || e.Predicted? || e.Timer? || e.BeginStop? {
      CallbackKeepsEnd(s, e, t);
    } else if e.TimeOutStop? || e.FinishStop? {
      assert t.failed || (t.phase == s.phase && t.failed == s.failed);
    } else {
      WriterDoomStays(s, e, t);
    }
  }

  lemma WriterDoomStays(s: Pipeline, e: Event, t: Pipeline)
    requires Control(s) && Doomed(s) && t == Apply(s, e)
    requires WriterAwaits(e) || e.RaiseInWriter?
    ensures Doomed(t)
  {
    FailureStays(s);
    match e
    case RunWriter => assert t == WriterTop(s);
    case WakeWriter => assert t == Wake(s);
    case SaveGap => assert t == GapSaved(s);
    case CommitBatch => assert t == BatchCommitted(s);
    case RaiseInWriter => assert t == WriterRaises(s);
    case CancelWriter => assert t == WriterCancelled(s);
  }

  lemma FailureStays(s: Pipeline)
    ensures s.failed ==> WriterTop(s).failed && Wake(s).failed && GapSaved(s).failed && BatchCommitted(s).failed
    ensures s.failed ==> WriterRaises(s).failed && WriterCancelled(s).failed
  {
  }

  lemma {:induction false} DoomedRunsStayUnclean(s: Pipeline, events: seq<Event>)
    requires Inv(s) && Doomed(s)
    ensures !RunFrom(s, events).clean
    decreases |events|
  {
    if events != [] {
      ApplyKeeps(s, events[0]);
      DoomStays(s, events[0], Apply(s, events[0]));
      DoomedRunsStayUnclean(Apply(s, events[0]), events[1..]);
    }
  }

  // ---- The writer drains ---------------------------------------------------------------------------

  /** A stop has begun, and nothing has failed. */
  predicate Draining(s: Pipeline) {
    Inv(s) && s.stopping && !Doomed(s)
  }

  function Rank(p: Phase): nat {
    match p
    case Waiting => 3
    case Top => 2
    case SavingGap(_, _) => 1
    case Committing(_) => 4
    case _ => 0
  }

  /** The writer's next step. */
  function Next(s: Pipeline): Event {
    match s.phase
    case Waiting => WakeWriter
    case Top => RunWriter
    case SavingGap(_, _) => SaveGap
    case Committing(_) => CommitBatch
    case _ => FinishStop
  }

  /** A waiting writer goes on exactly when its event is set. */
  lemma WaitEndsIff(s: Pipeline)
    requires s.phase == Waiting
    ensures Apply(s, WakeWriter) == if s.event then s.(phase := Top) else s
  {
  }

  lemma NextDrains(s: Pipeline, t: Pipeline)
    requires Draining(s) && !s.phase.Returned? && t == Apply(s, Next(s))
    ensures Draining(t)
    ensures |t.queue| < |s.queue|
         || (|t.queue| == |s.queue| && |t.gaps| + |InHand(t.phase)| < |s.gaps| + |InHand(s.phase)|)
         || (|t.queue| == |s.queue| && |t.gaps| + |InHand(t.phase)| == |s.gaps| + |InHand(s.phase)|
             && Rank(t.phase) < Rank(s.phase))
  {
    ApplyKeeps(s, Next(s));
    NextIsSmaller(s, t);
  }

  lemma NextIsSmaller(s: Pipeline, t: Pipeline)
    requires Control(s) && s.stopping && !Doomed(s) && !s.phase.Returned? && t == Apply(s, Next(s))
    ensures t.stopping && !Doomed(t)
    ensures |t.queue| < |s.queue|
         || (|t.queue| == |s.queue| && |t.gaps| + |InHand(t.phase)| < |s.gaps| + |InHand(s.phase)|)
         || (|t.queue| == |s.queue| && |t.gaps| + |InHand(t.phase)| == |s.gaps| + |InHand(s.phase)|
             && Rank(t.phase) < Rank(s.phase))
  {
    match s.phase
    case Waiting =>
    case Top => TopDrains(s, t);
    case SavingGap(gap, rest) => SaveDrains(s, t);
    case Committing(_) =>
  }

  lemma TopDrains(s: Pipeline, t: Pipeline)
    requires s.stopping && !s.failed && s.phase == Top && t == WriterTop(s)
    ensures t.stopping && !Doomed(t)
    ensures |t.queue| < |s.queue|
         || (|t.queue| == |s.queue| && |t.gaps| + |InHand(t.phase)| == |s.gaps| && Rank(t.phase) < 2)
  {
    if s.gaps == [] && s.queue != [] {
      assert t == TakeBatch(s);
      BatchDrains(s, t);
    } else {
      GapsDrain(s, t);
    }
  }

  lemma BatchDrains(s: Pipeline, t: Pipeline)
    requires t == TakeBatch(s)
    ensures t.stopping == s.stopping && t.failed == s.failed && t.gaps == s.gaps && InHand(t.phase) == []
    ensures t.phase.Committing? || t.phase == Top
    ensures if s.queue == [] then t.queue == [] else |t.queue| < |s.queue|
  {
  }

  lemma GapsDrain(s: Pipeline, t: Pipeline)
    requires s.stopping && !s.failed && s.phase == Top && t == WriterTop(s)
    requires s.gaps != [] || s.queue == []
    ensures t.stopping && !Doomed(t) && t.queue == s.queue
    ensures |t.gaps| + |InHand(t.phase)| == |s.gaps| && Rank(t.phase) < 2
  {
  }

  lemma SaveDrains(s: Pipeline, t: Pipeline)
    requires s.stopping && !s.failed && s.phase.SavingGap? && t == GapSaved(s)
    ensures t.stopping && !Doomed(t)
    ensures |t.queue| < |s.queue|
         || (|t.queue| == |s.queue| && |t.gaps| + |InHand(t.phase)| < |s.gaps| + |InHand(s.phase)|)
  {
    if s.phase.rest == [] {
      BatchDrains(s.(saved := s.saved + [s.phase.gap]), t);
    } else {
      NextSaveDrains(s, t);
    }
  }

  lemma NextSaveDrains(s: Pipeline, t: Pipeline)
    requires s.stopping && !s.failed && s.phase.SavingGap? && t == GapSaved(s) && s.phase.rest != []
    ensures t.stopping && !Doomed(t) && t.queue == s.queue && t.gaps == s.gaps
    ensures |InHand(t.phase)| < |InHand(s.phase)|
  {
    FewerInHand(s.phase.gap, s.phase.rest);
  }

  lemma FewerInHand(gap: Gap, rest: seq<Gap>)
    requires rest != []
    ensures |InHand(SavingGap(rest[0], rest[1..]))| < |InHand(SavingGap(gap, rest))|
  {
  }

  /** Once a stop has begun the writer's own steps lead to a clean end. */
  lemma {:induction false} DrainsClean(s: Pipeline) returns (events: seq<Event>)
    requires Draining(s)
    ensures RunFrom(s, events).clean
    decreases |s.queue|, |s.gaps| + |InHand(s.phase)|, Rank(s.phase)
  {
    var t := Apply(s, Next(s));
    if s.phase.Returned? {
      events := [FinishStop];
      assert RunFrom(t, []) == t && events[1..] == [];
    } else {
      NextDrains(s, t);
      var rest := DrainsClean(t);
      events := [Next(s)] + rest;
      FirstStep(s, Next(s), rest);
    }
  }

  lemma FirstStep(s: Pipeline, e: Event, rest: seq<Event>)
    ensures RunFrom(s, [e] + rest) == RunFrom(Apply(s, e), rest)
  {
    assert ([e] + rest)[1..] == rest;
  }

  lemma StopStartsDraining(s: Pipeline, t: Pipeline)
    requires Inv(s) && !Doomed(s) && t == StopBegins(s)
    ensures Draining(t)
  {
    StopBeginsKeeps(s);
    FlushAllKeepsEnd(s);
    StopFlags(FlushAll(s), t);
  }

  lemma StopFlags(s: Pipeline, t: Pipeline)
    requires !Doomed(s) && t == s.(stopping := true, timers := {}, event := true)
    ensures t.stopping && !Doomed(t)
  {
  }

  lemma StopThenDrain(s: Pipeline) returns (more: seq<Event>)
    requires Inv(s) && !Doomed(s)
    ensures RunFrom(s, more).clean
  {
    var t := StopBegins(s);
    StopStartsDraining(s, t);
    var rest := DrainsClean(t);
    more := [BeginStop] + rest;
    FirstStep(s, BeginStop, rest);
    assert Apply(s, BeginStop) == t;
  }

  lemma TimeOutFails(s: Pipeline, t: Pipeline)
    requires s.stopping && !s.phase.Returned? && !s.phase.Raised? && !s.phase.Cancelled?
    requires t == StopTimesOut(s)
    ensures t.failed && t.phase.Cancelled? && t.queue == s.queue && t.committed == s.committed
  {
  }

  /** A stop that gives up waiting cancels the writer and can no longer end clean, however the run
      goes on. */
  lemma TimedOutStopIsUnclean(s: Pipeline, t: Pipeline, more: seq<Event>)
    requires Inv(s) && t == Apply(s, TimeOutStop)
    requires s.stopping && !s.phase.Returned? && !s.phase.Raised? && !s.phase.Cancelled?
    ensures t.failed && t.phase.Cancelled? && t.queue == s.queue && t.committed == s.committed
    ensures !RunFrom(t, more).clean
  {
    TimeOutFails(s, t);
    ApplyKeeps(s, TimeOutStop);
    DoomedRunsStayUnclean(t, more);
  }

  /** A run can still end clean exactly when capture has not failed and its writer has neither
      raised nor been cancelled. */
  lemma CleanReachableIff(events: seq<Event>)
    ensures (exists more :: Run(events + more).clean) <==>
            !Run(events).failed && !Run(events).phase.Raised? && !Run(events).phase.Cancelled?
  {
    ReachableInv(events);
    if Doomed(Run(events)) {
      forall more
        ensures !Run(events + more).clean
      {
        RunContinues(events, more, Run(events));
        DoomedRunsStayUnclean(Run(events), more);
      }
    } else {
      var more := StopThenDrain(Run(events));
      RunContinues(events, more, Run(events));
      assert Run(events + more).clean;
    }
  }
}
