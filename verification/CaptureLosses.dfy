/** What the loss accumulators say about the losses they count. */
module CaptureLosses {
  import opened Capture
  import opened CaptureInvariant
  import opened CaptureOrder
  import opened Wrappers
  import opened Sequences

  // ---- Intervals are tight -----------------------------------------------------------------------

  predicate LostAt(lost: seq<Loss>, id: nat, at: int) {
    exists l :: l in lost && l.gap == id && l.rec.receivedUs == at
  }

  /** Some loss of the gap was received at its first time and some at its last. */
  predicate Attained(lost: seq<Loss>, g: Gap) {
    LostAt(lost, g.id, g.first) && LostAt(lost, g.id, g.last)
  }

  predicate AllAttained(lost: seq<Loss>, gaps: seq<Gap>) {
    forall g | g in gaps :: Attained(lost, g)
  }

  /** One open accumulator per subject, serial and class. */
  predicate OneForEach(gaps: seq<Gap>) {
    forall i, j | 0 <= i < j < |gaps| ::
      gaps[i].key.subject != gaps[j].key.subject || gaps[i].key.serial != gaps[j].key.serial
      || gaps[i].key.cls != gaps[j].key.cls
  }

  predicate Tight(s: Pipeline) {
    AllAttained(s.lost, AllGaps(s)) && OneForEach(s.gaps)
  }

  lemma StillLost(lost: seq<Loss>, l: Loss, id: nat, at: int)
    ensures LostAt(lost, id, at) ==> LostAt(lost + [l], id, at)
    ensures LostAt(lost + [l], l.gap, l.rec.receivedUs)
  {
    assert l in lost + [l];
    if LostAt(lost, id, at) {
      var k :| k in lost && k.gap == id && k.rec.receivedUs == at;
      assert k in lost + [l];
    }
  }

  lemma StillAttained(lost: seq<Loss>, l: Loss, gaps: seq<Gap>)
    requires AllAttained(lost, gaps)
    ensures AllAttained(lost + [l], gaps)
  {
    forall g | g in gaps
      ensures Attained(lost + [l], g)
    {
      StillLost(lost, l, g.id, g.first);
      StillLost(lost, l, g.id, g.last);
    }
  }

  lemma WidenedAttained(lost: seq<Loss>, g: Gap, r: Rec)
    requires Attained(lost, g)
    ensures Attained(lost + [Loss(r, g.id)], Widened(g, r.receivedUs))
  {
    StillLost(lost, Loss(r, g.id), g.id, g.first);
    StillLost(lost, Loss(r, g.id), g.id, g.last);
  }

  lemma NoteStaysTight(lost: seq<Loss>, earlier: seq<Gap>, gaps: seq<Gap>, nextGap: nat, r: Rec, n: Noted)
    requires n == NoteIn(gaps, nextGap, r)
    requires AllAttained(lost, earlier) && AllAttained(lost, gaps) && OneForEach(gaps)
    ensures AllAttained(lost + [Loss(r, n.id)], earlier) && AllAttained(lost + [Loss(r, n.id)], n.gaps)
    ensures OneForEach(n.gaps)
  {
    var l := Loss(r, n.id);
    StillAttained(lost, l, earlier);
    StillAttained(lost, l, gaps);
    var i := GapIndex(gaps, LossKeyOf(r));
    if i.Some? {
      WidenedAttained(lost, gaps[i.value], r);
      UpdatedAttained(lost + [l], gaps, i.value, Widened(gaps[i.value], r.receivedUs));
    } else {
      StillLost(lost, l, n.id, r.receivedUs);
    }
  }

  lemma UpdatedAttained(lost: seq<Loss>, gaps: seq<Gap>, i: nat, g: Gap)
    requires i < |gaps| && AllAttained(lost, gaps) && Attained(lost, g)
    requires OneForEach(gaps) && g.key == gaps[i].key
    ensures AllAttained(lost, gaps[i := g]) && OneForEach(gaps[i := g])
  {
    forall h | h in gaps[i := g]
      ensures Attained(lost, h)
    {
      assert h == g || h in gaps;
    }
  }

  // ---- Every step --------------------------------------------------------------------------------

  lemma QueueStaysTight(s: Pipeline, r: Rec, t: Pipeline)
    requires Tight(s) && t == Enqueue(s, r)
    ensures Tight(t)
  {
    if !s.stopping && !s.failed && |s.queue| >= MAX_QUEUE_ITEMS {
      var victim := Overflow(s.queue, r).0;
      var n := NoteIn(s.gaps, s.nextGap, victim);
      assert forall g | g in s.saved + InHand(s.phase) || g in s.gaps :: g in AllGaps(s);
      NoteStaysTight(s.lost, s.saved + InHand(s.phase), s.gaps, s.nextGap, victim, n);
      TightParts(t);
    } else {
      assert AllGaps(t) == AllGaps(s);
    }
  }

  lemma TightParts(t: Pipeline)
    requires AllAttained(t.lost, t.saved + InHand(t.phase)) && AllAttained(t.lost, t.gaps) && OneForEach(t.gaps)
    ensures Tight(t)
  {
    forall g | g in AllGaps(t)
      ensures Attained(t.lost, g)
    {
      assert g in t.saved + InHand(t.phase) || g in t.gaps;
    }
  }

  /** The accumulators and the losses are untouched. */
  predicate SameLosses(s: Pipeline, t: Pipeline) {
    t.lost == s.lost && t.gaps == s.gaps && t.saved == s.saved && t.phase == s.phase
  }

  lemma FlushStaysTight(s: Pipeline, key: StreamKey, t: Pipeline)
    requires Tight(s) && t == Flush(s, key)
    ensures Tight(t)
  {
    var i := PendingIndex(s.pending, key);
    if i.Some? {
      var p := s.pending[i.value];
      var u := s.(timers := s.timers - {key}, pending := Remove(s.pending, i.value),
                  lastEmitted := s.lastEmitted[p.key := p.monoNs]);
      assert AllGaps(u) == AllGaps(s);
      QueueStaysTight(u, p, t);
    }
  }

  lemma {:induction false} FlushAllStaysTight(s: Pipeline)
    requires Tight(s)
    ensures Tight(FlushAll(s))
    decreases |s.pending|
  {
    if s.pending != [] {
      FlushKeepsRest(s, s.pending[0].key);
      FlushStaysTight(s, s.pending[0].key, Flush(s, s.pending[0].key));
      FlushAllStaysTight(Flush(s, s.pending[0].key));
    }
  }

  lemma EmitStaysTight(s: Pipeline, r: Rec, t: Pipeline)
    requires Tight(s) && t == Emit(s, r)
    ensures Tight(t)
  {
    var u := s.(lastEmitted := s.lastEmitted[r.key := r.monoNs]);
    assert AllGaps(u) == AllGaps(s);
    QueueStaysTight(u, r, t);
  }

  lemma BleStaysTight(s: Pipeline, e: Event, t: Pipeline)
    requires Tight(s) && e.Ble? && t == Apply(s, e)
    ensures Tight(t)
  {
    var r := RecordAt(s.ordinal, e.key, ClassOf(s, e.key, e.signature), e.at);
    var u := Issue(s.(signatures := s.signatures[e.key := e.signature]), r);
    assert AllGaps(u) == AllGaps(s);
    if s.stopping || s.failed || !e.readable || r.None? {
      assert SameLosses(s, t) && AllGaps(t) == AllGaps(s);
    } else if r.value.cls == Regular {
      assert t == Offer(u, r.value);
      if DueNow(u, r.value) { EmitStaysTight(u, r.value, t); } else { assert AllGaps(t) == AllGaps(u); }
    } else {
      assert t == Enqueue(Flush(u, e.key), r.value);
      FlushStaysTight(u, e.key, Flush(u, e.key));
      QueueStaysTight(Flush(u, e.key), r.value, t);
    }
  }

  lemma PredictionStaysTight(s: Pipeline, e: Event, t: Pipeline)
    requires Tight(s) && e.Predicted? && t == Apply(s, e)
    ensures Tight(t)
  {
    var r := RecordAt(s.ordinal, StreamKey(Probe, e.serial, 0), Prediction, e.at);
    if !s.stopping && !s.failed {
      assert AllGaps(Issue(s, r)) == AllGaps(s);
      if r.Some? { QueueStaysTight(Issue(s, r), r.value, t); }
    }
  }

  /** The writer moves accumulators, or loses sight of them, and counts no loss. */
  predicate OnlyMoves(s: Pipeline, t: Pipeline) {
    t.lost == s.lost && (t.gaps == s.gaps || t.gaps == []) && forall g | g in AllGaps(t) :: g in AllGaps(s)
  }

  lemma TopOnlyMoves(s: Pipeline, t: Pipeline)
    requires t == WriterTop(s)
    ensures OnlyMoves(s, t)
  {
    if s.phase == Top && s.gaps != [] {
      assert [s.gaps[0]] + s.gaps[1..] == s.gaps;
      assert AllGaps(t) == AllGaps(s);
    } else if s.phase == Top && s.queue != [] {
      BatchOnlyMoves(s, s.saved, t);
    }
  }

  lemma BatchOnlyMoves(s: Pipeline, saved: seq<Gap>, t: Pipeline)
    requires t == TakeBatch(s.(saved := saved)) && forall g | g in saved :: g in s.saved || g in InHand(s.phase)
    ensures OnlyMoves(s, t)
  {
    assert InHand(t.phase) == [];
  }

  lemma SaveOnlyMoves(s: Pipeline, t: Pipeline)
    requires t == GapSaved(s)
    ensures OnlyMoves(s, t)
  {
    if s.phase.SavingGap? {
      if s.phase.rest == [] {
        BatchOnlyMoves(s, s.saved + [s.phase.gap], t);
      } else {
        SamePlaces(s, s.phase.gap, s.phase.rest, t);
      }
    }
  }

  predicate KeepsGaps(s: Pipeline, t: Pipeline) {
    && t.lost == s.lost && t.gaps == s.gaps && t.saved == s.saved
    && (InHand(t.phase) == InHand(s.phase) || InHand(t.phase) == [])
  }

  lemma EndKeepsGaps(s: Pipeline)
    ensures KeepsGaps(s, WriterRaises(s)) && KeepsGaps(s, WriterCancelled(s))
  {
  }

  lemma AwaitKeepsGaps(s: Pipeline)
    ensures KeepsGaps(s, Wake(s)) && KeepsGaps(s, BatchCommitted(s))
  {
  }

  lemma StopKeepsGaps(s: Pipeline)
    ensures KeepsGaps(s, StopTimesOut(s)) && KeepsGaps(s, StopFinishes(s))
  {
    EndKeepsGaps(s);
  }

  lemma RestKeepsGaps(s: Pipeline, e: Event, t: Pipeline)
    requires t == Apply(s, e)
    requires e.WakeWriter? || e.CommitBatch? || e.RaiseInWriter? || e.CancelWriter? || e.TimeOutStop? || e.FinishStop?
    ensures KeepsGaps(s, t)
  {
    EndKeepsGaps(s);
    AwaitKeepsGaps(s);
    StopKeepsGaps(s);
    match e
    case WakeWriter => assert t == Wake(s);
    case CommitBatch => assert t == BatchCommitted(s);
    case RaiseInWriter => assert t == WriterRaises(s);
    case CancelWriter => assert t == WriterCancelled(s);
    case TimeOutStop => assert t == StopTimesOut(s);
    case FinishStop => assert t == StopFinishes(s);
  }

  lemma RestOnlyMoves(s: Pipeline, t: Pipeline)
    requires KeepsGaps(s, t)
    ensures OnlyMoves(s, t)
  {
  }

  lemma MovesStayTight(s: Pipeline, t: Pipeline)
    requires Tight(s) && OnlyMoves(s, t)
    ensures Tight(t)
  {
  }

  lemma WriterMoves(s: Pipeline, e: Event, t: Pipeline)
    requires t == Apply(s, e) && !e.Ble? && !e.Predicted? && !e.Timer? && !e.BeginStop?
    ensures OnlyMoves(s, t)
  {
    if e.RunWriter? {
      TopOnlyMoves(s, t);
    } else if e.SaveGap? {
      SaveOnlyMoves(s, t);
    } else {
      RestKeepsGaps(s, e, t);
      RestOnlyMoves(s, t);
    }
  }

  lemma StepStaysTight(s: Pipeline, e: Event, t: Pipeline)
    requires Tight(s) && t == Apply(s, e)
    ensures Tight(t)
  {
    if e.Ble? {
      BleStaysTight(s, e, t);
    } else if e.Predicted? {
      PredictionStaysTight(s, e, t);
    } else if e.Timer? {
      FlushStaysTight(s, e.key, Flush(s, e.key));
    } else if e.BeginStop? {
      FlushAllStaysTight(s);
      assert AllGaps(t) == AllGaps(FlushAll(s));
    } else {
      WriterMoves(s, e, t);
      MovesStayTight(s, t);
    }
  }

  lemma {:induction false} RunStaysTight(events: seq<Event>)
    ensures Tight(Run(events))
    decreases |events|
  {
    if events != [] {
      RunStaysTight(events[..|events| - 1]);
      StepStaysTight(Run(events[..|events| - 1]), events[|events| - 1], Run(events));
    }
  }

  /** In every state of a run that has not failed, an accumulator, saved or not, is of one subject,
      serial and class, counts exactly the losses booked to it, and runs from the earliest to the
      latest time one of them was received; and no two open ones are of the same kind. */
  lemma GapsAreTheirLosses(events: seq<Event>, s: Pipeline, g: Gap)
    requires s == Run(events) && !s.failed && g in AllGaps(s)
    ensures CountIn(s.lost, g.id) == g.count >= 1
    ensures forall l | l in s.lost && l.gap == g.id ::
              && l.rec.key.subject == g.key.subject && l.rec.key.serial == g.key.serial && l.rec.cls == g.key.cls
              && g.first <= l.rec.receivedUs <= g.last
    ensures LostAt(s.lost, g.id, g.first) && LostAt(s.lost, g.id, g.last)
    ensures OneForEach(s.gaps)
  {
    RunStaysTight(events);
    ReachableInv(events);
    var i :| 0 <= i < |AllGaps(s)| && AllGaps(s)[i] == g;
    assert GapExact(s.lost, AllGaps(s)[i]);
  }
}
