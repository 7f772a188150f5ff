/** local_capture.py, `LocalCaptureSupervisor`: the fields its callbacks, timers and writer update
    in place. Every method is one atomic segment, from an entry or await to the next await, and
    is proved to perform one step of the pipeline. */
module LocalCapture {
  import opened Capture
  import opened Wrappers
  import opened Sequences
  import R = Ranges
  import CaptureInvariant

  /** One more ordinal was issued, and its record, if it was built, has this class. */
  predicate IssuedAs(before: seq<Option<Rec>>, after: seq<Option<Rec>>, cls: CaptureClass) {
    |after| == |before| + 1 && (after[|before|].Some? ==> after[|before|].value.cls == cls)
  }

  predicate Unchanged(signatures: map<StreamKey, int>, key: StreamKey, signature: int) {
    key in signatures && signatures[key] == signature
  }

  class LocalCaptureSupervisor {
    var queue: seq<Rec>
    var pendingRegular: seq<Rec>
    var regularTimers: set<StreamKey>
    var lastRegularEmitted: map<StreamKey, nat>
    var lastSignature: map<StreamKey, int>
    var pendingGaps: seq<Gap>
    var eventOrdinal: nat
    var stopping: bool
    var failed: bool
    var queueEvent: bool
    var writer: Phase
    var clean: bool
    var droppedObservations: nat
    var coalescedObservations: nat
    var nextGap: nat

    ghost var committed: seq<Rec>
    ghost var saved: seq<Gap>
    ghost var coalesced: seq<Rec>
    ghost var lost: seq<Loss>
    ghost var rejected: nat
    ghost var issued: seq<Option<Rec>>

    ghost function State(): Pipeline
      reads this
    {
      Pipeline(queue, pendingRegular, regularTimers, lastRegularEmitted, lastSignature, pendingGaps, eventOrdinal,
               stopping, failed, queueEvent, writer, clean, droppedObservations, coalescedObservations,
               committed, saved, coalesced, lost, rejected, nextGap, issued)
    }

    constructor ()
      ensures State() == IDLE
    {
      queue, pendingRegular, regularTimers := [], [], {};
      lastRegularEmitted, lastSignature, pendingGaps := map[], map[], [];
      eventOrdinal, stopping, failed, queueEvent, writer, clean := 0, false, false, false, Top, false;
      droppedObservations, coalescedObservations, nextGap := 0, 0, 0;
      committed, saved, coalesced, lost, rejected, issued := [], [], [], [], 0, [];
    }

    /** `_note_drop`: open an accumulator for the record's key, or widen the one there is. */
    method NoteDropped(record: Rec)
      modifies this`droppedObservations, this`pendingGaps, this`nextGap, this`lost
      ensures State() == NoteDrop(old(State()), record)
    {
      ghost var noted := NoteIn(pendingGaps, nextGap, record);
      droppedObservations := droppedObservations + 1;
      AccumulateLoss(record);
      lost := lost + [Loss(record, noted.id)];
    }

    method AccumulateLoss(record: Rec)
      modifies this`pendingGaps, this`nextGap
      ensures pendingGaps == NoteIn(old(pendingGaps), old(nextGap), record).gaps
      ensures nextGap == NoteIn(old(pendingGaps), old(nextGap), record).nextGap
    {
      var existing := GapIndex(pendingGaps, LossKeyOf(record));
      if existing.None? {
        pendingGaps := pendingGaps + [Gap(nextGap, LossKeyOf(record), record.receivedUs, record.receivedUs, 1)];
        nextGap := nextGap + 1;
        return;
      }
      var gap := pendingGaps[existing.value];
      gap := gap.(last := R.Max(gap.last, record.receivedUs));
      gap := gap.(first := R.Min(gap.first, record.receivedUs));
      gap := gap.(count := gap.count + 1);
      pendingGaps := pendingGaps[existing.value := gap];
    }

    /** The index of the first queued regular record, as the drop policy looks it up. */
    method RegularIndex() returns (index: Option<nat>)
      ensures index == FirstRegular(queue)
    {
      for i := 0 to |queue|
        invariant forall j | 0 <= j < i :: queue[j].cls != Regular
      {
        if queue[i].cls == Regular {
          return Some(i);
        }
      }
      return None;
    }

    /** Make room in a full queue; false when the incoming record itself is given up. */
    method MakeRoom(record: Rec) returns (room: bool)
      requires queue != []
      modifies this`queue, this`droppedObservations, this`pendingGaps, this`nextGap, this`lost
      ensures var (victim, kept) := Overflow(old(queue), record);
              && State() == NoteDrop(old(State()), victim).(queue := queue)
              && (room <==> MakesRoom(old(queue), record))
              && kept == if room then queue + [record] else queue
    {
      var regular := RegularIndex();
      if regular.Some? {
        var dropped := queue[regular.value];
        queue := Remove(queue, regular.value);
        NoteDropped(dropped);
        return true;
      }
      if record.cls == Regular {
        NoteDropped(record);
        return false;
      }
      var dropped := queue[0];
      queue := queue[1..];
      NoteDropped(dropped);
      return true;
    }

    /** `_enqueue`. */
    method EnqueueRecord(record: Rec)
      modifies this`queue, this`queueEvent, this`droppedObservations, this`pendingGaps, this`nextGap, this`lost
      ensures State() == Enqueue(old(State()), record)
    {
      if stopping || failed {
        return;
      }
      if |queue| >= MAX_QUEUE_ITEMS {
        var room := MakeRoom(record);
        if !room {
          return;
        }
      }
      queue := queue + [record];
      queueEvent := true;
    }

    // ---- The regular policy ---------------------------------------------------------------------

    /** Enqueue a regular record and restart its stream's interval. */
    method EmitRegular(record: Rec)
      modifies this`queue, this`queueEvent, this`droppedObservations, this`pendingGaps, this`nextGap, this`lost,
               this`lastRegularEmitted
      ensures State() == Emit(old(State()), record)
    {
      lastRegularEmitted := lastRegularEmitted[record.key := record.monoNs];
      EnqueueRecord(record);
    }

    /** `_flush_regular`: also what a timer runs when it fires. */
    method FlushRegular(key: StreamKey)
      modifies this`queue, this`queueEvent, this`droppedObservations, this`pendingGaps, this`nextGap, this`lost,
               this`regularTimers, this`pendingRegular, this`lastRegularEmitted
      ensures State() == Flush(old(State()), key)
    {
      regularTimers := regularTimers - {key};
      var index := PendingIndex(pendingRegular, key);
      if index.None? {
        return;
      }
      var record := pendingRegular[index.value];
      pendingRegular := Remove(pendingRegular, index.value);
      EmitRegular(record);
    }

    method OnTimer(key: StreamKey)
      modifies this`queue, this`queueEvent, this`droppedObservations, this`pendingGaps, this`nextGap, this`lost,
               this`regularTimers, this`pendingRegular, this`lastRegularEmitted
      ensures State() == TimerFires(old(State()), key)
    {
      if key in regularTimers {
        FlushRegular(key);
      }
    }

    /** `_offer_regular`. */
    method OfferRegular(record: Rec)
      modifies this`queue, this`queueEvent, this`droppedObservations, this`pendingGaps, this`nextGap, this`lost,
               this`regularTimers, this`pendingRegular, this`lastRegularEmitted, this`coalescedObservations,
                   this`coalesced
      ensures State() == Offer(old(State()), record)
    {
      if record.key !in lastRegularEmitted || record.monoNs - lastRegularEmitted[record.key] >= REGULAR_INTERVAL_NS {
        EmitRegular(record);
      } else {
        KeepPending(record);
      }
    }

    /** Only the newest record of a stream stays pending; the one it replaces is coalesced. */
    method KeepPending(record: Rec)
      modifies this`pendingRegular, this`coalescedObservations, this`coalesced, this`regularTimers
      ensures State() == HoldBack(old(State()), record)
    {
      coalesced := coalesced + KeepIn(pendingRegular, record).superseded;
      ReplacePending(record);
      StartTimer(record.key);
    }

    /** One timer per stream: a running one is left alone. */
    method StartTimer(key: StreamKey)
      modifies this`regularTimers
      ensures regularTimers == old(regularTimers) + {key}
    {
      if key !in regularTimers {
        regularTimers := regularTimers + {key};
      }
    }

    method ReplacePending(record: Rec)
      modifies this`pendingRegular, this`coalescedObservations
      ensures pendingRegular == KeepIn(old(pendingRegular), record).pending
      ensures coalescedObservations == old(coalescedObservations) + |KeepIn(old(pendingRegular), record).superseded|
    {
      var index := PendingIndex(pendingRegular, record.key);
      if index.Some? {
        coalescedObservations := coalescedObservations + 1;
        pendingRegular := pendingRegular[index.value := record];
      } else {
        pendingRegular := pendingRegular + [record];
      }
    }

    // ---- Callbacks --------------------------------------------------------------------------------

    /** `_new_record`: the ordinal is taken before the record is built, which may raise. */
    method NewRecord(key: StreamKey, cls: CaptureClass, at: Arrival) returns (record: Option<Rec>)
      modifies this`eventOrdinal, this`issued
      ensures record == RecordAt(old(eventOrdinal), key, cls, at)
      ensures State() == Issue(old(State()), record)
    {
      var ordinal := eventOrdinal;
      eventOrdinal := eventOrdinal + 1;
      if at.epoch.NonFinite? || at.monotonic.NonFinite? {
        record := None;
      } else {
        var receivedUs := Truncated(at.epoch.seconds * 1_000_000.0);
        var monoNs := R.Max(0, Truncated(at.monotonic.seconds * 1_000_000_000.0));
        record := Some(Rec(ordinal, key, cls, receivedUs, monoNs));
      }
      issued := issued + [record];
    }

    /** `_signature_changed`. */
    method SignatureChanged(key: StreamKey, signature: int) returns (changed: bool)
      modifies this`lastSignature
      ensures changed <==> !(key in old(lastSignature) && old(lastSignature)[key] == signature)
      ensures lastSignature == old(lastSignature)[key := signature]
    {
      changed := key !in lastSignature || lastSignature[key] != signature;
      lastSignature := lastSignature[key := signature];
    }

    method Reject()
      modifies this`droppedObservations, this`rejected
      ensures State() == old(State()).(dropped := old(State()).dropped + 1, rejected := old(State()).rejected + 1)
    {
      droppedObservations := droppedObservations + 1;
      rejected := rejected + 1;
    }

    /** `_on_ble_observation`. */
    method OnBleObservation(key: StreamKey, signature: int, at: Arrival, readable: bool)
      modifies this
      ensures State() == OnBle(old(State()), key, signature, at, readable)
      ensures !old(stopping) && !old(failed) && readable ==>
                IssuedAs(old(issued), issued, if Unchanged(old(lastSignature), key, signature) then Regular
                                                                                               else Transition)
    {
      if stopping || failed {
        return;
      }
      if !readable {
        Reject();
        return;
      }
      ghost var cls := ClassOf(State(), key, signature);
      CaptureInvariant.ReadableIssues(State(), key, signature, at, RecordAt(eventOrdinal, key, cls, at));
      var changed := SignatureChanged(key, signature);
      var record := NewRecord(key, if changed then Transition else Regular, at);
      if record.None? {
        Reject();
        return;
      }
      if !changed {
        OfferRegular(record.value);
        return;
      }
      FlushRegular(key);
      EnqueueRecord(record.value);
    }

    /** `_on_prediction_observation`. */
    method OnPredictionObservation(serial: int, at: Arrival)
      modifies this
      ensures State() == OnPrediction(old(State()), serial, at)
    {
      if stopping || failed {
        return;
      }
      var record := NewRecord(StreamKey(Probe, serial, 0), Prediction, at);
      if record.Some? {
        EnqueueRecord(record.value);
      }
    }

    // ---- The writer, from await to await ------------------------------------------------------------

    /** Take up to one batch from the queue and start committing it, if there is any. */
    method TakeNextBatch()
      modifies this`queue, this`writer
      ensures State() == TakeBatch(old(State()))
    {
      var count := if |queue| < WRITE_BATCH_SIZE then |queue| else WRITE_BATCH_SIZE;
      var batch := queue[..count];
      queue := queue[count..];
      writer := if batch == [] then Top else Committing(batch);
    }

    /** The writer loop from its top to its first await. */
    method WriterLoopTop()
      requires writer == Top
      modifies this`queue, this`writer, this`queueEvent, this`pendingGaps
      ensures State() == WriterTop(old(State()))
    {
      if queue == [] && pendingGaps == [] {
        if stopping {
          writer := Returned;
        } else {
          queueEvent := false;
          writer := Waiting;
        }
        return;
      }
      if pendingGaps != [] {
        writer := SavingGap(pendingGaps[0], pendingGaps[1..]);
        pendingGaps := [];
        return;
      }
      TakeNextBatch();
    }

    /** The wait on the queue event returns. */
    method WriterWoken()
      requires writer == Waiting && queueEvent
      modifies this`writer
      ensures State() == Wake(old(State()))
    {
      writer := Top;
    }

    /** One gap record was saved. */
    method WriterGapSaved()
      requires writer.SavingGap?
      modifies this`queue, this`writer, this`saved
      ensures State() == GapSaved(old(State()))
    {
      var rest := writer.rest;
      saved := saved + [writer.gap];
      if rest != [] {
        writer := SavingGap(rest[0], rest[1..]);
        return;
      }
      TakeNextBatch();
    }

    /** The batch was committed. */
    method WriterBatchCommitted()
      requires writer.Committing?
      modifies this`writer, this`committed
      ensures State() == BatchCommitted(old(State()))
    {
      committed := committed + writer.batch;
      writer := Top;
    }

    /** An archive write raised. */
    method WriterRaised()
      requires writer.SavingGap? || writer.Committing?
      modifies this`writer, this`failed
      ensures State() == WriterRaises(old(State()))
    {
      failed := true;
      writer := Raised;
    }

    // ---- Shutdown -----------------------------------------------------------------------------------

    /** Flush every pending stream, oldest entry first. */
    method FlushPending()
      modifies this`queue, this`queueEvent, this`droppedObservations, this`pendingGaps, this`nextGap, this`lost,
               this`regularTimers, this`pendingRegular, this`lastRegularEmitted
      ensures State() == FlushAll(old(State()))
    {
      ghost var all := FlushAll(State());
      while pendingRegular != []
        invariant FlushAll(State()) == all
        decreases |pendingRegular|
      {
        FlushKeepsRest(State(), pendingRegular[0].key);
        FlushRegular(pendingRegular[0].key);
      }
    }

    /** `async_stop` up to waiting for the writer: flush what is pending, then refuse everything. */
    method AsyncStopBegins()
      modifies this
      ensures State() == StopBegins(old(State()))
    {
      FlushPending();
      stopping := true;
      regularTimers := {};
      queueEvent := true;
    }

    /** The shutdown timeout expired while the writer was still running. */
    method AsyncStopTimedOut()
      requires stopping && !Ended(writer)
      modifies this`writer, this`failed
      ensures State() == StopTimesOut(old(State()))
    {
      writer := Cancelled(InHand(writer), BatchOf(writer));
      failed := true;
    }

    /** The writer ended by itself: mark the run clean unless capture failed. */
    method AsyncStopFinishes()
      requires stopping && (writer.Returned? || writer.Raised?)
      requires CaptureInvariant.Control(State())
      modifies this`clean
      ensures State() == StopFinishes(old(State()))
    {
      if !failed {
        clean := true;
      }
    }
  }
}
