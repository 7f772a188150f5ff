/** local_capture.py: the bounded capture pipeline as a state machine over callbacks, timer
    firings, writer await-points and shutdown.

    Besides the supervisor's own fields the state carries a history: what was committed,
    coalesced away, dropped into which gap, and for every issued ordinal the record built with
    it, or none where the construction raised after the ordinal was taken. */
module Capture {
  import opened Wrappers
  import opened Sequences
  import R = Ranges

  const REGULAR_INTERVAL_NS: nat := 1_000_000_000
  const MAX_QUEUE_ITEMS: nat := 256
  const WRITE_BATCH_SIZE: nat := 50

  datatype Subject = Probe | Gauge | Node
  datatype CaptureClass = Regular | Transition | Prediction

  /** Subject kind, raw serial and stream: the key of the coalescing policy. */
  datatype StreamKey = StreamKey(subject: Subject, serial: int, stream: int)

  datatype Rec = Rec(ordinal: nat, key: StreamKey, cls: CaptureClass, receivedUs: int, monoNs: nat)

  /** Key of a loss accumulator; the only reason is queue overflow. */
  datatype LossKey = LossKey(subject: Subject, serial: int, cls: CaptureClass)
  datatype Gap = Gap(id: nat, key: LossKey, first: int, last: int, count: nat)
  datatype Loss = Loss(rec: Rec, gap: nat)

  /** Where the writer task is suspended, with the local variables it holds there. */
  datatype Phase =
    | Top
    | Waiting
    | SavingGap(gap: Gap, rest: seq<Gap>)
    | Committing(batch: seq<Rec>)
    | Returned
    | Raised
    | Cancelled(gaps: seq<Gap>, batch: seq<Rec>)

  /** `pending` and `gaps` are dicts in insertion order, keyed by stream and by loss key. */
  datatype Pipeline = Pipeline(
    queue: seq<Rec>, pending: seq<Rec>, timers: set<StreamKey>,
    lastEmitted: map<StreamKey, nat>, signatures: map<StreamKey, int>,
    gaps: seq<Gap>, ordinal: nat, stopping: bool, failed: bool, event: bool, phase: Phase,
    clean: bool, dropped: nat, coalescedCount: nat,
    committed: seq<Rec>, saved: seq<Gap>, coalesced: seq<Rec>, lost: seq<Loss>, rejected: nat, nextGap: nat,
    issued: seq<Option<Rec>>)

  const IDLE: Pipeline :=
    Pipeline([], [], {}, map[], map[], [], 0, false, false, false, Top, false, 0, 0, [], [], [], [], 0, 0, [])

  // ---- The drop policy ----------------------------------------------------------------

  /** The first queued record of class regular. */
  function FirstRegular(queue: seq<Rec>): (i: Option<nat>)
    ensures i.Some? ==> i.value < |queue| && queue[i.value].cls == Regular
    ensures i.Some? ==> forall j | 0 <= j < i.value :: queue[j].cls != Regular
    ensures i.None? ==> forall j | 0 <= j < |queue| :: queue[j].cls != Regular
  {
    if queue == [] then None
    else if queue[0].cls == Regular then Some(0)
    else
      var rest := FirstRegular(queue[1..]);
      assert forall j | 0 < j < |queue| :: queue[j] == queue[1..][j - 1];
      if rest.None? then None else Some(rest.value + 1)
  }

  function LossKeyOf(r: Rec): LossKey {
    LossKey(r.key.subject, r.key.serial, r.cls)
  }

  function GapIndex(gaps: seq<Gap>, key: LossKey): (i: Option<nat>)
    ensures i.Some? ==> i.value < |gaps| && gaps[i.value].key == key
    ensures i.None? ==> forall j | 0 <= j < |gaps| :: gaps[j].key != key
  {
    if gaps == [] then None
    else if gaps[0].key == key then Some(0)
    else
      var rest := GapIndex(gaps[1..], key);
      assert forall j | 0 < j < |gaps| :: gaps[j] == gaps[1..][j - 1];
      if rest.None? then None else Some(rest.value + 1)
  }

  function Widened(g: Gap, at: int): Gap {
    g.(first := R.Min(g.first, at), last := R.Max(g.last, at), count := g.count + 1)
  }

  /** The accumulators after one more loss, the accumulator it went to, and the next fresh id. */
  datatype Noted = Noted(gaps: seq<Gap>, id: nat, nextGap: nat)

  function NoteIn(gaps: seq<Gap>, nextGap: nat, r: Rec): Noted {
    var i := GapIndex(gaps, LossKeyOf(r));
    if i.Some? then Noted(gaps[i.value := Widened(gaps[i.value], r.receivedUs)], gaps[i.value].id, nextGap)
    else Noted(gaps + [Gap(nextGap, LossKeyOf(r), r.receivedUs, r.receivedUs, 1)], nextGap, nextGap + 1)
  }

  /** `_note_drop`: count the record in the accumulator of its key. */
  function NoteDrop(s: Pipeline, r: Rec): Pipeline {
    var n := NoteIn(s.gaps, s.nextGap, r);
    s.(dropped := s.dropped + 1, gaps := n.gaps, lost := s.lost + [Loss(r, n.id)], nextGap := n.nextGap)
  }

  /** What a full queue gives up for an incoming record, and what stays. */
  function Overflow(queue: seq<Rec>, r: Rec): (Rec, seq<Rec>)
    requires queue != []
  {
    var i := FirstRegular(queue);
    if i.Some? then (queue[i.value], Remove(queue, i.value) + [r])
    else if r.cls == Regular then (r, queue)
    else (queue[0], queue[1..] + [r])
  }

  /** A full queue gives up one of its own records, not the incoming one. */
  predicate MakesRoom(queue: seq<Rec>, r: Rec) {
    FirstRegular(queue).Some? || r.cls != Regular
  }

  /** `_enqueue`. */
  function Enqueue(s: Pipeline, r: Rec): Pipeline {
    if s.stopping || s.failed then s
    else if |s.queue| >= MAX_QUEUE_ITEMS then
      var (victim, queue) := Overflow(s.queue, r);
      var t := NoteDrop(s, victim);
      t.(queue := queue, event := t.event || MakesRoom(s.queue, r))
    else s.(queue := s.queue + [r], event := true)
  }

  // ---- The regular policy ----------------------------------------------------------------

  function PendingIndex(pending: seq<Rec>, key: StreamKey): (i: Option<nat>)
    ensures i.Some? ==> i.value < |pending| && pending[i.value].key == key
    ensures i.None? ==> forall j | 0 <= j < |pending| :: pending[j].key != key
  {
    if pending == [] then None
    else if pending[0].key == key then Some(0)
    else
      var rest := PendingIndex(pending[1..], key);
      assert forall j | 0 < j < |pending| :: pending[j] == pending[1..][j - 1];
      if rest.None? then None else Some(rest.value + 1)
  }

  predicate DueNow(s: Pipeline, r: Rec) {
    r.key !in s.lastEmitted || r.monoNs - s.lastEmitted[r.key] >= REGULAR_INTERVAL_NS
  }

  /** Emit a record and restart its stream's interval. */
  function Emit(s: Pipeline, r: Rec): Pipeline {
    Enqueue(s.(lastEmitted := s.lastEmitted[r.key := r.monoNs]), r)
  }

  /** The pending records once r is kept, and the record it supersedes, if any. */
  datatype Kept = Kept(pending: seq<Rec>, superseded: seq<Rec>)

  function KeepIn(pending: seq<Rec>, r: Rec): Kept {
    var i := PendingIndex(pending, r.key);
    if i.Some? then Kept(pending[i.value := r], [pending[i.value]]) else Kept(pending + [r], [])
  }

  /** Keep only the newest record of a stream until its timer fires. */
  function HoldBack(s: Pipeline, r: Rec): Pipeline {
    var k := KeepIn(s.pending, r);
    s.(pending := k.pending, coalesced := s.coalesced + k.superseded,
       coalescedCount := s.coalescedCount + |k.superseded|, timers := s.timers + {r.key})
  }

  /** `_offer_regular`: emit at most once per interval, else hold back. */
  function Offer(s: Pipeline, r: Rec): Pipeline {
    if DueNow(s, r) then Emit(s, r) else HoldBack(s, r)
  }

  /** `_flush_regular`: cancel the timer and emit the pending record of a stream. */
  function Flush(s: Pipeline, key: StreamKey): Pipeline {
    var i := PendingIndex(s.pending, key);
    var t := s.(timers := s.timers - {key});
    if i.None? then t else Emit(t.(pending := Remove(s.pending, i.value)), s.pending[i.value])
  }

  /** Shutdown flushes every pending stream in the dict's order. */
  function FlushAll(s: Pipeline): Pipeline
    decreases |s.pending|
  {
    if s.pending == [] then s
    else
      FlushKeepsRest(s, s.pending[0].key);
      FlushAll(Flush(s, s.pending[0].key))
  }

  lemma FlushKeepsRest(s: Pipeline, key: StreamKey)
    ensures |Flush(s, key).pending| == |s.pending| - if PendingIndex(s.pending, key).Some? then 1 else 0
  {
  }

  // ---- Callbacks ---------------------------------------------------------------------------

  /** A clock reading, a float of seconds: `NonFinite` if it, or it in the record's unit, is NaN
      or infinite. */
  datatype Reading = Finite(seconds: real) | NonFinite

  /** When an observation was received, by the wall clock and by the monotonic clock. */
  datatype Arrival = Arrival(epoch: Reading, monotonic: Reading)

  predicate FiniteArrival(at: Arrival) {
    at.epoch.Finite? && at.monotonic.Finite?
  }

  /** `int` of a float drops the fraction; it raises on NaN and infinities. */
  function Truncated(x: real): int {
    if x >= 0.0 then x.Floor else -(-x).Floor
  }

  /** The record `_new_record` builds with an ordinal, or none where a conversion raises. */
  function RecordAt(ordinal: nat, key: StreamKey, cls: CaptureClass, at: Arrival): (r: Option<Rec>)
    ensures r.Some? <==> FiniteArrival(at)
    ensures r.Some? ==> r.value.ordinal == ordinal
  {
    if !FiniteArrival(at) then None
    else Some(Rec(ordinal, key, cls, Truncated(at.epoch.seconds * 1_000_000.0),
                  R.Max(0, Truncated(at.monotonic.seconds * 1_000_000_000.0))))
  }

  /** `_new_record`: the ordinal is taken first; building the record may then raise. */
  function Issue(s: Pipeline, r: Option<Rec>): Pipeline {
    s.(ordinal := s.ordinal + 1, issued := s.issued + [r])
  }

  /** The class of an observation: an unchanged status signature makes it regular. */
  function ClassOf(s: Pipeline, key: StreamKey, signature: int): CaptureClass {
    if key in s.signatures && s.signatures[key] == signature then Regular else Transition
  }

  /** `_on_ble_observation`; `readable` says whether the device data could be read, which is
      settled before an ordinal is taken. */
  function OnBle(s: Pipeline, key: StreamKey, signature: int, at: Arrival, readable: bool): Pipeline {
    if s.stopping || s.failed then s
    else if !readable then s.(dropped := s.dropped + 1, rejected := s.rejected + 1)
    else
      var cls := ClassOf(s, key, signature);
      var r := RecordAt(s.ordinal, key, cls, at);
      var t := Issue(s.(signatures := s.signatures[key := signature]), r);
      if r.None? then t.(dropped := s.dropped + 1, rejected := s.rejected + 1)
      else if cls == Regular then Offer(t, r.value)
      else Enqueue(Flush(t, key), r.value)
  }

  /** `_on_prediction_observation`. */
  function OnPrediction(s: Pipeline, serial: int, at: Arrival): Pipeline {
    if s.stopping || s.failed then s
    else
      var r := RecordAt(s.ordinal, StreamKey(Probe, serial, 0), Prediction, at);
      var t := Issue(s, r);
      if r.None? then t else Enqueue(t, r.value)
  }

  function TimerFires(s: Pipeline, key: StreamKey): Pipeline {
    if key in s.timers then Flush(s, key) else s
  }

  // ---- The writer ---------------------------------------------------------------------------

  function TakeBatch(s: Pipeline): Pipeline {
    var n := if |s.queue| < WRITE_BATCH_SIZE then |s.queue| else WRITE_BATCH_SIZE;
    s.(queue := s.queue[n..], phase := if n == 0 then Top else Committing(s.queue[..n]))
  }

  /** The loop body up to its first await. */
  function WriterTop(s: Pipeline): Pipeline {
    if s.phase != Top then s
    else if s.queue == [] && s.gaps == [] then
      if s.stopping then s.(phase := Returned) else s.(phase := Waiting, event := false)
    else if s.gaps != [] then s.(phase := SavingGap(s.gaps[0], s.gaps[1..]), gaps := [])
    else TakeBatch(s)
  }

  function Wake(s: Pipeline): Pipeline {
    if s.phase == Waiting && s.event then s.(phase := Top) else s
  }

  function GapSaved(s: Pipeline): Pipeline {
    if !s.phase.SavingGap? then s
    else
      var t := s.(saved := s.saved + [s.phase.gap]);
      if s.phase.rest != [] then t.(phase := SavingGap(s.phase.rest[0], s.phase.rest[1..])) else TakeBatch(t)
  }

  function BatchCommitted(s: Pipeline): Pipeline {
    if !s.phase.Committing? then s else s.(committed := s.committed + s.phase.batch, phase := Top)
  }

  function WriterRaises(s: Pipeline): Pipeline {
    if s.phase.SavingGap? || s.phase.Committing? then s.(phase := Raised, failed := true) else s
  }

  function InHand(p: Phase): seq<Gap> {
    match p
    case SavingGap(gap, rest) => [gap] + rest
    case Cancelled(gaps, _) => gaps
    case _ => []
  }

  function BatchOf(p: Phase): seq<Rec> {
    match p
    case Committing(batch) => batch
    case Cancelled(_, batch) => batch
    case _ => []
  }

  predicate Ended(p: Phase) {
    p.Returned? || p.Raised? || p.Cancelled?
  }

  function WriterCancelled(s: Pipeline): Pipeline {
    if Ended(s.phase) then s else s.(phase := Cancelled(InHand(s.phase), BatchOf(s.phase)))
  }

  // ---- Shutdown -------------------------------------------------------------------------------

  /** `async_stop` up to waiting for the writer. */
  function StopBegins(s: Pipeline): Pipeline {
    FlushAll(s).(stopping := true, timers := {}, event := true)
  }

  /** The writer did not end in time: it is cancelled and the run counts as failed. */
  function StopTimesOut(s: Pipeline): Pipeline {
    if !s.stopping || Ended(s.phase) then s else WriterCancelled(s).(failed := true)
  }

  /** The writer ended by itself and nothing failed: the run is marked clean. */
  function StopFinishes(s: Pipeline): Pipeline {
    if s.stopping && s.phase.Returned? && !s.failed then s.(clean := true) else s
  }

  // ---- Runs -------------------------------------------------------------------------------------

  datatype Event =
    | Ble(key: StreamKey, signature: int, at: Arrival, readable: bool)
    | Predicted(serial: int, at: Arrival)
    | Timer(key: StreamKey)
    | RunWriter | WakeWriter | SaveGap | CommitBatch | RaiseInWriter | CancelWriter
    | BeginStop | TimeOutStop | FinishStop

  function Apply(s: Pipeline, e: Event): Pipeline {
    match e
    case Ble(key, signature, at, readable) => OnBle(s, key, signature, at, readable)
    case Predicted(serial, at) => OnPrediction(s, serial, at)
    case Timer(key) => TimerFires(s, key)
    case RunWriter => WriterTop(s)
    case WakeWriter => Wake(s)
    case SaveGap => GapSaved(s)
    case CommitBatch => BatchCommitted(s)
    case RaiseInWriter => WriterRaises(s)
    case CancelWriter => WriterCancelled(s)
    case BeginStop => StopBegins(s)
    case TimeOutStop => StopTimesOut(s)
    case FinishStop => StopFinishes(s)
  }

  function Run(events: seq<Event>): Pipeline {
    if events == [] then IDLE else Apply(Run(events[..|events| - 1]), events[|events| - 1])
  }
}
