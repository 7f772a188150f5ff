/** The writer's command queue: every accepted write runs exactly once, in order, before the
    writer closes; and exactly when that can fail. */
module Drain {
  import opened Fence
  import opened FenceInvariant
  import opened Wrappers
  import opened Sequences

  /** The writes waiting in a queue. */
  function Writes(queue: seq<Command>): seq<nat> {
    if queue == [] then []
    else (if queue[0].Write? then [queue[0].id] else []) + Writes(queue[1..])
  }

  lemma {:induction false} WritesAppend(a: seq<Command>, c: Command)
    ensures Writes(a + [c]) == Writes(a) + if c.Write? then [c.id] else []
    decreases |a|
  {
    if a == [] {
      assert [c][1..] == [] && [] + [c] == [c];
    } else {
      WritesAppend(a[1..], c);
      assert (a + [c])[0] == a[0] && (a + [c])[1..] == a[1..] + [c];
      Joined(if a[0].Write? then [a[0].id] else [], Writes(a[1..]), if c.Write? then [c.id] else []);
    }
  }

  // ---- Exactly once, in order: every run -----------------------------------------------------

  /** What was accepted is what has run, then what waits, in order. */
  predicate InOrder(d: Db) {
    d.accepted == d.executed + Writes(d.queue)
  }

  predicate AllInOrder(s: Process) {
    forall o: nat | o < |s.dbs| :: InOrder(s.dbs[o])
  }

  /** Only these fields changed in each object. */
  predicate SameWrites(s: Process, t: Process) {
    && |t.dbs| == |s.dbs|
    && forall o | 0 <= o < |s.dbs| ::
         && t.dbs[o].accepted == s.dbs[o].accepted && t.dbs[o].executed == s.dbs[o].executed
         && Writes(t.dbs[o].queue) == Writes(s.dbs[o].queue)
  }

  lemma SameWritesKeep(s: Process, t: Process)
    requires AllInOrder(s) && SameWrites(s, t)
    ensures AllInOrder(t)
  {
    forall o: nat | o < |t.dbs| ensures InOrder(t.dbs[o]) { assert InOrder(s.dbs[o]); }
  }

  lemma WriteInOrder(s: Process, o: ObjectId, w: nat)
    requires AllInOrder(s)
    ensures AllInOrder(SubmitWrite(s, o, w))
  {
    if o < |s.dbs| && s.dbs[o].accepting {
      assert InOrder(s.dbs[o]);
      WritesAppend(s.dbs[o].queue, Write(w));
    }
  }

  lemma TakeInOrder(s: Process, t: ThreadId)
    requires AllInOrder(s)
    ensures AllInOrder(TakeCommand(s, t))
  {
    if TakeCommand(s, t) != s {
      var o := s.writers[t].db;
      assert InOrder(s.dbs[o]);
    }
  }

  lemma TailKeepsWrites(s: Process, o: ObjectId)
    requires o < |s.dbs|
    ensures SameWrites(s, StopTail(s, o)) && SameWrites(s, StartCleanup(s, o))
    ensures SameWrites(s, StopEnds(s, o, false)) && SameWrites(s, StopEnds(s, o, true))
  {
  }

  lemma StopInOrder(s: Process, o: ObjectId)
    requires AllInOrder(s)
    ensures AllInOrder(Stop(s, o))
  {
    if o < |s.dbs| && !s.dbs[o].stopped {
      var closed := WithDb(s, o, s.dbs[o].(accepting := false));
      SameWritesKeep(s, closed);
      if s.dbs[o].thread.Some? {
        WritesAppend(s.dbs[o].queue, StopCommand);
        SameWritesKeep(s, Stop(s, o));
      } else {
        TailKeepsWrites(closed, o);
        SameWritesKeep(closed, Stop(s, o));
      }
    }
  }

  lemma CleanupInOrder(s: Process, i: nat)
    requires AllInOrder(s)
    ensures AllInOrder(StartJoined(s, i)) && AllInOrder(StopJoined(s, i)) && AllInOrder(PoolShut(s, i))
  {
    if i < |s.calls| && s.calls[i].o < |s.dbs| {
      TailKeepsWrites(s.(calls := Remove(s.calls, i)), s.calls[i].o);
      SameWritesKeep(s, StartJoined(s, i));
      SameWritesKeep(s, StopJoined(s, i));
      SameWritesKeep(s, PoolShut(s, i));
    }
  }

  lemma StartResumesInOrder(s: Process, i: nat)
    requires AllInOrder(s)
    ensures AllInOrder(StartResumes(s, i))
  {
    var t := StartResumes(s, i);
    if t != s {
      var o, resumed := s.calls[i].o, s.(calls := Remove(s.calls, i));
      SameWritesKeep(s, resumed);
      if s.writers[s.calls[i].started].life.OpenFailed? && s.dbs[o].thread.None? {
        TailKeepsWrites(resumed, o);
      }
      assert SameWrites(resumed, t);
      SameWritesKeep(resumed, t);
    }
  }

  lemma CancelInOrder(s: Process, i: nat)
    requires AllInOrder(s)
    ensures AllInOrder(CancelCall(s, i))
  {
    SameWritesKeep(s, CancelCall(s, i));
  }

  lemma OtherInOrder(s: Process, e: Event)
    requires AllInOrder(s)
    requires e.ObjectMade? || e.StartCalled? || e.WriteRaised? || e.IntakeClosed? || e.DiscardCalled?
             || e.ThreadOpened? || e.ThreadClosed?
    ensures AllInOrder(Apply(s, e))
  {
    if !e.ObjectMade? { SameWritesKeep(s, Apply(s, e)); }
  }

  lemma StepInOrder(s: Process, e: Event)
    requires AllInOrder(s)
    ensures AllInOrder(Apply(s, e))
  {
    match e
    case WriteCalled(o, w) => WriteInOrder(s, o, w);
    case ThreadTook(t) => TakeInOrder(s, t);
    case StopCalled(o) => StopInOrder(s, o);
    case StartContinues(i) => StartResumesInOrder(s, i);
    case CallCancelled(i) => CancelInOrder(s, i);
    case StartJoinEnded(i) => CleanupInOrder(s, i);
    case StopJoinEnded(i) => CleanupInOrder(s, i);
    case PoolEnded(i) => CleanupInOrder(s, i);
    case _ => OtherInOrder(s, e);
  }

  lemma {:induction false} RunInOrder(s: Process, events: seq<Event>)
    requires AllInOrder(s)
    ensures AllInOrder(Run(s, events))
    decreases |events|
  {
    if events != [] {
      RunInOrder(s, events[..|events| - 1]);
      StepInOrder(Run(s, events[..|events| - 1]), events[|events| - 1]);
    }
  }

  /** Every run: accepted writes run at most once, in the order they were accepted, and those
      that have not run yet wait in the queue. */
  lemma WritesRunInOrder(events: seq<Event>)
    ensures AllInOrder(Run(IDLE, events))
  {
    RunInOrder(IDLE, events);
  }

  // ---- Nothing is left behind: runs whose starts resume clean --------------------------------------

  predicate ServedBy(s: Process, o: ObjectId, t: ThreadId) {
    o < |s.dbs| && t < |s.writers| && s.dbs[o].thread == Some(t) && s.writers[t] == Writer(o, Serving)
  }

  predicate Served(s: Process, o: ObjectId) {
    o < |s.dbs| && s.dbs[o].thread.Some? && ServedBy(s, o, s.dbs[o].thread.value)
  }

  predicate NoStop(queue: seq<Command>) {
    forall i | 0 <= i < |queue| :: queue[i].Write?
  }

  /** No write waits behind a stop. */
  predicate StopsLast(queue: seq<Command>) {
    forall i, j | 0 <= i < j < |queue| && queue[i].StopCommand? :: queue[j].StopCommand?
  }

  /** Intake is open only while a writer serves an unstopped queue; waiting writes come before
      any stop and have a writer serving them. */
  predicate QueueOk(s: Process, o: ObjectId)
    requires o < |s.dbs|
  {
    var d := s.dbs[o];
    && StopsLast(d.queue)
    && (d.accepting ==> Served(s, o) && NoStop(d.queue))
    && (Writes(d.queue) != [] ==> Served(s, o))
  }

  predicate QueuesOk(s: Process) {
    forall o: nat | o < |s.dbs| :: QueueOk(s, o)
  }

  /** The start returns while a writer serves the object and no stop is queued. */
  predicate ReturnsClean(s: Process, i: nat) {
    i < |s.calls| && Served(s, s.calls[i].o) && NoStop(s.dbs[s.calls[i].o].queue)
  }

  /** The start returns successfully: its writer opened. */
  predicate StartReturns(s: Process, i: nat) {
    && i < |s.calls| && s.calls[i].StartWait? && s.calls[i].o < |s.dbs| && s.calls[i].started < |s.writers|
    && !s.writers[s.calls[i].started].life.Opening? && !s.writers[s.calls[i].started].life.OpenFailed?
  }

  predicate Clean(s: Process, e: Event) {
    Careful(s, e) && (e.StartContinues? && StartReturns(s, e.i) ==> ReturnsClean(s, e.i))
  }

  predicate CleanRun(s: Process, events: seq<Event>)
    decreases |events|
  {
    events == [] || (CleanRun(s, events[..|events| - 1]) && Clean(Run(s, events[..|events| - 1]), events[|events| - 1]))
  }

  lemma {:induction false} NoWrites(queue: seq<Command>)
    requires forall i | 0 <= i < |queue| :: queue[i].StopCommand?
    ensures Writes(queue) == []
    decreases |queue|
  {
    if queue != [] {
      assert forall i | 0 <= i < |queue[1..]| :: queue[1..][i] == queue[i + 1];
      NoWrites(queue[1..]);
    }
  }

  /** Objects whose queue, intake and serving writer are as before. */
  predicate SameQueue(s: Process, t: Process, o: ObjectId)
    requires o < |s.dbs| && o < |t.dbs|
  {
    t.dbs[o].queue == s.dbs[o].queue && (t.dbs[o].accepting ==> s.dbs[o].accepting) && (Served(s, o) ==> Served(t, o))
  }

  lemma SameQueuesKeep(s: Process, t: Process)
    requires QueuesOk(s) && |t.dbs| == |s.dbs| && forall o: nat | o < |s.dbs| :: SameQueue(s, t, o)
    ensures QueuesOk(t)
  {
    forall o: nat | o < |t.dbs| ensures QueueOk(t, o) { assert QueueOk(s, o) && SameQueue(s, t, o); }
  }

  lemma StopTailKeepsQueues(s: Process, o: ObjectId)
    requires QueuesOk(s) && o < |s.dbs| && Quiet(s, o)
    ensures QueuesOk(StopTail(s, o))
  {
    var t := StopTail(s, o);
    forall p: nat | p < |s.dbs| ensures SameQueue(s, t, p) {}
    SameQueuesKeep(s, t);
  }

  lemma StartCleanupKeepsQueues(s: Process, o: ObjectId)
    requires QueuesOk(s) && o < |s.dbs| && Quiet(s, o)
    ensures QueuesOk(StartCleanup(s, o))
  {
    var t := StartCleanup(s, o);
    forall p: nat | p < |s.dbs| ensures SameQueue(s, t, p) {}
    SameQueuesKeep(s, t);
  }

  lemma StopKeepsQueues(s: Process, o: ObjectId)
    requires FenceOk(s) && QueuesOk(s)
    ensures QueuesOk(Stop(s, o))
  {
    if Stop(s, o) != s {
      var d := s.dbs[o].(accepting := false);
      if d.thread.Some? {
        var t := Stop(s, o);
        WritesAppend(d.queue, StopCommand);
        forall p: nat | p < |t.dbs| ensures QueueOk(t, p) { assert QueueOk(s, p); }
      } else {
        var closed := WithDb(s, o, d);
        forall p: nat | p < |s.dbs| ensures SameQueue(s, closed, p) {}
        SameQueuesKeep(s, closed);
        StopTailKeepsQueues(closed, o);
      }
    }
  }

  lemma WriteKeepsQueues(s: Process, o: ObjectId, w: nat)
    requires QueuesOk(s)
    ensures QueuesOk(SubmitWrite(s, o, w))
  {
    if o < |s.dbs| && s.dbs[o].accepting {
      var t := SubmitWrite(s, o, w);
      forall p: nat | p < |t.dbs| ensures QueueOk(t, p) { assert QueueOk(s, p); }
    }
  }

  lemma TakeKeepsQueues(s: Process, t: ThreadId)
    requires FenceOk(s) && QueuesOk(s)
    ensures QueuesOk(TakeCommand(s, t))
  {
    var u := TakeCommand(s, t);
    if u != s {
      var o := s.writers[t].db;
      var queue := s.dbs[o].queue;
      assert WriterOk(s, t) && QueueOk(s, o);
      assert forall i | 0 <= i < |queue[1..]| :: queue[1..][i] == queue[i + 1];
      if queue[0].StopCommand? { NoWrites(queue[1..]); }
      forall p: nat | p < |u.dbs|
        ensures QueueOk(u, p)
      {
        assert QueueOk(s, p);
        assert p != o && Served(s, p) ==> DbOk(s, p) && s.dbs[p].thread != Some(t);
      }
    }
  }

  lemma StartResumesKeepsQueues(s: Process, i: nat)
    requires FenceOk(s) && QueuesOk(s) && (StartReturns(s, i) ==> ReturnsClean(s, i))
    ensures QueuesOk(StartResumes(s, i))
  {
    var t := StartResumes(s, i);
    if t != s {
      var o := s.calls[i].o;
      if StartReturns(s, i) {
        forall p: nat | p < |t.dbs| ensures QueueOk(t, p) { assert QueueOk(s, p); }
      } else if s.dbs[o].thread.Some? {
        forall p: nat | p < |s.dbs| ensures SameQueue(s, t, p) {}
        SameQueuesKeep(s, t);
      } else {
        CallsDroppedKeepQueues(s, i);
        StartCleanupKeepsQueues(s.(calls := Remove(s.calls, i)), o);
      }
    }
  }

  lemma CallsDroppedKeepQueues(s: Process, i: nat)
    requires QueuesOk(s) && i < |s.calls|
    ensures QueuesOk(s.(calls := Remove(s.calls, i)))
  {
    var t := s.(calls := Remove(s.calls, i));
    forall p: nat | p < |s.dbs| ensures SameQueue(s, t, p) {}
    SameQueuesKeep(s, t);
  }

  lemma CleanupKeepsQueues(s: Process, i: nat)
    requires FenceOk(s) && QueuesOk(s)
    ensures QueuesOk(StartJoined(s, i)) && QueuesOk(StopJoined(s, i))
  {
    if i < |s.calls| {
      assert CallOk(s, s.calls[i]);
      CallsDroppedKeepQueues(s, i);
      var c, resumed := s.calls[i], s.(calls := Remove(s.calls, i));
      if (c.StartJoin? || c.StopJoin?) && !ThreadAlive(s, Some(c.thread)) {
        StartCleanupKeepsQueues(resumed, c.o);
        StopTailKeepsQueues(resumed, c.o);
      }
    }
  }

  lemma PoolKeepsQueues(s: Process, i: nat)
    requires FenceOk(s) && QueuesOk(s)
    ensures QueuesOk(PoolShut(s, i)) && QueuesOk(CancelCall(s, i))
  {
    var t := PoolShut(s, i);
    forall p: nat | p < |s.dbs| ensures SameQueue(s, t, p) {}
    SameQueuesKeep(s, t);
    if i < |s.calls| { CallsDroppedKeepQueues(s, i); }
  }

  lemma StartKeepsQueues(s: Process, o: ObjectId)
    requires FenceOk(s) && QueuesOk(s)
    ensures QueuesOk(Start(s, o))
  {
    var t := Start(s, o);
    if t != s {
      forall p: nat | p < |t.dbs| ensures QueueOk(t, p) { assert QueueOk(s, p) && DbOk(s, p); }
    }
  }

  lemma IntakeKeepsQueues(s: Process, o: ObjectId)
    requires QueuesOk(s)
    ensures QueuesOk(CloseIntake(s, o)) && QueuesOk(WriteFailed(s, o)) && QueuesOk(Discard(s, o))
  {
    var t, u, v := CloseIntake(s, o), WriteFailed(s, o), Discard(s, o);
    forall p: nat | p < |s.dbs| ensures SameQueue(s, t, p) && SameQueue(s, u, p) && SameQueue(s, v, p) {}
    SameQueuesKeep(s, t);
    SameQueuesKeep(s, u);
    SameQueuesKeep(s, v);
  }

  lemma ThreadKeepsQueues(s: Process, t: ThreadId, ok: bool)
    requires QueuesOk(s)
    ensures QueuesOk(Opened(s, t, ok)) && QueuesOk(Closed(s, t, ok))
  {
    var u, v := Opened(s, t, ok), Closed(s, t, ok);
    forall p: nat | p < |s.dbs| ensures SameQueue(s, u, p) && SameQueue(s, v, p) {}
    SameQueuesKeep(s, u);
    SameQueuesKeep(s, v);
  }

  lemma CreateKeepsQueues(s: Process, path: Path)
    requires QueuesOk(s)
    ensures QueuesOk(s.(dbs := s.dbs + [NewDb(path)]))
  {
    var t := s.(dbs := s.dbs + [NewDb(path)]);
    forall o: nat | o < |t.dbs| ensures QueueOk(t, o) { assert o < |s.dbs| ==> QueueOk(s, o); }
  }

  lemma CallKeepsQueues(s: Process, e: Event)
    requires FenceOk(s) && QueuesOk(s) && Clean(s, e)
    requires e.StartCalled? || e.StartContinues? || e.StartJoinEnded? || e.StopCalled? || e.StopJoinEnded?
             || e.PoolEnded? || e.CallCancelled?
    ensures QueuesOk(Apply(s, e))
  {
    match e
    case StartCalled(o) => StartKeepsQueues(s, o);
    case StartContinues(i) => StartResumesKeepsQueues(s, i);
    case StartJoinEnded(i) => CleanupKeepsQueues(s, i);
    case StopCalled(o) => StopKeepsQueues(s, o);
    case StopJoinEnded(i) => CleanupKeepsQueues(s, i);
    case PoolEnded(i) => PoolKeepsQueues(s, i);
    case CallCancelled(i) => PoolKeepsQueues(s, i);
  }

  lemma OtherKeepsQueues(s: Process, e: Event)
    requires FenceOk(s) && QueuesOk(s)
    requires e.ObjectMade? || e.WriteCalled? || e.WriteRaised? || e.IntakeClosed? || e.DiscardCalled?
             || e.ThreadOpened? || e.ThreadTook? || e.ThreadClosed?
    ensures QueuesOk(Apply(s, e))
  {
    match e
    case ObjectMade(path) => CreateKeepsQueues(s, path);
    case WriteCalled(o, w) => WriteKeepsQueues(s, o, w);
    case WriteRaised(o) => IntakeKeepsQueues(s, o);
    case IntakeClosed(o) => IntakeKeepsQueues(s, o);
    case DiscardCalled(o) => IntakeKeepsQueues(s, o);
    case ThreadOpened(t, ok) => ThreadKeepsQueues(s, t, ok);
    case ThreadTook(t) => TakeKeepsQueues(s, t);
    case ThreadClosed(t, ok) => ThreadKeepsQueues(s, t, ok);
  }

  lemma CleanStepKeepsQueues(s: Process, e: Event)
    requires FenceOk(s) && QueuesOk(s) && Clean(s, e)
    ensures QueuesOk(Apply(s, e))
  {
    if e.StartCalled? || e.StartContinues? || e.StartJoinEnded? || e.StopCalled? || e.StopJoinEnded?
       || e.PoolEnded? || e.CallCancelled? {
      CallKeepsQueues(s, e);
    } else {
      OtherKeepsQueues(s, e);
    }
  }

  /** What a clean run keeps, from any state that satisfies it. */
  predicate DrainOk(s: Process) {
    FenceOk(s) && QueuesOk(s) && AllInOrder(s)
  }

  lemma {:induction false} CleanRunKeeps(s: Process, events: seq<Event>)
    requires DrainOk(s) && CleanRun(s, events)
    ensures DrainOk(Run(s, events))
    decreases |events|
  {
    RunInOrder(s, events);
    if events != [] {
      var before, e := Run(s, events[..|events| - 1]), events[|events| - 1];
      CleanRunKeeps(s, events[..|events| - 1]);
      StepKeepsFence(before, e);
      CleanStepKeepsQueues(before, e);
    }
  }

  /** Unless a writer is serving the object, every write it ever accepted has run, once and in
      the order of acceptance. */
  predicate Drained(s: Process, o: ObjectId) {
    o < |s.dbs| && !Served(s, o) ==> s.dbs[o].executed == s.dbs[o].accepted
  }

  lemma OkDrains(s: Process, o: ObjectId)
    requires DrainOk(s)
    ensures Drained(s, o)
  {
    if o < |s.dbs| {
      assert QueueOk(s, o) && InOrder(s.dbs[o]);
    }
  }

  /** Over every clean run: whenever no writer serves an object, every write it ever accepted
      has run exactly once, in the order of acceptance. In particular a writer leaves its loop,
      and closes, only after all of them. */
  lemma EveryAcceptedWriteRuns(events: seq<Event>, o: ObjectId)
    requires CleanRun(IDLE, events)
    ensures Drained(Run(IDLE, events), o)
  {
    CleanRunKeeps(IDLE, events);
    OkDrains(Run(IDLE, events), o);
  }

  // ---- When a write can be stranded ---------------------------------------------------------------

  /** The serving thread takes n commands. */
  function Takes(t: ThreadId, n: nat): seq<Event> {
    if n == 0 then [] else Takes(t, n - 1) + [ThreadTook(t)]
  }

  lemma CleanAppend(s: Process, events: seq<Event>, e: Event)
    requires CleanRun(s, events) && Clean(Run(s, events), e)
    ensures CleanRun(s, events + [e]) && Run(s, events + [e]) == Apply(Run(s, events), e)
  {
    assert (events + [e])[..|events|] == events;
  }

  lemma {:induction false} TakesAreClean(s: Process, t: ThreadId, n: nat)
    ensures CleanRun(s, Takes(t, n))
    ensures n > 0 ==> Run(s, Takes(t, n)) == TakeCommand(Run(s, Takes(t, n - 1)), t)
    decreases n
  {
    if n > 0 {
      TakesAreClean(s, t, n - 1);
      CleanAppend(s, Takes(t, n - 1), ThreadTook(t));
    }
  }

  /** Up to the first stop in its queue, the serving thread runs the writes one by one. */
  lemma {:induction false} TakesWrites(s: Process, o: ObjectId, t: ThreadId, n: nat)
    requires ServedBy(s, o, t) && n <= |s.dbs[o].queue| && NoStop(s.dbs[o].queue[..n])
    ensures var u := Run(s, Takes(t, n));
            ServedBy(u, o, t) && u.dbs[o].queue == s.dbs[o].queue[n..]
    decreases n
  {
    if n > 0 {
      var queue := s.dbs[o].queue;
      assert forall i | 0 <= i < n - 1 :: queue[..n - 1][i] == queue[..n][i];
      TakesWrites(s, o, t, n - 1);
      TakesAreClean(s, t, n);
      assert queue[n - 1..][0] == queue[..n][n - 1] && queue[n - 1..][1..] == queue[n..];
    }
  }

  /** When the thread takes a stop it leaves its loop, and what waits behind is not served. */
  lemma StopTaken(s: Process, o: ObjectId, t: ThreadId)
    requires FenceOk(s) && ServedBy(s, o, t) && s.dbs[o].queue != [] && s.dbs[o].queue[0].StopCommand?
    ensures var u := TakeCommand(s, t);
            o < |u.dbs| && !Served(u, o) && u.dbs[o].queue == s.dbs[o].queue[1..]
  {
  }

  lemma StrandedNow(s: Process, o: ObjectId, w: nat)
    requires AllInOrder(s) && o < |s.dbs| && !Served(s, o)
    requires s.dbs[o].queue != [] && s.dbs[o].queue[|s.dbs[o].queue| - 1] == Write(w)
    ensures !Drained(s, o)
  {
    var queue := s.dbs[o].queue;
    assert InOrder(s.dbs[o]);
    assert queue == queue[..|queue| - 1] + [Write(w)];
    WritesAppend(queue[..|queue| - 1], Write(w));
  }

  /** The first stop of a queue. */
  lemma FirstStop(queue: seq<Command>) returns (k: nat)
    requires !NoStop(queue)
    ensures k < |queue| && queue[k].StopCommand? && NoStop(queue[..k])
  {
    k := 0;
    while queue[k].Write?
      invariant k < |queue| && NoStop(queue[..k])
      invariant exists i :: k <= i < |queue| && queue[i].StopCommand?
      decreases |queue| - k
    {
      k := k + 1;
    }
  }

  /** A write behind a stop, or with no writer serving: taking commands strands it. */
  lemma WriteIsStranded(u: Process, o: ObjectId, w: nat) returns (events: seq<Event>)
    requires FenceOk(u) && AllInOrder(u) && o < |u.dbs|
    requires u.dbs[o].queue != [] && u.dbs[o].queue[|u.dbs[o].queue| - 1] == Write(w)
    requires !Served(u, o) || !NoStop(u.dbs[o].queue)
    ensures CleanRun(u, events) && !Drained(Run(u, events), o)
  {
    if !Served(u, o) {
      events := [];
      StrandedNow(u, o, w);
    } else {
      var queue, t := u.dbs[o].queue, u.dbs[o].thread.value;
      var k := FirstStop(queue);
      events := Takes(t, k + 1);
      TakesWrites(u, o, t, k);
      TakesAreClean(u, t, k);
      TakesAreClean(u, t, k + 1);
      CleanIsCareful(u, Takes(t, k));
      CarefulRunKeepsFence(u, Takes(t, k));
      StopTaken(Run(u, Takes(t, k)), o, t);
      RunInOrder(u, events);
      assert queue[k..][0] == queue[k] && queue[k..][1..] == queue[k + 1..];
      StrandedNow(Run(u, events), o, w);
    }
  }

  lemma {:induction false} CleanIsCareful(s: Process, events: seq<Event>)
    requires CleanRun(s, events)
    ensures CarefulRun(s, events)
    decreases |events|
  {
    if events != [] {
      CleanIsCareful(s, events[..|events| - 1]);
    }
  }

  /** Exactly when a start may return: a write accepted right after it has run in every clean
      continuation by the time no writer serves the object, if and only if the start returns
      while a writer serves the object and no stop is queued. */
  lemma ReturnIsCleanIff(s: Process, i: nat, w: nat, o: ObjectId, u: Process)
    requires DrainOk(s) && StartReturns(s, i)
    requires o == s.calls[i].o && u == SubmitWrite(StartResumes(s, i), o, w)
    ensures ReturnsClean(s, i) <==> forall events | CleanRun(u, events) :: Drained(Run(u, events), o)
  {
    var t := StartResumes(s, i);
    StepInOrder(s, StartContinues(i));
    StepInOrder(t, WriteCalled(o, w));
    StartResumesKeeps(s, i);
    IntakeKeeps(t, o, w);
    if ReturnsClean(s, i) {
      StartResumesKeepsQueues(s, i);
      WriteKeepsQueues(t, o, w);
      forall events | CleanRun(u, events)
        ensures Drained(Run(u, events), o)
      {
        CleanRunKeeps(u, events);
        OkDrains(Run(u, events), o);
      }
    } else {
      Accepted(s, i, w, o, u);
      var events := WriteIsStranded(u, o, w);
      assert CleanRun(u, events) && !Drained(Run(u, events), o);
    }
  }

  /** The returned start takes the write; serving and stops are as before. */
  lemma Accepted(s: Process, i: nat, w: nat, o: ObjectId, u: Process)
    requires StartReturns(s, i) && o == s.calls[i].o && u == SubmitWrite(StartResumes(s, i), o, w)
    ensures o < |u.dbs| && u.dbs[o].queue == s.dbs[o].queue + [Write(w)]
    ensures Served(u, o) && NoStop(u.dbs[o].queue) ==> ReturnsClean(s, i)
  {
    if NoStop(u.dbs[o].queue) {
      forall j | 0 <= j < |s.dbs[o].queue|
        ensures s.dbs[o].queue[j].Write?
      {
        assert u.dbs[o].queue[j] == s.dbs[o].queue[j];
      }
    }
  }

  /** A writer told to stop before its start returned; the start returns and a write is taken. */
  const STOPPED_EARLY: Process :=
    Process({7}, [NewDb(7).(thread := Some(0), owns := true, last := Some(0), queue := [StopCommand])],
            [Writer(0, Serving)], [StartWait(0, 0), StopJoin(0, 0)])

  lemma StopBeforeReturn()
    ensures Stop(Opened(Start(Apply(IDLE, ObjectMade(7)), 0), 0, true), 0) == STOPPED_EARLY
  {
    var started := Start(Apply(IDLE, ObjectMade(7)), 0);
    assert started.writers == [Writer(0, Opening)] && started.calls == [StartWait(0, 0)] && started.owned == {7};
    var serving := Opened(started, 0, true);
    assert serving.writers == [Writer(0, Serving)];
    var stopping := Stop(serving, 0);
    assert stopping.dbs[0].queue == [StopCommand];
    assert stopping.dbs == STOPPED_EARLY.dbs && stopping.calls == STOPPED_EARLY.calls;
  }

  /** A concrete run: the write is accepted behind the stop, the writer closes, and it never ran. */
  lemma WriteBehindStopIsStranded(w: nat)
    ensures var u := SubmitWrite(StartResumes(STOPPED_EARLY, 0), 0, w);
            var closed := Closed(TakeCommand(u, 0), 0, true);
            closed.writers == [Writer(0, ClosedCleanly)] && closed.dbs[0].accepted == [w]
                && closed.dbs[0].executed == []
  {
  }
}
