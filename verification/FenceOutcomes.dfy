/** What each way out of the fence leaves behind: who may still write, and whose path is free. */
module FenceOutcomes {
  import opened Fence
  import opened Wrappers
  import opened Sequences

  // ---- Intake --------------------------------------------------------------------------------------

  /** A start of this object returns successfully. */
  predicate Returns(s: Process, e: Event, o: ObjectId) {
    && e.StartContinues? && e.i < |s.calls| && s.calls[e.i].StartWait? && s.calls[e.i].o == o
    && s.calls[e.i].started < |s.writers|
    && s.writers[s.calls[e.i].started].life !in {Opening, OpenFailed}
  }

  /** A start that returns opens intake, with the metadata read and the reader pool up. */
  lemma ReturnOpensIntake(s: Process, e: Event, o: ObjectId, t: Process)
    requires o < |s.dbs| && Returns(s, e, o) && t == Apply(s, e)
    ensures |t.dbs| == |s.dbs| && t.dbs[o] == s.dbs[o].(metadata := true, pool := true, accepting := true)
    ensures t == s.(dbs := s.dbs[o := t.dbs[o]], calls := Remove(s.calls, e.i))
  {
  }

  /** A write call is accepted, at the end of the queue, exactly while intake is open. */
  lemma WriteIsTakenIff(s: Process, o: ObjectId, w: nat, t: Process)
    requires o < |s.dbs| && t == Apply(s, WriteCalled(o, w))
    ensures s.dbs[o].accepting ==>
              t == s.(dbs := s.dbs[o := s.dbs[o].(queue := s.dbs[o].queue + [Write(w)],
                                                  accepted := s.dbs[o].accepted + [w])])
    ensures !s.dbs[o].accepting ==> t == s
  {
  }

  /** A write that raises on the store, a request to stop accepting and a stop close intake; the
      last two only if the object was not stopped before. */
  lemma IntakeCloses(s: Process, o: ObjectId, e: Event, t: Process)
    requires o < |s.dbs| && t == Apply(s, e)
    requires e == WriteRaised(o) || (!s.dbs[o].stopped && (e == IntakeClosed(o) || e == StopCalled(o)))
    ensures o < |t.dbs| && !t.dbs[o].accepting && t.dbs[o].accepted == s.dbs[o].accepted
    ensures !e.StopCalled? ==> t == s.(dbs := s.dbs[o := s.dbs[o].(accepting := false)])
  {
  }

  /** The object's intake is as closed as before, and it accepted nothing. */
  predicate StaysClosed(s: Process, t: Process, o: ObjectId) {
    o < |s.dbs| <= |t.dbs|
    && (s.dbs[o].accepting || (!t.dbs[o].accepting && t.dbs[o].accepted == s.dbs[o].accepted))
  }

  lemma StopStaysClosed(s: Process, p: ObjectId, o: ObjectId)
    requires o < |s.dbs| && p < |s.dbs|
    ensures StaysClosed(s, StopTail(s, p), o) && StaysClosed(s, Release(s, p), o)
    ensures StaysClosed(s, StartCleanup(s, p), o)
    ensures StaysClosed(s, StopEnds(s, p, true), o) && StaysClosed(s, StopEnds(s, p, false), o)
  {
  }

  lemma CallStaysClosed(s: Process, e: Event, o: ObjectId, t: Process)
    requires o < |s.dbs| && !Returns(s, e, o) && t == Apply(s, e)
    requires e.StartContinues? || e.StartJoinEnded? || e.StopJoinEnded? || e.PoolEnded?
    ensures StaysClosed(s, t, o)
  {
    if e.i < |s.calls| && s.calls[e.i].o < |s.dbs| {
      StopStaysClosed(s.(calls := Remove(s.calls, e.i)), s.calls[e.i].o, o);
    }
  }

  lemma StepStaysClosed(s: Process, e: Event, o: ObjectId, t: Process)
    requires o < |s.dbs| && !Returns(s, e, o) && t == Apply(s, e)
    ensures StaysClosed(s, t, o)
  {
    if e.StartContinues? || e.StartJoinEnded? || e.StopJoinEnded? || e.PoolEnded? {
      CallStaysClosed(s, e, o, t);
    } else if e.StopCalled? {
      if e.o < |s.dbs| { StopStaysClosed(WithDb(s, e.o, s.dbs[e.o].(accepting := false)), e.o, o); }
    }
  }

  /** No start of the object returns in the run. */
  predicate NoReturn(s: Process, events: seq<Event>, o: ObjectId)
    decreases |events|
  {
    events == [] ||
      (NoReturn(s, events[..|events| - 1], o)
       && !Returns(Run(s, events[..|events| - 1]), events[|events| - 1], o))
  }

  /** Closed intake stays closed, and accepts nothing, through any run in which no start of the
      object returns. */
  lemma {:induction false} ClosedIntakeAcceptsNothing(s: Process, events: seq<Event>, o: ObjectId)
    requires o < |s.dbs| && !s.dbs[o].accepting && NoReturn(s, events, o)
    ensures o < |Run(s, events).dbs| && !Run(s, events).dbs[o].accepting
    ensures Run(s, events).dbs[o].accepted == s.dbs[o].accepted
    decreases |events|
  {
    if events != [] {
      ClosedIntakeAcceptsNothing(s, events[..|events| - 1], o);
      StepStaysClosed(Run(s, events[..|events| - 1]), events[|events| - 1], o, Run(s, events));
    }
  }

  // ---- Paths ---------------------------------------------------------------------------------------

  /** Whether the writer of the object's latest start failed to close. */
  predicate CloseWentWrong(s: Process, o: ObjectId) {
    && o < |s.dbs| && s.dbs[o].last.Some? && s.dbs[o].last.value < |s.writers|
    && s.writers[s.dbs[o].last.value].life == CloseFailed
  }

  predicate Running(s: Process, t: ThreadId) {
    t < |s.writers| && s.writers[t].life in {Opening, Serving, Closing}
  }

  /** The object gave up its path, if it had it, and is stopped for good. */
  predicate Retired(s: Process, t: Process, o: ObjectId) {
    && o < |s.dbs| && |t.dbs| == |s.dbs| && t.dbs[o].stopped && !t.dbs[o].owns
    && t.owned == s.owned - if s.dbs[o].owns then {s.dbs[o].path} else {}
  }

  /** The object keeps its path and may be stopped again. */
  predicate Kept(s: Process, t: Process, o: ObjectId) {
    && o < |s.dbs| && |t.dbs| == |s.dbs| && t.dbs[o].stopped == s.dbs[o].stopped && t.dbs[o].owns == s.dbs[o].owns
    && t.owned == s.owned
  }

  /** The stop's join returns. A thread still running leaves everything as it is. Otherwise the
      thread is cleared, and the reader pool, which is shut down first if there is one; and then
      the path is given up exactly if the writer closed without error. */
  lemma StopJoinOutcome(s: Process, i: nat, o: ObjectId, thread: ThreadId, t: Process)
    requires i < |s.calls| && s.calls[i] == StopJoin(o, thread) && o < |s.dbs| && t == Apply(s, StopJoinEnded(i))
    ensures Running(s, thread) ==> t == s.(calls := Remove(s.calls, i))
    ensures !Running(s, thread) ==> |t.dbs| == |s.dbs| && t.dbs[o].thread == None && !t.dbs[o].pool
    ensures !Running(s, thread) && s.dbs[o].pool ==>
              Kept(s, t, o) && t.calls == Remove(s.calls, i) + [StopPool(o, CloseWentWrong(s, o))]
    ensures !Running(s, thread) && !s.dbs[o].pool ==>
              && t.calls == Remove(s.calls, i)
              && (if CloseWentWrong(s, o) then Kept(s, t, o) else Retired(s, t, o))
  {
  }

  /** The pool is shut down: the path is given up exactly if the writer closed without error. */
  lemma PoolOutcome(s: Process, i: nat, o: ObjectId, failed: bool, t: Process)
    requires i < |s.calls| && s.calls[i] == StopPool(o, failed) && o < |s.dbs| && t == Apply(s, PoolEnded(i))
    ensures t.calls == Remove(s.calls, i)
    ensures if failed then Kept(s, t, o) else Retired(s, t, o)
  {
  }

  /** An ordinary shutdown, from the join to the pool's end: afterwards the path is free for
      others exactly if the writer closed without error. */
  lemma ShutdownFreesPathIff(s: Process, i: nat, o: ObjectId, thread: ThreadId, t: Process, u: Process)
    requires i < |s.calls| && s.calls[i] == StopJoin(o, thread) && o < |s.dbs| && s.dbs[o].pool
    requires !Running(s, thread) && s.dbs[o].owns && s.dbs[o].path in s.owned
    requires t == Apply(s, StopJoinEnded(i)) && u == Apply(t, PoolEnded(|s.calls| - 1))
    ensures u.calls == Remove(s.calls, i) && |u.dbs| == |s.dbs|
    ensures s.dbs[o].path !in u.owned <==> !CloseWentWrong(s, o)
  {
    StopJoinOutcome(s, i, o, thread, t);
    var failed := CloseWentWrong(s, o);
    assert t.calls[|s.calls| - 1] == StopPool(o, failed);
    PoolOutcome(t, |s.calls| - 1, o, failed, u);
    assert Remove(t.calls, |s.calls| - 1) == Remove(s.calls, i);
    StopKeepsPath(s, i, o, t);
  }

  lemma StopKeepsPath(s: Process, i: nat, o: ObjectId, t: Process)
    requires o < |s.dbs| && t == Apply(s, StopJoinEnded(i))
    ensures o < |t.dbs| && t.dbs[o].path == s.dbs[o].path
  {
  }

  /** Discarding an object gives up its path exactly if it has it and no writer of it runs. */
  lemma DiscardOutcome(s: Process, o: ObjectId, t: Process)
    requires o < |s.dbs| && t == Apply(s, DiscardCalled(o))
    ensures s.dbs[o].owns && (s.dbs[o].thread.Some? ==> !Running(s, s.dbs[o].thread.value)) ==>
              t == s.(owned := s.owned - {s.dbs[o].path}, dbs := s.dbs[o := s.dbs[o].(owns := false)])
    ensures !s.dbs[o].owns || (s.dbs[o].thread.Some? && Running(s, s.dbs[o].thread.value)) ==> t == s
  {
  }

  /** A failed start: its path is free again once its thread has ended. */
  lemma FailedStartOutcome(s: Process, i: nat, o: ObjectId, thread: ThreadId, t: Process)
    requires i < |s.calls| && s.calls[i] == StartJoin(o, thread) && o < |s.dbs| && t == Apply(s, StartJoinEnded(i))
    ensures Running(s, thread) ==> t == s.(calls := Remove(s.calls, i))
    ensures !Running(s, thread) ==>
              && |t.dbs| == |s.dbs| && t.calls == Remove(s.calls, i) && !t.dbs[o].owns && t.dbs[o].thread == None
              && t.dbs[o].stopped == s.dbs[o].stopped
              && t.owned == s.owned - if s.dbs[o].owns then {s.dbs[o].path} else {}
  {
  }
}
