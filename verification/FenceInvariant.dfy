/** The writer fence over whole runs, and exactly when it can break. */
module FenceInvariant {
  import opened Fence
  import opened Wrappers
  import opened Sequences

  // ---- The fence ----------------------------------------------------------------------------

  /** A live writer is the thread of its object, which owns its path. */
  predicate WriterOk(s: Process, t: ThreadId)
    requires t < |s.writers|
  {
    var w := s.writers[t];
    w.db < |s.dbs| && (Alive(w.life) ==> s.dbs[w.db].thread == Some(t) && s.dbs[w.db].owns)
  }

  predicate DbOk(s: Process, o: ObjectId)
    requires o < |s.dbs|
  {
    var d := s.dbs[o];
    && (d.owns ==> d.path in s.owned)
    && (d.thread.Some? ==> d.thread.value < |s.writers| && s.writers[d.thread.value].db == o)
  }

  /** A suspended call that will give up the guard once its thread is gone. */
  predicate Releasing(c: Suspended) {
    c.StartJoin? || c.StopJoin? || (c.StopPool? && !c.failed)
  }

  /** Nothing lives in the object but the thread the call waits for. */
  predicate CallOk(s: Process, c: Suspended) {
    && c.o < |s.dbs|
    && (c.StartWait? ==> c.started < |s.writers|)
    && (c.StartJoin? || c.StopJoin? ==> c.thread < |s.writers| && s.writers[c.thread].db == c.o)
    && (Releasing(c) && ThreadAlive(s, s.dbs[c.o].thread) ==>
          (c.StartJoin? || c.StopJoin?) && s.dbs[c.o].thread == Some(c.thread))
  }

  predicate OneOwner(s: Process) {
    forall o, p | 0 <= o < p < |s.dbs| && s.dbs[o].owns && s.dbs[p].owns :: s.dbs[o].path != s.dbs[p].path
  }

  predicate WritersOk(s: Process) {
    forall t: nat | t < |s.writers| :: WriterOk(s, t)
  }

  predicate DbsOk(s: Process) {
    forall o: nat | o < |s.dbs| :: DbOk(s, o)
  }

  predicate CallsOk(s: Process) {
    forall i | 0 <= i < |s.calls| :: CallOk(s, s.calls[i])
  }

  predicate FenceOk(s: Process) {
    WritersOk(s) && DbsOk(s) && CallsOk(s) && OneOwner(s)
  }

  /** What the fence is for: every live writer's path is owned, and no two share one. */
  predicate Fenced(s: Process) {
    && (forall t: nat | t < |s.writers| && Alive(s.writers[t].life) :: LivePath(s, t) in s.owned)
    && forall t: nat, u: nat | t < u < |s.writers| && Alive(s.writers[t].life) && Alive(s.writers[u].life) ::
         LivePath(s, t) != LivePath(s, u)
  }

  function LivePath(s: Process, t: ThreadId): Path
    requires t < |s.writers|
  {
    if s.writers[t].db < |s.dbs| then s.dbs[s.writers[t].db].path else 0
  }

  lemma FenceFences(s: Process)
    requires FenceOk(s)
    ensures Fenced(s)
  {
    forall t: nat | t < |s.writers| && Alive(s.writers[t].life)
      ensures LivePath(s, t) in s.owned
    {
      assert WriterOk(s, t) && DbOk(s, s.writers[t].db);
    }
    forall t: nat, u: nat | t < u < |s.writers| && Alive(s.writers[t].life) && Alive(s.writers[u].life)
      ensures LivePath(s, t) != LivePath(s, u)
    {
      assert WriterOk(s, t) && WriterOk(s, u);
    }
  }

  // ---- Steps that leave threads and guards alone ------------------------------------------------

  /** Only fields the fence does not speak of changed. */
  predicate SameGuards(s: Process, t: Process) {
    && t.owned == s.owned && t.writers == s.writers && |t.dbs| == |s.dbs|
    && forall o | 0 <= o < |s.dbs| ::
         t.dbs[o].path == s.dbs[o].path && t.dbs[o].thread == s.dbs[o].thread && t.dbs[o].owns == s.dbs[o].owns
  }

  lemma SameGuardsKeep(s: Process, t: Process)
    requires FenceOk(s) && SameGuards(s, t) && CallsOk(t)
    ensures FenceOk(t)
  {
    forall i: nat | i < |t.writers| ensures WriterOk(t, i) { assert WriterOk(s, i); }
    forall o: nat | o < |t.dbs| ensures DbOk(t, o) { assert DbOk(s, o); }
  }

  /** Calls that stay, and one that joins them, still wait for the only live thread. */
  lemma CallsStay(s: Process, t: Process)
    requires CallsOk(s) && SameGuards(s, t)
    requires forall c | c in t.calls :: c in s.calls || CallOk(t, c)
    ensures CallsOk(t)
  {
    forall i | 0 <= i < |t.calls|
      ensures CallOk(t, t.calls[i])
    {
      var c := t.calls[i];
      assert c in t.calls;
      if c in s.calls { assert CallOk(s, c); }
    }
  }

  lemma DroppedCalls(calls: seq<Suspended>, i: nat)
    requires i < |calls|
    ensures forall c | c in Remove(calls, i) :: c in calls
  {
  }

  // ---- Giving up a guard ---------------------------------------------------------------------

  /** Nobody lives in this object. */
  predicate Quiet(s: Process, o: ObjectId)
    requires o < |s.dbs|
  {
    !ThreadAlive(s, s.dbs[o].thread)
  }

  /** Clearing a dead thread, and perhaps giving up the guard, keeps the fence. */
  lemma ClearKeeps(s: Process, o: ObjectId, d: Db, owned: set<Path>, t: Process)
    requires FenceOk(s) && o < |s.dbs| && Quiet(s, o)
    requires d.path == s.dbs[o].path && (d.thread == s.dbs[o].thread || d.thread.None?)
    requires d.owns ==> s.dbs[o].owns
    requires owned == if d.owns == s.dbs[o].owns then s.owned else s.owned - {d.path}
    requires t == WithDb(s, o, d).(owned := owned)
    ensures FenceOk(t)
  {
    forall i: nat | i < |t.writers|
      ensures WriterOk(t, i)
    {
      assert WriterOk(s, i);
    }
    forall p: nat | p < |t.dbs|
      ensures DbOk(t, p)
    {
      assert DbOk(s, p) && DbOk(s, o);
      assert p != o && s.dbs[p].owns && s.dbs[o].owns ==> s.dbs[p].path != s.dbs[o].path;
    }
    forall i | 0 <= i < |t.calls|
      ensures CallOk(t, t.calls[i])
    {
      assert CallOk(s, s.calls[i]);
    }
  }

  lemma ReleaseKeeps(s: Process, o: ObjectId)
    requires FenceOk(s) && o < |s.dbs| && Quiet(s, o)
    ensures FenceOk(Release(s, o)) && Release(s, o).calls == s.calls
  {
    if s.dbs[o].owns {
      ClearKeeps(s, o, s.dbs[o].(owns := false), s.owned - {s.dbs[o].path}, Release(s, o));
    }
  }

  lemma StartCleanupKeeps(s: Process, o: ObjectId)
    requires FenceOk(s) && o < |s.dbs| && Quiet(s, o)
    ensures FenceOk(StartCleanup(s, o))
  {
    var cleared := WithDb(s, o, s.dbs[o].(thread := None));
    ClearKeeps(s, o, cleared.dbs[o], s.owned, cleared);
    ReleaseKeeps(cleared, o);
  }

  lemma StopEndsKeeps(s: Process, o: ObjectId, failed: bool)
    requires FenceOk(s) && o < |s.dbs| && Quiet(s, o)
    ensures FenceOk(StopEnds(s, o, failed))
  {
    if !failed {
      var marked := WithDb(s, o, s.dbs[o].(stopped := true));
      ClearKeeps(s, o, marked.dbs[o], s.owned, marked);
      ReleaseKeeps(marked, o);
    }
  }

  lemma StopTailKeeps(s: Process, o: ObjectId)
    requires FenceOk(s) && o < |s.dbs| && Quiet(s, o)
    ensures FenceOk(StopTail(s, o))
  {
    var failed := ShutdownFailed(s, o);
    var cleared := WithDb(s, o, s.dbs[o].(thread := None, pool := false));
    ClearKeeps(s, o, cleared.dbs[o], s.owned, cleared);
    if s.dbs[o].pool {
      var t := cleared.(calls := cleared.calls + [StopPool(o, failed)]);
      CallsStay(cleared, t);
      SameGuardsKeep(cleared, t);
    } else {
      StopEndsKeeps(cleared, o, failed);
    }
  }

  /** Taking a call out of the suspended ones. */
  lemma ResumedKeeps(s: Process, i: nat)
    requires FenceOk(s) && i < |s.calls|
    ensures FenceOk(s.(calls := Remove(s.calls, i)))
    ensures CallOk(s, s.calls[i])
  {
    var t := s.(calls := Remove(s.calls, i));
    DroppedCalls(s.calls, i);
    CallsStay(s, t);
    SameGuardsKeep(s, t);
  }

  lemma StartResumesKeeps(s: Process, i: nat)
    requires FenceOk(s)
    ensures FenceOk(StartResumes(s, i))
  {
    var t := StartResumes(s, i);
    if t != s {
      ResumedKeeps(s, i);
      var resumed := s.(calls := Remove(s.calls, i));
      var o := s.calls[i].o;
      if !s.writers[s.calls[i].started].life.OpenFailed? {
        CallsStay(resumed, t);
        SameGuardsKeep(resumed, t);
      } else if s.dbs[o].thread.Some? {
        assert DbOk(s, o);
        CallsStay(resumed, t);
        SameGuardsKeep(resumed, t);
      } else {
        StartCleanupKeeps(resumed, o);
      }
    }
  }

  lemma StartJoinedKeeps(s: Process, i: nat)
    requires FenceOk(s)
    ensures FenceOk(StartJoined(s, i))
  {
    if StartJoined(s, i) != s {
      ResumedKeeps(s, i);
      if !ThreadAlive(s, Some(s.calls[i].thread)) {
        StartCleanupKeeps(s.(calls := Remove(s.calls, i)), s.calls[i].o);
      }
    }
  }

  lemma StopJoinedKeeps(s: Process, i: nat)
    requires FenceOk(s)
    ensures FenceOk(StopJoined(s, i))
  {
    if StopJoined(s, i) != s {
      ResumedKeeps(s, i);
      if !ThreadAlive(s, Some(s.calls[i].thread)) {
        StopTailKeeps(s.(calls := Remove(s.calls, i)), s.calls[i].o);
      }
    }
  }

  lemma PoolShutKeeps(s: Process, i: nat)
    requires FenceOk(s)
    ensures FenceOk(PoolShut(s, i))
  {
    if PoolShut(s, i) != s {
      ResumedKeeps(s, i);
      if !s.calls[i].failed {
        StopEndsKeeps(s.(calls := Remove(s.calls, i)), s.calls[i].o, false);
      }
    }
  }

  lemma StopKeeps(s: Process, o: ObjectId)
    requires FenceOk(s)
    ensures FenceOk(Stop(s, o))
  {
    if Stop(s, o) != s {
      var d := s.dbs[o].(accepting := false);
      if d.thread.Some? {
        assert DbOk(s, o);
        CallsStay(s, Stop(s, o));
        SameGuardsKeep(s, Stop(s, o));
      } else {
        var closed := WithDb(s, o, d);
        CallsStay(s, closed);
        SameGuardsKeep(s, closed);
        StopTailKeeps(closed, o);
      }
    }
  }

  lemma IntakeKeeps(s: Process, o: ObjectId, w: nat)
    requires FenceOk(s)
    ensures FenceOk(SubmitWrite(s, o, w)) && FenceOk(CloseIntake(s, o)) && FenceOk(WriteFailed(s, o))
  {
    CallsStay(s, SubmitWrite(s, o, w));
    SameGuardsKeep(s, SubmitWrite(s, o, w));
    CallsStay(s, CloseIntake(s, o));
    SameGuardsKeep(s, CloseIntake(s, o));
    CallsStay(s, WriteFailed(s, o));
    SameGuardsKeep(s, WriteFailed(s, o));
  }

  lemma DiscardKeeps(s: Process, o: ObjectId)
    requires FenceOk(s)
    ensures FenceOk(Discard(s, o))
  {
    if Discard(s, o) != s { ReleaseKeeps(s, o); }
  }

  /** A thread that moves on, or dies, endangers nothing. */
  lemma BecameKeeps(s: Process, t: ThreadId, life: Life)
    requires FenceOk(s) && t < |s.writers| && (Alive(life) ==> Alive(s.writers[t].life))
    ensures FenceOk(Became(s, t, life))
  {
    var n := Became(s, t, life);
    forall u: nat | u < |n.writers| ensures WriterOk(n, u) { assert WriterOk(s, u); }
    forall o: nat | o < |n.dbs| ensures DbOk(n, o) { assert DbOk(s, o); }
    forall i | 0 <= i < |n.calls| ensures CallOk(n, n.calls[i]) { assert CallOk(s, s.calls[i]); }
  }

  lemma TakeKeeps(s: Process, t: ThreadId)
    requires FenceOk(s)
    ensures FenceOk(TakeCommand(s, t))
  {
    if TakeCommand(s, t) != s {
      var o, d := s.writers[t].db, s.dbs[s.writers[t].db];
      if d.queue[0].StopCommand? {
        var u := WithDb(s, o, d.(queue := d.queue[1..]));
        CallsStay(s, u);
        SameGuardsKeep(s, u);
        BecameKeeps(u, t, Closing);
      } else {
        CallsStay(s, TakeCommand(s, t));
        SameGuardsKeep(s, TakeCommand(s, t));
      }
    }
  }

  lemma CreateKeeps(s: Process, path: Path)
    requires FenceOk(s)
    ensures FenceOk(s.(dbs := s.dbs + [NewDb(path)]))
  {
    var t := s.(dbs := s.dbs + [NewDb(path)]);
    forall u: nat | u < |t.writers| ensures WriterOk(t, u) { assert WriterOk(s, u); }
    forall o: nat | o < |t.dbs| ensures DbOk(t, o) { assert o < |s.dbs| ==> DbOk(s, o); }
    forall i | 0 <= i < |t.calls| ensures CallOk(t, t.calls[i]) { assert CallOk(s, s.calls[i]); }
  }

  // ---- Starting -----------------------------------------------------------------------------------

  /** No suspended call of the object is about to give up its guard. */
  predicate NoCleanup(s: Process, o: ObjectId) {
    forall i | 0 <= i < |s.calls| :: !(Releasing(s.calls[i]) && s.calls[i].o == o)
  }

  lemma StartKeeps(s: Process, o: ObjectId)
    requires FenceOk(s) && (Launches(s, o) ==> NoCleanup(s, o))
    ensures FenceOk(Start(s, o))
  {
    if Launches(s, o) {
      LaunchKeepsDbs(s, o, Start(s, o));
      LaunchKeepsCalls(s, o, Start(s, o));
    }
  }

  lemma LaunchKeepsDbs(s: Process, o: ObjectId, t: Process)
    requires FenceOk(s) && Launches(s, o) && t == Start(s, o)
    ensures WritersOk(t) && DbsOk(t) && OneOwner(t)
  {
    forall u: nat | u < |t.writers| ensures WriterOk(t, u) { assert u < |s.writers| ==> WriterOk(s, u); }
    forall p: nat | p < |t.dbs| ensures DbOk(t, p) { assert DbOk(s, p); }
    forall p, q | 0 <= p < q < |t.dbs| && t.dbs[p].owns && t.dbs[q].owns
      ensures t.dbs[p].path != t.dbs[q].path
    {
      assert DbOk(s, p) && DbOk(s, q);
    }
  }

  lemma LaunchKeepsCalls(s: Process, o: ObjectId, t: Process)
    requires FenceOk(s) && Launches(s, o) && NoCleanup(s, o) && t == Start(s, o)
    ensures CallsOk(t)
  {
    forall i | 0 <= i < |t.calls|
      ensures CallOk(t, t.calls[i])
    {
      if i < |s.calls| {
        assert CallOk(s, s.calls[i]) && DbOk(s, s.calls[i].o);
      }
    }
  }

  /** A start is careful if it launches no thread while a cleanup of its object is suspended. */
  predicate Careful(s: Process, e: Event) {
    e.StartCalled? && Launches(s, e.o) ==> NoCleanup(s, e.o)
  }

  predicate CarefulRun(s: Process, events: seq<Event>)
    decreases |events|
  {
    events == [] || (CarefulRun(s, events[..|events| - 1])
                     && Careful(Run(s, events[..|events| - 1]), events[|events| - 1]))
  }

  lemma OwnerStepKeeps(s: Process, e: Event)
    requires FenceOk(s) && Careful(s, e)
    requires e.StartCalled? || e.StartContinues? || e.StartJoinEnded? || e.StopCalled? || e.StopJoinEnded?
             || e.PoolEnded? || e.DiscardCalled?
    ensures FenceOk(Apply(s, e))
  {
    match e
    case StartCalled(o) => StartKeeps(s, o);
    case StartContinues(i) => StartResumesKeeps(s, i);
    case StartJoinEnded(i) => StartJoinedKeeps(s, i);
    case StopCalled(o) => StopKeeps(s, o);
    case StopJoinEnded(i) => StopJoinedKeeps(s, i);
    case PoolEnded(i) => PoolShutKeeps(s, i);
    case DiscardCalled(o) => DiscardKeeps(s, o);
  }

  lemma OtherStepKeeps(s: Process, e: Event)
    requires FenceOk(s)
    requires e.ObjectMade? || e.WriteCalled? || e.WriteRaised? || e.IntakeClosed? || e.CallCancelled?
             || e.ThreadOpened? || e.ThreadTook? || e.ThreadClosed?
    ensures FenceOk(Apply(s, e))
  {
    match e
    case ObjectMade(path) => CreateKeeps(s, path);
    case WriteCalled(o, w) => IntakeKeeps(s, o, w);
    case WriteRaised(o) => IntakeKeeps(s, o, 0);
    case IntakeClosed(o) => IntakeKeeps(s, o, 0);
    case CallCancelled(i) => if i < |s.calls| { ResumedKeeps(s, i); }
    case ThreadOpened(t, ok) => if Opened(s, t, ok) != s { BecameKeeps(s, t, if ok then Serving else OpenFailed); }
    case ThreadTook(t) => TakeKeeps(s, t);
    case ThreadClosed(t, ok) =>
      if Closed(s, t, ok) != s { BecameKeeps(s, t, if ok then ClosedCleanly else CloseFailed); }
  }

  lemma StepKeepsFence(s: Process, e: Event)
    requires FenceOk(s) && Careful(s, e)
    ensures FenceOk(Apply(s, e))
  {
    if e.ObjectMade? || e.WriteCalled? || e.WriteRaised? || e.IntakeClosed? || e.CallCancelled? || e.ThreadOpened?
        || e.ThreadTook? || e.ThreadClosed? {
      OtherStepKeeps(s, e);
    } else {
      OwnerStepKeeps(s, e);
    }
  }

  lemma {:induction false} CarefulRunKeepsFence(s: Process, events: seq<Event>)
    requires FenceOk(s) && CarefulRun(s, events)
    ensures FenceOk(Run(s, events))
    decreases |events|
  {
    if events != [] {
      CarefulRunKeepsFence(s, events[..|events| - 1]);
      StepKeepsFence(Run(s, events[..|events| - 1]), events[|events| - 1]);
    }
  }

  /** Over every careful run of any objects, in any order of start, cancel, write, timeout,
      failure and stop: each live writer's path is owned, and no two live writers share one. */
  lemma CarefulRunsAreFenced(events: seq<Event>)
    requires CarefulRun(IDLE, events)
    ensures Fenced(Run(IDLE, events))
  {
    CarefulRunKeepsFence(IDLE, events);
    FenceFences(Run(IDLE, events));
  }

  // ---- When the fence can break ---------------------------------------------------------------------

  /** The event that resumes a suspended cleanup. */
  function ResumeOf(c: Suspended, i: nat): Event {
    if c.StartJoin? then StartJoinEnded(i) else if c.StopJoin? then StopJoinEnded(i) else PoolEnded(i)
  }

  predicate Unfenced(s: Process, t: ThreadId) {
    t < |s.writers| && Alive(s.writers[t].life) && LivePath(s, t) !in s.owned
  }

  /** A thread was launched while a cleanup of its object was suspended: the cleanup gives up
      the guard of the new, living writer. */
  lemma LaunchedThenReleased(s: Process, o: ObjectId, i: nat, t: Process)
    requires FenceOk(s) && Launches(s, o) && i < |s.calls| && Releasing(s.calls[i]) && s.calls[i].o == o
    requires t == Start(s, o)
    ensures var u := Apply(t, ResumeOf(s.calls[i], i));
            || Unfenced(u, |s.writers|)
            || (u.calls != [] && Unfenced(Apply(u, PoolEnded(|u.calls| - 1)), |s.writers|))
  {
    var c := s.calls[i];
    assert t.calls[i] == c;
    assert CallOk(s, c);
    if c.StartJoin? || c.StopJoin? {
      assert WriterOk(s, c.thread);
      assert !ThreadAlive(t, Some(c.thread));
    }
    if c.StartJoin? {
      ReleasedByStart(t, o, i, |s.writers|);
    } else if c.StopJoin? {
      ReleasedByStop(t, o, i, |s.writers|);
    }
  }

  predicate Running(t: Process, o: ObjectId, w: ThreadId) {
    && o < |t.dbs| && w < |t.writers| && t.writers[w] == Writer(o, Opening) && t.dbs[o].owns
    && t.dbs[o].thread == Some(w) && t.dbs[o].last == Some(w)
  }

  lemma ReleasedByStart(t: Process, o: ObjectId, i: nat, w: ThreadId)
    requires Running(t, o, w) && i < |t.calls| && t.calls[i].StartJoin? && t.calls[i].o == o
    requires !ThreadAlive(t, Some(t.calls[i].thread))
    ensures Unfenced(StartJoined(t, i), w)
  {
  }

  lemma ReleasedByStop(t: Process, o: ObjectId, i: nat, w: ThreadId)
    requires Running(t, o, w) && i < |t.calls| && t.calls[i].StopJoin? && t.calls[i].o == o
    requires !ThreadAlive(t, Some(t.calls[i].thread))
    ensures var u := StopJoined(t, i);
            Unfenced(u, w) || (u.calls != [] && Unfenced(PoolShut(u, |u.calls| - 1), w))
  {
    if t.dbs[o].pool {
      var u := StopJoined(t, i);
      assert u.calls[|u.calls| - 1] == StopPool(o, false);
    }
  }

  lemma RunOne(s: Process, events: seq<Event>, e: Event)
    ensures Run(s, events + [e]) == Apply(Run(s, events), e)
    ensures CarefulRun(s, events) && !e.StartCalled? ==> CarefulRun(s, events + [e])
  {
    assert (events + [e])[..|events|] == events;
  }

  lemma RunTwo(s: Process, e: Event, f: Event)
    ensures Run(s, [e]) == Apply(s, e) && Run(s, [e, f]) == Apply(Apply(s, e), f)
    ensures !e.StartCalled? && !f.StartCalled? ==> CarefulRun(s, [e]) && CarefulRun(s, [e, f])
  {
    RunOne(s, [], e);
    RunOne(s, [e], f);
    assert [] + [e] == [e] && [e] + [f] == [e, f];
  }

  /** Exactly when launching a writer is safe: every careful continuation stays fenced if and
      only if no cleanup of the object is suspended. */
  lemma LaunchIsSafeIff(s: Process, o: ObjectId)
    requires FenceOk(s) && Launches(s, o)
    ensures NoCleanup(s, o) <==> forall events | CarefulRun(Start(s, o), events) :: Fenced(Run(Start(s, o), events))
  {
    var t := Start(s, o);
    if NoCleanup(s, o) {
      StartKeeps(s, o);
      forall events | CarefulRun(t, events)
        ensures Fenced(Run(t, events))
      {
        CarefulRunKeepsFence(t, events);
        FenceFences(Run(t, events));
      }
    } else {
      var i :| 0 <= i < |s.calls| && Releasing(s.calls[i]) && s.calls[i].o == o;
      LaunchedThenReleased(s, o, i, t);
      var e := ResumeOf(s.calls[i], i);
      var u := Apply(t, e);
      RunTwo(t, e, PoolEnded(if u.calls == [] then 0 else |u.calls| - 1));
      if Unfenced(u, |s.writers|) {
        assert !Fenced(Run(t, [e]));
      } else {
        assert !Fenced(Run(t, [e, PoolEnded(|u.calls| - 1)]));
      }
    }
  }

  /** One object whose first start failed to open; the start is joining its thread. */
  const FAILED_START: Process :=
    Process({7}, [NewDb(7).(thread := Some(0), owns := true, last := Some(0))], [Writer(0, OpenFailed)],
            [StartJoin(0, 0)])

  lemma FirstStartFails()
    ensures StartResumes(Opened(Start(Apply(IDLE, ObjectMade(7)), 0), 0, false), 0) == FAILED_START
  {
  }

  /** A concrete run: while the failed start is joining its thread a stop clears the object and
      a second start launches a thread; the first start's cleanup then unfences it. */
  lemma RestartDuringCleanupUnfences()
    ensures var stopped := StopJoined(Stop(FAILED_START, 0), 1);
            stopped.dbs[0].stopped && Unfenced(StartJoined(Start(stopped, 0), 0), 1)
  {
    var stopping := Stop(FAILED_START, 0);
    assert stopping.calls == [StartJoin(0, 0), StopJoin(0, 0)];
    var stopped := StopJoined(stopping, 1);
    assert stopped.calls == [StartJoin(0, 0)] && stopped.dbs[0].thread.None? && stopped.owned == {};
    var restarted := Start(stopped, 0);
    assert restarted.writers == [Writer(0, OpenFailed), Writer(0, Opening)] && restarted.calls[0] == StartJoin(0, 0);
  }
}
