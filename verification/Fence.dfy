/** storage/database.py: the process-wide writer fence and the writer's command queue, over any
    number of archive objects, writer threads and suspended `async_start`/`async_stop` calls. */
module Fence {
  import opened Wrappers
  import opened Sequences

  type Path = nat
  type ObjectId = nat
  type ThreadId = nat

  datatype Command = Write(id: nat) | StopCommand

  /** The fields of one archive object. `last` is the thread of its latest start, whose futures
      it holds; `accepted` and `executed` are the writes it took and ran so far. */
  datatype Db = Db(
    path: Path, thread: Option<ThreadId>, metadata: bool, accepting: bool, owns: bool, stopped: bool, pool: bool,
    last: Option<ThreadId>, queue: seq<Command>, accepted: seq<nat>, executed: seq<nat>)

  function NewDb(path: Path): Db {
    Db(path, None, false, false, false, false, false, None, [], [], [])
  }

  datatype Life = Opening | Serving | Closing | OpenFailed | ClosedCleanly | CloseFailed

  predicate Alive(l: Life) {
    l.Opening? || l.Serving? || l.Closing?
  }

  datatype Writer = Writer(db: ObjectId, life: Life)

  /** A suspended call: a start awaiting its writer, a failed start joining a thread, a stop
      joining a thread, a stop shutting down the reader pool. */
  datatype Suspended =
    | StartWait(o: ObjectId, started: ThreadId)
    | StartJoin(o: ObjectId, thread: ThreadId)
    | StopJoin(o: ObjectId, thread: ThreadId)
    | StopPool(o: ObjectId, failed: bool)

  datatype Process = Process(owned: set<Path>, dbs: seq<Db>, writers: seq<Writer>, calls: seq<Suspended>)

  const IDLE: Process := Process({}, [], [], [])

  function WithDb(s: Process, o: ObjectId, d: Db): Process
    requires o < |s.dbs|
  {
    s.(dbs := s.dbs[o := d])
  }

  predicate ThreadAlive(s: Process, t: Option<ThreadId>) {
    t.Some? && t.value < |s.writers| && Alive(s.writers[t.value].life)
  }

  /** `_release_guard`. */
  function Release(s: Process, o: ObjectId): Process
    requires o < |s.dbs|
  {
    var d := s.dbs[o];
    if !d.owns then s else WithDb(s.(owned := s.owned - {d.path}), o, d.(owns := false))
  }

  /** The start is effective: it takes the guard and launches a thread. */
  predicate Launches(s: Process, o: ObjectId) {
    o < |s.dbs| && s.dbs[o].thread.None? && s.dbs[o].path !in s.owned
  }

  /** `async_start` up to awaiting its writer; it raises when the path is owned, and returns or
      raises at once when a thread is already set. */
  function Start(s: Process, o: ObjectId): Process {
    if !Launches(s, o) then s
    else
      var d, t := s.dbs[o], |s.writers|;
      WithDb(s, o, d.(thread := Some(t), owns := true, last := Some(t)))
        .(owned := s.owned + {d.path}, writers := s.writers + [Writer(o, Opening)],
          calls := s.calls + [StartWait(o, t)])
  }

  /** A failed start clears the thread and gives up the guard. */
  function StartCleanup(s: Process, o: ObjectId): Process
    requires o < |s.dbs|
  {
    Release(WithDb(s, o, s.dbs[o].(thread := None)), o)
  }

  /** The wait in `async_start` ends: intake opens, or the failed start joins its thread. */
  function StartResumes(s: Process, i: nat): Process {
    if i >= |s.calls| || !s.calls[i].StartWait? || s.calls[i].o >= |s.dbs| || s.calls[i].started >= |s.writers| then s
    else
      var o, life, d := s.calls[i].o, s.writers[s.calls[i].started].life, s.dbs[s.calls[i].o];
      var resumed := s.(calls := Remove(s.calls, i));
      if life.Opening? then s
      else if !life.OpenFailed? then WithDb(resumed, o, d.(metadata := true, pool := true, accepting := true))
      else if d.thread.Some? then resumed.(calls := resumed.calls + [StartJoin(o, d.thread.value)])
      else StartCleanup(resumed, o)
  }

  /** The join in a failed start returns or times out. */
  function StartJoined(s: Process, i: nat): Process {
    if i >= |s.calls| || !s.calls[i].StartJoin? || s.calls[i].o >= |s.dbs| then s
    else
      var resumed := s.(calls := Remove(s.calls, i));
      if ThreadAlive(s, Some(s.calls[i].thread)) then resumed else StartCleanup(resumed, s.calls[i].o)
  }

  /** `async_write`: accepted while intake is open. */
  function SubmitWrite(s: Process, o: ObjectId, w: nat): Process {
    if o >= |s.dbs| || !s.dbs[o].accepting then s
    else WithDb(s, o, s.dbs[o].(queue := s.dbs[o].queue + [Write(w)], accepted := s.dbs[o].accepted + [w]))
  }

  /** `stop_accepting`, and what a failed write does to intake. */
  function CloseIntake(s: Process, o: ObjectId): Process {
    if o >= |s.dbs| || s.dbs[o].stopped then s else WithDb(s, o, s.dbs[o].(accepting := false))
  }

  function WriteFailed(s: Process, o: ObjectId): Process {
    if o >= |s.dbs| then s else WithDb(s, o, s.dbs[o].(accepting := false))
  }

  predicate ShutdownFailed(s: Process, o: ObjectId)
    requires o < |s.dbs|
  {
    s.dbs[o].last.Some? && s.dbs[o].last.value < |s.writers| && s.writers[s.dbs[o].last.value].life.CloseFailed?
  }

  /** The end of `async_stop`: a failed close keeps the guard. */
  function StopEnds(s: Process, o: ObjectId, failed: bool): Process
    requires o < |s.dbs|
  {
    if failed then s else Release(WithDb(s, o, s.dbs[o].(stopped := true)), o)
  }

  /** `async_stop` once no thread is left to join. */
  function StopTail(s: Process, o: ObjectId): Process
    requires o < |s.dbs|
  {
    var failed, pool := ShutdownFailed(s, o), s.dbs[o].pool;
    var cleared := WithDb(s, o, s.dbs[o].(thread := None, pool := false));
    if pool then cleared.(calls := cleared.calls + [StopPool(o, failed)]) else StopEnds(cleared, o, failed)
  }

  /** `async_stop` up to its first wait. */
  function Stop(s: Process, o: ObjectId): Process {
    if o >= |s.dbs| || s.dbs[o].stopped then s
    else
      var d := s.dbs[o].(accepting := false);
      if d.thread.Some? then
        WithDb(s, o, d.(queue := d.queue + [StopCommand])).(calls := s.calls + [StopJoin(o, d.thread.value)])
      else StopTail(WithDb(s, o, d), o)
  }

  /** The join in `async_stop` returns or times out. */
  function StopJoined(s: Process, i: nat): Process {
    if i >= |s.calls| || !s.calls[i].StopJoin? || s.calls[i].o >= |s.dbs| then s
    else
      var resumed := s.(calls := Remove(s.calls, i));
      if ThreadAlive(s, Some(s.calls[i].thread)) then resumed else StopTail(resumed, s.calls[i].o)
  }

  function PoolShut(s: Process, i: nat): Process {
    if i >= |s.calls| || !s.calls[i].StopPool? || s.calls[i].o >= |s.dbs| then s
    else StopEnds(s.(calls := Remove(s.calls, i)), s.calls[i].o, s.calls[i].failed)
  }

  /** `discard_unstarted`. */
  function Discard(s: Process, o: ObjectId): Process {
    if o >= |s.dbs| || ThreadAlive(s, s.dbs[o].thread) then s else Release(s, o)
  }

  function CancelCall(s: Process, i: nat): Process {
    if i >= |s.calls| then s else s.(calls := Remove(s.calls, i))
  }

  // ---- The writer thread ------------------------------------------------------------------

  function Became(s: Process, t: ThreadId, life: Life): Process
    requires t < |s.writers|
  {
    s.(writers := s.writers[t := s.writers[t].(life := life)])
  }

  function Opened(s: Process, t: ThreadId, ok: bool): Process {
    if t >= |s.writers| || !s.writers[t].life.Opening? then s else Became(s, t, if ok then Serving else OpenFailed)
  }

  /** `_writer_main` takes the next command: runs a write, or leaves its loop at a stop. */
  function TakeCommand(s: Process, t: ThreadId): Process {
    if t >= |s.writers| || !s.writers[t].life.Serving? || s.writers[t].db >= |s.dbs| then s
    else
      var o, d := s.writers[t].db, s.dbs[s.writers[t].db];
      if d.queue == [] then s
      else
        match d.queue[0]
        case StopCommand => Became(WithDb(s, o, d.(queue := d.queue[1..])), t, Closing)
        case Write(w) => WithDb(s, o, d.(queue := d.queue[1..], executed := d.executed + [w]))
  }

  function Closed(s: Process, t: ThreadId, ok: bool): Process {
    if t >= |s.writers| || !s.writers[t].life.Closing? then s
    else Became(s, t, if ok then ClosedCleanly else CloseFailed)
  }

  // ---- Runs -----------------------------------------------------------------------------------

  datatype Event =
    | ObjectMade(path: Path) | StartCalled(o: ObjectId) | StartContinues(i: nat) | StartJoinEnded(i: nat)
    | WriteCalled(o: ObjectId, w: nat) | WriteRaised(o: ObjectId) | IntakeClosed(o: ObjectId)
    | StopCalled(o: ObjectId) | StopJoinEnded(i: nat) | PoolEnded(i: nat)
    | DiscardCalled(o: ObjectId) | CallCancelled(i: nat)
    | ThreadOpened(t: ThreadId, ok: bool) | ThreadTook(t: ThreadId) | ThreadClosed(t: ThreadId, ok: bool)

  function Apply(s: Process, e: Event): Process {
    match e
    case ObjectMade(path) => s.(dbs := s.dbs + [NewDb(path)])
    case StartCalled(o) => Start(s, o)
    case StartContinues(i) => StartResumes(s, i)
    case StartJoinEnded(i) => StartJoined(s, i)
    case WriteCalled(o, w) => SubmitWrite(s, o, w)
    case WriteRaised(o) => WriteFailed(s, o)
    case IntakeClosed(o) => CloseIntake(s, o)
    case StopCalled(o) => Stop(s, o)
    case StopJoinEnded(i) => StopJoined(s, i)
    case PoolEnded(i) => PoolShut(s, i)
    case DiscardCalled(o) => Discard(s, o)
    case CallCancelled(i) => CancelCall(s, i)
    case ThreadOpened(t, ok) => Opened(s, t, ok)
    case ThreadTook(t) => TakeCommand(s, t)
    case ThreadClosed(t, ok) => Closed(s, t, ok)
  }

  function Run(s: Process, events: seq<Event>): Process
    decreases |events|
  {
    if events == [] then s else Apply(Run(s, events[..|events| - 1]), events[|events| - 1])
  }
}
