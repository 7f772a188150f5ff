/** storage/database.py, `ArchiveDatabase`: the fields of one object and the process-wide set of
    owned paths, with `async_start`, `async_stop` and the writer loop as the segments between
    their waits.

    A method is given, as ghosts, the process it runs in and the object it is there; it is proved
    to do to its own fields and to the owned paths what the step does in the process. */
module ArchiveDatabases {
  import opened Fence
  import opened Wrappers
  import opened Sequences

  /** The module-level `_OWNED_PATHS`, shared by every object. */
  class OwnedPaths {
    var paths: set<Path>

    constructor ()
      ensures paths == {}
    {
      paths := {};
    }
  }

  datatype StartOutcome = Launched | AlreadyStarted | InProgress | Busy

  class ArchiveDatabase {
    const path: Path
    const owned: OwnedPaths
    var thread: Option<ThreadId>
    var metadata: bool
    var accepting: bool
    var ownsPath: bool
    var stopped: bool
    var readerPool: bool
    var futuresOf: Option<ThreadId>
    var commands: seq<Command>

    ghost var accepted: seq<nat>
    ghost var executed: seq<nat>

    ghost function Fields(): Db
      reads this
    {
      Db(path, thread, metadata, accepting, ownsPath, stopped, readerPool, futuresOf, commands, accepted, executed)
    }

    /** This object is the o-th of the process. */
    ghost predicate IsIn(s: Process, o: ObjectId)
      reads this, owned
    {
      o < |s.dbs| && s.dbs[o] == Fields() && s.owned == owned.paths
    }

    constructor (path: Path, owned: OwnedPaths)
      ensures Fields() == NewDb(path) && this.owned == owned
    {
      this.path, this.owned := path, owned;
      thread, metadata, accepting, ownsPath := None, false, false, false;
      stopped, readerPool, futuresOf := false, false, None;
      commands, accepted, executed := [], [], [];
    }

    // ---- The guard ------------------------------------------------------------------------

    /** `_acquire_guard`. */
    method AcquireGuard() returns (acquired: bool)
      modifies this`ownsPath, owned`paths
      ensures acquired <==> path !in old(owned.paths)
      ensures owned.paths == old(owned.paths) + if acquired then {path} else {}
      ensures ownsPath == (old(ownsPath) || acquired)
    {
      if path in owned.paths {
        return false;
      }
      owned.paths := owned.paths + {path};
      ownsPath := true;
      return true;
    }

    /** `_release_guard`. */
    method ReleaseGuard(ghost s: Process, ghost o: ObjectId)
      requires IsIn(s, o)
      modifies this`ownsPath, owned`paths
      ensures IsIn(Release(s, o), o)
    {
      if ownsPath {
        owned.paths := owned.paths - {path};
        ownsPath := false;
      }
    }

    // ---- Starting -----------------------------------------------------------------------------

    /** `async_start` up to awaiting the writer it launches. */
    method AsyncStart(newThread: ThreadId, ghost s: Process, ghost o: ObjectId) returns (outcome: StartOutcome)
      requires IsIn(s, o) && newThread == |s.writers|
      modifies this`thread, this`ownsPath, this`futuresOf, owned`paths
      ensures IsIn(Start(s, o), o)
      ensures outcome.Launched? <==> Launches(s, o)
      ensures outcome.Busy? <==> s.dbs[o].thread.None? && path in s.owned
    {
      if thread.Some? {
        return if metadata then AlreadyStarted else InProgress;
      }
      var acquired := AcquireGuard();
      if !acquired {
        return Busy;
      }
      futuresOf := Some(newThread);
      thread := Some(newThread);
      return Launched;
    }

    /** The writer opened: remember its metadata and open intake. */
    method StartReturns(ghost s: Process, ghost o: ObjectId, ghost i: nat)
      requires IsIn(s, o) && i < |s.calls| && s.calls[i].StartWait? && s.calls[i].o == o
               && s.calls[i].started < |s.writers|
      requires !s.writers[s.calls[i].started].life.Opening? && !s.writers[s.calls[i].started].life.OpenFailed?
      modifies this`metadata, this`readerPool, this`accepting
      ensures IsIn(StartResumes(s, i), o)
    {
      metadata := true;
      readerPool := true;
      accepting := true;
    }

    /** The writer failed to open: join the thread that is set, or clean up at once. */
    method StartFails(ghost s: Process, ghost o: ObjectId, ghost i: nat) returns (join: Option<ThreadId>)
      requires IsIn(s, o) && i < |s.calls| && s.calls[i].StartWait? && s.calls[i].o == o
               && s.calls[i].started < |s.writers|
      requires s.writers[s.calls[i].started].life.OpenFailed?
      modifies this`thread, this`ownsPath, owned`paths
      ensures IsIn(StartResumes(s, i), o)
      ensures join == s.dbs[o].thread
    {
      join := thread;
      if join.None? {
        ReleaseAfterFailure(s.(calls := Remove(s.calls, i)), o);
      }
    }

    method ReleaseAfterFailure(ghost s: Process, ghost o: ObjectId)
      requires IsIn(s, o)
      modifies this`thread, this`ownsPath, owned`paths
      ensures IsIn(StartCleanup(s, o), o)
    {
      thread := None;
      ReleaseGuard(WithDb(s, o, s.dbs[o].(thread := None)), o);
    }

    /** The join of a failed start ended; a surviving thread keeps the guard. */
    method StartJoinEnds(alive: bool, ghost s: Process, ghost o: ObjectId, ghost i: nat)
      requires IsIn(s, o) && i < |s.calls| && s.calls[i].StartJoin? && s.calls[i].o == o
      requires alive == ThreadAlive(s, Some(s.calls[i].thread))
      modifies this`thread, this`ownsPath, owned`paths
      ensures IsIn(StartJoined(s, i), o)
    {
      if !alive {
        ReleaseAfterFailure(s.(calls := Remove(s.calls, i)), o);
      }
    }

    // ---- Writing --------------------------------------------------------------------------------

    /** `async_write` up to awaiting the result. */
    method AsyncWrite(w: nat, ghost s: Process, ghost o: ObjectId) returns (queued: bool)
      requires IsIn(s, o)
      modifies this`commands, this`accepted
      ensures IsIn(SubmitWrite(s, o, w), o)
      ensures queued <==> s.dbs[o].accepting
    {
      if !accepting {
        return false;
      }
      commands := commands + [Write(w)];
      accepted := accepted + [w];
      return true;
    }

    /** A storage error surfaced from a write: close intake. */
    method WriteRaised(ghost s: Process, ghost o: ObjectId)
      requires IsIn(s, o)
      modifies this`accepting
      ensures IsIn(WriteFailed(s, o), o)
    {
      accepting := false;
    }

    /** One turn of the writer loop on a nonempty queue: the write it runs, or none at a stop. */
    method WriterTurn(ghost s: Process, ghost o: ObjectId, ghost t: ThreadId) returns (ran: Option<nat>)
      requires IsIn(s, o) && t < |s.writers| && s.writers[t] == Writer(o, Serving) && commands != []
      modifies this`commands, this`executed
      ensures IsIn(TakeCommand(s, t), o)
      ensures ran.None? <==> TakeCommand(s, t).writers[t].life == Closing
      ensures ran.Some? ==> old(commands)[0] == Write(ran.value)
    {
      var command := commands[0];
      commands := commands[1..];
      if command.StopCommand? {
        return None;
      }
      executed := executed + [command.id];
      return Some(command.id);
    }

    // ---- Stopping ---------------------------------------------------------------------------------

    /** `stop_accepting`. */
    method StopAccepting(ghost s: Process, ghost o: ObjectId)
      requires IsIn(s, o)
      modifies this`accepting
      ensures IsIn(CloseIntake(s, o), o)
    {
      if !stopped {
        accepting := false;
      }
    }

    /** `async_stop` up to its first wait: the thread to join, if there is one. */
    method AsyncStop(shutdownFailed: bool, ghost s: Process, ghost o: ObjectId) returns (join: Option<ThreadId>)
      requires IsIn(s, o) && shutdownFailed == ShutdownFailed(s, o)
      modifies this, owned`paths
      ensures IsIn(Stop(s, o), o)
      ensures join == if s.dbs[o].stopped then None else s.dbs[o].thread
    {
      if stopped {
        return None;
      }
      accepting := false;
      join := thread;
      if join.Some? {
        commands := commands + [StopCommand];
      } else {
        StopRest(shutdownFailed, WithDb(s, o, s.dbs[o].(accepting := false)), o);
      }
    }

    /** Once no thread is left to join: drop the reader pool, and if it needs no wait, finish. */
    method StopRest(shutdownFailed: bool, ghost s: Process, ghost o: ObjectId)
      requires IsIn(s, o) && shutdownFailed == ShutdownFailed(s, o)
      modifies this, owned`paths
      ensures IsIn(StopTail(s, o), o)
    {
      thread := None;
      var pool := readerPool;
      readerPool := false;
      if !pool {
        StopFinishes(shutdownFailed, WithDb(s, o, s.dbs[o].(thread := None, pool := false)), o);
      }
    }

    /** A shutdown that failed keeps the guard; otherwise the object is stopped and gives it up. */
    method StopFinishes(shutdownFailed: bool, ghost s: Process, ghost o: ObjectId)
      requires IsIn(s, o)
      modifies this`stopped, this`ownsPath, owned`paths
      ensures IsIn(StopEnds(s, o, shutdownFailed), o)
    {
      if shutdownFailed {
        return;
      }
      stopped := true;
      ReleaseGuard(WithDb(s, o, s.dbs[o].(stopped := true)), o);
    }

    /** The join of a stop ended; a surviving thread keeps the guard. */
    method StopJoinEnds(alive: bool, shutdownFailed: bool, ghost s: Process, ghost o: ObjectId, ghost i: nat)
      requires IsIn(s, o) && i < |s.calls| && s.calls[i].StopJoin? && s.calls[i].o == o
      requires alive == ThreadAlive(s, Some(s.calls[i].thread)) && shutdownFailed == ShutdownFailed(s, o)
      modifies this, owned`paths
      ensures IsIn(StopJoined(s, i), o)
    {
      if !alive {
        StopRest(shutdownFailed, s.(calls := Remove(s.calls, i)), o);
      }
    }

    /** The reader pool is shut down. */
    method PoolIsShut(shutdownFailed: bool, ghost s: Process, ghost o: ObjectId, ghost i: nat)
      requires IsIn(s, o) && i < |s.calls| && s.calls[i] == StopPool(o, shutdownFailed)
      modifies this`stopped, this`ownsPath, owned`paths
      ensures IsIn(PoolShut(s, i), o)
    {
      StopFinishes(shutdownFailed, s.(calls := Remove(s.calls, i)), o);
    }

    /** `discard_unstarted`. */
    method DiscardUnstarted(alive: bool, ghost s: Process, ghost o: ObjectId)
      requires IsIn(s, o) && alive == ThreadAlive(s, thread)
      modifies this`ownsPath, owned`paths
      ensures IsIn(Discard(s, o), o)
    {
      if !alive {
        ReleaseGuard(s, o);
      }
    }
  }
}
