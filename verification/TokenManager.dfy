/** cloud/auth.py, `TokenManager`: its fields, and `token` and `refresh` as the segments between
    their awaits. Each segment is proved to perform one step of the lifecycle. */
module TokenLifecycle {
  import opened Wrappers
  import opened Auth
  import opened AuthTimes

  const MAX_CREDENTIAL: nat := 8192

  class TokenManager {
    const rotates: bool
    var snapshot: Option<Snapshot>
    var refreshToken: string
    var subject: Option<string>
    var lastTtl: nat
    var lock: Option<CallerId>

    ghost const initial: string
    ghost const expected: Option<string>
    ghost var callers: map<CallerId, Caller>
    ghost var sent: seq<Sent>
    ghost var accepted: seq<Grant>

    ghost function State(): Manager
      reads this
    {
      Manager(initial, expected, rotates, snapshot, refreshToken, subject, lastTtl, lock, callers, sent, accepted)
    }

    constructor (refreshToken: string, expectedSubject: Option<string>, hasRotationHook: bool)
      requires 0 < |refreshToken| <= MAX_CREDENTIAL
      ensures State() == NewManager(refreshToken, expectedSubject, hasRotationHook)
    {
      rotates, snapshot, this.refreshToken, subject := hasRotationHook, None, refreshToken, expectedSubject;
      lastTtl, lock := 0, None;
      initial, expected, callers, sent, accepted := refreshToken, expectedSubject, map[], [], [];
    }

    /** The check both `token` and the locked part of `refresh` make on the snapshot. */
    method FreshSnapshot(now: real) returns (valid: Option<Snapshot>)
      ensures valid == if Reusable(State(), now) then snapshot else None
      ensures valid.Some? <==> snapshot.Some? && Enough(snapshot.value.expiry - now, lastTtl)
    {
      if snapshot.None? {
        return None;
      }
      var remaining := snapshot.value.expiry - now;
      var quarter := lastTtl as real / 4.0;
      var margin := if quarter < 1.0 then 1.0 else if quarter > 300.0 then 300.0 else quarter;
      return if remaining > 0.0 && remaining > margin then snapshot else None;
    }

    /** `token`, up to its answer or to the lock in `refresh`. */
    method Token(id: CallerId, now: real) returns (answer: Option<Snapshot>)
      requires Free(State(), id)
      modifies this`callers
      ensures State() == CallToken(old(State()), id, now)
      ensures answer == if snapshot.Some? && Enough(snapshot.value.expiry - now, lastTtl) then snapshot else None
      ensures answer.Some? <==> callers[id].Answered?
      ensures answer.Some? ==> callers[id].result == Ok(answer.value)
    {
      answer := FreshSnapshot(now);
      callers := callers[id := if answer.Some? then Answered(Ok(answer.value)) else Queued(None)];
    }

    /** `refresh`, up to the lock. */
    method Refresh(id: CallerId, failedToken: Option<string>)
      requires Free(State(), id)
      modifies this`callers
      ensures State() == CallRefresh(old(State()), id, failedToken)
    {
      callers := callers[id := Queued(failedToken)];
    }

    /** `refresh` once it holds the lock: a snapshot to return, or the token to send. */
    method Locked(id: CallerId, failedToken: Option<string>, now: real)
      returns (answer: Option<Snapshot>, request: Option<string>)
      requires lock.None? && id in callers && callers[id] == Queued(failedToken)
      modifies this`lock, this`callers, this`sent
      ensures State() == Acquire(old(State()), id, now)
      ensures answer.Some? != request.Some?
      ensures failedToken.None? ==>
                answer == if snapshot.Some? && Enough(snapshot.value.expiry - now, lastTtl) then snapshot else None
      ensures failedToken.Some? ==>
                answer == if snapshot.Some? && snapshot.value.idToken != failedToken.value then snapshot else None
      ensures request.Some? ==>
                request.value == refreshToken && sent == old(sent) + [Sent(id, failedToken, request.value, |accepted|)]
      ensures answer.Some? ==> sent == old(sent) && callers[id] == Answered(Ok(answer.value))
    {
      answer, request := None, None;
      if failedToken.Some? && snapshot.Some? && snapshot.value.idToken != failedToken.value {
        answer := snapshot;
      } else if failedToken.None? {
        answer := FreshSnapshot(now);
      }
      if answer.Some? {
        callers := callers[id := Answered(Ok(answer.value))];
        return;
      }
      lock := Some(id);
      request := Some(refreshToken);
      callers := callers[id := Requesting];
      sent := sent + [Sent(id, failedToken, refreshToken, |accepted|)];
    }

    method ResponseGrant(outcome: Outcome) returns (grant: Result<Grant>)
      ensures grant == ResponseOf(State(), outcome)
    {
      match outcome
      case Raised(e) => return Err(e);
      case Data(data) => grant := ParseRefreshResponse(data, subject);
    }

    /** The request returned or raised. With a changed refresh token and a hook, the hook runs
        next, still under the lock. */
    method Replied(id: CallerId, outcome: Outcome, now: real)
      requires id in callers && callers[id].Requesting?
      modifies this`snapshot, this`refreshToken, this`subject, this`lastTtl, this`lock, this`callers, this`accepted
      ensures State() == Respond(old(State()), id, outcome, now)
    {
      var grant := ResponseGrant(outcome);
      if grant.Err? {
        callers := callers[id := Answered(Err(Surfaced(grant.error)))];
        lock := None;
        return;
      }
      var g := grant.value;
      var previous := refreshToken;
      var generation := if snapshot.None? then 1 else snapshot.value.generation + 1;
      subject, refreshToken, lastTtl := Some(g.subject), g.refreshToken, g.ttl;
      var granted := Snapshot(g.subject, g.idToken, g.refreshToken, now + g.ttl as real, generation);
      snapshot := Some(granted);
      accepted := accepted + [g];
      if rotates && g.refreshToken != previous {
        callers := callers[id := Rotating(granted)];
      } else {
        callers := callers[id := Answered(Ok(granted))];
        lock := None;
      }
    }

    /** The rotation hook returned or raised. */
    method HookDone(id: CallerId, saved: bool)
      requires id in callers && callers[id].Rotating?
      modifies this`lock, this`callers
      ensures State() == Rotated(old(State()), id, saved)
    {
      callers := callers[id := Answered(if saved then Ok(callers[id].snapshot) else Err(AuthError))];
      lock := None;
    }

    /** The caller's task is cancelled, waiting for the lock or holding it; leaving the block
        releases the lock it holds. */
    method CallerCancelled(id: CallerId, waiting: bool)
      requires !Free(State(), id) && waiting == callers[id].Queued?
      modifies this`lock, this`callers
      ensures State() == Cancel(old(State()), id)
    {
      if !waiting {
        lock := None;
      }
      callers := callers - {id};
    }
  }
}
