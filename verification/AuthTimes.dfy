/** When a token is reused, in seconds, and what each way a refresh can end leaves behind. */
module AuthTimes {
  import opened Wrappers
  import opened Auth

  // ---- Reuse ---------------------------------------------------------------------------------------

  /** With this many seconds left of a lifetime, the token is still reused: more than one second of
      the shortest lifetimes, more than five minutes of the longest, and more than a quarter of
      those between. */
  predicate Enough(left: real, ttl: nat) {
    if ttl <= 4 then left > 1.0
    else if ttl <= 1200 then 4.0 * left > ttl as real
    else left > 300.0
  }

  predicate HasEnough(m: Manager, now: real) {
    m.snapshot.Some? && Enough(m.snapshot.value.expiry - now, m.lastTtl)
  }

  /** A quarter of a lifetime is the one second and the five minutes at the borders. */
  lemma BordersAgree(left: real)
    ensures Enough(left, 4) <==> 4.0 * left > 4.0
    ensures Enough(left, 1200) <==> left > 300.0
  {
  }

  /** A call of `token` answers from the snapshot exactly while enough of its lifetime is left;
      otherwise the caller waits for the lock. */
  lemma TokenAnswersIff(m: Manager, id: CallerId, now: real, n: Manager)
    requires id !in m.callers || m.callers[id].Answered?
    requires n == CallToken(m, id, now)
    ensures n == m.(callers := m.callers[id := if HasEnough(m, now) then Answered(Ok(m.snapshot.value))
                                                                    else Queued(None)])
  {
  }

  /** The locked check of a caller with no failed token sends a request exactly when not enough
      of the lifetime is left, and the check of one with a failed token exactly when there is no
      token or the failed one is the current one. What it does not send it answers, and keeps
      the lock free. */
  lemma LockSendsIff(m: Manager, id: CallerId, now: real, n: Manager, failed: Option<string>)
    requires m.holder == None && id in m.callers && m.callers[id] == Queued(failed) && n == Acquire(m, id, now)
    ensures n.sent != m.sent <==>
            if failed == None then !HasEnough(m, now)
            else m.snapshot.None? || m.snapshot.value.idToken == failed.value
    ensures n.sent != m.sent ==>
              n == m.(callers := m.callers[id := Requesting], holder := Some(id),
                      sent := m.sent + [Sent(id, failed, m.refreshToken, |m.accepted|)])
    ensures n.sent == m.sent ==>
              m.snapshot.Some? && n == m.(callers := m.callers[id := Answered(Ok(m.snapshot.value))])
  {
    assert n.sent != m.sent ==> |n.sent| == |m.sent| + 1;
  }

  // ---- How long a grant is reused --------------------------------------------------------------------

  lemma StepKeepsGrant(m: Manager, e: Event, n: Manager)
    requires n == Apply(m, e)
    ensures |m.accepted| <= |n.accepted|
    ensures |n.accepted| == |m.accepted| ==> n.snapshot == m.snapshot && n.lastTtl == m.lastTtl
  {
  }

  lemma {:induction false} RunKeepsGrant(m: Manager, events: seq<Event>)
    ensures |m.accepted| <= |Run(m, events).accepted|
    ensures |Run(m, events).accepted| == |m.accepted| ==>
              Run(m, events).snapshot == m.snapshot && Run(m, events).lastTtl == m.lastTtl
    decreases |events|
  {
    if events != [] {
      RunKeepsGrant(m, events[..|events| - 1]);
      StepKeepsGrant(Run(m, events[..|events| - 1]), events[|events| - 1], Run(m, events));
    }
  }

  /** The instant from which a grant received at this time is no longer reused. */
  function ReuseEnd(at: real, ttl: nat): real {
    at + if ttl <= 4 then ttl as real - 1.0 else if ttl <= 1200 then 3.0 * ttl as real / 4.0 else ttl as real - 300.0
  }

  /** A grant is reused from the moment it is received until one second, a quarter of its lifetime
      or five minutes before it expires, by every caller of `token`, through any run that accepts
      no other grant. */
  lemma GrantIsReusedUntil(m: Manager, a: CallerId, outcome: Outcome, at: real, g: Grant, n: Manager,
                           events: seq<Event>, later: Manager, id: CallerId, now: real)
    requires a in m.callers && m.callers[a].Requesting? && ResponseOf(m, outcome) == Ok(g)
    requires n == Respond(m, a, outcome, at) && later == Run(n, events) && |later.accepted| == |n.accepted|
    requires id !in later.callers || later.callers[id].Answered?
    ensures later.snapshot.Some? && later.snapshot.value.idToken == g.idToken
    ensures CallToken(later, id, now).callers[id] ==
            if now < ReuseEnd(at, g.ttl) then Answered(Ok(later.snapshot.value)) else Queued(None)
  {
    RunKeepsGrant(n, events);
    TokenAnswersIff(later, id, now, CallToken(later, id, now));
    GrantStored(m, a, outcome, at, g, n);
    EnoughUntil(at, g.ttl, now);
  }

  lemma EnoughUntil(at: real, ttl: nat, now: real)
    ensures Enough(at + ttl as real - now, ttl) <==> now < ReuseEnd(at, ttl)
  {
  }

  // ---- How a refresh ends ----------------------------------------------------------------------------

  /** An accepted refresh: the grant is current from this instant for its lifetime, under its own
      subject and refresh token, one generation on. A hook that is to save a changed refresh token
      runs under the lock; otherwise the caller is answered and the lock released. */
  lemma GrantStored(m: Manager, id: CallerId, outcome: Outcome, now: real, g: Grant, n: Manager)
    requires id in m.callers && m.callers[id].Requesting? && ResponseOf(m, outcome) == Ok(g)
    requires n == Respond(m, id, outcome, now)
    ensures n.accepted == m.accepted + [g] && n.sent == m.sent && n.lastTtl == g.ttl
    ensures n.subject == Some(g.subject) && n.refreshToken == g.refreshToken
    ensures n.snapshot == Some(Snapshot(g.subject, g.idToken, g.refreshToken, now + g.ttl as real,
                                        if m.snapshot.None? then 1 else m.snapshot.value.generation + 1))
    ensures if m.rotates && g.refreshToken != m.refreshToken
            then n.holder == m.holder && n.callers == m.callers[id := Rotating(n.snapshot.value)]
            else n.holder == None && n.callers == m.callers[id := Answered(Ok(n.snapshot.value))]
  {
  }

  /** A failed refresh changes nothing but its caller, who gets the error, and the lock, which is
      released. */
  lemma FailureKeepsToken(m: Manager, id: CallerId, outcome: Outcome, now: real, n: Manager)
    requires id in m.callers && m.callers[id].Requesting? && ResponseOf(m, outcome).Err?
    requires n == Respond(m, id, outcome, now)
    ensures n.callers.Keys == m.callers.Keys && n.callers[id].Answered? && n.callers[id].result.Err?
    ensures n == m.(callers := m.callers[id := n.callers[id]], holder := None)
  {
  }

  /** What the caller of a failed refresh is told: a response that breaks the contract, a wrong
      account and a refused credential all ask for the credential again; a response over the
      size bound and any other failure of the request are told as they are. */
  lemma FailureTold(m: Manager, id: CallerId, outcome: Outcome, now: real, e: Error)
    requires id in m.callers && m.callers[id].Requesting? && ResponseOf(m, outcome) == Err(e)
    ensures var told := Respond(m, id, outcome, now).callers[id].result;
            && (e in {SchemaError, ConflictError, ValueError, AuthError} ==> told == Err(AuthError))
            && (e !in {SchemaError, ConflictError, ValueError, AuthError} ==> told == Err(e))
            && (outcome.Data? ==> told == Err(AuthError) || told == Err(BoundsError))
  {
  }

  /** A hook that cannot save the new refresh token fails its caller only: the grant stays. */
  lemma HookFailureKeepsGrant(m: Manager, id: CallerId, saved: bool, n: Manager)
    requires id in m.callers && m.callers[id].Rotating? && n == Apply(m, Hook(id, saved))
    ensures n == m.(callers := m.callers[id := n.callers[id]], holder := None)
    ensures n.callers[id] == Answered(if saved then Ok(m.callers[id].snapshot) else Err(AuthError))
  {
  }

  // ---- Accepted responses ------------------------------------------------------------------------------

  /** A text field with something besides white space, of at most 2048 characters. */
  predicate PlainText(f: Field) {
    f.Text? && |f.text| <= 2048 && exists k :: 0 <= k < |f.text| && !White(f.text[k])
  }

  predicate White(c: char) {
    c as int in {9, 10, 11, 12, 13, 28, 29, 30, 31, 32}
  }

  /** A response is accepted exactly when its three texts are plain, its lifetime is a whole number
      of seconds up to one day, and it is of the account known before, if any. */
  lemma AcceptedIff(data: RefreshData, prior: Option<string>)
    ensures Parsed(data, prior).Ok? <==>
            && PlainText(data.userId) && PlainText(data.idToken) && PlainText(data.refreshToken)
            && (exists n: int :: IntOf(data.expiresIn) == Some(n) && 1 <= n <= 24 * 60 * 60)
            && (prior == None || prior == Some(data.userId.text))
    ensures Parsed(data, prior).Ok? ==>
              var g := Parsed(data, prior).value;
              && data == RefreshData(Text(g.subject), Text(g.idToken), Text(g.refreshToken), data.expiresIn)
              && IntOf(data.expiresIn) == Some(g.ttl)
  {
    PlainIff(data.userId);
    PlainIff(data.idToken);
    PlainIff(data.refreshToken);
  }

  lemma PlainIff(f: Field)
    ensures PlainText(f) <==> GoodText(f)
  {
    forall c: char
      ensures White(c) <==> IsSpace(c)
    {
    }
  }

  /** The error of a refused response: of the first field that fails, a text over the size bound
      or a broken contract; and a wrong account once the subject could be read. */
  lemma RefusedWith(data: RefreshData, prior: Option<string>)
    ensures !PlainText(data.userId) ==> Parsed(data, prior) == Err(FieldError(data.userId))
    ensures PlainText(data.userId) && prior.Some? && data.userId.text != prior.value ==>
              Parsed(data, prior) == Err(AuthError)
    ensures PlainText(data.userId) && prior in {None, Some(data.userId.text)} ==>
              && (!PlainText(data.idToken) ==> Parsed(data, prior) == Err(FieldError(data.idToken)))
              && (PlainText(data.idToken) && !PlainText(data.refreshToken) ==>
                    Parsed(data, prior) == Err(FieldError(data.refreshToken)))
              && (PlainText(data.idToken) && PlainText(data.refreshToken) ==>
                    Parsed(data, prior).Ok? || Parsed(data, prior) == Err(SchemaError))
  {
    PlainIff(data.userId);
    PlainIff(data.idToken);
    PlainIff(data.refreshToken);
    ErrorOf(data.userId);
    ErrorOf(data.idToken);
    ErrorOf(data.refreshToken);
  }

  function FieldError(f: Field): Error {
    if f.Text? && |f.text| > 2048 && exists k :: 0 <= k < |f.text| && !White(f.text[k]) then BoundsError
    else SchemaError
  }

  lemma ErrorOf(f: Field)
    ensures !PlainText(f) ==> TextError(f) == FieldError(f)
  {
    forall c: char
      ensures White(c) <==> IsSpace(c)
    {
    }
  }

  // ---- Lifetimes as text ---------------------------------------------------------------------------------

  /** Decimal text of up to twenty characters stands for its number, with a sign for the number
      below zero; longer text stands for none. */
  lemma TextAsNumber(n: nat, k: nat)
    requires 1 <= k <= 20 && n < Power10(k)
    ensures IntOf(Text(Decimal(n))) == Some(n)
    ensures k <= 19 ==> IntOf(Text("-" + Decimal(n))) == Some(0 - n)
  {
    DecimalReadsBack(n);
    DecimalIsShort(n, k);
    assert ("-" + Decimal(n))[1..] == Decimal(n);
    assert !IsDigit(("-" + Decimal(n))[0]);
  }

  lemma LongTextIsNoNumber(s: string)
    requires |s| > 20
    ensures IntOf(Text(s)) == None
  {
  }
}
