/** cloud/auth.py: parsing refresh responses, and the single-flight token lifecycle as a state
    machine over interleaved callers of `token` and `refresh`. */
module Auth {
  import opened Wrappers
  import M = Models

  const MAX_FIELD: nat := 2048
  const MAX_LIFETIME: nat := 86_400

  // ---- Refresh responses ------------------------------------------------------------------

  /** A JSON value as far as the checks tell values apart. */
  datatype Field = Absent | Text(text: string) | Whole(number: int) | OtherValue

  datatype RefreshData = RefreshData(userId: Field, idToken: Field, refreshToken: Field, expiresIn: Field)
  datatype Grant = Grant(subject: string, idToken: string, refreshToken: string, ttl: nat)

  predicate IsSpace(c: char) {
    c == ' ' || '\t' <= c <= '\r' || 0x1C <= c as int <= 0x1F
  }

  predicate Blank(s: string) {
    forall i | 0 <= i < |s| :: IsSpace(s[i])
  }

  /** `required_str`. */
  function RequiredStr(f: Field): Result<string> {
    if !f.Text? || Blank(f.text) then Err(SchemaError)
    else if |f.text| > MAX_FIELD then Err(BoundsError)
    else Ok(f.text)
  }

  predicate IsDigit(c: char) {
    '0' <= c <= '9'
  }

  function DigitOf(c: char): nat
    requires IsDigit(c)
  {
    c as int - '0' as int
  }

  predicate AllDigits(s: string) {
    s != "" && forall i | 0 <= i < |s| :: IsDigit(s[i])
  }

  function DigitsValue(s: string): nat
    requires forall i | 0 <= i < |s| :: IsDigit(s[i])
  {
    if s == "" then 0 else 10 * DigitsValue(s[..|s| - 1]) + DigitOf(s[|s| - 1])
  }

  /** The integer a field stands for: a number, or a decimal string of at most twenty characters. */
  function IntOf(f: Field): Option<int> {
    match f
    case Whole(n) => Some(n)
    case Text(s) =>
      if |s| > 20 then None
      else if AllDigits(s) then Some(DigitsValue(s))
      else if s != "" && s[0] == '-' && AllDigits(s[1..]) then Some(0 - DigitsValue(s[1..]) as int)
      else None
    case _ => None
  }

  /** `exact_int` with strings allowed and a minimum of one. */
  function Lifetime(f: Field): Result<nat> {
    match IntOf(f)
    case Some(n) => if 1 <= n <= M.MAX_SIGNED_INT then Ok(n) else Err(SchemaError)
    case None => Err(SchemaError)
  }

  /** `parse_refresh_response`, checking field by field in this order. */
  method ParseRefreshResponse(data: RefreshData, prior: Option<string>) returns (out: Result<Grant>)
    ensures out == Parsed(data, prior)
  {
    var subject := RequiredStr(data.userId);
    if subject.Err? {
      return Err(subject.error);
    }
    if prior.Some? && subject.value != prior.value {
      return Err(AuthError);
    }
    var idToken := RequiredStr(data.idToken);
    if idToken.Err? {
      return Err(idToken.error);
    }
    var refreshToken := RequiredStr(data.refreshToken);
    if refreshToken.Err? {
      return Err(refreshToken.error);
    }
    var expires := Lifetime(data.expiresIn);
    if expires.Err? {
      return Err(expires.error);
    }
    if expires.value > MAX_LIFETIME {
      return Err(SchemaError);
    }
    return Ok(Grant(subject.value, idToken.value, refreshToken.value, expires.value));
  }

  predicate GoodText(f: Field) {
    f.Text? && !Blank(f.text) && |f.text| <= MAX_FIELD
  }

  predicate GoodLifetime(f: Field) {
    IntOf(f).Some? && 1 <= IntOf(f).value <= MAX_LIFETIME
  }

  /** The responses that are accepted, for an account that may already be known. */
  predicate Acceptable(data: RefreshData, prior: Option<string>) {
    && GoodText(data.userId) && GoodText(data.idToken) && GoodText(data.refreshToken) && GoodLifetime(data.expiresIn)
    && (prior.Some? ==> data.userId.text == prior.value)
  }

  /** The grant of an acceptable response, or the first failing field's error. */
  function Parsed(data: RefreshData, prior: Option<string>): Result<Grant> {
    if Acceptable(data, prior) then
      Ok(Grant(data.userId.text, data.idToken.text, data.refreshToken.text, IntOf(data.expiresIn).value))
    else if !GoodText(data.userId) then Err(TextError(data.userId))
    else if prior.Some? && data.userId.text != prior.value then Err(AuthError)
    else if !GoodText(data.idToken) then Err(TextError(data.idToken))
    else if !GoodText(data.refreshToken) then Err(TextError(data.refreshToken))
    else Err(SchemaError)
  }

  function TextError(f: Field): Error {
    if f.Text? && !Blank(f.text) then BoundsError else SchemaError
  }

  function Decimal(n: nat): string {
    if n < 10 then [('0' as int + n) as char] else Decimal(n / 10) + [('0' as int + n % 10) as char]
  }

  /** A decimal string stands for the number it writes, so either form of a lifetime is accepted. */
  lemma {:induction false} DecimalReadsBack(n: nat)
    ensures AllDigits(Decimal(n)) && DigitsValue(Decimal(n)) == n
  {
    if n >= 10 {
      DecimalReadsBack(n / 10);
      var init := Decimal(n / 10);
      assert Decimal(n)[..|init|] == init;
    } else {
      assert Decimal(n)[..0] == "";
    }
  }

  lemma {:induction false} DecimalIsShort(n: nat, k: nat)
    requires n < Power10(k) && k >= 1
    ensures |Decimal(n)| <= k
    decreases n
  {
    if n >= 10 {
      assert k > 1;
      DecimalIsShort(n / 10, k - 1);
    }
  }

  function Power10(k: nat): nat {
    if k == 0 then 1 else 10 * Power10(k - 1)
  }

  lemma LifetimeAsText(n: nat)
    requires n <= MAX_LIFETIME
    ensures IntOf(Text(Decimal(n))) == Some(n)
  {
    DecimalReadsBack(n);
    assert Power10(5) == 100_000;
    DecimalIsShort(n, 5);
  }

  // ---- The manager ---------------------------------------------------------------------------

  datatype Snapshot = Snapshot(subject: string, idToken: string, refreshToken: string, expiry: real, generation: nat)

  type CallerId = nat

  /** Where one call of `token` or `refresh` stands. */
  datatype Caller =
    | Queued(failed: Option<string>)
    | Requesting
    | Rotating(snapshot: Snapshot)
    | Answered(result: Result<Snapshot>)

  /** A refresh request: who sent it, the id token whose failure it was sent for, if any, the
      refresh token it carries, and how many refreshes had been accepted when it was sent. */
  datatype Sent = Sent(caller: CallerId, failed: Option<string>, token: string, after: nat)

  datatype Manager = Manager(
    initial: string, expected: Option<string>, rotates: bool,
    snapshot: Option<Snapshot>, refreshToken: string, subject: Option<string>, lastTtl: nat,
    holder: Option<CallerId>, callers: map<CallerId, Caller>, sent: seq<Sent>, accepted: seq<Grant>)

  function NewManager(initial: string, expected: Option<string>, rotates: bool): Manager {
    Manager(initial, expected, rotates, None, initial, expected, 0, None, map[], [], [])
  }

  function MinR(a: real, b: real): real { if a <= b then a else b }

  function MaxR(a: real, b: real): real { if a <= b then b else a }

  /** How much validity must remain for a token to be reused. */
  function Margin(ttl: nat): real {
    MinR(300.0, MaxR(1.0, ttl as real / 4.0))
  }

  predicate Usable(s: Snapshot, ttl: nat, now: real) {
    s.expiry - now > 0.0 && s.expiry - now > Margin(ttl)
  }

  predicate Reusable(m: Manager, now: real) {
    m.snapshot.Some? && Usable(m.snapshot.value, m.lastTtl, now)
  }

  predicate Free(m: Manager, id: CallerId) {
    id !in m.callers || m.callers[id].Answered?
  }

  function Answer(m: Manager, id: CallerId, result: Result<Snapshot>): Manager {
    m.(callers := m.callers[id := Answered(result)])
  }

  /** `token` up to the lock. */
  function CallToken(m: Manager, id: CallerId, now: real): Manager {
    if !Free(m, id) then m
    else if Reusable(m, now) then Answer(m, id, Ok(m.snapshot.value))
    else m.(callers := m.callers[id := Queued(None)])
  }

  /** `refresh` up to the lock. */
  function CallRefresh(m: Manager, id: CallerId, failed: Option<string>): Manager {
    if !Free(m, id) then m else m.(callers := m.callers[id := Queued(failed)])
  }

  /** Whether the locked check answers from the snapshot instead of sending a request. */
  predicate Reuses(m: Manager, failed: Option<string>, now: real) {
    || (failed.Some? && m.snapshot.Some? && m.snapshot.value.idToken != failed.value)
    || (failed.None? && Reusable(m, now))
  }

  /** The lock is acquired: answer from the snapshot and release it, or send a request. */
  function Acquire(m: Manager, id: CallerId, now: real): Manager {
    if m.holder.Some? || id !in m.callers || !m.callers[id].Queued? then m
    else if Reuses(m, m.callers[id].failed, now) then Answer(m, id, Ok(m.snapshot.value))
    else
      m.(holder := Some(id), callers := m.callers[id := Requesting],
         sent := m.sent + [Sent(id, m.callers[id].failed, m.refreshToken, |m.accepted|)])
  }

  /** How a request ends: data, or an exception of the transport. */
  datatype Outcome = Data(data: RefreshData) | Raised(error: Error)

  /** CloudAuthError passes; schema, value and type errors become CloudAuthError; others pass. */
  function Surfaced(e: Error): Error {
    if e == SchemaError || e == ConflictError || e == ValueError then AuthError else e
  }

  function ResponseOf(m: Manager, outcome: Outcome): Result<Grant> {
    match outcome
    case Data(data) => Parsed(data, m.subject)
    case Raised(e) => Err(e)
  }

  function Issued(m: Manager, g: Grant, now: real): Snapshot {
    Snapshot(g.subject, g.idToken, g.refreshToken, now + g.ttl as real,
             if m.snapshot.None? then 1 else m.snapshot.value.generation + 1)
  }

  /** The request ended: keep the grant in memory, then release or notify the rotation hook. */
  function Respond(m: Manager, id: CallerId, outcome: Outcome, now: real): Manager {
    if id !in m.callers || !m.callers[id].Requesting? then m
    else
      match ResponseOf(m, outcome)
      case Err(e) => Answer(m, id, Err(Surfaced(e))).(holder := None)
      case Ok(g) =>
        var s := Issued(m, g, now);
        var kept := m.(subject := Some(g.subject), refreshToken := g.refreshToken, lastTtl := g.ttl,
                       snapshot := Some(s), accepted := m.accepted + [g]);
        if m.rotates && g.refreshToken != m.refreshToken then kept.(callers := m.callers[id := Rotating(s)])
        else Answer(kept, id, Ok(s)).(holder := None)
  }

  function Rotated(m: Manager, id: CallerId, saved: bool): Manager {
    if id !in m.callers || !m.callers[id].Rotating? then m
    else Answer(m, id, if saved then Ok(m.callers[id].snapshot) else Err(AuthError)).(holder := None)
  }

  /** The caller's task is cancelled; the lock is released if it held it. */
  function Cancel(m: Manager, id: CallerId): Manager {
    if Free(m, id) then m
    else m.(callers := m.callers - {id}, holder := if m.callers[id].Queued? then m.holder else None)
  }

  datatype Event =
    | Token(id: CallerId, now: real)
    | Refresh(id: CallerId, failed: Option<string>)
    | Lock(id: CallerId, now: real)
    | Reply(id: CallerId, outcome: Outcome, now: real)
    | Hook(id: CallerId, saved: bool)
    | Cancelled(id: CallerId)

  function Apply(m: Manager, e: Event): Manager {
    match e
    case Token(id, now) => CallToken(m, id, now)
    case Refresh(id, failed) => CallRefresh(m, id, failed)
    case Lock(id, now) => Acquire(m, id, now)
    case Reply(id, outcome, now) => Respond(m, id, outcome, now)
    case Hook(id, saved) => Rotated(m, id, saved)
    case Cancelled(id) => Cancel(m, id)
  }

  function Run(m: Manager, events: seq<Event>): Manager
    decreases |events|
  {
    if events == [] then m else Apply(Run(m, events[..|events| - 1]), events[|events| - 1])
  }

  // ---- What every run keeps --------------------------------------------------------------------

  predicate InFlight(c: Caller) {
    c.Requesting? || c.Rotating?
  }

  /** Exactly the holder of the lock has a request or rotation under way. */
  predicate LockOk(m: Manager) {
    && (m.holder.Some? ==> m.holder.value in m.callers)
    && forall id | id in m.callers :: InFlight(m.callers[id]) <==> m.holder == Some(id)
  }

  /** The refresh token after the first n accepted refreshes. */
  function TokenAfter(initial: string, accepted: seq<Grant>, n: nat): string
    requires n <= |accepted|
  {
    if n == 0 then initial else accepted[n - 1].refreshToken
  }

  /** The request carries the refresh token of its time, and if it was sent for a failed id
      token, that token was the current one, or there was none. */
  predicate SentOk(m: Manager, s: Sent) {
    && s.after <= |m.accepted| && s.token == TokenAfter(m.initial, m.accepted, s.after)
    && (s.failed.Some? ==> s.after == 0 || m.accepted[s.after - 1].idToken == s.failed.value)
  }

  /** Every request carries the token of the last refresh accepted before it. */
  predicate AllSentOk(m: Manager) {
    forall k | 0 <= k < |m.sent| :: SentOk(m, m.sent[k])
  }

  predicate SnapshotOk(m: Manager) {
    && m.refreshToken == TokenAfter(m.initial, m.accepted, |m.accepted|)
    && (m.snapshot.None? <==> m.accepted == [])
    && (m.snapshot.Some? ==>
          var s, g := m.snapshot.value, m.accepted[|m.accepted| - 1];
          && s.generation == |m.accepted| && s.subject == g.subject && s.idToken == g.idToken
          && s.refreshToken == g.refreshToken && m.lastTtl == g.ttl && m.subject == Some(g.subject))
  }

  /** One subject for the life of the manager, the expected one if there is any. */
  predicate SubjectOk(m: Manager) {
    && (m.accepted == [] ==> m.subject == m.expected)
    && (m.expected.Some? ==> m.subject == m.expected)
    && forall k | 0 <= k < |m.accepted| ::
         m.subject == Some(m.accepted[k].subject) && 1 <= m.accepted[k].ttl <= MAX_LIFETIME
  }

  predicate Inv(m: Manager) {
    LockOk(m) && AllSentOk(m) && SnapshotOk(m) && SubjectOk(m) && |m.accepted| <= |m.sent|
  }

  lemma StartInv(initial: string, expected: Option<string>, rotates: bool)
    ensures Inv(NewManager(initial, expected, rotates))
  {
  }

  /** Accepting more leaves what was sent before in order. */
  lemma SentStays(m: Manager, n: Manager)
    requires AllSentOk(m) && n.sent == m.sent && n.initial == m.initial
    requires |m.accepted| <= |n.accepted| && n.accepted[..|m.accepted|] == m.accepted
    ensures AllSentOk(n)
  {
    forall k | 0 <= k < |n.sent|
      ensures SentOk(n, n.sent[k])
    {
      assert SentOk(m, m.sent[k]);
      var after := n.sent[k].after;
      assert after > 0 ==> n.accepted[after - 1] == n.accepted[..|m.accepted|][after - 1];
    }
  }

  lemma ParsedFacts(data: RefreshData, prior: Option<string>)
    requires Parsed(data, prior).Ok?
    ensures 1 <= Parsed(data, prior).value.ttl <= MAX_LIFETIME
    ensures prior.Some? ==> Parsed(data, prior).value.subject == prior.value
  {
  }

  lemma AcquireKeepsLock(m: Manager, id: CallerId, now: real, n: Manager)
    requires LockOk(m) && n == Acquire(m, id, now)
    ensures LockOk(n) && (Waiting(n) ==> Waiting(m) || |n.sent| == |m.sent| + 1) && |n.sent| >= |m.sent|
    ensures n == m.(callers := n.callers, holder := n.holder, sent := n.sent)
  {
  }

  lemma AcquireSends(m: Manager, id: CallerId, now: real, n: Manager)
    requires AllSentOk(m) && SnapshotOk(m) && n == Acquire(m, id, now)
    ensures AllSentOk(n)
  {
    if n.sent != m.sent {
      forall k | 0 <= k < |n.sent|
        ensures SentOk(n, n.sent[k])
      {
        if k < |m.sent| { assert SentOk(m, m.sent[k]); }
      }
    } else {
      SentStays(m, n);
    }
  }

  lemma AcquireKeeps(m: Manager, id: CallerId, now: real, n: Manager)
    requires Inv(m) && AheadOk(m) && n == Acquire(m, id, now)
    ensures Inv(n) && AheadOk(n)
  {
    AcquireKeepsLock(m, id, now, n);
    AcquireSends(m, id, now, n);
  }

  lemma RespondKeepsLock(m: Manager, id: CallerId, outcome: Outcome, now: real)
    requires LockOk(m)
    ensures LockOk(Respond(m, id, outcome, now))
  {
  }

  /** A reply sends nothing, and accepts at most one grant, for the caller that asked. */
  lemma RespondAccepts(m: Manager, id: CallerId, outcome: Outcome, now: real, n: Manager)
    requires n == Respond(m, id, outcome, now)
    ensures n.sent == m.sent && n.initial == m.initial && n.expected == m.expected
    ensures n.accepted == m.accepted
            || (id in m.callers && m.callers[id].Requesting? && ResponseOf(m, outcome).Ok?
                && n.accepted == m.accepted + [ResponseOf(m, outcome).value])
  {
  }

  lemma RespondKeepsSent(m: Manager, id: CallerId, outcome: Outcome, now: real, n: Manager)
    requires AllSentOk(m) && n == Respond(m, id, outcome, now)
    ensures AllSentOk(n)
  {
    RespondAccepts(m, id, outcome, now, n);
    SentStays(m, n);
  }

  lemma RespondKeepsSnapshot(m: Manager, id: CallerId, outcome: Outcome, now: real, n: Manager)
    requires SnapshotOk(m) && n == Respond(m, id, outcome, now)
    ensures SnapshotOk(n)
  {
  }

  lemma RespondKeepsSubject(m: Manager, id: CallerId, outcome: Outcome, now: real, n: Manager)
    requires SubjectOk(m) && n == Respond(m, id, outcome, now)
    ensures SubjectOk(n)
  {
    if id in m.callers && m.callers[id].Requesting? && ResponseOf(m, outcome).Ok? {
      ParsedFacts(outcome.data, m.subject);
      GrantKeepsSubject(m, n, ResponseOf(m, outcome).value);
    }
  }

  lemma RespondKeeps(m: Manager, id: CallerId, outcome: Outcome, now: real)
    requires Inv(m) && AheadOk(m)
    ensures Inv(Respond(m, id, outcome, now)) && AheadOk(Respond(m, id, outcome, now))
  {
    var n := Respond(m, id, outcome, now);
    RespondKeepsLock(m, id, outcome, now);
    RespondKeepsSent(m, id, outcome, now, n);
    RespondKeepsSnapshot(m, id, outcome, now, n);
    RespondKeepsSubject(m, id, outcome, now, n);
    RespondAccepts(m, id, outcome, now, n);
    if id in m.callers && m.callers[id].Requesting? {
      RespondEndsWaiting(m, id, outcome, now);
    }
  }

  lemma RespondEndsWaiting(m: Manager, id: CallerId, outcome: Outcome, now: real)
    requires LockOk(m) && id in m.callers && m.callers[id].Requesting?
    ensures Waiting(m) && !Waiting(Respond(m, id, outcome, now))
  {
  }

  lemma GrantKeepsSubject(m: Manager, n: Manager, g: Grant)
    requires SubjectOk(m) && 1 <= g.ttl <= MAX_LIFETIME && (m.subject.Some? ==> g.subject == m.subject.value)
    requires n.accepted == m.accepted + [g] && n.subject == Some(g.subject) && n.expected == m.expected
    ensures SubjectOk(n)
  {
  }

  /** A request under way has not been answered yet. */
  predicate AheadOk(m: Manager) {
    |m.accepted| + (if Waiting(m) then 1 else 0) <= |m.sent|
  }

  predicate Waiting(m: Manager) {
    m.holder.Some? && m.holder.value in m.callers && m.callers[m.holder.value].Requesting?
  }

  /** Calls, rotation hooks and cancellation touch only the callers and the lock. */
  lemma QueueTouches(m: Manager, e: Event, n: Manager)
    requires (e.Token? || e.Refresh? || e.Hook? || e.Cancelled?) && n == Apply(m, e)
    ensures n == m.(callers := n.callers, holder := n.holder)
  {
  }

  lemma QueueKeepsLock(m: Manager, e: Event, n: Manager)
    requires LockOk(m) && (e.Token? || e.Refresh? || e.Hook? || e.Cancelled?) && n == Apply(m, e)
    ensures LockOk(n) && (Waiting(n) ==> Waiting(m))
  {
  }

  lemma QueueKeeps(m: Manager, e: Event, n: Manager)
    requires Inv(m) && AheadOk(m) && (e.Token? || e.Refresh? || e.Hook? || e.Cancelled?) && n == Apply(m, e)
    ensures Inv(n) && AheadOk(n)
  {
    QueueTouches(m, e, n);
    QueueKeepsLock(m, e, n);
    SentStays(m, n);
  }

  lemma ApplyKeeps(m: Manager, e: Event)
    requires Inv(m) && AheadOk(m)
    ensures Inv(Apply(m, e)) && AheadOk(Apply(m, e))
  {
    if e.Lock? {
      AcquireKeeps(m, e.id, e.now, Apply(m, e));
    } else if e.Reply? {
      RespondKeeps(m, e.id, e.outcome, e.now);
    } else {
      QueueKeeps(m, e, Apply(m, e));
    }
  }

  lemma {:induction false} RunKeeps(m: Manager, events: seq<Event>)
    requires Inv(m) && AheadOk(m)
    ensures Inv(Run(m, events)) && AheadOk(Run(m, events))
    decreases |events|
  {
    if events != [] {
      RunKeeps(m, events[..|events| - 1]);
      ApplyKeeps(Run(m, events[..|events| - 1]), events[|events| - 1]);
    }
  }

  // ---- The claims ------------------------------------------------------------------------------

  /** Under any interleaving at most one caller has a request in flight. */
  lemma SingleFlight(initial: string, expected: Option<string>, rotates: bool, events: seq<Event>, a: CallerId,
                     b: CallerId)
    ensures var m := Run(NewManager(initial, expected, rotates), events);
            a in m.callers && b in m.callers && m.callers[a].Requesting? && m.callers[b].Requesting? ==> a == b
  {
    StartInv(initial, expected, rotates);
    RunKeeps(NewManager(initial, expected, rotates), events);
  }

  /** Each request carries the refresh token of the last refresh accepted before it was sent;
      the generation counts accepted refreshes; all accepted refreshes are of one subject, the
      expected one if there is any. */
  lemma TokensChain(initial: string, expected: Option<string>, rotates: bool, events: seq<Event>)
    ensures var m := Run(NewManager(initial, expected, rotates), events);
            && m.initial == initial && m.expected == expected
            && (forall k | 0 <= k < |m.sent| ::
                  && m.sent[k].after <= |m.accepted|
                  && m.sent[k].token == TokenAfter(initial, m.accepted, m.sent[k].after))
            && (if m.snapshot.None? then 0 else m.snapshot.value.generation) == |m.accepted| <= |m.sent|
            && (forall k | 0 <= k < |m.accepted| :: m.subject == Some(m.accepted[k].subject))
            && (expected.Some? ==> m.subject == expected)
  {
    StartInv(initial, expected, rotates);
    RunKeeps(NewManager(initial, expected, rotates), events);
    var m := Run(NewManager(initial, expected, rotates), events);
    RunKeepsOrigin(NewManager(initial, expected, rotates), events);
    forall k | 0 <= k < |m.sent|
      ensures m.sent[k].after <= |m.accepted| && m.sent[k].token == TokenAfter(initial, m.accepted, m.sent[k].after)
    {
      assert SentOk(m, m.sent[k]);
    }
  }

  lemma {:induction false} RunKeepsOrigin(m: Manager, events: seq<Event>)
    ensures Run(m, events).initial == m.initial && Run(m, events).expected == m.expected
             && Run(m, events).rotates == m.rotates
    decreases |events|
  {
    if events != [] {
      RunKeepsOrigin(m, events[..|events| - 1]);
    }
  }

  /** The subject never changes once set. */
  lemma {:induction false} SubjectIsConstant(m: Manager, events: seq<Event>)
    requires m.subject.Some?
    ensures Run(m, events).subject == m.subject
    decreases |events|
  {
    if events != [] {
      var before, e := Run(m, events[..|events| - 1]), events[|events| - 1];
      SubjectIsConstant(m, events[..|events| - 1]);
      if e.Reply? && ResponseOf(before, e.outcome).Ok? {
        ParsedFacts(e.outcome.data, before.subject);
      }
    }
  }

  /** A grant is usable at the moment it is issued exactly when it lasts at least two seconds. */
  lemma UsableWhenIssued(s: Snapshot, ttl: nat, now: real)
    requires s.expiry == now + ttl as real
    ensures Usable(s, ttl, now) <==> ttl >= 2
  {
  }

  /** In every run a request sent for a failed id token was sent while that token was the
      current one, or there was none. */
  lemma FailuresAreCurrent(initial: string, expected: Option<string>, rotates: bool, events: seq<Event>, k: nat)
    requires k < |Run(NewManager(initial, expected, rotates), events).sent|
    ensures var m := Run(NewManager(initial, expected, rotates), events);
            var s := m.sent[k];
            s.failed.Some? ==>
              s.after <= |m.accepted| && (s.after == 0 || m.accepted[s.after - 1].idToken == s.failed.value)
  {
    StartInv(initial, expected, rotates);
    RunKeeps(NewManager(initial, expected, rotates), events);
    var m := Run(NewManager(initial, expected, rotates), events);
    assert SentOk(m, m.sent[k]);
  }

  /** Requests and grants are only added, and a new request comes after the earlier grants. */
  predicate Grows(m: Manager, n: Manager) {
    && m.accepted <= n.accepted && m.sent <= n.sent
    && forall k | |m.sent| <= k < |n.sent| :: |m.accepted| <= n.sent[k].after
  }

  lemma StepGrows(m: Manager, e: Event, n: Manager)
    requires n == Apply(m, e)
    ensures m.accepted <= n.accepted && m.sent <= n.sent
    ensures forall k | |m.sent| <= k < |n.sent| :: n.sent[k].after == |m.accepted|
  {
    if e.Reply? {
      RespondAccepts(m, e.id, e.outcome, e.now, n);
    } else if !e.Lock? {
      QueueTouches(m, e, n);
    }
  }

  lemma {:induction false} RunGrows(m: Manager, events: seq<Event>)
    ensures Grows(m, Run(m, events))
    decreases |events|
  {
    if events != [] {
      RunGrows(m, events[..|events| - 1]);
      StepGrows(Run(m, events[..|events| - 1]), events[|events| - 1], Run(m, events));
    }
  }

  /** A late 401 for a superseded id token sends nothing at any later point: once another token
      is current, and unless the failed one is granted again, no request is ever sent for it,
      whoever reports it and however often. */
  lemma StaleFailureSendsNothing(m: Manager, events: seq<Event>, failed: string)
    requires Inv(m) && AheadOk(m) && m.accepted != []
    requires forall j | |m.accepted| - 1 <= j < |Run(m, events).accepted| ::
               Run(m, events).accepted[j].idToken != failed
    ensures m.sent <= Run(m, events).sent
    ensures forall k | |m.sent| <= k < |Run(m, events).sent| :: Run(m, events).sent[k].failed != Some(failed)
  {
    var n := Run(m, events);
    RunGrows(m, events);
    RunKeeps(m, events);
    forall k | |m.sent| <= k < |n.sent|
      ensures n.sent[k].failed != Some(failed)
    {
      assert SentOk(n, n.sent[k]) && |m.accepted| <= n.sent[k].after;
    }
  }

  /** Whoever reports a superseded token is answered with the current snapshot. */
  lemma StaleFailureIsAnswered(m: Manager, id: CallerId, now: real)
    requires Inv(m) && id in m.callers && m.callers[id].Queued? && m.callers[id].failed.Some?
    requires m.snapshot.Some? && m.snapshot.value.idToken != m.callers[id].failed.value
    ensures Acquire(m, id, now).sent == m.sent && Acquire(m, id, now).holder == m.holder
    ensures m.holder.None? ==> Acquire(m, id, now).callers[id] == Answered(Ok(m.snapshot.value))
  {
  }

  /** An event of concurrent `token` callers at one instant whose refresh succeeds with a
      lifetime of at least two seconds. */
  predicate CalmEvent(m: Manager, e: Event, now: real) {
    match e
    case Token(_, at) => at == now
    case Lock(_, at) => at == now
    case Reply(_, outcome, at) => at == now && ResponseOf(m, outcome).Ok? && ResponseOf(m, outcome).value.ttl >= 2
    case Hook(_, _) => true
    case _ => false
  }

  predicate CalmRun(m: Manager, events: seq<Event>, now: real)
    decreases |events|
  {
    events == [] || (CalmRun(m, events[..|events| - 1], now)
                     && CalmEvent(Run(m, events[..|events| - 1]), events[|events| - 1], now))
  }

  /** The callers that called `token` in a run. */
  function Called(events: seq<Event>): set<CallerId> {
    if events == [] then {}
    else
      var last := events[|events| - 1];
      Called(events[..|events| - 1]) + if last.Token? then {last.id} else {}
  }

  /** The callers of this run wait for the lock without a failed token, or are further; the
      others were answered before. */
  predicate Callers(m: Manager, called: set<CallerId>) {
    && (forall id | id in called :: id in m.callers)
    && (forall id | id in called && m.callers[id].Queued? :: m.callers[id].failed.None?)
    && (forall id | id in m.callers && id !in called :: m.callers[id].Answered?)
  }

  /** Before the one refresh is accepted: nothing sent, or one request in flight. */
  predicate BeforeGrant(start: Manager, m: Manager, called: set<CallerId>) {
    && m.snapshot == start.snapshot && m.lastTtl == start.lastTtl
    && (forall id | id in called && id in m.callers :: !m.callers[id].Answered? && !m.callers[id].Rotating?)
    && |m.sent| == |start.sent| + if m.holder.Some? then 1 else 0
  }

  predicate SameAnswer(c: Caller, s: Snapshot) {
    && (c.Answered? && c.result.Ok? ==> c.result.value == s)
    && (c.Rotating? ==> c.snapshot == s)
  }

  /** Once it is accepted: everybody is answered from the new snapshot. */
  predicate AfterGrant(start: Manager, m: Manager, now: real, called: set<CallerId>) {
    && Reusable(m, now) && !Waiting(m) && |m.sent| == |start.sent| + 1
    && forall id | id in called && id in m.callers :: SameAnswer(m.callers[id], m.snapshot.value)
  }

  predicate Flight(start: Manager, m: Manager, now: real, called: set<CallerId>) {
    LockOk(m) && Callers(m, called) && (BeforeGrant(start, m, called) || AfterGrant(start, m, now, called))
  }

  lemma CallInFlight(start: Manager, m: Manager, id: CallerId, now: real, n: Manager, called: set<CallerId>)
    requires !Reusable(start, now) && Flight(start, m, now, called) && n == CallToken(m, id, now)
    ensures Flight(start, n, now, called + {id})
  {
    assert id !in called ==> Free(m, id);
  }

  lemma LockInFlight(start: Manager, m: Manager, id: CallerId, now: real, n: Manager, called: set<CallerId>)
    requires !Reusable(start, now) && Flight(start, m, now, called) && n == Acquire(m, id, now)
    ensures Flight(start, n, now, called)
  {
  }

  lemma HookInFlight(start: Manager, m: Manager, id: CallerId, saved: bool, now: real, n: Manager,
                     called: set<CallerId>)
    requires Flight(start, m, now, called) && n == Rotated(m, id, saved)
    ensures Flight(start, n, now, called)
  {
  }

  lemma ReplyInFlight(start: Manager, m: Manager, id: CallerId, outcome: Outcome, now: real, n: Manager,
                      called: set<CallerId>)
    requires Flight(start, m, now, called) && n == Respond(m, id, outcome, now)
    requires ResponseOf(m, outcome).Ok? && ResponseOf(m, outcome).value.ttl >= 2
    ensures Flight(start, n, now, called)
  {
    if id in m.callers && m.callers[id].Requesting? {
      UsableWhenIssued(Issued(m, ResponseOf(m, outcome).value, now), ResponseOf(m, outcome).value.ttl, now);
      RespondEndsWaiting(m, id, outcome, now);
      RespondKeepsLock(m, id, outcome, now);
    }
  }

  /** Nobody is waiting, requesting or rotating: whoever called before has been answered. */
  predicate AtRest(m: Manager) {
    m.holder.None? && forall id | id in m.callers :: m.callers[id].Answered?
  }

  lemma {:induction false} CalmRunFlies(start: Manager, events: seq<Event>, now: real)
    requires AtRest(start) && !Reusable(start, now) && CalmRun(start, events, now)
    ensures Flight(start, Run(start, events), now, Called(events))
    decreases |events|
  {
    if events != [] {
      var m, e := Run(start, events[..|events| - 1]), events[|events| - 1];
      var called := Called(events[..|events| - 1]);
      CalmRunFlies(start, events[..|events| - 1], now);
      match e
      case Token(id, at) => CallInFlight(start, m, id, now, Apply(m, e), called);
      case Lock(id, at) => LockInFlight(start, m, id, now, Apply(m, e), called);
      case Reply(id, outcome, at) => ReplyInFlight(start, m, id, outcome, now, Apply(m, e), called);
      case Hook(id, saved) => HookInFlight(start, m, id, saved, now, Apply(m, e), called);
    }
  }

  /** From any manager at rest whose token needs a refresh, with any number of `token` callers
      at one instant, in any interleaving, whose refresh succeeds with a lifetime of at least
      two seconds: one request in all, sent as soon as anyone gets past the lock, and every
      caller that gets a token gets the same one. */
  lemma ConcurrentCallersShareOneRequest(start: Manager, events: seq<Event>, now: real, id: CallerId)
    requires AtRest(start) && !Reusable(start, now) && CalmRun(start, events, now) && id in Called(events)
    ensures var m := Run(start, events);
            && |start.sent| <= |m.sent| <= |start.sent| + 1 && id in m.callers
            && (!m.callers[id].Queued? ==> |m.sent| == |start.sent| + 1)
            && (m.callers[id].Answered? && m.callers[id].result.Ok? ==> m.snapshot == Some(m.callers[id].result.value))
  {
    CalmRunFlies(start, events, now);
  }

  /** The lifetime decides: after a caller's refresh succeeds, the next waiting caller is
      answered without a request, at the same instant, exactly when the grant lasts two seconds
      or more. */
  lemma NextCallerSendsNothingIff(m: Manager, a: CallerId, b: CallerId, outcome: Outcome, now: real, n: Manager)
    requires Inv(m) && a in m.callers && m.callers[a].Requesting? && b in m.callers && m.callers[b] == Queued(None)
    requires ResponseOf(m, outcome).Ok? && n == Rotated(Respond(m, a, outcome, now), a, true)
    ensures n.holder.None? && n.callers[b] == Queued(None)
    ensures Acquire(n, b, now).sent == n.sent <==> ResponseOf(m, outcome).value.ttl >= 2
  {
    var g := ResponseOf(m, outcome).value;
    UsableWhenIssued(Issued(m, g, now), g.ttl, now);
  }

  const SHORT: Outcome := Data(RefreshData(Text("u"), Text("i"), Text("r"), Whole(1)))

  /** With a lifetime of one second the second of two concurrent callers refreshes again. */
  lemma ShortLifetimeRepeats()
    ensures var called := CallToken(CallToken(NewManager("r", None, false), 0, 0.0), 1, 0.0);
            |Acquire(Respond(Acquire(called, 0, 0.0), 0, SHORT, 0.0), 1, 0.0).sent| == 2
  {
    var called := CallToken(CallToken(NewManager("r", None, false), 0, 0.0), 1, 0.0);
    var held := Acquire(called, 0, 0.0);
    assert held.callers[0] == Requesting && held.callers[1] == Queued(None) && |held.sent| == 1;
    assert !IsSpace("u"[0]) && !IsSpace("i"[0]) && !IsSpace("r"[0]);
    assert Parsed(SHORT.data, None) == Ok(Grant("u", "i", "r", 1));
    var after := Respond(held, 0, SHORT, 0.0);
    UsableWhenIssued(after.snapshot.value, 1, 0.0);
    assert after.callers[1] == Queued(None) && after.holder.None?;
  }
}
